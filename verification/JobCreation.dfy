/** Starting a run as a Kubernetes job: the job, the secrets it mounts, and what is left
    behind when the cluster's API refuses a call or loses its answer. */
module JobCreation {
  import opened Snapshots

  /** How a writing call ends. A lost call takes effect and still fails. */
  datatype Answer = Done | Refused | Lost

  type Uid = nat

  datatype Secret = Secret(data: string, owner: Option<Uid>)

  datatype Job = Job(uid: Uid, mounts: set<string>, finished: bool)

  /** What every call of one dispatch answers. A lookup that answers says what is there; one
      that does not fails with some other error. */
  datatype Answers = Answers(
    jobLookup: bool,
    accountLookup: bool, accountCreate: Answer,
    secretLookup: bool, secretCreate: Answer,
    token: Option<string>, suffix: string, tokenCreate: Answer,
    jobCreate: Answer,
    secretDelete: Answer, tokenDelete: Answer,
    ownerGet: string -> bool, ownerUpdate: string -> Answer)

  /** A run to start. `encoded` is the length of its document in base64, `decoded` the document;
      `wantsToken` tells that it is a Terraform run and a token issuer is configured. */
  datatype Request = Request(run: string, encoded: nat, decoded: Option<string>, account: string, wantsToken: bool)

  datatype Reason = RunTooLarge | AccountNotCreated | SecretNotCreated | JobNotCreated

  datatype Result = Ok | Rejected(reason: Reason)

  const MAX_KUBERNETES_SECRET_SIZE := 1048576
  const SECRET_METADATA_OVERHEAD := 10 * 1024
  const EFFECTIVE_MAX_RUN_JSON_SIZE := MAX_KUBERNETES_SECRET_SIZE - SECRET_METADATA_OVERHEAD

  function JobName(run: string): string { "runner-" + run }

  function SecretName(run: string): string { "run-json-" + run }

  function TokenName(run: string, suffix: string): string { "wif-token-" + run + "-" + suffix }

  lemma NamesDiffer(run: string, suffix: string)
    ensures SecretName(run) != TokenName(run, suffix)
  {
    assert SecretName(run)[0] == 'r' && TokenName(run, suffix)[0] == 'w';
  }

  /** An estimate from above: padding counts as data. */
  function EstimateRunJsonSize(encoded: nat): nat {
    encoded / 4 * 3
  }

  /** A document of k bytes has 4 * ((k + 2) / 3) characters in base64: the estimate is never too
      small, and at most two bytes too large. */
  lemma TheEstimateIsFromAbove(k: nat)
    ensures k <= EstimateRunJsonSize(4 * ((k + 2) / 3)) <= k + 2
  {
  }

  // ----- the conditions on the cluster's answers -----

  /** The token secret exists after the attempt to make it. */
  predicate TokenStored(q: Request, a: Answers, taken: bool) {
    q.wantsToken && a.token.Some? && !a.tokenCreate.Refused? && !taken
  }

  /** ... and the dispatch knows it. */
  predicate TokenKnown(q: Request, a: Answers, taken: bool) {
    TokenStored(q, a, taken) && a.tokenCreate.Done?
  }

  predicate OwnerSet(a: Answers, name: string) {
    a.ownerGet(name) && !a.ownerUpdate(name).Refused?
  }

  /** The secrets a failed dispatch leaves behind. */
  ghost function LeftBehind(q: Request, a: Answers, before: map<string, Secret>, reason: Reason): set<string> {
    var secret, token := SecretName(q.run), TokenName(q.run, a.suffix);
    match reason
    case RunTooLarge => {}
    case AccountNotCreated => {}
    case SecretNotCreated =>
      if q.decoded.Some? && secret !in before && a.secretLookup && a.secretCreate.Lost? then {secret} else {}
    case JobNotCreated =>
      (if secret !in before && a.secretDelete.Refused? then {secret} else {}) +
      (if TokenStored(q, a, token in before) && (a.tokenCreate.Lost? || a.tokenDelete.Refused?) then {token} else {})
  }

  /** The secrets of others, such as a job that was not found, that it deletes. */
  ghost function TakenAway(q: Request, a: Answers, before: map<string, Secret>, reason: Reason): set<string> {
    if reason.JobNotCreated? && SecretName(q.run) in before && !a.secretDelete.Refused? then {SecretName(q.run)} else {}
  }

  // ----- how a dispatch ends -----

  datatype State = State(jobs: map<string, Job>, secrets: map<string, Secret>, nextUid: Uid)

  ghost predicate WellFormed(s: State) {
    && (forall n :: n in s.jobs ==> s.jobs[n].uid < s.nextUid)
    && (forall n :: n in s.secrets && s.secrets[n].owner.Some? ==> s.secrets[n].owner.value < s.nextUid)
  }

  function MountsOf(q: Request, a: Answers, before: State): set<string> {
    var token := TokenName(q.run, a.suffix);
    {SecretName(q.run)} + if TokenKnown(q, a, token in before.secrets) then {token} else {}
  }

  /** One new job that mounts the run's document and, if there is one, its token. */
  ghost predicate IsStarted(q: Request, a: Answers, before: State, after: State) {
    var job, token := JobName(q.run), TokenName(q.run, a.suffix);
    && job !in before.jobs && a.jobCreate.Done?
    && after.jobs == before.jobs[job := Job(before.nextUid, MountsOf(q, a, before), false)]
    && after.secrets.Keys ==
         before.secrets.Keys + {SecretName(q.run)} + (if TokenStored(q, a, token in before.secrets) then {token} else {})
    && MountsOf(q, a, before) <= after.secrets.Keys
    && (forall n :: n in MountsOf(q, a, before) ==>
         after.secrets[n].owner == if OwnerSet(a, n) then Some(before.nextUid)
                                   else if n in before.secrets then before.secrets[n].owner else None)
    && (forall n :: n in before.secrets && n !in MountsOf(q, a, before) ==> after.secrets[n] == before.secrets[n])
    && (SecretName(q.run) !in before.secrets ==> Some(after.secrets[SecretName(q.run)].data) == q.decoded)
    && (forall n :: n in before.secrets ==> after.secrets[n].data == before.secrets[n].data)
    && (TokenStored(q, a, token in before.secrets) ==> Some(after.secrets[token].data) == a.token)
    && (TokenStored(q, a, token in before.secrets) && token !in MountsOf(q, a, before) ==> after.secrets[token].owner == None)
  }

  /** No job, unless the answer to its creation was lost, and what is said above about the secrets. */
  ghost predicate IsUndone(q: Request, a: Answers, before: State, after: State, reason: Reason) {
    var job := JobName(q.run);
    && after.jobs == (if job !in before.jobs && reason.JobNotCreated? && a.jobCreate.Lost?
                      then before.jobs[job := Job(before.nextUid, MountsOf(q, a, before), false)] else before.jobs)
    && after.secrets.Keys == before.secrets.Keys + LeftBehind(q, a, before.secrets, reason) - TakenAway(q, a, before.secrets, reason)
    && (forall n :: n in before.secrets && n in after.secrets ==> after.secrets[n] == before.secrets[n])
  }

  /** No answer to a create is lost, and deletes and owner updates succeed. */
  ghost predicate Dependable(a: Answers) {
    && !a.secretCreate.Lost? && !a.tokenCreate.Lost?
    && !a.secretDelete.Refused? && !a.tokenDelete.Refused?
    && forall n :: OwnerSet(a, n)
  }

  /** With a dependable API every secret a started run added belongs to its job, and the job
      owns all it mounts. */
  lemma AJobOwnsItsSecrets(q: Request, a: Answers, before: State, after: State)
    requires IsStarted(q, a, before, after) && Dependable(a)
    ensures var job := after.jobs[JobName(q.run)];
      && after.secrets.Keys == before.secrets.Keys + job.mounts
      && forall n :: n in job.mounts ==> after.secrets[n].owner == Some(job.uid)
  {
  }

  /** A started job mounts the run's document, and a token exactly if one is wanted and could be
      fetched and stored; both hold what was asked for, unless they were there before. */
  lemma WhatAStartedJobReads(q: Request, a: Answers, before: State, after: State)
    requires IsStarted(q, a, before, after)
    requires SecretName(q.run) !in before.secrets && TokenName(q.run, a.suffix) !in before.secrets
    ensures var mounts, document, token := after.jobs[JobName(q.run)].mounts, SecretName(q.run), TokenName(q.run, a.suffix);
      && document in mounts && Some(after.secrets[document].data) == q.decoded
      && (token in mounts <==> q.wantsToken && a.token.Some? && a.tokenCreate == Done)
      && (token in mounts ==> Some(after.secrets[token].data) == a.token)
      && mounts <= {document, token}
  {
    NamesDiffer(q.run, a.suffix);
  }

  /** ... and a failed dispatch leaves no secret that it made. */
  lemma AFailureLeavesNoSecret(q: Request, a: Answers, before: State, after: State, reason: Reason)
    requires IsUndone(q, a, before, after, reason) && Dependable(a)
    ensures after.secrets.Keys <= before.secrets.Keys
  {
  }

  /** A started job owns a secret it mounts exactly if the owner update of that secret got
      through: no older secret carries its uid. */
  lemma OwnedIffUpdated(q: Request, a: Answers, before: State, after: State, n: string)
    requires WellFormed(before) && IsStarted(q, a, before, after) && n in after.jobs[JobName(q.run)].mounts
    ensures after.secrets[n].owner == Some(after.jobs[JobName(q.run)].uid) <==> OwnerSet(a, n)
  {
  }

  /** A failed dispatch leaves secrets exactly if a create took effect without the dispatch
      knowing, or deleting one that it made was refused. */
  lemma LeavesSecretsIff(q: Request, a: Answers, before: State, after: State, reason: Reason)
    requires IsUndone(q, a, before, after, reason)
    ensures !(after.secrets.Keys <= before.secrets.Keys) <==>
      var newSecret, newToken := SecretName(q.run) !in before.secrets,
                                 TokenStored(q, a, TokenName(q.run, a.suffix) in before.secrets);
      match reason
      case RunTooLarge => false
      case AccountNotCreated => false
      case SecretNotCreated => newSecret && q.decoded.Some? && a.secretLookup && a.secretCreate.Lost?
      case JobNotCreated =>
        (newSecret && a.secretDelete.Refused?) || (newToken && (a.tokenCreate.Lost? || a.tokenDelete.Refused?))
  {
  }

  /** The run's job, if it is in the cluster, finds every secret it mounts. */
  ghost predicate Equipped(q: Request, s: State) {
    JobName(q.run) in s.jobs ==> s.jobs[JobName(q.run)].mounts <= s.secrets.Keys
  }

  lemma AStartedJobIsEquipped(q: Request, a: Answers, before: State, after: State)
    requires IsStarted(q, a, before, after)
    ensures Equipped(q, after)
  {
  }

  /** After a failed dispatch the run's job is there without a secret it mounts exactly if the
      creation of the job failed, the job is there all the same, because the lookup missed it or
      the answer to its creation was lost, and the deletion of a secret it mounts got through. */
  lemma AFailureLeavesTheJobEquippedIff(q: Request, a: Answers, before: State, after: State, reason: Reason)
    requires IsUndone(q, a, before, after, reason) && Equipped(q, before)
    ensures !Equipped(q, after) <==>
      && reason.JobNotCreated?
      && if JobName(q.run) in before.jobs
         then SecretName(q.run) in before.jobs[JobName(q.run)].mounts && !a.secretDelete.Refused?
         else a.jobCreate.Lost? && (!a.secretDelete.Refused? ||
                (TokenKnown(q, a, TokenName(q.run, a.suffix) in before.secrets) && !a.tokenDelete.Refused?))
  {
    NamesDiffer(q.run, a.suffix);
    var secret, token, job := SecretName(q.run), TokenName(q.run, a.suffix), JobName(q.run);
    if job in before.jobs {
      assert after.jobs[job].mounts <= before.secrets.Keys;
      assert secret in before.jobs[job].mounts && secret !in after.secrets ==> !(after.jobs[job].mounts <= after.secrets.Keys);
    } else if job in after.jobs {
      assert after.jobs[job].mounts == MountsOf(q, a, before);
    }
  }

  // ----- dispatches that go wrong -----

  /** A dispatch of run "r" into an empty cluster, where every call but those changed succeeds. */
  const SAMPLE_RUN := Request("r", 4, Some("{}"), "runner", true)

  const ALL_WELL := Answers(true, true, Done, true, Done, Some("t"), "x", Done, Done, Done, Done, _ => true, _ => Done)

  const EMPTY := State(map[], map[], 0)

  /** If every call succeeds the run is started. */
  lemma AllWellStartsTheRun(q: Request, before: State, accounts: set<string>, k: nat)
    requires q.encoded == 4 * ((k + 2) / 3) && k + 2 <= EFFECTIVE_MAX_RUN_JSON_SIZE && q.decoded.Some?
    ensures ResultOf(q, ALL_WELL, before, accounts) == Ok
  {
  }

  /** A dispatch succeeds exactly if the job is found, or if the document fits, the account is found or
      its creation answered, the document decodes and is found or its creation answered, and the
      job's creation answered. */
  lemma ADispatchSucceedsIff(q: Request, a: Answers, before: State, accounts: set<string>)
    ensures ResultOf(q, a, before, accounts) == Ok <==>
      if JobName(q.run) in before.jobs then a.jobLookup
      else
        && q.encoded / 4 * 3 <= 1_038_336
        && (if q.account in accounts then a.accountLookup else a.accountCreate == Done)
        && q.decoded != None && a.secretLookup && (SecretName(q.run) in before.secrets || a.secretCreate == Done)
        && a.jobCreate == Done
  {
  }

  /** A document whose base64 text does not fit is rejected, however well the calls go. */
  lemma ALargeRunIsRejected(q: Request, a: Answers, before: State, accounts: set<string>, k: nat)
    requires q.encoded == 4 * ((k + 2) / 3) && k > 1_038_336 && JobName(q.run) !in before.jobs
    ensures ResultOf(q, a, before, accounts) == Rejected(RunTooLarge)
  {
  }

  /** The document is stored, the answer is lost: the dispatch fails and the secret stays. */
  lemma ALostAnswerLeavesTheDocument()
    ensures var a, name := ALL_WELL.(secretCreate := Lost), SecretName("r");
      && ResultOf(SAMPLE_RUN, a, EMPTY, {}) == Rejected(SecretNotCreated)
      && forall after :: IsUndone(SAMPLE_RUN, a, EMPTY, after, SecretNotCreated) ==> after.secrets.Keys == {name}
  {
  }

  /** The job is created, the answer is lost: the job stays, and both its secrets are deleted. */
  lemma ALostAnswerTakesTheSecretsOfTheJob()
    ensures var a := ALL_WELL.(jobCreate := Lost);
      && ResultOf(SAMPLE_RUN, a, EMPTY, {}) == Rejected(JobNotCreated)
      && forall after :: IsUndone(SAMPLE_RUN, a, EMPTY, after, JobNotCreated) ==>
           JobName("r") in after.jobs && after.secrets == map[] && !Equipped(SAMPLE_RUN, after)
  {
    NamesDiffer("r", "x");
    forall after | IsUndone(SAMPLE_RUN, ALL_WELL.(jobCreate := Lost), EMPTY, after, JobNotCreated)
      ensures JobName("r") in after.jobs && after.secrets == map[] && !Equipped(SAMPLE_RUN, after)
    {
      assert after.secrets.Keys == {};
      assert SecretName("r") in after.jobs[JobName("r")].mounts;
    }
  }

  /** The job runs already, but its lookup fails: its document is deleted. */
  lemma AMissedJobLosesItsDocument()
    ensures var a := ALL_WELL.(jobLookup := false);
      var before := State(map[JobName("r") := Job(0, {SecretName("r")}, false)], map[SecretName("r") := Secret("{}", Some(0))], 1);
      && ResultOf(SAMPLE_RUN, a, before, {}) == Rejected(JobNotCreated)
      && forall after :: IsUndone(SAMPLE_RUN, a, before, after, JobNotCreated) ==> after.jobs == before.jobs && after.secrets == map[]
  {
    NamesDiffer("r", "x");
    var before := State(map[JobName("r") := Job(0, {SecretName("r")}, false)], map[SecretName("r") := Secret("{}", Some(0))], 1);
    forall after | IsUndone(SAMPLE_RUN, ALL_WELL.(jobLookup := false), before, after, JobNotCreated)
      ensures after.secrets == map[]
    {
      assert after.secrets.Keys == {};
    }
  }

  // ----- the secrets on the way there -----

  predicate AccountReady(name: string, a: Answers, accounts: set<string>) {
    if name in accounts then a.accountLookup else a.accountCreate.Done?
  }

  predicate DocumentReady(q: Request, a: Answers, secrets: map<string, Secret>) {
    q.decoded.Some? && a.secretLookup && (SecretName(q.run) in secrets || a.secretCreate.Done?)
  }

  /** An existing secret is kept as it is. */
  function WithDocument(q: Request, a: Answers, secrets: map<string, Secret>): map<string, Secret> {
    if q.decoded.Some? && a.secretLookup && SecretName(q.run) !in secrets && !a.secretCreate.Refused?
    then secrets[SecretName(q.run) := Secret(q.decoded.value, None)] else secrets
  }

  function WithToken(q: Request, a: Answers, secrets: map<string, Secret>): map<string, Secret> {
    var token := TokenName(q.run, a.suffix);
    if TokenStored(q, a, token in secrets) then secrets[token := Secret(a.token.value, None)] else secrets
  }

  function KnownToken(q: Request, a: Answers, secrets: map<string, Secret>): Option<string> {
    var token := TokenName(q.run, a.suffix);
    if TokenKnown(q, a, token in secrets) then Some(token) else None
  }

  function WithoutSecrets(q: Request, a: Answers, token: Option<string>, secrets: map<string, Secret>): map<string, Secret> {
    secrets - (if a.secretDelete.Refused? then {} else {SecretName(q.run)})
            - (if token.None? || a.tokenDelete.Refused? then {} else {token.value})
  }

  ghost predicate AreOwned(q: Request, a: Answers, token: Option<string>, uid: Uid,
                           before: map<string, Secret>, after: map<string, Secret>) {
    && after.Keys == before.Keys
    && forall n :: n in before ==>
         after[n] == if (n == SecretName(q.run) || Some(n) == token) && OwnerSet(a, n) then before[n].(owner := Some(uid))
                     else before[n]
  }

  /** A run is started, or fails at the first thing that is missing. */
  function ResultOf(q: Request, a: Answers, before: State, accounts: set<string>): Result {
    if JobName(q.run) in before.jobs && a.jobLookup then Ok
    else if EstimateRunJsonSize(q.encoded) > EFFECTIVE_MAX_RUN_JSON_SIZE then Rejected(RunTooLarge)
    else if !AccountReady(q.account, a, accounts) then Rejected(AccountNotCreated)
    else if !DocumentReady(q, a, before.secrets) then Rejected(SecretNotCreated)
    else if JobName(q.run) in before.jobs || !a.jobCreate.Done? then Rejected(JobNotCreated)
    else Ok
  }

  lemma SecretsStayWellFormed(q: Request, a: Answers, s: State)
    requires WellFormed(s)
    ensures WellFormed(s.(secrets := WithDocument(q, a, s.secrets)))
  {
  }

  lemma DeletingStaysWellFormed(q: Request, a: Answers, token: Option<string>, before: State, after: State)
    requires WellFormed(before) && after.nextUid == before.nextUid + 1
    requires forall n :: n in after.jobs && n !in before.jobs ==> after.jobs[n].uid == before.nextUid
    requires forall n :: n in after.jobs && n in before.jobs ==> after.jobs[n] == before.jobs[n]
    requires after.secrets == WithoutSecrets(q, a, token, WithToken(q, a, WithDocument(q, a, before.secrets)))
    ensures WellFormed(after)
  {
  }

  lemma OwningStaysWellFormed(q: Request, a: Answers, token: Option<string>, before: State, after: State)
    requires WellFormed(before) && after.nextUid == before.nextUid + 1
    requires forall n :: n in after.jobs && n !in before.jobs ==> after.jobs[n].uid == before.nextUid
    requires forall n :: n in after.jobs && n in before.jobs ==> after.jobs[n] == before.jobs[n]
    requires AreOwned(q, a, token, before.nextUid, WithToken(q, a, WithDocument(q, a, before.secrets)), after.secrets)
    ensures WellFormed(after)
  {
  }

  lemma NothingWasDone(q: Request, a: Answers, before: State, after: State, reason: Reason)
    requires after.jobs == before.jobs && after.secrets == before.secrets && (reason.RunTooLarge? || reason.AccountNotCreated?)
    ensures IsUndone(q, a, before, after, reason)
  {
  }

  lemma TheDocumentFails(q: Request, a: Answers, before: State, after: State)
    requires after.jobs == before.jobs && after.secrets == WithDocument(q, a, before.secrets) && !DocumentReady(q, a, before.secrets)
    ensures IsUndone(q, a, before, after, SecretNotCreated)
  {
  }

  lemma TheTokenIsIndependent(q: Request, a: Answers, secrets: map<string, Secret>)
    ensures KnownToken(q, a, WithDocument(q, a, secrets)) == KnownToken(q, a, secrets)
    ensures TokenStored(q, a, TokenName(q.run, a.suffix) in WithDocument(q, a, secrets))
         == TokenStored(q, a, TokenName(q.run, a.suffix) in secrets)
  {
    NamesDiffer(q.run, a.suffix);
  }

  lemma TheJobFails(q: Request, a: Answers, before: State, after: State)
    requires DocumentReady(q, a, before.secrets)
    requires after.secrets == WithoutSecrets(q, a, KnownToken(q, a, before.secrets), WithToken(q, a, WithDocument(q, a, before.secrets)))
    requires after.jobs == if JobName(q.run) in before.jobs || a.jobCreate.Refused? then before.jobs
                           else before.jobs[JobName(q.run) := Job(before.nextUid, MountsOf(q, a, before), false)]
    requires JobName(q.run) in before.jobs || !a.jobCreate.Done?
    ensures IsUndone(q, a, before, after, JobNotCreated)
  {
  }

  lemma TheJobStarts(q: Request, a: Answers, before: State, after: State)
    requires DocumentReady(q, a, before.secrets) && JobName(q.run) !in before.jobs && a.jobCreate.Done?
    requires AreOwned(q, a, KnownToken(q, a, before.secrets), before.nextUid,
                      WithToken(q, a, WithDocument(q, a, before.secrets)), after.secrets)
    requires after.jobs == before.jobs[JobName(q.run) := Job(before.nextUid, MountsOf(q, a, before), false)]
    ensures IsStarted(q, a, before, after)
  {
  }

  class Cluster {
    var jobs: map<string, Job>
    var secrets: map<string, Secret>
    var accounts: set<string>
    var nextUid: Uid

    ghost function Now(): State
      reads this`jobs, this`secrets, this`nextUid
    {
      State(jobs, secrets, nextUid)
    }

    constructor ()
      ensures WellFormed(Now()) && jobs == map[] && secrets == map[]
    {
      jobs, secrets, accounts, nextUid := map[], map[], {}, 0;
    }

    /** The service account stays even if the job is not created. */
    method CreateServiceAccount(name: string, a: Answers) returns (ok: bool)
      modifies this`accounts
      ensures ok <==> AccountReady(name, a, old(accounts))
      ensures accounts == if a.accountCreate.Refused? then old(accounts) else old(accounts) + {name}
    {
      if a.accountLookup && name in accounts {
        return true;
      }
      if name in accounts || a.accountCreate.Refused? {
        return false;
      }
      accounts := accounts + {name};
      ok := a.accountCreate.Done?;
    }

    method CreateSecret(name: string, data: string, answer: Answer) returns (ok: bool)
      modifies this`secrets
      ensures ok <==> name !in old(secrets) && answer.Done?
      ensures secrets == if name in old(secrets) || answer.Refused? then old(secrets) else old(secrets)[name := Secret(data, None)]
    {
      if name in secrets || answer.Refused? {
        return false;
      }
      secrets := secrets[name := Secret(data, None)];
      ok := answer.Done?;
    }

    method CreateRunJsonSecret(q: Request, a: Answers) returns (ok: bool)
      modifies this`secrets
      ensures ok <==> DocumentReady(q, a, old(secrets))
      ensures secrets == WithDocument(q, a, old(secrets))
    {
      if q.decoded.None? {
        return false;
      }
      if !a.secretLookup {
        return false;
      }
      if SecretName(q.run) in secrets {
        return true;
      }
      ok := CreateSecret(SecretName(q.run), q.decoded.value, a.secretCreate);
    }

    /** A run without a token starts all the same. */
    method CreateWifTokenSecret(q: Request, a: Answers) returns (name: Option<string>)
      modifies this`secrets
      ensures name == KnownToken(q, a, old(secrets)) && secrets == WithToken(q, a, old(secrets))
    {
      if !q.wantsToken || a.token.None? {
        return None;
      }
      var ok := CreateSecret(TokenName(q.run, a.suffix), a.token.value, a.tokenCreate);
      name := if ok then Some(TokenName(q.run, a.suffix)) else None;
    }

    method CreateJob(name: string, mounts: set<string>, answer: Answer) returns (uid: Option<Uid>)
      modifies this`jobs, this`nextUid
      ensures uid == if name !in old(jobs) && answer.Done? then Some(old(nextUid)) else None
      ensures nextUid == old(nextUid) + 1
      ensures jobs == if name in old(jobs) || answer.Refused? then old(jobs) else old(jobs)[name := Job(old(nextUid), mounts, false)]
    {
      nextUid := nextUid + 1;
      if name in jobs || answer.Refused? {
        return None;
      }
      jobs := jobs[name := Job(nextUid - 1, mounts, false)];
      uid := if answer.Done? then Some(nextUid - 1) else None;
    }

    method DeleteSecret(name: string, answer: Answer)
      modifies this`secrets
      ensures secrets == if answer.Refused? then old(secrets) else old(secrets) - {name}
    {
      if !answer.Refused? {
        secrets := secrets - {name};
      }
    }

    method SetSecretOwnerReference(name: string, uid: Uid, a: Answers)
      modifies this`secrets
      ensures secrets == if name in old(secrets) && OwnerSet(a, name) then old(secrets)[name := old(secrets)[name].(owner := Some(uid))]
                         else old(secrets)
    {
      if name in secrets && a.ownerGet(name) {
        if !a.ownerUpdate(name).Refused? {
          secrets := secrets[name := secrets[name].(owner := Some(uid))];
        }
      }
    }

    method DeleteSecrets(q: Request, token: Option<string>, a: Answers)
      modifies this`secrets
      ensures secrets == WithoutSecrets(q, a, token, old(secrets))
    {
      DeleteSecret(SecretName(q.run), a.secretDelete);
      if token.Some? {
        DeleteSecret(token.value, a.tokenDelete);
      }
    }

    method OwnSecrets(q: Request, token: Option<string>, uid: Uid, a: Answers)
      modifies this`secrets
      ensures AreOwned(q, a, token, uid, old(secrets), secrets)
    {
      SetSecretOwnerReference(SecretName(q.run), uid, a);
      if token.Some? {
        SetSecretOwnerReference(token.value, uid, a);
      }
    }

    /** Starts the job of a run. A run whose job is found is left alone. */
    method CreateRunnerJob(q: Request, a: Answers) returns (r: Result)
      requires WellFormed(Now())
      modifies this
      ensures WellFormed(Now())
      ensures JobName(q.run) in old(jobs) && a.jobLookup ==>
        r.Ok? && jobs == old(jobs) && secrets == old(secrets) && accounts == old(accounts)
      ensures r.Ok? && !(JobName(q.run) in old(jobs) && a.jobLookup) ==> IsStarted(q, a, old(Now()), Now())
      ensures r.Rejected? ==> IsUndone(q, a, old(Now()), Now(), r.reason)
      ensures r == ResultOf(q, a, old(Now()), old(accounts))
      ensures old(accounts) <= accounts <= old(accounts) + {q.account}
      ensures r.Ok? && !(JobName(q.run) in old(jobs) && a.jobLookup) ==> q.account in accounts
    {
      hide EstimateRunJsonSize, IsStarted, IsUndone, WithDocument, WithToken, WithoutSecrets, AreOwned, DocumentReady,
           TokenStored, TokenKnown;
      TheTokenIsIndependent(q, a, secrets);
      if a.jobLookup && JobName(q.run) in jobs {
        return Ok;
      }
      if EstimateRunJsonSize(q.encoded) > EFFECTIVE_MAX_RUN_JSON_SIZE {
        NothingWasDone(q, a, old(Now()), Now(), RunTooLarge);
        return Rejected(RunTooLarge);
      }
      var ok := CreateServiceAccount(q.account, a);
      if !ok {
        NothingWasDone(q, a, old(Now()), Now(), AccountNotCreated);
        return Rejected(AccountNotCreated);
      }
      ok := CreateRunJsonSecret(q, a);
      SecretsStayWellFormed(q, a, old(Now()));
      if !ok {
        TheDocumentFails(q, a, old(Now()), Now());
        return Rejected(SecretNotCreated);
      }
      var token := CreateWifTokenSecret(q, a);
      var ownedSecrets := {SecretName(q.run)} + if token.Some? then {token.value} else {};
      assert ownedSecrets == MountsOf(q, a, old(Now()));
      var uid := CreateJob(JobName(q.run), ownedSecrets, a.jobCreate);
      if uid.None? {
        DeleteSecrets(q, token, a);
        TheJobFails(q, a, old(Now()), Now());
        DeletingStaysWellFormed(q, a, token, old(Now()), Now());
        return Rejected(JobNotCreated);
      }
      OwnSecrets(q, token, uid.value, a);
      TheJobStarts(q, a, old(Now()), Now());
      OwningStaysWellFormed(q, a, token, old(Now()), Now());
      r := Ok;
    }
  }
}
