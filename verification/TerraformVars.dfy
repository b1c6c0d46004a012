/** How the inputs of a building block reach Terraform: as files, as environment variables,
    or as variables of the generated tfvars file. */
module TerraformVars {
  import opened Snapshots
  import opened VarsFile

  datatype DataType = STRING | INTEGER | BOOLEAN | CODE | SINGLE_SELECT | MULTI_SELECT | FILE | LIST

  /** An input; `decrypted` is its plain value, None if it cannot be decrypted. */
  datatype Variable = Variable(env: bool, kind: DataType, decrypted: Option<Value>)

  type Inputs = map<string, Variable>

  const TF_VAR_PREFIX := "TF_VAR_"

  predicate Prefixed(name: string) {
    TF_VAR_PREFIX <= name
  }

  function Trimmed(name: string): string
    requires Prefixed(name)
  {
    name[|TF_VAR_PREFIX|..]
  }

  // ----- which way an input goes, as each of the three loops decides it -----

  predicate IsFile(inputs: Inputs, k: string)
    requires k in inputs
  {
    inputs[k].kind == FILE
  }

  predicate IsEnv(inputs: Inputs, k: string)
    requires k in inputs
  {
    inputs[k].env && !Prefixed(k)
  }

  predicate IsTfvar(inputs: Inputs, k: string)
    requires k in inputs
  {
    inputs[k].kind != FILE && (inputs[k].env ==> Prefixed(k) && Trimmed(k) !in inputs)
  }

  predicate IsShadowed(inputs: Inputs, k: string)
    requires k in inputs
  {
    inputs[k].kind != FILE && inputs[k].env && Prefixed(k) && Trimmed(k) in inputs
  }

  function NameOf(inputs: Inputs, k: string): string
    requires k in inputs && IsTfvar(inputs, k)
  {
    if inputs[k].env then Trimmed(k) else k
  }

  /** The input that may write the variable n. */
  function KeyOf(inputs: Inputs, n: string): string {
    if n in inputs then n else TF_VAR_PREFIX + n
  }

  function Fates(inputs: Inputs, k: string): nat
    requires k in inputs
  {
    (if IsFile(inputs, k) then 1 else 0) + (if IsEnv(inputs, k) then 1 else 0) +
    (if IsTfvar(inputs, k) then 1 else 0) + (if IsShadowed(inputs, k) then 1 else 0)
  }

  /** An input goes exactly one way if and only if it is not both a file and an environment
      variable, which saving the files refuses. */
  lemma EveryInputHasOneFate(inputs: Inputs, k: string)
    requires k in inputs
    ensures Fates(inputs, k) == 1 <==> !(IsFile(inputs, k) && IsEnv(inputs, k))
  {
  }

  /** No two inputs write the same variable, however often a name is prefixed. */
  lemma NoTwoInputsWriteOneVariable(inputs: Inputs, k: string)
    requires k in inputs && IsTfvar(inputs, k)
    ensures KeyOf(inputs, NameOf(inputs, k)) == k
  {
    if inputs[k].env {
      assert TF_VAR_PREFIX + Trimmed(k) == k;
    }
  }

  ghost predicate Enumerates(order: seq<string>, inputs: Inputs) {
    && (forall k :: k in order <==> k in inputs)
    && (forall i, j :: 0 <= i < j < |order| ==> order[i] != order[j])
  }

  // ----- the environment of the Terraform process -----

  const GIT_SSH_COMMAND := "GIT_SSH_COMMAND"
  const TF_HTTP_USERNAME := "TF_HTTP_USERNAME"
  const TF_HTTP_PASSWORD := "TF_HTTP_PASSWORD"
  const RUN_TOKEN_USER := "x"

  /** The text of an input in the environment, None if it has none. */
  function EnvText(lib: Lib, v: Variable): Option<string> {
    if v.decrypted.None? then None
    else if v.kind == MULTI_SELECT then lib.marshal(v.decrypted.value)
    else Some(lib.sprintf(v.decrypted.value))
  }

  ghost predicate EnvEncodes(lib: Lib, inputs: Inputs) {
    forall k :: k in inputs && IsEnv(inputs, k) ==> EnvText(lib, inputs[k]).Some?
  }

  function HttpCredentials(token: Option<string>): map<string, string> {
    if token.Some? && token.value != ""
    then map[TF_HTTP_USERNAME := RUN_TOKEN_USER, TF_HTTP_PASSWORD := token.value]
    else map[]
  }

  /** The environment: inputs over the system's variables, the run token over everything. */
  ghost predicate IsTfEnv(env: map<string, string>, lib: Lib, system: map<string, string>, ssh: Option<string>,
                          inputs: Inputs, token: Option<string>)
    requires EnvEncodes(lib, inputs)
  {
    var http := HttpCredentials(token);
    forall k ::
      && (k in env <==> k in http || (k in inputs && IsEnv(inputs, k)) || (k == GIT_SSH_COMMAND && ssh.Some?) || k in system)
      && (k in http ==> env[k] == http[k])
      && (k !in http && k in inputs && IsEnv(inputs, k) ==> env[k] == EnvText(lib, inputs[k]).value)
      && (k in env && k !in http && !(k in inputs && IsEnv(inputs, k)) ==>
            env[k] == if k == GIT_SSH_COMMAND && ssh.Some? then ssh.value else system[k])
  }

  /** `token` is the run token if the state lives in meshStack. The outcome does not depend on
      the order in which the inputs are taken. */
  method BuildTfEnv(lib: Lib, system: map<string, string>, ssh: Option<string>, inputs: Inputs, order: seq<string>,
                    token: Option<string>) returns (env: Option<map<string, string>>)
    requires Enumerates(order, inputs)
    ensures env.Some? <==> EnvEncodes(lib, inputs)
    ensures env.Some? ==> IsTfEnv(env.value, lib, system, ssh, inputs, token)
  {
    var e := system;
    if ssh.Some? {
      e := e[GIT_SSH_COMMAND := ssh.value];
    }
    ghost var start := e;
    for i := 0 to |order|
      invariant forall k :: k in order[..i] && IsEnv(inputs, k) ==>
        EnvText(lib, inputs[k]).Some? && k in e && e[k] == EnvText(lib, inputs[k]).value
      invariant forall k :: k !in order[..i] || !IsEnv(inputs, k) ==>
        (k in e <==> k in start) && (k in e ==> e[k] == start[k])
    {
      var varName, variable := order[i], inputs[order[i]];
      if variable.env && !Prefixed(varName) {
        if variable.decrypted.None? {
          return None;
        }
        var encoded := if variable.kind == MULTI_SELECT then lib.marshal(variable.decrypted.value)
                       else Some(lib.sprintf(variable.decrypted.value));
        if encoded.None? {
          return None;
        }
        e := e[varName := encoded.value];
      }
    }
    if token.Some? && token.value != "" {
      e := e[TF_HTTP_USERNAME := RUN_TOKEN_USER][TF_HTTP_PASSWORD := token.value];
    }
    env := Some(e);
  }

  /** The environment read off: the run token is the HTTP password, if there is one; an input for the
      environment is there as JSON if it holds several values and as printed otherwise, unless the
      token takes its name; everything else is the system's. */
  lemma TheEnvironmentHolds(env: map<string, string>, lib: Lib, system: map<string, string>, ssh: Option<string>,
                            inputs: Inputs, token: Option<string>, k: string)
    requires EnvEncodes(lib, inputs) && IsTfEnv(env, lib, system, ssh, inputs, token)
    ensures token.Some? && token.value != "" ==>
      "TF_HTTP_USERNAME" in env && env["TF_HTTP_USERNAME"] == "x" && "TF_HTTP_PASSWORD" in env && env["TF_HTTP_PASSWORD"] == token.value
    ensures k in inputs && inputs[k].env && !("TF_VAR_" <= k) && (k !in {"TF_HTTP_USERNAME", "TF_HTTP_PASSWORD"} || token == None) ==>
      k in env && inputs[k].decrypted.Some? &&
      Some(env[k]) == if inputs[k].kind == MULTI_SELECT then lib.marshal(inputs[k].decrypted.value)
                      else Some(lib.sprintf(inputs[k].decrypted.value))
    ensures (token == None || token == Some("")) && !(k in inputs && inputs[k].env) && k != "GIT_SSH_COMMAND" ==>
      (k in env <==> k in system) && (k in env ==> env[k] == system[k])
  {
    assert "TF_HTTP_USERNAME"[8] != "TF_HTTP_PASSWORD"[8];
    assert k in inputs && IsEnv(inputs, k) ==> EnvText(lib, inputs[k]).Some?;
  }

  // ----- the files in the working directory -----

  datatype Stat = Present | Absent | Unreadable

  /** What the file system and the decoder answer for each file; a failing write leaves
      something behind. */
  datatype FileLib<!Bytes> = FileLib(
    stat: string -> Stat,
    content: string -> Option<Bytes>,
    failedWrite: string -> Option<Option<Bytes>>)

  predicate Savable<Bytes>(lib: Lib, files: FileLib<Bytes>, inputs: Inputs, k: string)
    requires k in inputs
  {
    && !inputs[k].env && !files.stat(k).Unreadable? && inputs[k].decrypted.Some?
    && files.content(lib.sprintf(inputs[k].decrypted.value)).Some? && files.failedWrite(k).None?
  }

  ghost predicate AllSavable<Bytes>(lib: Lib, files: FileLib<Bytes>, inputs: Inputs) {
    forall k :: k in inputs && IsFile(inputs, k) ==> Savable(lib, files, inputs, k)
  }

  ghost predicate SameFile<Bytes>(now: map<string, Bytes>, before: map<string, Bytes>, k: string) {
    (k in now <==> k in before) && (k in now ==> now[k] == before[k])
  }

  /** A saved input is a file input with its decoded content in the file; other files are untouched. */
  ghost predicate FileIs<Bytes>(now: map<string, Bytes>, before: map<string, Bytes>, saved: set<string>,
                                lib: Lib, fileLib: FileLib<Bytes>, inputs: Inputs, k: string) {
    if k in saved then
      && k in inputs && IsFile(inputs, k) && Savable(lib, fileLib, inputs, k)
      && k in now && now[k] == fileLib.content(lib.sprintf(inputs[k].decrypted.value)).value
    else SameFile(now, before, k)
  }

  lemma UntouchedFiles<Bytes>(files: map<string, Bytes>, lib: Lib, fileLib: FileLib<Bytes>, inputs: Inputs)
    ensures forall k :: FileIs(files, files, {}, lib, fileLib, inputs, k)
  {
  }

  lemma OtherFilesStay<Bytes>(now: map<string, Bytes>, before: map<string, Bytes>, start: map<string, Bytes>,
                              saved: set<string>, done: set<string>, lib: Lib, fileLib: FileLib<Bytes>, inputs: Inputs, j: string)
    requires forall k :: FileIs(before, start, done, lib, fileLib, inputs, k)
    requires j in inputs && j !in done && now - {j} == before - {j} && (saved == done || saved == done + {j})
    ensures forall k :: k != j ==> FileIs(now, start, saved, lib, fileLib, inputs, k)
    ensures now == before && saved == done ==> FileIs(now, start, saved, lib, fileLib, inputs, j)
    ensures j in saved && IsFile(inputs, j) && Savable(lib, fileLib, inputs, j)
            && now == before[j := fileLib.content(lib.sprintf(inputs[j].decrypted.value)).value]
            ==> FileIs(now, start, saved, lib, fileLib, inputs, j)
  {
    forall k | k != j
      ensures FileIs(now, start, saved, lib, fileLib, inputs, k)
    {
      assert FileIs(before, start, done, lib, fileLib, inputs, k);
      assert SameFile(now - {j}, before - {j}, k);
      assert k in now <==> k in now - {j};
      assert k in before <==> k in before - {j};
    }
    assert FileIs(before, start, done, lib, fileLib, inputs, j);
  }

  lemma SavedInputsHaveOneFate<Bytes>(now: map<string, Bytes>, before: map<string, Bytes>, saved: set<string>,
                                      lib: Lib, fileLib: FileLib<Bytes>, inputs: Inputs, k: string)
    requires FileIs(now, before, saved, lib, fileLib, inputs, k) && k in inputs && (IsFile(inputs, k) ==> k in saved)
    ensures Fates(inputs, k) == 1 && (IsFile(inputs, k) ==> Savable(lib, fileLib, inputs, k))
  {
    EveryInputHasOneFate(inputs, k);
  }

  class WorkingDirectory<Bytes> {
    var files: map<string, Bytes>

    /** One round of the loop over the inputs. */
    method SaveInputFile(lib: Lib, fileLib: FileLib<Bytes>, inputs: Inputs, k: string) returns (ok: bool)
      requires k in inputs
      modifies this
      ensures ok <==> (IsFile(inputs, k) ==> Savable(lib, fileLib, inputs, k))
      ensures ok && IsFile(inputs, k) ==>
        files == old(files)[k := fileLib.content(lib.sprintf(inputs[k].decrypted.value)).value]
      ensures !IsFile(inputs, k) ==> files == old(files)
      ensures files - {k} == old(files) - {k}
    {
      var v := inputs[k];
      if v.kind != FILE {
        return true;
      }
      if v.env || fileLib.stat(k).Unreadable? || v.decrypted.None? {
        return false;
      }
      var content := fileLib.content(lib.sprintf(v.decrypted.value));
      if content.None? {
        return false;
      }
      if fileLib.failedWrite(k).Some? {
        var left := fileLib.failedWrite(k).value;
        files := if left.Some? then files[k := left.value] else files - {k};
        return false;
      }
      files := files[k := content.value];
      ok := true;
    }

    /** Saves the inputs that are files, in any order. Once it succeeds every input goes exactly
        one way. */
    method SaveInputFiles(lib: Lib, fileLib: FileLib<Bytes>, inputs: Inputs, order: seq<string>)
      returns (savedFiles: nat, ghost saved: set<string>, ok: bool)
      requires Enumerates(order, inputs)
      modifies this
      ensures ok <==> AllSavable(lib, fileLib, inputs)
      ensures savedFiles == |saved|
      ensures ok ==> forall k :: k in inputs ==> Fates(inputs, k) == 1 && (k in saved <==> IsFile(inputs, k))
      ensures forall k :: ok || k !in inputs || !IsFile(inputs, k) || k in saved ==>
        FileIs(files, old(files), saved, lib, fileLib, inputs, k)
    {
      hide Savable, Fates, FileIs;
      UntouchedFiles(files, lib, fileLib, inputs);
      savedFiles, saved := 0, {};
      for i := 0 to |order|
        invariant savedFiles == |saved|
        invariant forall k :: k in saved <==> k in order[..i] && IsFile(inputs, k)
        invariant forall k :: FileIs(files, old(files), saved, lib, fileLib, inputs, k)
      {
        ghost var before, done := files, saved;
        ok := SaveInputFile(lib, fileLib, inputs, order[i]);
        if ok && inputs[order[i]].kind == FILE {
          savedFiles, saved := savedFiles + 1, saved + {order[i]};
        }
        OtherFilesStay(files, before, old(files), saved, done, lib, fileLib, inputs, order[i]);
        if !ok {
          return;
        }
      }
      forall k | k in inputs
        ensures Fates(inputs, k) == 1 && (IsFile(inputs, k) ==> Savable(lib, fileLib, inputs, k))
      {
        assert k in order[..|order|];
        SavedInputsHaveOneFate(files, old(files), saved, lib, fileLib, inputs, k);
      }
      ok := true;
    }
  }

  // ----- the tfvars file -----

  /** What parsing the Terraform configuration tells: the declared type of each variable. */
  type Config = map<string, string>

  predicate Encodes(config: Config, v: Variable, name: string) {
    v.kind != STRING && v.kind != SINGLE_SELECT && name in config && config[name] == "string"
  }

  function StoredInput(lib: Lib, config: Config, v: Variable, name: string): Option<Cty>
    requires v.decrypted.Some?
  {
    var encode := Encodes(config, v, name);
    if v.kind == CODE || v.kind == LIST then Some(StoredRaw(lib, lib.sprintf(v.decrypted.value), encode))
    else Stored(lib, v.decrypted.value, encode)
  }

  ghost predicate Decrypted(inputs: Inputs, keys: set<string>) {
    forall k :: k in keys && k in inputs && IsTfvar(inputs, k) ==> inputs[k].decrypted.Some?
  }

  /** The variables the inputs in `keys` write. */
  ghost function Names(lib: Lib, config: Config, inputs: Inputs, keys: set<string>): set<string>
    requires Decrypted(inputs, keys)
  {
    set k | k in keys && k in inputs && IsTfvar(inputs, k) &&
            StoredInput(lib, config, inputs[k], NameOf(inputs, k)).Some? :: NameOf(inputs, k)
  }

  lemma NamesHaveKeys(lib: Lib, config: Config, inputs: Inputs, keys: set<string>, n: string)
    requires Decrypted(inputs, keys) && n in Names(lib, config, inputs, keys)
    ensures var k := KeyOf(inputs, n);
      && k in keys && k in inputs && IsTfvar(inputs, k) && NameOf(inputs, k) == n
      && StoredInput(lib, config, inputs[k], n).Some?
  {
    var k :| k in keys && k in inputs && IsTfvar(inputs, k) &&
             StoredInput(lib, config, inputs[k], NameOf(inputs, k)).Some? && NameOf(inputs, k) == n;
    NoTwoInputsWriteOneVariable(inputs, k);
  }

  /** The tfvars the inputs in `keys` make, in whatever order they are taken. */
  ghost predicate AreTfvars(attributes: map<string, Cty>, lib: Lib, config: Config, inputs: Inputs, keys: set<string>) {
    && Decrypted(inputs, keys)
    && attributes.Keys == Names(lib, config, inputs, keys)
    && forall k :: k in keys && k in inputs && IsTfvar(inputs, k) ==>
         var stored := StoredInput(lib, config, inputs[k], NameOf(inputs, k));
         stored.Some? ==> NameOf(inputs, k) in attributes && attributes[NameOf(inputs, k)] == stored.value
  }

  /** The one set of tfvars they make. */
  ghost function TfvarsOf(lib: Lib, config: Config, inputs: Inputs, keys: set<string>): map<string, Cty>
    requires Decrypted(inputs, keys)
  {
    map n | n in Names(lib, config, inputs, keys) ::
      NamesHaveKeys(lib, config, inputs, keys, n);
      StoredInput(lib, config, inputs[KeyOf(inputs, n)], n).value
  }

  lemma TfvarsAreUnique(a: map<string, Cty>, lib: Lib, config: Config, inputs: Inputs, keys: set<string>)
    requires Decrypted(inputs, keys)
    ensures AreTfvars(a, lib, config, inputs, keys) <==> a == TfvarsOf(lib, config, inputs, keys)
  {
    var all := TfvarsOf(lib, config, inputs, keys);
    forall k | k in keys && k in inputs && IsTfvar(inputs, k) &&
               StoredInput(lib, config, inputs[k], NameOf(inputs, k)).Some?
      ensures NameOf(inputs, k) in all
      ensures all[NameOf(inputs, k)] == StoredInput(lib, config, inputs[k], NameOf(inputs, k)).value
    {
      NoTwoInputsWriteOneVariable(inputs, k);
    }
    if AreTfvars(a, lib, config, inputs, keys) {
      forall n | n in a
        ensures n in all && a[n] == all[n]
      {
        NamesHaveKeys(lib, config, inputs, keys, n);
      }
      assert a == all;
    }
  }

  lemma AddingAnInput(a: map<string, Cty>, b: map<string, Cty>, lib: Lib, config: Config,
                      inputs: Inputs, keys: set<string>, k: string)
    requires AreTfvars(a, lib, config, inputs, keys) && k in inputs && k !in keys && Decrypted(inputs, keys + {k})
    requires !IsTfvar(inputs, k) ==> b == a
    requires IsTfvar(inputs, k) ==>
      var stored := StoredInput(lib, config, inputs[k], NameOf(inputs, k));
      b == if stored.Some? then a[NameOf(inputs, k) := stored.value] else a
    ensures AreTfvars(b, lib, config, inputs, keys + {k})
  {
    if IsTfvar(inputs, k) {
      NoTwoInputsWriteOneVariable(inputs, k);
    }
    forall j | j in keys && j in inputs && IsTfvar(inputs, j)
      ensures IsTfvar(inputs, k) ==> NameOf(inputs, j) != NameOf(inputs, k)
    {
      NoTwoInputsWriteOneVariable(inputs, j);
    }
    assert b.Keys == Names(lib, config, inputs, keys + {k});
  }

  // ----- the variables meshStack adds -----

  datatype RunVars = RunVars(buildingBlockId: string, runJson: string, runId: string)

  datatype Mode = APPLY | DETECT | DESTROY

  datatype MeshVar = MeshVar(name: string, value: string, runScoped: bool)

  const BUILDING_BLOCK_ID := "meshstack_building_block_id"
  const RUN_B64 := "meshstack_building_block_run_b64"
  const RUN_ID := "meshstack_building_block_run_id"

  function MeshVars(run: RunVars): seq<MeshVar> {
    [MeshVar(BUILDING_BLOCK_ID, run.buildingBlockId, false),
     MeshVar(RUN_B64, run.runJson, true),
     MeshVar(RUN_ID, run.runId, true)]
  }

  /** The value of a run-scoped variable would differ between a dry run and the run that
      replays its plan, so both leave it out. */
  predicate IncludesRunScoped(mode: Mode, artifactUrl: string) {
    mode != DETECT && artifactUrl == ""
  }

  function MeshTfvars(vars: seq<MeshVar>, runScoped: bool): map<string, Cty> {
    if vars == [] then map[] else
    var last := vars[|vars| - 1];
    var before := MeshTfvars(vars[..|vars| - 1], runScoped);
    if last.runScoped && !runScoped then before else before[last.name := StringVal(last.value)]
  }

  /** A generated declaration: its name, and whether it is optional. */
  datatype Declaration = Declaration(name: string, optional: bool)

  function Declarations(vars: seq<MeshVar>, config: Config): seq<Declaration> {
    if vars == [] then [] else
    var last := vars[|vars| - 1];
    Declarations(vars[..|vars| - 1], config) +
    if last.name in config then [] else [Declaration(last.name, last.runScoped)]
  }

  datatype Rendered = Failed | Written(tfvars: map<string, Cty>, declarations: seq<Declaration>)

  /** What `vars` leaves in the working directory. */
  ghost function RenderedOf(lib: Lib, config: Config, inputs: Inputs, run: RunVars, mode: Mode, artifactUrl: string): Rendered {
    if !Decrypted(inputs, inputs.Keys) then Rendered.Failed else
    Written(TfvarsOf(lib, config, inputs, inputs.Keys) + MeshTfvars(MeshVars(run), IncludesRunScoped(mode, artifactUrl)),
            Declarations(MeshVars(run), config))
  }

  /** One round of the loop over the inputs; false if the input cannot be decrypted. */
  method AddInput(varsFile: VarsFile, config: Config, inputs: Inputs, varName: string) returns (ok: bool)
    requires StringsConvert(varsFile.lib) && varName in inputs
    modifies varsFile
    ensures ok <==> (IsTfvar(inputs, varName) ==> inputs[varName].decrypted.Some?)
    ensures ok && IsTfvar(inputs, varName) ==>
      var stored := StoredInput(varsFile.lib, config, inputs[varName], NameOf(inputs, varName));
      varsFile.attributes ==
        if stored.Some? then old(varsFile.attributes)[NameOf(inputs, varName) := stored.value] else old(varsFile.attributes)
    ensures !IsTfvar(inputs, varName) ==> varsFile.attributes == old(varsFile.attributes)
  {
    var variable := inputs[varName];
    if variable.kind == FILE {
      return true;
    }
    var name := varName;
    if variable.env && Prefixed(varName) {
      if Trimmed(varName) in inputs {
        return true;
      }
      name := Trimmed(varName);
    } else if variable.env {
      return true;
    }
    if variable.decrypted.None? {
      return false;
    }
    var encode := Encodes(config, variable, name);
    var diags;
    if variable.kind == CODE || variable.kind == LIST {
      diags := varsFile.AddRawVariable(name, varsFile.lib.sprintf(variable.decrypted.value), encode);
    } else {
      diags := varsFile.AddVariable(name, variable.decrypted.value, encode);
    }
    ok := true;
  }

  method AddInputs(varsFile: VarsFile, config: Config, inputs: Inputs, order: seq<string>) returns (ok: bool)
    requires StringsConvert(varsFile.lib) && Enumerates(order, inputs) && varsFile.attributes == map[]
    modifies varsFile
    ensures ok <==> Decrypted(inputs, inputs.Keys)
    ensures ok ==> varsFile.attributes == TfvarsOf(varsFile.lib, config, inputs, inputs.Keys)
  {
    ghost var done: set<string> := {};
    for i := 0 to |order|
      invariant done == set k | k in order[..i]
      invariant AreTfvars(varsFile.attributes, varsFile.lib, config, inputs, done)
    {
      ghost var before := varsFile.attributes;
      ok := AddInput(varsFile, config, inputs, order[i]);
      if !ok {
        return;
      }
      AddingAnInput(before, varsFile.attributes, varsFile.lib, config, inputs, done, order[i]);
      done := done + {order[i]};
    }
    assert done == inputs.Keys;
    TfvarsAreUnique(varsFile.attributes, varsFile.lib, config, inputs, inputs.Keys);
    ok := true;
  }

  lemma NoMeshTfvars(runScoped: bool)
    ensures MeshTfvars([], runScoped) == map[]
  {
  }

  lemma MeshTfvarsGrow(vars: seq<MeshVar>, i: nat, runScoped: bool, user: map<string, Cty>)
    requires i < |vars|
    ensures user + MeshTfvars(vars[..i + 1], runScoped) ==
      if vars[i].runScoped && !runScoped then user + MeshTfvars(vars[..i], runScoped)
      else (user + MeshTfvars(vars[..i], runScoped))[vars[i].name := StringVal(vars[i].value)]
  {
    assert vars[..i + 1][..i] == vars[..i];
  }

  lemma DeclarationsGrow(vars: seq<MeshVar>, i: nat, config: Config)
    requires i < |vars|
    ensures Declarations(vars[..i + 1], config) ==
      Declarations(vars[..i], config) + if vars[i].name in config then [] else [Declaration(vars[i].name, vars[i].runScoped)]
  {
    assert vars[..i + 1][..i] == vars[..i];
  }

  method AddMeshStackVars(varsFile: VarsFile, config: Config, run: RunVars, runScoped: bool) returns (declarations: seq<Declaration>)
    requires StringsConvert(varsFile.lib)
    modifies varsFile
    ensures varsFile.attributes == old(varsFile.attributes) + MeshTfvars(MeshVars(run), runScoped)
    ensures declarations == Declarations(MeshVars(run), config)
  {
    hide StoredRaw, ParseJsonOrHcl, HasErrors, MeshVars, MeshTfvars;
    var meshStackVars := MeshVars(run);
    assert meshStackVars[..0] == [];
    NoMeshTfvars(runScoped);
    declarations := [];
    for i := 0 to |meshStackVars|
      invariant varsFile.attributes == old(varsFile.attributes) + MeshTfvars(meshStackVars[..i], runScoped)
      invariant declarations == Declarations(meshStackVars[..i], config)
    {
      var variable := meshStackVars[i];
      DeclarationsGrow(meshStackVars, i, config);
      MeshTfvarsGrow(meshStackVars, i, runScoped, old(varsFile.attributes));
      if !variable.runScoped || runScoped {
        var diags := varsFile.AddVariable(variable.name, Text(variable.value), false);
      }
      if variable.name !in config {
        declarations := declarations + [Declaration(variable.name, variable.runScoped)];
      }
    }
    assert meshStackVars[..|meshStackVars|] == meshStackVars;
  }

  /** The variables file, from the inputs in any order. */
  method Vars(lib: Lib, config: Config, inputs: Inputs, order: seq<string>, run: RunVars, mode: Mode, artifactUrl: string)
    returns (r: Rendered)
    requires StringsConvert(lib) && Enumerates(order, inputs)
    ensures r == RenderedOf(lib, config, inputs, run, mode, artifactUrl)
  {
    var varsFile := new VarsFile(lib);
    var ok := AddInputs(varsFile, config, inputs, order);
    if !ok {
      return Rendered.Failed;
    }
    var declarations := AddMeshStackVars(varsFile, config, run, IncludesRunScoped(mode, artifactUrl));
    r := Written(varsFile.attributes, declarations);
  }

  // ----- a plan and its replay see the same variables -----

  lemma MeshTfvarsAre(run: RunVars, runScoped: bool)
    ensures MeshTfvars(MeshVars(run), runScoped) ==
      if runScoped
      then map[BUILDING_BLOCK_ID := StringVal(run.buildingBlockId), RUN_B64 := StringVal(run.runJson), RUN_ID := StringVal(run.runId)]
      else map[BUILDING_BLOCK_ID := StringVal(run.buildingBlockId)]
  {
    var v := MeshVars(run);
    assert v[..2][..1] == v[..1] && v[..1][..0] == [];
    assert MeshTfvars(v[..1], runScoped) == map[BUILDING_BLOCK_ID := StringVal(run.buildingBlockId)];
    assert MeshTfvars(v[..2], runScoped) == if !runScoped then MeshTfvars(v[..1], runScoped)
      else MeshTfvars(v[..1], runScoped)[RUN_B64 := StringVal(run.runJson)];
  }

  /** What meshStack adds in which mode: its identity always, the run and its id only where no plan
      is made or replayed, so also when destroying. */
  lemma WhatMeshStackAdds(run: RunVars, mode: Mode, artifactUrl: string)
    ensures MeshTfvars(MeshVars(run), IncludesRunScoped(mode, artifactUrl)) ==
      if mode == DETECT || artifactUrl != ""
      then map["meshstack_building_block_id" := StringVal(run.buildingBlockId)]
      else map["meshstack_building_block_id" := StringVal(run.buildingBlockId),
               "meshstack_building_block_run_b64" := StringVal(run.runJson),
               "meshstack_building_block_run_id" := StringVal(run.runId)]
  {
    MeshTfvarsAre(run, IncludesRunScoped(mode, artifactUrl));
  }

  function Declared(name: string, optional: bool, config: Config): seq<Declaration> {
    if name in config then [] else [Declaration(name, optional)]
  }

  /** Each of its variables is declared exactly if the configuration does not declare it, whether
      or not it is written; the run and its id are optional. */
  lemma WhatIsDeclared(run: RunVars, config: Config)
    ensures Declarations(MeshVars(run), config) ==
      Declared("meshstack_building_block_id", false, config)
      + Declared("meshstack_building_block_run_b64", true, config)
      + Declared("meshstack_building_block_run_id", true, config)
  {
    var v := MeshVars(run);
    assert v[..2][..1] == v[..1] && v[..1][..0] == [];
    assert Declarations(v[..1], config) == Declared(BUILDING_BLOCK_ID, false, config);
    assert Declarations(v[..2], config) == Declared(BUILDING_BLOCK_ID, false, config) + Declared(RUN_B64, true, config);
  }

  lemma DeclarationsDependOnTheNamesOnly(a: RunVars, b: RunVars, config: Config)
    ensures Declarations(MeshVars(a), config) == Declarations(MeshVars(b), config)
  {
    var x, y := MeshVars(a), MeshVars(b);
    assert x[..2][..1] == x[..1] && x[..1][..0] == [] && y[..2][..1] == y[..1] && y[..1][..0] == [];
    assert Declarations(x[..1], config) == Declarations(y[..1], config);
    assert Declarations(x[..2], config) == Declarations(y[..2], config);
  }

  /** A dry run and the run that replays its plan write the same variables and the same
      declarations, whatever their run ids and run documents are; and if one of them cannot
      be written, neither can the other. */
  lemma PlanAndReplayAgree(lib: Lib, config: Config, inputs: Inputs, planRun: RunVars, replayRun: RunVars,
                           planUrl: string, artifactUrl: string)
    requires planRun.buildingBlockId == replayRun.buildingBlockId && artifactUrl != ""
    ensures RenderedOf(lib, config, inputs, planRun, DETECT, planUrl)
         == RenderedOf(lib, config, inputs, replayRun, APPLY, artifactUrl)
  {
    MeshTfvarsAre(planRun, false);
    MeshTfvarsAre(replayRun, false);
    DeclarationsDependOnTheNamesOnly(planRun, replayRun, config);
  }

  /** A fresh apply writes what a dry run writes and the two run-scoped variables on top, so the
      two agree exactly when the inputs already give those the same values. */
  lemma PlanAndFreshApplyDiffer(lib: Lib, config: Config, inputs: Inputs, planRun: RunVars, run: RunVars, planUrl: string)
    requires planRun.buildingBlockId == run.buildingBlockId && Decrypted(inputs, inputs.Keys)
    ensures var planned, applied := RenderedOf(lib, config, inputs, planRun, DETECT, planUrl),
                                    RenderedOf(lib, config, inputs, run, APPLY, "");
      && applied.tfvars == planned.tfvars[RUN_B64 := StringVal(run.runJson)][RUN_ID := StringVal(run.runId)]
      && applied.declarations == planned.declarations
      && (applied == planned <==>
          && RUN_B64 in planned.tfvars && planned.tfvars[RUN_B64] == StringVal(run.runJson)
          && RUN_ID in planned.tfvars && planned.tfvars[RUN_ID] == StringVal(run.runId))
  {
    MeshTfvarsAre(planRun, false);
    MeshTfvarsAre(run, true);
    DeclarationsDependOnTheNamesOnly(planRun, run, config);
    hide TfvarsOf, MeshTfvars, Declarations;
    var planned, applied := RenderedOf(lib, config, inputs, planRun, DETECT, planUrl), RenderedOf(lib, config, inputs, run, APPLY, "");
    assert RUN_B64 != RUN_ID && RUN_ID != BUILDING_BLOCK_ID && RUN_B64 != BUILDING_BLOCK_ID by {
      assert |RUN_B64| != |RUN_ID| && |RUN_ID| != |BUILDING_BLOCK_ID| && |BUILDING_BLOCK_ID| != |RUN_B64|;
    }
    assert applied.tfvars == planned.tfvars[RUN_B64 := StringVal(run.runJson)][RUN_ID := StringVal(run.runId)];
  }

  /** An input of Terraform keeps its value in the file exactly as long as meshStack does not
      write a variable of the same name over it. */
  lemma InputsSurviveUnlessReserved(lib: Lib, config: Config, inputs: Inputs, run: RunVars, mode: Mode, artifactUrl: string, k: string)
    requires Decrypted(inputs, inputs.Keys) && k in inputs && IsTfvar(inputs, k)
    requires StoredInput(lib, config, inputs[k], NameOf(inputs, k)).Some?
    ensures var r := RenderedOf(lib, config, inputs, run, mode, artifactUrl);
      var n, mine := NameOf(inputs, k), StoredInput(lib, config, inputs[k], NameOf(inputs, k)).value;
      var written := MeshTfvars(MeshVars(run), IncludesRunScoped(mode, artifactUrl));
      n in r.tfvars && (r.tfvars[n] == mine <==> n !in written || written[n] == mine)
  {
    TfvarsAreUnique(TfvarsOf(lib, config, inputs, inputs.Keys), lib, config, inputs, inputs.Keys);
  }

  /** Whether the configuration declares the variable n as a string. */
  predicate WantsString(config: Config, n: string) {
    n in config && config[n] == "string"
  }

  /** An input is stored as its kind asks: a string as its text, a list or code as what its text
      reads as, any other as the value it holds; and all but strings as their JSON text where the
      configuration wants a string. */
  lemma AnInputIs(lib: Lib, config: Config, v: Variable, n: string)
    requires StringsConvert(lib) && v.decrypted.Some?
    ensures var value, raw := v.decrypted.value, lib.sprintf(v.decrypted.value);
      var stored := StoredInput(lib, config, v, n);
      && (v.kind in {STRING, SINGLE_SELECT} && value.Text? ==> stored == Some(StringVal(value.text)))
      && (v.kind in {CODE, LIST} && lib.validJson(raw) && lib.unmarshal(raw).Some? ==>
            stored == Some(if WantsString(config, n) then AsText(lib, lib.unmarshal(raw).value, raw) else lib.unmarshal(raw).value))
      && (v.kind in {CODE, LIST} && !lib.validJson(raw) && Error !in lib.hcl(raw).diags ==>
            stored == Some(if WantsString(config, n) then AsText(lib, lib.hcl(raw).value, raw) else lib.hcl(raw).value))
      && (v.kind in {INTEGER, BOOLEAN, MULTI_SELECT} && WantsString(config, n) && lib.marshal(value).Some? ==>
            stored == Some(StringVal(lib.marshal(value).value)))
      && (v.kind in {INTEGER, BOOLEAN, MULTI_SELECT} && !WantsString(config, n) && value.Data? && lib.implied(value) ==>
            stored == lib.toCty(value))
  {
  }

  function AsText(lib: Lib, value: Cty, raw: string): Cty {
    StringVal(if lib.ctyMarshal(value).Some? then lib.ctyMarshal(value).value else raw)
  }

  /** And so it stands in the file, under its own name or under the name its prefix leaves. */
  lemma AnInputReachesTerraform(lib: Lib, config: Config, inputs: Inputs, run: RunVars, mode: Mode, artifactUrl: string,
                                k: string, n: string)
    requires Decrypted(inputs, inputs.Keys) && k in inputs && inputs[k].kind != FILE
    requires (k == n && !inputs[k].env) || (k == "TF_VAR_" + n && inputs[k].env && n !in inputs)
    requires n !in {"meshstack_building_block_id", "meshstack_building_block_run_b64", "meshstack_building_block_run_id"}
    ensures inputs[k].decrypted.Some?
    ensures var r, stored := RenderedOf(lib, config, inputs, run, mode, artifactUrl), StoredInput(lib, config, inputs[k], n);
      (n in r.tfvars <==> stored.Some?) && (stored.Some? ==> r.tfvars[n] == stored.value)
  {
    assert k == TF_VAR_PREFIX + n ==> Prefixed(k) && Trimmed(k) == n;
    assert IsTfvar(inputs, k) && NameOf(inputs, k) == n;
    WhatMeshStackAdds(run, mode, artifactUrl);
    TfvarsAreUnique(TfvarsOf(lib, config, inputs, inputs.Keys), lib, config, inputs, inputs.Keys);
    if n in Names(lib, config, inputs, inputs.Keys) {
      NamesHaveKeys(lib, config, inputs, inputs.Keys, n);
      NoTwoInputsWriteOneVariable(inputs, k);
    }
  }

  /** A TF_VAR_ input gives way to an explicit input of the same name even if that one is no
      Terraform variable: then nothing sets the variable. */
  lemma ShadowedVariableIsSetIff(inputs: Inputs, k: string)
    requires k in inputs && IsShadowed(inputs, k)
    ensures (exists j :: j in inputs && IsTfvar(inputs, j) && NameOf(inputs, j) == Trimmed(k))
            <==> !inputs[Trimmed(k)].env && inputs[Trimmed(k)].kind != FILE
  {
  }

  /** An input that is called like a meshStack variable is lost in every mode. */
  lemma AnInputCalledLikeTheBuildingBlockIdIsLost(lib: Lib, run: RunVars, mode: Mode, artifactUrl: string)
    requires StringsConvert(lib) && run.buildingBlockId == "block-1"
    ensures var inputs := map[BUILDING_BLOCK_ID := Variable(false, STRING, Some(Text("mine")))];
      && StoredInput(lib, map[], inputs[BUILDING_BLOCK_ID], BUILDING_BLOCK_ID) == Some(StringVal("mine"))
      && var r := RenderedOf(lib, map[], inputs, run, mode, artifactUrl);
         r.Written? && r.tfvars == r.tfvars[BUILDING_BLOCK_ID := StringVal("block-1")]
  {
    var inputs := map[BUILDING_BLOCK_ID := Variable(false, STRING, Some(Text("mine")))];
    MeshTfvarsAre(run, IncludesRunScoped(mode, artifactUrl));
    hide TfvarsOf, Declarations, MeshTfvars;
    assert Decrypted(inputs, inputs.Keys);
    var r := RenderedOf(lib, map[], inputs, run, mode, artifactUrl);
    assert BUILDING_BLOCK_ID in r.tfvars && r.tfvars[BUILDING_BLOCK_ID] == StringVal("block-1") by {
      assert |RUN_B64| != |BUILDING_BLOCK_ID| && |RUN_ID| != |BUILDING_BLOCK_ID|;
    }
  }

  /** TF_VAR_x gives way to the environment variable x, and Terraform's x is set by neither. */
  lemma AnEnvironmentVariableShadowsAndSetsNothing()
    ensures var inputs := map["TF_VAR_x" := Variable(true, STRING, Some(Text("1"))), "x" := Variable(true, STRING, Some(Text("2")))];
      IsShadowed(inputs, "TF_VAR_x") && !exists j :: j in inputs && IsTfvar(inputs, j) && NameOf(inputs, j) == "x"
  {
    var inputs := map["TF_VAR_x" := Variable(true, STRING, Some(Text("1"))), "x" := Variable(true, STRING, Some(Text("2")))];
    assert Trimmed("TF_VAR_x") == "x";
    ShadowedVariableIsSetIff(inputs, "TF_VAR_x");
  }
}
