/** Everything a run does that others can see, in one order: the statuses it publishes, the
    artifact it uploads, and the applies it begins. */
module Trace {
  import opened Snapshots

  datatype Event =
    | Published(publication: Publication)
    | Uploading(data: string)
    | Uploaded(data: string)             // the upload has succeeded
    | Applying(plan: Option<string>)     // a saved plan, or nothing but the sources

  function Publications(trace: seq<Event>): seq<Publication> {
    if trace == [] then [] else
    var last := trace[|trace| - 1];
    Publications(trace[..|trace| - 1]) + if last.Published? then [last.publication] else []
  }

  /** The trace without its publications. */
  function Effects(trace: seq<Event>): seq<Event> {
    if trace == [] then [] else
    var last := trace[|trace| - 1];
    Effects(trace[..|trace| - 1]) + if last.Published? then [] else [last]
  }

  /** The trace interleaves these publications and these effects. */
  ghost predicate Interleaves(trace: seq<Event>, stream: seq<Publication>, effects: seq<Event>) {
    Publications(trace) == stream && Effects(trace) == effects
  }

  lemma OneMore(trace: seq<Event>, stream: seq<Publication>, effects: seq<Event>, e: Event)
    requires Interleaves(trace, stream, effects)
    ensures e.Published? ==> Interleaves(trace + [e], stream + [e.publication], effects)
    ensures !e.Published? ==> Interleaves(trace + [e], stream, effects + [e])
  {
    assert (trace + [e])[..|trace|] == trace;
  }

  lemma {:induction false} EffectsOfPrefix(trace: seq<Event>, n: nat)
    requires n <= |trace|
    ensures Effects(trace[..n]) <= Effects(trace)
  {
    if n == |trace| {
      assert trace[..n] == trace;
    } else {
      assert trace[..|trace| - 1][..n] == trace[..n];
      EffectsOfPrefix(trace[..|trace| - 1], n);
    }
  }

  lemma {:induction false} PublicationsAreAll(trace: seq<Event>, i: nat)
    requires i < |trace| && trace[i].Published?
    ensures trace[i].publication in Publications(trace)
  {
    if i < |trace| - 1 {
      PublicationsAreAll(trace[..|trace| - 1], i);
    }
  }

  /** Every SUCCEEDED stands after exactly these effects. */
  ghost predicate SucceedsAfter(trace: seq<Event>, effects: seq<Event>) {
    forall i :: 0 <= i < |trace| && trace[i].Published? && trace[i].publication.run.status == Succeeded ==>
      Effects(trace[..i]) == effects
  }

  /** If nothing succeeded up to some moment, and there were no effects since, every SUCCEEDED
      stands after the effects up to then. */
  lemma SuccessComesAfter(before: seq<Event>, after: seq<Event>)
    requires before <= after && Effects(after) == Effects(before)
    requires forall p :: p in Publications(before) ==> p.run.status != Succeeded
    ensures SucceedsAfter(after, Effects(before))
  {
    forall i | 0 <= i < |after| && after[i].Published? && after[i].publication.run.status == Succeeded
      ensures Effects(after[..i]) == Effects(before)
    {
      if i < |before| {
        PublicationsAreAll(before, i);
        assert false;
      }
      EffectsOfPrefix(after, i);
      EffectsOfPrefix(after[..i], |before|);
      assert after[..i][..|before|] == before;
    }
  }

  /** Without a success there is nothing to be ordered. */
  lemma NoSuccess(trace: seq<Event>, effects: seq<Event>)
    requires forall p :: p in Publications(trace) ==> p.run.status != Succeeded
    ensures SucceedsAfter(trace, effects)
  {
    forall i | 0 <= i < |trace| && trace[i].Published?
      ensures trace[i].publication.run.status != Succeeded
    {
      PublicationsAreAll(trace, i);
    }
  }

  /** An upload or apply after a success breaks the order for good. */
  lemma NothingFollowsASuccess(trace: seq<Event>, i: nat, e: Event)
    requires i < |trace| && trace[i].Published? && trace[i].publication.run.status == Succeeded && !e.Published?
    ensures !SucceedsAfter(trace + [e], Effects(trace + [e]))
  {
    EffectsOfPrefix(trace, i);
    assert (trace + [e])[..i] == trace[..i] && (trace + [e])[..|trace|] == trace;
    assert |Effects(trace[..i])| < |Effects(trace + [e])|;
    assert (trace + [e])[i] == trace[i];
  }
}
