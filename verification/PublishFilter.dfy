/** What a failed publish reports once it has cancelled its own daemon: the error
    tree without that cancellation. */
module PublishFilter {
  import opened Wrappers

  /** An error: a leaf, an annotation around at most one cause, or several causes.
      `canceled` and `says` are what the node's own identity or `Is` method claims. */
  datatype Error =
    | Leaf(id: nat, canceled: bool)
    | Wrap(id: nat, says: bool, cause: Option<Error>)
    | Join(says: bool, causes: seq<Error>)

  /** `errors.Is` for the cancellation. */
  predicate IsCanceled(e: Error) {
    match e
    case Leaf(_, canceled) => canceled
    case Wrap(_, says, None) => says
    case Wrap(_, says, Some(cause)) => says || IsCanceled(cause)
    case Join(says, causes) => says || exists i :: 0 <= i < |causes| && IsCanceled(causes[i])
  }

  function Kept(causes: seq<Error>): seq<Error>
    decreases causes, 0
  {
    if causes == [] then []
    else
      var last := Filter(causes[|causes| - 1]);
      Kept(causes[..|causes| - 1]) + (if last.Some? then [last.value] else [])
  }

  function Filter(e: Error): Option<Error>
    decreases e, 1
  {
    match e
    case Leaf(_, canceled) => if canceled then None else Some(e)
    case Wrap(_, _, None) => Some(e)
    case Wrap(_, _, Some(cause)) => if IsCanceled(cause) then Filter(cause) else Some(e)
    case Join(_, causes) => if Kept(causes) == [] then None else Some(Join(false, Kept(causes)))
  }

  /** The recursion with its accumulating loop. */
  method WithoutExpectedDaemonCancellation(e: Error) returns (r: Option<Error>)
    ensures r == Filter(e)
    decreases e
  {
    match e
    case Join(_, causes) =>
      var kept := [];
      for i := 0 to |causes|
        invariant kept == Kept(causes[..i])
      {
        assert causes[..i + 1][..i] == causes[..i];
        var cause := WithoutExpectedDaemonCancellation(causes[i]);
        if cause.Some? {
          kept := kept + [cause.value];
        }
      }
      assert causes[..|causes|] == causes;
      r := if kept == [] then None else Some(Join(false, kept));
    case Wrap(_, _, cause) =>
      if cause == None || !IsCanceled(cause.value) {
        return Some(e);
      }
      r := WithoutExpectedDaemonCancellation(cause.value);
    case Leaf(_, canceled) => r := if canceled then None else Some(e);
  }

  /** The cancellations among the leaves of a tree, in order. */
  function Cancellations(e: Error): seq<Error> {
    match e
    case Leaf(_, canceled) => if canceled then [e] else []
    case Wrap(_, _, None) => []
    case Wrap(_, _, Some(cause)) => Cancellations(cause)
    case Join(_, causes) => AllCancellations(causes)
  }

  function AllCancellations(causes: seq<Error>): seq<Error> {
    if causes == [] then [] else AllCancellations(causes[..|causes| - 1]) + Cancellations(causes[|causes| - 1])
  }

  /** The independent failures of a tree, in order: its leaves that are not
      cancellations, and an annotation that has none below it. */
  function Failures(e: Error): seq<Error> {
    match e
    case Leaf(_, canceled) => if canceled then [] else [e]
    case Wrap(_, _, None) => [e]
    case Wrap(_, _, Some(cause)) => if Failures(cause) == [] && !IsCanceled(cause) then [e] else Failures(cause)
    case Join(_, causes) => AllFailures(causes)
  }

  function AllFailures(causes: seq<Error>): seq<Error> {
    if causes == [] then [] else AllFailures(causes[..|causes| - 1]) + Failures(causes[|causes| - 1])
  }

  lemma KeptOne(causes: seq<Error>)
    requires causes != []
    ensures var before, last := Kept(causes[..|causes| - 1]), Filter(causes[|causes| - 1]);
            if last == None then Kept(causes) == before
            else Kept(causes) == before + [last.value] && Kept(causes)[..|Kept(causes)| - 1] == before
  {
  }

  /** Main result: the filter drops no failure and changes no order, leaves no
      cancellation, and leaves nothing exactly when there was no failure. */
  lemma {:induction false} FilterKeepsFailures(e: Error)
    ensures Filter(e).Some? ==> Failures(Filter(e).value) == Failures(e) && Cancellations(Filter(e).value) == []
    ensures Filter(e) == None <==> Failures(e) == []
    decreases e, 1
  {
    match e
    case Wrap(_, _, Some(cause)) =>
      FilterKeepsFailures(cause);
      if !IsCanceled(cause) {
        NoCancellations(cause);
      }
    case Join(_, causes) => KeptFailures(causes);
    case _ =>
  }

  lemma {:induction false} KeptFailures(causes: seq<Error>)
    ensures AllFailures(Kept(causes)) == AllFailures(causes) && AllCancellations(Kept(causes)) == []
    ensures Kept(causes) == [] <==> AllFailures(causes) == []
    decreases causes, 0
  {
    if causes != [] {
      var last := causes[|causes| - 1];
      KeptFailures(causes[..|causes| - 1]);
      FilterKeepsFailures(last);
      KeptOne(causes);
    }
  }

  lemma {:induction false} NoCancellations(e: Error)
    requires !IsCanceled(e)
    ensures Cancellations(e) == []
    decreases e
  {
    match e
    case Wrap(_, _, Some(cause)) => NoCancellations(cause);
    case Join(_, causes) => NoneCanceled(causes);
    case _ =>
  }

  lemma {:induction false} NoneCanceled(causes: seq<Error>)
    requires forall i :: 0 <= i < |causes| ==> !IsCanceled(causes[i])
    ensures AllCancellations(causes) == []
    decreases causes
  {
    if causes != [] {
      NoneCanceled(causes[..|causes| - 1]);
      NoCancellations(causes[|causes| - 1]);
    }
  }

  /** Filtering twice is filtering once. */
  lemma {:induction false} FilterTwice(e: Error)
    ensures Filter(e).Some? ==> Filter(Filter(e).value) == Filter(e)
    decreases e, 1
  {
    match e
    case Wrap(_, _, Some(cause)) => FilterTwice(cause);
    case Join(_, causes) => KeptTwice(causes);
    case _ =>
  }

  lemma {:induction false} KeptTwice(causes: seq<Error>)
    ensures Kept(Kept(causes)) == Kept(causes)
    decreases causes, 0
  {
    if causes != [] {
      KeptTwice(causes[..|causes| - 1]);
      FilterTwice(causes[|causes| - 1]);
      KeptOne(causes);
      if Kept(causes) != [] {
        KeptOne(Kept(causes));
      }
    }
  }

  /** No annotation that stays claims the cancellation by itself. */
  predicate Plain(e: Error) {
    match e
    case Leaf(_, _) => true
    case Wrap(_, says, None) => !says
    case Wrap(_, says, Some(cause)) => if IsCanceled(cause) then Plain(cause) else !says
    case Join(_, causes) => forall i :: 0 <= i < |causes| ==> Plain(causes[i])
  }

  /** Main result: what is left never matches the cancellation for `errors.Is`,
      exactly when no annotation that stays claims it by itself. */
  lemma {:induction false} LeftIsNotCanceled(e: Error)
    ensures (Filter(e).Some? && IsCanceled(Filter(e).value)) <==> !Plain(e)
    decreases e, 1
  {
    match e
    case Wrap(_, _, Some(cause)) => LeftIsNotCanceled(cause);
    case Join(_, causes) => KeptAreNotCanceled(causes);
    case _ =>
  }

  lemma {:induction false} KeptAreNotCanceled(causes: seq<Error>)
    ensures (exists i :: 0 <= i < |Kept(causes)| && IsCanceled(Kept(causes)[i]))
            <==> exists i :: 0 <= i < |causes| && !Plain(causes[i])
    decreases causes, 0
  {
    if causes != [] {
      var before, last := causes[..|causes| - 1], causes[|causes| - 1];
      KeptAreNotCanceled(before);
      LeftIsNotCanceled(last);
      var kept := Kept(causes);
      assert forall i :: 0 <= i < |Kept(before)| ==> kept[i] == Kept(before)[i];
      assert forall i :: 0 <= i < |before| ==> causes[i] == before[i];
      if Filter(last).Some? {
        assert kept[|kept| - 1] == Filter(last).value;
      }
    }
  }

  /** Such an annotation exists, and survives with nothing but its claim. */
  lemma AClaimSurvives(id: nat)
    ensures Filter(Wrap(id, true, None)) == Some(Wrap(id, true, None)) && IsCanceled(Wrap(id, true, None))
    ensures !Plain(Wrap(id, true, None))
  {
  }
}
