/** The end-to-end helper that watches a page's relay exchanges and closes every
    session they opened. */
module NativeCleanup {
  const MAX_EXCHANGES := 4

  datatype Counts = Counts(exchanges: nat, closed: nat, denied: nat, unresolved: nat)

  /** How the observation of one finished exchange ends. */
  datatype Observation = Handle(id: nat) | DeniedByServer | Unusable

  datatype Disposition = Closed | NoAdmission | Unresolved

  function DispositionOf(c: Counts, expectedNoAdmission: bool, contentPassed: bool): Disposition {
    if expectedNoAdmission then
      if !contentPassed && c.exchanges == 1 && c.denied == 1 && c.closed == 0 && c.unresolved == 0 then NoAdmission
      else Unresolved
    else if c.closed > 0 && c.closed == c.exchanges && c.denied == 0 && c.unresolved == 0 then Closed
    else Unresolved
  }

  ghost predicate Distinct(s: seq<nat>) {
    forall i, j :: 0 <= i < j < |s| ==> s[i] != s[j]
  }

  /** Every exchange is accounted for once. */
  ghost predicate Accounted(c: Counts) {
    if c.exchanges == 0 then c == Counts(0, 0, 0, 1)
    else c.closed + c.denied + c.unresolved == c.exchanges && c.unresolved >= c.exchanges - MAX_EXCHANGES
  }

  /** Main result: what is told. `Closed` exactly when there was an exchange, at most
      four, and every one of them ended in a closed session; `NoAdmission` exactly when
      that was expected, the content failed, and the one exchange was denied; and
      otherwise `Unresolved`. */
  lemma ClosedMeansAll(c: Counts, expectedNoAdmission: bool, contentPassed: bool)
    requires Accounted(c)
    ensures DispositionOf(c, expectedNoAdmission, contentPassed)
            == if !expectedNoAdmission && 1 <= c.exchanges <= 4 && c.closed == c.exchanges then Closed
               else if expectedNoAdmission && !contentPassed && c.exchanges == 1 && c.denied == 1 then NoAdmission
               else Unresolved
  {
  }

  class BrowserCleanup {
    var counts: Counts
    var pending: set<nat>
    /** Finished exchanges whose observation still runs. */
    var tasks: nat
    var handles: seq<nat>

    constructor ()
      ensures Valid() && counts.exchanges == 0
    {
      counts, pending, tasks, handles := Counts(0, 0, 0, 0), {}, 0, [];
    }

    /** Each exchange is pending, observed, held, denied or given up, and only one of
        these. */
    ghost predicate Valid()
      reads this
    {
      && counts.closed == 0
      && counts.exchanges == |pending| + tasks + |handles| + counts.denied + counts.unresolved
      && counts.unresolved >= counts.exchanges - MAX_EXCHANGES
      && Distinct(handles)
    }

    method Started(request: nat)
      requires Valid() && request !in pending
      modifies this
      ensures Valid() && counts.exchanges == old(counts.exchanges) + 1
      ensures pending == if old(counts.exchanges) < MAX_EXCHANGES then old(pending) + {request} else old(pending)
    {
      counts := counts.(exchanges := counts.exchanges + 1);
      if counts.exchanges > MAX_EXCHANGES {
        counts := counts.(unresolved := counts.unresolved + 1);
        return;
      }
      pending := pending + {request};
    }

    method Finished(request: nat)
      requires Valid()
      modifies this
      ensures Valid() && counts == old(counts) && handles == old(handles) && pending == old(pending) - {request}
      ensures tasks == old(tasks) + (if request in old(pending) then 1 else 0)
    {
      if request !in pending {
        return;
      }
      pending := pending - {request};
      tasks := tasks + 1;
    }

    method Failed(request: nat)
      requires Valid()
      modifies this
      ensures Valid() && pending == old(pending) - {request} && tasks == old(tasks) && handles == old(handles)
      ensures counts == if request in old(pending) then old(counts).(unresolved := old(counts).unresolved + 1)
              else old(counts)
    {
      if request !in pending {
        return;
      }
      pending := pending - {request};
      counts := counts.(unresolved := counts.unresolved + 1);
    }

    /** One observation ends; a handle is a new one. */
    method Observed(o: Observation)
      requires Valid() && tasks > 0 && (o.Handle? ==> o.id !in handles)
      modifies this
      ensures Valid() && tasks == old(tasks) - 1 && pending == old(pending)
      ensures counts == match o
                case Handle(_) => old(counts)
                case DeniedByServer => old(counts).(denied := old(counts).denied + 1)
                case Unusable => old(counts).(unresolved := old(counts).unresolved + 1)
      ensures handles == if o.Handle? then old(handles) + [o.id] else old(handles)
    {
      tasks := tasks - 1;
      match o
      case Handle(id) => handles := handles + [id];
      case DeniedByServer => counts := counts.(denied := counts.denied + 1);
      case Unusable => counts := counts.(unresolved := counts.unresolved + 1);
    }

    /** Whatever is still pending is given up, and the last observations end. */
    method Settle(last: seq<Observation>)
      requires Valid() && |last| == tasks && NewHandles(last, handles)
      modifies this
      ensures Valid() && pending == {} && tasks == 0 && handles == old(handles) + HandlesIn(last)
      ensures counts == old(counts).(denied := old(counts).denied + DeniedIn(last),
                                     unresolved := old(counts).unresolved + |old(pending)| + UnusableIn(last))
    {
      hide NewHandles, HandlesIn, DeniedIn, UnusableIn, Distinct;
      NothingObserved();
      counts := counts.(unresolved := counts.unresolved + |pending|);
      pending := {};
      assert last[0..] == last && last[..0] == [];
      for i := 0 to |last|
        invariant Valid() && tasks == |last| - i && pending == {}
        invariant handles == old(handles) + HandlesIn(last[..i]) && NewHandles(last[i..], handles)
        invariant counts == old(counts).(denied := old(counts).denied + DeniedIn(last[..i]),
                                         unresolved := old(counts).unresolved + |old(pending)| + UnusableIn(last[..i]))
      {
        OneObserved(last, i, handles);
        Observed(last[i]);
      }
      assert last[..|last|] == last;
    }

    /** Every open handle is tried in each round, as many rounds as the budget allows. */
    method CloseAll(sdk: SessionSdk, rounds: nat) returns (open: seq<nat>)
      modifies sdk
      ensures sdk.tried == old(sdk.tried) + Tries(sdk.closes, |old(sdk.tried)|, handles, rounds)
      ensures open == StillOpen(sdk.closes, |old(sdk.tried)|, handles, rounds)
    {
      hide Left, Tries, StillOpen;
      var left := rounds;
      open := handles;
      ghost var start := sdk.tried;
      while open != [] && left > 0
        invariant sdk.tried + Tries(sdk.closes, |sdk.tried|, open, left)
                  == start + Tries(sdk.closes, |start|, handles, rounds)
        invariant StillOpen(sdk.closes, |sdk.tried|, open, left) == StillOpen(sdk.closes, |start|, handles, rounds)
        decreases left
      {
        ghost var before, now := sdk.tried, open;
        FirstRound(sdk.closes, |before|, now, left);
        open := Round(open, sdk);
        left := left - 1;
        assert before + (now + Tries(sdk.closes, |sdk.tried|, open, left))
               == sdk.tried + Tries(sdk.closes, |sdk.tried|, open, left);
      }
      NoRounds(sdk.closes, |sdk.tried|, open, left);
      assert sdk.tried + [] == sdk.tried;
    }

    /** Main result: the SDK sees exactly these tries, every count is exact, and every
        exchange is accounted for once. */
    method Cleanup(last: seq<Observation>, sdk: SessionSdk, rounds: nat) returns (result: Counts)
      requires Valid() && |last| == tasks && NewHandles(last, handles)
      modifies this, sdk
      ensures var all, n := old(handles) + HandlesIn(last), |old(sdk.tried)|;
              var open := StillOpen(sdk.closes, n, all, rounds);
              && Distinct(all)
              && sdk.tried == old(sdk.tried) + Tries(sdk.closes, n, all, rounds)
              && result == Counts(old(counts).exchanges, |all| - |open|, old(counts).denied + DeniedIn(last),
                                  old(counts).unresolved + |old(pending)| + UnusableIn(last) + |open|
                                  + (if old(counts).exchanges == 0 then 1 else 0))
      ensures Accounted(result)
    {
      hide Left, Tries, StillOpen, HandlesIn, DeniedIn, UnusableIn;
      Settle(last);
      var open := CloseAll(sdk, rounds);
      result := counts.(closed := |handles| - |open|, unresolved := counts.unresolved + |open|);
      if result.exchanges == 0 {
        result := result.(unresolved := result.unresolved + 1);
      }
    }

    /** One round: every handle is tried once, and those that stay open are left. */
    method Round(remaining: seq<nat>, sdk: SessionSdk) returns (left: seq<nat>)
      modifies sdk
      ensures sdk.tried == old(sdk.tried) + remaining
      ensures left == Left(sdk.closes, |old(sdk.tried)|, remaining)
    {
      left := [];
      for i := 0 to |remaining|
        invariant sdk.tried == old(sdk.tried) + remaining[..i]
        invariant left == Left(sdk.closes, |old(sdk.tried)|, remaining[..i])
      {
        assert remaining[..i + 1][..i] == remaining[..i];
        var closed := sdk.RetireSession(remaining[i]);
        if !closed {
          left := left + [remaining[i]];
        }
      }
      assert remaining[..|remaining|] == remaining;
    }
  }

  /** The SDK's handles as one object, with the trace of every try to close one. */
  class SessionSdk {
    const closes: nat -> bool
    var tried: seq<nat>

    constructor (closes: nat -> bool)
      ensures this.closes == closes && tried == []
    {
      this.closes := closes;
      tried := [];
    }

    /** A failure that can be tried again also answers that the handle is open. */
    method RetireSession(handle: nat) returns (closed: bool)
      modifies this`tried
      ensures tried == old(tried) + [handle] && closed == closes(|old(tried)|)
    {
      closed := closes(|tried|);
      tried := tried + [handle];
    }
  }

  // ------------------------------------------------------------- observations

  function HandlesIn(last: seq<Observation>): seq<nat> {
    if last == [] then []
    else HandlesIn(last[..|last| - 1]) + (if last[|last| - 1].Handle? then [last[|last| - 1].id] else [])
  }

  function DeniedIn(last: seq<Observation>): nat {
    if last == [] then 0 else DeniedIn(last[..|last| - 1]) + (if last[|last| - 1].DeniedByServer? then 1 else 0)
  }

  function UnusableIn(last: seq<Observation>): nat {
    if last == [] then 0 else UnusableIn(last[..|last| - 1]) + (if last[|last| - 1].Unusable? then 1 else 0)
  }

  /** Each observation that ends in a handle ends in a new one. */
  ghost predicate NewHandles(last: seq<Observation>, handles: seq<nat>) {
    && (forall i :: 0 <= i < |last| && last[i].Handle? ==> last[i].id !in handles)
    && (forall i, j :: 0 <= i < j < |last| && last[i].Handle? && last[j].Handle? ==> last[i].id != last[j].id)
  }

  lemma NothingObserved()
    ensures HandlesIn([]) == [] && DeniedIn([]) == 0 && UnusableIn([]) == 0
  {
  }

  lemma OneObserved(last: seq<Observation>, i: nat, handles: seq<nat>)
    requires i < |last| && NewHandles(last[i..], handles)
    ensures last[i].Handle? ==> last[i].id !in handles
    ensures NewHandles(last[i + 1..], if last[i].Handle? then handles + [last[i].id] else handles)
    ensures HandlesIn(last[..i + 1]) == HandlesIn(last[..i]) + (if last[i].Handle? then [last[i].id] else [])
    ensures DeniedIn(last[..i + 1]) == DeniedIn(last[..i]) + (if last[i].DeniedByServer? then 1 else 0)
    ensures UnusableIn(last[..i + 1]) == UnusableIn(last[..i]) + (if last[i].Unusable? then 1 else 0)
  {
    assert last[..i + 1][..i] == last[..i];
    var rest := last[i..];
    assert rest[0] == last[i] && last[i + 1..] == rest[1..];
  }

  // ------------------------------------------------------------------- rounds

  /** The handles that a round leaves open, when its first try is the n-th. */
  function Left(closes: nat -> bool, n: nat, handles: seq<nat>): (left: seq<nat>)
    ensures |left| <= |handles|
  {
    if handles == [] then []
    else
      var i := |handles| - 1;
      Left(closes, n, handles[..i]) + (if closes(n + i) then [] else [handles[i]])
  }

  /** Every try, round after round: each round tries exactly the handles left open, and
      the rounds end when none is left or none may follow. */
  function Tries(closes: nat -> bool, n: nat, handles: seq<nat>, rounds: nat): seq<nat>
    decreases rounds
  {
    if handles == [] || rounds == 0 then []
    else handles + Tries(closes, n + |handles|, Left(closes, n, handles), rounds - 1)
  }

  function StillOpen(closes: nat -> bool, n: nat, handles: seq<nat>, rounds: nat): (open: seq<nat>)
    ensures |open| <= |handles|
    decreases rounds
  {
    if handles == [] || rounds == 0 then handles
    else StillOpen(closes, n + |handles|, Left(closes, n, handles), rounds - 1)
  }

  /** Some try of this handle was answered so. */
  ghost predicate Answered(closes: nat -> bool, n: nat, handles: seq<nat>, h: nat, closed: bool) {
    exists i :: 0 <= i < |handles| && handles[i] == h && closes(n + i) == closed
  }

  lemma {:induction false} LeftIs(closes: nat -> bool, n: nat, handles: seq<nat>)
    requires Distinct(handles)
    ensures var left := Left(closes, n, handles);
            && Distinct(left) && |left| <= |handles|
            && (forall h :: h in left <==> Answered(closes, n, handles, h, false))
            && (forall h :: h in left ==> h in handles)
  {
    if handles != [] {
      var init, last := handles[..|handles| - 1], handles[|handles| - 1];
      assert forall i :: 0 <= i < |init| ==> init[i] == handles[i];
      LeftIs(closes, n, init);
      assert last !in init;
      forall h
        ensures Answered(closes, n, handles, h, false) <==>
                  Answered(closes, n, init, h, false) || (h == last && !closes(n + |init|))
      {
        OneAnswer(closes, n, init, last, h, false);
        assert handles == init + [last];
      }
    }
  }

  lemma OneAnswer(closes: nat -> bool, n: nat, init: seq<nat>, last: nat, h: nat, closed: bool)
    ensures Answered(closes, n, init + [last], h, closed) <==>
              Answered(closes, n, init, h, closed) || (h == last && closes(n + |init|) == closed)
  {
    var handles := init + [last];
    if Answered(closes, n, init, h, closed) {
      var i :| 0 <= i < |init| && init[i] == h && closes(n + i) == closed;
      assert handles[i] == h;
    }
    if h == last && closes(n + |init|) == closed {
      assert handles[|init|] == h;
    }
  }

  lemma {:induction false} OpenIs(closes: nat -> bool, n: nat, handles: seq<nat>, rounds: nat)
    requires Distinct(handles)
    ensures forall h :: h in StillOpen(closes, n, handles, rounds) ==> h in handles
    decreases rounds
  {
    hide Left, Distinct, Answered;
    if handles != [] && rounds > 0 {
      LeftIs(closes, n, handles);
      OpenIs(closes, n + |handles|, Left(closes, n, handles), rounds - 1);
    }
  }

  /** Only handles are tried. */
  lemma {:induction false} TriesAreHandles(closes: nat -> bool, n: nat, handles: seq<nat>, rounds: nat, h: nat)
    requires Distinct(handles) && h in Tries(closes, n, handles, rounds)
    ensures h in handles
    decreases rounds
  {
    hide Left, Distinct, Answered;
    LeftIs(closes, n, handles);
    if h !in handles {
      TriesAreHandles(closes, n + |handles|, Left(closes, n, handles), rounds - 1, h);
    }
  }

  lemma FirstRound(closes: nat -> bool, n: nat, handles: seq<nat>, rounds: nat)
    requires rounds > 0
    ensures Tries(closes, n, handles, rounds)
            == handles + Tries(closes, n + |handles|, Left(closes, n, handles), rounds - 1)
    ensures StillOpen(closes, n, handles, rounds)
            == StillOpen(closes, n + |handles|, Left(closes, n, handles), rounds - 1)
  {
  }

  lemma NotLeft(closes: nat -> bool, n: nat, handles: seq<nat>, i: nat)
    requires Distinct(handles) && i < |handles|
    ensures Answered(closes, n, handles, handles[i], false) <==> !closes(n + i)
  {
  }

  /** Main result: a handle that was closed is never tried again. */
  lemma {:induction false} ClosedIsNeverTriedAgain(closes: nat -> bool, n: nat, handles: seq<nat>, rounds: nat, i: nat,
                                                   j: nat)
    requires Distinct(handles)
    requires i < j < |Tries(closes, n, handles, rounds)| && closes(n + i)
    ensures Tries(closes, n, handles, rounds)[j] != Tries(closes, n, handles, rounds)[i]
    decreases rounds
  {
    hide Left, Tries, Answered, Distinct;
    NoRounds(closes, n, handles, rounds);
    var left, next := Left(closes, n, handles), n + |handles|;
    FirstRound(closes, n, handles, rounds);
    LeftIs(closes, n, handles);
    var later := Tries(closes, next, left, rounds - 1);
    if i >= |handles| {
      ClosedIsNeverTriedAgain(closes, next, left, rounds - 1, i - |handles|, j - |handles|);
    } else if j < |handles| {
      DifferentAt(handles, i, j);
    } else if later[j - |handles|] == handles[i] {
      NotLeft(closes, n, handles, i);
      TriesAreHandles(closes, next, left, rounds - 1, handles[i]);
      assert false;
    }
  }

  lemma NoRounds(closes: nat -> bool, n: nat, handles: seq<nat>, rounds: nat)
    ensures handles == [] || rounds == 0
            ==> Tries(closes, n, handles, rounds) == [] && StillOpen(closes, n, handles, rounds) == handles
  {
  }

  lemma DifferentAt(s: seq<nat>, i: nat, j: nat)
    requires Distinct(s) && i < j < |s|
    ensures s[i] != s[j]
  {
  }

  lemma AnsweredLater(closes: nat -> bool, n: nat, first: seq<nat>, later: seq<nat>, h: nat, closed: bool)
    ensures Answered(closes, n, first + later, h, closed) <==>
              Answered(closes, n, first, h, closed) || Answered(closes, n + |first|, later, h, closed)
  {
    var all := first + later;
    if Answered(closes, n, first, h, closed) {
      var i :| 0 <= i < |first| && first[i] == h && closes(n + i) == closed;
      assert all[i] == h;
    }
    if Answered(closes, n + |first|, later, h, closed) {
      var i :| 0 <= i < |later| && later[i] == h && closes(n + |first| + i) == closed;
      assert all[|first| + i] == h && closes(n + (|first| + i)) == closed;
    }
  }

  lemma AnsweredOnce(closes: nat -> bool, n: nat, handles: seq<nat>, h: nat)
    requires Distinct(handles) && h in handles
    ensures Answered(closes, n, handles, h, true) <==> !Answered(closes, n, handles, h, false)
  {
  }

  /** Main result: what is left open is exactly what no try has closed. */
  lemma {:induction false} OpenMeansNeverClosed(closes: nat -> bool, n: nat, handles: seq<nat>, rounds: nat, h: nat)
    requires Distinct(handles) && h in handles
    ensures h in StillOpen(closes, n, handles, rounds)
            <==> !Answered(closes, n, Tries(closes, n, handles, rounds), h, true)
    decreases rounds
  {
    hide Left, Tries, Answered, StillOpen, Distinct;
    if rounds == 0 {
      NoRounds(closes, n, handles, rounds);
      NothingClosed(closes, n, handles, h);
    } else {
      var left, next := Left(closes, n, handles), n + |handles|;
      FirstRound(closes, n, handles, rounds);
      LeftIs(closes, n, handles);
      var later := Tries(closes, next, left, rounds - 1);
      AnsweredLater(closes, n, handles, later, h, true);
      AnsweredOnce(closes, n, handles, h);
      if h in left {
        OpenMeansNeverClosed(closes, next, left, rounds - 1, h);
      } else {
        OpenIs(closes, next, left, rounds - 1);
      }
    }
  }

  lemma NothingClosed(closes: nat -> bool, n: nat, handles: seq<nat>, h: nat)
    ensures StillOpen(closes, n, handles, 0) == handles && !Answered(closes, n, [], h, true)
  {
  }
}
