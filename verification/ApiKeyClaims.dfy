/** What the provider promises over every history, derived from the invariant. */
module ApiKeyClaims {
  import opened Wrappers
  import opened ApiKeyCell
  import opened ApiKeyLoop
  import opened ApiKeyRuns
  import opened ApiKeyInvariant
  import opened ApiKeyMoves
  import opened ApiKeyHistory

  lemma {:induction false} PrefixRuns(first: World, history: seq<Action>, n: nat)
    requires Run(first, history).Some? && n <= |history|
    ensures Run(first, history[..n]).Some?
  {
    if n == |history| {
      assert history[..n] == history;
    } else {
      assert history[..|history| - 1][..n] == history[..n];
      PrefixRuns(first, history[..|history| - 1], n);
    }
  }

  // ------------------------------------------------------------ after a delete

  /** What holds ever after a delete that invalidated the cache at version `version`
      with a marker counted from `now`, for the callers from `from` on. */
  ghost predicate AfterDelete(w: World, version: nat, now: int, from: nat) {
    && w.guard.Some? && version <= w.guard.value.version && now <= w.guard.value.now
    && (forall c ::
          (from <= c < |w.callers| && w.callers[c].lookups > 0 && w.callers[c].lookedAt < now + API_KEY_CACHE_TTL) ==>
            version <= w.callers[c].floor)
  }

  ghost predicate GuardAdvances(w: World, v: World) {
    && (w.guard.Some? ==> v.guard.Some? && w.guard.value.version <= v.guard.value.version
                          && w.guard.value.now <= v.guard.value.now)
    && w.blank == v.blank
    && w.rows <= v.rows
    && |w.callers| <= |v.callers|
  }

  lemma MoveAdvancesGuard(w: World, c: nat, move: Move)
    requires CanMove(w, c, move)
    ensures GuardAdvances(w, Moved(w, c, move))
  {
    hide LookUp, StartCheck, FinishFill, EndCheck, AfterVerdict, AfterLocal, AfterShared, Recheck, Holds, RevokeIf;
  }

  lemma GuardMonotone(w: World, a: Action)
    requires Inv(w) && Enabled(w, a)
    ensures GuardAdvances(w, Step(w, a))
  {
    hide FillsOk, ValsOk, CellOk, CallersOk, Guarded, Moved;
    if a.Own? {
      MoveAdvancesGuard(w, a.caller, a.move);
    }
  }

  ghost predicate LookupKept(w: World, x: Caller, y: Caller) {
    || (y.lookups == x.lookups && y.lookedAt == x.lookedAt && y.floor == x.floor)
    || (y.lookedAt == w.clock && y.floor == PromisedFloor(w))
  }

  lemma MoveLookupsKept(w: World, c: nat, move: Move)
    requires CanMove(w, c, move)
    ensures LookupKept(w, w.callers[c], Moved(w, c, move).callers[c])
  {
    hide LookUp, StartCheck, FinishFill, EndCheck, AfterVerdict, AfterLocal, AfterShared, Recheck, Holds, RevokeIf;
  }

  lemma MovesOnlyItself(w: World, c: nat, move: Move)
    requires CanMove(w, c, move)
    ensures |Moved(w, c, move).callers| == |w.callers|
    ensures forall d :: 0 <= d < |w.callers| && d != c ==> Moved(w, c, move).callers[d] == w.callers[d]
  {
    hide LookUp, StartCheck, FinishFill, EndCheck, AfterVerdict, AfterLocal, AfterShared, Recheck, Holds, RevokeIf;
  }

  /** A step leaves a caller's last lookup alone, unless it is that caller's lookup. */
  lemma LookupsKept(w: World, a: Action, c: nat)
    requires Enabled(w, a) && c < |w.callers|
    ensures |w.callers| <= |Step(w, a).callers|
    ensures LookupKept(w, w.callers[c], Step(w, a).callers[c])
  {
    if a.Own? {
      hide Moved;
      MovesOnlyItself(w, a.caller, a.move);
      MoveLookupsKept(w, a.caller, a.move);
    }
  }

  lemma NewCallersFresh(w: World, a: Action)
    requires Enabled(w, a)
    ensures forall c :: |w.callers| <= c < |Step(w, a).callers| ==> Step(w, a).callers[c].lookups == 0
  {
  }

  lemma AfterDeleteKept(w: World, a: Action, version: nat, now: int, from: nat)
    requires Inv(w) && Enabled(w, a) && AfterDelete(w, version, now, from)
    ensures AfterDelete(Step(w, a), version, now, from)
  {
    var v := Step(w, a);
    hide Step, Inv;
    GuardMonotone(w, a);
    NewCallersFresh(w, a);
    forall c | from <= c < |v.callers| && v.callers[c].lookups > 0 && v.callers[c].lookedAt < now + API_KEY_CACHE_TTL
      ensures version <= v.callers[c].floor
    {
      if c < |w.callers| {
        LookupsKept(w, a, c);
      }
    }
  }

  lemma DeleteBegins(w: World)
    requires Inv(w) && Enabled(w, InvalidateLocal) && !w.blank
    ensures AfterDelete(Step(w, InvalidateLocal), |w.rows| - 1, w.writer.now, |w.callers|)
  {
    hide FillsOk, ValsOk, CellOk, CallersOk, Guarded;
  }

  lemma {:induction false} AfterDeleteHolds(blank: bool, clock: int, row: Row, history: seq<Action>, i: nat)
    requires !blank && i < |history| && history[i].InvalidateLocal?
    requires Run(Start(blank, clock, row), history).Some? && Run(Start(blank, clock, row), history[..i]).Some?
    ensures var deleting := Run(Start(blank, clock, row), history[..i]).value;
            && deleting.writer.InvalidateDue? && |deleting.rows| > 0
            && AfterDelete(Run(Start(blank, clock, row), history).value, |deleting.rows| - 1, deleting.writer.now,
                           |deleting.callers|)
  {
    hide Inv, Step, AfterDelete;
    var first := Start(blank, clock, row);
    var before := history[..|history| - 1];
    var w := Run(first, before).value;
    var deleting := Run(first, history[..i]).value;
    InvariantHolds(blank, clock, row, before);
    if i == |before| {
      assert history[..i] == before;
      SameBlank(first, before);
      DeleteBegins(w);
    } else {
      assert before[..i] == history[..i] && before[i] == history[i];
      AfterDeleteHolds(blank, clock, row, before, i);
      AfterDeleteKept(w, history[|history| - 1], |deleting.rows| - 1, deleting.writer.now, |deleting.callers|);
    }
  }

  lemma {:induction false} SameBlank(first: World, history: seq<Action>)
    requires Run(first, history).Some?
    ensures Run(first, history).value.blank == first.blank
  {
    if history == [] {
    } else {
      SameBlank(first, history[..|history| - 1]);
    }
  }

  lemma AnsweredFacts(w: World, c: nat)
    requires Inv(w) && c < |w.callers| && w.callers[c].pc.Answered?
    ensures TrueResult(w.rows, w.callers[c].pc.result)
    ensures AtLeast(w.callers[c].pc.result, w.callers[c].floor)
    ensures HowOk(w.callers[c].pc.result, w.callers[c].pc.how, w.vals)
    ensures 1 <= w.callers[c].lookups <= 6
  {
    CallerFacts(w, c);
  }

  /** Main result: a delete is final on this process. Step `i` of the history is the
      cache step of a local delete. A caller that began later, and whose last lookup
      came before the delete's marker ran out, returns no key that is older than the
      last row version at step `i`: not from a fill or a validation that was already
      running, not from the cache, and not when validation reads fail. Setups, more
      deletes and other processes may follow in any number. */
  lemma DeletedKeyIsNotReturned(clock: int, row: Row, history: seq<Action>, i: nat, c: nat)
    requires i < |history| && history[i].InvalidateLocal?
    requires Run(Start(false, clock, row), history).Some? && Run(Start(false, clock, row), history[..i]).Some?
    requires var deleting := Run(Start(false, clock, row), history[..i]).value;
             var w := Run(Start(false, clock, row), history).value;
             && |deleting.callers| <= c < |w.callers|
             && w.callers[c].pc.Answered? && w.callers[c].pc.result.Found?
             && deleting.writer.InvalidateDue?
             && w.callers[c].lookedAt < deleting.writer.now + API_KEY_CACHE_TTL
    ensures var deleting := Run(Start(false, clock, row), history[..i]).value;
            var w := Run(Start(false, clock, row), history).value;
            var r := w.callers[c].pc.result;
            |deleting.rows| - 1 <= r.token && Names(w.rows, r.apiKey, r.token)
  {
    hide Inv, Run;
    var w := Run(Start(false, clock, row), history).value;
    InvariantHolds(false, clock, row, history);
    AfterDeleteHolds(false, clock, row, history, i);
    AnsweredFacts(w, c);
  }

  lemma {:induction false} RowsGrow(first: World, history: seq<Action>, n: nat)
    requires Run(first, history).Some? && n <= |history| && Run(first, history[..n]).Some?
    ensures Run(first, history[..n]).value.rows <= Run(first, history).value.rows
  {
    if n == |history| {
      assert history[..n] == history;
    } else {
      var before := history[..|history| - 1];
      assert before[..n] == history[..n];
      RowsGrow(first, before, n);
      StepRows(Run(first, before).value, history[|history| - 1]);
    }
  }

  lemma StepRows(w: World, a: Action)
    requires Enabled(w, a)
    ensures w.rows <= Step(w, a).rows
  {
  }

  /** The same in terms of the write: step `j` removed the key from the row, and step
      `i` is a later cache step. Every version that step `j` put an end to is gone. */
  lemma RemovedVersionsStayGone(clock: int, row: Row, history: seq<Action>, j: nat, i: nat, c: nat)
    requires j < i < |history| && history[j] == DeleteWrite(Removed) && history[i].InvalidateLocal?
    requires Run(Start(false, clock, row), history).Some? && Run(Start(false, clock, row), history[..i]).Some?
    requires Run(Start(false, clock, row), history[..j]).Some?
    requires var deleting := Run(Start(false, clock, row), history[..i]).value;
             var w := Run(Start(false, clock, row), history).value;
             && |deleting.callers| <= c < |w.callers|
             && w.callers[c].pc.Answered? && w.callers[c].pc.result.Found?
             && deleting.writer.InvalidateDue?
             && w.callers[c].lookedAt < deleting.writer.now + API_KEY_CACHE_TTL
    ensures |Run(Start(false, clock, row), history[..j]).value.rows|
            < Run(Start(false, clock, row), history).value.callers[c].pc.result.token
  {
    var first := Start(false, clock, row);
    DeletedKeyIsNotReturned(clock, row, history, i, c);
    var w := Run(first, history).value;
    var removing := Run(first, history[..j]).value;
    PrefixRuns(first, history, j + 1);
    assert history[..j + 1][..j] == history[..j];
    var removed := Run(first, history[..j + 1]).value;
    assert removed.rows == removing.rows + [NoKey];
    assert history[..i][..j + 1] == history[..j + 1];
    RowsGrow(first, history[..i], j + 1);
    RowsGrow(first, history, j + 1);
    assert w.rows[|removing.rows|] == NoKey;
  }

  // -------------------------------------------------------------- validated keys

  lemma SeenKept(w: World, a: Action, v: nat)
    requires Enabled(w, a) && v < |Step(w, a).vals| && Step(w, a).vals[v].seen.Some?
    requires !(v < |w.vals| && w.vals[v].seen == Step(w, a).vals[v].seen)
    ensures a.Own? && a.move.ReadRow? && Step(w, a).vals[v].seen == Some(|w.rows| - 1)
    ensures w.callers[a.caller].pc.Checking? && w.callers[a.caller].pc.cand.val == v
  {
  }

  /** The strong read a validation recorded is a step of the history. */
  lemma {:induction false} SeenAtAStep(first: World, history: seq<Action>, v: nat) returns (r: nat)
    requires first.vals == [] && Run(first, history).Some?
    requires v < |Run(first, history).value.vals| && Run(first, history).value.vals[v].seen.Some?
    ensures r < |history| && history[r].Own? && history[r].move.ReadRow? && Run(first, history[..r]).Some?
    ensures var w := Run(first, history[..r]).value;
            |w.rows| > 0 && Run(first, history).value.vals[v].seen == Some(|w.rows| - 1)
  {
    hide Step, Enabled;
    var before := history[..|history| - 1];
    var w := Run(first, before).value;
    var a := history[|history| - 1];
    if v < |w.vals| && w.vals[v].seen == Step(w, a).vals[v].seen {
      r := SeenAtAStep(first, before, v);
      assert before[..r] == history[..r];
    } else {
      r := |before|;
      SeenKept(w, a, v);
      assert history[..r] == before;
    }
  }

  /** Main result: a validated key was the current key. A key returned from a cache
      hit whose validation read succeeded is what the row held, as its last version,
      at step `r`, the strong read of a validation for the same token; and this
      caller started or joined that validation before it was published. */
  lemma ValidatedKeyWasCurrent(blank: bool, clock: int, row: Row, history: seq<Action>, c: nat) returns (r: nat)
    requires Run(Start(blank, clock, row), history).Some?
    requires var w := Run(Start(blank, clock, row), history).value;
             c < |w.callers| && w.callers[c].pc.Answered? && w.callers[c].pc.result.Found?
                 && w.callers[c].pc.how.ByValidation?
    ensures r < |history| && history[r].Own? && history[r].move.ReadRow?
            && Run(Start(blank, clock, row), history[..r]).Some?
    ensures var w := Run(Start(blank, clock, row), history).value;
            var read := Run(Start(blank, clock, row), history[..r]).value;
            var result, cand := w.callers[c].pc.result, w.callers[c].pc.how.cand;
            && |read.rows| > 0 && read.rows[|read.rows| - 1] == Keyed(result.apiKey) && result.token == |read.rows| - 1
            && cand.val < |w.vals| && w.vals[cand.val].token == result.token
            && w.vals[cand.val].published == Some(Current) && cand.joined < w.vals[cand.val].closedAt
  {
    var first := Start(blank, clock, row);
    var w := Run(first, history).value;
    InvariantHolds(blank, clock, row, history);
    AnsweredFacts(w, c);
    hide Inv;
    r := SeenAtAStep(first, history, w.callers[c].pc.how.cand.val);
    RowsGrow(first, history, r);
  }

  /** Every cached key is the opening of its own token. */
  lemma CachedKeyOpensItsToken(blank: bool, clock: int, row: Row, history: seq<Action>)
    requires Run(Start(blank, clock, row), history).Some?
    ensures var w := Run(Start(blank, clock, row), history).value;
            w.cell.entry.Some? ==> w.cell.entry.value.result.Found?
                                   && Names(w.rows, w.cell.entry.value.result.apiKey, w.cell.entry.value.result.token)
  {
    InvariantHolds(blank, clock, row, history);
    InvParts(Run(Start(blank, clock, row), history).value);
  }

  // --------------------------------------------------------------- fallbacks

  lemma CheckedMove(w: World, c: nat, move: Move)
    requires CanMove(w, c, move)
    requires Moved(w, c, move).callers[c].pc.Checked?
    ensures var pc := Moved(w, c, move).callers[c].pc;
            && move.ReadRow? && w.callers[c].pc == Checking(pc.cand)
            && (pc.verdict.Unread? ==> move == ReadRow(Some(pc.verdict.contextEnded)))
  {
    hide LookUp, StartCheck, FinishFill, EndCheck, AfterVerdict, AfterLocal, AfterShared, Recheck, Holds, RevokeIf,
         Fetched;
  }

  lemma CheckedKept(w: World, a: Action, c: nat)
    requires Enabled(w, a) && c < |Step(w, a).callers|
    requires Step(w, a).callers[c].pc.Checked? && Step(w, a).callers[c].pc.verdict.Unread?
    requires !(c < |w.callers| && w.callers[c].pc == Step(w, a).callers[c].pc)
    ensures var pc := Step(w, a).callers[c].pc;
            && a == Own(c, ReadRow(Some(pc.verdict.contextEnded)))
            && c < |w.callers| && w.callers[c].pc == Checking(pc.cand)
  {
    if c >= |w.callers| {
      NoStepsBeforeBirth(w, a, c);
    } else if a.Own? && a.caller == c {
      hide Moved;
      CheckedMove(w, c, a.move);
    } else {
      hide Step;
      OthersDoNotMove(w, a, c);
    }
  }

  /** A verdict that a read failed comes from a failed read, which is a step of the
      history. */
  lemma {:induction false} UnreadAtAStep(first: World, history: seq<Action>, c: nat) returns (r: nat)
    requires first.callers == [] && Run(first, history).Some?
    requires var w := Run(first, history).value;
             c < |w.callers| && w.callers[c].pc.Checked? && w.callers[c].pc.verdict.Unread?
    ensures r < |history| && Run(first, history[..r]).Some?
    ensures var pc, before := Run(first, history).value.callers[c].pc, Run(first, history[..r]).value;
            && history[r] == Own(c, ReadRow(Some(pc.verdict.contextEnded)))
            && c < |before.callers| && before.callers[c].pc == Checking(pc.cand)
  {
    hide Step, Enabled;
    var before := history[..|history| - 1];
    var w, a := Run(first, before).value, history[|history| - 1];
    if c < |w.callers| && w.callers[c].pc == Step(w, a).callers[c].pc {
      r := UnreadAtAStep(first, before, c);
      assert before[..r] == history[..r];
    } else {
      r := |before|;
      CheckedKept(w, a, c);
      assert history[..r] == before;
    }
  }

  lemma UnreadPublished(w: World, a: Action, v: nat)
    requires Enabled(w, a) && v < |Step(w, a).vals|
    requires Step(w, a).vals[v].published.Some? && Step(w, a).vals[v].published.value.Unread?
    requires !(v < |w.vals| && w.vals[v].published == Step(w, a).vals[v].published)
    ensures a.Own? && a.caller < |w.callers|
    ensures var pc := w.callers[a.caller].pc;
            || (a.move == PanicInVal && pc.Checking? && pc.cand.val == v)
            || (a.move == PublishVal && pc.Checked? && pc.cand.val == v
                && Some(pc.verdict) == Step(w, a).vals[v].published)
  {
    hide LookUp, StartCheck, FinishFill, EndCheck, AfterVerdict, AfterLocal, AfterShared, Recheck, Holds, RevokeIf;
  }

  /** The read of validation `v` failed, or panicked, at a step of its owner. */
  ghost predicate FailsToRead(w: World, a: Action, v: nat) {
    && a.Own? && (a.move.PanicInVal? || (a.move.ReadRow? && a.move.unread.Some?))
    && a.caller < |w.callers| && w.callers[a.caller].pc.Checking? && w.callers[a.caller].pc.cand.val == v
  }

  lemma {:induction false} FailedReadAtAStep(first: World, history: seq<Action>, v: nat) returns (r: nat)
    requires first.callers == [] && first.vals == [] && Run(first, history).Some?
    requires var w := Run(first, history).value;
             v < |w.vals| && w.vals[v].published.Some? && w.vals[v].published.value.Unread?
    ensures r < |history| && Run(first, history[..r]).Some?
            && FailsToRead(Run(first, history[..r]).value, history[r], v)
  {
    hide Step, Enabled;
    var before := history[..|history| - 1];
    var w, a := Run(first, before).value, history[|history| - 1];
    if v < |w.vals| && w.vals[v].published == Step(w, a).vals[v].published {
      r := FailedReadAtAStep(first, before, v);
      assert before[..r] == history[..r];
    } else {
      UnreadPublished(w, a, v);
      r := |before|;
      assert history[..r] == before;
      if a.move.PublishVal? {
        r := UnreadAtAStep(first, before, a.caller);
        assert before[..r] == history[..r];
      }
    }
  }

  /** Main result: a hit is answered without a validated verdict only when the strong
      read of that very validation failed, or panicked, earlier in the history. */
  lemma FallbackMeansAFailedRead(blank: bool, clock: int, row: Row, history: seq<Action>, c: nat) returns (r: nat)
    requires Run(Start(blank, clock, row), history).Some?
    requires var w := Run(Start(blank, clock, row), history).value;
             c < |w.callers| && w.callers[c].pc.Answered? && w.callers[c].pc.result.Found?
                 && w.callers[c].pc.how.ByFallback?
    ensures r < |history| && Run(Start(blank, clock, row), history[..r]).Some?
    ensures FailsToRead(Run(Start(blank, clock, row), history[..r]).value, history[r],
                        Run(Start(blank, clock, row), history).value.callers[c].pc.how.kept.val)
  {
    var first := Start(blank, clock, row);
    InvariantHolds(blank, clock, row, history);
    AnsweredFacts(Run(first, history).value, c);
    hide Inv, FailsToRead, Run;
    r := FailedReadAtAStep(first, history, Run(first, history).value.callers[c].pc.how.kept.val);
  }

  predicate FromAHit(how: How) {
    how.ByValidation? || how.ByFallback?
  }

  /** No validation read of the history fails or panics. */
  predicate ReadsSucceed(history: seq<Action>) {
    forall i :: 0 <= i < |history| && history[i].Own? ==>
      !history[i].move.PanicInVal? && (history[i].move.ReadRow? ==> history[i].move.unread == None)
  }

  /** Main result: when validation reads do not fail, every key returned from a hit is
      what the row held, as its last version, at the strong read of a validation for
      the same token, which this caller started or joined before it was published. */
  lemma KeyFromAHitWasCurrent(blank: bool, clock: int, row: Row, history: seq<Action>, c: nat) returns (r: nat)
    requires Run(Start(blank, clock, row), history).Some? && ReadsSucceed(history)
    requires var w := Run(Start(blank, clock, row), history).value;
             c < |w.callers| && w.callers[c].pc.Answered? && w.callers[c].pc.result.Found?
                 && FromAHit(w.callers[c].pc.how)
    ensures r < |history| && history[r].Own? && history[r].move == ReadRow(None)
            && Run(Start(blank, clock, row), history[..r]).Some?
    ensures var w := Run(Start(blank, clock, row), history).value;
            var read := Run(Start(blank, clock, row), history[..r]).value;
            && w.callers[c].pc.how.ByValidation?
            && var result, cand := w.callers[c].pc.result, w.callers[c].pc.how.cand;
               && |read.rows| > 0 && read.rows[|read.rows| - 1] == Keyed(result.apiKey)
                   && result.token == |read.rows| - 1
               && cand.val < |w.vals| && w.vals[cand.val].token == result.token
               && w.vals[cand.val].published == Some(Current) && cand.joined < w.vals[cand.val].closedAt
  {
    hide Run;
    if Run(Start(blank, clock, row), history).value.callers[c].pc.how.ByFallback? {
      r := FallbackMeansAFailedRead(blank, clock, row, history, c);
      assert false;
    } else {
      r := ValidatedKeyWasCurrent(blank, clock, row, history, c);
    }
  }

  // ------------------------------------------------------------------ termination

  /** The loop's turns are the system's: whenever a step of a caller ends its turn, the
      loop, with what that turn met and what the caller had spent, does the same. */
  lemma TurnsAreTheLoops(w: World, c: nat, move: Move) returns (t: Turn<nat>)
    requires CanMove(w, c, move)
    requires Moved(w, c, move).callers[c].pc.Top? || Moved(w, c, move).callers[c].pc.Answered?
    ensures var x, y := w.callers[c], Moved(w, c, move).callers[c];
            AfterTurn(t, x.spent) == if y.pc.Top? then Again(y.spent) else Done(y.pc.result)
    ensures match move
            case Judge => t.Hit? && t.verdict == w.callers[c].pc.verdict && t.ctxEnded == w.callers[c].ctxEnded
            case Confirm => t.Hit? && t.local == Holds(w.cell, w.callers[c].pc.cand.token)
            case RevokeStale => t.Hit? && t.verdict == Stale
            case JoinFill => t == Waited(w.fills[w.callers[c].pc.fill].published, w.callers[c].ctxEnded)
            case GiveUp => t.Waited? && t.shared == None
            case Close => t == Owned(w.callers[c].pc.result)
            case _ => false
  {
    hide LookUp, StartCheck, FinishFill, EndCheck, RevokeIf, Fetched, Holds;
    var x := w.callers[c];
    match move {
      case Judge => t := Hit("", 0, x.pc.verdict, x.ctxEnded, false);
      case Confirm => t := Hit(x.pc.cand.apiKey, x.pc.cand.token, Current, x.ctxEnded, Holds(w.cell, x.pc.cand.token));
      case RevokeStale => t := Hit("", x.pc.token, Stale, x.ctxEnded, false);
      case JoinFill => t := Waited(w.fills[x.pc.fill].published, x.ctxEnded);
      case GiveUp => t := Waited(None, x.ctxEnded);
      case Close => t := Owned(x.pc.result);
      case _ => t := Owned(Failed(OtherFailure));
    }
  }

  function PcRank(pc: Pc): nat {
    match pc
    case Top => 9
    case Timed(_) => 8
    case HaveKey(_, _) => 7
    case Checking(_) => 6
    case Checked(_, _) => 5
    case Awaiting(_) => 5
    case Judging(_, _) => 4
    case Confirming(_, _) => 3
    case Revoking(_, _) => 3
    case Waiting(_) => 1
    case Filling(_) => 3
    case Filled(_, _) => 2
    case Closing(_, _, _) => 1
    case Answered(_, _) => 0
    case Panicked => 0
  }

  /** How many steps of its own a caller can still take. */
  function Rank(caller: Caller): nat
    requires Within(caller.spent)
  {
    LoopBacksLeft(caller.spent) * 9 + PcRank(caller.pc)
  }

  ghost predicate Descends(x: Caller, y: Caller) {
    Within(x.spent) && Within(y.spent) ==> Rank(y) < Rank(x)
  }

  lemma SimpleMoveDescends(w: World, c: nat, move: Move)
    requires CanMove(w, c, move)
    requires !move.Judge? && !move.Confirm? && !move.RevokeStale? && !move.JoinFill? && !move.Search? && !move.StartVal?
    ensures Descends(w.callers[c], Moved(w, c, move).callers[c])
  {
    hide FinishFill, EndCheck, LookUp, StartCheck;
  }

  lemma DecidingMoveDescends(w: World, c: nat, move: Move)
    requires CanMove(w, c, move)
    requires move.Judge? || move.Confirm? || move.RevokeStale? || move.JoinFill?
    ensures Descends(w.callers[c], Moved(w, c, move).callers[c])
  {
    hide Holds, RevokeIf;
  }

  lemma StartingMoveDescends(w: World, c: nat, move: Move)
    requires CanMove(w, c, move)
    requires move.Search? || move.StartVal?
    ensures Descends(w.callers[c], Moved(w, c, move).callers[c])
  {
    hide LookUp, StartCheck;
  }

  /** A caller's own step always brings it closer to its end. */
  lemma MoveDescends(w: World, c: nat, move: Move)
    requires CanMove(w, c, move)
    ensures Descends(w.callers[c], Moved(w, c, move).callers[c])
  {
    hide Moved, Descends;
    if move.Judge? || move.Confirm? || move.RevokeStale? || move.JoinFill? {
      DecidingMoveDescends(w, c, move);
    } else if move.Search? || move.StartVal? {
      StartingMoveDescends(w, c, move);
    } else {
      SimpleMoveDescends(w, c, move);
    }
  }

  /** Nobody else's step touches a caller's budget or program counter. */
  lemma OthersDoNotMove(w: World, a: Action, c: nat)
    requires Enabled(w, a) && c < |w.callers|
    requires !(a.Own? && a.caller == c)
    ensures |w.callers| <= |Step(w, a).callers|
    ensures Step(w, a).callers[c].spent == w.callers[c].spent && Step(w, a).callers[c].pc == w.callers[c].pc
  {
    if a.Own? {
      hide Moved;
      MovesOnlyItself(w, a.caller, a.move);
    }
  }

  function OwnSteps(history: seq<Action>, c: nat): nat {
    if history == [] then 0
    else
      var a := history[|history| - 1];
      OwnSteps(history[..|history| - 1], c) + (if a.Own? && a.caller == c then 1 else 0)
  }

  lemma NoStepsBeforeBirth(w: World, a: Action, c: nat)
    requires Enabled(w, a) && c >= |w.callers|
    ensures !(a.Own? && a.caller == c)
    ensures c < |Step(w, a).callers| ==> Step(w, a).callers[c].spent == UNSPENT && Step(w, a).callers[c].pc == Top
  {
  }

  /** Steps taken and steps left never add up to more than at the start. */
  ghost predicate WithinSteps(w: World, c: nat, taken: nat) {
    && (c >= |w.callers| ==> taken == 0)
    && (c < |w.callers| ==> Within(w.callers[c].spent) && taken + Rank(w.callers[c]) <= 54)
  }

  lemma StepsCounted(w: World, a: Action, c: nat, taken: nat)
    requires Enabled(w, a) && WithinSteps(w, c, taken)
    requires c < |Step(w, a).callers| ==> Within(Step(w, a).callers[c].spent)
    ensures WithinSteps(Step(w, a), c, taken + (if a.Own? && a.caller == c then 1 else 0))
  {
    if c >= |w.callers| {
      NoStepsBeforeBirth(w, a, c);
    } else if a.Own? && a.caller == c {
      hide Moved;
      MovesOnlyItself(w, c, a.move);
      MoveDescends(w, c, a.move);
    } else {
      hide Step;
      OthersDoNotMove(w, a, c);
    }
  }

  lemma CountFacts(w: World, c: nat)
    requires Inv(w)
    ensures c < |w.callers| ==> Within(w.callers[c].spent) && w.callers[c].lookups <= 6
  {
    if c < |w.callers| {
      CallerFacts(w, c);
    }
  }

  /** Main result: every call ends. In any history a call takes at most 54 steps of
      its own and looks up at most six times. */
  lemma {:induction false} CallsEnd(blank: bool, clock: int, row: Row, history: seq<Action>, c: nat)
    requires Run(Start(blank, clock, row), history).Some?
    ensures WithinSteps(Run(Start(blank, clock, row), history).value, c, OwnSteps(history, c))
    ensures var w := Run(Start(blank, clock, row), history).value;
            c < |w.callers| ==> w.callers[c].lookups <= 6
  {
    hide Inv, WithinSteps, Step, Enabled;
    InvariantHolds(blank, clock, row, history);
    CountFacts(Run(Start(blank, clock, row), history).value, c);
    if history == [] {
      NoCallersYet(blank, clock, row, c);
    } else {
      var before := history[..|history| - 1];
      CallsEnd(blank, clock, row, before, c);
      StepsCounted(Run(Start(blank, clock, row), before).value, history[|history| - 1], c, OwnSteps(before, c));
    }
  }

  lemma NoCallersYet(blank: bool, clock: int, row: Row, c: nat)
    ensures WithinSteps(Start(blank, clock, row), c, 0)
  {
  }

  /** The owner of an unpublished fill can always take the step that brings it
      closer to publishing. */
  lemma FillOwnerCanMove(w: World, f: nat)
    requires Inv(w) && f < |w.fills| && w.fills[f].published == None
    ensures var c := w.fills[f].owner;
            && c < |w.callers| && OwnsFill(w.callers[c].pc, f)
            && (CanMove(w, c, Fetch(|w.rows| - 1, None)) || CanMove(w, c, ReadClockToClose) || CanMove(w, c, Close))
  {
    assert FillOk(f, w.fills[f], w.cell.generation, w.cell.running, w.rows, w.callers);
  }

  lemma ValOwnerCanMove(w: World, v: nat)
    requires Inv(w) && v < |w.vals| && w.vals[v].published == None
    ensures var c := w.vals[v].owner;
            && c < |w.callers| && OwnsVal(w.callers[c].pc, v)
            && (CanMove(w, c, ReadRow(None)) || CanMove(w, c, PublishVal))
  {
    ValFacts(w, v);
  }

  ghost predicate Ended(pc: Pc) {
    pc.Answered? || pc.Panicked?
  }

  /** A step the caller can take without anybody's context ending. */
  ghost predicate CanProceed(w: World, c: nat) {
    exists move: Move :: CanMove(w, c, move)
  }

  lemma Proceeds(w: World, c: nat, move: Move)
    requires CanMove(w, c, move)
    ensures CanProceed(w, c)
  {
  }

  /** Main result: no waiter waits on a dead owner. After any history, a call that
      has not ended can take a step itself, or waits for a fill or a validation whose
      owner can. */
  lemma NobodyIsStuck(blank: bool, clock: int, row: Row, history: seq<Action>, c: nat)
    requires Run(Start(blank, clock, row), history).Some?
    requires var w := Run(Start(blank, clock, row), history).value; c < |w.callers| && !Ended(w.callers[c].pc)
    ensures var w := Run(Start(blank, clock, row), history).value;
            || CanProceed(w, c)
            || (w.callers[c].pc.Waiting? && w.callers[c].pc.fill < |w.fills|
                && CanProceed(w, w.fills[w.callers[c].pc.fill].owner))
            || (w.callers[c].pc.Awaiting? && w.callers[c].pc.cand.val < |w.vals|
                && CanProceed(w, w.vals[w.callers[c].pc.cand.val].owner))
  {
    var w := Run(Start(blank, clock, row), history).value;
    InvariantHolds(blank, clock, row, history);
    CallerFacts(w, c);
    FoundOnly(w);
    hide Inv, CanProceed, Run;
    match w.callers[c].pc
    case Top => Proceeds(w, c, ReadClock);
    case Timed(_) => Proceeds(w, c, Search(false));
    case HaveKey(_, _) => Proceeds(w, c, StartVal);
    case Checking(_) => Proceeds(w, c, ReadRow(None));
    case Checked(_, _) => Proceeds(w, c, PublishVal);
    case Awaiting(cand) => AwaitingProceeds(w, c, cand);
    case Judging(_, _) => Proceeds(w, c, Judge);
    case Confirming(_, _) => Proceeds(w, c, Confirm);
    case Revoking(_, _) => Proceeds(w, c, RevokeStale);
    case Waiting(fill) => WaitingProceeds(w, c, fill);
    case Filling(_) => Proceeds(w, c, Fetch(|w.rows| - 1, None));
    case Filled(_, _) => Proceeds(w, c, ReadClockToClose);
    case Closing(_, _, _) => Proceeds(w, c, Close);
  }

  lemma AwaitingProceeds(w: World, c: nat, cand: Candidate)
    requires Inv(w) && c < |w.callers| && w.callers[c].pc == Awaiting(cand) && cand.val < |w.vals|
    ensures CanProceed(w, c) || CanProceed(w, w.vals[cand.val].owner)
  {
    if w.vals[cand.val].published.Some? {
      Proceeds(w, c, JoinVal);
    } else {
      ValOwnerCanMove(w, cand.val);
    }
  }

  lemma WaitingProceeds(w: World, c: nat, fill: nat)
    requires Inv(w) && c < |w.callers| && w.callers[c].pc == Waiting(fill) && fill < |w.fills|
    ensures CanProceed(w, c) || CanProceed(w, w.fills[fill].owner)
  {
    if w.fills[fill].published.Some? {
      Proceeds(w, c, JoinFill);
    } else {
      FillOwnerCanMove(w, fill);
    }
  }

  /** What is published stays published, and never changes. */
  ghost predicate KeepsPublished(w: World, v: World) {
    && |w.fills| <= |v.fills|
    && (forall f :: 0 <= f < |w.fills| && w.fills[f].published.Some? ==> v.fills[f].published == w.fills[f].published)
    && |w.vals| <= |v.vals|
    && (forall i :: 0 <= i < |w.vals| && w.vals[i].published.Some? ==> v.vals[i].published == w.vals[i].published)
  }

  lemma MoveKeepsPublished(w: World, c: nat, move: Move)
    requires CanMove(w, c, move) && PcOk(c, w.callers[c], w)
    ensures KeepsPublished(w, Moved(w, c, move))
  {
    hide LookUp, StartCheck, FinishFill, EndCheck, AfterVerdict, AfterLocal, AfterShared, Recheck, CandOk, TrueResult,
         HowOk;
  }

  lemma PublishedOnce(w: World, a: Action)
    requires Inv(w) && Enabled(w, a)
    ensures KeepsPublished(w, Step(w, a))
  {
    if a.Own? {
      CallerFacts(w, a.caller);
      hide Inv, Moved;
      MoveKeepsPublished(w, a.caller, a.move);
    }
  }

  /** A call that has ended, also by a panic, leaves no fill and no validation open. */
  lemma EndedOwnsNothing(w: World, c: nat)
    requires Inv(w) && c < |w.callers| && Ended(w.callers[c].pc)
    ensures forall f :: 0 <= f < |w.fills| && w.fills[f].owner == c ==> w.fills[f].published.Some?
    ensures forall v :: 0 <= v < |w.vals| && w.vals[v].owner == c ==> w.vals[v].published.Some?
  {
    forall f | 0 <= f < |w.fills| && w.fills[f].owner == c
      ensures w.fills[f].published.Some?
    {
      if w.fills[f].published == None { FillOwnerCanMove(w, f); }
    }
    forall v | 0 <= v < |w.vals| && w.vals[v].owner == c
      ensures w.vals[v].published.Some?
    {
      if w.vals[v].published == None { ValOwnerCanMove(w, v); }
    }
  }
}
