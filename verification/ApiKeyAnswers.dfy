/** Why a call got its answer: what the fill it rests on read from the row, what it
    had spent when it gave up, and that a cached key was still cached when it was
    returned. */
module ApiKeyAnswers {
  import opened Wrappers
  import opened ApiKeyCell
  import opened ApiKeyLoop
  import opened ApiKeyRuns
  import opened ApiKeyInvariant
  import opened ApiKeyMoves
  import opened ApiKeyHistory
  import opened ApiKeyClaims

  // ------------------------------------------------------------------- fetches

  /** What a fetch of one row version must come to: the failure when it failed; the key
      with its version when there is one; "not configured" exactly when there is no
      key; and another failure for a damaged row or an empty key. */
  ghost predicate Tells(row: Row, version: nat, failure: Option<Failure>, r: Lookup<nat>) {
    match failure
    case Some(f) => r == Failed(f)
    case None =>
      && (r == Failed(NotConfigured) <==> row == NoKey)
      && (r.Found? <==> row.Keyed? && row.apiKey != "")
      && (r.Found? ==> r == Found(row.apiKey, version))
      && (r.Failed? && row != NoKey ==> r == Failed(OtherFailure))
  }

  /** The step that settled what fill `f` publishes: its owner's fetch, or a panic. */
  ghost predicate Settles(w: World, a: Action, f: nat, r: Lookup<nat>) {
    && a.Own? && a.caller < |w.callers| && w.callers[a.caller].pc == Filling(f)
    && match a.move
       case Fetch(version, failure) =>
         && version < |w.rows| && failure != Some(NotConfigured)
         && Tells(w.rows[version], version, failure, r)
       case PanicInFill => r == Failed(OtherFailure)
       case _ => false
  }

  lemma FilledMove(w: World, c: nat, move: Move)
    requires CanMove(w, c, move)
    ensures var was, pc := w.callers[c].pc, Moved(w, c, move).callers[c].pc;
            && (pc.Filled? ==> Settles(w, Own(c, move), pc.fill, pc.result))
            && (pc.Closing? ==> was == Filled(pc.fill, pc.result))
  {
    hide LookUp, StartCheck, FinishFill, EndCheck, AfterVerdict, AfterLocal, AfterShared, Recheck, Holds, RevokeIf;
  }

  predicate Carries(pc: Pc, f: nat, r: Lookup<nat>) {
    (pc.Filled? || pc.Closing?) && pc.fill == f && pc.result == r
  }

  lemma CarriesKept(w: World, a: Action, c: nat, f: nat, r: Lookup<nat>)
    requires Enabled(w, a) && c < |Step(w, a).callers| && Carries(Step(w, a).callers[c].pc, f, r)
    ensures (c < |w.callers| && Carries(w.callers[c].pc, f, r)) || Settles(w, a, f, r)
  {
    if c >= |w.callers| {
      NoStepsBeforeBirth(w, a, c);
    } else if a.Own? && a.caller == c {
      hide Moved, Settles;
      FilledMove(w, c, a.move);
    } else {
      hide Step, Settles;
      OthersDoNotMove(w, a, c);
    }
  }

  lemma {:induction false} CarriedAtAStep(first: World, history: seq<Action>, c: nat, f: nat, r: Lookup<nat>)
    returns (k: nat)
    requires first.callers == [] && Run(first, history).Some?
    requires c < |Run(first, history).value.callers| && Carries(Run(first, history).value.callers[c].pc, f, r)
    ensures k < |history| && Run(first, history[..k]).Some?
    ensures Settles(Run(first, history[..k]).value, history[k], f, r)
  {
    hide Step, Enabled, Settles, Carries;
    var before := history[..|history| - 1];
    var w, a := Run(first, before).value, history[|history| - 1];
    CarriesKept(w, a, c, f, r);
    if c < |w.callers| && Carries(w.callers[c].pc, f, r) {
      k := CarriedAtAStep(first, before, c, f, r);
      assert before[..k] == history[..k];
    } else {
      k := |before|;
      assert history[..k] == before;
    }
  }

  lemma PublishedMove(w: World, a: Action, f: nat, r: Lookup<nat>)
    requires Enabled(w, a) && f < |Step(w, a).fills| && Step(w, a).fills[f].published == Some(r)
    requires !(f < |w.fills| && w.fills[f].published == Some(r))
    ensures a.Own? && a.caller < |w.callers|
    ensures Carries(w.callers[a.caller].pc, f, r) || Settles(w, a, f, r)
  {
    hide LookUp, StartCheck, FinishFill, EndCheck, AfterVerdict, AfterLocal, AfterShared, Recheck, Holds, RevokeIf,
         Fetched;
  }

  /** Main result: what a fill published is what its owner's fetch of one row version
      came to, or the failure of a fetch that panicked. */
  lemma {:induction false} PublishedTellsTheRow(first: World, history: seq<Action>, f: nat, r: Lookup<nat>)
    returns (k: nat)
    requires first.callers == [] && first.fills == [] && Run(first, history).Some?
    requires f < |Run(first, history).value.fills| && Run(first, history).value.fills[f].published == Some(r)
    ensures k < |history| && Run(first, history[..k]).Some?
    ensures Settles(Run(first, history[..k]).value, history[k], f, r)
  {
    hide Step, Enabled, Settles, Carries;
    var before := history[..|history| - 1];
    var w, a := Run(first, before).value, history[|history| - 1];
    if f < |w.fills| && w.fills[f].published == Some(r) {
      k := PublishedTellsTheRow(first, before, f, r);
      assert before[..k] == history[..k];
    } else {
      PublishedMove(w, a, f, r);
      k := |before|;
      assert history[..k] == before;
      if Carries(w.callers[a.caller].pc, f, r) {
        k := CarriedAtAStep(first, before, a.caller, f, r);
        assert before[..k] == history[..k];
      }
    }
  }

  // ------------------------------------------------------------------- answers

  /** What an answer rests on. */
  ghost predicate Grounded(w: World, caller: Caller, r: Lookup<nat>, how: How) {
    match how
    case ByFill(f) => f < |w.fills| && w.fills[f].published == Some(r)
    case ByWait(f) =>
      && f < |w.fills| && w.fills[f].published == Some(r)
      && (r == Failed(ContextEnded) ==> caller.ctxEnded || caller.spent.shared == 1)
    case NoKeyAtAll =>
      || (r == Failed(ContextEnded) && caller.ctxEnded)
      || (r == Failed(OtherFailure) && caller.spent.rechecks == 3)
    case ByValidation(_) => r.Found? || (r == Failed(OtherFailure) && caller.spent.rechecks == 3)
    case ByFallback(cand) =>
      && (r.Found? || (r == Failed(OtherFailure) && caller.spent.rechecks == 3))
      && cand.val < |w.vals|
      && (|| w.vals[cand.val].published == Some(Unread(false))
          || (w.vals[cand.val].published == Some(Unread(true)) && caller.spent.renewed == 1))
  }

  /** Only a verdict that says so reaches the last check of a cached key. */
  ghost predicate Reasoned(w: World, caller: Caller) {
    match caller.pc
    case Confirming(cand, verdict) => verdict == Unread(true) ==> caller.spent.renewed == 1
    case Answered(r, how) => Grounded(w, caller, r, how)
    case _ => true
  }

  /** The steps that neither end a call nor bring it to its last check. */
  predicate Early(move: Move) {
    !move.Judge? && !move.Confirm? && !move.RevokeStale? && !move.JoinFill? && !move.GiveUp? && !move.Close?
  }

  lemma EarlyMove(w: World, c: nat, move: Move)
    requires CanMove(w, c, move) && Early(move)
    ensures !Moved(w, c, move).callers[c].pc.Confirming? && !Moved(w, c, move).callers[c].pc.Answered?
  {
    hide LookUp, StartCheck, FinishFill, EndCheck, Fetched;
  }

  lemma ClosingMove(w: World, c: nat, move: Move)
    requires CanMove(w, c, move) && (move.JoinFill? || move.GiveUp? || move.Close?)
    requires Within(w.callers[c].spent)
    ensures Reasoned(Moved(w, c, move), Moved(w, c, move).callers[c])
  {
    hide FinishFill;
  }

  lemma JudgingMove(w: World, c: nat, move: Move)
    requires CanMove(w, c, move) && (move.Judge? || move.RevokeStale?)
    requires Within(w.callers[c].spent)
    ensures Reasoned(Moved(w, c, move), Moved(w, c, move).callers[c])
  {
    hide RevokeIf;
  }

  lemma ConfirmingMove(w: World, c: nat)
    requires CanMove(w, c, Confirm) && PcOk(c, w.callers[c], w) && Reasoned(w, w.callers[c])
    requires Within(w.callers[c].spent)
    ensures Reasoned(Moved(w, c, Confirm), Moved(w, c, Confirm).callers[c])
  {
    CandIndex(w.callers[c].pc.cand, w.callers[c].floor, w);
    hide CandOk;
  }

  lemma ReasonedOwn(w: World, c: nat, move: Move)
    requires Inv(w) && CanMove(w, c, move) && Reasoned(w, w.callers[c])
    ensures Reasoned(Moved(w, c, move), Moved(w, c, move).callers[c])
  {
    CallerFacts(w, c);
    hide Inv, Moved, PcOk, Grounded;
    if Early(move) {
      EarlyMove(w, c, move);
    } else if move.Confirm? {
      ConfirmingMove(w, c);
    } else if move.Judge? || move.RevokeStale? {
      JudgingMove(w, c, move);
    } else {
      ClosingMove(w, c, move);
    }
  }

  lemma ReasonedElsewhere(w: World, v: World, x: Caller, y: Caller)
    requires KeepsPublished(w, v) && Reasoned(w, x)
    requires y.pc == x.pc && y.spent == x.spent && (x.ctxEnded ==> y.ctxEnded)
    ensures Reasoned(v, y)
  {
  }

  lemma OthersKeepContexts(w: World, a: Action, c: nat)
    requires Enabled(w, a) && c < |w.callers| && !(a.Own? && a.caller == c)
    ensures c < |Step(w, a).callers| && (w.callers[c].ctxEnded ==> Step(w, a).callers[c].ctxEnded)
  {
    if a.Own? {
      hide Moved;
      MovesOnlyItself(w, a.caller, a.move);
    }
  }

  lemma ReasonedStep(w: World, a: Action, c: nat)
    requires Inv(w) && Enabled(w, a) && c < |Step(w, a).callers|
    requires c < |w.callers| ==> Reasoned(w, w.callers[c])
    ensures Reasoned(Step(w, a), Step(w, a).callers[c])
  {
    if c >= |w.callers| {
      NoStepsBeforeBirth(w, a, c);
    } else if a.Own? && a.caller == c {
      hide Inv, Moved, Reasoned, KeepsPublished;
      ReasonedOwn(w, c, a.move);
      ReasonedTick(Moved(w, c, a.move), Moved(w, c, a.move).callers[c], w.step + 1);
      assert Step(w, a) == Moved(w, c, a.move).(step := w.step + 1);
    } else {
      hide Inv, Step, Reasoned, KeepsPublished;
      PublishedOnce(w, a);
      OthersDoNotMove(w, a, c);
      OthersKeepContexts(w, a, c);
      ReasonedElsewhere(w, Step(w, a), w.callers[c], Step(w, a).callers[c]);
    }
  }

  lemma ReasonedTick(w: World, caller: Caller, step: nat)
    requires Reasoned(w, caller)
    ensures Reasoned(w.(step := step), caller)
  {
  }

  /** Main result: every answer has its ground. A fill's owner and its waiters answer
      what the fill published, and a waiter passes on the end of its owner's context
      only when its own has ended too, or when it has retried once. An answer with no
      fill behind it is the end of the caller's own context, or comes after three
      validations that did not settle. A key is returned without a verdict only after
      a read that failed, and after a second one when the first ended with a context. */
  lemma {:induction false} AnswersAreGrounded(blank: bool, clock: int, row: Row, history: seq<Action>, c: nat)
    requires Run(Start(blank, clock, row), history).Some?
    requires c < |Run(Start(blank, clock, row), history).value.callers|
    ensures var w := Run(Start(blank, clock, row), history).value; Reasoned(w, w.callers[c])
  {
    hide Inv, Step, Enabled, Reasoned;
    var first := Start(blank, clock, row);
    if history == [] {
    } else {
      var before := history[..|history| - 1];
      InvariantHolds(blank, clock, row, before);
      if c < |Run(first, before).value.callers| {
        AnswersAreGrounded(blank, clock, row, before, c);
      }
      ReasonedStep(Run(first, before).value, history[|history| - 1], c);
    }
  }

  /** Main result: "not configured" is told only for a row without a key: the answer's
      fill read such a version at an earlier step, and its read did not fail. */
  lemma NotConfiguredMeansNoKey(blank: bool, clock: int, row: Row, history: seq<Action>, c: nat) returns (k: nat)
    requires Run(Start(blank, clock, row), history).Some?
    requires var w := Run(Start(blank, clock, row), history).value;
             c < |w.callers| && w.callers[c].pc.Answered? && w.callers[c].pc.result == Failed(NotConfigured)
    ensures k < |history| && Run(Start(blank, clock, row), history[..k]).Some?
    ensures var w := Run(Start(blank, clock, row), history).value;
            var read := Run(Start(blank, clock, row), history[..k]).value;
            && (w.callers[c].pc.how.ByFill? || w.callers[c].pc.how.ByWait?)
            && history[k].Own? && history[k].move.Fetch? && history[k].move.failure == None
            && history[k].move.version < |read.rows| && read.rows[history[k].move.version] == NoKey
            && history[k].caller < |read.callers|
            && var how := w.callers[c].pc.how;
               read.callers[history[k].caller].pc == Filling(if how.ByFill? then how.fill else how.call)
  {
    var first := Start(blank, clock, row);
    AnswersAreGrounded(blank, clock, row, history, c);
    hide Run;
    var how := Run(first, history).value.callers[c].pc.how;
    k := PublishedTellsTheRow(first, history, if how.ByFill? then how.fill else how.call, Failed(NotConfigured));
  }

  // ------------------------------------------------------------ still cached

  /** The caller answered from a hit here. */
  ghost predicate Returned(pc: Pc, apiKey: string, token: nat) {
    pc.Answered? && pc.result == Found(apiKey, token) && FromAHit(pc.how)
  }

  lemma ReturnedMove(w: World, c: nat, move: Move, apiKey: string, token: nat)
    requires CanMove(w, c, move) && Returned(Moved(w, c, move).callers[c].pc, apiKey, token)
    ensures move == Confirm && w.cell.entry.Some? && w.cell.entry.value.result.Found?
            && w.cell.entry.value.result.token == token
  {
    hide LookUp, StartCheck, FinishFill, EndCheck, RevokeIf, Fetched;
  }

  lemma ReturnedKept(w: World, a: Action, c: nat, apiKey: string, token: nat)
    requires Enabled(w, a) && c < |Step(w, a).callers| && Returned(Step(w, a).callers[c].pc, apiKey, token)
    ensures || (c < |w.callers| && Returned(w.callers[c].pc, apiKey, token))
            || (a == Own(c, Confirm) && w.cell.entry.Some? && w.cell.entry.value.result.Found?
                && w.cell.entry.value.result.token == token)
  {
    if c >= |w.callers| {
      NoStepsBeforeBirth(w, a, c);
    } else if a.Own? && a.caller == c {
      hide Moved, Returned;
      ReturnedMove(w, c, a.move, apiKey, token);
    } else {
      hide Step, Returned;
      OthersDoNotMove(w, a, c);
    }
  }

  /** Main result: a key that a local writer replaced meanwhile is not returned. A key
      returned from a hit was still the cached one at the step that returned it. */
  lemma {:induction false} ReturnedWasCached(first: World, history: seq<Action>, c: nat, apiKey: string, token: nat)
    returns (k: nat)
    requires first.callers == [] && Run(first, history).Some?
    requires c < |Run(first, history).value.callers|
    requires Returned(Run(first, history).value.callers[c].pc, apiKey, token)
    ensures k < |history| && history[k] == Own(c, Confirm) && Run(first, history[..k]).Some?
    ensures var entry := Run(first, history[..k]).value.cell.entry;
            entry.Some? && entry.value.result.Found? && entry.value.result.token == token
  {
    hide Step, Enabled, Returned;
    var before := history[..|history| - 1];
    var w, a := Run(first, before).value, history[|history| - 1];
    ReturnedKept(w, a, c, apiKey, token);
    if c < |w.callers| && Returned(w.callers[c].pc, apiKey, token) {
      k := ReturnedWasCached(first, before, c, apiKey, token);
      assert before[..k] == history[..k];
    } else {
      k := |before|;
      assert history[..k] == before;
    }
  }

  /** Main result: a caller never waits beyond its own context. One that waits for another
      call's fill is answered with the end of its context by its next step, and one that
      waits for another call's validation by its next two. */
  lemma EndedContextsEndTheWait(w: World, c: nat)
    requires c < |w.callers| && w.callers[c].ctxEnded && (w.callers[c].pc.Waiting? || w.callers[c].pc.Awaiting?)
    ensures CanMove(w, c, GiveUp)
    ensures var v := Moved(w, c, GiveUp);
            if w.callers[c].pc.Waiting? then v.callers[c].pc == Answered(Failed(ContextEnded), NoKeyAtAll)
            else CanMove(v, c, Judge)
                 && Moved(v, c, Judge).callers[c].pc == Answered(Failed(ContextEnded), NoKeyAtAll)
  {
  }
}
