/** Each step of a caller, and each step of the world around it, keeps the
    invariant. */
module ApiKeyMoves {
  import opened Wrappers
  import opened ApiKeyCell
  import opened ApiKeyLoop
  import opened ApiKeyRuns
  import opened ApiKeyInvariant

  // --------------------------------------------------------- moves of one caller

  lemma CallerFacts(w: World, c: nat)
    requires Inv(w) && c < |w.callers|
    ensures CountOk(w.callers[c]) && PcOk(c, w.callers[c], w)
  {
  }

  ghost predicate Free(pc: Pc) {
    (forall f :: !OwnsFill(pc, f)) && (forall v :: !OwnsVal(pc, v))
  }

  lemma PcStepped(c: nat, caller: Caller, w: World)
    requires PcOk(c, caller, w)
    ensures PcOk(c, caller, w.(step := w.step + 1))
  {
  }

  lemma TurnKeeps(w: World, c: nat, next: Next<nat>, how: How)
    requires Inv(w) && c < |w.callers| && Free(w.callers[c].pc)
    requires !w.callers[c].pc.Top? && !w.callers[c].pc.Timed?
    requires next.Again? ==> Within(next.spent) && Spent(next.spent) == Spent(w.callers[c].spent) + 1
    requires next.Done? ==>
               && TrueResult(w.rows, next.result) && AtLeast(next.result, w.callers[c].floor)
               && HowOk(next.result, how, w.vals)
    ensures Inv(Proceed(w, c, next, how).(step := w.step + 1))
  {
    CallerFacts(w, c);
    var caller := match next
      case Again(spent) => w.callers[c].(spent := spent, pc := Top)
      case Done(result) => w.callers[c].(pc := Answered(result, how));
    hide Inv, HowOk;
    MoveKeeps(w, c, caller);
  }

  lemma ReadClockKeeps(w: World, c: nat)
    requires Inv(w) && c < |w.callers| && w.callers[c].pc.Top?
    ensures Inv(Put(w, c, Timed(w.clock)).(step := w.step + 1))
  {
    CallerFacts(w, c);
    hide Inv;
    MoveKeeps(w, c, w.callers[c].(pc := Timed(w.clock)));
  }

  lemma ReadClockToCloseKeeps(w: World, c: nat)
    requires Inv(w) && c < |w.callers| && w.callers[c].pc.Filled?
    ensures Inv(Put(w, c, Closing(w.callers[c].pc.fill, w.callers[c].pc.result, w.clock)).(step := w.step + 1))
  {
    CallerFacts(w, c);
    hide Inv;
    var pc := w.callers[c].pc;
    MoveKeeps(w, c, w.callers[c].(pc := Closing(pc.fill, pc.result, w.clock)));
  }

  lemma FetchKeeps(w: World, c: nat, version: nat, failure: Option<Failure>)
    requires Inv(w) && c < |w.callers| && w.callers[c].pc.Filling?
    requires w.callers[c].pc.fill < |w.fills| && version < |w.rows|
    requires w.fills[w.callers[c].pc.fill].strong ==> version == |w.rows| - 1
    ensures Inv(Put(w, c, Filled(w.callers[c].pc.fill, Fetched(w.rows, version, failure))).(step := w.step + 1))
  {
    CallerFacts(w, c);
    var f := w.callers[c].pc.fill;
    var result := Fetched(w.rows, version, failure);
    StrongFloor(w, f);
    hide Inv;
    MoveKeeps(w, c, w.callers[c].(pc := Filled(f, result)));
  }

  /** A fill has a floor only when it reads strongly. */
  lemma StrongFloor(w: World, f: nat)
    requires Inv(w) && f < |w.fills|
    ensures w.fills[f].floor < |w.rows|
    ensures !w.fills[f].strong ==> w.fills[f].floor == 0
  {
    assert FillOk(f, w.fills[f], w.cell.generation, w.cell.running, w.rows, w.callers);
  }

  lemma JoinFillKeeps(w: World, c: nat)
    requires Inv(w) && c < |w.callers| && w.callers[c].pc.Waiting?
    requires w.callers[c].pc.fill < |w.fills| && w.fills[w.callers[c].pc.fill].published.Some?
    ensures Inv(FillJoined(w, c, w.callers[c].pc.fill).(step := w.step + 1))
  {
    CallerFacts(w, c);
    var f := w.callers[c].pc.fill;
    assert FillOk(f, w.fills[f], w.cell.generation, w.cell.running, w.rows, w.callers);
    hide Inv;
    var caller := w.callers[c];
    TurnKeeps(w, c, AfterShared(w.fills[f].published.value, caller.ctxEnded, caller.spent), ByWait(f));
  }

  lemma JoinValKeeps(w: World, c: nat)
    requires Inv(w) && c < |w.callers| && w.callers[c].pc.Awaiting?
    requires w.callers[c].pc.cand.val < |w.vals| && w.vals[w.callers[c].pc.cand.val].published.Some?
    ensures var cand := w.callers[c].pc.cand;
            Inv(Put(w, c, Judging(cand, w.vals[cand.val].published.value)).(step := w.step + 1))
  {
    CallerFacts(w, c);
    hide Inv;
    var cand := w.callers[c].pc.cand;
    MoveKeeps(w, c, w.callers[c].(pc := Judging(cand, w.vals[cand.val].published.value)));
  }

  lemma GiveUpKeeps(w: World, c: nat)
    requires Inv(w) && c < |w.callers| && w.callers[c].ctxEnded
    requires w.callers[c].pc.Awaiting? || w.callers[c].pc.Waiting?
    ensures Inv(GivenUp(w, c).(step := w.step + 1))
  {
    CallerFacts(w, c);
    hide Inv;
    if w.callers[c].pc.Awaiting? {
      MoveKeeps(w, c, w.callers[c].(pc := Judging(w.callers[c].pc.cand, Unread(true))));
    } else {
      MoveKeeps(w, c, w.callers[c].(pc := Answered(Failed(ContextEnded), NoKeyAtAll)));
    }
  }

  lemma ValFacts(w: World, v: nat)
    requires Inv(w) && v < |w.vals|
    ensures ValOk(v, w.vals[v], w.rows, w.callers, w.step)
  {
  }

  lemma GuardFacts(w: World)
    requires Inv(w)
    ensures w.guard.Some? ==> w.guard.value.now <= w.clock && w.guard.value.version < |w.rows|
  {
  }

  lemma JudgeKeeps(w: World, c: nat)
    requires Inv(w) && c < |w.callers| && w.callers[c].pc.Judging?
    ensures Inv(Judged(w, c, w.callers[c].pc.cand, w.callers[c].pc.verdict).(step := w.step + 1))
  {
    CallerFacts(w, c);
    GuardFacts(w);
    var caller := w.callers[c];
    var cand, verdict := caller.pc.cand, caller.pc.verdict;
    ValFacts(w, cand.val);
    hide Inv;
    match AfterVerdict<nat>(verdict, caller.ctxEnded, caller.spent)
    case Settled(next) => TurnKeeps(w, c, next, NoKeyAtAll);
    case MustRevoke => MoveKeeps(w, c, caller.(pc := Revoking(cand.token, w.clock)));
    case MustBeLocal => MoveKeeps(w, c, caller.(pc := Confirming(cand, verdict)));
  }

  lemma ConfirmKeeps(w: World, c: nat)
    requires Inv(w) && c < |w.callers| && w.callers[c].pc.Confirming?
    ensures Inv(Confirmed(w, c, w.callers[c].pc.cand, w.callers[c].pc.verdict).(step := w.step + 1))
  {
    CallerFacts(w, c);
    var caller := w.callers[c];
    var cand, verdict := caller.pc.cand, caller.pc.verdict;
    ValFacts(w, cand.val);
    hide Inv;
    TurnKeeps(w, c, AfterLocal(Holds(w.cell, cand.token), cand.apiKey, cand.token, caller.spent),
              if verdict == Current then ByValidation(cand) else ByFallback(cand));
  }

  // ------------------------------------------------------- steps on the cell

  lemma CellChanges(w: World, cell: Cell<nat, nat, nat>)
    requires Inv(w)
    requires CellOk(cell, w.rows, w.fills, w.vals)
    requires FillsOk(w.fills, cell.generation, cell.running, w.rows, w.callers)
    requires GuardLive(w) ==> Guarded(w.guard.value, cell, w.fills)
    ensures Inv(w.(cell := cell))
  {
    var v := w.(cell := cell);
    hide FillsOk, ValsOk, CellOk, PcOk, CountOk, Guarded;
    forall c | 0 <= c < |v.callers|
      ensures CountOk(v.callers[c]) && PcOk(c, v.callers[c], v)
    {
      CallerFacts(w, c);
      PcDepends(c, w.callers[c], w, v);
    }
  }

  /** Advancing the generation detaches whatever fill was attached. */
  lemma DetachFills(fills: seq<Fill>, generation: nat, running: Option<nat>, rows: seq<Row>, callers: seq<Caller>)
    requires FillsOk(fills, generation, running, rows, callers)
    ensures FillsOk(fills, generation + 1, None, rows, callers)
  {
    forall f | 0 <= f < |fills|
      ensures FillOk(f, fills[f], generation + 1, None, rows, callers)
    {
      assert FillOk(f, fills[f], generation, running, rows, callers);
    }
  }

  lemma RevokeKeepsGuard(g: Guard, cell: Cell<nat, nat, nat>, fills: seq<Fill>, token: nat, now: int)
    requires Guarded(g, cell, fills) && Holds(cell, token)
    requires token >= g.version ==> now >= g.now
    ensures Guarded(g, Revoke(cell, now + API_KEY_CACHE_TTL), fills)
  {
  }

  lemma RevokeIfKeeps(w: World, token: nat, now: int)
    requires Inv(w) && RevokeOk(token, now, w.rows, w.guard)
    ensures Inv(w.(cell := RevokeIf(w.cell, token, now + API_KEY_CACHE_TTL)))
  {
    if Holds(w.cell, token) {
      DetachFills(w.fills, w.cell.generation, w.cell.running, w.rows, w.callers);
      if GuardLive(w) {
        RevokeKeepsGuard(w.guard.value, w.cell, w.fills, token, now);
      }
      hide FillsOk, ValsOk, CallersOk, Guarded;
      CellChanges(w, Revoke(w.cell, now + API_KEY_CACHE_TTL));
    }
  }

  lemma RevokingFacts(w: World, c: nat)
    requires Inv(w) && c < |w.callers| && w.callers[c].pc.Revoking?
    ensures RevokeOk(w.callers[c].pc.token, w.callers[c].pc.now, w.rows, w.guard)
    ensures Within(w.callers[c].spent)
    ensures Free(w.callers[c].pc)
  {
    CallerFacts(w, c);
  }

  lemma StaleRevokedKeeps(w: World, c: nat)
    requires Inv(w) && c < |w.callers| && w.callers[c].pc.Revoking?
    ensures Inv(StaleRevoked(w, c, w.callers[c].pc.token, w.callers[c].pc.now).(step := w.step + 1))
  {
    hide Inv, RevokeIf, Free, RevokeOk;
    var token, now := w.callers[c].pc.token, w.callers[c].pc.now;
    RevokingFacts(w, c);
    RevokeIfKeeps(w, token, now);
    var cell := if w.blank then w.cell else RevokeIf(w.cell, token, now + API_KEY_CACHE_TTL);
    TurnKeeps(w.(cell := cell), c, Recheck(w.callers[c].spent), NoKeyAtAll);
  }

  /** An entry or a marker that a reading of the clock finds expired is not what
      guards a delete whose time is not over. */
  lemma SweepKeepsGuard(g: Guard, cell: Cell<nat, nat, nat>, fills: seq<Fill>, at: int)
    requires Guarded(g, cell, fills) && at < g.now + API_KEY_CACHE_TTL
    ensures Guarded(g, Swept(cell, at), fills)
    ensures !Live(cell, at) ==> Guarded(g, MarkerExpired(Evicted(cell), at), fills)
  {
  }

  lemma SweepKeeps(w: World, at: int)
    requires Inv(w) && at <= w.clock
    ensures Inv(w.(cell := Swept(w.cell, at)))
    ensures !Live(w.cell, at) ==> Inv(w.(cell := MarkerExpired(Evicted(w.cell), at)))
  {
    if GuardLive(w) {
      SweepKeepsGuard(w.guard.value, w.cell, w.fills, at);
    }
    SweepCells(w, at);
    hide Inv;
    CellChangesToo(w, Swept(w.cell, at));
    if !Live(w.cell, at) {
      CellChangesToo(w, MarkerExpired(Evicted(w.cell), at));
    }
  }

  lemma SweepCells(w: World, at: int)
    requires Inv(w)
    ensures CellOk(Swept(w.cell, at), w.rows, w.fills, w.vals)
    ensures CellOk(MarkerExpired(Evicted(w.cell), at), w.rows, w.fills, w.vals)
  {
  }

  lemma CellChangesToo(w: World, cell: Cell<nat, nat, nat>)
    requires Inv(w)
    requires CellOk(cell, w.rows, w.fills, w.vals)
    requires cell.generation == w.cell.generation && cell.running == w.cell.running
    requires GuardLive(w) ==> Guarded(w.guard.value, cell, w.fills)
    ensures Inv(w.(cell := cell))
  {
    CellChanges(w, cell);
  }

  // ------------------------------------------------------------------ lookups

  /** The cell a lookup leaves before it starts a fill. */
  function Looked(cell: Cell<nat, nat, nat>, at: int, sweeps: bool): Cell<nat, nat, nat> {
    var c1 := if sweeps then Swept(cell, at) else cell;
    if Live(c1, at) then c1 else MarkerExpired(Evicted(c1), at)
  }

  lemma LookedKeeps(w: World, at: int, sweeps: bool)
    requires Inv(w) && at <= w.clock
    ensures Inv(w.(cell := Looked(w.cell, at, sweeps)))
  {
    SweepKeeps(w, at);
    hide Inv;
    var w1 := if sweeps then w.(cell := Swept(w.cell, at)) else w;
    SweepKeeps(w1, at);
  }

  /** While a delete is in force, a miss finds its marker, so the fill it starts
      reads strongly. */
  lemma MissReadsStrongly(w: World, at: int)
    requires Inv(w) && GuardLive(w) && at <= w.clock
    requires !Live(w.cell, at)
    ensures w.cell.strongUntil.Some? && at < w.cell.strongUntil.value
  {
  }

  lemma HitKeeps(w: World, c: nat)
    requires Inv(w) && c < |w.callers| && w.callers[c].pc.Timed?
    requires w.cell.entry.Some? && w.cell.entry.value.result.Found?
    ensures Inv(HitBy(w, c))
  {
    CallerFacts(w, c);
    var caller := HitBy(w, c).callers[c];
    assert PcOk(c, caller, w.(step := w.step + 1));
    hide Inv;
    MoveKeeps(w, c, caller);
  }

  lemma WaitKeeps(w: World, c: nat)
    requires Inv(w) && c < |w.callers| && w.callers[c].pc.Timed?
    requires w.cell.running.Some?
    ensures Inv(WaitBy(w, c))
  {
    CallerFacts(w, c);
    var caller := WaitBy(w, c).callers[c];
    assert PcOk(c, caller, w.(step := w.step + 1));
    hide Inv;
    MoveKeeps(w, c, caller);
  }

  /** The world after caller `c` becomes the owner of a new fill. */
  function FillStarted(w: World, c: nat, strong: bool): World
    requires c < |w.callers| && |w.rows| > 0
  {
    var f := |w.fills|;
    w.(cell := w.cell.(running := Some(f)),
       fills := w.fills + [Fill(c, w.cell.generation, strong, if strong then |w.rows| - 1 else 0, None)],
       callers := w.callers[c := w.callers[c].(lookups := w.callers[c].lookups + 1, lookedAt := w.clock,
                                               floor := PromisedFloor(w), pc := Filling(f))],
       step := w.step + 1)
  }

  lemma FillStartedFills(w: World, c: nat, strong: bool)
    requires Inv(w) && c < |w.callers| && Free(w.callers[c].pc) && w.cell.running == None
    ensures var v := FillStarted(w, c, strong);
            FillsOk(v.fills, v.cell.generation, v.cell.running, v.rows, v.callers)
                && ValsOk(v.vals, v.rows, v.callers, v.step)
  {
    var v := FillStarted(w, c, strong);
    forall f | 0 <= f < |v.fills|
      ensures FillOk(f, v.fills[f], v.cell.generation, v.cell.running, v.rows, v.callers)
    {
      if f < |w.fills| {
        assert FillOk(f, w.fills[f], w.cell.generation, w.cell.running, w.rows, w.callers);
      }
    }
    forall i | 0 <= i < |v.vals|
      ensures ValOk(i, v.vals[i], v.rows, v.callers, v.step)
    {
      ValFacts(w, i);
    }
  }

  lemma FillStartedCallers(w: World, c: nat, strong: bool)
    requires Inv(w) && c < |w.callers| && w.callers[c].pc.Timed?
    requires GuardLive(w) ==> strong
    ensures CallersOk(FillStarted(w, c, strong))
  {
    var v := FillStarted(w, c, strong);
    CallerFacts(w, c);
    GuardFacts(w);
    hide Inv, CallersOk;
    assert CallersOk(w) by { InvCallers(w); }
    CallersKept(w, v, c);
  }

  lemma InvCallers(w: World)
    requires Inv(w)
    ensures CallersOk(w)
  {
  }

  lemma FillStartedKeeps(w: World, c: nat, strong: bool)
    requires Inv(w) && c < |w.callers| && w.callers[c].pc.Timed?
    requires w.cell.running == None && w.cell.entry == None
    requires GuardLive(w) ==> strong
    ensures Inv(FillStarted(w, c, strong))
  {
    FillStartedFills(w, c, strong);
    FillStartedCallers(w, c, strong);
    hide FillsOk, ValsOk, CallersOk;
  }

  function HitBy(w: World, c: nat): World
    requires c < |w.callers| && w.cell.entry.Some? && w.cell.entry.value.result.Found?
  {
    var r := w.cell.entry.value.result;
    var caller := w.callers[c].(lookups := w.callers[c].lookups + 1, lookedAt := w.clock, floor := PromisedFloor(w),
                                pc := HaveKey(r.apiKey, r.token));
    w.(callers := w.callers[c := caller], step := w.step + 1)
  }

  function WaitBy(w: World, c: nat): World
    requires c < |w.callers| && w.cell.running.Some?
  {
    var caller := w.callers[c].(lookups := w.callers[c].lookups + 1, lookedAt := w.clock, floor := PromisedFloor(w),
                                pc := Waiting(w.cell.running.value));
    w.(callers := w.callers[c := caller], step := w.step + 1)
  }

  /** A lookup is one of three: a hit, a wait, or a new fill. */
  lemma SearchedForm(w: World, c: nat, now: int, sweeps: bool)
    requires c < |w.callers| && |w.rows| > 0
    requires w.cell.entry.Some? ==> w.cell.entry.value.result.Found?
    ensures var w1 := w.(cell := Looked(w.cell, now, sweeps));
            var v := Searched(w, c, now, sweeps).(step := w.step + 1);
            if Live(w1.cell, now) then w1.cell.entry.value.result.Found? && v == HitBy(w1, c)
            else if w1.cell.running.Some? then v == WaitBy(w1, c)
            else w1.cell.entry == None && v == FillStarted(w1, c, w1.cell.strongUntil.Some?)
  {
  }

  lemma FoundOnly(w: World)
    requires Inv(w)
    ensures |w.rows| > 0 && (w.cell.entry.Some? ==> w.cell.entry.value.result.Found?)
  {
  }

  lemma SearchedKeeps(w: World, c: nat, sweeps: bool)
    requires Inv(w) && c < |w.callers| && w.callers[c].pc.Timed?
    ensures Inv(Searched(w, c, w.callers[c].pc.now, sweeps).(step := w.step + 1))
  {
    CallerFacts(w, c);
    FoundOnly(w);
    var now := w.callers[c].pc.now;
    var w1 := w.(cell := Looked(w.cell, now, sweeps));
    hide Inv, Looked, Searched;
    LookedKeeps(w, now, sweeps);
    SearchedForm(w, c, now, sweeps);
    if Live(w1.cell, now) {
      HitKeeps(w1, c);
    } else if w1.cell.running.Some? {
      WaitKeeps(w1, c);
    } else {
      if GuardLive(w1) {
        MissReadsStrongly(w1, now);
      }
      FillStartedKeeps(w1, c, w1.cell.strongUntil.Some?);
    }
  }

  // --------------------------------------------------------------- validations

  function CheckStarted(w: World, c: nat, apiKey: string, token: nat): World
    requires c < |w.callers|
  {
    var v := |w.vals|;
    w.(cell := w.cell.(checking := Some(Check(v, token))),
       vals := w.vals + [Val(c, token, None, None, 0)],
       callers := w.callers[c := w.callers[c].(pc := Checking(Candidate(apiKey, token, v, w.step)))],
       step := w.step + 1)
  }

  lemma CheckStartedVals(w: World, c: nat, apiKey: string, token: nat)
    requires Inv(w) && c < |w.callers| && Free(w.callers[c].pc) && token < |w.rows|
    ensures var v := CheckStarted(w, c, apiKey, token);
            FillsOk(v.fills, v.cell.generation, v.cell.running, v.rows, v.callers)
                && ValsOk(v.vals, v.rows, v.callers, v.step)
  {
    var v := CheckStarted(w, c, apiKey, token);
    forall f | 0 <= f < |v.fills|
      ensures FillOk(f, v.fills[f], v.cell.generation, v.cell.running, v.rows, v.callers)
    {
      assert FillOk(f, w.fills[f], w.cell.generation, w.cell.running, w.rows, w.callers);
    }
    forall i | 0 <= i < |v.vals|
      ensures ValOk(i, v.vals[i], v.rows, v.callers, v.step)
    {
      if i < |w.vals| {
        ValFacts(w, i);
      }
    }
  }

  lemma CheckStartedCallers(w: World, c: nat)
    requires Inv(w) && c < |w.callers| && w.callers[c].pc.HaveKey?
    ensures CallersOk(CheckStarted(w, c, w.callers[c].pc.apiKey, w.callers[c].pc.token))
  {
    var v := CheckStarted(w, c, w.callers[c].pc.apiKey, w.callers[c].pc.token);
    CallerFacts(w, c);
    InvCallers(w);
    hide Inv, CallersOk;
    CallersKept(w, v, c);
  }

  lemma CheckStartedKeeps(w: World, c: nat)
    requires Inv(w) && c < |w.callers| && w.callers[c].pc.HaveKey?
    ensures Inv(CheckStarted(w, c, w.callers[c].pc.apiKey, w.callers[c].pc.token))
  {
    CallerFacts(w, c);
    CheckStartedVals(w, c, w.callers[c].pc.apiKey, w.callers[c].pc.token);
    CheckStartedCallers(w, c);
    hide FillsOk, ValsOk, CallersOk, PcOk;
  }

  lemma ValStartedKeeps(w: World, c: nat)
    requires Inv(w) && c < |w.callers| && w.callers[c].pc.HaveKey?
    ensures Inv(ValStarted(w, c, w.callers[c].pc.apiKey, w.callers[c].pc.token).(step := w.step + 1))
  {
    CallerFacts(w, c);
    var apiKey, token := w.callers[c].pc.apiKey, w.callers[c].pc.token;
    var start := StartCheck(w.cell, token, |w.vals|).1;
    if start.Join? {
      var caller := w.callers[c].(pc := Awaiting(Candidate(apiKey, token, start.call, w.step)));
      assert PcOk(c, caller, w.(step := w.step + 1));
      hide Inv;
      MoveKeeps(w, c, caller);
    } else {
      CheckStartedKeeps(w, c);
    }
  }

  /** A validation of the actor changes; nothing else but its program counter does. */
  function ValChanged(w: World, c: nat, v: nat, val: Val, pc: Pc): World
    requires c < |w.callers| && v < |w.vals|
  {
    w.(vals := w.vals[v := val], callers := w.callers[c := w.callers[c].(pc := pc)], step := w.step + 1)
  }

  lemma ValChangedVals(w: World, c: nat, v: nat, val: Val, pc: Pc)
    requires Inv(w) && c < |w.callers| && OwnsVal(w.callers[c].pc, v) && OpenVal(c, v, w.vals)
    requires forall f :: !OwnsFill(pc, f)
    requires val.published == None ==> OwnsVal(pc, v) && val.owner == c
    requires ValOk(v, val, w.rows, w.callers[c := w.callers[c].(pc := pc)], w.step + 1)
    ensures var x := ValChanged(w, c, v, val, pc);
            FillsOk(x.fills, x.cell.generation, x.cell.running, x.rows, x.callers)
                && ValsOk(x.vals, x.rows, x.callers, x.step)
  {
    var x := ValChanged(w, c, v, val, pc);
    forall f | 0 <= f < |x.fills|
      ensures FillOk(f, x.fills[f], x.cell.generation, x.cell.running, x.rows, x.callers)
    {
      assert FillOk(f, w.fills[f], w.cell.generation, w.cell.running, w.rows, w.callers);
    }
    forall i | 0 <= i < |x.vals|
      ensures ValOk(i, x.vals[i], x.rows, x.callers, x.step)
    {
      ValFacts(w, i);
    }
  }

  lemma ValChangedKeeps(w: World, c: nat, v: nat, val: Val, pc: Pc)
    requires Inv(w) && c < |w.callers| && OwnsVal(w.callers[c].pc, v) && OpenVal(c, v, w.vals)
    requires forall f :: !OwnsFill(pc, f)
    requires val.owner == c && val.token == w.vals[v].token
    requires val.published == None ==> OwnsVal(pc, v)
    requires val.published.Some? ==> val.closedAt == w.step
    requires ValOk(v, val, w.rows, w.callers[c := w.callers[c].(pc := pc)], w.step + 1)
    requires CountOk(w.callers[c].(pc := pc)) && PcOk(c, w.callers[c].(pc := pc), ValChanged(w, c, v, val, pc))
    requires CellOk(w.cell, w.rows, w.fills, w.vals[v := val])
    ensures Inv(ValChanged(w, c, v, val, pc))
  {
    var x := ValChanged(w, c, v, val, pc);
    ValChangedVals(w, c, v, val, pc);
    InvCallers(w);
    assert Grows(w, x, c);
    assert CallersOk(x) by {
      hide Inv, CallersOk, PcOk, CountOk, ValOk, CellOk;
      CallersKept(w, x, c);
    }
    hide FillsOk, ValsOk, CallersOk, CellOk, PcOk;
  }

  lemma RowReadPc(w: World, c: nat, unread: Option<bool>)
    requires Inv(w) && c < |w.callers| && w.callers[c].pc.Checking? && w.callers[c].pc.cand.val < |w.vals|
    requires |w.rows| > 0
    ensures var cand := w.callers[c].pc.cand;
            var val := w.vals[cand.val].(seen := Some(|w.rows| - 1));
            var pc := Checked(cand, VerdictOn(w.rows, cand.token, unread));
            && OpenVal(c, cand.val, w.vals)
            && CountOk(w.callers[c].(pc := pc))
            && PcOk(c, w.callers[c].(pc := pc), ValChanged(w, c, cand.val, val, pc))
  {
    CallerFacts(w, c);
    hide Inv;
  }

  lemma RowReadVal(w: World, c: nat, unread: Option<bool>)
    requires Inv(w) && c < |w.callers| && w.callers[c].pc.Checking? && w.callers[c].pc.cand.val < |w.vals|
    requires |w.rows| > 0 && OpenVal(c, w.callers[c].pc.cand.val, w.vals)
    ensures var cand := w.callers[c].pc.cand;
            var val := w.vals[cand.val].(seen := Some(|w.rows| - 1));
            var pc := Checked(cand, VerdictOn(w.rows, cand.token, unread));
            && ValOk(cand.val, val, w.rows, w.callers[c := w.callers[c].(pc := pc)], w.step + 1)
            && CellOk(w.cell, w.rows, w.fills, w.vals[cand.val := val])
  {
    var cand := w.callers[c].pc.cand;
    ValFacts(w, cand.val);
    SeenCell(w, cand.val, |w.rows| - 1);
    hide Inv, CellOk;
  }

  lemma RowReadForm(w: World, c: nat, cand: Candidate, unread: Option<bool>)
    requires c < |w.callers| && |w.rows| > 0 && cand.val < |w.vals|
    ensures RowRead(w, c, cand, unread).(step := w.step + 1)
            == ValChanged(w, c, cand.val, w.vals[cand.val].(seen := Some(|w.rows| - 1)),
                          Checked(cand, VerdictOn(w.rows, cand.token, unread)))
  {
  }

  lemma RowReadKeeps(w: World, c: nat, unread: Option<bool>)
    requires Inv(w) && c < |w.callers| && w.callers[c].pc.Checking? && w.callers[c].pc.cand.val < |w.vals|
    ensures |w.rows| > 0 && Inv(RowRead(w, c, w.callers[c].pc.cand, unread).(step := w.step + 1))
  {
    FoundOnly(w);
    RowReadPc(w, c, unread);
    RowReadVal(w, c, unread);
    RowReadForm(w, c, w.callers[c].pc.cand, unread);
    hide Inv, CellOk, PcOk, CountOk, ValOk, VerdictOn, RowRead;
    var cand := w.callers[c].pc.cand;
    var val := w.vals[cand.val].(seen := Some(|w.rows| - 1));
    ValChangedKeeps(w, c, cand.val, val, Checked(cand, VerdictOn(w.rows, cand.token, unread)));
  }

  lemma SeenCell(w: World, v: nat, seen: nat)
    requires Inv(w) && v < |w.vals|
    ensures CellOk(w.cell, w.rows, w.fills, w.vals[v := w.vals[v].(seen := Some(seen))])
  {
    hide FillsOk, ValsOk, CallersOk, GuardOk, WriterOk;
  }

  /** Forgetting the running validation of the cell, if it is this one. */
  lemma EndCheckKeeps(w: World, v: nat)
    requires Inv(w)
    ensures Inv(w.(cell := EndCheck(w.cell, v)))
    ensures var ch := EndCheck(w.cell, v).checking; ch.Some? ==> ch.value.call != v
  {
    assert CellOk(EndCheck(w.cell, v), w.rows, w.fills, w.vals);
    hide CellOk;
    CellChangesToo(w, EndCheck(w.cell, v));
  }

  lemma ValClosedKeeps(w: World, c: nat, v: nat, verdict: Verdict, pc: Pc)
    requires Inv(w) && c < |w.callers| && OwnsVal(w.callers[c].pc, v) && OpenVal(c, v, w.vals)
    requires TrueVerdict(w.rows, w.vals[v], verdict)
    requires CandOk(w.callers[c].pc.cand, w.callers[c].floor, w.rows, w.vals, w.step)
    requires pc == Panicked || pc == Judging(w.callers[c].pc.cand, verdict)
    ensures Inv(Put(ValClosed(w, v, verdict), c, pc).(step := w.step + 1))
  {
    CallerFacts(w, c);
    EndCheckKeeps(w, v);
    var w1 := w.(cell := EndCheck(w.cell, v));
    var val := w.vals[v].(published := Some(verdict), closedAt := w.step);
    assert CellOk(w1.cell, w1.rows, w1.fills, w1.vals[v := val]);
    hide Inv, CellOk;
    ValChangedKeeps(w1, c, v, val, pc);
  }

  // ---------------------------------------------------------------- closing fills

  lemma FillClosedCell(w: World, f: nat, result: Lookup<nat>, now: int)
    requires Inv(w) && f < |w.fills| && w.fills[f].published == None
    requires TrueResult(w.rows, result) && AtLeast(result, w.fills[f].floor)
    ensures var v := FillClosed(w, f, result, now);
            && CellOk(v.cell, v.rows, v.fills, v.vals)
            && v.cell.generation == w.cell.generation
            && v.cell.running == (if w.cell.running == Some(f) then None else w.cell.running)
            && (GuardLive(v) ==> Guarded(v.guard.value, v.cell, v.fills))
  {
    assert FillOk(f, w.fills[f], w.cell.generation, w.cell.running, w.rows, w.callers);
  }

  lemma FillClosedFills(w: World, c: nat, f: nat, result: Lookup<nat>, now: int, pc: Pc)
    requires Inv(w) && c < |w.callers| && OwnsFill(w.callers[c].pc, f) && OpenFill(c, f, 0, w.fills) && Free(pc)
    requires TrueResult(w.rows, result) && AtLeast(result, w.fills[f].floor)
    ensures var v := Put(FillClosed(w, f, result, now), c, pc).(step := w.step + 1);
            FillsOk(v.fills, v.cell.generation, v.cell.running, v.rows, v.callers)
                && ValsOk(v.vals, v.rows, v.callers, v.step)
  {
    var v := Put(FillClosed(w, f, result, now), c, pc).(step := w.step + 1);
    FillClosedCell(w, f, result, now);
    forall i | 0 <= i < |v.fills|
      ensures FillOk(i, v.fills[i], v.cell.generation, v.cell.running, v.rows, v.callers)
    {
      assert FillOk(i, w.fills[i], w.cell.generation, w.cell.running, w.rows, w.callers);
    }
    forall i | 0 <= i < |v.vals|
      ensures ValOk(i, v.vals[i], v.rows, v.callers, v.step)
    {
      ValFacts(w, i);
    }
  }

  lemma FillClosedCallers(w: World, c: nat, f: nat, result: Lookup<nat>, now: int, pc: Pc)
    requires Inv(w) && c < |w.callers| && OpenFill(c, f, w.callers[c].floor, w.fills)
    requires !w.callers[c].pc.Top? && !w.callers[c].pc.Timed?
    requires TrueResult(w.rows, result) && AtLeast(result, w.fills[f].floor)
    requires pc == Panicked || pc == Answered(result, ByFill(f))
    ensures CallersOk(Put(FillClosed(w, f, result, now), c, pc).(step := w.step + 1))
  {
    var v := Put(FillClosed(w, f, result, now), c, pc).(step := w.step + 1);
    CallerFacts(w, c);
    InvCallers(w);
    hide Inv, CallersOk;
    CallersKept(w, v, c);
  }

  lemma FillClosedKeeps(w: World, c: nat, f: nat, result: Lookup<nat>, now: int, pc: Pc)
    requires Inv(w) && c < |w.callers| && OwnsFill(w.callers[c].pc, f) && OpenFill(c, f, w.callers[c].floor, w.fills)
    requires TrueResult(w.rows, result) && AtLeast(result, w.fills[f].floor)
    requires pc == Panicked || pc == Answered(result, ByFill(f))
    ensures Inv(Put(FillClosed(w, f, result, now), c, pc).(step := w.step + 1))
  {
    FillClosedCell(w, f, result, now);
    FillClosedFills(w, c, f, result, now, pc);
    FillClosedCallers(w, c, f, result, now, pc);
    hide FillsOk, ValsOk, CallersOk, CellOk, Guarded;
  }
}
