/** What every step of every caller, writer and sweep keeps. */
module ApiKeyInvariant {
  import opened Wrappers
  import opened ApiKeyCell
  import opened ApiKeyLoop
  import opened ApiKeyRuns

  /** A key is the opening of the token it is kept with. */
  ghost predicate Names(rows: seq<Row>, apiKey: string, token: nat) {
    token < |rows| && rows[token] == Keyed(apiKey)
  }

  ghost predicate TrueResult(rows: seq<Row>, r: Lookup<nat>) {
    r.Found? ==> Names(rows, r.apiKey, r.token)
  }

  ghost predicate AtLeast(r: Lookup<nat>, floor: nat) {
    r.Found? ==> r.token >= floor
  }

  /** A verdict says what the strong read saw. */
  ghost predicate TrueVerdict(rows: seq<Row>, val: Val, v: Verdict) {
    && val.token < |rows|
    && (v == Current ==> val.seen == Some(val.token))
    && (v == Stale ==> val.token + 1 < |rows|)
  }

  ghost predicate OwnsFill(pc: Pc, f: nat) {
    (pc.Filling? || pc.Filled? || pc.Closing?) && pc.fill == f
  }

  ghost predicate OwnsVal(pc: Pc, v: nat) {
    (pc.Checking? || pc.Checked?) && pc.cand.val == v
  }

  // ------------------------------------------------------------------- parts

  /** The cell's own shape. */
  ghost predicate CellOk(cell: Cell<nat, nat, nat>, rows: seq<Row>, fills: seq<Fill>, vals: seq<Val>) {
    && (cell.entry.Some? ==> cell.entry.value.result.Found? && TrueResult(rows, cell.entry.value.result))
    && (cell.running.Some? ==>
          && cell.running.value < |fills|
          && fills[cell.running.value].published == None
          && cell.entry == None)
    && (cell.checking.Some? ==>
          && cell.checking.value.call < |vals|
          && vals[cell.checking.value.call].token == cell.checking.value.token
          && vals[cell.checking.value.call].published == None)
  }

  /** An open fill is attached exactly when its ticket is current, and its owner is
      alive. A published result is true and no older than the fill's floor. */
  ghost predicate FillOk(f: nat, fill: Fill, generation: nat, running: Option<nat>, rows: seq<Row>,
                         callers: seq<Caller>) {
    && fill.ticket <= generation
    && fill.floor < |rows| && (!fill.strong ==> fill.floor == 0)
    && (fill.published == None ==>
          && (fill.ticket == generation <==> running == Some(f))
          && fill.owner < |callers| && OwnsFill(callers[fill.owner].pc, f))
    && (fill.published.Some? ==>
          TrueResult(rows, fill.published.value) && AtLeast(fill.published.value, fill.floor))
  }

  ghost predicate FillsOk(fills: seq<Fill>, generation: nat, running: Option<nat>, rows: seq<Row>,
                          callers: seq<Caller>) {
    forall f :: 0 <= f < |fills| ==> FillOk(f, fills[f], generation, running, rows, callers)
  }

  ghost predicate ValOk(v: nat, val: Val, rows: seq<Row>, callers: seq<Caller>, step: nat) {
    && val.token < |rows|
    && (val.published == None ==> val.owner < |callers| && OwnsVal(callers[val.owner].pc, v))
    && (val.published.Some? ==> TrueVerdict(rows, val, val.published.value) && val.closedAt < step)
  }

  ghost predicate ValsOk(vals: seq<Val>, rows: seq<Row>, callers: seq<Caller>, step: nat) {
    forall v :: 0 <= v < |vals| ==> ValOk(v, vals[v], rows, callers, step)
  }

  /** The candidate's validation is about the same token and was unfinished when
      this caller started or joined it. */
  ghost predicate CandOk(cand: Candidate, floor: nat, rows: seq<Row>, vals: seq<Val>, step: nat) {
    && Names(rows, cand.apiKey, cand.token) && cand.token >= floor
    && cand.val < |vals| && vals[cand.val].token == cand.token
    && cand.joined < step
    && (vals[cand.val].published.Some? ==> cand.joined < vals[cand.val].closedAt)
  }

  ghost predicate OpenFill(c: nat, f: nat, floor: nat, fills: seq<Fill>) {
    f < |fills| && fills[f].owner == c && fills[f].published == None && fills[f].floor >= floor
  }

  ghost predicate OpenVal(c: nat, v: nat, vals: seq<Val>) {
    v < |vals| && vals[v].owner == c && vals[v].published == None
  }

  ghost predicate HowOk(r: Lookup<nat>, how: How, vals: seq<Val>) {
    match how
    case ByValidation(cand) =>
      r.Found? ==> && r == Found(cand.apiKey, cand.token)
                   && cand.val < |vals|
                   && vals[cand.val].token == cand.token
                   && vals[cand.val].seen == Some(cand.token)
                   && vals[cand.val].published == Some(Current)
                   && cand.joined < vals[cand.val].closedAt
    case ByFallback(cand) =>
      r.Found? ==> && r == Found(cand.apiKey, cand.token)
                   && cand.val < |vals|
                   && vals[cand.val].published.Some? && vals[cand.val].published.value.Unread?
    case ByFill(_) => true
    case ByWait(_) => true
    case NoKeyAtAll => !r.Found?
  }

  /** Times a pending eviction may carry: none older than the delete in force, when
      its token is one that delete left behind. */
  ghost predicate RevokeOk(token: nat, now: int, rows: seq<Row>, guard: Option<Guard>) {
    && token + 1 < |rows|
    && (guard.Some? && token >= guard.value.version ==> now >= guard.value.now)
  }

  ghost predicate PcOk(c: nat, caller: Caller, w: World) {
    match caller.pc
    case Top => true
    case Timed(now) => now <= w.clock
    case HaveKey(apiKey, token) => Names(w.rows, apiKey, token) && token >= caller.floor
    case Checking(cand) => CandOk(cand, caller.floor, w.rows, w.vals, w.step) && OpenVal(c, cand.val, w.vals)
    case Checked(cand, verdict) =>
      && CandOk(cand, caller.floor, w.rows, w.vals, w.step) && OpenVal(c, cand.val, w.vals)
      && TrueVerdict(w.rows, w.vals[cand.val], verdict)
    case Awaiting(cand) => CandOk(cand, caller.floor, w.rows, w.vals, w.step)
    case Judging(cand, verdict) =>
      && CandOk(cand, caller.floor, w.rows, w.vals, w.step)
      && (w.vals[cand.val].published == Some(verdict) || (verdict == Unread(true) && caller.ctxEnded))
    case Confirming(cand, verdict) =>
      && CandOk(cand, caller.floor, w.rows, w.vals, w.step)
      && w.vals[cand.val].published == Some(verdict) && verdict != Stale
    case Revoking(token, now) => now <= w.clock && RevokeOk(token, now, w.rows, w.guard)
    case Waiting(fill) => fill < |w.fills| && w.fills[fill].floor >= caller.floor
    case Filling(fill) => OpenFill(c, fill, caller.floor, w.fills)
    case Filled(fill, result) =>
      OpenFill(c, fill, caller.floor, w.fills) && TrueResult(w.rows, result) && AtLeast(result, w.fills[fill].floor)
    case Closing(fill, result, now) =>
      && OpenFill(c, fill, caller.floor, w.fills) && TrueResult(w.rows, result) && AtLeast(result, w.fills[fill].floor)
      && now <= w.clock
    case Answered(result, how) =>
      TrueResult(w.rows, result) && AtLeast(result, caller.floor) && HowOk(result, how, w.vals)
    case Panicked => true
  }

  ghost predicate CountOk(caller: Caller) {
    && Within(caller.spent)
    && caller.lookups == Spent(caller.spent) + (if caller.pc.Top? || caller.pc.Timed? then 0 else 1)
  }

  ghost predicate CallersOk(w: World) {
    forall c :: 0 <= c < |w.callers| ==> CountOk(w.callers[c]) && PcOk(c, w.callers[c], w)
  }

  /** No reading a local writer holds is older than the delete in force. */
  ghost predicate WriterOk(writer: Writer, guard: Option<Guard>, rows: seq<Row>, clock: int) {
    match writer
    case SetTimed(_, now) => now <= clock && (guard.Some? ==> guard.value.now <= now)
    case SetWritten(apiKey, version, now) =>
      && now <= clock && Names(rows, apiKey, version)
      && (guard.Some? ==> guard.value.now <= now && guard.value.version <= version)
    case DeleteTimed(now) => now <= clock && (guard.Some? ==> guard.value.now <= now)
    case InvalidateDue(now) => now <= clock && (guard.Some? ==> guard.value.now <= now)
    case _ => true
  }

  /** While the clock is short of the delete's marker, nothing older is cached,
      nothing older can be published by the running fill, and either the marker
      itself or a newer key that outlives it keeps it so. */
  ghost predicate Guarded(g: Guard, cell: Cell<nat, nat, nat>, fills: seq<Fill>) {
    var until := g.now + API_KEY_CACHE_TTL;
    && (cell.entry.Some? ==> AtLeast(cell.entry.value.result, g.version))
    && (cell.running.Some? ==> cell.running.value < |fills| && fills[cell.running.value].floor >= g.version)
    && (|| (cell.strongUntil.Some? && cell.strongUntil.value >= until)
        || (cell.entry.Some? && cell.entry.value.expiresAt >= until))
  }

  ghost predicate GuardOk(w: World) {
    w.guard.Some? ==>
      && w.guard.value.version < |w.rows|
      && w.guard.value.now <= w.clock
      && (GuardLive(w) ==> Guarded(w.guard.value, w.cell, w.fills))
  }

  ghost predicate Inv(w: World) {
    && |w.rows| > 0
    && CellOk(w.cell, w.rows, w.fills, w.vals)
    && FillsOk(w.fills, w.cell.generation, w.cell.running, w.rows, w.callers)
    && ValsOk(w.vals, w.rows, w.callers, w.step)
    && CallersOk(w)
    && WriterOk(w.writer, w.guard, w.rows, w.clock)
    && GuardOk(w)
  }

  // ------------------------------------------------------ what others may rely on

  ghost predicate FillGrows(a: Fill, b: Fill, actor: nat) {
    && b.(published := a.published) == a
    && (b != a ==> a.owner == actor && a.published == None)
  }

  ghost predicate ValGrows(a: Val, b: Val, actor: nat, step: nat) {
    || b == a
    || (&& a.owner == actor && a.published == None
        && b.owner == a.owner && b.token == a.token
        && (b.published.Some? ==> step <= b.closedAt))
  }

  ghost predicate GuardGrows(w: World, v: World) {
    v.guard == w.guard || (v.guard.Some? && v.guard.value.version + 1 == |w.rows|)
  }

  /** A step of `actor` leaves everything another caller relies on. */
  ghost predicate Grows(w: World, v: World, actor: nat) {
    && w.rows <= v.rows && w.clock <= v.clock && w.step <= v.step
    && |w.fills| <= |v.fills|
    && (forall f :: 0 <= f < |w.fills| ==> FillGrows(w.fills[f], v.fills[f], actor))
    && |w.vals| <= |v.vals|
    && (forall i :: 0 <= i < |w.vals| ==> ValGrows(w.vals[i], v.vals[i], actor, w.step))
    && GuardGrows(w, v)
  }

  lemma CandKept(cand: Candidate, floor: nat, w: World, v: World, actor: nat)
    requires CandOk(cand, floor, w.rows, w.vals, w.step) && Grows(w, v, actor)
    ensures CandOk(cand, floor, v.rows, v.vals, v.step)
  {
    assert ValGrows(w.vals[cand.val], v.vals[cand.val], actor, w.step);
  }

  lemma HowKept(r: Lookup<nat>, how: How, w: World, v: World, actor: nat)
    requires HowOk(r, how, w.vals) && Grows(w, v, actor)
    ensures HowOk(r, how, v.vals)
  {
    if how.ByValidation? && r.Found? {
      assert ValGrows(w.vals[how.cand.val], v.vals[how.cand.val], actor, w.step);
    } else if how.ByFallback? && r.Found? {
      assert ValGrows(w.vals[how.kept.val], v.vals[how.kept.val], actor, w.step);
    }
  }

  lemma PcKept(c: nat, caller: Caller, w: World, v: World, actor: nat)
    requires PcOk(c, caller, w) && Grows(w, v, actor) && c != actor
    ensures PcOk(c, caller, v)
  {
    hide CandOk, HowOk;
    match caller.pc
    case Checking(cand) => CandKept(cand, caller.floor, w, v, actor);
    case Checked(cand, _) => CandKept(cand, caller.floor, w, v, actor);
    case Awaiting(cand) => CandKept(cand, caller.floor, w, v, actor);
    case Judging(cand, _) => CandKept(cand, caller.floor, w, v, actor); CandIndex(cand, caller.floor, w);
      assert ValGrows(w.vals[cand.val], v.vals[cand.val], actor, w.step);
    case Confirming(cand, _) => CandKept(cand, caller.floor, w, v, actor); CandIndex(cand, caller.floor, w);
      assert ValGrows(w.vals[cand.val], v.vals[cand.val], actor, w.step);
    case Waiting(fill) => assert FillGrows(w.fills[fill], v.fills[fill], actor);
    case Filling(fill) => assert FillGrows(w.fills[fill], v.fills[fill], actor);
    case Filled(fill, _) => assert FillGrows(w.fills[fill], v.fills[fill], actor);
    case Closing(fill, _, _) => assert FillGrows(w.fills[fill], v.fills[fill], actor);
    case Answered(result, how) => HowKept(result, how, w, v, actor);
    case _ =>
  }

  lemma CandIndex(cand: Candidate, floor: nat, w: World)
    requires CandOk(cand, floor, w.rows, w.vals, w.step)
    ensures cand.val < |w.vals|
  {
  }

  /** Every caller but the actor stays right; the actor must be shown right. */
  lemma CallersKept(w: World, v: World, actor: nat)
    requires CallersOk(w) && Grows(w, v, actor)
    requires |v.callers| >= |w.callers|
    requires forall c :: 0 <= c < |w.callers| && c != actor ==> v.callers[c] == w.callers[c]
    requires forall c :: |w.callers| <= c < |v.callers| ==> CountOk(v.callers[c]) && PcOk(c, v.callers[c], v)
    requires actor < |w.callers| ==> CountOk(v.callers[actor]) && PcOk(actor, v.callers[actor], v)
    ensures CallersOk(v)
  {
    forall c | 0 <= c < |v.callers|
      ensures CountOk(v.callers[c]) && PcOk(c, v.callers[c], v)
    {
      if c < |w.callers| && c != actor {
        PcKept(c, w.callers[c], w, v, actor);
      }
    }
  }

  // ------------------------------------------- a step that only moves one caller

  ghost predicate SameOwnership(a: Pc, b: Pc) {
    && (forall f :: OwnsFill(a, f) ==> OwnsFill(b, f))
    && (forall i :: OwnsVal(a, i) ==> OwnsVal(b, i))
  }

  lemma OwnersKept(w: World, rows: seq<Row>, callers: seq<Caller>, step: nat)
    requires FillsOk(w.fills, w.cell.generation, w.cell.running, w.rows, w.callers)
    requires ValsOk(w.vals, w.rows, w.callers, w.step)
    requires w.rows <= rows && w.step <= step && |w.callers| <= |callers|
    requires forall c :: 0 <= c < |w.callers| ==> SameOwnership(w.callers[c].pc, callers[c].pc)
    ensures FillsOk(w.fills, w.cell.generation, w.cell.running, rows, callers)
    ensures ValsOk(w.vals, rows, callers, step)
  {
    forall f | 0 <= f < |w.fills|
      ensures FillOk(f, w.fills[f], w.cell.generation, w.cell.running, rows, callers)
    {
      assert FillOk(f, w.fills[f], w.cell.generation, w.cell.running, w.rows, w.callers);
    }
    forall i | 0 <= i < |w.vals|
      ensures ValOk(i, w.vals[i], rows, callers, step)
    {
      assert ValOk(i, w.vals[i], w.rows, w.callers, w.step);
    }
  }

  lemma CellKept(cell: Cell<nat, nat, nat>, rows: seq<Row>, more: seq<Row>, fills: seq<Fill>, vals: seq<Val>)
    requires CellOk(cell, rows, fills, vals) && rows <= more
    ensures CellOk(cell, more, fills, vals)
  {
  }

  lemma GrowsInStep(w: World, v: World, actor: nat)
    requires v.rows == w.rows && v.clock == w.clock && v.step == w.step + 1
    requires v.fills == w.fills && v.vals == w.vals && v.guard == w.guard
    ensures Grows(w, v, actor)
  {
  }

  lemma MoveKeeps(w: World, c: nat, caller: Caller)
    requires Inv(w) && c < |w.callers|
    requires SameOwnership(w.callers[c].pc, caller.pc)
    requires CountOk(caller) && PcOk(c, caller, w.(step := w.step + 1))
    ensures Inv(w.(callers := w.callers[c := caller], step := w.step + 1))
  {
    var v := w.(callers := w.callers[c := caller], step := w.step + 1);
    hide FillsOk, ValsOk, CellOk, CallersOk, PcOk, CountOk, Grows, GuardOk;
    OwnersKept(w, w.rows, v.callers, v.step);
    GrowsInStep(w, v, c);
    PcDepends(c, caller, w.(step := w.step + 1), v);
    CallersKept(w, v, c);
    GuardDepends(w, v);
  }

  lemma PcDepends(c: nat, caller: Caller, w: World, v: World)
    requires PcOk(c, caller, w)
    requires v.rows == w.rows && v.clock == w.clock && v.step == w.step
    requires v.fills == w.fills && v.vals == w.vals && v.guard == w.guard
    ensures PcOk(c, caller, v)
  {
  }

  lemma GuardDepends(w: World, v: World)
    requires GuardOk(w)
    requires w.rows <= v.rows && w.clock <= v.clock && v.guard == w.guard && v.cell == w.cell && w.fills == v.fills
    ensures GuardOk(v)
  {
  }
}
