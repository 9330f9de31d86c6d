/** Every history of one workspace: any number of `APIKey` callers, local setups
    and deletes, writes by other processes, sweeps started by other workspaces,
    and clock readings, interleaved in any order.

    The row is a history of its key columns. A version is known by its position,
    so a version that holds a key is also the token of its ciphertext: every seal
    gives fresh material, and opening it under the same workspace gives back what
    was sealed. A strongly consistent read sees the last version, an eventually
    consistent read any version. A clock reading and the critical section that
    uses it are separate steps. */
module ApiKeyRuns {
  import opened Wrappers
  import opened ApiKeyCell
  import opened ApiKeyLoop

  const API_KEY_CACHE_TTL := 300

  datatype Row = NoKey | Damaged | Keyed(apiKey: string)

  /** A fill: who owns it, its ticket, whether it reads strongly, the oldest version
      its read can see, and what it published. */
  datatype Fill = Fill(owner: nat, ticket: nat, strong: bool, floor: nat, published: Option<Lookup<nat>>)

  /** A validation: who owns it, the token it is about, the version its strong read
      saw, what it published, and the step it did so. */
  datatype Val = Val(owner: nat, token: nat, seen: Option<nat>, published: Option<Verdict>, closedAt: nat)

  /** A cached key under validation: the validation, and the step this caller
      started or joined it. */
  datatype Candidate = Candidate(apiKey: string, token: nat, val: nat, joined: nat)

  datatype How =
    | ByFill(fill: nat) | ByWait(call: nat) | ByValidation(cand: Candidate) | ByFallback(kept: Candidate) | NoKeyAtAll

  datatype Pc =
    | Top
    | Timed(now: int)
    | HaveKey(apiKey: string, token: nat)
    | Checking(cand: Candidate)
    | Checked(cand: Candidate, verdict: Verdict)
    | Awaiting(cand: Candidate)
    | Judging(cand: Candidate, verdict: Verdict)
    | Confirming(cand: Candidate, verdict: Verdict)
    | Revoking(token: nat, now: int)
    | Waiting(fill: nat)
    | Filling(fill: nat)
    | Filled(fill: nat, result: Lookup<nat>)
    | Closing(fill: nat, result: Lookup<nat>, now: int)
    | Answered(result: Lookup<nat>, how: How)
    | Panicked

  /** `lookedAt` is the clock at the last lookup, and `floor` the version that the
      delete in force then promised. */
  datatype Caller = Caller(ctxEnded: bool, spent: Budget, lookups: nat, lookedAt: int, floor: nat, pc: Pc)

  /** At most one local setup or delete is between its write and its cache step. */
  datatype Writer =
    | Idle
    | SetTimed(apiKey: string, now: int)
    | SetWritten(apiKey: string, version: nat, now: int)
    | DeleteTimed(now: int)
    | WipeWritten
    | InvalidateDue(now: int)

  /** The last local delete: the last version when it invalidated the cache, and the
      clock reading its strong-read marker counts from. */
  datatype Guard = Guard(version: nat, now: int)

  datatype World = World(
    /** Whether the workspace ID is only white space: then nothing is ever
        invalidated or seeded. */
    blank: bool,
    clock: int,
    rows: seq<Row>,
    cell: Cell<nat, nat, nat>,
    fills: seq<Fill>,
    vals: seq<Val>,
    callers: seq<Caller>,
    writer: Writer,
    guard: Option<Guard>,
    step: nat)

  /** How a write that removes the key ended: done, refused because there was
      nothing to remove, or unanswered whether or not it took effect. */
  datatype Removal = Removed | Refused | Lost(committed: bool)

  /** One step of one caller. */
  datatype Move =
    | ReadClock
    | Search(sweeps: bool)
    | StartVal
    | ReadRow(unread: Option<bool>)
    | PublishVal
    | PanicInVal
    | JoinVal
    | GiveUp
    | Judge
    | Confirm
    | RevokeStale
    | Fetch(version: nat, failure: Option<Failure>)
    | PanicInFill
    | ReadClockToClose
    | Close
    | JoinFill

  datatype Action =
    | Tick(elapsed: nat)
    | RemoteWrite(row: Row)
    | SweepElsewhere(at: int)
    | SetStart(apiKey: string)
    | SetWrite(committed: bool, answered: bool)
    | SetSeed
    | DeleteStart
    | DeleteWrite(removal: Removal)
    | WipeWrite(removal: Removal)
    | WipeClock
    | InvalidateLocal
    | Begin
    | CtxEnds(caller: nat)
    | Own(caller: nat, move: Move)

  function Start(blank: bool, clock: int, row: Row): World {
    World(blank, clock, [row], EmptyCell(), [], [], [], Idle, None, 0)
  }

  // ------------------------------------------------------------ caller steps

  function Put(w: World, c: nat, pc: Pc): World
    requires c < |w.callers|
  {
    w.(callers := w.callers[c := w.callers[c].(pc := pc)])
  }

  /** Go round again with what was spent, or answer. */
  function Proceed(w: World, c: nat, next: Next<nat>, how: How): World
    requires c < |w.callers|
  {
    match next
    case Again(spent) => w.(callers := w.callers[c := w.callers[c].(spent := spent, pc := Top)])
    case Done(result) => Put(w, c, Answered(result, how))
  }

  predicate GuardLive(w: World) {
    w.guard.Some? && w.clock < w.guard.value.now + API_KEY_CACHE_TTL
  }

  function PromisedFloor(w: World): nat {
    if GuardLive(w) then w.guard.value.version else 0
  }

  function Searched(w: World, c: nat, now: int, sweeps: bool): World
    requires c < |w.callers| && |w.rows| > 0
  {
    var (cell, answer) := LookUp(w.cell, now, sweeps, |w.fills|);
    var caller := w.callers[c].(lookups := w.callers[c].lookups + 1, lookedAt := w.clock, floor := PromisedFloor(w));
    match answer
    case CachedKey(apiKey, token) =>
      w.(cell := cell, callers := w.callers[c := caller.(pc := HaveKey(apiKey, token))])
    case WaitFor(fill) =>
      w.(cell := cell, callers := w.callers[c := caller.(pc := Waiting(fill))])
    case OwnFill(fill, ticket, strong) =>
      w.(cell := cell,
         fills := w.fills + [Fill(c, ticket, strong, if strong then |w.rows| - 1 else 0, None)],
         callers := w.callers[c := caller.(pc := Filling(fill))])
  }

  function ValStarted(w: World, c: nat, apiKey: string, token: nat): World
    requires c < |w.callers|
  {
    var (cell, start) := StartCheck(w.cell, token, |w.vals|);
    var cand := Candidate(apiKey, token, start.call, w.step);
    match start
    case Join(_) => Put(w.(cell := cell), c, Awaiting(cand))
    case OwnCheck(_) =>
      Put(w.(cell := cell, vals := w.vals + [Val(c, token, None, None, 0)]), c, Checking(cand))
  }

  /** A validation reads the row strongly and compares the key columns. */
  function VerdictOn(rows: seq<Row>, token: nat, unread: Option<bool>): Verdict
    requires |rows| > 0
  {
    if unread.Some? then Unread(unread.value)
    else if rows[|rows| - 1].Keyed? && |rows| - 1 == token then Current
    else Stale
  }

  function RowRead(w: World, c: nat, cand: Candidate, unread: Option<bool>): World
    requires c < |w.callers| && |w.rows| > 0 && cand.val < |w.vals|
  {
    Put(w.(vals := w.vals[cand.val := w.vals[cand.val].(seen := Some(|w.rows| - 1))]), c,
        Checked(cand, VerdictOn(w.rows, cand.token, unread)))
  }

  function ValClosed(w: World, v: nat, verdict: Verdict): World
    requires v < |w.vals|
  {
    w.(cell := EndCheck(w.cell, v),
       vals := w.vals[v := w.vals[v].(published := Some(verdict), closedAt := w.step)])
  }

  function Judged(w: World, c: nat, cand: Candidate, verdict: Verdict): World
    requires c < |w.callers|
  {
    match AfterVerdict<nat>(verdict, w.callers[c].ctxEnded, w.callers[c].spent)
    case Settled(next) => Proceed(w, c, next, NoKeyAtAll)
    case MustRevoke => Put(w, c, Revoking(cand.token, w.clock))
    case MustBeLocal => Put(w, c, Confirming(cand, verdict))
  }

  function Confirmed(w: World, c: nat, cand: Candidate, verdict: Verdict): World
    requires c < |w.callers|
  {
    Proceed(w, c, AfterLocal(Holds(w.cell, cand.token), cand.apiKey, cand.token, w.callers[c].spent),
         if verdict == Current then ByValidation(cand) else ByFallback(cand))
  }

  function Opened(rows: seq<Row>, version: nat): Lookup<nat>
    requires version < |rows|
  {
    match rows[version]
    case NoKey => Failed(NotConfigured)
    case Damaged => Failed(OtherFailure)
    case Keyed(apiKey) => if apiKey == "" then Failed(OtherFailure) else Found(apiKey, version)
  }

  function FillClosed(w: World, f: nat, result: Lookup<nat>, now: int): World
    requires f < |w.fills|
  {
    w.(cell := FinishFill(w.cell, f, result, if result.Found? then API_KEY_CACHE_TTL else 0, now, w.fills[f].ticket),
       fills := w.fills[f := w.fills[f].(published := Some(result))])
  }

  function Fetched(rows: seq<Row>, version: nat, failure: Option<Failure>): Lookup<nat>
    requires version < |rows|
  {
    if failure.Some? then Failed(failure.value) else Opened(rows, version)
  }

  function FillJoined(w: World, c: nat, f: nat): World
    requires c < |w.callers| && f < |w.fills| && w.fills[f].published.Some?
  {
    var caller := w.callers[c];
    Proceed(w, c, AfterShared(w.fills[f].published.value, caller.ctxEnded, caller.spent), ByWait(f))
  }

  function GivenUp(w: World, c: nat): World
    requires c < |w.callers|
  {
    var pc := w.callers[c].pc;
    if pc.Awaiting? then Put(w, c, Judging(pc.cand, Unread(true)))
    else Put(w, c, Answered(Failed(ContextEnded), NoKeyAtAll))
  }

  function StaleRevoked(w: World, c: nat, token: nat, now: int): World
    requires c < |w.callers|
  {
    Proceed(w.(cell := if w.blank then w.cell else RevokeIf(w.cell, token, now + API_KEY_CACHE_TTL)),
            c, Recheck(w.callers[c].spent), NoKeyAtAll)
  }

  predicate CanMove(w: World, c: nat, move: Move) {
    && c < |w.callers|
    && var pc := w.callers[c].pc;
       match move
       case ReadClock => pc.Top?
       case Search(_) => pc.Timed? && |w.rows| > 0
       case StartVal => pc.HaveKey?
       case ReadRow(_) => pc.Checking? && |w.rows| > 0 && pc.cand.val < |w.vals|
       case PublishVal => pc.Checked? && pc.cand.val < |w.vals|
       case PanicInVal => pc.Checking? && pc.cand.val < |w.vals|
       case JoinVal => pc.Awaiting? && pc.cand.val < |w.vals| && w.vals[pc.cand.val].published.Some?
       case GiveUp => w.callers[c].ctxEnded && (pc.Awaiting? || pc.Waiting?)
       case Judge => pc.Judging?
       case Confirm => pc.Confirming?
       case RevokeStale => pc.Revoking?
       case Fetch(version, failure) =>
         pc.Filling? && pc.fill < |w.fills| && version < |w.rows| && failure != Some(NotConfigured)
         && (w.fills[pc.fill].strong ==> version == |w.rows| - 1)
       case PanicInFill => pc.Filling? && pc.fill < |w.fills|
       case ReadClockToClose => pc.Filled?
       case Close => pc.Closing? && pc.fill < |w.fills|
       case JoinFill => pc.Waiting? && pc.fill < |w.fills| && w.fills[pc.fill].published.Some?
  }

  function Moved(w: World, c: nat, move: Move): World
    requires CanMove(w, c, move)
  {
    var caller := w.callers[c];
    var pc := caller.pc;
    match move
    case ReadClock => Put(w, c, Timed(w.clock))
    case Search(sweeps) => Searched(w, c, pc.now, sweeps)
    case StartVal => ValStarted(w, c, pc.apiKey, pc.token)
    case ReadRow(unread) => RowRead(w, c, pc.cand, unread)
    case PublishVal => Put(ValClosed(w, pc.cand.val, pc.verdict), c, Judging(pc.cand, pc.verdict))
    case PanicInVal => Put(ValClosed(w, pc.cand.val, Unread(false)), c, Panicked)
    case JoinVal => Put(w, c, Judging(pc.cand, w.vals[pc.cand.val].published.value))
    case GiveUp => GivenUp(w, c)
    case Judge => Judged(w, c, pc.cand, pc.verdict)
    case Confirm => Confirmed(w, c, pc.cand, pc.verdict)
    case RevokeStale => StaleRevoked(w, c, pc.token, pc.now)
    case Fetch(version, failure) =>
      Put(w, c, Filled(pc.fill, Fetched(w.rows, version, failure)))
    case PanicInFill => Put(FillClosed(w, pc.fill, Failed(OtherFailure), w.clock), c, Panicked)
    case ReadClockToClose => Put(w, c, Closing(pc.fill, pc.result, w.clock))
    case Close => Put(FillClosed(w, pc.fill, pc.result, pc.now), c, Answered(pc.result, ByFill(pc.fill)))
    case JoinFill => FillJoined(w, c, pc.fill)
  }

  // ------------------------------------------------------------- world steps

  predicate Enabled(w: World, a: Action) {
    match a
    case SweepElsewhere(at) => at <= w.clock
    case SetStart(_) => w.writer.Idle?
    case SetWrite(committed, answered) => w.writer.SetTimed? && (answered ==> committed)
    case SetSeed => w.writer.SetWritten?
    case DeleteStart => w.writer.Idle?
    case DeleteWrite(removal) => w.writer.DeleteTimed? && |w.rows| > 0
        && (removal.Refused? ==> w.rows[|w.rows| - 1].NoKey?)
    case WipeWrite(_) => w.writer.Idle?
    case WipeClock => w.writer.WipeWritten?
    case InvalidateLocal => w.writer.InvalidateDue? && |w.rows| > 0
    case CtxEnds(c) => c < |w.callers|
    case Own(c, move) => CanMove(w, c, move)
    case _ => true
  }

  function Erased(w: World, removal: Removal): World {
    if removal.Removed? || (removal.Lost? && removal.committed) then w.(rows := w.rows + [NoKey]) else w
  }

  function Begun(w: World): World {
    w.(callers := w.callers + [Caller(false, UNSPENT, 0, 0, 0, Top)])
  }

  function Acted(w: World, a: Action): World
    requires Enabled(w, a)
  {
    match a
    case Tick(elapsed) => w.(clock := w.clock + elapsed)
    case RemoteWrite(row) => w.(rows := w.rows + [row])
    case SweepElsewhere(at) => w.(cell := Swept(w.cell, at))
    case SetStart(apiKey) => w.(writer := SetTimed(apiKey, w.clock))
    case SetWrite(committed, answered) =>
      var w1 := if committed then w.(rows := w.rows + [Keyed(w.writer.apiKey)]) else w;
      w1.(writer := if answered then SetWritten(w.writer.apiKey, |w.rows|, w.writer.now) else Idle)
    case SetSeed =>
      w.(cell := if w.blank then w.cell
                 else SeedKey(w.cell, w.writer.apiKey, w.writer.version, API_KEY_CACHE_TTL, w.writer.now),
         writer := Idle)
    case DeleteStart => w.(writer := DeleteTimed(w.clock))
    case DeleteWrite(removal) =>
      Erased(w, removal).(writer := if removal.Lost? then Idle else InvalidateDue(w.writer.now))
    case WipeWrite(removal) => Erased(w, removal).(writer := if removal.Lost? then Idle else WipeWritten)
    case WipeClock => w.(writer := InvalidateDue(w.clock))
    case InvalidateLocal =>
      if w.blank then w.(writer := Idle)
      else w.(cell := Revoke(w.cell, w.writer.now + API_KEY_CACHE_TTL),
              guard := Some(Guard(|w.rows| - 1, w.writer.now)),
              writer := Idle)
    case Begin => Begun(w)
    case CtxEnds(c) => w.(callers := w.callers[c := w.callers[c].(ctxEnded := true)])
    case Own(c, move) => Moved(w, c, move)
  }

  function Step(w: World, a: Action): World
    requires Enabled(w, a)
  {
    Acted(w, a).(step := w.step + 1)
  }

  function Run(first: World, history: seq<Action>): Option<World> {
    if history == [] then Some(first)
    else
      var before := Run(first, history[..|history| - 1]);
      var a := history[|history| - 1];
      if before.Some? && Enabled(before.value, a) then Some(Step(before.value, a)) else None
  }
}
