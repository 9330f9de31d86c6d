/** The steps around the callers, and the invariant of every history. */
module ApiKeyHistory {
  import opened Wrappers
  import opened ApiKeyCell
  import opened ApiKeyLoop
  import opened ApiKeyRuns
  import opened ApiKeyInvariant
  import opened ApiKeyMoves

  /** A step that moves no caller and starts or ends no fill and no validation. */
  lemma WorldKeeps(w: World, v: World)
    requires Inv(w)
    requires v.callers == w.callers && v.fills == w.fills && v.vals == w.vals
    requires w.rows <= v.rows && w.clock <= v.clock && v.step == w.step + 1
    requires GuardGrows(w, v)
    requires CellOk(v.cell, w.rows, w.fills, w.vals)
    requires FillsOk(w.fills, v.cell.generation, v.cell.running, w.rows, w.callers)
    requires WriterOk(v.writer, v.guard, v.rows, v.clock)
    requires GuardOk(v)
    ensures Inv(v)
  {
    hide FillsOk, ValsOk, CellOk, PcOk, CountOk, WriterOk, GuardOk, CallersOk;
    CellKept(v.cell, w.rows, v.rows, w.fills, w.vals);
    var u := w.(cell := v.cell);
    OwnersKept(u, v.rows, v.callers, v.step);
    assert Grows(w, v, |w.callers|);
    CallersKept(w, v, |w.callers|);
  }

  lemma InvParts(w: World)
    requires Inv(w)
    ensures CellOk(w.cell, w.rows, w.fills, w.vals)
    ensures FillsOk(w.fills, w.cell.generation, w.cell.running, w.rows, w.callers)
    ensures WriterOk(w.writer, w.guard, w.rows, w.clock)
    ensures GuardOk(w)
  {
  }

  lemma TickKeeps(w: World, elapsed: nat)
    requires Inv(w)
    ensures Inv(Step(w, Tick(elapsed)))
  {
    InvParts(w);
    var v := w.(clock := w.clock + elapsed, step := w.step + 1);
    hide Inv, CellOk, FillsOk;
    WorldKeeps(w, v);
  }

  /** Appending row versions, and whatever the writer then is. */
  lemma RowsKeep(w: World, rows: seq<Row>, writer: Writer)
    requires Inv(w) && w.rows <= rows
    requires WriterOk(writer, w.guard, rows, w.clock)
    ensures Inv(w.(rows := rows, writer := writer, step := w.step + 1))
  {
    InvParts(w);
    var v := w.(rows := rows, writer := writer, step := w.step + 1);
    GuardDepends(w, v);
    hide Inv, CellOk, FillsOk, GuardOk, WriterOk;
    WorldKeeps(w, v);
  }

  lemma RemoteWriteKeeps(w: World, row: Row)
    requires Inv(w)
    ensures Inv(Step(w, RemoteWrite(row)))
  {
    InvParts(w);
    WriterOnMoreRows(w, w.rows + [row]);
    hide Inv;
    RowsKeep(w, w.rows + [row], w.writer);
  }

  lemma WriterOnMoreRows(w: World, rows: seq<Row>)
    requires WriterOk(w.writer, w.guard, w.rows, w.clock) && w.rows <= rows
    ensures WriterOk(w.writer, w.guard, rows, w.clock)
  {
  }

  lemma SweepElsewhereKeeps(w: World, at: int)
    requires Inv(w) && at <= w.clock
    ensures Inv(Step(w, SweepElsewhere(at)))
  {
    SweepKeeps(w, at);
    var w1 := w.(cell := Swept(w.cell, at));
    InvParts(w1);
    hide Inv;
    RowsKeep(w1, w1.rows, w1.writer);
  }

  lemma WriterSteps(w: World, a: Action)
    requires Inv(w) && Enabled(w, a)
    requires a.SetStart? || a.SetWrite? || a.DeleteStart? || a.DeleteWrite? || a.WipeWrite? || a.WipeClock?
    ensures w.rows <= Acted(w, a).rows
    ensures Acted(w, a) == w.(rows := Acted(w, a).rows, writer := Acted(w, a).writer)
    ensures WriterOk(Acted(w, a).writer, w.guard, Acted(w, a).rows, w.clock)
  {
    hide FillsOk, CellOk, ValsOk, CallersOk;
  }

  lemma WriterKeeps(w: World, a: Action)
    requires Inv(w) && Enabled(w, a)
    requires a.SetStart? || a.SetWrite? || a.DeleteStart? || a.DeleteWrite? || a.WipeWrite? || a.WipeClock?
    ensures Inv(Step(w, a))
  {
    WriterSteps(w, a);
    hide Inv, Acted, Enabled;
    RowsKeep(w, Acted(w, a).rows, Acted(w, a).writer);
  }

  /** The seed's key is newer than the delete in force and outlives its marker. */
  lemma SeedKeepsGuard(w: World)
    requires Inv(w) && w.writer.SetWritten? && GuardLive(w)
    ensures Guarded(w.guard.value, SeedKey(w.cell, w.writer.apiKey, w.writer.version, API_KEY_CACHE_TTL, w.writer.now),
                    w.fills)
  {
    hide FillsOk, CellOk, ValsOk, CallersOk;
  }

  lemma SetSeedKeeps(w: World)
    requires Inv(w) && w.writer.SetWritten?
    ensures Inv(Step(w, SetSeed))
  {
    var cell := SeedKey(w.cell, w.writer.apiKey, w.writer.version, API_KEY_CACHE_TTL, w.writer.now);
    var v := if w.blank then w.(writer := Idle, step := w.step + 1)
             else w.(cell := cell, writer := Idle, step := w.step + 1);
    InvParts(w);
    if !w.blank {
      if GuardLive(w) {
        SeedKeepsGuard(w);
      }
      DetachFills(w.fills, w.cell.generation, w.cell.running, w.rows, w.callers);
      SeedCell(w);
    }
    hide Inv, CellOk, FillsOk, Guarded, SeedKey;
    WorldKeeps(w, v);
  }

  lemma SeedCell(w: World)
    requires Inv(w) && w.writer.SetWritten?
    ensures var cell := SeedKey(w.cell, w.writer.apiKey, w.writer.version, API_KEY_CACHE_TTL, w.writer.now);
            && CellOk(cell, w.rows, w.fills, w.vals)
            && cell.generation == w.cell.generation + 1 && cell.running == None
  {
    hide FillsOk, ValsOk, CallersOk;
  }

  lemma RevokeCell(w: World, until: int)
    requires Inv(w)
    ensures var cell := Revoke(w.cell, until);
            && CellOk(cell, w.rows, w.fills, w.vals)
            && cell.generation == w.cell.generation + 1 && cell.running == None && cell.entry == None
            && cell.strongUntil == Some(until)
  {
    hide FillsOk, ValsOk, CallersOk;
  }

  lemma InvalidateLocalKeeps(w: World)
    requires Inv(w) && w.writer.InvalidateDue? && |w.rows| > 0
    ensures Inv(Step(w, InvalidateLocal))
  {
    var until := w.writer.now + API_KEY_CACHE_TTL;
    var g := Guard(|w.rows| - 1, w.writer.now);
    var v := if w.blank then w.(writer := Idle, step := w.step + 1)
             else w.(cell := Revoke(w.cell, until), guard := Some(g), writer := Idle, step := w.step + 1);
    InvParts(w);
    if !w.blank {
      DetachFills(w.fills, w.cell.generation, w.cell.running, w.rows, w.callers);
      RevokeCell(w, until);
      hide Revoke;
      assert Guarded(g, v.cell, v.fills);
    }
    hide Inv, CellOk, FillsOk, Revoke;
    WorldKeeps(w, v);
  }

  lemma BornRight(c: nat, w: World)
    ensures var caller := Caller(false, UNSPENT, 0, 0, 0, Top); CountOk(caller) && PcOk(c, caller, w)
  {
    hide CandOk, HowOk, OpenFill, OpenVal, TrueResult, TrueVerdict, AtLeast, Names, RevokeOk;
  }

  lemma BegunKeeps(w: World)
    requires Inv(w)
    ensures Inv(Begun(w).(step := w.step + 1))
  {
    hide FillsOk, ValsOk, CellOk, CallersOk, GuardOk, Grows, WriterOk, CountOk, PcOk;
    var v := Begun(w).(step := w.step + 1);
    GuardDepends(w, v);
    GrowsInStep(w, v, |w.callers|);
    BornRight(|w.callers|, v);
    OwnersKept(w, v.rows, v.callers, v.step);
    CallersKept(w, v, |w.callers|);
  }

  lemma CtxEndsKeeps(w: World, c: nat)
    requires Inv(w) && c < |w.callers|
    ensures Inv(Step(w, CtxEnds(c)))
  {
    CallerFacts(w, c);
    var caller := w.callers[c].(ctxEnded := true);
    assert PcOk(c, caller, w.(step := w.step + 1)) by {
      PcStepped(c, w.callers[c], w);
    }
    hide Inv, PcOk;
    MoveKeeps(w, c, caller);
  }

  lemma OwnKeeps(w: World, c: nat, move: Move)
    requires Inv(w) && CanMove(w, c, move)
    ensures Inv(Moved(w, c, move).(step := w.step + 1))
  {
    CallerFacts(w, c);
    hide Inv, Searched, ValStarted, RowRead, ValClosed, Judged, Confirmed, FillClosed, FillJoined, GivenUp,
         StaleRevoked, Put, Fetched, CandOk;
    var pc := w.callers[c].pc;
    match move
    case ReadClock => ReadClockKeeps(w, c);
    case Search(sweeps) => SearchedKeeps(w, c, sweeps);
    case StartVal => ValStartedKeeps(w, c);
    case ReadRow(unread) => RowReadKeeps(w, c, unread);
    case PublishVal => ValClosedKeeps(w, c, pc.cand.val, pc.verdict, Judging(pc.cand, pc.verdict));
    case PanicInVal => ValFacts(w, pc.cand.val); ValClosedKeeps(w, c, pc.cand.val, Unread(false), Panicked);
    case JoinVal => JoinValKeeps(w, c);
    case GiveUp => GiveUpKeeps(w, c);
    case Judge => JudgeKeeps(w, c);
    case Confirm => ConfirmKeeps(w, c);
    case RevokeStale => StaleRevokedKeeps(w, c);
    case Fetch(version, failure) => FetchKeeps(w, c, version, failure);
    case PanicInFill => FillClosedKeeps(w, c, pc.fill, Failed(OtherFailure), w.clock, Panicked);
    case ReadClockToClose => ReadClockToCloseKeeps(w, c);
    case Close => FillClosedKeeps(w, c, pc.fill, pc.result, pc.now, Answered(pc.result, ByFill(pc.fill)));
    case JoinFill => JoinFillKeeps(w, c);
  }

  lemma StepKeeps(w: World, a: Action)
    requires Inv(w) && Enabled(w, a)
    ensures Inv(Step(w, a))
  {
    hide Inv, Moved, Swept, SeedKey, Revoke;
    match a
    case Tick(elapsed) => TickKeeps(w, elapsed);
    case RemoteWrite(row) => RemoteWriteKeeps(w, row);
    case SweepElsewhere(at) => SweepElsewhereKeeps(w, at);
    case SetSeed => SetSeedKeeps(w);
    case InvalidateLocal => InvalidateLocalKeeps(w);
    case Begin => BegunKeeps(w);
    case CtxEnds(c) => CtxEndsKeeps(w, c);
    case Own(c, move) => OwnKeeps(w, c, move);
    case _ => WriterKeeps(w, a);
  }

  /** Main result: the invariant holds after every history. */
  lemma {:induction false} InvariantHolds(blank: bool, clock: int, row: Row, history: seq<Action>)
    requires Run(Start(blank, clock, row), history).Some?
    ensures Inv(Run(Start(blank, clock, row), history).value)
  {
    if history == [] {
    } else {
      var before := history[..|history| - 1];
      InvariantHolds(blank, clock, row, before);
      hide Inv, Step, Enabled;
      StepKeeps(Run(Start(blank, clock, row), before).value, history[|history| - 1]);
    }
  }
}
