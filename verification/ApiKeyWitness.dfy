/** Histories that show what happens: a key found in the cache for five minutes,
    deletes that reach it, two in which a deleted key comes back, and one in which a
    call looks six times. */
module ApiKeyWitness {
  import opened Wrappers
  import opened ApiKeyCell
  import opened ApiKeyLoop
  import opened ApiKeyRuns
  import TtlCache

  const FIRST_KEY := Keyed("key")
  const DELETE: seq<Action> := [DeleteStart, DeleteWrite(Removed), InvalidateLocal]

  const FIRST_FOUND: Lookup<nat> := Found("key", 0)

  ghost predicate Leads(first: World, history: seq<Action>, w: World) {
    Run(first, history) == Some(w)
  }

  lemma Then(first: World, history: seq<Action>, w: World, a: Action) returns (longer: seq<Action>, v: World)
    requires Leads(first, history, w) && Enabled(w, a)
    ensures longer == history + [a] && v == Step(w, a) && Leads(first, longer, v)
  {
    hide Step, Enabled;
    longer, v := history + [a], Step(w, a);
    assert longer[..|longer| - 1] == history && longer[|longer| - 1] == a;
  }

  lemma Empty(first: World)
    ensures Leads(first, [], first)
  {
  }

  lemma Then3(first: World, history: seq<Action>, w: World, a: Action, b: Action, c: Action)
    returns (longer: seq<Action>, v: World)
    requires Leads(first, history, w) && Enabled(w, a) && Enabled(Step(w, a), b) && Enabled(Step(Step(w, a), b), c)
    ensures longer == history + [a, b, c] && v == Step(Step(Step(w, a), b), c) && Leads(first, longer, v)
  {
    hide Step, Enabled;
    var h1, w1 := Then(first, history, w, a);
    var h2, w2 := Then(first, h1, w1, b);
    longer, v := Then(first, h2, w2, c);
  }

  /** A delete that takes effect, from its start to its cache step. */
  lemma Deleted(first: World, history: seq<Action>, w: World) returns (longer: seq<Action>, v: World)
    requires Leads(first, history, w) && w.writer.Idle? && |w.rows| > 0
    ensures longer == history + DELETE && Leads(first, longer, v)
    ensures v.rows == w.rows + [NoKey] && v.clock == w.clock && v.blank == w.blank && v.writer.Idle?
    ensures v.callers == w.callers && v.fills == w.fills && v.vals == w.vals
    ensures v.cell == if w.blank then w.cell else Revoke(w.cell, w.clock + API_KEY_CACHE_TTL)
    ensures !w.blank ==> v.guard == Some(Guard(|w.rows|, w.clock))
  {
    hide Leads;
    longer, v := Then3(first, history, w, DeleteStart, DeleteWrite(Removed), InvalidateLocal);
  }

  ghost predicate SameAround(w: World, v: World) {
    v.rows == w.rows && v.clock == w.clock && v.blank == w.blank && v.writer == w.writer && v.guard == w.guard
  }

  function Look(c: nat): seq<Action> {
    [Begin, Own(c, ReadClock), Own(c, Search(false))]
  }

  function Fetching(c: nat, version: nat): seq<Action> {
    [Own(c, Fetch(version, None)), Own(c, ReadClockToClose), Own(c, Close)]
  }

  /** A first caller finds nothing cached and starts an eventually consistent fill. */
  lemma FillBegins(first: World, history: seq<Action>, w: World) returns (longer: seq<Action>, v: World)
    requires Leads(first, history, w) && |w.rows| > 0 && w.callers == [] && w.fills == []
    requires w.cell.entry == None && w.cell.running == None
    requires w.cell.strongUntil.Some? ==> w.clock >= w.cell.strongUntil.value
    ensures longer == history + Look(0) && Leads(first, longer, v) && SameAround(w, v) && v.vals == w.vals
    ensures v.cell == w.cell.(strongUntil := None, running := Some(0))
    ensures v.fills == [Fill(0, w.cell.generation, false, 0, None)]
    ensures v.callers == [Caller(false, UNSPENT, 1, w.clock, PromisedFloor(w), Filling(0))]
  {
    hide Leads;
    longer, v := Then3(first, history, w, Begin, Own(0, ReadClock), Own(0, Search(false)));
  }

  /** Its read sees the first version, which it caches and returns. */
  lemma FillEnds(first: World, history: seq<Action>, w: World, floor: nat, apiKey: string)
    returns (longer: seq<Action>, v: World)
    requires Leads(first, history, w) && |w.rows| > 0 && w.rows[0] == Keyed(apiKey) && apiKey != ""
    requires w.fills == [Fill(0, w.cell.generation, false, 0, None)]
    requires w.callers == [Caller(false, UNSPENT, 1, w.clock, floor, Filling(0))]
    requires w.cell.entry == None && w.cell.running == Some(0)
    ensures longer == history + Fetching(0, 0) && Leads(first, longer, v) && SameAround(w, v) && v.vals == w.vals
    ensures v.cell
            == w.cell.(running := None, entry := Some(TtlCache.Entry(Found(apiKey, 0), w.clock + API_KEY_CACHE_TTL)))
    ensures v.callers == [Caller(false, UNSPENT, 1, w.clock, floor, Answered(Found(apiKey, 0), ByFill(0)))]
    ensures |v.fills| == 1
  {
    hide Leads;
    longer, v := Then3(first, history, w, Own(0, Fetch(0, None)), Own(0, ReadClockToClose), Own(0, Close));
  }

  /** A key is deleted at time 0. At time 300 its marker has just run out, and an
      eventually consistent read still sees the deleted version. */
  lemma AfterTheMarkerADeletedKeyReturns() returns (history: seq<Action>)
    ensures history == DELETE + [Tick(API_KEY_CACHE_TTL)] + Look(0) + Fetching(0, 0)
    ensures var run := Run(Start(false, 0, FIRST_KEY), history);
            && run.Some? && run.value.rows == [FIRST_KEY, NoKey]
            && run.value.callers == [Caller(false, UNSPENT, 1, API_KEY_CACHE_TTL, 0, Answered(FIRST_FOUND, ByFill(0)))]
  {
    hide Run;
    var first := Start(false, 0, FIRST_KEY);
    Empty(first);
    var h1, w1 := Deleted(first, [], first);
    var h2, w2 := Then(first, h1, w1, Tick(API_KEY_CACHE_TTL));
    var h3, w3 := FillBegins(first, h2, w2);
    var h4, w4 := FillEnds(first, h3, w3, PromisedFloor(w2), "key");
    history := h4;
  }

  function Hit(c: nat): seq<Action> {
    Look(c) + [Own(c, StartVal), Own(c, ReadRow(Some(false))), Own(c, PublishVal)] + [Own(c, Judge), Own(c, Confirm)]
  }

  /** A second caller finds the key cached. */
  lemma HitBegins(first: World, history: seq<Action>, w: World, apiKey: string, expiresAt: int)
    returns (longer: seq<Action>, v: World)
    requires Leads(first, history, w) && |w.rows| > 0 && |w.callers| == 1
    requires w.cell.entry == Some(TtlCache.Entry(Found(apiKey, 0), expiresAt)) && w.clock < expiresAt
    ensures longer == history + Look(1) && Leads(first, longer, v) && SameAround(w, v) && v.vals == w.vals
            && v.cell == w.cell
    ensures |v.callers| == 2 && v.callers[1] == Caller(false, UNSPENT, 1, w.clock, PromisedFloor(w), HaveKey(apiKey, 0))
  {
    hide Leads;
    longer, v := Then3(first, history, w, Begin, Own(1, ReadClock), Own(1, Search(false)));
  }

  /** Its validation cannot read the row. */
  lemma CheckFails(first: World, history: seq<Action>, w: World) returns (longer: seq<Action>, v: World)
    requires Leads(first, history, w) && |w.rows| > 0 && |w.callers| == 2 && w.vals == []
    requires w.callers[1].pc == HaveKey("key", 0) && w.cell.checking == None
    ensures longer == history + [Own(1, StartVal), Own(1, ReadRow(Some(false))), Own(1, PublishVal)]
    ensures Leads(first, longer, v) && SameAround(w, v) && v.cell == w.cell
    ensures |v.callers| == 2
            && v.callers[1] == w.callers[1].(pc := Judging(Candidate("key", 0, 0, w.step), Unread(false)))
  {
    hide Leads;
    longer, v := Then3(first, history, w, Own(1, StartVal), Own(1, ReadRow(Some(false))), Own(1, PublishVal));
  }

  /** So it falls back to the key it has. */
  lemma FallsBack(first: World, history: seq<Action>, w: World, cand: Candidate) returns (longer: seq<Action>, v: World)
    requires Leads(first, history, w) && |w.callers| == 2 && w.callers[1].pc == Judging(cand, Unread(false))
    requires !w.callers[1].ctxEnded && w.callers[1].spent == UNSPENT && Holds(w.cell, cand.token)
    ensures longer == history + [Own(1, Judge), Own(1, Confirm)] && Leads(first, longer, v) && SameAround(w, v)
    ensures |v.callers| == 2
            && v.callers[1] == w.callers[1].(pc := Answered(Found(cand.apiKey, cand.token), ByFallback(cand)))
  {
    hide Leads;
    var h1, w1 := Then(first, history, w, Own(1, Judge));
    longer, v := Then(first, h1, w1, Own(1, Confirm));
  }

  /** A workspace ID of white space only is never invalidated: after the delete a
      later call still finds the key in the cache, and a validation read that fails
      falls back to it. */
  lemma ABlankWorkspaceKeepsItsDeletedKey() returns (history: seq<Action>)
    ensures history == Look(0) + Fetching(0, 0) + DELETE + Hit(1)
    ensures var run := Run(Start(true, 0, FIRST_KEY), history);
            && run.Some? && run.value.rows == [FIRST_KEY, NoKey]
            && |run.value.callers| == 2 && run.value.callers[1].lookedAt == 0
            && run.value.callers[1].pc.Answered? && run.value.callers[1].pc.result == FIRST_FOUND
  {
    hide Run;
    var first := Start(true, 0, FIRST_KEY);
    Empty(first);
    var h1, w1 := FillBegins(first, [], first);
    var h2, w2 := FillEnds(first, h1, w1, 0, "key");
    var h3, w3 := Deleted(first, h2, w2);
    var h4, w4 := HitBegins(first, h3, w3, "key", API_KEY_CACHE_TTL);
    var h5, w5 := CheckFails(first, h4, w4);
    var h6, w6 := FallsBack(first, h5, w5, Candidate("key", 0, 0, w4.step));
    history := h6;
  }

  // ------------------------------------------------------------ while cached

  /** After five minutes the second caller finds the entry expired, and owns a fill. */
  lemma MissBegins(first: World, history: seq<Action>, w: World, expiresAt: int, apiKey: string)
    returns (longer: seq<Action>, v: World)
    requires Leads(first, history, w) && |w.rows| > 0 && |w.callers| == 1 && |w.fills| == 1
    requires w.cell.entry == Some(TtlCache.Entry(Found(apiKey, 0), expiresAt)) && w.clock >= expiresAt
    requires w.cell.running == None && w.cell.strongUntil == None
    ensures longer == history + Look(1) && Leads(first, longer, v)
    ensures |v.callers| == 2 && v.callers[1].pc == Filling(1) && v.cell.entry == None
  {
    hide Leads;
    longer, v := Then3(first, history, w, Begin, Own(1, ReadClock), Own(1, Search(false)));
  }

  /** The second caller's validation reads the same version. */
  lemma CheckPasses(first: World, history: seq<Action>, w: World, apiKey: string)
    returns (longer: seq<Action>, v: World)
    requires Leads(first, history, w) && w.rows == [Keyed(apiKey)] && |w.callers| == 2 && w.vals == []
    requires w.callers[1].pc == HaveKey(apiKey, 0) && w.cell.checking == None
    ensures longer == history + [Own(1, StartVal), Own(1, ReadRow(None)), Own(1, PublishVal)]
    ensures Leads(first, longer, v) && v.cell == w.cell && v.clock == w.clock
    ensures |v.callers| == 2
            && v.callers[1] == w.callers[1].(pc := Judging(Candidate(apiKey, 0, 0, w.step), Current))
  {
    hide Leads;
    longer, v := Then3(first, history, w, Own(1, StartVal), Own(1, ReadRow(None)), Own(1, PublishVal));
  }

  lemma Returns(first: World, history: seq<Action>, w: World, cand: Candidate) returns (longer: seq<Action>, v: World)
    requires Leads(first, history, w) && |w.callers| == 2 && w.callers[1].pc == Judging(cand, Current)
    requires Holds(w.cell, cand.token)
    ensures longer == history + [Own(1, Judge), Own(1, Confirm)] && Leads(first, longer, v)
    ensures |v.callers| == 2
            && v.callers[1] == w.callers[1].(pc := Answered(Found(cand.apiKey, cand.token), ByValidation(cand)))
  {
    hide Leads;
    var h1, w1 := Then(first, history, w, Own(1, Judge));
    longer, v := Then(first, h1, w1, Own(1, Confirm));
  }

  function Warm(elapsed: nat): seq<Action> {
    Look(0) + Fetching(0, 0) + [Tick(elapsed)] + Look(1)
  }

  const CHECKED: seq<Action> :=
    [Own(1, StartVal), Own(1, ReadRow(None)), Own(1, PublishVal)] + [Own(1, Judge), Own(1, Confirm)]

  /** The key is found for five minutes, for any key and at any time: a second caller
      whose lookup comes before 300 seconds have gone by is answered with the validated
      key, and one whose lookup comes later has to fill again. */
  lemma FiveMinutes(blank: bool, clock: int, apiKey: string, elapsed: nat) returns (history: seq<Action>)
    requires apiKey != ""
    ensures history == if elapsed < 300 then Warm(elapsed) + CHECKED else Warm(elapsed)
    ensures var run := Run(Start(blank, clock, Keyed(apiKey)), history);
            && run.Some? && |run.value.callers| == 2
            && (if elapsed < 300 then
                  var pc := run.value.callers[1].pc;
                  pc.Answered? && pc.result == Found(apiKey, 0) && pc.how.ByValidation?
                else run.value.callers[1].pc == Filling(1) && run.value.cell.entry == None)
  {
    hide Run;
    var first := Start(blank, clock, Keyed(apiKey));
    Empty(first);
    var h1, w1 := FillBegins(first, [], first);
    var h2, w2 := FillEnds(first, h1, w1, 0, apiKey);
    var h3, w3 := Then(first, h2, w2, Tick(elapsed));
    if elapsed < 300 {
      var h4, w4 := HitBegins(first, h3, w3, apiKey, clock + 300);
      var h5, w5 := CheckPasses(first, h4, w4, apiKey);
      var h6, w6 := Returns(first, h5, w5, Candidate(apiKey, 0, 0, w4.step));
      history := h6;
    } else {
      var h4, w4 := MissBegins(first, h3, w3, clock + 300, apiKey);
      history := h4;
    }
  }

  /** What the cache step of a delete leaves. */
  ghost predicate Invalidated(w: World, v: World, now: int) {
    && v.writer.Idle? && v.cell.entry == None && v.cell.running == None
    && v.cell.generation == w.cell.generation + 1 && v.cell.strongUntil == Some(now + 300)
  }

  /** A delete is written and owes its cache step. */
  ghost predicate Owes(w: World, v: World, removal: Removal, now: int) {
    && v.writer == InvalidateDue(now) && v.cell == w.cell && v.blank == w.blank
    && v.rows == if removal.Removed? then w.rows + [NoKey] else w.rows
  }

  lemma PaysUp(w: World, history: seq<Action>, v: World, removal: Removal, now: int)
    returns (longer: seq<Action>, u: World)
    requires Leads(w, history, v) && Owes(w, v, removal, now) && |w.rows| > 0 && !w.blank
    ensures longer == history + [InvalidateLocal] && Leads(w, longer, u) && Invalidated(w, u, now)
    ensures u.rows == if removal.Removed? then w.rows + [NoKey] else w.rows
  {
    hide Leads;
    longer, u := Then(w, history, v, InvalidateLocal);
  }

  /** A delete reaches the cache, also when it found nothing left to remove, and its
      marker counts from before its write. */
  lemma DeleteReachesTheCache(w: World, removal: Removal, wait: nat) returns (history: seq<Action>)
    requires w.writer.Idle? && !w.blank && |w.rows| > 0 && !removal.Lost?
    requires removal.Refused? ==> w.rows[|w.rows| - 1].NoKey?
    ensures history == [DeleteStart, Tick(wait), DeleteWrite(removal)] + [InvalidateLocal]
    ensures Run(w, history).Some? && Invalidated(w, Run(w, history).value, w.clock)
    ensures Run(w, history).value.rows == if removal.Removed? then w.rows + [NoKey] else w.rows
  {
    Empty(w);
    var h1, w1 := Delays(w, removal, wait);
    hide Run, Owes, Invalidated;
    var h2, w2 := PaysUp(w, h1, w1, removal, w.clock);
    history := h2;
  }

  lemma Delays(w: World, removal: Removal, wait: nat) returns (history: seq<Action>, v: World)
    requires w.writer.Idle? && |w.rows| > 0 && !removal.Lost? && (removal.Refused? ==> w.rows[|w.rows| - 1].NoKey?)
    ensures history == [DeleteStart, Tick(wait), DeleteWrite(removal)]
    ensures Leads(w, history, v) && Owes(w, v, removal, w.clock)
  {
    Empty(w);
    hide Leads;
    history, v := Then3(w, [], w, DeleteStart, Tick(wait), DeleteWrite(removal));
  }

  lemma Wipes(w: World, removal: Removal, wait: nat) returns (history: seq<Action>, v: World)
    requires w.writer.Idle? && !removal.Lost?
    ensures history == [WipeWrite(removal), Tick(wait), WipeClock]
    ensures Leads(w, history, v) && Owes(w, v, removal, w.clock + wait)
  {
    Empty(w);
    hide Leads;
    history, v := Then3(w, [], w, WipeWrite(removal), Tick(wait), WipeClock);
  }

  /** So does wiping the whole row, whose marker counts from after its write. */
  lemma WipeReachesTheCache(w: World, removal: Removal, wait: nat) returns (history: seq<Action>)
    requires w.writer.Idle? && !w.blank && |w.rows| > 0 && !removal.Lost?
    ensures history == [WipeWrite(removal), Tick(wait), WipeClock] + [InvalidateLocal]
    ensures Run(w, history).Some? && Invalidated(w, Run(w, history).value, w.clock + wait)
    ensures Run(w, history).value.rows == if removal.Removed? then w.rows + [NoKey] else w.rows
  {
    var h1, w1 := Wipes(w, removal, wait);
    hide Run, Owes, Invalidated;
    var h2, w2 := PaysUp(w, h1, w1, removal, w.clock + wait);
    history := h2;
  }

  // --------------------------------------------------------------- six lookups

  const SETUP: seq<Action> := [SetStart("key"), SetWrite(true, true), SetSeed]

  function KeyAt(version: nat): Lookup<nat> {
    Found("key", version)
  }

  /** The last version is the key, and it is cached. */
  ghost predicate KeyCached(w: World) {
    && |w.rows| > 0 && w.rows[|w.rows| - 1] == FIRST_KEY && w.clock == 0 && !w.blank && w.writer.Idle?
        && w.guard == None
    && w.cell.entry == Some(TtlCache.Entry(KeyAt(|w.rows| - 1), API_KEY_CACHE_TTL)) && w.cell.checking == None
  }

  /** The caller of this account has looked so often and spent so much, and stands here. */
  ghost predicate Stands(w: World, spent: Budget, lookups: nat, pc: Pc) {
    && |w.callers| == 2
    && w.callers[1].(lookedAt := 0) == Caller(false, spent, lookups, 0, 0, pc)
  }

  ghost predicate CheckRuns(w: World, call: nat, token: nat) {
    w.cell.checking.Some? && w.cell.checking.value.call == call && w.cell.checking.value.token == token
  }

  /** A local setup of the same key replaces the cached material. */
  lemma SetsUp(first: World, history: seq<Action>, w: World) returns (longer: seq<Action>, v: World)
    requires Leads(first, history, w) && w.writer.Idle? && !w.blank && w.clock == 0 && w.guard == None
             && w.cell.checking == None
    ensures longer == history + SETUP && Leads(first, longer, v) && KeyCached(v)
    ensures v.rows == w.rows + [FIRST_KEY] && v.callers == w.callers && v.vals == w.vals && v.fills == w.fills
  {
    hide Leads;
    longer, v := Then3(first, history, w, SetStart("key"), SetWrite(true, true), SetSeed);
  }

  /** The caller finds the key and starts a validation. */
  lemma HitsAgain(first: World, history: seq<Action>, w: World, spent: Budget, lookups: nat)
    returns (longer: seq<Action>, v: World)
    requires Leads(first, history, w) && KeyCached(w) && Stands(w, spent, lookups, Top)
    ensures longer == history + [Own(1, ReadClock), Own(1, Search(false)), Own(1, StartVal)]
    ensures Leads(first, longer, v) && SameAround(w, v) && v.cell.entry == w.cell.entry
    ensures |v.vals| == |w.vals| + 1 && CheckRuns(v, |w.vals|, |w.rows| - 1)
    ensures Stands(v, spent, lookups + 1, Checking(Candidate("key", |w.rows| - 1, |w.vals|, w.step + 2)))
  {
    hide Leads;
    longer, v := Then3(first, history, w, Own(1, ReadClock), Own(1, Search(false)), Own(1, StartVal));
  }

  /** It reads the row, publishes, and judges the verdict. */
  lemma Validates(first: World, history: seq<Action>, w: World, spent: Budget, lookups: nat, cand: Candidate,
                  unread: Option<bool>)
    returns (longer: seq<Action>, v: World)
    requires Leads(first, history, w) && Stands(w, spent, lookups, Checking(cand)) && cand.val + 1 == |w.vals|
    requires |w.rows| > 0 && w.rows[|w.rows| - 1] == FIRST_KEY && cand.token == |w.rows| - 1
    requires CheckRuns(w, cand.val, cand.token)
    requires unread == None || (unread == Some(true) && spent.renewed == 0)
    ensures longer == history + [Own(1, ReadRow(unread)), Own(1, PublishVal), Own(1, Judge)]
    ensures Leads(first, longer, v) && SameAround(w, v) && v.cell == w.cell.(checking := None) && |v.vals| == |w.vals|
    ensures if unread == None then Stands(v, spent, lookups, Confirming(cand, Current))
            else Stands(v, spent.(renewed := 1), lookups, Top)
  {
    hide Leads;
    longer, v := Then3(first, history, w, Own(1, ReadRow(unread)), Own(1, PublishVal), Own(1, Judge));
  }

  const ROUND: seq<Action> :=
    [Own(1, ReadClock), Own(1, Search(false)), Own(1, StartVal)]
        + [Own(1, ReadRow(None)), Own(1, PublishVal), Own(1, Judge)]
    + SETUP + [Own(1, Confirm)]

  /** Meanwhile the key was replaced, so the caller looks again, or gives up. */
  lemma Replaced(first: World, history: seq<Action>, w: World, spent: Budget, lookups: nat, cand: Candidate)
    returns (longer: seq<Action>, v: World)
    requires Leads(first, history, w) && KeyCached(w) && Stands(w, spent, lookups, Confirming(cand, Current))
    requires cand.token != |w.rows| - 1 && spent.rechecks <= VALIDATION_RECHECK_LIMIT
    ensures longer == history + [Own(1, Confirm)] && Leads(first, longer, v) && KeyCached(v) && |v.rows| == |w.rows|
    ensures if spent.rechecks < VALIDATION_RECHECK_LIMIT
            then Stands(v, spent.(rechecks := spent.rechecks + 1), lookups, Top)
            else |v.callers| == 2 && v.callers[1].lookups == lookups && v.callers[1].pc.Answered?
                 && v.callers[1].pc.result == Failed(OtherFailure)
  {
    hide Leads;
    longer, v := Then(first, history, w, Own(1, Confirm));
  }

  /** One whole round that ends with the key replaced. */
  lemma OneRound(first: World, history: seq<Action>, w: World, spent: Budget, lookups: nat)
    returns (longer: seq<Action>, v: World)
    requires Leads(first, history, w) && KeyCached(w) && Stands(w, spent, lookups, Top)
             && spent.rechecks <= VALIDATION_RECHECK_LIMIT
    ensures longer == history + ROUND && Leads(first, longer, v) && KeyCached(v)
    ensures if spent.rechecks < VALIDATION_RECHECK_LIMIT
            then Stands(v, spent.(rechecks := spent.rechecks + 1), lookups + 1, Top)
            else |v.callers| == 2 && v.callers[1].lookups == lookups + 1 && v.callers[1].pc.Answered?
                 && v.callers[1].pc.result == Failed(OtherFailure)
  {
    hide Leads;
    var cand := Candidate("key", |w.rows| - 1, |w.vals|, w.step + 2);
    var h1, w1 := HitsAgain(first, history, w, spent, lookups);
    var h2, w2 := Validates(first, h1, w1, spent, lookups + 1, cand, None);
    var h3, w3 := SetsUp(first, h2, w2);
    longer, v := Replaced(first, h3, w3, spent, lookups + 1, cand);
  }

  const OWNER_FAILS: seq<Action> :=
    [Own(0, Fetch(0, Some(ContextEnded))), Own(0, ReadClockToClose), Own(0, Close)]

  /** A second caller waits for the first one's fill. */
  lemma Waits(first: World, history: seq<Action>, w: World) returns (longer: seq<Action>, v: World)
    requires Leads(first, history, w) && |w.rows| > 0 && w.clock == 0 && w.guard == None
    requires w.callers == [Caller(false, UNSPENT, 1, 0, 0, Filling(0))]
    requires w.cell == EmptyCell<nat, nat, nat>().(running := Some(0))
    ensures longer == history + Look(1) && Leads(first, longer, v) && SameAround(w, v) && v.vals == w.vals
    ensures v.cell == w.cell && v.fills == w.fills && |v.callers| == 2 && v.callers[0] == w.callers[0]
    ensures Stands(v, UNSPENT, 1, Waiting(0))
  {
    hide Leads;
    longer, v := Then3(first, history, w, Begin, Own(1, ReadClock), Own(1, Search(false)));
  }

  /** The owner's context ends while it fills. */
  lemma OwnerFails(first: World, history: seq<Action>, w: World) returns (longer: seq<Action>, v: World)
    requires Leads(first, history, w) && |w.rows| > 0 && Stands(w, UNSPENT, 1, Waiting(0))
             && w.callers[0].pc == Filling(0)
    requires w.fills == [Fill(0, 0, false, 0, None)] && w.cell == EmptyCell<nat, nat, nat>().(running := Some(0))
    ensures longer == history + OWNER_FAILS && Leads(first, longer, v) && SameAround(w, v) && v.vals == w.vals
    ensures v.cell == EmptyCell() && Stands(v, UNSPENT, 1, Waiting(0))
    ensures |v.fills| == 1 && v.fills[0].published == Some(Failed(ContextEnded))
  {
    hide Leads;
    longer, v := Then3(first, history, w, Own(0, Fetch(0, Some(ContextEnded))), Own(0, ReadClockToClose),
                       Own(0, Close));
  }

  /** The waiter looks again, since its own context has not ended. */
  lemma WaiterRetries(first: World, history: seq<Action>, w: World) returns (longer: seq<Action>, v: World)
    requires Leads(first, history, w) && Stands(w, UNSPENT, 1, Waiting(0))
    requires |w.fills| == 1 && w.fills[0].published == Some(Failed(ContextEnded))
    ensures longer == history + [Own(1, JoinFill)] && Leads(first, longer, v) && SameAround(w, v)
    ensures v.cell == w.cell && v.vals == w.vals && Stands(v, Budget(1, 0, 0), 1, Top)
  {
    hide Leads;
    longer, v := Then(first, history, w, Own(1, JoinFill));
  }

  /** One shared retry, and one renewed validation. */
  function TwoLooks(): seq<Action> {
    Look(0) + Look(1) + OWNER_FAILS + [Own(1, JoinFill)] + SETUP
    + [Own(1, ReadClock), Own(1, Search(false)), Own(1, StartVal)]
    + [Own(1, ReadRow(Some(true))), Own(1, PublishVal), Own(1, Judge)]
  }

  lemma LooksTwice(first: World) returns (history: seq<Action>, w: World)
    requires first == Start(false, 0, NoKey)
    ensures history == TwoLooks() && Leads(first, history, w) && KeyCached(w) && Stands(w, Budget(1, 1, 0), 2, Top)
  {
    hide Leads, Run;
    Empty(first);
    var h1, w1 := FillBegins(first, [], first);
    var h2, w2 := Waits(first, h1, w1);
    var h3, w3 := OwnerFails(first, h2, w2);
    var h4, w4 := WaiterRetries(first, h3, w3);
    var h5, w5 := SetsUp(first, h4, w4);
    var h6, w6 := HitsAgain(first, h5, w5, Budget(1, 0, 0), 1);
    var cand := Candidate("key", |w5.rows| - 1, |w5.vals|, w5.step + 2);
    history, w := Validates(first, h6, w6, Budget(1, 0, 0), 2, cand, Some(true));
  }

  /** The bound of six lookups is met by a history of the provider: a waiter whose
      owner's context ends, a validation that ends with a context error, and four
      validations during each of which a local setup replaces the key. */
  lemma SixLookupsAreReached() returns (history: seq<Action>)
    ensures history == TwoLooks() + ROUND + ROUND + ROUND + ROUND
    ensures var run := Run(Start(false, 0, NoKey), history);
            && run.Some? && |run.value.callers| == 2 && run.value.callers[1].lookups == 6
            && run.value.callers[1].pc.Answered? && run.value.callers[1].pc.result == Failed(OtherFailure)
  {
    hide Run, KeyCached, Stands;
    var first := Start(false, 0, NoKey);
    var h0, w0 := LooksTwice(first);
    var h1, w1 := OneRound(first, h0, w0, Budget(1, 1, 0), 2);
    var h2, w2 := OneRound(first, h1, w1, Budget(1, 1, 1), 3);
    var h3, w3 := OneRound(first, h2, w2, Budget(1, 1, 2), 4);
    var h4, w4 := OneRound(first, h3, w3, Budget(1, 1, 3), 5);
    history := h4;
  }
}
