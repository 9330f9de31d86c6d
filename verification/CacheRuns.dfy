/** Every history of one cache: any number of callers look up, finish their own
    fills, invalidate and seed, in any order and with any clock readings.

    A history is a sequence of actions. A fill is known by its position in the
    log of fills, so its ticket is what the log recorded when it started. Each
    cached value carries where it came from; the cache never looks at that. */
module CacheRuns {
  import opened Wrappers
  import opened TtlCache

  datatype Origin = ByFill(fill: nat) | BySeed(step: nat)

  datatype Tagged<V> = Tagged(value: V, origin: Origin)

  /** One fill: its key, its ticket, the step it began at, and what it published. */
  datatype Fill<V> = Fill(key: string, ticket: nat, begun: nat, published: Option<V>)

  datatype World<V> = World(
    cache: State<Tagged<V>, nat>,
    fills: seq<Fill<V>>,
    step: nat,
    /** The last step that advanced a key's generation. */
    bumped: map<string, nat>,
    stores: nat,
    evictions: nat)

  datatype Action<!V> =
    | Look(key: string, at: int)
    | Publish(fill: nat, value: V, ttl: int, at: int)
    | Drop(key: string)
    | DropIf(key: string, accept: V -> bool)
    | Plant(key: string, value: V, ttl: int, at: int)

  function Begin<V>(): World<V> {
    World(Empty(), [], 0, map[], 0, 0)
  }

  /** An owner finishes once, with its own ticket. */
  predicate Enabled<V>(w: World<V>, a: Action<V>) {
    a.Publish? ==> a.fill < |w.fills| && w.fills[a.fill].published == None
  }

  function AnswerTo<V>(w: World<V>, key: string, at: int, every: int): Start<Tagged<V>, nat> {
    GetOrStart(w.cache, key, at, every, |w.fills|).1
  }

  /** Whether an action advances the generation of `key`. */
  predicate Bumps<V>(w: World<V>, a: Action<V>, key: string) {
    match a
    case Drop(k) => k == key
    case DropIf(k, accept) => k == key && Accepts(w.cache, k, (t: Tagged<V>) => accept(t.value))
    case Plant(k, _, _, _) => k == key
    case _ => false
  }

  /** The lookup left `found`: it only swept and evicted. */
  function Searched<V>(w: World<V>, found: State<Tagged<V>, nat>): World<V> {
    w.(cache := found,
       step := w.step + 1,
       evictions := w.evictions + |w.cache.entries.Keys - found.entries.Keys|)
  }

  function Claimed<V>(w: World<V>, key: string, begun: nat): World<V> {
    w.(cache := Claim(w.cache, key, |w.fills|),
       fills := w.fills + [Fill(key, Gen(w.cache.generation, key), begun, None)])
  }

  function Looked<V>(w: World<V>, key: string, at: int, every: int): World<V> {
    var (found, answer) := Find(w.cache, key, at, every);
    var searched := Searched(w, found);
    if answer.Missing? then Claimed(searched, key, w.step) else searched
  }

  function Published<V>(w: World<V>, fill: nat, value: V, ttl: int, at: int): World<V>
    requires fill < |w.fills|
  {
    var f := w.fills[fill];
    var cached := MayCache(w.cache, f.key, ttl, f.ticket);
    w.(cache := Finish(w.cache, f.key, fill, Tagged(value, ByFill(fill)), ttl, at, f.ticket),
       step := w.step + 1,
       fills := w.fills[fill := f.(published := Some(value))],
       stores := w.stores + (if cached then 1 else 0),
       evictions := w.evictions + (if cached && f.key in w.cache.entries then 1 else 0))
  }

  function Dropped<V>(w: World<V>, key: string): World<V> {
    w.(cache := Invalidate(w.cache, key),
       step := w.step + 1,
       bumped := w.bumped[key := w.step],
       evictions := w.evictions + |w.cache.entries.Keys * {key}|)
  }

  function Planted<V>(w: World<V>, key: string, value: V, ttl: int, at: int): World<V> {
    w.(cache := Seed(w.cache, key, Tagged(value, BySeed(w.step)), ttl, at),
       step := w.step + 1,
       bumped := w.bumped[key := w.step],
       stores := w.stores + (if ttl > 0 then 1 else 0),
       evictions := w.evictions + |w.cache.entries.Keys * {key}|)
  }

  function Step<V>(w: World<V>, a: Action<V>, every: int): World<V>
    requires Enabled(w, a)
  {
    match a
    case Look(key, at) => Looked(w, key, at, every)
    case Publish(fill, value, ttl, at) => Published(w, fill, value, ttl, at)
    case Drop(key) => Dropped(w, key)
    case DropIf(key, _) => if Bumps(w, a, key) then Dropped(w, key) else w.(step := w.step + 1)
    case Plant(key, value, ttl, at) => Planted(w, key, value, ttl, at)
  }

  /** The world after a history, or `None` when some owner published twice. */
  function Run<V>(history: seq<Action<V>>, every: int): Option<World<V>> {
    if history == [] then Some(Begin())
    else
      var before := Run(history[..|history| - 1], every);
      var a := history[|history| - 1];
      if before.Some? && Enabled(before.value, a) then Some(Step(before.value, a, every)) else None
  }

  // ---------------------------------------------------------------- invariant

  /** A fill's ticket is never ahead of its key's generation. An unfinished owner
      is attached exactly when its ticket is current. Tickets order fills by time:
      a fill with the present ticket began after the last step that advanced the
      generation, and every other fill before it. */
  ghost predicate FillOk<V>(i: nat, f: Fill<V>, generation: map<string, nat>, inFlight: map<string, nat>,
                            bumped: map<string, nat>, step: nat)
  {
    && f.ticket <= Gen(generation, f.key)
    && f.begun < step
    && (f.published == None ==>
          (f.ticket == Gen(generation, f.key) <==> f.key in inFlight && inFlight[f.key] == i))
    && (f.key in bumped ==> (f.ticket == Gen(generation, f.key) <==> bumped[f.key] < f.begun))
  }

  ghost predicate FillsOk<V>(fills: seq<Fill<V>>, generation: map<string, nat>, inFlight: map<string, nat>,
                             bumped: map<string, nat>, step: nat)
  {
    && (forall k :: k in bumped ==> bumped[k] < step)
    && (forall i :: 0 <= i < |fills| ==> FillOk(i, fills[i], generation, inFlight, bumped, step))
  }

  /** Every in-flight call is a fill of that key that has published nothing. */
  ghost predicate OpenCall<V>(fills: seq<Fill<V>>, k: string, i: nat) {
    i < |fills| && fills[i].key == k && fills[i].published == None
  }

  ghost predicate CallsOpen<V>(fills: seq<Fill<V>>, inFlight: map<string, nat>) {
    forall k :: k in inFlight ==> OpenCall(fills, k, inFlight[k])
  }

  /** A cached entry was published by a fill that began at the key's present
      generation, or planted by the seed that created that generation. */
  ghost predicate Provenance<V>(fills: seq<Fill<V>>, generation: map<string, nat>, bumped: map<string, nat>,
                                k: string, t: Tagged<V>)
  {
    match t.origin
    case ByFill(i) =>
      && i < |fills| && fills[i].key == k
      && fills[i].ticket == Gen(generation, k)
      && fills[i].published == Some(t.value)
    case BySeed(step) => k in bumped && bumped[k] == step
  }

  ghost predicate EntriesTraced<V>(entries: map<string, Entry<Tagged<V>>>, fills: seq<Fill<V>>,
                                   generation: map<string, nat>, bumped: map<string, nat>)
  {
    forall k :: k in entries ==> Provenance(fills, generation, bumped, k, entries[k].result)
  }

  ghost predicate Inv<V>(w: World<V>) {
    && FillsOk(w.fills, w.cache.generation, w.cache.inFlight, w.bumped, w.step)
    && CallsOpen(w.fills, w.cache.inFlight)
    && w.cache.entries.Keys !! w.cache.inFlight.Keys
    && EntriesTraced(w.cache.entries, w.fills, w.cache.generation, w.bumped)
    && w.stores == w.evictions + |w.cache.entries|
  }

  lemma SizeMinus<V>(m: map<string, V>, keys: set<string>)
    requires keys <= m.Keys
    ensures |m - keys| == |m| - |keys|
  {
    assert (m - keys).Keys == m.Keys - keys;
  }

  lemma SizePlus<V>(m: map<string, V>, key: string, v: V)
    requires key !in m
    ensures |m[key := v]| == |m| + 1
  {
    assert m[key := v].Keys == m.Keys + {key};
  }

  /** Losing entries keeps the invariant as long as they are counted. */
  lemma ShrinkKeeps<V>(w: World<V>, cache: State<Tagged<V>, nat>, gone: set<string>)
    requires Inv(w) && gone <= w.cache.entries.Keys
    requires cache == w.cache.(entries := w.cache.entries - gone, lastSweep := cache.lastSweep)
    ensures Inv(w.(cache := cache, step := w.step + 1, evictions := w.evictions + |gone|))
  {
    hide FillsOk, CallsOpen, Provenance;
    SizeMinus(w.cache.entries, gone);
    LaterFills(w.fills, w.cache.generation, w.cache.inFlight, w.bumped, w.step);
  }

  lemma LaterFills<V>(fills: seq<Fill<V>>, generation: map<string, nat>, inFlight: map<string, nat>,
                      bumped: map<string, nat>, step: nat)
    requires FillsOk(fills, generation, inFlight, bumped, step)
    ensures FillsOk(fills, generation, inFlight, bumped, step + 1)
  {
  }

  lemma ClaimKeeps<V>(w: World<V>, key: string, begun: nat)
    requires Inv(w) && key !in w.cache.entries && key !in w.cache.inFlight
    requires begun < w.step && (key in w.bumped ==> w.bumped[key] < begun)
    ensures Inv(Claimed(w, key, begun))
  {
    var v := Claimed(w, key, begun);
    forall i | 0 <= i < |v.fills|
      ensures FillOk(i, v.fills[i], v.cache.generation, v.cache.inFlight, v.bumped, v.step)
    {
      if i < |w.fills| {
        assert FillOk(i, w.fills[i], w.cache.generation, w.cache.inFlight, w.bumped, w.step);
      }
    }
  }

  lemma FindOnlyShrinks<V>(s: State<V, nat>, key: string, at: int, every: int)
    ensures var f := Find(s, key, at, every).0;
            f == s.(entries := s.entries - (s.entries.Keys - f.entries.Keys), lastSweep := f.lastSweep)
    ensures Find(s, key, at, every).1.Missing? ==> key !in Find(s, key, at, every).0.entries && key !in s.inFlight
  {
    var f := Find(s, key, at, every).0;
    assert f.entries == s.entries - (s.entries.Keys - f.entries.Keys);
  }

  lemma LookedKeeps<V>(w: World<V>, key: string, at: int, every: int)
    requires Inv(w)
    ensures Inv(Looked(w, key, at, every))
  {
    var (found, answer) := Find(w.cache, key, at, every);
    FindOnlyShrinks(w.cache, key, at, every);
    hide Find, FillsOk, EntriesTraced, CallsOpen;
    ShrinkKeeps(w, found, w.cache.entries.Keys - found.entries.Keys);
    if answer.Missing? {
      EarlierBumps(w);
      ClaimKeeps(Searched(w, found), key, w.step);
    }
  }

  lemma EarlierBumps<V>(w: World<V>)
    requires Inv(w)
    ensures forall k :: k in w.bumped ==> w.bumped[k] < w.step
  {
  }

  /** A fill that may cache is attached, so its key holds no entry: the store
      never overwrites one. */
  lemma StoreNeverOverwrites<V>(w: World<V>, fill: nat, ttl: int)
    requires Inv(w) && fill < |w.fills| && w.fills[fill].published == None
    requires MayCache(w.cache, w.fills[fill].key, ttl, w.fills[fill].ticket)
    ensures w.fills[fill].key !in w.cache.entries
  {
    assert FillOk(fill, w.fills[fill], w.cache.generation, w.cache.inFlight, w.bumped, w.step);
  }

  lemma StoredKeeps<V>(w: World<V>, fill: nat, value: V, expiresAt: int)
    requires Inv(w) && fill < |w.fills| && w.fills[fill].published == Some(value)
    requires w.fills[fill].key !in w.cache.entries && w.fills[fill].key !in w.cache.inFlight
    requires w.fills[fill].ticket == Gen(w.cache.generation, w.fills[fill].key)
    ensures Inv(w.(cache := Store(w.cache, w.fills[fill].key, Tagged(value, ByFill(fill)), expiresAt),
                   stores := w.stores + 1))
  {
    SizePlus(w.cache.entries, w.fills[fill].key, Entry(Tagged(value, ByFill(fill)), expiresAt));
  }

  /** Publishing closes the fill and leaves the in-flight map if it was there. */
  function Closed<V>(w: World<V>, fill: nat, value: V): World<V>
    requires fill < |w.fills|
  {
    var key := w.fills[fill].key;
    w.(cache := w.cache.(inFlight := if key in w.cache.inFlight && w.cache.inFlight[key] == fill
                                     then w.cache.inFlight - {key} else w.cache.inFlight),
       step := w.step + 1,
       fills := w.fills[fill := w.fills[fill].(published := Some(value))])
  }

  lemma ClosedKeeps<V>(w: World<V>, fill: nat, value: V)
    requires Inv(w) && fill < |w.fills| && w.fills[fill].published == None
    ensures Inv(Closed(w, fill, value))
  {
    var v := Closed(w, fill, value);
    forall i | 0 <= i < |v.fills|
      ensures FillOk(i, v.fills[i], v.cache.generation, v.cache.inFlight, v.bumped, v.step)
    {
      assert FillOk(i, w.fills[i], w.cache.generation, w.cache.inFlight, w.bumped, w.step);
    }
  }

  lemma PublishedKeeps<V>(w: World<V>, fill: nat, value: V, ttl: int, at: int)
    requires Inv(w) && fill < |w.fills| && w.fills[fill].published == None
    ensures Inv(Published(w, fill, value, ttl, at))
  {
    ClosedKeeps(w, fill, value);
    if MayCache(w.cache, w.fills[fill].key, ttl, w.fills[fill].ticket) {
      StoreNeverOverwrites(w, fill, ttl);
      var v := Closed(w, fill, value);
      assert FillOk(fill, w.fills[fill], w.cache.generation, w.cache.inFlight, w.bumped, w.step);
      StoredKeeps(v, fill, value, at + ttl);
    }
  }

  lemma DetachFills<V>(fills: seq<Fill<V>>, c: State<Tagged<V>, nat>, bumped: map<string, nat>, key: string, at: nat)
    requires FillsOk(fills, c.generation, c.inFlight, bumped, at + 1)
    requires forall i :: 0 <= i < |fills| ==> fills[i].begun < at
    ensures var d := Detach(c, key); FillsOk(fills, d.generation, d.inFlight, bumped[key := at], at + 1)
  {
    var d := Detach(c, key);
    forall i | 0 <= i < |fills|
      ensures FillOk(i, fills[i], d.generation, d.inFlight, bumped[key := at], at + 1)
    {
      assert FillOk(i, fills[i], c.generation, c.inFlight, bumped, at + 1);
    }
  }

  lemma DetachEntries<V>(fills: seq<Fill<V>>, c: State<Tagged<V>, nat>, bumped: map<string, nat>, key: string, at: nat)
    requires EntriesTraced(c.entries, fills, c.generation, bumped) && key !in c.entries
    ensures EntriesTraced(c.entries, fills, Detach(c, key).generation, bumped[key := at])
  {
    forall k | k in c.entries
      ensures Provenance(fills, Detach(c, key).generation, bumped[key := at], k, c.entries[k].result)
    {
      assert Provenance(fills, c.generation, bumped, k, c.entries[k].result);
    }
  }

  lemma DetachKeeps<V>(w: World<V>, key: string, at: nat)
    requires Inv(w) && key !in w.cache.entries && w.step == at + 1
    requires forall i :: 0 <= i < |w.fills| ==> w.fills[i].begun < at
    ensures Inv(w.(cache := Detach(w.cache, key), bumped := w.bumped[key := at]))
  {
    hide FillsOk, EntriesTraced;
    DetachFills(w.fills, w.cache, w.bumped, key, at);
    DetachEntries(w.fills, w.cache, w.bumped, key, at);
  }

  lemma BegunBefore<V>(w: World<V>)
    requires Inv(w)
    ensures forall i :: 0 <= i < |w.fills| ==> w.fills[i].begun < w.step
  {
    forall i | 0 <= i < |w.fills| ensures w.fills[i].begun < w.step {
      assert FillOk(i, w.fills[i], w.cache.generation, w.cache.inFlight, w.bumped, w.step);
    }
  }

  lemma EvictForm<R>(s: State<R, nat>, key: string)
    ensures Evict(s, key) == s.(entries := s.entries - s.entries.Keys * {key})
    ensures key !in Evict(s, key).entries
  {
    assert s.entries - {key} == s.entries - s.entries.Keys * {key};
  }

  lemma DroppedKeeps<V>(w: World<V>, key: string)
    requires Inv(w)
    ensures Inv(Dropped(w, key))
    ensures key !in Dropped(w, key).cache.entries
  {
    EvictForm(w.cache, key);
    BegunBefore(w);
    var gone := w.cache.entries.Keys * {key};
    ShrinkKeeps(w, Evict(w.cache, key), gone);
    DetachKeeps(w.(cache := Evict(w.cache, key), step := w.step + 1, evictions := w.evictions + |gone|), key, w.step);
  }

  lemma PlantKeeps<V>(w: World<V>, key: string, value: V, expiresAt: int, step: nat)
    requires Inv(w) && key !in w.cache.entries && key !in w.cache.inFlight
    requires key in w.bumped && w.bumped[key] == step
    ensures Inv(w.(cache := Store(w.cache, key, Tagged(value, BySeed(step)), expiresAt), stores := w.stores + 1))
  {
    SizePlus(w.cache.entries, key, Entry(Tagged(value, BySeed(step)), expiresAt));
    var v := w.(cache := Store(w.cache, key, Tagged(value, BySeed(step)), expiresAt), stores := w.stores + 1);
  }

  lemma PlantedKeeps<V>(w: World<V>, key: string, value: V, ttl: int, at: int)
    requires Inv(w)
    ensures Inv(Planted(w, key, value, ttl, at))
  {
    DroppedKeeps(w, key);
    if ttl > 0 {
      PlantKeeps(Dropped(w, key), key, value, at + ttl, w.step);
    }
  }

  lemma StepKeeps<V>(w: World<V>, a: Action<V>, every: int)
    requires Inv(w) && Enabled(w, a)
    ensures Inv(Step(w, a, every))
  {
    match a
    case Look(key, at) => LookedKeeps(w, key, at, every);
    case Publish(fill, value, ttl, at) => PublishedKeeps(w, fill, value, ttl, at);
    case Drop(key) => DroppedKeeps(w, key);
    case DropIf(key, _) => if Bumps(w, a, key) { DroppedKeeps(w, key); }
    case Plant(key, value, ttl, at) => PlantedKeeps(w, key, value, ttl, at);
  }

  /** Main result: the ticket invariant holds after every history. */
  lemma {:induction false} TicketInvariant<V>(history: seq<Action<V>>, every: int)
    requires Run(history, every).Some?
    ensures Inv(Run(history, every).value)
  {
    if history == [] {
    } else {
      var before := history[..|history| - 1];
      TicketInvariant(before, every);
      StepKeeps(Run(before, every).value, history[|history| - 1], every);
    }
  }

  // ------------------------------------------------------------ run-level claims

  lemma {:induction false} PrefixRuns<V>(history: seq<Action<V>>, every: int, n: nat)
    requires Run(history, every).Some? && n <= |history|
    ensures Run(history[..n], every).Some?
  {
    if n == |history| {
      assert history[..n] == history;
    } else {
      assert history[..|history| - 1][..n] == history[..n];
      PrefixRuns(history[..|history| - 1], every, n);
    }
  }

  lemma StepBumped<V>(w: World<V>, a: Action<V>, every: int, key: string)
    requires Enabled(w, a)
    ensures var v := Step(w, a, every);
            && v.step == w.step + 1
            && (Bumps(w, a, key) ==> key in v.bumped && v.bumped[key] == w.step)
            && (!Bumps(w, a, key) && key in w.bumped ==> key in v.bumped && v.bumped[key] == w.bumped[key])
  {
  }

  lemma {:induction false} StepCounts<V>(history: seq<Action<V>>, every: int)
    requires Run(history, every).Some?
    ensures Run(history, every).value.step == |history|
  {
    if history == [] {
    } else {
      var before := history[..|history| - 1];
      StepCounts(before, every);
      StepBumped(Run(before, every).value, history[|history| - 1], every, "");
    }
  }

  lemma {:induction false} BumpPersists<V>(history: seq<Action<V>>, every: int, i: nat, key: string)
    requires Run(history, every).Some? && i < |history| && Run(history[..i], every).Some?
    requires Bumps(Run(history[..i], every).value, history[i], key)
    ensures key in Run(history, every).value.bumped
    ensures i <= Run(history, every).value.bumped[key]
  {
    hide Step, Bumps;
    var before := history[..|history| - 1];
    var w := Run(before, every).value;
    StepCounts(before, every);
    StepBumped(w, history[|history| - 1], every, key);
    if i < |before| {
      assert before[..i] == history[..i] && before[i] == history[i];
      BumpPersists(before, every, i, key);
    }
  }

  /** Main result: a hit after an invalidation carries no older value. When step
      `i` invalidated or seeded the key, and a lookup after any longer history
      hits, the value was published by a fill that began after step `i`, or planted
      at step `i` or later. This holds for every interleaving of every caller. */
  lemma HitAfterInvalidationIsNewer<V>(history: seq<Action<V>>, every: int, i: nat, key: string, at: int)
    requires Run(history, every).Some? && i < |history| && Run(history[..i], every).Some?
    requires Bumps(Run(history[..i], every).value, history[i], key)
    requires AnswerTo(Run(history, every).value, key, at, every).Cached?
    ensures var w := Run(history, every).value;
            match AnswerTo(w, key, at, every).result.origin
            case ByFill(f) => f < |w.fills| && w.fills[f].key == key && i < w.fills[f].begun
                              && w.fills[f].published == Some(AnswerTo(w, key, at, every).result.value)
            case BySeed(step) => i <= step
  {
    var w := Run(history, every).value;
    TicketInvariant(history, every);
    BumpPersists(history, every, i, key);
    assert key in w.cache.entries;
    var hit := w.cache.entries[key].result;
    assert Provenance(w.fills, w.cache.generation, w.bumped, key, hit);
    if hit.origin.ByFill? {
      var f := hit.origin.fill;
      assert FillOk(f, w.fills[f], w.cache.generation, w.cache.inFlight, w.bumped, w.step);
    }
  }

  // ---------------------------------------------------------------------- expiry

  /** This step stored the value, to last so long from its own clock reading. */
  ghost predicate Stores<V>(w: World<V>, a: Action<V>, key: string, value: V, expiresAt: int) {
    match a
    case Publish(f, v, ttl, at) =>
      f < |w.fills| && w.fills[f].key == key && v == value && ttl > 0 && expiresAt == at + ttl
    case Plant(k, v, ttl, at) => k == key && v == value && ttl > 0 && expiresAt == at + ttl
    case _ => false
  }

  lemma EntryFromStep<V>(w: World<V>, a: Action<V>, every: int, key: string)
    requires Enabled(w, a) && key in Step(w, a, every).cache.entries
    ensures var e := Step(w, a, every).cache.entries[key];
            (key in w.cache.entries && w.cache.entries[key] == e) || Stores(w, a, key, e.result.value, e.expiresAt)
  {
    hide Dropped, Published, Looked, Bumps;
    match a
    case Look(k, at) => LookAddsNothing(w, k, at, every, key);
    case Publish(f, v, ttl, at) => PublishedEntry(w, f, v, ttl, at, key);
    case DropIf(k, _) => if Bumps(w, a, k) { DroppedEntry(w, k, key); }
    case Drop(k) => DroppedEntry(w, k, key);
    case Plant(k, v, ttl, at) =>
  }

  lemma LookAddsNothing<V>(w: World<V>, k: string, at: int, every: int, key: string)
    requires key in Looked(w, k, at, every).cache.entries
    ensures key in w.cache.entries && w.cache.entries[key] == Looked(w, k, at, every).cache.entries[key]
  {
  }

  lemma PublishedEntry<V>(w: World<V>, f: nat, v: V, ttl: int, at: int, key: string)
    requires f < |w.fills| && key in Published(w, f, v, ttl, at).cache.entries
    ensures var e := Published(w, f, v, ttl, at).cache.entries[key];
            || (key in w.cache.entries && w.cache.entries[key] == e)
            || (w.fills[f].key == key && ttl > 0 && e.result.value == v && e.expiresAt == at + ttl)
  {
  }

  lemma DroppedEntry<V>(w: World<V>, k: string, key: string)
    requires key in Dropped(w, k).cache.entries
    ensures key in w.cache.entries && w.cache.entries[key] == Dropped(w, k).cache.entries[key]
  {
  }

  lemma {:induction false} EntryWasStored<V>(history: seq<Action<V>>, every: int, key: string) returns (k: nat)
    requires Run(history, every).Some? && key in Run(history, every).value.cache.entries
    ensures k < |history| && Run(history[..k], every).Some?
    ensures var e := Run(history, every).value.cache.entries[key];
            Stores(Run(history[..k], every).value, history[k], key, e.result.value, e.expiresAt)
  {
    hide Step, Enabled, Stores;
    var before := history[..|history| - 1];
    var w, a := Run(before, every).value, history[|history| - 1];
    EntryFromStep(w, a, every, key);
    if key in w.cache.entries && w.cache.entries[key] == Step(w, a, every).cache.entries[key] {
      k := EntryWasStored(before, every, key);
      assert before[..k] == history[..k];
    } else {
      k := |before|;
      assert history[..k] == before;
    }
  }

  /** Main result: a hit is fresh. Its value was stored at an earlier step for a positive
      time, and that time, counted from that step's own clock reading, is not over. */
  lemma HitIsFresh<V>(history: seq<Action<V>>, every: int, key: string, at: int) returns (k: nat, expiresAt: int)
    requires Run(history, every).Some? && AnswerTo(Run(history, every).value, key, at, every).Cached?
    ensures k < |history| && Run(history[..k], every).Some? && at < expiresAt
    ensures Stores(Run(history[..k], every).value, history[k], key,
                   AnswerTo(Run(history, every).value, key, at, every).result.value, expiresAt)
  {
    var w := Run(history, every).value;
    CachedIsFresh(w, key, at, every);
    expiresAt := w.cache.entries[key].expiresAt;
    hide Run, AnswerTo;
    k := EntryWasStored(history, every, key);
  }

  lemma CachedIsFresh<V>(w: World<V>, key: string, at: int, every: int)
    ensures var answer := AnswerTo(w, key, at, every);
            answer.Cached? <==> key in w.cache.entries && at < w.cache.entries[key].expiresAt
    ensures var answer := AnswerTo(w, key, at, every);
            answer.Cached? ==> answer.result == w.cache.entries[key].result
  {
  }

  /** And it is found until then: lookups of any keys, in any order, leave an entry alone
      whose time is not over, and it is a hit for each of them. */
  lemma {:induction false} HitUntilExpiry<V>(history: seq<Action<V>>, looks: seq<Action<V>>, every: int, key: string,
                                             at: int)
    requires Run(history, every).Some? && key in Run(history, every).value.cache.entries
    requires var expiresAt := Run(history, every).value.cache.entries[key].expiresAt;
             at < expiresAt && forall a :: a in looks ==> a.Look? && a.at < expiresAt
    ensures Run(history + looks, every).Some?
    ensures var e, w := Run(history, every).value.cache.entries[key], Run(history + looks, every).value;
            && key in w.cache.entries && w.cache.entries[key] == e
            && AnswerTo(w, key, at, every) == Cached(e.result)
  {
    hide Step;
    if looks == [] {
      assert history + looks == history;
      CachedIsFresh(Run(history, every).value, key, at, every);
    } else {
      var init, last := looks[..|looks| - 1], looks[|looks| - 1];
      HitUntilExpiry(history, init, every, key, at);
      var longer := history + looks;
      assert longer[..|longer| - 1] == history + init && longer[|longer| - 1] == last;
      LookLeaves(Run(history + init, every).value, last, every, key);
      CachedIsFresh(Run(longer, every).value, key, at, every);
    }
    hide AnswerTo;
  }

  lemma LookLeaves<V>(w: World<V>, a: Action<V>, every: int, key: string)
    requires a.Look? && key in w.cache.entries && a.at < w.cache.entries[key].expiresAt
    ensures Enabled(w, a) && key in Step(w, a, every).cache.entries
    ensures Step(w, a, every).cache.entries[key] == w.cache.entries[key]
  {
    LookedForm(w, a.key, a.at, every);
    hide Looked, AnswerTo, Gen;
  }

  // ------------------------------------------------------- sweeping is invisible

  /** Lookups read the clock in order. The other operations may carry any time. */
  ghost predicate LooksInOrder<V>(history: seq<Action<V>>, until: int) {
    && (forall i :: 0 <= i < |history| && history[i].Look? ==> history[i].at <= until)
    && (forall i, j ::
          (0 <= i < j < |history| && history[i].Look? && history[j].Look?) ==>
            history[i].at <= history[j].at)
  }

  /** Same hit value, same call to wait for, or the same new fill to own. Only the
      ticket of an owner may differ. */
  predicate SameAnswer<V(==)>(a: Start<V, nat>, b: Start<V, nat>) {
    match a
    case Cached(r) => b == Cached(r)
    case Wait(call) => b == Wait(call)
    case Own(call, _) => b.Own? && b.call == call
  }

  /** Two logs that differ at most in tickets. */
  ghost predicate SameFills<V>(a: seq<Fill<V>>, b: seq<Fill<V>>) {
    && |a| == |b|
    && forall i :: 0 <= i < |a| ==> a[i].key == b[i].key && a[i].published == b[i].published && a[i].begun == b[i].begun
  }

  /** Entries that some lookup at `now` or later could still return. */
  ghost predicate SameLive<V>(a: map<string, Entry<V>>, b: map<string, Entry<V>>, now: int) {
    && (forall k :: k in a && Fresh(a[k], now) ==> k in b && b[k] == a[k])
    && (forall k :: k in b && Fresh(b[k], now) ==> k in a && a[k] == b[k])
  }

  /** The simulation: which fill is attached, not which generation a key has. */
  ghost predicate Alike<V>(a: World<V>, b: World<V>, now: int) {
    && SameFills(a.fills, b.fills)
    && a.cache.inFlight == b.cache.inFlight
    && SameLive(a.cache.entries, b.cache.entries, now)
    && a.step == b.step
  }

  /** Attached owners are the same in both worlds, so a fill may cache in one
      exactly when it may in the other. */
  lemma SameMayCache<V>(a: World<V>, b: World<V>, now: int, fill: nat, ttl: int)
    requires Inv(a) && Inv(b) && Alike(a, b, now)
    requires fill < |a.fills| && a.fills[fill].published == None
    ensures MayCache(a.cache, a.fills[fill].key, ttl, a.fills[fill].ticket)
            <==> MayCache(b.cache, b.fills[fill].key, ttl, b.fills[fill].ticket)
  {
    assert FillOk(fill, a.fills[fill], a.cache.generation, a.cache.inFlight, a.bumped, a.step);
    assert FillOk(fill, b.fills[fill], b.cache.generation, b.cache.inFlight, b.bumped, b.step);
  }

  /** What a lookup does, by the two facts it depends on: whether the entry is
      fresh, and whether a fill is running. */
  lemma LookedForm<V>(w: World<V>, key: string, at: int, every: int)
    ensures var v := Looked(w, key, at, every);
            var start := AnswerTo(w, key, at, every);
            && v.step == w.step + 1
            && (forall k :: k in v.cache.entries ==> k in w.cache.entries && v.cache.entries[k] == w.cache.entries[k])
            && (forall k :: k in w.cache.entries && Fresh(w.cache.entries[k], at) ==> k in v.cache.entries)
            && (if key in w.cache.entries && Fresh(w.cache.entries[key], at) then
                  v.fills == w.fills && v.cache.inFlight == w.cache.inFlight
                      && start == Cached(w.cache.entries[key].result)
                else if key in w.cache.inFlight then
                  v.fills == w.fills && v.cache.inFlight == w.cache.inFlight && start == Wait(w.cache.inFlight[key])
                else
                  v.fills == w.fills + [Fill(key, Gen(w.cache.generation, key), w.step, None)]
                  && v.cache.inFlight == w.cache.inFlight[key := |w.fills|] && start.Own? && start.call == |w.fills|)
  {
    FindKeepsLive(w.cache, key, at, every);
  }

  lemma ShrinkAlike<R>(a: map<string, Entry<R>>, b: map<string, Entry<R>>,
                       a': map<string, Entry<R>>, b': map<string, Entry<R>>, now: int, at: int)
    requires SameLive(a, b, now) && now <= at
    requires forall k :: k in a' ==> k in a && a'[k] == a[k]
    requires forall k :: k in b' ==> k in b && b'[k] == b[k]
    requires forall k :: k in a && Fresh(a[k], at) ==> k in a'
    requires forall k :: k in b && Fresh(b[k], at) ==> k in b'
    ensures SameLive(a', b', at)
  {
  }

  lemma LookAlike<V>(a: World<V>, b: World<V>, now: int, key: string, at: int, e1: int, e2: int)
    requires Alike(a, b, now) && now <= at
    ensures Alike(Looked(a, key, at, e1), Looked(b, key, at, e2), at)
    ensures SameAnswer(AnswerTo(a, key, at, e1), AnswerTo(b, key, at, e2))
  {
    hide Looked, AnswerTo;
    var va, vb := Looked(a, key, at, e1), Looked(b, key, at, e2);
    LookedForm(a, key, at, e1);
    LookedForm(b, key, at, e2);
    ShrinkAlike(a.cache.entries, b.cache.entries, va.cache.entries, vb.cache.entries, now, at);
  }

  lemma FindKeepsLive<R>(s: State<R, nat>, key: string, at: int, every: int)
    ensures var (f, answer) := Find(s, key, at, every);
            && f.inFlight == s.inFlight && f.generation == s.generation
            && (forall k :: k in f.entries ==> k in s.entries && f.entries[k] == s.entries[k])
            && (forall k :: k in s.entries && Fresh(s.entries[k], at) ==> k in f.entries)
            && (answer.Hit? <==> key in s.entries && Fresh(s.entries[key], at))
            && (answer.Hit? ==> answer.result == s.entries[key].result)
  {
  }

  lemma PublishAlike<V>(a: World<V>, b: World<V>, now: int, fill: nat, value: V, ttl: int, at: int)
    requires Inv(a) && Inv(b) && Alike(a, b, now)
    requires fill < |a.fills| && a.fills[fill].published == None
    ensures Alike(Published(a, fill, value, ttl, at), Published(b, fill, value, ttl, at), now)
  {
    SameMayCache(a, b, now, fill, ttl);
    StoreAlike(a.cache.entries, b.cache.entries, now, a.fills[fill].key, Entry(Tagged(value, ByFill(fill)), at + ttl));
  }

  lemma StoreAlike<R>(a: map<string, Entry<R>>, b: map<string, Entry<R>>, now: int, key: string, e: Entry<R>)
    requires SameLive(a, b, now)
    ensures SameLive(a[key := e], b[key := e], now)
  {
  }

  lemma EraseAlike<R>(a: map<string, Entry<R>>, b: map<string, Entry<R>>, now: int, key: string)
    requires SameLive(a, b, now)
    ensures SameLive(a - {key}, b - {key}, now)
  {
  }

  lemma DropAlike<V>(a: World<V>, b: World<V>, now: int, key: string)
    requires Alike(a, b, now)
    ensures Alike(Dropped(a, key), Dropped(b, key), now)
  {
    EraseAlike(a.cache.entries, b.cache.entries, now, key);
  }

  lemma PlantAlike<V>(a: World<V>, b: World<V>, now: int, key: string, value: V, ttl: int, at: int)
    requires Alike(a, b, now)
    ensures Alike(Planted(a, key, value, ttl, at), Planted(b, key, value, ttl, at), now)
  {
    DropAlike(a, b, now, key);
    var da, db := Dropped(a, key), Dropped(b, key);
    StoreAlike(da.cache.entries, db.cache.entries, now, key, Entry(Tagged(value, BySeed(a.step)), at + ttl));
    assert Planted(a, key, value, ttl, at).fills == da.fills && Planted(b, key, value, ttl, at).fills == db.fills;
  }

  lemma EraseUnseen<R>(a: map<string, Entry<R>>, b: map<string, Entry<R>>, now: int, key: string)
    requires SameLive(a, b, now)
    requires key in a && !Fresh(a[key], now)
    ensures SameLive(a - {key}, b, now) && SameLive(b, a - {key}, now)
  {
    assert key in b ==> !Fresh(b[key], now);
  }

  /** Only one world drops: then its entry had expired, no lookup since then came
      for that key, and no fill of the key is attached, so nothing visible moves. */
  lemma DropUnseen<V>(a: World<V>, b: World<V>, now: int, key: string)
    requires a.cache.entries.Keys !! a.cache.inFlight.Keys && Alike(a, b, now)
    requires key in a.cache.entries && !Fresh(a.cache.entries[key], now)
    ensures Alike(Dropped(a, key), b.(step := b.step + 1), now)
    ensures Alike(b.(step := b.step + 1), Dropped(a, key), now)
  {
    assert a.cache.inFlight - {key} == a.cache.inFlight;
    EraseUnseen(a.cache.entries, b.cache.entries, now, key);
  }

  lemma DropIfAlike<V>(a: World<V>, b: World<V>, now: int, act: Action<V>, e1: int, e2: int)
    requires Inv(a) && Inv(b) && Alike(a, b, now) && act.DropIf?
    ensures Alike(Step(a, act, e1), Step(b, act, e2), now)
  {
    var key := act.key;
    if Bumps(a, act, key) && Bumps(b, act, key) {
      DropAlike(a, b, now, key);
    } else if Bumps(a, act, key) {
      DropUnseen(a, b, now, key);
    } else if Bumps(b, act, key) {
      DropUnseen(b, a, now, key);
    }
  }

  lemma StepAlike<V>(a: World<V>, b: World<V>, now: int, act: Action<V>, e1: int, e2: int)
    requires Inv(a) && Inv(b) && Alike(a, b, now) && Enabled(a, act)
    requires act.Look? ==> now <= act.at
    ensures Enabled(b, act)
    ensures Alike(Step(a, act, e1), Step(b, act, e2), if act.Look? then act.at else now)
  {
    match act
    case Look(key, at) => LookAlike(a, b, now, key, at, e1, e2);
    case Publish(fill, value, ttl, at) => PublishAlike(a, b, now, fill, value, ttl, at);
    case Drop(key) => DropAlike(a, b, now, key);
    case DropIf(_, _) => DropIfAlike(a, b, now, act, e1, e2);
    case Plant(key, value, ttl, at) => PlantAlike(a, b, now, key, value, ttl, at);
  }

  function LastLook<V>(history: seq<Action<V>>, floor: int): int {
    if history == [] then floor
    else if history[|history| - 1].Look? then history[|history| - 1].at
    else LastLook(history[..|history| - 1], floor)
  }

  lemma {:induction false} LastLookBounds<V>(history: seq<Action<V>>, floor: int, until: int)
    requires LooksInOrder(history, until)
    requires floor <= until
    ensures LastLook(history, floor) <= until
  {
    if history == [] || history[|history| - 1].Look? {
    } else {
      LastLookBounds(history[..|history| - 1], floor, until);
    }
  }

  lemma {:induction false} RunsAlike<V>(history: seq<Action<V>>, e1: int, e2: int, floor: int, until: int)
    requires LooksInOrder(history, until)
    requires forall i :: 0 <= i < |history| && history[i].Look? ==> floor <= history[i].at
    requires Run(history, e1).Some?
    ensures Run(history, e2).Some?
    ensures Inv(Run(history, e1).value) && Inv(Run(history, e2).value)
    ensures Alike(Run(history, e1).value, Run(history, e2).value, LastLook(history, floor))
  {
    if history == [] {
    } else {
      var before := history[..|history| - 1];
      var act := history[|history| - 1];
      var now := LastLook(before, floor);
      RunsAlike(before, e1, e2, floor, until);
      if act.Look? {
        LastLookBounds(before, floor, act.at);
      }
      StepAlike(Run(before, e1).value, Run(before, e2).value, now, act, e1, e2);
      TicketInvariant(history, e1);
      TicketInvariant(history, e2);
    }
  }

  function EarliestLook<V>(history: seq<Action<V>>, at: int): int {
    if history == [] then at
    else
      var rest := EarliestLook(history[..|history| - 1], at);
      var a := history[|history| - 1];
      if a.Look? && a.at < rest then a.at else rest
  }

  lemma {:induction false} EarliestLookBounds<V>(history: seq<Action<V>>, at: int)
    ensures EarliestLook(history, at) <= at
    ensures forall i :: 0 <= i < |history| && history[i].Look? ==> EarliestLook(history, at) <= history[i].at
  {
    if history == [] {
    } else {
      EarliestLookBounds(history[..|history| - 1], at);
      forall i | 0 <= i < |history| && history[i].Look?
        ensures EarliestLook(history, at) <= history[i].at
      {
        if i < |history| - 1 {
          assert history[..|history| - 1][i] == history[i];
        }
      }
    }
  }

  /** Main result: sweeping is invisible. Whatever two sweep intervals two caches
      use, after the same history, with lookups in clock order, the next lookup gets
      the same answer from both. */
  lemma SweepingIsInvisible<V>(history: seq<Action<V>>, key: string, at: int, e1: int, e2: int)
    requires LooksInOrder(history, at)
    requires Run(history, e1).Some?
    ensures Run(history, e2).Some?
    ensures SameAnswer(AnswerTo(Run(history, e1).value, key, at, e1), AnswerTo(Run(history, e2).value, key, at, e2))
  {
    var floor := EarliestLook(history, at);
    EarliestLookBounds(history, at);
    RunsAlike(history, e1, e2, floor, at);
    LastLookBounds(history, floor, at);
    LookAlike(Run(history, e1).value, Run(history, e2).value, LastLook(history, floor), key, at, e1, e2);
  }

  // ------------------------------------------------- what a sweep does change

  const SWEPT_HISTORY: seq<Action<int>> := [Look("b", 1), Plant("a", 7, 4, 1), Look("b", 6)]

  const B_STARTED: World<int> :=
    World(State(map[], map["b" := 0], map[], 1), [Fill("b", 0, 0, None)], 1, map[], 0, 0)

  const A_PLANTED: World<int> :=
    World(State(map["a" := Entry(Tagged(7, BySeed(1)), 5)], map["b" := 0], map["a" := 1], 1),
          [Fill("b", 0, 0, None)], 2, map["a" := 1], 1, 0)

  lemma RunOneMore<V>(history: seq<Action<V>>, a: Action<V>, every: int)
    requires Run(history, every).Some? && Enabled(Run(history, every).value, a)
    ensures Run(history + [a], every) == Some(Step(Run(history, every).value, a, every))
  {
    assert (history + [a])[..|history|] == history;
  }

  lemma FirstLook(every: int)
    ensures Looked(Begin<int>(), "b", 1, every) == B_STARTED
  {
    var swept := SweepExpired(Begin<int>().cache, 1, every);
    assert swept == State(map[], map[], map[], 1);
    assert Find(Begin<int>().cache, "b", 1, every).0 == swept;
  }

  lemma SecondPlants()
    ensures Planted(B_STARTED, "a", 7, 4, 1) == A_PLANTED
  {
    assert map[]["a" := Entry(Tagged(7, BySeed(1)), 5)] == map["a" := Entry(Tagged(7, BySeed(1)), 5)];
    assert map["b" := 0] - {"a"} == map["b" := 0];
    assert B_STARTED.cache.entries.Keys * {"a"} == {};
  }

  lemma RunLooked<V>(history: seq<Action<V>>, w: World<V>, key: string, at: int, every: int)
    requires Run(history, every) == Some(w)
    ensures Run(history + [Look(key, at)], every) == Some(Looked(w, key, at, every))
  {
    hide Looked, Run;
    RunOneMore(history, Look(key, at), every);
  }

  lemma RunPlanted<V>(history: seq<Action<V>>, w: World<V>, key: string, value: V, ttl: int, at: int, every: int)
    requires Run(history, every) == Some(w)
    ensures Run(history + [Plant(key, value, ttl, at)], every) == Some(Planted(w, key, value, ttl, at))
  {
    hide Planted, Run;
    RunOneMore(history, Plant(key, value, ttl, at), every);
  }

  lemma NothingRun<V>(every: int)
    ensures Run<V>([], every) == Some(Begin())
  {
  }

  lemma SweptEnds(every: int)
    requires every <= 0 || every == 100
    ensures Run(SWEPT_HISTORY, every) == Some(Looked(A_PLANTED, "b", 6, every))
    ensures var c := Looked(A_PLANTED, "b", 6, every).cache;
            && c.generation == map["a" := 1] && "a" !in c.inFlight
            && c.entries == if every <= 0 then map[] else map["a" := Entry(Tagged(7, BySeed(1)), 5)]
  {
    hide Run, Looked, Planted, Begin, Gen;
    NothingRun<int>(every);
    FirstLook(every);
    SecondPlants();
    RunLooked([], Begin<int>(), "b", 1, every);
    RunPlanted([] + [Look("b", 1)], B_STARTED, "a", 7, 4, 1, every);
    RunLooked([] + [Look("b", 1)] + [Plant("a", 7, 4, 1)], A_PLANTED, "b", 6, every);
    assert [] + [Look("b", 1)] + [Plant("a", 7, 4, 1)] + [Look("b", 6)] == SWEPT_HISTORY;
    ThirdLooks(every);
  }

  lemma ThirdLooks(every: int)
    requires every <= 0 || every == 100
    ensures var c := Looked(A_PLANTED, "b", 6, every).cache;
            && c.generation == map["a" := 1] && "a" !in c.inFlight
            && c.entries == if every <= 0 then map[] else map["a" := Entry(Tagged(7, BySeed(1)), 5)]
  {
    var swept := SweepExpired(A_PLANTED.cache, 6, every);
    assert ExpiredKeys(A_PLANTED.cache, 6) == {"a"};
    assert swept.entries == if every <= 0 then map[] else map["a" := Entry(Tagged(7, BySeed(1)), 5)];
    assert swept.entries - {"b"} == swept.entries;
  }

  /** The answers agree although the generations do not: a conditional invalidation
      finds an expired entry only where no sweep removed it. */
  lemma SweepingMovesGenerations()
    ensures Run(SWEPT_HISTORY, 0).Some? && Run(SWEPT_HISTORY, 100).Some?
    ensures var a, b := Run(SWEPT_HISTORY, 0).value.cache, Run(SWEPT_HISTORY, 100).value.cache;
            && Gen(InvalidateIf(a, "a", (t: Tagged<int>) => true).generation, "a") == 1
            && Gen(InvalidateIf(b, "a", (t: Tagged<int>) => true).generation, "a") == 2
  {
    SweptEnds(0);
    SweptEnds(100);
  }

  /** Clock order is needed: a lookup that carries an older reading than one before
      it can hit an entry that a sweep has already removed elsewhere. */
  lemma SweepingShowsOutOfOrder()
    ensures Run(SWEPT_HISTORY, 0).Some? && Run(SWEPT_HISTORY, 100).Some?
    ensures AnswerTo(Run(SWEPT_HISTORY, 0).value, "a", 4, 0).Own?
    ensures AnswerTo(Run(SWEPT_HISTORY, 100).value, "a", 4, 100).Cached?
  {
    hide Run, Looked;
    SweptEnds(0);
    SweptEnds(100);
  }
}
