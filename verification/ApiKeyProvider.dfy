/** What the API-key provider keeps for one workspace, as pure functions. Each is
    one critical section of the lookup cache's mutex, hooks included.

    `T` identifies the encrypted key material a cached key came from, `C` a
    running fill and `D` a running validation. */
module ApiKeyCell {
  import opened Wrappers
  import TtlCache

  datatype Failure = NotConfigured | ContextEnded | OtherFailure

  /** The result of one fill: a decrypted key with the token of the material it
      was decrypted from, or a failure. Only found keys are ever cached. */
  datatype Lookup<T> = Found(apiKey: string, token: T) | Failed(failure: Failure)

  datatype Check<T, D> = Check(call: D, token: T)

  datatype Cell<T, C, D> = Cell(
    entry: Option<TtlCache.Entry<Lookup<T>>>,
    running: Option<C>,
    generation: nat,
    strongUntil: Option<int>,
    checking: Option<Check<T, D>>)

  datatype Answer<T, C> =
    | CachedKey(apiKey: string, token: T)
    | WaitFor(call: C)
    | OwnFill(call: C, ticket: nat, strong: bool)

  datatype CheckStart<D> = Join(call: D) | OwnCheck(call: D)

  function EmptyCell<T, C, D>(): Cell<T, C, D> {
    Cell(None, None, 0, None, None)
  }

  predicate Live<T, C, D>(c: Cell<T, C, D>, at: int) {
    c.entry.Some? && TtlCache.Fresh(c.entry.value, at)
  }

  /** Removing a cached key runs the eviction hook, which forgets the running
      validation. */
  function Evicted<T, C, D>(c: Cell<T, C, D>): Cell<T, C, D> {
    if c.entry.Some? then c.(entry := None, checking := None) else c
  }

  function MarkerExpired<T, C, D>(c: Cell<T, C, D>, at: int): Cell<T, C, D> {
    if c.strongUntil.Some? && at >= c.strongUntil.value then c.(strongUntil := None) else c
  }

  function Swept<T, C, D>(c: Cell<T, C, D>, at: int): Cell<T, C, D> {
    MarkerExpired(if Live(c, at) then c else Evicted(c), at)
  }

  /** A lookup that misses also reads the strong-read marker, for owners and
      waiters alike, and drops it once it has run out. */
  function LookUp<T, C, D>(c: Cell<T, C, D>, at: int, sweeps: bool, call: C): (Cell<T, C, D>, Answer<T, C>) {
    var c1 := if sweeps then Swept(c, at) else c;
    if Live(c1, at) && c1.entry.value.result.Found? then
      (c1, CachedKey(c1.entry.value.result.apiKey, c1.entry.value.result.token))
    else
      var c2 := MarkerExpired(Evicted(c1), at);
      if c2.running.Some? then (c2, WaitFor(c2.running.value))
      else (c2.(running := Some(call)), OwnFill(call, c2.generation, c2.strongUntil.Some?))
  }

  function FinishFill<T, C(==), D>(c: Cell<T, C, D>, call: C, result: Lookup<T>, ttl: int, at: int,
                                   ticket: nat): Cell<T, C, D> {
    var c1 := if ttl > 0 && c.generation == ticket
              then Evicted(c).(entry := Some(TtlCache.Entry(result, at + ttl))) else c;
    if c1.running == Some(call) then c1.(running := None) else c1
  }

  function Invalidated<T, C, D>(c: Cell<T, C, D>): Cell<T, C, D> {
    Evicted(c).(running := None, generation := c.generation + 1)
  }

  function Revoke<T, C, D>(c: Cell<T, C, D>, strongUntil: int): Cell<T, C, D> {
    Invalidated(c).(strongUntil := Some(strongUntil))
  }

  predicate Holds<T(==), C, D>(c: Cell<T, C, D>, token: T) {
    c.entry.Some? && c.entry.value.result.Found? && c.entry.value.result.token == token
  }

  function RevokeIf<T(==), C, D>(c: Cell<T, C, D>, token: T, strongUntil: int): Cell<T, C, D> {
    if Holds(c, token) then Revoke(c, strongUntil) else c
  }

  function SeedKey<T, C, D>(c: Cell<T, C, D>, apiKey: string, token: T, ttl: int, at: int): Cell<T, C, D> {
    var c1 := Invalidated(c).(strongUntil := None);
    if ttl > 0 then c1.(entry := Some(TtlCache.Entry(Found(apiKey, token), at + ttl))) else c1
  }

  function StartCheck<T(==), C, D>(c: Cell<T, C, D>, token: T, call: D): (Cell<T, C, D>, CheckStart<D>) {
    if c.checking.Some? && c.checking.value.token == token then (c, Join(c.checking.value.call))
    else (c.(checking := Some(Check(call, token))), OwnCheck(call))
  }

  function EndCheck<T, C, D(==)>(c: Cell<T, C, D>, call: D): Cell<T, C, D> {
    if c.checking.Some? && c.checking.value.call == call then c.(checking := None) else c
  }
}

/** The provider's shared state for all workspaces: the lookup cache and the two
    maps under its mutex. The lemmas show that a workspace sees only its own cell:
    an operation on it is the cell's operation, and an operation on another
    workspace leaves it alone or sweeps it. */
module ApiKeyStore {
  import opened Wrappers
  import opened ApiKeyCell
  import TtlCache

  datatype Store<T, C, D> = Store(
    cache: TtlCache.State<Lookup<T>, C>,
    strongUntil: map<string, int>,
    checking: map<string, Check<T, D>>)

  function Get<V>(m: map<string, V>, key: string): Option<V> {
    if key in m then Some(m[key]) else None
  }

  function CellOf<T, C, D>(s: Store<T, C, D>, ws: string): Cell<T, C, D> {
    Cell(Get(s.cache.entries, ws), Get(s.cache.inFlight, ws), TtlCache.Gen(s.cache.generation, ws),
         Get(s.strongUntil, ws), Get(s.checking, ws))
  }

  function OnEvict<T, C, D>(s: Store<T, C, D>, evicted: set<string>): Store<T, C, D> {
    s.(checking := s.checking - evicted)
  }

  function ExpiredMarkers<T, C, D>(s: Store<T, C, D>, at: int): set<string> {
    set ws | ws in s.strongUntil && at >= s.strongUntil[ws]
  }

  function OnSweep<T, C, D>(s: Store<T, C, D>, at: int): Store<T, C, D> {
    s.(strongUntil := s.strongUntil - ExpiredMarkers(s, at))
  }

  /** The search half of a lookup: the cache search with both hooks. */
  function Searched<T, C, D>(s: Store<T, C, D>, ws: string, at: int, every: int): Store<T, C, D> {
    var found := TtlCache.Find(s.cache, ws, at, every).0;
    var s1 := OnEvict(s.(cache := found), s.cache.entries.Keys - found.entries.Keys);
    if TtlCache.SweepDue(s.cache, at, every) then OnSweep(s1, at) else s1
  }

  /** The under-lock hook of a missed lookup. */
  function MarkerRead<T, C, D>(s: Store<T, C, D>, ws: string, at: int): (Store<T, C, D>, bool) {
    if ws !in s.strongUntil then (s, false)
    else if at < s.strongUntil[ws] then (s, true)
    else (s.(strongUntil := s.strongUntil - {ws}), false)
  }

  function LookUpIn<T, C, D>(s: Store<T, C, D>, ws: string, at: int, every: int, call: C)
    : (Store<T, C, D>, Answer<T, C>)
    requires KeysOnly(s)
  {
    var s1 := Searched(s, ws, at, every);
    var answer := TtlCache.Find(s.cache, ws, at, every).1;
    match answer
    case Hit(result) => (s1, CachedKey(result.apiKey, result.token))
    case Running(running) => (MarkerRead(s1, ws, at).0, WaitFor(running))
    case Missing(ticket) =>
      var (s2, strong) := MarkerRead(s1, ws, at);
      (s2.(cache := TtlCache.Claim(s2.cache, ws, call)), OwnFill(call, ticket, strong))
  }

  /** Only found keys are cached. */
  ghost predicate KeysOnly<T, C, D>(s: Store<T, C, D>) {
    forall ws :: ws in s.cache.entries ==> s.cache.entries[ws].result.Found?
  }

  function FinishIn<T, C(==), D>(s: Store<T, C, D>, ws: string, call: C, result: Lookup<T>, ttl: int, at: int,
                                 ticket: nat): Store<T, C, D> {
    var s1 := s.(cache := TtlCache.Finish(s.cache, ws, call, result, ttl, at, ticket));
    if TtlCache.MayCache(s.cache, ws, ttl, ticket) && ws in s.cache.entries then OnEvict(s1, {ws}) else s1
  }

  function InvalidatedIn<T, C, D>(s: Store<T, C, D>, ws: string): Store<T, C, D> {
    OnEvict(s.(cache := TtlCache.Invalidate(s.cache, ws)), s.cache.entries.Keys * {ws})
  }

  function RevokeIn<T, C, D>(s: Store<T, C, D>, ws: string, strongUntil: int): Store<T, C, D> {
    var s1 := InvalidatedIn(s, ws);
    s1.(strongUntil := s1.strongUntil[ws := strongUntil])
  }

  predicate HoldsIn<T(==), C, D>(s: Store<T, C, D>, ws: string, token: T) {
    TtlCache.Accepts(s.cache, ws, (r: Lookup<T>) => r.Found? && r.token == token)
  }

  function RevokeIfIn<T(==), C, D>(s: Store<T, C, D>, ws: string, token: T, strongUntil: int): Store<T, C, D> {
    if HoldsIn(s, ws, token) then RevokeIn(s, ws, strongUntil) else s
  }

  function SeedIn<T, C, D>(s: Store<T, C, D>, ws: string, apiKey: string, token: T, ttl: int, at: int): Store<T, C, D> {
    var s1 := OnEvict(s.(cache := TtlCache.Seed(s.cache, ws, Found(apiKey, token), ttl, at)),
                      s.cache.entries.Keys * {ws});
    s1.(strongUntil := s1.strongUntil - {ws})
  }

  function StartCheckIn<T(==), C, D>(s: Store<T, C, D>, ws: string, token: T, call: D)
    : (Store<T, C, D>, CheckStart<D>)
  {
    if ws in s.checking && s.checking[ws].token == token then (s, Join(s.checking[ws].call))
    else (s.(checking := s.checking[ws := Check(call, token)]), OwnCheck(call))
  }

  function EndCheckIn<T, C, D(==)>(s: Store<T, C, D>, ws: string, call: D): Store<T, C, D> {
    if ws in s.checking && s.checking[ws].call == call then s.(checking := s.checking - {ws}) else s
  }

  // ------------------------------------------------- one workspace at a time

  /** What a sweep or an eviction elsewhere may do to a cell. */
  ghost predicate Untouched<T, C, D>(before: Cell<T, C, D>, after: Cell<T, C, D>, at: int) {
    after == before || after == Swept(before, at)
  }

  lemma SearchOwn<T, C, D>(s: Store<T, C, D>, ws: string, at: int, every: int)
    requires KeysOnly(s)
    ensures var c := CellOf(s, ws);
            var c1 := if TtlCache.SweepDue(s.cache, at, every) then Swept(c, at) else c;
            CellOf(Searched(s, ws, at, every), ws) == if Live(c1, at) then c1 else Evicted(c1)
    ensures var answer := TtlCache.Find(s.cache, ws, at, every).1;
            if Live(CellOf(s, ws), at) then answer == TtlCache.Hit(CellOf(s, ws).entry.value.result)
            else if CellOf(s, ws).running.Some? then answer == TtlCache.Running(CellOf(s, ws).running.value)
            else answer == TtlCache.Missing(CellOf(s, ws).generation)
  {
  }

  /** Main result: a lookup acts on its own workspace exactly as the cell does. */
  lemma LookUpOwn<T, C, D>(s: Store<T, C, D>, ws: string, at: int, every: int, call: C)
    requires KeysOnly(s)
    ensures var (s1, answer) := LookUpIn(s, ws, at, every, call);
            (CellOf(s1, ws), answer) == LookUp(CellOf(s, ws), at, TtlCache.SweepDue(s.cache, at, every), call)
  {
    SearchOwn(s, ws, at, every);
  }

  lemma SearchElsewhere<T, C, D>(s: Store<T, C, D>, ws: string, other: string, at: int, every: int)
    requires ws != other
    ensures var c := CellOf(s, other);
            CellOf(Searched(s, ws, at, every), other)
            == if TtlCache.SweepDue(s.cache, at, every) then Swept(c, at) else c
  {
  }

  lemma LookUpElsewhere<T, C, D>(s: Store<T, C, D>, ws: string, other: string, at: int, every: int, call: C)
    requires KeysOnly(s) && ws != other
    ensures Untouched(CellOf(s, other), CellOf(LookUpIn(s, ws, at, every, call).0, other), at)
  {
    hide Searched, Swept;
    SearchElsewhere(s, ws, other, at, every);
  }

  lemma FinishActs<T, C, D>(s: Store<T, C, D>, ws: string, other: string, call: C, result: Lookup<T>, ttl: int, at: int,
                            ticket: nat)
    requires ws != other
    ensures CellOf(FinishIn(s, ws, call, result, ttl, at, ticket), ws)
            == FinishFill(CellOf(s, ws), call, result, ttl, at, ticket)
    ensures CellOf(FinishIn(s, ws, call, result, ttl, at, ticket), other) == CellOf(s, other)
  {
  }

  lemma RevokeActs<T, C, D>(s: Store<T, C, D>, ws: string, other: string, strongUntil: int)
    requires ws != other
    ensures CellOf(RevokeIn(s, ws, strongUntil), ws) == Revoke(CellOf(s, ws), strongUntil)
    ensures CellOf(RevokeIn(s, ws, strongUntil), other) == CellOf(s, other)
  {
  }

  lemma RevokeIfActs<T, C, D>(s: Store<T, C, D>, ws: string, other: string, token: T, strongUntil: int)
    requires ws != other
    ensures HoldsIn(s, ws, token) <==> Holds(CellOf(s, ws), token)
    ensures CellOf(RevokeIfIn(s, ws, token, strongUntil), ws) == RevokeIf(CellOf(s, ws), token, strongUntil)
    ensures CellOf(RevokeIfIn(s, ws, token, strongUntil), other) == CellOf(s, other)
  {
    RevokeActs(s, ws, other, strongUntil);
  }

  lemma SeedActs<T, C, D>(s: Store<T, C, D>, ws: string, other: string, apiKey: string, token: T, ttl: int, at: int)
    requires ws != other
    ensures CellOf(SeedIn(s, ws, apiKey, token, ttl, at), ws) == SeedKey(CellOf(s, ws), apiKey, token, ttl, at)
    ensures CellOf(SeedIn(s, ws, apiKey, token, ttl, at), other) == CellOf(s, other)
  {
  }

  lemma CheckActs<T, C, D>(s: Store<T, C, D>, ws: string, other: string, token: T, call: D)
    requires ws != other
    ensures var (s1, start) := StartCheckIn(s, ws, token, call);
            (CellOf(s1, ws), start) == StartCheck(CellOf(s, ws), token, call) && CellOf(s1, other) == CellOf(s, other)
    ensures CellOf(EndCheckIn(s, ws, call), ws) == EndCheck(CellOf(s, ws), call)
    ensures CellOf(EndCheckIn(s, ws, call), other) == CellOf(s, other)
  {
  }
}
