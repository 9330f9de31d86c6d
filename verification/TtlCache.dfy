/** The keyed TTL cache with per-key singleflight fills and generation-guarded
    invalidation, as pure functions on its three maps and its sweep clock.

    `R` is the cached result and `C` the identity of an in-flight call: a
    reference in the class below, a number in the transition systems. Times are
    integers and 0 is the zero time, which the sweep clock holds until the first
    sweep. Every function is one critical section of the cache mutex. */
module TtlCache {

  const ZERO_TIME := 0

  datatype Entry<R> = Entry(result: R, expiresAt: int)

  datatype State<R, C> = State(
    entries: map<string, Entry<R>>,
    inFlight: map<string, C>,
    generation: map<string, nat>,
    lastSweep: int)

  /** What a lookup found under the lock: a fresh entry, a running fill, or
      neither, in which case the caller must own a fill at `generation`. */
  datatype Found<R, C> = Hit(result: R) | Running(call: C) | Missing(generation: nat)

  /** What a lookup tells its caller. */
  datatype Start<R, C> = Cached(result: R) | Wait(call: C) | Own(call: C, generation: nat)

  function Empty<R, C>(): State<R, C> {
    State(map[], map[], map[], ZERO_TIME)
  }

  /** A missing counter reads as zero. */
  function Gen(generation: map<string, nat>, key: string): nat {
    if key in generation then generation[key] else 0
  }

  predicate Fresh<R>(e: Entry<R>, at: int) {
    at < e.expiresAt
  }

  function ExpiredKeys<R, C>(s: State<R, C>, at: int): set<string> {
    set k | k in s.entries && !Fresh(s.entries[k], at)
  }

  predicate SweepDue<R, C>(s: State<R, C>, at: int, every: int) {
    !(every > 0 && s.lastSweep != ZERO_TIME && at - s.lastSweep < every)
  }

  function SweepExpired<R, C>(s: State<R, C>, at: int, every: int): State<R, C> {
    if SweepDue(s, at, every)
    then s.(entries := s.entries - ExpiredKeys(s, at), lastSweep := at)
    else s
  }

  function Evict<R, C>(s: State<R, C>, key: string): State<R, C> {
    s.(entries := s.entries - {key})
  }

  function Store<R, C>(s: State<R, C>, key: string, result: R, expiresAt: int): State<R, C> {
    s.(entries := s.entries[key := Entry(result, expiresAt)])
  }

  /** Detaches whatever fill is running and advances the generation. */
  function Detach<R, C>(s: State<R, C>, key: string): State<R, C> {
    s.(inFlight := s.inFlight - {key}, generation := s.generation[key := Gen(s.generation, key) + 1])
  }

  function Find<R, C>(s: State<R, C>, key: string, at: int, every: int): (State<R, C>, Found<R, C>) {
    var swept := SweepExpired(s, at, every);
    if key in swept.entries && Fresh(swept.entries[key], at) then
      (swept, Hit(swept.entries[key].result))
    else
      var missed := Evict(swept, key);
      (missed, if key in missed.inFlight then Running(missed.inFlight[key]) else Missing(Gen(missed.generation, key)))
  }

  function Claim<R, C>(s: State<R, C>, key: string, call: C): State<R, C> {
    s.(inFlight := s.inFlight[key := call])
  }

  /** `GetOrStart` with `call` as the identity of the fill it may start. */
  function GetOrStart<R, C>(s: State<R, C>, key: string, at: int, every: int, call: C): (State<R, C>, Start<R, C>) {
    var (found, answer) := Find(s, key, at, every);
    match answer
    case Hit(result) => (found, Cached(result))
    case Running(running) => (found, Wait(running))
    case Missing(generation) => (Claim(found, key, call), Own(call, generation))
  }

  predicate MayCache<R, C>(s: State<R, C>, key: string, ttl: int, generation: nat) {
    ttl > 0 && Gen(s.generation, key) == generation
  }

  function Finish<R, C(==)>(s: State<R, C>, key: string, call: C, result: R, ttl: int, at: int,
                            generation: nat): State<R, C> {
    var stored := if MayCache(s, key, ttl, generation) then Store(s, key, result, at + ttl) else s;
    if key in s.inFlight && s.inFlight[key] == call
    then stored.(inFlight := stored.inFlight - {key})
    else stored
  }

  function Invalidate<R, C>(s: State<R, C>, key: string): State<R, C> {
    Detach(Evict(s, key), key)
  }

  predicate Accepts<R, C>(s: State<R, C>, key: string, accept: R -> bool) {
    key in s.entries && accept(s.entries[key].result)
  }

  function InvalidateIf<R, C>(s: State<R, C>, key: string, accept: R -> bool): State<R, C> {
    if Accepts(s, key, accept) then Invalidate(s, key) else s
  }

  function Seed<R, C>(s: State<R, C>, key: string, result: R, ttl: int, at: int): State<R, C> {
    var cleared := Invalidate(s, key);
    if ttl > 0 then Store(cleared, key, result, at + ttl) else cleared
  }
}

/** The cache as the object the program shares: fields reassigned under one
    mutex. Each method is one critical section and is proved against the pure
    function of the same name.

    The two hooks run under the mutex and touch only state beside the cache, so
    a method returns the keys its eviction hook ran for, and whether its sweep
    hook ran, and the owner of that state applies them. */
module TtlCacheObject {
  import Spec = TtlCache
  import opened Wrappers

  /** One in-flight fill. `result` is published when `done` closes. */
  class Call<R> {
    var done: bool
    var result: Option<R>

    constructor ()
      ensures !done && result == None
    {
      done, result := false, None;
    }
  }

  class Cache<R> {
    var entries: map<string, Spec.Entry<R>>
    var inFlight: map<string, Call<R>>
    var generation: map<string, nat>
    var lastSweep: int
    const sweepEvery: int

    ghost function View(): Spec.State<R, Call<R>>
      reads this
    {
      Spec.State(entries, inFlight, generation, lastSweep)
    }

    constructor (sweepEvery: int)
      ensures View() == Spec.Empty() && this.sweepEvery == sweepEvery
    {
      entries, inFlight, generation, lastSweep := map[], map[], map[], Spec.ZERO_TIME;
      this.sweepEvery := sweepEvery;
    }

    method GetOrStart(key: string, at: int)
      returns (start: Spec.Start<R, Call<R>>, evicted: set<string>, swept: bool)
      modifies this
      ensures var (found, answer) := Spec.Find(old(View()), key, at, sweepEvery);
              match answer
              case Hit(result) => start == Spec.Cached(result) && View() == found
              case Running(call) => start == Spec.Wait(call) && View() == found
              case Missing(g) => start.Own? && start.generation == g && fresh(start.call) && !start.call.done
                                 && View() == Spec.Claim(found, key, start.call)
      ensures swept <==> Spec.SweepDue(old(View()), at, sweepEvery)
      ensures evicted == old(entries).Keys - entries.Keys
    {
      evicted, swept := SweepExpired(at);
      if key in entries {
        if at < entries[key].expiresAt {
          return Spec.Cached(entries[key].result), evicted, swept;
        }
        EvictKey(key);
        evicted := evicted + {key};
      }
      assert View() == Spec.Evict(Spec.SweepExpired(old(View()), at, sweepEvery), key);
      if key in inFlight {
        return Spec.Wait(inFlight[key]), evicted, swept;
      }
      var call := new Call();
      inFlight := inFlight[key := call];
      start := Spec.Own(call, if key in generation then generation[key] else 0);
    }

    /** The caller closes a call once. */
    method Finish(key: string, call: Call<R>, result: R, ttl: int, at: int, ticket: nat)
      returns (cached: bool, evicted: set<string>)
      requires !call.done
      modifies this, call
      ensures View() == Spec.Finish(old(View()), key, call, result, ttl, at, ticket)
      ensures cached <==> Spec.MayCache(old(View()), key, ttl, ticket)
      ensures evicted == if cached && key in old(entries) then {key} else {}
      ensures call.done && call.result == Some(result)
    {
      cached, evicted := false, {};
      if ttl > 0 && (if key in generation then generation[key] else 0) == ticket {
        evicted := StoreLocked(key, result, at + ttl);
        cached := true;
      }
      call.result := Some(result);
      if key in inFlight && inFlight[key] == call {
        inFlight := inFlight - {key};
      }
      call.done := true;
    }

    method Invalidate(key: string) returns (evicted: set<string>)
      modifies this
      ensures View() == Spec.Invalidate(old(View()), key)
      ensures evicted == old(entries).Keys * {key}
    {
      evicted := {};
      if key in entries {
        EvictKey(key);
        evicted := {key};
      }
      inFlight := inFlight - {key};
      generation := generation[key := (if key in generation then generation[key] else 0) + 1];
      assert entries == old(entries) - {key};
    }

    method InvalidateIf(key: string, accept: R -> bool) returns (accepted: bool, evicted: set<string>)
      modifies this
      ensures View() == Spec.InvalidateIf(old(View()), key, accept)
      ensures accepted <==> Spec.Accepts(old(View()), key, accept)
      ensures evicted == if accepted then {key} else {}
    {
      if key !in entries || !accept(entries[key].result) {
        return false, {};
      }
      evicted := Invalidate(key);
      accepted := true;
    }

    method CachedResultMatches(key: string, accept: R -> bool) returns (matches: bool)
      ensures matches <==> Spec.Accepts(View(), key, accept)
    {
      matches := key in entries && accept(entries[key].result);
    }

    method Seed(key: string, result: R, ttl: int, at: int) returns (evicted: set<string>)
      modifies this
      ensures View() == Spec.Seed(old(View()), key, result, ttl, at)
      ensures evicted == old(entries).Keys * {key}
    {
      evicted := Invalidate(key);
      if ttl > 0 {
        var again := StoreLocked(key, result, at + ttl);
        assert again == {};
      }
    }

    /** The sweep visits every entry and deletes the expired ones one by one. */
    method SweepExpired(at: int) returns (evicted: set<string>, swept: bool)
      modifies this`entries, this`lastSweep
      ensures View() == Spec.SweepExpired(old(View()), at, sweepEvery)
      ensures swept <==> Spec.SweepDue(old(View()), at, sweepEvery)
      ensures evicted == if swept then Spec.ExpiredKeys(old(View()), at) else {}
    {
      if sweepEvery > 0 && lastSweep != Spec.ZERO_TIME && at - lastSweep < sweepEvery {
        return {}, false;
      }
      evicted := {};
      var keys := entries.Keys;
      while keys != {}
        invariant keys <= entries.Keys
        invariant entries == old(entries) - evicted
        invariant evicted == set k | k in old(entries) && k !in keys && !Spec.Fresh(old(entries)[k], at)
        decreases keys
      {
        var key :| key in keys;
        if at >= entries[key].expiresAt {
          EvictKey(key);
          evicted := evicted + {key};
        }
        keys := keys - {key};
      }
      swept := true;
      lastSweep := at;
    }

    method StoreLocked(key: string, result: R, expiresAt: int) returns (evicted: set<string>)
      modifies this`entries
      ensures View() == Spec.Store(old(View()), key, result, expiresAt)
      ensures evicted == old(entries).Keys * {key}
    {
      evicted := {};
      if key in entries {
        EvictKey(key);
        evicted := {key};
      }
      entries := entries[key := Spec.Entry(result, expiresAt)];
    }

    method EvictKey(key: string)
      requires key in entries
      modifies this`entries
      ensures View() == Spec.Evict(old(View()), key)
    {
      entries := entries - {key};
    }
  }
}
