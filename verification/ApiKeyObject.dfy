/** The provider as the object the program shares. Each method is one critical
    section, proved against the pure function on the whole store. */
module ApiKeyObject {
  import opened Wrappers
  import opened ApiKeyCell
  import Spec = ApiKeyStore
  import TtlCache
  import opened TtlCacheObject

  /** Seconds. */
  const API_KEY_CACHE_TTL := 300
  const API_KEY_CACHE_SWEEP_EVERY := 60

  /** The encrypted key material exactly as the row stores it. */
  datatype Token = Token(ciphertext: string, wrappedKey: string)

  /** Unicode white space, as `strings.TrimSpace` removes it. */
  predicate IsSpace(c: char) {
    || c == ' ' || '\t' <= c <= '\r' || c == '\U{0085}' || c == '\U{00A0}' || c == '\U{1680}'
    || '\U{2000}' <= c <= '\U{200A}' || c == '\U{2028}' || c == '\U{2029}' || c == '\U{202F}'
    || c == '\U{205F}' || c == '\U{3000}'
  }

  /** A workspace ID that is only white space is never invalidated or seeded. */
  predicate Blank(ws: string) {
    forall c :: c in ws ==> IsSpace(c)
  }

  /** The characters with the Unicode property White_Space. */
  const WHITE_SPACE: set<char> :=
    {'\U{0009}', '\U{000A}', '\U{000B}', '\U{000C}', '\U{000D}', '\U{0020}', '\U{0085}', '\U{00A0}', '\U{1680}',
     '\U{2000}', '\U{2001}', '\U{2002}', '\U{2003}', '\U{2004}', '\U{2005}', '\U{2006}', '\U{2007}', '\U{2008}',
     '\U{2009}', '\U{200A}', '\U{2028}', '\U{2029}', '\U{202F}', '\U{205F}', '\U{3000}'}

  lemma SpacesAre(c: char)
    ensures IsSpace(c) <==> c in WHITE_SPACE
  {
  }

  /** Something is left of a workspace ID without its white space. */
  ghost predicate Named(ws: string) {
    exists i :: 0 <= i < |ws| && ws[i] !in WHITE_SPACE
  }

  /** Only a workspace ID of white space is skipped; any letter, digit or mark is
      enough to name a workspace. */
  lemma BlankMeans(ws: string)
    ensures Blank(ws) <==> !Named(ws)
    ensures (exists i :: 0 <= i < |ws| && '!' <= ws[i] <= '~') ==> Named(ws)
    ensures (forall i :: 0 <= i < |ws| ==> ws[i] == ' ' || ws[i] == '\t') ==> !Named(ws)
  {
    forall c: char
      ensures IsSpace(c) <==> c in WHITE_SPACE
    {
      SpacesAre(c);
    }
    hide IsSpace;
    if !Blank(ws) {
      var c :| c in ws && !IsSpace(c);
      var i :| 0 <= i < |ws| && ws[i] == c;
      assert ws[i] !in WHITE_SPACE;
    }
    if i :| 0 <= i < |ws| && ws[i] !in WHITE_SPACE {
      assert ws[i] in ws;
    }
    if i :| 0 <= i < |ws| && '!' <= ws[i] <= '~' {
      assert ws[i] !in WHITE_SPACE;
    }
  }

  class ValidationCall {
    const token: Token
    var done: bool
    var current: bool
    var failure: Option<Failure>

    constructor (token: Token)
      ensures this.token == token && !done && !current && failure == None
    {
      this.token := token;
      done, current, failure := false, false, None;
    }
  }

  class DDBProvider {
    const cache: Cache<Lookup<Token>>
    var strongReadUntil: map<string, int>
    var validationCalls: map<string, Check<Token, ValidationCall>>

    ghost function View(): Spec.Store<Token, Call<Lookup<Token>>, ValidationCall>
      reads this, cache
    {
      Spec.Store(cache.View(), strongReadUntil, validationCalls)
    }

    /** Only found keys are cached, and the sweep runs once a minute. */
    ghost predicate Valid()
      reads this, cache
    {
      Spec.KeysOnly(View()) && cache.sweepEvery == 60
    }

    constructor ()
      ensures Valid() && fresh(cache)
      ensures forall ws :: Spec.CellOf(View(), ws) == EmptyCell()
    {
      cache := new Cache(API_KEY_CACHE_SWEEP_EVERY);
      strongReadUntil, validationCalls := map[], map[];
    }

    method OnSweep(at: int)
      modifies this`strongReadUntil
      ensures View() == Spec.OnSweep(old(View()), at)
    {
      var markers := strongReadUntil.Keys;
      ghost var dropped := {};
      while markers != {}
        invariant markers <= strongReadUntil.Keys
        invariant strongReadUntil == old(strongReadUntil) - dropped
        invariant dropped == set ws | ws in old(strongReadUntil) && ws !in markers && at >= old(strongReadUntil)[ws]
        decreases markers
      {
        var ws :| ws in markers;
        if at >= strongReadUntil[ws] {
          strongReadUntil := strongReadUntil - {ws};
          dropped := dropped + {ws};
        }
        markers := markers - {ws};
      }
    }

    method OnEvict(evicted: set<string>)
      modifies this`validationCalls
      ensures View() == Spec.OnEvict(old(View()), evicted)
    {
      validationCalls := validationCalls - evicted;
    }

    method GetOrStartLookup(ws: string, now: int) returns (answer: Answer<Token, Call<Lookup<Token>>>)
      requires Valid()
      modifies this, cache
      ensures Valid()
      ensures answer.OwnFill? ==>
                fresh(answer.call) && !answer.call.done
                && (View(), answer) == Spec.LookUpIn(old(View()), ws, now, API_KEY_CACHE_SWEEP_EVERY, answer.call)
      ensures answer.WaitFor? ==>
                (View(), answer) == Spec.LookUpIn(old(View()), ws, now, API_KEY_CACHE_SWEEP_EVERY, answer.call)
      ensures answer.CachedKey? ==>
                View() == Spec.Searched(old(View()), ws, now, API_KEY_CACHE_SWEEP_EVERY)
                && TtlCache.Find(old(View()).cache, ws, now, API_KEY_CACHE_SWEEP_EVERY).1
                   == TtlCache.Hit(Found(answer.apiKey, answer.token))
    {
      var start, evicted, swept := cache.GetOrStart(ws, now);
      OnEvict(evicted);
      if swept {
        OnSweep(now);
      }
      if start.Cached? {
        return CachedKey(start.result.apiKey, start.result.token);
      }
      var strong := false;
      if ws in strongReadUntil {
        if now < strongReadUntil[ws] {
          strong := true;
        } else {
          strongReadUntil := strongReadUntil - {ws};
        }
      }
      if start.Wait? {
        return WaitFor(start.call);
      }
      answer := OwnFill(start.call, start.generation, strong);
    }

    /** A fill is cached for the full time when it found a key, and not at all
        when it failed. */
    method FinishLookup(ws: string, call: Call<Lookup<Token>>, result: Lookup<Token>, now: int, ticket: nat)
      requires Valid() && !call.done
      modifies this, cache, call
      ensures Valid()
      ensures View() == Spec.FinishIn(old(View()), ws, call, result,
                                      if result.Found? then API_KEY_CACHE_TTL else 0, now, ticket)
      ensures call.done && call.result == Some(result)
    {
      var ttl := if result.Found? then API_KEY_CACHE_TTL else 0;
      var cached, evicted := cache.Finish(ws, call, result, ttl, now, ticket);
      OnEvict(evicted);
      assert validationCalls == old(validationCalls) - evicted;
      if evicted == {} {
        assert validationCalls == old(validationCalls);
      }
    }

    method Invalidate(ws: string, strongUntil: int)
      requires Valid()
      modifies this, cache
      ensures Valid()
      ensures View() == if Blank(ws) then old(View()) else Spec.RevokeIn(old(View()), ws, strongUntil)
      ensures Named(ws) ==>
                && ws !in cache.entries && ws !in cache.inFlight
                && TtlCache.Gen(cache.generation, ws) == TtlCache.Gen(old(cache.generation), ws) + 1
                && ws in strongReadUntil && strongReadUntil[ws] == strongUntil
      ensures !Named(ws) ==> View() == old(View())
    {
      BlankMeans(ws);
      hide Blank, Named;
      if Blank(ws) {
        return;
      }
      var evicted := cache.Invalidate(ws);
      OnEvict(evicted);
      strongReadUntil := strongReadUntil[ws := strongUntil];
    }

    method EvictIfToken(ws: string, token: Token, strongUntil: int)
      requires Valid()
      modifies this, cache
      ensures Valid()
      ensures View() == if Blank(ws) then old(View()) else Spec.RevokeIfIn(old(View()), ws, token, strongUntil)
      ensures Named(ws) && old(Spec.HoldsIn(View(), ws, token)) ==>
                && ws !in cache.entries && ws !in cache.inFlight
                && TtlCache.Gen(cache.generation, ws) == TtlCache.Gen(old(cache.generation), ws) + 1
                && ws in strongReadUntil && strongReadUntil[ws] == strongUntil
      ensures !Named(ws) || !old(Spec.HoldsIn(View(), ws, token)) ==> View() == old(View())
    {
      BlankMeans(ws);
      hide Blank, Named;
      if Blank(ws) {
        return;
      }
      var accepted, evicted := cache.InvalidateIf(ws, (r: Lookup<Token>) => r.Found? && r.token == token);
      if accepted {
        OnEvict(evicted);
        strongReadUntil := strongReadUntil[ws := strongUntil];
        assert evicted == old(View()).cache.entries.Keys * {ws};
      }
    }

    method CachedKeyStillLocal(ws: string, token: Token) returns (local: bool)
      ensures local <==> Spec.HoldsIn(View(), ws, token)
    {
      local := cache.CachedResultMatches(ws, (r: Lookup<Token>) => r.Found? && r.token == token);
    }

    method Seed(ws: string, apiKey: string, token: Token, now: int)
      requires Valid()
      modifies this, cache
      ensures Valid()
      ensures View() == if Blank(ws) then old(View())
                        else Spec.SeedIn(old(View()), ws, apiKey, token, API_KEY_CACHE_TTL, now)
      ensures Named(ws) ==>
                && ws in cache.entries && cache.entries[ws] == TtlCache.Entry(Found(apiKey, token), now + 300)
                && ws !in cache.inFlight && ws !in strongReadUntil
                && TtlCache.Gen(cache.generation, ws) == TtlCache.Gen(old(cache.generation), ws) + 1
      ensures !Named(ws) ==> View() == old(View())
    {
      BlankMeans(ws);
      hide Blank, Named;
      if Blank(ws) {
        return;
      }
      var evicted := cache.Seed(ws, Found(apiKey, token), API_KEY_CACHE_TTL, now);
      OnEvict(evicted);
      strongReadUntil := strongReadUntil - {ws};
    }

    method GetOrStartValidation(ws: string, token: Token) returns (call: ValidationCall, owner: bool)
      modifies this
      ensures owner ==> fresh(call) && !call.done && call.token == token
      ensures (View(), if owner then OwnCheck(call) else Join(call)) == Spec.StartCheckIn(old(View()), ws, token, call)
    {
      if ws in validationCalls && validationCalls[ws].token == token {
        return validationCalls[ws].call, false;
      }
      call := new ValidationCall(token);
      validationCalls := validationCalls[ws := Check(call, token)];
      owner := true;
    }

    method FinishValidation(ws: string, call: ValidationCall, current: bool, failure: Option<Failure>)
      requires !call.done
      modifies this, call
      ensures View() == Spec.EndCheckIn(old(View()), ws, call)
      ensures call.done && call.current == current && call.failure == failure
    {
      call.current, call.failure := current, failure;
      if ws in validationCalls && validationCalls[ws].call == call {
        validationCalls := validationCalls - {ws};
      }
      call.done := true;
    }
  }
}
