/** Log redaction: a depth-capped rewrite of a value, and a separate scan that says
    whether the rewrite would change anything. */
module LogRedaction {
  import opened Wrappers

  const MAX_REDACTION_DEPTH := 5
  const REDACTED := "[REDACTED]"

  // --------------------------------------------------------------------- keys

  function LowerChar(c: char): char {
    if 'A' <= c <= 'Z' then ((c as int) + 32) as char else c
  }

  function ToLower(s: string): string {
    seq(|s|, i requires 0 <= i < |s| => LowerChar(s[i]))
  }

  predicate OccursAt(s: string, part: string, i: nat) {
    i + |part| <= |s| && s[i..i + |part|] == part
  }

  predicate Contains(s: string, part: string) {
    exists i :: 0 <= i <= |s| && OccursAt(s, part, i)
  }

  const SUBSTRINGS := ["token", "secret", "password", "authorization", "apikey", "api_key", "qurllink", "qurl_link"]
  const LINK_SUBSTRINGS := ["qurllink", "qurl_link"]
  const EXACT_KEYS := {"hash", "md5", "sha1", "sha256", "sha512", "digest", "checksum", "content_hash", "body_hash",
                       "private_key"}

  predicate ShouldRedactKey(key: string) {
    var k := ToLower(key);
    k in EXACT_KEYS || exists part :: part in SUBSTRINGS && Contains(k, part)
  }

  predicate LinkKey(key: string) {
    exists part :: part in LINK_SUBSTRINGS && Contains(ToLower(key), part)
  }

  /** The same letter, in either case of the Latin alphabet. */
  predicate SameLetter(c: char, small: char) {
    c == small || ('a' <= small <= 'z' && c as int + 32 == small as int)
  }

  predicate AnyCase(s: string, word: string) {
    |s| == |word| && forall i :: 0 <= i < |s| ==> SameLetter(s[i], word[i])
  }

  predicate Small(word: string) {
    forall i :: 0 <= i < |word| ==> !('A' <= word[i] <= 'Z')
  }

  lemma LowerIs(s: string, word: string)
    requires Small(word)
    ensures ToLower(s) == word <==> AnyCase(s, word)
  {
    if ToLower(s) == word {
      forall i | 0 <= i < |s|
        ensures SameLetter(s[i], word[i])
      {
        assert LowerChar(s[i]) == word[i];
      }
    }
    if AnyCase(s, word) {
      forall i | 0 <= i < |s|
        ensures LowerChar(s[i]) == word[i]
      {
        assert SameLetter(s[i], word[i]);
      }
    }
  }

  lemma LowerPart(s: string, i: nat, n: nat)
    requires i + n <= |s|
    ensures ToLower(s)[i..i + n] == ToLower(s[i..i + n])
  {
  }

  ghost predicate HoldsAt(key: string, word: string, i: nat) {
    i + |word| <= |key| && AnyCase(key[i..i + |word|], word)
  }

  /** Some part of the key is this word, in any case. */
  ghost predicate Holds(key: string, word: string) {
    exists i: nat :: HoldsAt(key, word, i)
  }

  lemma ContainsIs(key: string, word: string)
    requires Small(word)
    ensures Contains(ToLower(key), word) <==> Holds(key, word)
  {
    hide AnyCase;
    if i :| 0 <= i <= |key| && OccursAt(ToLower(key), word, i) {
      LowerPart(key, i, |word|);
      LowerIs(key[i..i + |word|], word);
      assert HoldsAt(key, word, i);
    }
    if i: nat :| HoldsAt(key, word, i) {
      LowerPart(key, i, |word|);
      LowerIs(key[i..i + |word|], word);
      assert OccursAt(ToLower(key), word, i);
    }
  }

  /** The words that a secret's key holds. */
  ghost predicate SecretWord(key: string) {
    || Holds(key, "token") || Holds(key, "secret") || Holds(key, "password") || Holds(key, "authorization")
    || Holds(key, "apikey") || Holds(key, "api_key")
  }

  ghost predicate LinkWord(key: string) {
    Holds(key, "qurllink") || Holds(key, "qurl_link")
  }

  /** The whole keys of a hash, and of a private key. */
  ghost predicate WholeKey(key: string) {
    || AnyCase(key, "hash") || AnyCase(key, "md5") || AnyCase(key, "sha1") || AnyCase(key, "sha256")
    || AnyCase(key, "sha512") || AnyCase(key, "digest") || AnyCase(key, "checksum") || AnyCase(key, "content_hash")
    || AnyCase(key, "body_hash") || AnyCase(key, "private_key")
  }

  lemma PartsAre(k: string)
    ensures (exists part :: part in SUBSTRINGS && Contains(k, part))
            <==> || Contains(k, "token") || Contains(k, "secret") || Contains(k, "password")
                 || Contains(k, "authorization") || Contains(k, "apikey") || Contains(k, "api_key")
                 || Contains(k, "qurllink") || Contains(k, "qurl_link")
    ensures (exists part :: part in LINK_SUBSTRINGS && Contains(k, part))
            <==> Contains(k, "qurllink") || Contains(k, "qurl_link")
  {
    hide Contains;
    assert SUBSTRINGS[0] == "token" && SUBSTRINGS[1] == "secret" && SUBSTRINGS[2] == "password"
           && SUBSTRINGS[3] == "authorization" && SUBSTRINGS[4] == "apikey" && SUBSTRINGS[5] == "api_key"
           && SUBSTRINGS[6] == "qurllink" && SUBSTRINGS[7] == "qurl_link";
    assert LINK_SUBSTRINGS[0] == "qurllink" && LINK_SUBSTRINGS[1] == "qurl_link";
  }

  lemma WholeKeysAre(key: string)
    ensures ToLower(key) in EXACT_KEYS <==> WholeKey(key)
  {
    hide AnyCase, ToLower;
    LowerIs(key, "hash");
    LowerIs(key, "md5");
    LowerIs(key, "sha1");
    LowerIs(key, "sha256");
    LowerIs(key, "sha512");
    LowerIs(key, "digest");
    LowerIs(key, "checksum");
    LowerIs(key, "content_hash");
    LowerIs(key, "body_hash");
    LowerIs(key, "private_key");
  }

  /** Main result: which keys are redacted, whatever their case: those that hold a word
      of a secret or of an access link, and the whole keys listed. */
  lemma KeysThatMatch(key: string)
    ensures ShouldRedactKey(key) <==> SecretWord(key) || LinkWord(key) || WholeKey(key)
    ensures LinkKey(key) <==> LinkWord(key)
  {
    hide Contains, Holds, AnyCase, ToLower, WholeKey;
    WholeKeysAre(key);
    PartsAre(ToLower(key));
    ContainsIs(key, "token");
    ContainsIs(key, "secret");
    ContainsIs(key, "password");
    ContainsIs(key, "authorization");
    ContainsIs(key, "apikey");
    ContainsIs(key, "api_key");
    ContainsIs(key, "qurllink");
    ContainsIs(key, "qurl_link");
  }

  lemma SomeSecrets()
    ensures ShouldRedactKey("Authorization") && ShouldRedactKey("X-API_KEY") && ShouldRedactKey("SHA256")
  {
    KeysThatMatch("Authorization");
    KeysThatMatch("X-API_KEY");
    KeysThatMatch("SHA256");
    hide ShouldRedactKey, LinkKey;
    assert "Authorization"[0..13] == "Authorization" && HoldsAt("Authorization", "authorization", 0);
    assert "X-API_KEY"[2..9] == "API_KEY" && HoldsAt("X-API_KEY", "api_key", 2);
    assert AnyCase("SHA256", "sha256");
  }

  lemma NotWhole(key: string)
    requires key != "" && key[0] in {'n', 'k', 'i', 'u'}
    ensures !WholeKey(key)
  {
    forall word | |word| > 0 && AnyCase(key, word)
      ensures SameLetter(key[0], word[0])
    {
    }
    hide AnyCase;
  }

  lemma TooShort(key: string)
    requires |key| <= 4
    ensures !SecretWord(key) && !LinkWord(key)
  {
    forall word | |word| > 4
      ensures !Holds(key, word)
    {
    }
    hide Holds;
  }

  /** An ordinary key is shorter than every word, and none of the listed keys. */
  lemma OrdinaryKeys(key: string)
    requires key in {"name", "key", "id", "url"}
    ensures !ShouldRedactKey(key) && !LinkKey(key)
  {
    NotWhole(key);
    TooShort(key);
    KeysThatMatch(key);
    hide ShouldRedactKey, LinkKey, WholeKey, SecretWord, LinkWord;
  }

  // ------------------------------------------------------------------- values

  /** What reflection sees of a value that marshals itself: a string or a byte
      sequence that is not empty, a struct or another container that is not empty,
      or none of these. */
  datatype Shape = FullString | FullBytes | FullContainer | OtherShape

  /** A logged value. A marshaler carries its decoded JSON, or None when it cannot be
      marshaled or decoded. A map whose keys are not strings is never walked. */
  datatype Value =
    | Null
    | Scalar(text: string)
    | Str(text: string)
    | Bytes(bytes: seq<bv8>)
    | Slice(elems: seq<Value>)
    | Map(fields: map<string, Value>)
    | OpaqueMap(size: nat)
    | Marshaler(shape: Shape, json: Option<Value>)

  predicate MatchedScalar(x: Value) {
    match x
    case Str(s) => s != ""
    case Bytes(b) => b != []
    case Marshaler(shape, json) =>
      shape.FullString? || shape.FullBytes? || (json.Some? && json.value.Str? && json.value.text != "")
    case _ => false
  }

  predicate Suppressible(x: Value) {
    match x
    case Bytes(b) => b != []
    case Slice(elems) => elems != []
    case Map(fields) => fields != map[]
    case OpaqueMap(size) => size > 0
    case Marshaler(shape, _) => shape.FullContainer? || shape.FullBytes?
    case _ => false
  }

  /** A field that is replaced as a whole. */
  predicate Hit(key: string, x: Value) {
    ShouldRedactKey(key) && (MatchedScalar(x) || (LinkKey(key) && Suppressible(x)))
  }

  // ------------------------------------------------------------ scan, rewrite

  predicate FieldNeeds(key: string, x: Value, depth: nat)
    decreases x, 1
  {
    Hit(key, x) || Needs(x, depth + 1)
  }

  predicate Needs(v: Value, depth: nat)
    decreases v, 0
  {
    if depth > MAX_REDACTION_DEPTH then false
    else
      match v
      case Marshaler(_, Some(json)) => Needs(json, depth)
      case Map(fields) => exists k :: k in fields && FieldNeeds(k, fields[k], depth)
      case Slice(elems) => exists i :: 0 <= i < |elems| && Needs(elems[i], depth + 1)
      case _ => false
  }

  function RedactField(key: string, x: Value, depth: nat): (Value, bool)
    decreases x, 2
  {
    if Hit(key, x) then (Str(REDACTED), true) else Redact(x, depth + 1)
  }

  function RedactedFields(fields: map<string, Value>, depth: nat): map<string, Value>
    decreases Map(fields), 0
  {
    map k | k in fields :: RedactField(k, fields[k], depth).0
  }

  function RedactedElems(elems: seq<Value>, depth: nat): seq<Value>
    decreases Slice(elems), 0
  {
    seq(|elems|, i requires 0 <= i < |elems| => Redact(elems[i], depth + 1).0)
  }

  function Redact(v: Value, depth: nat): (Value, bool)
    decreases v, 1
  {
    if depth > MAX_REDACTION_DEPTH then (v, false)
    else
      match v
      case Marshaler(_, Some(json)) =>
        var (r, changed) := Redact(json, depth);
        if changed then (r, true) else (v, false)
      case Map(fields) =>
        if !Needs(v, depth) then (v, false)
        else if exists k :: k in fields && RedactField(k, fields[k], depth).1 then
          (Map(RedactedFields(fields, depth)), true)
        else (v, false)
      case Slice(elems) =>
        if !Needs(v, depth) then (v, false)
        else if exists i :: 0 <= i < |elems| && Redact(elems[i], depth + 1).1 then
          (Slice(RedactedElems(elems, depth)), true)
        else (v, false)
      case _ => (v, false)
  }

  /** What becomes of each form of a value under a key that matches: text and bytes, also
      marshaled, are replaced, and empty ones, numbers and null stay. */
  lemma FormsReplaced(key: string, depth: nat)
    requires ShouldRedactKey(key)
    ensures forall s :: s != "" ==> RedactField(key, Str(s), depth) == (Str("[REDACTED]"), true)
    ensures forall b :: b != [] ==> RedactField(key, Bytes(b), depth) == (Str("[REDACTED]"), true)
    ensures forall json :: RedactField(key, Marshaler(FullString, json), depth) == (Str("[REDACTED]"), true)
    ensures forall json :: RedactField(key, Marshaler(FullBytes, json), depth) == (Str("[REDACTED]"), true)
    ensures forall shape, s ::
              s != "" ==> RedactField(key, Marshaler(shape, Some(Str(s))), depth) == (Str("[REDACTED]"), true)
    ensures forall x :: x in {Null, Str(""), Bytes([])} || x.Scalar? ==> RedactField(key, x, depth) == (x, false)
  {
  }

  /** And under the key of an access link, so is every container that is not empty; under
      any other key it is walked. */
  lemma ContainersReplaced(key: string, depth: nat, x: Value)
    requires ShouldRedactKey(key)
    requires || (x.Slice? && x.elems != []) || (x.Map? && x.fields != map[]) || (x.OpaqueMap? && x.size > 0)
             || (x.Marshaler? && x.shape == FullContainer && (x.json.Some? ==> !x.json.value.Str?))
    ensures RedactField(key, x, depth) == if LinkKey(key) then (Str("[REDACTED]"), true) else Redact(x, depth + 1)
  {
    hide Redact;
  }

  /** An empty container stays, under any key. */
  lemma EmptyContainersStay(key: string, depth: nat, x: Value)
    requires x in {Slice([]), Map(map[]), OpaqueMap(0)}
    ensures RedactField(key, x, depth) == (x, false)
  {
  }

  /** The field of a map down to the fifth level is replaced, and nothing below that. */
  lemma FiveLevels(key: string, x: Value, depth: nat)
    requires Hit(key, x)
    ensures Redact(Map(map[key := x]), depth)
            == if depth <= 5 then (Map(map[key := Str("[REDACTED]")]), true) else (Map(map[key := x]), false)
  {
    hide Hit;
    var fields := map[key := x];
    assert fields[key] == x;
    if depth <= 5 {
      assert FieldNeeds(key, fields[key], depth) && RedactField(key, fields[key], depth) == (Str(REDACTED), true);
      assert RedactedFields(fields, depth) == map[key := Str(REDACTED)];
    }
  }

  /** Main result: the scan and the rewrite agree, at every depth. */
  lemma {:induction false} ScanAgrees(v: Value, depth: nat)
    ensures Needs(v, depth) <==> Redact(v, depth).1
    ensures !Needs(v, depth) ==> Redact(v, depth).0 == v
    decreases v
  {
    match v
    case Marshaler(_, Some(json)) => ScanAgrees(json, depth);
    case Map(fields) =>
      forall k | k in fields
        ensures FieldNeeds(k, fields[k], depth) <==> RedactField(k, fields[k], depth).1
      {
        ScanAgrees(fields[k], depth + 1);
      }
    case Slice(elems) =>
      forall i | 0 <= i < |elems|
        ensures Needs(elems[i], depth + 1) <==> Redact(elems[i], depth + 1).1
      {
        ScanAgrees(elems[i], depth + 1);
      }
    case _ =>
  }

  // ---------------------------------------------------------------- positions

  datatype Step = Field(key: string) | Elem(index: nat)

  /** A marshaler stands for its JSON. */
  function Open(v: Value): Value {
    if v.Marshaler? && v.json.Some? then Open(v.json.value) else v
  }

  function Child(v: Value, step: Step): Option<Value> {
    var open := Open(v);
    match step
    case Field(k) => if open.Map? && k in open.fields then Some(open.fields[k]) else None
    case Elem(i) => if open.Slice? && i < |open.elems| then Some(open.elems[i]) else None
  }

  function Get(v: Value, path: seq<Step>): Option<Value>
    decreases |path|
  {
    if path == [] then Some(v)
    else
      var x := Child(v, path[0]);
      if x == None then None else Get(x.value, path[1..])
  }

  /** A node without what is below it. */
  datatype Outline = Keys(keys: set<string>) | Length(length: nat) | Leaf(leaf: Value)

  function OutlineOf(v: Value): Outline {
    match Open(v)
    case Map(fields) => Keys(fields.Keys)
    case Slice(elems) => Length(|elems|)
    case leaf => Leaf(leaf)
  }

  predicate Alike(a: Option<Value>, b: Option<Value>) {
    (a.Some? <==> b.Some?) && (a.Some? ==> OutlineOf(a.value) == OutlineOf(b.value))
  }

  /** The first step of a path that enters a field replaced as a whole, if it does so
      within the depth limit. */
  function Cut(v: Value, depth: nat, path: seq<Step>): (n: Option<nat>)
    ensures n.Some? ==> n.value < |path|
    decreases |path|
  {
    if path == [] || depth > MAX_REDACTION_DEPTH then None
    else
      var x := Child(v, path[0]);
      if x == None then None
      else if path[0].Field? && Hit(path[0].key, x.value) then Some(0)
      else
        var n := Cut(x.value, depth + 1, path[1..]);
        if n.Some? then Some(n.value + 1) else None
  }

  function RedactStep(step: Step, x: Value, depth: nat): Value {
    match step
    case Field(k) => RedactField(k, x, depth).0
    case Elem(_) => Redact(x, depth + 1).0
  }

  lemma Unchanged(v: Value, depth: nat)
    requires !Needs(v, depth) && depth <= MAX_REDACTION_DEPTH
    ensures v.Map? ==> forall k :: k in v.fields ==> RedactField(k, v.fields[k], depth).0 == v.fields[k]
    ensures v.Slice? ==> forall i :: 0 <= i < |v.elems| ==> Redact(v.elems[i], depth + 1).0 == v.elems[i]
  {
    if v.Map? {
      forall k | k in v.fields
        ensures RedactField(k, v.fields[k], depth).0 == v.fields[k]
      {
        assert !FieldNeeds(k, v.fields[k], depth);
        ScanAgrees(v.fields[k], depth + 1);
      }
    } else if v.Slice? {
      forall i | 0 <= i < |v.elems|
        ensures Redact(v.elems[i], depth + 1).0 == v.elems[i]
      {
        ScanAgrees(v.elems[i], depth + 1);
      }
    }
  }

  /** Within the limit, the rewrite of a node is the rewrite of each of its children. */
  lemma {:induction false} ChildOfRedacted(v: Value, depth: nat, step: Step)
    requires depth <= MAX_REDACTION_DEPTH
    ensures Child(Redact(v, depth).0, step)
            == if Child(v, step).Some? then Some(RedactStep(step, Child(v, step).value, depth)) else None
    ensures OutlineOf(Redact(v, depth).0) == OutlineOf(v)
    decreases v
  {
    hide Hit;
    ScanAgrees(v, depth);
    if v.Marshaler? && v.json.Some? {
      ChildOfRedacted(v.json.value, depth, step);
      ScanAgrees(v.json.value, depth);
    } else if !Needs(v, depth) {
      Unchanged(v, depth);
    }
  }

  /** Main result: what every position of a rewritten value is. A path that enters a
      field replaced as a whole ends there in the marker, and every other position is
      as it was. */
  lemma {:induction false} EveryPosition(v: Value, depth: nat, path: seq<Step>)
    ensures var n := Cut(v, depth, path);
            if n == None then Alike(Get(v, path), Get(Redact(v, depth).0, path))
            else Get(Redact(v, depth).0, path[..n.value + 1]) == Some(Str(REDACTED))
    decreases |path|
  {
    hide Hit, Redact, Needs, OutlineOf;
    if depth > MAX_REDACTION_DEPTH {
      TooDeep(v, depth);
    } else if path == [] {
      ChildOfRedacted(v, depth, Elem(0));
    } else {
      ChildOfRedacted(v, depth, path[0]);
      var x := Child(v, path[0]);
      if x.Some? && Cut(v, depth, path) != Some(0) {
        EveryPosition(x.value, depth + 1, path[1..]);
        var n := Cut(x.value, depth + 1, path[1..]);
        if n.Some? {
          assert path[..n.value + 2][1..] == path[1..][..n.value + 1];
        }
      }
    }
  }

  lemma TooDeep(v: Value, depth: nat)
    requires depth > MAX_REDACTION_DEPTH
    ensures Redact(v, depth) == (v, false)
  {
  }

  // -------------------------------------------------------------- second pass

  /** No field under a link key holds a marshaler that reflection does not see as a
      container, and whose JSON the scan would change. */
  predicate Steady(v: Value, depth: nat)
    decreases v
  {
    if depth > MAX_REDACTION_DEPTH then true
    else
      match v
      case Marshaler(_, Some(json)) => Steady(json, depth)
      case Map(fields) =>
        forall k :: k in fields && !Hit(k, fields[k]) ==>
          !(LinkKey(k) && fields[k].Marshaler? && Needs(fields[k], depth + 1)) && Steady(fields[k], depth + 1)
      case Slice(elems) => forall i :: 0 <= i < |elems| ==> Steady(elems[i], depth + 1)
      case _ => true
  }

  lemma LinkKeysMatch(key: string)
    requires LinkKey(key)
    ensures ShouldRedactKey(key)
  {
    var part :| part in LINK_SUBSTRINGS && Contains(ToLower(key), part);
    assert part in SUBSTRINGS;
  }

  lemma MapRewrite(fields: map<string, Value>, depth: nat)
    requires depth <= MAX_REDACTION_DEPTH
    ensures Redact(Map(fields), depth).0 == Map(RedactedFields(fields, depth))
  {
    ScanAgrees(Map(fields), depth);
    if !Needs(Map(fields), depth) {
      Unchanged(Map(fields), depth);
      assert fields == RedactedFields(fields, depth);
    }
  }

  lemma SliceRewrite(elems: seq<Value>, depth: nat)
    requires depth <= MAX_REDACTION_DEPTH
    ensures Redact(Slice(elems), depth).0 == Slice(RedactedElems(elems, depth))
  {
    ScanAgrees(Slice(elems), depth);
    if !Needs(Slice(elems), depth) {
      Unchanged(Slice(elems), depth);
      assert elems == RedactedElems(elems, depth);
    }
  }

  /** A changed value is a container that is not empty. */
  lemma {:induction false} ChangedIsContainer(v: Value, depth: nat)
    requires Needs(v, depth)
    ensures var r := Redact(v, depth).0; Suppressible(r) && !MatchedScalar(r) && !r.Marshaler?
    ensures !v.Marshaler? ==> Suppressible(v) && !MatchedScalar(v)
    decreases v
  {
    hide Hit;
    ScanAgrees(v, depth);
    match v
    case Marshaler(_, Some(json)) => ChangedIsContainer(json, depth);
    case Map(fields) => MapRewrite(fields, depth);
      var k :| k in fields;
      assert k in Redact(v, depth).0.fields;
    case Slice(elems) => SliceRewrite(elems, depth);
  }

  lemma {:induction false} QuietIsSteady(v: Value, depth: nat)
    requires !Needs(v, depth)
    ensures Steady(v, depth)
    decreases v
  {
    hide Hit;
    if depth <= MAX_REDACTION_DEPTH {
      match v
      case Marshaler(_, Some(json)) => QuietIsSteady(json, depth);
      case Map(fields) =>
        forall k | k in fields
          ensures !Needs(fields[k], depth + 1) && Steady(fields[k], depth + 1)
        {
          assert !FieldNeeds(k, fields[k], depth);
          QuietIsSteady(fields[k], depth + 1);
        }
      case Slice(elems) =>
        forall i | 0 <= i < |elems|
          ensures Steady(elems[i], depth + 1)
        {
          QuietIsSteady(elems[i], depth + 1);
        }
      case _ =>
    }
  }

  /** Main result: within the depth limit, no field under a matched key still holds a
      string, a byte sequence or a marshaled string, other than the marker. */
  lemma {:induction false} NoSecretsLeft(v: Value, depth: nat, path: seq<Step>, key: string, x: Value)
    requires depth + |path| <= MAX_REDACTION_DEPTH && ShouldRedactKey(key) && MatchedScalar(x)
    requires var node := Get(Redact(v, depth).0, path); node.Some? && Child(node.value, Field(key)) == Some(x)
    ensures x == Str(REDACTED)
    decreases |path|
  {
    hide ShouldRedactKey, LinkKey, Redact, Needs, OutlineOf, MatchedScalar, Suppressible;
    if path == [] {
      ChildOfRedacted(v, depth, Field(key));
      var was := Child(v, Field(key)).value;
      ScanAgrees(was, depth + 1);
      if Needs(was, depth + 1) && !Hit(key, was) {
        ChangedIsContainer(was, depth + 1);
      }
    } else {
      ChildOfRedacted(v, depth, path[0]);
      var was := Child(v, path[0]).value;
      if !(path[0].Field? && Hit(path[0].key, was)) {
        NoSecretsLeft(was, depth + 1, path[1..], key, x);
      }
    }
  }

  /** What a second pass leaves of a field that was not replaced as a whole. */
  lemma FieldTwice(key: string, x: Value, depth: nat)
    requires !Hit(key, x)
    requires Redact(Redact(x, depth + 1).0, depth + 1).0 == Redact(x, depth + 1).0 <==> Steady(x, depth + 1)
    ensures var once := RedactField(key, x, depth).0;
            RedactField(key, once, depth).0 == once
            <==> !(LinkKey(key) && x.Marshaler? && Needs(x, depth + 1)) && Steady(x, depth + 1)
  {
    hide ShouldRedactKey, LinkKey, Redact, Needs, Steady;
    ScanAgrees(x, depth + 1);
    if Needs(x, depth + 1) {
      ChangedIsContainer(x, depth + 1);
      if LinkKey(key) {
        LinkKeysMatch(key);
      }
    }
  }

  /** Main result: a second pass changes nothing, exactly when no field under a link
      key hides a container behind a marshaler. */
  lemma {:induction false} SecondPass(v: Value, depth: nat)
    ensures Redact(Redact(v, depth).0, depth).0 == Redact(v, depth).0 <==> Steady(v, depth)
    decreases v
  {
    hide Hit;
    ScanAgrees(v, depth);
    if !Needs(v, depth) {
      QuietIsSteady(v, depth);
    } else {
      match v
      case Marshaler(_, Some(json)) => ScanAgrees(json, depth); SecondPass(json, depth);
      case Map(fields) => MapTwice(fields, depth);
      case Slice(elems) =>
        SliceRewrite(elems, depth);
        var once := RedactedElems(elems, depth);
        SliceRewrite(once, depth);
        forall i | 0 <= i < |elems|
          ensures Redact(once[i], depth + 1).0 == once[i] <==> Steady(elems[i], depth + 1)
        {
          SecondPass(elems[i], depth + 1);
        }
        var twice := RedactedElems(once, depth);
        assert twice == once <==> forall i :: 0 <= i < |elems| ==> twice[i] == once[i];
    }
  }

  lemma {:induction false} MapTwice(fields: map<string, Value>, depth: nat)
    requires depth <= MAX_REDACTION_DEPTH
    ensures Redact(Redact(Map(fields), depth).0, depth).0 == Redact(Map(fields), depth).0
            <==> Steady(Map(fields), depth)
    decreases Map(fields), 0
  {
    hide Hit, Redact, Needs;
    MapRewrite(fields, depth);
    var once := RedactedFields(fields, depth);
    MapRewrite(once, depth);
    var twice := RedactedFields(once, depth);
    assert Redact(Map(fields), depth).0 == Map(once) && Redact(Map(once), depth).0 == Map(twice);
    forall k | k in fields
      ensures twice[k] == once[k] <==>
                (!Hit(k, fields[k]) ==>
                  !(LinkKey(k) && fields[k].Marshaler? && Needs(fields[k], depth + 1)) && Steady(fields[k], depth + 1))
    {
      if Hit(k, fields[k]) {
        MarkerStays(k, fields[k], depth);
      } else {
        SecondPass(fields[k], depth + 1);
        FieldTwice(k, fields[k], depth);
      }
    }
    assert twice == once <==> forall k :: k in fields ==> twice[k] == once[k];
  }

  lemma MarkerStays(key: string, x: Value, depth: nat)
    requires Hit(key, x)
    ensures RedactField(key, x, depth).0 == Str(REDACTED) && RedactField(key, Str(REDACTED), depth).0 == Str(REDACTED)
  {
  }

  lemma KeyMatches(key: string, part: string, at: nat)
    requires part in SUBSTRINGS && at <= |key| && OccursAt(ToLower(key), part, at)
    ensures ShouldRedactKey(key) && (part in LINK_SUBSTRINGS ==> LinkKey(key))
  {
    assert Contains(ToLower(key), part);
  }

  lemma TokenMatches()
    ensures ShouldRedactKey("token")
  {
    assert ToLower("token") == "token";
    assert SUBSTRINGS[0] == "token";
    KeyMatches("token", "token", 0);
  }

  lemma QurlLinkMatches()
    ensures ShouldRedactKey("qurl_link") && LinkKey("qurl_link")
  {
    assert ToLower("qurl_link") == "qurl_link";
    assert SUBSTRINGS[7] == "qurl_link" && LINK_SUBSTRINGS[1] == "qurl_link";
    KeyMatches("qurl_link", "qurl_link", 0);
  }

  /** Such a field exists: a value of an empty kind that marshals to a map. */
  lemma SecondPassCanDiffer()
    ensures exists v: Value :: Redact(Redact(v, 0).0, 0).0 != Redact(v, 0).0
  {
    TokenMatches();
    QurlLinkMatches();
    hide ShouldRedactKey, LinkKey, Redact;
    var inner := Map(map["token" := Str("x")]);
    var v := Map(map["qurl_link" := Marshaler(OtherShape, Some(inner))]);
    assert Hit("token", inner.fields["token"]);
    assert FieldNeeds("token", inner.fields["token"], 1);
    assert Needs(inner, 1);
    assert !Hit("qurl_link", v.fields["qurl_link"]) && Needs(v.fields["qurl_link"], 1);
    SecondPass(v, 0);
    assert !Steady(v, 0);
  }
}

/** The walkers that fill an output and a flag in loops, and the scan that stops at
    the first field it finds. */
module LogRedactionLoops {
  import opened Wrappers
  import opened LogRedaction

  method FieldNeedsRedaction(key: string, x: Value, depth: nat) returns (needs: bool)
    ensures needs == FieldNeeds(key, x, depth)
    decreases x, 2
  {
    if ShouldRedactKey(key) {
      if MatchedScalar(x) {
        return true;
      }
      if LinkKey(key) && Suppressible(x) {
        return true;
      }
    }
    needs := AnyNeedsRedaction(x, depth + 1);
  }

  method AnyNeedsRedaction(v: Value, depth: nat) returns (needs: bool)
    ensures needs == Needs(v, depth)
    decreases v, 1
  {
    if depth > MAX_REDACTION_DEPTH || v == Null {
      return false;
    }
    match v
    case Marshaler(_, json) =>
      if json == None {
        return false;
      }
      needs := AnyNeedsRedaction(json.value, depth);
    case Map(fields) => needs := MapNeedsRedaction(fields, depth);
    case Slice(elems) => needs := SliceNeedsRedaction(elems, depth);
    case _ => needs := false;
  }

  method MapNeedsRedaction(fields: map<string, Value>, depth: nat) returns (needs: bool)
    ensures needs == exists k :: k in fields && FieldNeeds(k, fields[k], depth)
    decreases Map(fields), 0
  {
    var rest := fields.Keys;
    while rest != {}
      invariant rest <= fields.Keys
      invariant forall k :: k in fields && k !in rest ==> !FieldNeeds(k, fields[k], depth)
      decreases rest
    {
      var key :| key in rest;
      var found := FieldNeedsRedaction(key, fields[key], depth);
      if found {
        return true;
      }
      rest := rest - {key};
    }
    needs := false;
  }

  method SliceNeedsRedaction(elems: seq<Value>, depth: nat) returns (needs: bool)
    ensures needs == exists i :: 0 <= i < |elems| && Needs(elems[i], depth + 1)
    decreases Slice(elems), 0
  {
    for i := 0 to |elems|
      invariant forall j :: 0 <= j < i ==> !Needs(elems[j], depth + 1)
    {
      var found := AnyNeedsRedaction(elems[i], depth + 1);
      if found {
        return true;
      }
    }
    needs := false;
  }

  method RedactAnyField(key: string, x: Value, depth: nat) returns (out: Value, changed: bool)
    ensures (out, changed) == RedactField(key, x, depth)
    decreases x, 2
  {
    if ShouldRedactKey(key) {
      if MatchedScalar(x) {
        return Str(REDACTED), true;
      }
      if LinkKey(key) && Suppressible(x) {
        return Str(REDACTED), true;
      }
    }
    out, changed := RedactAny(x, depth + 1);
  }

  method RedactAny(v: Value, depth: nat) returns (out: Value, changed: bool)
    ensures (out, changed) == Redact(v, depth)
    decreases v, 1
  {
    if depth > MAX_REDACTION_DEPTH || v == Null {
      return v, false;
    }
    match v
    case Marshaler(_, json) =>
      if json == None {
        return v, false;
      }
      out, changed := RedactAny(json.value, depth);
      if !changed {
        out := v;
      }
    case Map(fields) =>
      var needs := MapNeedsRedaction(fields, depth);
      if !needs {
        return v, false;
      }
      out, changed := RedactMap(fields, depth);
    case Slice(elems) =>
      var needs := SliceNeedsRedaction(elems, depth);
      if !needs {
        return v, false;
      }
      out, changed := RedactSlice(elems, depth);
    case _ => out, changed := v, false;
  }

  method RedactMap(fields: map<string, Value>, depth: nat) returns (out: Value, changed: bool)
    ensures changed == exists k :: k in fields && RedactField(k, fields[k], depth).1
    ensures out == if changed then Map(RedactedFields(fields, depth)) else Map(fields)
    decreases Map(fields), 0
  {
    var filled: map<string, Value> := map[];
    changed := false;
    var rest := fields.Keys;
    while rest != {}
      invariant rest <= fields.Keys && filled.Keys == fields.Keys - rest
      invariant forall k :: k in filled ==> filled[k] == RedactField(k, fields[k], depth).0
      invariant changed == exists k :: k in filled && RedactField(k, fields[k], depth).1
      decreases rest
    {
      var key :| key in rest;
      var redacted, fieldChanged := RedactAnyField(key, fields[key], depth);
      changed := changed || fieldChanged;
      filled := filled[key := redacted];
      rest := rest - {key};
    }
    assert filled == RedactedFields(fields, depth);
    out := if changed then Map(filled) else Map(fields);
  }

  method RedactSlice(elems: seq<Value>, depth: nat) returns (out: Value, changed: bool)
    ensures changed == exists i :: 0 <= i < |elems| && Redact(elems[i], depth + 1).1
    ensures out == if changed then Slice(RedactedElems(elems, depth)) else Slice(elems)
    decreases Slice(elems), 0
  {
    var filled := [];
    changed := false;
    for i := 0 to |elems|
      invariant |filled| == i && forall j :: 0 <= j < i ==> filled[j] == Redact(elems[j], depth + 1).0
      invariant changed == exists j :: 0 <= j < i && Redact(elems[j], depth + 1).1
    {
      var redacted, elemChanged := RedactAny(elems[i], depth + 1);
      changed := changed || elemChanged;
      filled := filled + [redacted];
    }
    assert filled == RedactedElems(elems, depth);
    out := if changed then Slice(filled) else Slice(elems);
  }
}

/** The attributes of a log record: groups of attributes, and values of any kind. */
module LogAttributes {
  import opened LogRedaction

  datatype AttrValue = Text(s: string) | AnyOf(value: Value) | Group(attrs: seq<Attr>) | OtherKind(shown: string)

  datatype Attr = Attr(key: string, value: AttrValue)

  function RedactAttrs(attrs: seq<Attr>, depth: nat): (r: seq<Attr>)
    ensures |r| == |attrs|
    decreases attrs
  {
    seq(|attrs|, i requires 0 <= i < |attrs| => RedactAttr(attrs[i], depth))
  }

  function RedactAttr(attr: Attr, depth: nat): Attr
    decreases attr
  {
    if ShouldRedactKey(attr.key) then attr.(value := RedactMatched(attr.key, attr.value, depth + 1))
    else attr.(value := RedactResolved(attr.value, depth + 1))
  }

  function RedactResolved(value: AttrValue, depth: nat): AttrValue
    decreases value, 0
  {
    if depth > MAX_REDACTION_DEPTH then value
    else
      match value
      case Group(attrs) => Group(RedactAttrs(attrs, depth))
      case AnyOf(v) => if Redact(v, depth).1 then AnyOf(Redact(v, depth).0) else value
      case _ => value
  }

  function RedactMatched(key: string, value: AttrValue, depth: nat): AttrValue
    decreases value, 1
  {
    if value.Text? && value.s != "" then Text(REDACTED)
    else if value.AnyOf? && MatchedScalar(value.value) then Text(REDACTED)
    else if LinkKey(key) && ((value.Group? && |value.attrs| > 0) || (value.AnyOf? && Suppressible(value.value)))
        then Text(REDACTED)
    else RedactResolved(value, depth)
  }

  /** Attributes as the map they are written as; a later one with the same key wins. */
  function FieldsOf(attrs: seq<Attr>): map<string, Value>
    decreases attrs
  {
    if attrs == [] then map[]
    else FieldsOf(attrs[..|attrs| - 1])[attrs[|attrs| - 1].key := AsValue(attrs[|attrs| - 1].value)]
  }

  function AsValue(value: AttrValue): Value
    decreases value
  {
    match value
    case Text(s) => Str(s)
    case AnyOf(v) => v
    case Group(attrs) => Map(FieldsOf(attrs))
    case OtherKind(shown) => Scalar(shown)
  }

  /** Main result: groups count like maps. Redacting an attribute gives what
      redacting the same field of a map at the same depth gives, for any nesting of
      groups and values. */
  lemma {:induction false} GroupsCountLikeMaps(attr: Attr, depth: nat)
    ensures RedactAttr(attr, depth).key == attr.key
    ensures AsValue(RedactAttr(attr, depth).value) == RedactField(attr.key, AsValue(attr.value), depth).0
    decreases attr, 1
  {
    ResolvedIsRedacted(attr.value, depth + 1);
    if ShouldRedactKey(attr.key) {
      MatchedIsHit(attr.key, attr.value, depth + 1);
    }
    hide ShouldRedactKey, Hit, RedactMatched, RedactResolved, AsValue, Redact;
    HitsMatch(attr.key, AsValue(attr.value));
  }

  lemma HitsMatch(key: string, x: Value)
    ensures Hit(key, x) ==> ShouldRedactKey(key)
  {
  }

  lemma MatchedIsHit(key: string, value: AttrValue, depth: nat)
    requires ShouldRedactKey(key)
    ensures AsValue(RedactMatched(key, value, depth))
            == if Hit(key, AsValue(value)) then Str(REDACTED) else AsValue(RedactResolved(value, depth))
  {
    hide ShouldRedactKey, LinkKey, RedactResolved;
    if value.Group? {
      NotEmpty(value.attrs);
    }
  }

  lemma {:induction false} ResolvedIsRedacted(value: AttrValue, depth: nat)
    ensures AsValue(RedactResolved(value, depth)) == Redact(AsValue(value), depth).0
    decreases value, 0
  {
    match value
    case Group(attrs) => FieldsRedacted(attrs, depth); ResolvedGroup(attrs, depth);
    case AnyOf(v) => ScanAgrees(v, depth);
    case _ =>
  }

  lemma ResolvedGroup(attrs: seq<Attr>, depth: nat)
    requires FieldsOf(RedactAttrs(attrs, depth)) == RedactedFields(FieldsOf(attrs), depth)
    ensures AsValue(RedactResolved(Group(attrs), depth)) == Redact(Map(FieldsOf(attrs)), depth).0
  {
    if depth <= MAX_REDACTION_DEPTH {
      MapRewrite(FieldsOf(attrs), depth);
      assert RedactResolved(Group(attrs), depth) == Group(RedactAttrs(attrs, depth));
    }
  }

  lemma NotEmpty(attrs: seq<Attr>)
    ensures FieldsOf(attrs) == map[] <==> attrs == []
  {
    if attrs != [] {
      assert attrs[|attrs| - 1].key in FieldsOf(attrs);
    }
  }

  lemma {:induction false} FieldsRedacted(attrs: seq<Attr>, depth: nat)
    ensures FieldsOf(RedactAttrs(attrs, depth)) == RedactedFields(FieldsOf(attrs), depth)
    decreases attrs, 0
  {
    hide RedactField, RedactAttr, AsValue;
    if attrs != [] {
      var before, last := attrs[..|attrs| - 1], attrs[|attrs| - 1];
      FieldsRedacted(before, depth);
      GroupsCountLikeMaps(last, depth);
      var redacted := RedactAttrs(attrs, depth);
      assert redacted[..|redacted| - 1] == RedactAttrs(before, depth);
    }
  }
}
