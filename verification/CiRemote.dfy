/** The text patterns that the credential controller checks. */
module CiShapes {
  predicate AlphaNumeric(c: char) {
    'A' <= c <= 'Z' || 'a' <= c <= 'z' || '0' <= c <= '9'
  }

  predicate KeyId(s: string) {
    |s| == 16 && s[..4] == "key_" && forall i :: 4 <= i < 16 ==> AlphaNumeric(s[i])
  }

  predicate ApiKey(s: string) {
    && |s| == 51 && (s[..8] == "lv_live_" || s[..8] == "lv_test_")
    && (forall i :: 8 <= i < 51 ==> AlphaNumeric(s[i]) || s[i] == '_' || s[i] == '-')
  }

  /** What `str.strip` removes. */
  predicate IsSpace(c: char) {
    || '\t' <= c <= '\r' || '\U{001C}' <= c <= ' ' || c == '\U{0085}' || c == '\U{00A0}' || c == '\U{1680}'
    || '\U{2000}' <= c <= '\U{200A}' || c == '\U{2028}' || c == '\U{2029}' || c == '\U{202F}'
    || c == '\U{205F}' || c == '\U{3000}'
  }

  predicate Stripped(s: string) {
    s != "" ==> !IsSpace(s[0]) && !IsSpace(s[|s| - 1])
  }

  /** One exact value: not empty, without surrounding space, on one line. */
  predicate OneValue(s: string) {
    s != "" && Stripped(s) && '\r' !in s && '\n' !in s
  }

  predicate ResourceId(s: string) {
    s != "" && |s| <= 512 && Stripped(s)
  }

  const CAPITALS := "ABCDEFGHIJKLMNOPQRSTUVWXYZ"
  const SMALL_LETTERS := "abcdefghijklmnopqrstuvwxyz"
  const DIGITS := "0123456789"

  lemma CapitalsAre(c: char)
    ensures c in CAPITALS <==> 'A' <= c <= 'Z'
  {
    if 'A' <= c <= 'Z' {
      assert CAPITALS[c as int - 65] == c;
    }
  }

  lemma SmallLettersAre(c: char)
    ensures c in SMALL_LETTERS <==> 'a' <= c <= 'z'
  {
    if 'a' <= c <= 'z' {
      assert SMALL_LETTERS[c as int - 97] == c;
    }
  }

  lemma DigitsAre(c: char)
    ensures c in DIGITS <==> '0' <= c <= '9'
  {
    if '0' <= c <= '9' {
      assert DIGITS[c as int - 48] == c;
    }
  }

  /** Letters and digits, and the characters of `more`. */
  predicate Of(s: string, more: string) {
    forall i :: 0 <= i < |s| ==> s[i] in CAPITALS || s[i] in SMALL_LETTERS || s[i] in DIGITS || s[i] in more
  }

  lemma OfIs(s: string, more: string)
    ensures Of(s, more) <==> forall i :: 0 <= i < |s| ==> AlphaNumeric(s[i]) || s[i] in more
  {
    forall i | 0 <= i < |s|
      ensures AlphaNumeric(s[i]) <==> s[i] in CAPITALS || s[i] in SMALL_LETTERS || s[i] in DIGITS
    {
      CapitalsAre(s[i]);
      SmallLettersAre(s[i]);
      DigitsAre(s[i]);
    }
    hide AlphaNumeric;
  }

  /** A key's ID is a prefix and twelve letters or digits. */
  lemma KeyIdIs(s: string)
    ensures KeyId(s) <==> |s| == 16 && s[..4] == "key_" && Of(s[4..], "")
  {
    if |s| == 16 {
      OfIs(s[4..], "");
      hide AlphaNumeric, Of;
      assert forall i :: 4 <= i < 16 ==> s[i] == s[4..][i - 4];
    }
  }

  /** A key is one of two prefixes and 43 letters, digits, underscores or hyphens. */
  lemma ApiKeyIs(s: string)
    ensures ApiKey(s) <==> |s| == 51 && s[..8] in {"lv_live_", "lv_test_"} && Of(s[8..], "_-")
  {
    if |s| == 51 {
      OfIs(s[8..], "_-");
      hide AlphaNumeric, Of;
      assert forall c: char :: c in "_-" <==> c == '_' || c == '-';
      assert forall i :: 8 <= i < 51 ==> s[i] == s[8..][i - 8];
    }
  }

  /** The characters that `str.strip` removes. */
  const STRIPPED: set<char> :=
    {'\U{0009}', '\U{000A}', '\U{000B}', '\U{000C}', '\U{000D}', '\U{001C}', '\U{001D}', '\U{001E}', '\U{001F}',
     '\U{0020}', '\U{0085}', '\U{00A0}', '\U{1680}', '\U{2000}', '\U{2001}', '\U{2002}', '\U{2003}', '\U{2004}',
     '\U{2005}', '\U{2006}', '\U{2007}', '\U{2008}', '\U{2009}', '\U{200A}', '\U{2028}', '\U{2029}', '\U{202F}',
     '\U{205F}', '\U{3000}'}

  /** One exact value, and a resource's ID, in terms of those characters. */
  lemma ValuesAre(s: string)
    ensures OneValue(s) <==> |s| > 0 && s[0] !in STRIPPED && s[|s| - 1] !in STRIPPED && !Of1(s, '\r') && !Of1(s, '\n')
    ensures ResourceId(s) <==> 0 < |s| <= 512 && s[0] !in STRIPPED && s[|s| - 1] !in STRIPPED
  {
  }

  predicate Of1(s: string, c: char) {
    exists i :: 0 <= i < |s| && s[i] == c
  }

  /** A key's ID and its secret are each one exact value. */
  lemma KeysAreValues(id: string, secret: string)
    ensures KeyId(id) ==> OneValue(id)
    ensures ApiKey(secret) ==> OneValue(secret)
  {
    if KeyId(id) {
      assert id[..4][0] == id[0] && id[..4][1] == id[1] && id[..4][2] == id[2] && id[..4][3] == id[3];
    }
    if ApiKey(secret) {
      assert forall i :: 0 <= i < 8 ==> secret[..8][i] == secret[i];
    }
  }

  /** A part of a key's ID is not a key's ID. */
  lemma PartsAreNotIds(part: string, id: string)
    requires KeyId(id) && part <= id && KeyId(part)
    ensures part == id
  {
  }
}

/** The service as the credential controller meets it: a network that can lose an
    answer before or after a request took effect, and the bounded retries over it.

    The service is honest about what it answers: it creates at most one key a name
    (the creating POST is idempotent), a well-formed 201 carries that key, a 2xx to
    the DELETE of a key means the key is revoked, and a 404 means no such key is
    active. Every other answer, and no answer, says nothing about what took effect. */
module CiRemote {
  import opened Wrappers
  import opened CiShapes

  const MAX_ATTEMPTS := 3

  datatype Key = Key(id: string, secret: string, active: bool)

  /** What a Python handler tells apart. `Cleanup` is a `Credential` too, and no
      handler catches `Other`. */
  datatype Fault = Credential | Cleanup | Os | Other

  /** What a single step can raise. */
  type Raw = f: Fault | f != Cleanup witness Credential

  /** What goes out on the wire. */
  datatype Request =
    | CreateKey(name: string) | RevokeKey(id: string) | AskIdentity
    | RetireAssignment(agent: string) | FindConnector(slug: string) | EraseResource(resource: string)

  datatype Reply = Status(code: int) | NoReply(fault: Raw)

  /** How one POST fares: a 201 that carries the key, or anything else with what took
      effect. */
  datatype PostFate = Created | NotCreated(commits: bool, fault: Raw)

  /** Whether the DELETE of a key takes effect, and its answer. */
  datatype Effect = Effect(commits: bool, reply: Reply)

  /** A row's members, each None when it is missing or of another type. */
  datatype ConnectorRow = ConnectorRow(resourceId: Option<string>, slug: Option<string>, kind: Option<string>,
                                       status: Option<string>)

  /** The answer to a lookup by slug: `rows` is None when it is not a list, and a row
      when it is not an object. */
  datatype LookupReply = Answered(code: int, rows: Option<seq<Option<ConnectorRow>>>) | Lost(fault: Raw)

  /** What becomes of the n-th request, by its kind, and the material of the key that
      it creates, if it does. */
  datatype Net = Net(post: nat -> PostFate, revoke: nat -> Effect, retire: nat -> Reply, find: nat -> LookupReply,
                     erase: nat -> Reply, check: nat -> Option<Raw>, id: nat -> string, secret: nat -> string)

  predicate Active(keys: map<string, Key>, name: string) {
    name in keys && keys[name].active
  }

  function Revoked(keys: map<string, Key>, id: string): map<string, Key> {
    map name | name in keys :: if keys[name].id == id then keys[name].(active := false) else keys[name]
  }

  /** What a POST leaves: the key that it creates when it takes effect. */
  function PostKeys(net: Net, keys: map<string, Key>, name: string, n: nat): map<string, Key> {
    if name !in keys && (net.post(n).Created? || net.post(n).commits) then
      keys[name := Key(net.id(n), net.secret(n), true)]
    else keys
  }

  predicate Usable(keys: map<string, Key>, name: string) {
    name in keys && KeyId(keys[name].id) && ApiKey(keys[name].secret)
  }

  /** What any number of POSTs for one name can lead to. */
  predicate Posted(before: map<string, Key>, name: string, after: map<string, Key>) {
    || after == before
    || (name !in before && name in after && after[name].active && after == before[name := after[name]])
  }

  // ---------------------------------------------------------- bounded retries

  /** What an answer means for the attempts. */
  datatype Turn = Finished | Refused | Again | Raises(fault: Raw)

  function Unanswered(fault: Raw): Turn {
    if fault == Credential then Again else Raises(fault)
  }

  predicate Temporary(code: int) {
    code == 429 || code >= 500
  }

  function AfterRevoke(r: Reply): Turn {
    match r
    case NoReply(f) => Unanswered(f)
    case Status(code) => if code in {200, 204, 404} then Finished else if Temporary(code) then Again else Refused
  }

  /** A 500 is a durable fault here, and not tried again. */
  function AfterRetire(r: Reply): Turn {
    match r
    case NoReply(f) => Unanswered(f)
    case Status(code) => if code == 204 then Finished else if code in {429, 502, 503, 504} then Again else Refused
  }

  function AfterErase(r: Reply): Turn {
    match r
    case NoReply(f) => Unanswered(f)
    case Status(code) => if code in {204, 404} then Finished else if Temporary(code) then Again else Refused
  }

  /** How one target fared: done, failed after bounded retries, or a fault that is
      not a `Credential` one, which no step of a run's cleanup handles. */
  datatype Fate = Converged(found: bool) | Failed | Escapes(fault: Raw)

  /** What was sent for one target, and how it fared. */
  datatype Course = Course(sent: seq<Request>, fate: Fate)

  /** How many requests are sent from the n-th on, and how that ends. */
  function Retry(turn: nat -> Turn, n: nat, attempt: nat): (nat, Fate)
    requires attempt <= MAX_ATTEMPTS
    decreases MAX_ATTEMPTS - attempt
  {
    if attempt == MAX_ATTEMPTS then (0, Failed)
    else
      match turn(n)
      case Finished => (1, Converged(true))
      case Refused => (1, Failed)
      case Raises(f) => (1, Escapes(f))
      case Again =>
        var (more, fate) := Retry(turn, n + 1, attempt + 1);
        (1 + more, fate)
  }

  /** What a bounded retry means: every answer but the last asks for another attempt,
      and the last one decides; it fails exactly on a refusal, or on the third answer
      that asks for another. */
  lemma {:induction false} RetryMeans(turn: nat -> Turn, n: nat, attempt: nat)
    requires attempt < MAX_ATTEMPTS
    ensures var (count, fate) := Retry(turn, n, attempt);
            && 1 <= count <= MAX_ATTEMPTS - attempt
            && (forall k :: n <= k < n + count - 1 ==> turn(k) == Again)
            && match turn(n + count - 1)
               case Finished => fate == Converged(true)
               case Refused => fate == Failed
               case Raises(f) => fate == Escapes(f)
               case Again => fate == Failed && count == MAX_ATTEMPTS - attempt
    decreases MAX_ATTEMPTS - attempt
  {
    if turn(n) == Again && attempt + 1 < MAX_ATTEMPTS {
      RetryMeans(turn, n + 1, attempt + 1);
    }
  }

  function RevokeTurns(net: Net): nat -> Turn {
    (n: nat) => AfterRevoke(net.revoke(n).reply)
  }

  function RetireTurns(net: Net): nat -> Turn {
    (n: nat) => AfterRetire(net.retire(n))
  }

  function EraseTurns(net: Net): nat -> Turn {
    (n: nat) => AfterErase(net.erase(n))
  }

  // ------------------------------------------------- the same in status codes

  /** An answer that is worth another attempt. */
  ghost predicate AsksAgain(r: Reply, again: int -> bool) {
    match r
    case NoReply(f) => f == Credential
    case Status(code) => again(code)
  }

  /** How attempts from the n-th request on must end: a `good` status finishes them; a
      status that `again` accepts, and a lost answer, cause another attempt, up to three
      in all; any other status fails them at once, and any other fault escapes. */
  ghost predicate EndsInCodes(reply: nat -> Reply, n: nat, count: nat, fate: Fate, good: set<int>, again: int -> bool) {
    && 1 <= count <= 3
    && (forall k :: n <= k < n + count - 1 ==> AsksAgain(reply(k), again))
    && match reply(n + count - 1)
       case NoReply(f) => if f == Credential then fate == Failed && count == 3 else fate == Escapes(f)
       case Status(code) =>
         if code in good then fate == Converged(true) else fate == Failed && (again(code) ==> count == 3)
  }

  /** Too many requests, or a fault of the server. */
  const BUSY: int -> bool := (code: int) => code == 429 || code >= 500

  /** The same without the 500 of a durable fault, and without statuses nobody sends. */
  const PASSING: int -> bool := (code: int) => code == 429 || code == 502 || code == 503 || code == 504

  function RevokeReplies(net: Net): nat -> Reply {
    (k: nat) => net.revoke(k).reply
  }

  ghost predicate RevokeEnds(net: Net, n: nat, count: nat, fate: Fate) {
    EndsInCodes(RevokeReplies(net), n, count, fate, {200, 204, 404}, BUSY)
  }

  ghost predicate RetireEnds(net: Net, n: nat, count: nat, fate: Fate) {
    EndsInCodes(net.retire, n, count, fate, {204}, PASSING)
  }

  ghost predicate EraseEnds(net: Net, n: nat, count: nat, fate: Fate) {
    EndsInCodes(net.erase, n, count, fate, {204, 404}, BUSY)
  }

  ghost predicate ReadsAs(r: Reply, t: Turn, good: set<int>, again: int -> bool) {
    match r
    case NoReply(f) => t == (if f == Credential then Again else Turn.Raises(f))
    case Status(code) => t == (if code in good then Finished else if again(code) then Again else Refused)
  }

  lemma RetryInCodes(turn: nat -> Turn, reply: nat -> Reply, n: nat, good: set<int>, again: int -> bool)
    requires forall k: nat :: ReadsAs(reply(k), turn(k), good, again)
    ensures var (count, fate) := Retry(turn, n, 0); EndsInCodes(reply, n, count, fate, good, again)
  {
    RetryMeans(turn, n, 0);
    var (count, fate) := Retry(turn, n, 0);
    hide Retry;
    forall k | n <= k < n + count - 1
      ensures AsksAgain(reply(k), again)
    {
      assert ReadsAs(reply(k), turn(k), good, again);
    }
    assert ReadsAs(reply(n + count - 1), turn(n + count - 1), good, again);
  }

  lemma SameIs(r: Request, count: nat)
    ensures |Same(r, count)| == count
  {
  }

  /** Main result: what a bounded revoke makes of the status codes. */
  lemma RevokeInCodes(net: Net, id: string, n: nat)
    ensures var c := RevokeCourse(net, id, n);
            c.sent == Same(RevokeKey(id), |c.sent|) && RevokeEnds(net, n, |c.sent|, c.fate)
  {
    forall k: nat
      ensures ReadsAs(RevokeReplies(net)(k), RevokeTurns(net)(k), {200, 204, 404}, BUSY)
    {
      assert RevokeReplies(net)(k) == net.revoke(k).reply && RevokeTurns(net)(k) == AfterRevoke(net.revoke(k).reply);
    }
    hide Retry, EndsInCodes, Same;
    RetryInCodes(RevokeTurns(net), RevokeReplies(net), n, {200, 204, 404}, BUSY);
    SameIs(RevokeKey(id), Retry(RevokeTurns(net), n, 0).0);
  }

  /** Main result: what a bounded retirement makes of them. */
  lemma RetireInCodes(net: Net, agent: string, n: nat)
    ensures var c := RetireCourse(net, agent, n);
            c.sent == Same(RetireAssignment(agent), |c.sent|) && RetireEnds(net, n, |c.sent|, c.fate)
  {
    hide Retry, EndsInCodes, Same;
    RetryInCodes(RetireTurns(net), net.retire, n, {204}, PASSING);
    SameIs(RetireAssignment(agent), Retry(RetireTurns(net), n, 0).0);
  }

  /** Main result: what a bounded deletion makes of them. */
  lemma EraseInCodes(net: Net, resource: string, n: nat)
    ensures var c := EraseCourse(net, resource, n);
            if ResourceId(resource) then
              c.sent == Same(EraseResource(resource), |c.sent|) && EraseEnds(net, n, |c.sent|, c.fate)
            else c == Course([], Failed)
  {
    hide Retry, ResourceId, EndsInCodes, Same;
    RetryInCodes(EraseTurns(net), net.erase, n, {204, 404}, BUSY);
    SameIs(EraseResource(resource), Retry(EraseTurns(net), n, 0).0);
  }

  function Same(r: Request, count: nat): seq<Request> {
    seq(count, _ => r)
  }

  function CourseOf(turn: nat -> Turn, r: Request, n: nat): Course {
    var (count, fate) := Retry(turn, n, 0);
    Course(Same(r, count), fate)
  }

  function RevokeCourse(net: Net, id: string, n: nat): Course {
    CourseOf(RevokeTurns(net), RevokeKey(id), n)
  }

  function RetireCourse(net: Net, agent: string, n: nat): Course {
    CourseOf(RetireTurns(net), RetireAssignment(agent), n)
  }

  /** A malformed ID is never sent. */
  function EraseCourse(net: Net, resource: string, n: nat): Course {
    if ResourceId(resource) then CourseOf(EraseTurns(net), EraseResource(resource), n) else Course([], Failed)
  }

  /** What the lookups of one Connector come to. */
  datatype Lookup = There(resource: string) | NotThere | NoLookup | LookupEscapes(fault: Raw)

  /** A row that may be deleted for this Connector. */
  predicate Matches(row: ConnectorRow, slug: string) {
    && row.resourceId.Some? && ResourceId(row.resourceId.value)
    && row.slug == Some(slug) && row.kind == Some("tunnel") && row.status == Some("active")
  }

  function FromRows(rows: Option<seq<Option<ConnectorRow>>>, slug: string): Lookup {
    if rows == None || exists i :: 0 <= i < |rows.value| && rows.value[i] == None then NoLookup
    else if rows.value == [] then NotThere
    else if |rows.value| != 1 || !Matches(rows.value[0].value, slug) then NoLookup
    else There(rows.value[0].value.resourceId.value)
  }

  /** What one answer settles, or None when it is worth another attempt. */
  function AfterLookup(r: LookupReply, slug: string): Option<Lookup> {
    match r
    case Lost(f) => if f == Credential then None else Some(LookupEscapes(f))
    case Answered(code, rows) =>
      if code == 200 then Some(FromRows(rows, slug)) else if Temporary(code) then None else Some(NoLookup)
  }

  function RetryLookup(net: Net, slug: string, n: nat, attempt: nat): (nat, Lookup)
    requires attempt <= MAX_ATTEMPTS
    decreases MAX_ATTEMPTS - attempt
  {
    if attempt == MAX_ATTEMPTS then (0, NoLookup)
    else
      var settled := AfterLookup(net.find(n), slug);
      if settled.Some? then (1, settled.value)
      else
        var (more, lookup) := RetryLookup(net, slug, n + 1, attempt + 1);
        (1 + more, lookup)
  }

  lemma LookupOne(net: Net, slug: string, n: nat, attempt: nat)
    requires attempt < MAX_ATTEMPTS
    ensures var settled := AfterLookup(net.find(n), slug);
            RetryLookup(net, slug, n, attempt)
            == if settled.Some? then (1, settled.value)
               else (1 + RetryLookup(net, slug, n + 1, attempt + 1).0, RetryLookup(net, slug, n + 1, attempt + 1).1)
  {
    hide AfterLookup;
  }

  /** A lookup, and then the deletion of the one resource it showed. */
  function ConnectorCourse(net: Net, slug: string, n: nat): Course {
    var (count, lookup) := RetryLookup(net, slug, n, 0);
    var asked := Same(FindConnector(slug), count);
    match lookup
    case NoLookup => Course(asked, Failed)
    case NotThere => Course(asked, Converged(false))
    case LookupEscapes(f) => Course(asked, Escapes(f))
    case There(resource) =>
      var erased := EraseCourse(net, resource, n + count);
      Course(asked + erased.sent, erased.fate)
  }

  /** A resource that a lookup shows is the one of a matching row in an answer that
      was received. */
  lemma {:induction false} LookupMeans(net: Net, slug: string, n: nat, attempt: nat)
    requires attempt < MAX_ATTEMPTS
    ensures var (count, lookup) := RetryLookup(net, slug, n, attempt);
            && 1 <= count <= MAX_ATTEMPTS - attempt
            && (forall k :: n <= k < n + count - 1 ==> AfterLookup(net.find(k), slug) == None)
            && (if AfterLookup(net.find(n + count - 1), slug) == None
                then lookup == NoLookup && count == MAX_ATTEMPTS - attempt
                else AfterLookup(net.find(n + count - 1), slug) == Some(lookup))
    decreases MAX_ATTEMPTS - attempt
  {
    hide AfterLookup;
    if AfterLookup(net.find(n), slug) == None && attempt + 1 < MAX_ATTEMPTS {
      LookupMeans(net, slug, n + 1, attempt + 1);
    }
  }

  /** The one row that may be deleted for a Connector. */
  ghost predicate OwnRow(rows: Option<seq<Option<ConnectorRow>>>, slug: string, resource: string) {
    && rows == Some([Some(ConnectorRow(Some(resource), Some(slug), Some("tunnel"), Some("active")))])
    && resource != "" && |resource| <= 512 && Stripped(resource)
  }

  /** What the lookups of a Connector must come to. Only a 200 with exactly its own row
      has that row's resource deleted; a 200 with no row means that there is nothing to
      delete; every other 200 fails at once. */
  ghost predicate ConnectorEnds(net: Net, slug: string, n: nat, count: nat, course: Course) {
    && 1 <= count <= 3 && count <= |course.sent| && course.sent[..count] == Same(FindConnector(slug), count)
    && (forall k :: n <= k < n + count - 1 ==> FindsLater(net.find(k)))
    && match net.find(n + count - 1)
       case Lost(f) => |course.sent| == count
           && (if f == Credential then course.fate == Failed && count == 3 else course.fate == Escapes(f))
       case Answered(code, rows) =>
         if code == 200 && exists resource :: OwnRow(rows, slug, resource) then
           var resource := rows.value[0].value.resourceId.value;
           && course.sent[count..] == Same(EraseResource(resource), |course.sent| - count)
           && EraseEnds(net, n + count, |course.sent| - count, course.fate)
         else
           && |course.sent| == count
           && course.fate == (if code == 200 && rows == Some([]) then Converged(false) else Failed)
           && (code == 429 || code >= 500 ==> count == 3)
  }

  ghost predicate FindsLater(r: LookupReply) {
    match r
    case Lost(f) => f == Credential
    case Answered(code, _) => code == 429 || code >= 500
  }

  lemma RowsSettle(rows: Option<seq<Option<ConnectorRow>>>, slug: string)
    ensures match FromRows(rows, slug)
            case There(resource) => OwnRow(rows, slug, resource)
            case NotThere => rows == Some([]) && forall resource :: !OwnRow(rows, slug, resource)
            case NoLookup => rows != Some([]) && forall resource :: !OwnRow(rows, slug, resource)
            case LookupEscapes(_) => false
  {
    if FromRows(rows, slug).There? {
      assert rows.value == [rows.value[0]];
    }
  }

  lemma LookupInCodes(r: LookupReply, slug: string)
    ensures AfterLookup(r, slug) == None <==> FindsLater(r)
    ensures r.Lost? && r.fault != Credential ==> AfterLookup(r, slug) == Some(LookupEscapes(r.fault))
    ensures r.Answered? && r.code == 200 ==> AfterLookup(r, slug) == Some(FromRows(r.rows, slug))
    ensures r.Answered? && r.code != 200 && !FindsLater(r) ==> AfterLookup(r, slug) == Some(NoLookup)
  {
  }

  /** Main result: what the lookups and the deletion of one Connector make of the
      answers. */
  lemma ConnectorInCodes(net: Net, slug: string, n: nat) returns (count: nat)
    ensures ConnectorEnds(net, slug, n, count, ConnectorCourse(net, slug, n))
  {
    hide RetryLookup, FromRows, EraseEnds, CourseOf, EraseCourse, AfterLookup, OwnRow, ResourceId, FindsLater, Same;
    LookupMeans(net, slug, n, 0);
    var (c, lookup) := RetryLookup(net, slug, n, 0);
    count := c;
    SameIs(FindConnector(slug), count);
    forall k | n <= k < n + count
      ensures AfterLookup(net.find(k), slug) == None <==> FindsLater(net.find(k))
    {
      LookupInCodes(net.find(k), slug);
    }
    var last := net.find(n + count - 1);
    LookupInCodes(last, slug);
    LaterMeans(last);
    if last.Answered? {
      RowsSettle(last.rows, slug);
    }
    if lookup.There? {
      ThereMeans(last.rows, slug, lookup.resource);
      var erased := EraseCourse(net, lookup.resource, n + count);
      EraseInCodes(net, lookup.resource, n + count);
      assert (Same(FindConnector(slug), count) + erased.sent)[count..] == erased.sent;
      assert (Same(FindConnector(slug), count) + erased.sent)[..count] == Same(FindConnector(slug), count);
    } else {
      assert Same(FindConnector(slug), count)[..count] == Same(FindConnector(slug), count);
    }
  }

  lemma LaterMeans(r: LookupReply)
    ensures r.Lost? ==> (FindsLater(r) <==> r.fault == Credential)
    ensures r.Answered? ==> (FindsLater(r) <==> r.code == 429 || r.code >= 500)
  {
  }

  lemma ThereMeans(rows: Option<seq<Option<ConnectorRow>>>, slug: string, resource: string)
    requires OwnRow(rows, slug, resource)
    ensures ResourceId(resource) && rows.Some? && |rows.value| == 1 && rows.value[0].Some?
    ensures rows.value[0].value.resourceId == Some(resource)
  {
  }

  predicate TakesEffect(e: Effect) {
    e.commits || AfterRevoke(e.reply) == Finished
  }

  /** What `count` DELETEs of one key leave. */
  function RevokeKeys(net: Net, keys: map<string, Key>, id: string, n: nat, count: nat): map<string, Key> {
    if exists k :: n <= k < n + count && TakesEffect(net.revoke(k)) then Revoked(keys, id) else keys
  }

  lemma RevokeKeysMore(net: Net, keys: map<string, Key>, id: string, n: nat, count: nat)
    ensures var before := RevokeKeys(net, keys, id, n, count);
            RevokeKeys(net, keys, id, n, count + 1)
            == if TakesEffect(net.revoke(n + count)) then Revoked(before, id) else before
  {
    hide TakesEffect;
    assert Revoked(Revoked(keys, id), id) == Revoked(keys, id);
    if TakesEffect(net.revoke(n + count)) {
      assert n <= n + count < n + (count + 1);
    }
  }

  lemma RevokeKeysNone(net: Net, keys: map<string, Key>, id: string, n: nat)
    ensures RevokeKeys(net, keys, id, n, 0) == keys
  {
  }

  /** The keys after the last of these DELETEs. */
  lemma RevokeKeysAre(net: Net, keys: map<string, Key>, id: string, n: nat, before: nat)
    ensures var after := RevokeKeys(net, keys, id, n, before + 1);
            && (after == keys || after == Revoked(keys, id))
            && (AfterRevoke(net.revoke(n + before).reply) == Finished ==> after == Revoked(keys, id))
  {
    hide Revoked;
    if AfterRevoke(net.revoke(n + before).reply) == Finished {
      assert TakesEffect(net.revoke(n + before));
    }
  }

  // ------------------------------------------------------------------- minting

  /** What a bounded creation leaves, how many requests it sent, and how it ended. */
  datatype Minting = Minting(keys: map<string, Key>, count: nat, result: Result<Key, Raw>)

  function Mint(net: Net, keys: map<string, Key>, name: string, n: nat, attempt: nat): Minting
    requires attempt <= MAX_ATTEMPTS
    decreases MAX_ATTEMPTS - attempt
  {
    if attempt == MAX_ATTEMPTS then Minting(keys, 0, Err(Credential))
    else
      var after := PostKeys(net, keys, name, n);
      if net.post(n).Created? && Usable(after, name) then Minting(after, 1, Ok(after[name]))
      else if net.post(n).NotCreated? && net.post(n).fault != Credential then Minting(after, 1, Err(net.post(n).fault))
      else
        var more := Mint(net, after, name, n + 1, attempt + 1);
        more.(count := 1 + more.count)
  }

  /** An attempt that does not settle the creation of a name whose key is `keys[name]`,
      if there is one: it was lost, or its answer carries a malformed key. */
  ghost predicate Misses(net: Net, keys: map<string, Key>, name: string, k: nat) {
    match net.post(k)
    case Created => !Usable(keys, name)
    case NotCreated(_, fault) => fault == Credential
  }

  ghost predicate Creates(net: Net, k: nat) {
    net.post(k).Created? || net.post(k).commits
  }

  /** Main result: what a bounded creation means. The key of the name is the one there
      was, or the one of the first POST that took effect, and nothing else changes.
      Every attempt but the last misses; the last one succeeds with that key, raises
      its own fault, or is the third miss. */
  lemma {:induction false} MintMeans(net: Net, keys: map<string, Key>, name: string, n: nat, attempt: nat)
    requires attempt < MAX_ATTEMPTS
    ensures var m := Mint(net, keys, name, n, attempt);
            && 1 <= m.count <= MAX_ATTEMPTS - attempt
            && (name in keys ==> m.keys == keys)
            && (name !in keys && name !in m.keys ==>
                  m.keys == keys && forall k :: n <= k < n + m.count ==> !Creates(net, k))
            && (name !in keys && name in m.keys ==> exists k :: FirstCreates(net, keys, name, n, m, k))
            && (forall k :: n <= k < n + m.count - 1 ==> Misses(net, m.keys, name, k))
    ensures var m := Mint(net, keys, name, n, attempt);
            match net.post(n + m.count - 1)
            case Created =>
              if Usable(m.keys, name) then m.result == Ok(m.keys[name])
              else m.result == Err(Credential) && m.count == MAX_ATTEMPTS - attempt
            case NotCreated(_, fault) =>
              m.result == Err(fault) && (fault == Credential ==> m.count == MAX_ATTEMPTS - attempt)
    decreases MAX_ATTEMPTS - attempt
  {
    hide Usable, PostKeys;
    PostKeysIs(net, keys, name, n);
    var after := PostKeys(net, keys, name, n);
    var m := Mint(net, keys, name, n, attempt);
    var settled := (net.post(n).Created? && Usable(after, name))
                   || (net.post(n).NotCreated? && net.post(n).fault != Credential);
    if settled || attempt + 1 == MAX_ATTEMPTS {
      if name !in keys && name in after {
        assert FirstCreates(net, keys, name, n, m, n);
      }
    } else {
      MintMeans(net, after, name, n + 1, attempt + 1);
      var more := Mint(net, after, name, n + 1, attempt + 1);
      assert name in after ==> more.keys == after;
      if name !in keys && name in m.keys {
        if name in after {
          assert FirstCreates(net, keys, name, n, m, n);
        } else {
          var k :| FirstCreates(net, after, name, n + 1, more, k);
          assert FirstCreates(net, keys, name, n, m, k);
        }
      }
      UsableSame(after, m.keys, name);
    }
  }

  ghost predicate FirstCreates(net: Net, keys: map<string, Key>, name: string, n: nat, m: Minting, k: nat) {
    && n <= k < n + m.count && Creates(net, k) && (forall j :: n <= j < k ==> !Creates(net, j))
    && m.keys == keys[name := Key(net.id(k), net.secret(k), true)]
  }

  lemma PostKeysIs(net: Net, keys: map<string, Key>, name: string, n: nat)
    ensures var after := PostKeys(net, keys, name, n);
            && (name in keys ==> after == keys)
            && (name !in keys && Creates(net, n) ==> after == keys[name := Key(net.id(n), net.secret(n), true)])
            && (name !in keys && !Creates(net, n) ==> after == keys)
  {
  }

  lemma UsableSame(before: map<string, Key>, after: map<string, Key>, name: string)
    requires name in before ==> after == before
    ensures name in before ==> (Usable(before, name) <==> Usable(after, name))
    ensures name !in before ==> !Usable(before, name)
  {
  }

  /** The service, and the trace of every request it was sent. */
  class Remote {
    const net: Net
    var keys: map<string, Key>
    var sent: seq<Request>

    constructor (net: Net, keys: map<string, Key>)
      ensures this.net == net && this.keys == keys && sent == []
    {
      this.net := net;
      this.keys := keys;
      sent := [];
    }

    // ------------------------------------------------------- single requests

    method Post(name: string) returns (r: Result<Key, Raw>)
      modifies this
      ensures sent == old(sent) + [CreateKey(name)] && keys == PostKeys(net, old(keys), name, |old(sent)|)
      ensures match net.post(|old(sent)|)
              case Created => name in keys && r == Ok(keys[name])
              case NotCreated(_, fault) => r == Err(fault)
    {
      var n := |sent|;
      var fate := net.post(n);
      sent := sent + [CreateKey(name)];
      if name !in keys && (fate.Created? || fate.commits) {
        keys := keys[name := Key(net.id(n), net.secret(n), true)];
      }
      match fate
      case Created => r := Ok(keys[name]);
      case NotCreated(_, fault) => r := Err(fault);
    }

    method Delete(id: string) returns (reply: Reply)
      modifies this
      ensures sent == old(sent) + [RevokeKey(id)] && reply == net.revoke(|old(sent)|).reply
      ensures keys == if TakesEffect(net.revoke(|old(sent)|)) then Revoked(old(keys), id) else old(keys)
    {
      var effect := net.revoke(|sent|);
      sent := sent + [RevokeKey(id)];
      if TakesEffect(effect) {
        keys := Revoked(keys, id);
      }
      reply := effect.reply;
    }

    method DeleteAssignment(agent: string) returns (reply: Reply)
      modifies this`sent
      ensures sent == old(sent) + [RetireAssignment(agent)] && reply == net.retire(|old(sent)|)
    {
      reply := net.retire(|sent|);
      sent := sent + [RetireAssignment(agent)];
    }

    method LookUp(slug: string) returns (reply: LookupReply)
      modifies this`sent
      ensures sent == old(sent) + [FindConnector(slug)] && reply == net.find(|old(sent)|)
    {
      reply := net.find(|sent|);
      sent := sent + [FindConnector(slug)];
    }

    method DeleteResource(resource: string) returns (reply: Reply)
      modifies this`sent
      ensures sent == old(sent) + [EraseResource(resource)] && reply == net.erase(|old(sent)|)
    {
      reply := net.erase(|sent|);
      sent := sent + [EraseResource(resource)];
    }

    /** The new key is asked who it is; nothing changes. */
    method Identity() returns (fault: Option<Raw>)
      modifies this`sent
      ensures sent == old(sent) + [AskIdentity] && fault == net.check(|old(sent)|)
    {
      fault := net.check(|sent|);
      sent := sent + [AskIdentity];
    }

    // ------------------------------------------------------- bounded retries

    /** Success means that no key of this ID is active. */
    method RetryRevoke(id: string) returns (fate: Fate)
      modifies this
      ensures Course(sent, fate) == Sends(old(sent), RevokeCourse(net, id, |old(sent)|))
      ensures keys == RevokeKeys(net, old(keys), id, |old(sent)|, |sent| - |old(sent)|)
      ensures RevokeEnds(net, |old(sent)|, |sent| - |old(sent)|, fate)
      ensures keys == old(keys) || keys == Revoked(old(keys), id)
      ensures fate.Converged? ==> keys == Revoked(old(keys), id)
    {
      hide RevokeEnds, Tried, Retry, Same, CourseOf, Revoked, RevokeKeys, TakesEffect;
      RevokeInCodes(net, id, |sent|);
      TriedStart(RevokeTurns(net), RevokeKey(id), sent);
      RevokeKeysNone(net, keys, id, |sent|);
      var attempt := 0;
      while attempt < MAX_ATTEMPTS
        invariant 0 <= attempt <= MAX_ATTEMPTS && |sent| == |old(sent)| + attempt
        invariant Tried(RevokeTurns(net), RevokeKey(id), old(sent), sent, attempt)
        invariant keys == RevokeKeys(net, old(keys), id, |old(sent)|, attempt)
      {
        RevokeKeysMore(net, old(keys), id, |old(sent)|, attempt);
        ghost var now := sent;
        var reply := Delete(id);
        TriedMore(RevokeTurns(net), RevokeKey(id), old(sent), now, sent, attempt);
        RevokeKeysAre(net, old(keys), id, |old(sent)|, attempt);
        var turn := AfterRevoke(reply);
        attempt := attempt + 1;
        match turn {
          case Finished => return Converged(true);
          case Refused => return Failed;
          case Raises(f) => return Escapes(f);
          case Again =>
        }
      }
      RevokeKeysAre(net, old(keys), id, |old(sent)|, 2);
      TriedOut(RevokeTurns(net), RevokeKey(id), old(sent), sent);
      fate := Failed;
    }

    method RetryAssignmentRetire(agent: string) returns (fate: Fate)
      modifies this`sent
      ensures Course(sent, fate) == Sends(old(sent), RetireCourse(net, agent, |old(sent)|))
      ensures RetireEnds(net, |old(sent)|, |sent| - |old(sent)|, fate)
    {
      hide RetireEnds, Tried, Retry, Same, CourseOf;
      RetireInCodes(net, agent, |sent|);
      TriedStart(RetireTurns(net), RetireAssignment(agent), sent);
      var attempt := 0;
      while attempt < MAX_ATTEMPTS
        invariant 0 <= attempt <= MAX_ATTEMPTS && |sent| == |old(sent)| + attempt
        invariant Tried(RetireTurns(net), RetireAssignment(agent), old(sent), sent, attempt)
      {
        ghost var now := sent;
        var reply := DeleteAssignment(agent);
        TriedMore(RetireTurns(net), RetireAssignment(agent), old(sent), now, sent, attempt);
        var turn := AfterRetire(reply);
        attempt := attempt + 1;
        match turn {
          case Finished => return Converged(true);
          case Refused => return Failed;
          case Raises(f) => return Escapes(f);
          case Again =>
        }
      }
      TriedOut(RetireTurns(net), RetireAssignment(agent), old(sent), sent);
      fate := Failed;
    }

    method RetryResourceDelete(resource: string) returns (fate: Fate)
      modifies this`sent
      ensures Course(sent, fate) == Sends(old(sent), EraseCourse(net, resource, |old(sent)|))
      ensures if ResourceId(resource) then EraseEnds(net, |old(sent)|, |sent| - |old(sent)|, fate)
              else sent == old(sent) && fate == Failed
    {
      hide EraseEnds, ResourceId, Tried, Retry, Same, CourseOf;
      EraseInCodes(net, resource, |sent|);
      TriedStart(EraseTurns(net), EraseResource(resource), sent);
      if !ResourceId(resource) {
        return Failed;
      }
      var attempt := 0;
      while attempt < MAX_ATTEMPTS
        invariant 0 <= attempt <= MAX_ATTEMPTS && |sent| == |old(sent)| + attempt
        invariant Tried(EraseTurns(net), EraseResource(resource), old(sent), sent, attempt)
      {
        ghost var now := sent;
        var reply := DeleteResource(resource);
        TriedMore(EraseTurns(net), EraseResource(resource), old(sent), now, sent, attempt);
        var turn := AfterErase(reply);
        attempt := attempt + 1;
        match turn {
          case Finished => return Converged(true);
          case Refused => return Failed;
          case Raises(f) => return Escapes(f);
          case Again =>
        }
      }
      TriedOut(EraseTurns(net), EraseResource(resource), old(sent), sent);
      fate := Failed;
    }

    /** Looks the Connector up, and deletes the one resource that the lookup shows. */
    method RetryConnectorResourceDelete(slug: string) returns (fate: Fate, ghost count: nat)
      modifies this`sent
      ensures Course(sent, fate) == Sends(old(sent), ConnectorCourse(net, slug, |old(sent)|))
      ensures |old(sent)| <= |sent|
      ensures ConnectorEnds(net, slug, |old(sent)|, count, Course(sent[|old(sent)|..], fate))
    {
      hide AfterLookup, EraseCourse, ConnectorEnds, ConnectorCourse, EraseEnds, ResourceId, Looking, LookedTo, Sends;
      count := ConnectorInCodes(net, slug, |sent|);
      LookingStarts(net, slug, sent);
      var attempt := 0;
      var lookup := NoLookup;
      while attempt < MAX_ATTEMPTS
        invariant 0 <= attempt <= MAX_ATTEMPTS && lookup == NoLookup
        invariant Looking(net, slug, old(sent), sent, attempt)
      {
        ghost var now := sent;
        var reply := LookUp(slug);
        LookingMore(net, slug, old(sent), now, sent, attempt);
        var settled := AfterLookup(reply, slug);
        attempt := attempt + 1;
        if settled.Some? {
          lookup := settled.value;
          break;
        }
      }
      if attempt == MAX_ATTEMPTS && Looking(net, slug, old(sent), sent, attempt) {
        LookingOut(net, slug, old(sent), sent);
      }
      ghost var asked := sent;
      LookupDone(net, slug, old(sent), asked, lookup);
      match lookup {
        case NoLookup => fate := Failed;
        case NotThere => fate := Converged(false);
        case LookupEscapes(f) => fate := Escapes(f);
        case There(resource) => fate := RetryResourceDelete(resource);
      }
      CourseSent(net, slug, old(sent), sent, fate, count);
    }

    /** At most three attempts; every failed attempt but a local fault is tried again,
        also an answer whose key is malformed. */
    method MintOrdinaryKey(name: string) returns (r: Result<Key, Raw>)
      modifies this
      ensures |old(sent)| < |sent| <= |old(sent)| + MAX_ATTEMPTS
      ensures sent == old(sent) + Same(CreateKey(name), |sent| - |old(sent)|)
      ensures Minting(keys, |sent| - |old(sent)|, r) == Mint(net, old(keys), name, |old(sent)|, 0)
      ensures Posted(old(keys), name, keys)
      ensures r.Ok? ==> name in keys && keys[name] == r.value && KeyId(r.value.id) && ApiKey(r.value.secret)
      ensures r == Err(Credential) ==> |sent| == |old(sent)| + MAX_ATTEMPTS
    {
      hide Mint, PostKeys, Usable, Posted;
      var attempt := 0;
      MintEnds(net, keys, name, |sent|);
      while attempt < MAX_ATTEMPTS
        invariant 0 <= attempt <= MAX_ATTEMPTS && |sent| == |old(sent)| + attempt
        invariant sent == old(sent) + Same(CreateKey(name), attempt)
        invariant MintsOn(net, old(keys), name, |old(sent)|, keys, attempt)
      {
        MintOne(net, old(keys), name, |old(sent)|, keys, attempt);
        var minted := Post(name);
        attempt := attempt + 1;
        UsableIs(keys, name);
        if minted.Ok? && KeyId(minted.value.id) && ApiKey(minted.value.secret) {
          return minted;
        }
        if minted.Err? && (minted.error == Os || minted.error == Other) {
          return minted;
        }
      }
      MintNoMore(net, old(keys), name, |old(sent)|, keys);
      r := Err(Credential);
    }
  }

  /** The attempts so far missed, and left these keys. */
  ghost predicate MintsOn(net: Net, before: map<string, Key>, name: string, n: nat, now: map<string, Key>, attempt: nat)
    requires attempt <= MAX_ATTEMPTS
  {
    var more := Mint(net, now, name, n + attempt, attempt);
    Mint(net, before, name, n, 0) == more.(count := attempt + more.count)
  }

  lemma MintOne(net: Net, before: map<string, Key>, name: string, n: nat, now: map<string, Key>, attempt: nat)
    requires attempt < MAX_ATTEMPTS && MintsOn(net, before, name, n, now, attempt)
    ensures var after, m := PostKeys(net, now, name, n + attempt), Mint(net, before, name, n, 0);
            match net.post(n + attempt)
            case Created =>
              if Usable(after, name) then m == Minting(after, attempt + 1, Ok(after[name]))
              else MintsOn(net, before, name, n, after, attempt + 1)
            case NotCreated(_, fault) =>
              if fault != Credential then m == Minting(after, attempt + 1, Err(fault))
              else MintsOn(net, before, name, n, after, attempt + 1)
  {
    hide PostKeys;
  }

  lemma MintNoMore(net: Net, before: map<string, Key>, name: string, n: nat, now: map<string, Key>)
    requires MintsOn(net, before, name, n, now, MAX_ATTEMPTS)
    ensures Mint(net, before, name, n, 0) == Minting(now, MAX_ATTEMPTS, Err(Credential))
  {
  }

  lemma UsableIs(keys: map<string, Key>, name: string)
    ensures Usable(keys, name) <==> name in keys && KeyId(keys[name].id) && ApiKey(keys[name].secret)
  {
  }

  /** What any bounded creation leaves. */
  lemma MintEnds(net: Net, keys: map<string, Key>, name: string, n: nat)
    ensures var m := Mint(net, keys, name, n, 0);
            && 1 <= m.count <= MAX_ATTEMPTS && Posted(keys, name, m.keys)
            && (m.result.Ok? ==> Usable(m.keys, name) && m.keys[name] == m.result.value)
            && (m.result == Err(Credential) ==> m.count == MAX_ATTEMPTS)
  {
    MintMeans(net, keys, name, n, 0);
    hide Mint, Usable;
  }

  /** Some lookups were made, and none has settled anything. */
  ghost predicate Looking(net: Net, slug: string, before: seq<Request>, now: seq<Request>, attempt: nat)
    requires attempt <= MAX_ATTEMPTS
  {
    && now == before + Same(FindConnector(slug), attempt)
    && RetryLookup(net, slug, |before|, 0)
       == (attempt + RetryLookup(net, slug, |now|, attempt).0, RetryLookup(net, slug, |now|, attempt).1)
  }

  /** The lookups have settled, or given up. */
  ghost predicate LookedTo(net: Net, slug: string, before: seq<Request>, asked: seq<Request>, lookup: Lookup) {
    && |before| <= |asked| && asked == before + Same(FindConnector(slug), |asked| - |before|)
    && RetryLookup(net, slug, |before|, 0) == (|asked| - |before|, lookup)
  }

  lemma LookingStarts(net: Net, slug: string, before: seq<Request>)
    ensures Looking(net, slug, before, before, 0)
  {
  }

  lemma LookingMore(net: Net, slug: string, before: seq<Request>, now: seq<Request>, sent: seq<Request>, attempt: nat)
    requires attempt < MAX_ATTEMPTS && Looking(net, slug, before, now, attempt) && sent == now + [FindConnector(slug)]
    ensures var settled := AfterLookup(net.find(|now|), slug);
            if settled.Some? then LookedTo(net, slug, before, sent, settled.value)
            else Looking(net, slug, before, sent, attempt + 1)
  {
    hide AfterLookup, RetryLookup;
    LookupOne(net, slug, |now|, attempt);
    assert Same(FindConnector(slug), attempt) + [FindConnector(slug)] == Same(FindConnector(slug), attempt + 1);
  }

  lemma LookingOut(net: Net, slug: string, before: seq<Request>, now: seq<Request>)
    requires Looking(net, slug, before, now, MAX_ATTEMPTS)
    ensures LookedTo(net, slug, before, now, NoLookup)
  {
  }

  /** What the lookups came to decides the rest. */
  lemma LookupDone(net: Net, slug: string, before: seq<Request>, asked: seq<Request>, lookup: Lookup)
    requires LookedTo(net, slug, before, asked, lookup)
    ensures var whole := Sends(before, ConnectorCourse(net, slug, |before|));
            && (lookup.NoLookup? ==> whole == Course(asked, Failed))
            && (lookup.NotThere? ==> whole == Course(asked, Converged(false)))
            && (lookup.LookupEscapes? ==> whole == Course(asked, Escapes(lookup.fault)))
            && (lookup.There? ==> whole == Sends(asked, EraseCourse(net, lookup.resource, |asked|)))
  {
    hide RetryLookup, EraseCourse, Same;
  }

  lemma CourseSent(net: Net, slug: string, before: seq<Request>, sent: seq<Request>, fate: Fate, count: nat)
    requires Course(sent, fate) == Sends(before, ConnectorCourse(net, slug, |before|))
    requires ConnectorEnds(net, slug, |before|, count, ConnectorCourse(net, slug, |before|))
    ensures before <= sent && ConnectorEnds(net, slug, |before|, count, Course(sent[|before|..], fate))
  {
    hide ConnectorCourse, ConnectorEnds;
    assert sent[|before|..] == ConnectorCourse(net, slug, |before|).sent;
  }

  /** What a course adds to what was sent before. */
  function Sends(before: seq<Request>, course: Course): Course {
    course.(sent := before + course.sent)
  }

  /** Some attempts were made, and every answer so far asked for another. */
  ghost predicate Tried(turn: nat -> Turn, r: Request, before: seq<Request>, now: seq<Request>, attempt: nat)
    requires attempt <= MAX_ATTEMPTS
  {
    && now == before + Same(r, attempt)
    && Retry(turn, |before|, 0) == (attempt + Retry(turn, |now|, attempt).0, Retry(turn, |now|, attempt).1)
  }

  lemma TriedStart(turn: nat -> Turn, r: Request, before: seq<Request>)
    ensures Tried(turn, r, before, before, 0)
  {
  }

  /** One more attempt, and what its answer means. */
  lemma TriedMore(turn: nat -> Turn, r: Request, before: seq<Request>, now: seq<Request>, sent: seq<Request>,
                  attempt: nat)
    requires attempt < MAX_ATTEMPTS && Tried(turn, r, before, now, attempt) && sent == now + [r]
    ensures var whole := Sends(before, CourseOf(turn, r, |before|));
            match turn(|now|)
            case Again => Tried(turn, r, before, sent, attempt + 1)
            case Finished => whole == Course(sent, Converged(true))
            case Refused => whole == Course(sent, Failed)
            case Raises(f) => whole == Course(sent, Escapes(f))
  {
    assert Same(r, attempt) + [r] == Same(r, attempt + 1);
  }

  lemma TriedOut(turn: nat -> Turn, r: Request, before: seq<Request>, now: seq<Request>)
    requires Tried(turn, r, before, now, MAX_ATTEMPTS)
    ensures Sends(before, CourseOf(turn, r, |before|)) == Course(now, Failed)
  {
  }
}
