/** Text in the order Python sorts it, and lists without repeats. */
module CiSorting {
  predicate Less(a: string, b: string) {
    if b == "" then false
    else if a == "" then true
    else a[0] < b[0] || (a[0] == b[0] && Less(a[1..], b[1..]))
  }

  lemma {:induction false} LessTotal(a: string, b: string)
    ensures Less(a, b) || Less(b, a) || a == b
  {
    if a != "" && b != "" && a[0] == b[0] {
      LessTotal(a[1..], b[1..]);
      if a[1..] == b[1..] {
        assert a == [a[0]] + a[1..] && b == [b[0]] + b[1..];
      }
    }
  }

  lemma {:induction false} LessTransitive(a: string, b: string, c: string)
    requires Less(a, b) && Less(b, c)
    ensures Less(a, c)
  {
    if a != "" && a[0] == b[0] && b[0] == c[0] {
      LessTransitive(a[1..], b[1..], c[1..]);
    }
  }

  lemma {:induction false} LessIrreflexive(a: string)
    ensures !Less(a, a)
  {
    if a != "" {
      LessIrreflexive(a[1..]);
    }
  }

  ghost predicate Ascending(s: seq<string>) {
    forall i, j :: 0 <= i < j < |s| ==> Less(s[i], s[j])
  }

  /** `x` in its place, unless it is there already. */
  function Insert(x: string, s: seq<string>): seq<string> {
    if s == [] then [x]
    else if Less(x, s[0]) then [x] + s
    else if x == s[0] then s
    else [s[0]] + Insert(x, s[1..])
  }

  lemma {:induction false} InsertKeeps(x: string, s: seq<string>)
    requires Ascending(s)
    ensures Ascending(Insert(x, s))
    ensures forall y :: y in Insert(x, s) <==> y == x || y in s
  {
    if s == [] {
    } else if Less(x, s[0]) {
      forall j | 0 < j < |s|
        ensures Less(x, s[j])
      {
        LessTransitive(x, s[0], s[j]);
      }
    } else if x != s[0] {
      LessTotal(x, s[0]);
      InsertKeeps(x, s[1..]);
      forall y | y in Insert(x, s[1..])
        ensures Less(s[0], y)
      {
      }
    }
  }

  /** Sorted and without repeats. */
  function SortedSet(s: seq<string>): seq<string> {
    if s == [] then [] else Insert(s[0], SortedSet(s[1..]))
  }

  /** Main result about sorting: strictly ascending, so without repeats, and with
      exactly the same members. */
  lemma {:induction false} SortedSetIs(s: seq<string>)
    ensures Ascending(SortedSet(s))
    ensures forall y :: y in SortedSet(s) <==> y in s
    ensures forall i, j :: 0 <= i < j < |SortedSet(s)| ==> SortedSet(s)[i] != SortedSet(s)[j]
  {
    if s != [] {
      SortedSetIs(s[1..]);
      InsertKeeps(s[0], SortedSet(s[1..]));
      forall i, j | 0 <= i < j < |SortedSet(s)|
        ensures SortedSet(s)[i] != SortedSet(s)[j]
      {
        LessIrreflexive(SortedSet(s)[i]);
      }
    }
  }

  lemma {:induction false} SamePrefix(p: string, a: string, b: string)
    ensures Less(p + a, p + b) == Less(a, b)
  {
    if p == "" {
      assert p + a == a && p + b == b;
    } else {
      assert (p + a)[1..] == p[1..] + a && (p + b)[1..] == p[1..] + b;
      SamePrefix(p[1..], a, b);
    }
  }

  lemma TwoSorted(a: string, b: string)
    requires Less(b, a) && !Less(a, b) && a != b
    ensures SortedSet([a, b]) == [b, a]
  {
    hide Less;
    assert [a, b][1..] == [b] && [b][1..] == [];
    assert SortedSet([b]) == [b] by {
      assert SortedSet([]) == [];
    }
    assert Insert(a, []) == [a];
  }

  /** First occurrences, in order. */
  function Unique(s: seq<string>): seq<string> {
    if s == [] then []
    else
      var before := Unique(s[..|s| - 1]);
      if s[|s| - 1] in before then before else before + [s[|s| - 1]]
  }

  lemma {:induction false} UniqueIs(s: seq<string>)
    ensures forall y :: y in Unique(s) <==> y in s
    ensures forall i, j :: 0 <= i < j < |Unique(s)| ==> Unique(s)[i] != Unique(s)[j]
  {
    if s != [] {
      UniqueIs(s[..|s| - 1]);
      assert s == s[..|s| - 1] + [s[|s| - 1]];
    }
  }
}

/** The cleanup of one run: which keys, devices, Connectors and resources it deletes,
    in what order, and what it reports. */
module CiReconcile {
  import opened Wrappers
  import opened CiShapes
  import opened CiRemote
  import opened CiNames
  import opened CiInventory
  import opened CiSorting

  const CUSTOMER_SCOPES := ["qurl:agent", "qurl:read", "qurl:resolve", "qurl:write"]
  const DEVICE_SCOPES := ["qurl:read", "qurl:resolve", "qurl:write"]

  datatype Category =
    | CredentialInventory(credentialBound: bool) | ResourceInventory(resourceBound: bool)
    | CredentialShape | CredentialRevoke | AssignmentRetire | ConnectorResource | ResourceShape | ResourceDelete

  datatype Inventory = Inventory(credentials: Option<seq<Row>>, credentialFailure: Option<Category>,
                                 resources: Option<seq<Row>>, resourceFailure: Option<Category>)

  datatype Op =
    | Revoke(id: string) | Retire(agent: string) | DeleteConnector(connector: string) | DeleteResource(resource: string)

  // ------------------------------------------------------------------ targets

  datatype Verdict = Skip | BadShape | Target(id: string)

  function Typed(row: Row, kind: string, scopes: seq<string>, id: string): Verdict {
    if row.kind != Some(kind) || row.scopes != Some(scopes) then BadShape
    else if row.status == Some("active") then Target(id)
    else Skip
  }

  function Judge(run: RunCleanup, row: Row): Verdict {
    if row.keyId == None || !KeyId(row.keyId.value) || row.name == None then BadShape
    else
      var customer, device := row.name.value in CredentialNames(run), row.name.value in DeviceKeyNames(run);
      if !customer && !device then Skip
      else if row.status != Some("active") && row.status != Some("revoked") then BadShape
      else if customer then Typed(row, "api_key", CUSTOMER_SCOPES, row.keyId.value)
      else Typed(row, "device", DEVICE_SCOPES, row.keyId.value)
  }

  /** An active, well-shaped key that the run's own names claim. */
  predicate Claimed(run: RunCleanup, row: Row) {
    && row.keyId.Some? && KeyId(row.keyId.value) && row.name.Some? && row.status == Some("active")
    && (|| (row.name.value in CredentialNames(run) && row.kind == Some("api_key")
            && row.scopes == Some(CUSTOMER_SCOPES))
        || (row.name.value in DeviceKeyNames(run) && row.kind == Some("device") && row.scopes == Some(DEVICE_SCOPES)))
  }

  /** A row that a cleanup cannot judge: without a key's ID and a name or, under one of
      the run's own names, with a status, a kind or scopes that such a key cannot have. */
  predicate OutOfShape(run: RunCleanup, row: Row) {
    || row.name == None || row.keyId == None || !KeyId(row.keyId.value)
    || (row.name.value in CredentialNames(run)
        && (|| row.status !in {Some("active"), Some("revoked")} || row.kind != Some("api_key")
            || row.scopes != Some(["qurl:agent", "qurl:read", "qurl:resolve", "qurl:write"])))
    || (row.name.value in DeviceKeyNames(run)
        && (|| row.status !in {Some("active"), Some("revoked")} || row.kind != Some("device")
            || row.scopes != Some(["qurl:read", "qurl:resolve", "qurl:write"])))
  }

  /** Main result: what becomes of a row, in both directions. */
  lemma JudgeIsExact(run: RunCleanup, row: Row, id: string)
    ensures Judge(run, row) == Target(id) <==> Claimed(run, row) && row.keyId == Some(id)
    ensures Judge(run, row) == BadShape <==> OutOfShape(run, row)
  {
    hide CredentialNames, DeviceKeyNames, KeyId;
    if row.name.Some? && row.name.value in CredentialNames(run) {
      NamesDisjoint(run, run, row.name.value);
    }
  }

  function TargetIds(run: RunCleanup, rows: seq<Row>): seq<string> {
    if rows == [] then []
    else
      var verdict := Judge(run, rows[|rows| - 1]);
      TargetIds(run, rows[..|rows| - 1]) + (if verdict.Target? then [verdict.id] else [])
  }

  function BadRows(run: RunCleanup, rows: seq<Row>): nat {
    if rows == [] then 0
    else BadRows(run, rows[..|rows| - 1]) + (if Judge(run, rows[|rows| - 1]).BadShape? then 1 else 0)
  }

  lemma {:induction false} TargetIdsAre(run: RunCleanup, rows: seq<Row>, id: string)
    ensures id in TargetIds(run, rows) <==> exists row :: row in rows && Claimed(run, row) && row.keyId == Some(id)
  {
    hide Judge, Claimed;
    if rows != [] {
      var last := rows[|rows| - 1];
      assert rows == rows[..|rows| - 1] + [last];
      TargetIdsAre(run, rows[..|rows| - 1], id);
      JudgeIsExact(run, last, id);
    }
  }

  method CollectKeys(run: RunCleanup, rows: seq<Row>) returns (ids: seq<string>, bad: nat)
    ensures ids == TargetIds(run, rows) && bad == BadRows(run, rows)
  {
    ids, bad := [], 0;
    for i := 0 to |rows|
      invariant ids == TargetIds(run, rows[..i]) && bad == BadRows(run, rows[..i])
    {
      assert rows[..i + 1][..i] == rows[..i];
      var verdict := Judge(run, rows[i]);
      match verdict
      case Skip =>
      case BadShape => bad := bad + 1;
      case Target(id) => ids := ids + [id];
    }
    assert rows[..|rows|] == rows;
  }

  predicate OwnResource(run: RunCleanup, row: Row) {
    row.description == Some(Description(run))
  }

  function ResourceIds(run: RunCleanup, rows: seq<Row>): seq<string> {
    if rows == [] then []
    else
      var row := rows[|rows| - 1];
      ResourceIds(run, rows[..|rows| - 1])
          + (if OwnResource(run, row) && row.resourceId.Some? then [row.resourceId.value] else [])
  }

  function BadResources(run: RunCleanup, rows: seq<Row>): nat {
    if rows == [] then 0
    else
      var row := rows[|rows| - 1];
      BadResources(run, rows[..|rows| - 1]) + (if OwnResource(run, row) && row.resourceId == None then 1 else 0)
  }

  lemma {:induction false} ResourceIdsAre(run: RunCleanup, rows: seq<Row>, id: string)
    ensures id in ResourceIds(run, rows)
            <==> exists row :: row in rows && row.description == Some(Description(run)) && row.resourceId == Some(id)
  {
    hide Description;
    if rows != [] {
      assert rows == rows[..|rows| - 1] + [rows[|rows| - 1]];
      ResourceIdsAre(run, rows[..|rows| - 1], id);
    }
  }

  method CollectResources(run: RunCleanup, rows: seq<Row>) returns (ids: seq<string>, bad: nat)
    ensures ids == ResourceIds(run, rows) && bad == BadResources(run, rows)
  {
    ids, bad := [], 0;
    for i := 0 to |rows|
      invariant ids == ResourceIds(run, rows[..i]) && bad == BadResources(run, rows[..i])
    {
      assert rows[..i + 1][..i] == rows[..i];
      if OwnResource(run, rows[i]) {
        if rows[i].resourceId == None {
          bad := bad + 1;
        } else {
          ids := ids + [rows[i].resourceId.value];
        }
      }
    }
    assert rows[..|rows|] == rows;
  }

  // --------------------------------------------------------------------- plan

  function Rows0(rows: Option<seq<Row>>): seq<Row> {
    if rows.Some? then rows.value else []
  }

  function Each(ids: seq<string>, op: string -> Op): seq<Op> {
    seq(|ids|, i requires 0 <= i < |ids| => op(ids[i]))
  }

  function RevokeEach(ids: seq<string>): seq<Op> {
    Each(ids, id => Revoke(id))
  }

  function Revokes(run: RunCleanup, inventory: Inventory): seq<Op> {
    RevokeEach(SortedSet(TargetIds(run, Rows0(inventory.credentials))))
  }

  function Retirements(run: RunCleanup): seq<Op> {
    Each(SortedSet(AgentIds(run)), id => Retire(id))
  }

  function ConnectorDeletes(run: RunCleanup, digest: seq<string> -> string): seq<Op> {
    Each(SortedSet(ConnectorIds(run, digest)), id => DeleteConnector(id))
  }

  function DeleteEach(ids: seq<string>): seq<Op> {
    Each(ids, id => DeleteResource(id))
  }

  function ResourceDeletes(run: RunCleanup, inventory: Inventory): seq<Op> {
    DeleteEach(Unique(ResourceIds(run, Rows0(inventory.resources))))
  }

  function Plan(run: RunCleanup, inventory: Inventory, digest: seq<string> -> string): seq<Op> {
    Revokes(run, inventory) + Retirements(run) + ConnectorDeletes(run, digest) + ResourceDeletes(run, inventory)
  }

  function Rank(op: Op): nat {
    match op
    case Revoke(_) => 0
    case Retire(_) => 1
    case DeleteConnector(_) => 2
    case DeleteResource(_) => 3
  }

  /** Main result: the plan is exact. A key is revoked exactly when some row of the
      inventory is an active, well-shaped key under one of the run's own names; every
      device, every Connector and every resource the run describes is in it; nothing else
      is. */
  lemma PlanIsExact(run: RunCleanup, inventory: Inventory, digest: seq<string> -> string, op: Op)
    ensures var wanted := match op
              case Revoke(id) =>
                exists row :: row in Rows0(inventory.credentials) && Claimed(run, row) && row.keyId == Some(id)
              case Retire(id) => id in AgentIds(run)
              case DeleteConnector(id) => id in ConnectorIds(run, digest)
              case DeleteResource(id) =>
                exists row :: && row in Rows0(inventory.resources) && row.description == Some(Description(run))
                              && row.resourceId == Some(id);
            op in Plan(run, inventory, digest) <==> wanted
  {
    hide TargetIds, ResourceIds, Claimed, Description, AgentIds, ConnectorIds, SortedSet, Unique;
    var keys, resources := TargetIds(run, Rows0(inventory.credentials)), ResourceIds(run, Rows0(inventory.resources));
    SortedSetIs(keys);
    SortedSetIs(AgentIds(run));
    SortedSetIs(ConnectorIds(run, digest));
    UniqueIs(resources);
    EachIs(SortedSet(keys), id => Revoke(id), op);
    EachIs(SortedSet(AgentIds(run)), id => Retire(id), op);
    EachIs(SortedSet(ConnectorIds(run, digest)), id => DeleteConnector(id), op);
    EachIs(Unique(resources), id => DeleteResource(id), op);
    match op {
      case Revoke(id) => TargetIdsAre(run, Rows0(inventory.credentials), id);
      case DeleteResource(id) => ResourceIdsAre(run, Rows0(inventory.resources), id);
      case _ =>
    }
  }

  lemma EachIs(ids: seq<string>, make: string -> Op, op: Op)
    ensures op in Each(ids, make) <==> exists id :: id in ids && op == make(id)
  {
    if id :| id in ids && op == make(id) {
      var i :| 0 <= i < |ids| && ids[i] == id;
      assert Each(ids, make)[i] == op;
    }
  }

  /** One kind of operation, and none of it twice. */
  ghost predicate Group(ops: seq<Op>, rank: nat) {
    && (forall i :: 0 <= i < |ops| ==> Rank(ops[i]) == rank)
    && (forall i, j :: 0 <= i < j < |ops| ==> ops[i] != ops[j])
  }

  ghost predicate InOrder(ops: seq<Op>) {
    forall i, j :: 0 <= i < j < |ops| ==> Rank(ops[i]) <= Rank(ops[j]) && ops[i] != ops[j]
  }

  lemma GroupsInOrder(a: seq<Op>, b: seq<Op>, c: seq<Op>, d: seq<Op>)
    requires Group(a, 0) && Group(b, 1) && Group(c, 2) && Group(d, 3)
    ensures InOrder(a + b + c + d)
  {
  }

  /** Main result: revokes come before retirements, those before Connectors, those
      before resources, and nothing is attempted twice. */
  lemma PlanInOrder(run: RunCleanup, inventory: Inventory, digest: seq<string> -> string)
    ensures InOrder(Plan(run, inventory, digest))
  {
    SortedSetIs(TargetIds(run, Rows0(inventory.credentials)));
    SortedSetIs(AgentIds(run));
    SortedSetIs(ConnectorIds(run, digest));
    UniqueIs(ResourceIds(run, Rows0(inventory.resources)));
    hide TargetIds, ResourceIds, AgentIds, ConnectorIds, SortedSet, Unique, Ascending;
    GroupsInOrder(Revokes(run, inventory), Retirements(run), ConnectorDeletes(run, digest),
                  ResourceDeletes(run, inventory));
  }

  // ----------------------------------------------------------------- attempts

  /** One attempted target: what was sent for it, and how it fared. */
  datatype Done = Done(op: Op, sent: seq<Request>, fate: Fate)

  /** What one target makes the service receive from the n-th request on, and how that
      ends. */
  function Try(net: Net, op: Op, n: nat): Done {
    var course := match op
      case Revoke(id) => RevokeCourse(net, id, n)
      case Retire(id) => RetireCourse(net, id, n)
      case DeleteConnector(id) => ConnectorCourse(net, id, n)
      case DeleteResource(id) => EraseCourse(net, id, n);
    Done(op, course.sent, course.fate)
  }

  function Sent(log: seq<Done>): seq<Request> {
    if log == [] then [] else Sent(log[..|log| - 1]) + log[|log| - 1].sent
  }

  /** A fault escaped from the last target. */
  predicate Broken(log: seq<Done>) {
    log != [] && log[|log| - 1].fate.Escapes?
  }

  function FaultOf(log: seq<Done>): Option<Raw> {
    if Broken(log) then Some(log[|log| - 1].fate.fault) else None
  }

  /** Attempting targets in order, each whatever became of the one before, until a
      fault escapes. */
  function Attempts(net: Net, ops: seq<Op>, n: nat): seq<Done> {
    if ops == [] then []
    else
      var before := Attempts(net, ops[..|ops| - 1], n);
      if Broken(before) then before else before + [Try(net, ops[|ops| - 1], n + |Sent(before)|)]
  }

  lemma SentMore(log: seq<Done>, done: Done)
    ensures Sent(log + [done]) == Sent(log) + done.sent
  {
    assert (log + [done])[..|log|] == log;
  }

  lemma {:induction false} SentBoth(log: seq<Done>, more: seq<Done>)
    ensures Sent(log + more) == Sent(log) + Sent(more)
  {
    if more == [] {
      assert log + more == log;
    } else {
      assert (log + more)[..|log + more| - 1] == log + more[..|more| - 1];
      SentBoth(log, more[..|more| - 1]);
    }
  }

  /** What is attempted follows the plan: all of it, or its beginning up to the target
      whose fault escaped. */
  ghost predicate Ran(ops: seq<Op>, log: seq<Done>) {
    && |log| <= |ops|
    && (forall i :: 0 <= i < |log| ==> log[i].op == ops[i])
    && (forall i :: 0 <= i < |log| - 1 ==> !log[i].fate.Escapes?)
    && (!Broken(log) ==> |log| == |ops|)
  }

  lemma AttemptsLast(net: Net, ops: seq<Op>, n: nat)
    requires ops != []
    ensures var before := Attempts(net, ops[..|ops| - 1], n);
            Attempts(net, ops, n)
            == if Broken(before) then before else before + [Try(net, ops[|ops| - 1], n + |Sent(before)|)]
  {
    hide Try, Sent, Broken;
  }

  lemma AttemptsMore(net: Net, ops: seq<Op>, op: Op, n: nat)
    ensures var log := Attempts(net, ops, n);
            Attempts(net, ops + [op], n) == if Broken(log) then log else log + [Try(net, op, n + |Sent(log)|)]
  {
    hide *;
    var all := ops + [op];
    assert all[|all| - 1] == op && all[..|all| - 1] == ops;
    AttemptsLast(net, all, n);
  }

  lemma TryFor(net: Net, op: Op, n: nat)
    ensures Try(net, op, n).op == op
  {
  }

  lemma RanMore(ops: seq<Op>, log: seq<Done>, done: Done)
    requires Ran(ops, log)
    ensures if Broken(log) then Ran(ops + [done.op], log) else Ran(ops + [done.op], log + [done])
  {
  }

  lemma {:induction false} AttemptsRan(net: Net, ops: seq<Op>, n: nat)
    ensures Ran(ops, Attempts(net, ops, n))
  {
    hide Try, Ran, Sent, Attempts;
    if ops == [] {
      NoAttempts(net, n);
    } else {
      var before, op := ops[..|ops| - 1], ops[|ops| - 1];
      assert ops == before + [op];
      var log := Attempts(net, before, n);
      AttemptsRan(net, before, n);
      AttemptsMore(net, before, op, n);
      TryFor(net, op, n + |Sent(log)|);
      RanMore(before, log, Try(net, op, n + |Sent(log)|));
    }
  }

  lemma NoAttempts(net: Net, n: nat)
    ensures Attempts(net, [], n) == [] && Sent([]) == [] && Ran([], [])
  {
  }

  lemma BrokenLater(log: seq<Done>, more: seq<Done>)
    requires !Broken(log)
    ensures Broken(log + more) <==> Broken(more)
  {
    if more == [] {
      assert log + more == log;
    }
  }

  /** One list of targets after another. */
  lemma {:induction false} AttemptsBoth(net: Net, a: seq<Op>, b: seq<Op>, n: nat)
    ensures var log := Attempts(net, a, n);
            Attempts(net, a + b, n) == if Broken(log) then log else log + Attempts(net, b, n + |Sent(log)|)
  {
    hide Try, Sent, Attempts, Broken;
    var log := Attempts(net, a, n);
    if b == [] {
      assert a + b == a;
      NoAttempts(net, n + |Sent(log)|);
    } else {
      var init, op := b[..|b| - 1], b[|b| - 1];
      assert a + b == a + init + [op] && b == init + [op];
      AttemptsBoth(net, a, init, n);
      AttemptsMore(net, a + init, op, n);
      AttemptsMore(net, init, op, n + |Sent(log)|);
      if !Broken(log) {
        var more := Attempts(net, init, n + |Sent(log)|);
        SentBoth(log, more);
        BrokenLater(log, more);
        var done := Try(net, op, n + |Sent(log)| + |Sent(more)|);
        assert log + (more + [done]) == log + more + [done];
      }
    }
  }

  /** The request that names a target. */
  function Naming(op: Op): Request {
    match op
    case Revoke(id) => RevokeKey(id)
    case Retire(id) => RetireAssignment(id)
    case DeleteConnector(id) => FindConnector(id)
    case DeleteResource(id) => EraseResource(id)
  }

  /** A resource that some answered lookup showed as this Connector's own. */
  ghost predicate ShownFor(net: Net, slug: string, resource: string) {
    exists k :: AfterLookup(net.find(k), slug) == Some(There(resource))
  }

  /** Every request of a target names it, or is for the resource of that Connector. */
  ghost predicate Aimed(net: Net, op: Op, r: Request) {
    r == Naming(op) || (op.DeleteConnector? && r.EraseResource? && ShownFor(net, op.connector, r.resource))
  }

  predicate Sendable(op: Op) {
    op.DeleteResource? ==> ResourceId(op.resource)
  }

  lemma CourseIs(turn: nat -> Turn, r: Request, n: nat)
    ensures var c := CourseOf(turn, r, n);
            1 <= |c.sent| <= MAX_ATTEMPTS && forall i :: 0 <= i < |c.sent| ==> c.sent[i] == r
  {
    RetryMeans(turn, n, 0);
  }

  /** A target that can be sent at all is requested, first of all under its own name;
      nothing is sent that is not for it. */
  lemma TryRequests(net: Net, op: Op, n: nat)
    ensures var done := Try(net, op, n);
            && (Sendable(op) ==> done.sent != [] && done.sent[0] == Naming(op))
            && (!Sendable(op) ==> done.sent == [] && done.fate == Failed)
            && |done.sent| <= 2 * MAX_ATTEMPTS
            && (forall i :: 0 <= i < |done.sent| ==> Aimed(net, op, done.sent[i]))
  {
    hide AfterLookup, Retry, RetryLookup, ResourceId;
    match op
    case Revoke(id) => CourseIs(RevokeTurns(net), RevokeKey(id), n);
    case Retire(id) => CourseIs(RetireTurns(net), RetireAssignment(id), n);
    case DeleteResource(id) => CourseIs(EraseTurns(net), EraseResource(id), n);
    case DeleteConnector(id) =>
      LookupMeans(net, id, n, 0);
      var (count, lookup) := RetryLookup(net, id, n, 0);
      if lookup.There? {
        assert ShownFor(net, id, lookup.resource);
        CourseIs(EraseTurns(net), EraseResource(lookup.resource), n + count);
      }
  }

  /** Where a target's own requests are in what the service received. */
  lemma SentAt(log: seq<Done>, i: nat)
    requires i < |log|
    ensures var at := |Sent(log[..i])|;
            at + |log[i].sent| <= |Sent(log)| && Sent(log)[at..at + |log[i].sent|] == log[i].sent
  {
    var before, rest := log[..i], log[i + 1..];
    assert log == before + [log[i]] + rest;
    SentBoth(before + [log[i]], rest);
    SentMore(before, log[i]);
  }

  lemma {:induction false} AttemptAt(net: Net, ops: seq<Op>, n: nat, i: nat)
    requires i < |Attempts(net, ops, n)|
    ensures i < |ops| && Attempts(net, ops, n)[i] == Try(net, ops[i], n + |Sent(Attempts(net, ops, n)[..i])|)
  {
    hide Try, Attempts, Sent, Broken, Ran;
    if ops == [] {
      NoAttempts(net, n);
    } else {
      var init, op := ops[..|ops| - 1], ops[|ops| - 1];
      assert ops == init + [op];
      AttemptsMore(net, init, op, n);
      var before, log := Attempts(net, init, n), Attempts(net, ops, n);
      if i < |before| {
        AttemptAt(net, init, n, i);
        assert log[..i] == before[..i];
      } else {
        AttemptsRan(net, init, n);
        RanWhole(init, before);
        assert log[..i] == before;
      }
    }
  }

  lemma RanWhole(ops: seq<Op>, log: seq<Done>)
    requires Ran(ops, log) && !Broken(log)
    ensures |log| == |ops|
  {
  }

  /** Main result: the service receives a request for every target of a plan that can
      be sent, in the plan's order, up to the target whose fault escapes if one does;
      it receives nothing else; and each target's fate is what its own requests met. */
  lemma EveryTargetIsRequested(net: Net, ops: seq<Op>, n: nat, i: nat) returns (at: nat)
    requires i < |Attempts(net, ops, n)|
    ensures var log := Attempts(net, ops, n);
            && Ran(ops, log)
            && i < |ops| && log[i] == Try(net, ops[i], n + at)
            && at == |Sent(log[..i])| && at + |log[i].sent| <= |Sent(log)|
            && Sent(log)[at..at + |log[i].sent|] == log[i].sent
            && (Sendable(ops[i]) ==> at < |Sent(log)| && Sent(log)[at] == Naming(ops[i]))
            && (forall k :: at <= k < at + |log[i].sent| ==> Aimed(net, ops[i], Sent(log)[k]))
  {
    hide Try, Aimed, Sendable, Attempts, Sent, Ran, Naming;
    var log := Attempts(net, ops, n);
    AttemptsRan(net, ops, n);
    AttemptAt(net, ops, n, i);
    SentAt(log, i);
    at := |Sent(log[..i])|;
    TryRequests(net, ops[i], n + at);
    var sent := log[i].sent;
    forall k | at <= k < at + |sent|
      ensures Sent(log)[k] == sent[k - at]
    {
      assert Sent(log)[at..at + |sent|][k - at] == Sent(log)[k];
    }
  }

  function FailureOf(op: Op): Category {
    match op
    case Revoke(_) => CredentialRevoke
    case Retire(_) => AssignmentRetire
    case DeleteConnector(_) => ConnectorResource
    case DeleteResource(_) => ResourceDelete
  }

  function FailedIn(log: seq<Done>): multiset<Category> {
    if log == [] then multiset{}
    else
      var last := log[|log| - 1];
      FailedIn(log[..|log| - 1]) + (if last.fate.Failed? then multiset{FailureOf(last.op)} else multiset{})
  }

  lemma {:induction false} FailedInBoth(log: seq<Done>, more: seq<Done>)
    ensures FailedIn(log + more) == FailedIn(log) + FailedIn(more)
  {
    if more == [] {
      assert log + more == log;
    } else {
      assert (log + more)[..|log + more| - 1] == log + more[..|more| - 1];
      FailedInBoth(log, more[..|more| - 1]);
    }
  }

  /** The Connectors that were there to delete. */
  function FoundIn(log: seq<Done>): nat {
    if log == [] then 0
    else FoundIn(log[..|log| - 1]) + (if Found(log[|log| - 1]) then 1 else 0)
  }

  predicate Found(done: Done) {
    done.op.DeleteConnector? && done.fate == Converged(true)
  }

  lemma {:induction false} FoundInBoth(log: seq<Done>, more: seq<Done>)
    ensures FoundIn(log + more) == FoundIn(log) + FoundIn(more)
  {
    if more == [] {
      assert log + more == log;
    } else {
      assert (log + more)[..|log + more| - 1] == log + more[..|more| - 1];
      FoundInBoth(log, more[..|more| - 1]);
    }
  }

  lemma CountedMore(log: seq<Done>, done: Done)
    ensures FailedIn(log + [done])
            == FailedIn(log) + (if done.fate.Failed? then multiset{FailureOf(done.op)} else multiset{})
    ensures FoundIn(log + [done]) == FoundIn(log) + (if Found(done) then 1 else 0)
  {
    assert (log + [done])[..|log|] == log;
  }

  /** Only keys with one of these IDs can have lost their activity, and nothing else
      about any key has changed. */
  ghost predicate Narrowed(before: map<string, Key>, ids: seq<string>, after: map<string, Key>) {
    && after.Keys == before.Keys
    && (forall n :: n in before ==>
          && (after[n] == before[n] || (before[n].id in ids && after[n] == before[n].(active := false))))
  }

  ghost predicate NoneActive(keys: map<string, Key>, id: string) {
    forall n :: n in keys && keys[n].id == id ==> !keys[n].active
  }

  /** Every key whose target was done is inactive. */
  ghost predicate Settled(log: seq<Done>, keys: map<string, Key>) {
    forall i :: 0 <= i < |log| && log[i].op.Revoke? && log[i].fate.Converged? ==> NoneActive(keys, log[i].op.id)
  }

  /** What one target may do to the keys. */
  ghost predicate KeyStep(op: Op, fate: Fate, before: map<string, Key>, after: map<string, Key>) {
    && (after == before || (op.Revoke? && after == Revoked(before, op.id)))
    && (op.Revoke? && fate.Converged? ==> after == Revoked(before, op.id))
  }

  lemma KeysNarrow(start: map<string, Key>, ids: seq<string>, before: map<string, Key>, log: seq<Done>,
                   done: Done, after: map<string, Key>)
    requires Narrowed(start, ids, before) && Settled(log, before) && KeyStep(done.op, done.fate, before, after)
    requires done.op.Revoke? ==> done.op.id in ids
    ensures Narrowed(start, ids, after) && Settled(log + [done], after)
  {
    forall id | NoneActive(before, id)
      ensures NoneActive(after, id)
    {
    }
  }

  lemma KeysStart(keys: map<string, Key>, ids: seq<string>)
    ensures Narrowed(keys, ids, keys) && Settled([], keys)
  {
  }

  /** One target, by its own bounded retries. */
  method AttemptOne(remote: Remote, op: Op) returns (fate: Fate)
    modifies remote
    ensures var done := Try(remote.net, op, |old(remote.sent)|);
            remote.sent == old(remote.sent) + done.sent && fate == done.fate
    ensures KeyStep(op, fate, old(remote.keys), remote.keys)
  {
    hide RevokeCourse, RetireCourse, ConnectorCourse, EraseCourse;
    match op
    case Revoke(id) => fate := remote.RetryRevoke(id);
    case Retire(id) => fate := remote.RetryAssignmentRetire(id);
    case DeleteConnector(id) =>
      ghost var lookups;
      fate, lookups := remote.RetryConnectorResourceDelete(id);
    case DeleteResource(id) => fate := remote.RetryResourceDelete(id);
  }

  /** The targets attempted since a state of the service: what it received, what failed
      and was found, and what became of the keys. */
  ghost predicate Attempted(net: Net, start: seq<Request>, keys: map<string, Key>, ids: seq<string>, ops: seq<Op>,
                            sent: seq<Request>, now: map<string, Key>, failures: multiset<Category>, found: nat) {
    var log := Attempts(net, ops, |start|);
    && sent == start + Sent(log) && failures == FailedIn(log) && found == FoundIn(log)
    && Narrowed(keys, ids, now) && Settled(log, now)
  }

  lemma NothingAttempted(net: Net, start: seq<Request>, keys: map<string, Key>, ids: seq<string>)
    ensures Attempted(net, start, keys, ids, [], start, keys, multiset{}, 0)
    ensures Attempts(net, [], |start|) == [] && !Broken(Attempts(net, [], |start|))
  {
  }

  /** One more target, with the service where the others left it. */
  lemma OneMore(net: Net, start: seq<Request>, keys: map<string, Key>, ids: seq<string>, ops: seq<Op>, op: Op,
                sent: seq<Request>, now: map<string, Key>, failures: multiset<Category>, found: nat,
                after: map<string, Key>)
    requires Attempted(net, start, keys, ids, ops, sent, now, failures, found) && !Broken(Attempts(net, ops, |start|))
    requires KeyStep(op, Try(net, op, |sent|).fate, now, after) && (op.Revoke? ==> op.id in ids)
    ensures var done := Try(net, op, |sent|);
            && Attempted(net, start, keys, ids, ops + [op], sent + done.sent, after,
                         failures + (if done.fate.Failed? then multiset{FailureOf(op)} else multiset{}),
                         found + (if Found(done) then 1 else 0))
            && FaultOf(Attempts(net, ops + [op], |start|)) == if done.fate.Escapes? then Some(done.fate.fault) else None
  {
    hide Try, FailedIn, FoundIn, Sent, Narrowed, Settled, KeyStep, Attempts, Found, Broken, FaultOf, FailureOf;
    var log, done := Attempts(net, ops, |start|), Try(net, op, |sent|);
    AttemptsMore(net, ops, op, |start|);
    TryFor(net, op, |sent|);
    SentMore(log, done);
    CountedMore(log, done);
    FaultMore(log, done);
    KeysNarrow(keys, ids, now, log, done, after);
    assert start + Sent(log) + done.sent == start + (Sent(log) + done.sent);
  }

  lemma FaultMore(log: seq<Done>, done: Done)
    ensures FaultOf(log + [done]) == if done.fate.Escapes? then Some(done.fate.fault) else None
  {
  }

  /** The loop over one kind of target, after the targets `before`: each is attempted
      whatever became of the one before it, and a failure is recorded. */
  method AttemptEach(remote: Remote, ops: seq<Op>, failures0: multiset<Category>, found0: nat, ghost before: seq<Op>,
                     ghost start: seq<Request>, ghost keys: map<string, Key>, ghost ids: seq<string>)
    returns (fault: Option<Raw>, failures: multiset<Category>, found: nat)
    requires Attempted(remote.net, start, keys, ids, before, remote.sent, remote.keys, failures0, found0)
    requires !Broken(Attempts(remote.net, before, |start|))
    requires forall i :: 0 <= i < |ops| && ops[i].Revoke? ==> ops[i].id in ids
    modifies remote
    ensures Attempted(remote.net, start, keys, ids, before + ops, remote.sent, remote.keys, failures, found)
    ensures fault == FaultOf(Attempts(remote.net, before + ops, |start|))
  {
    hide Try, Attempted, KeyStep, Attempts, Sent, Broken;
    failures, found := failures0, found0;
    assert before + ops[..0] == before;
    for i := 0 to |ops|
      invariant Attempted(remote.net, start, keys, ids, before + ops[..i], remote.sent, remote.keys, failures, found)
      invariant !Broken(Attempts(remote.net, before + ops[..i], |start|))
    {
      ghost var done := Try(remote.net, ops[i], |remote.sent|);
      ghost var sent, now := remote.sent, remote.keys;
      var fate := AttemptOne(remote, ops[i]);
      OneMore(remote.net, start, keys, ids, before + ops[..i], ops[i], sent, now, failures, found, remote.keys);
      TryFor(remote.net, ops[i], |sent|);
      assert before + ops[..i] + [ops[i]] == before + ops[..i + 1];
      failures := failures + (if fate.Failed? then multiset{FailureOf(ops[i])} else multiset{});
      found := found + (if ops[i].DeleteConnector? && fate == Converged(true) then 1 else 0);
      if fate.Escapes? {
        FaultMeans(Attempts(remote.net, before + ops[..i + 1], |start|));
        assert before + ops == before + ops[..i + 1] + ops[i + 1..];
        AttemptsBoth(remote.net, before + ops[..i + 1], ops[i + 1..], |start|);
        ShortAttempts(remote.net, start, keys, ids, before + ops[..i + 1], before + ops, remote.sent, remote.keys,
                      failures, found);
        return Some(fate.fault), failures, found;
      }
    }
    assert ops[..|ops|] == ops;
    fault := None;
  }

  lemma FaultMeans(log: seq<Done>)
    ensures FaultOf(log).Some? <==> Broken(log)
  {
  }

  lemma ShortAttempts(net: Net, start: seq<Request>, keys: map<string, Key>, ids: seq<string>, ops: seq<Op>,
                      all: seq<Op>, sent: seq<Request>, now: map<string, Key>, failures: multiset<Category>, found: nat)
    requires Attempted(net, start, keys, ids, ops, sent, now, failures, found)
    requires Attempts(net, all, |start|) == Attempts(net, ops, |start|)
    ensures Attempted(net, start, keys, ids, all, sent, now, failures, found)
  {
    hide Sent, FailedIn, FoundIn, Narrowed, Settled, Attempts;
  }

  // ---------------------------------------------------------------------- run

  function Times(c: Category, n: nat): multiset<Category> {
    multiset{}[c := n]
  }

  function Noted(failure: Option<Category>): multiset<Category> {
    if failure.Some? then multiset{failure.value} else multiset{}
  }

  /** Everything a run has to report. */
  function AllFailures(run: RunCleanup, inventory: Inventory, log: seq<Done>): multiset<Category> {
    Noted(inventory.credentialFailure) + Times(CredentialShape, BadRows(run, Rows0(inventory.credentials)))
    + Noted(inventory.resourceFailure) + Times(ResourceShape, BadResources(run, Rows0(inventory.resources)))
    + FailedIn(log)
  }

  datatype Cleaned =
    | Reconciled(resources: nat, credentials: nat)
    | NotReconciled(failures: multiset<Category>)
    | Stopped(fault: Raw)
    | InvalidRun

  /** What a run says about the attempts it made. */
  function Report(run: RunCleanup, inventory: Inventory, log: seq<Done>): Cleaned {
    if Broken(log) then Stopped(log[|log| - 1].fate.fault)
    else if AllFailures(run, inventory, log) != multiset{} then NotReconciled(AllFailures(run, inventory, log))
    else Reconciled(FoundIn(log) + |ResourceDeletes(run, inventory)|, |Revokes(run, inventory)|)
  }

  /** What the end of a whole plan says about the keys. */
  lemma AllSettled(run: RunCleanup, inventory: Inventory, digest: seq<string> -> string, net: Net, n: nat,
                   keys: map<string, Key>)
    requires var log := Attempts(net, Plan(run, inventory, digest), n);
             !Broken(log) && FailedIn(log) == multiset{} && Settled(log, keys)
    ensures forall id :: id in TargetIds(run, Rows0(inventory.credentials)) ==> NoneActive(keys, id)
  {
    hide Try, TargetIds, NoneActive, Plan, SortedSet, Attempts, FailedIn, Sent;
    var plan := Plan(run, inventory, digest);
    var log := Attempts(net, plan, n);
    AttemptsRan(net, plan, n);
    FailedInIs(log);
    forall id | id in TargetIds(run, Rows0(inventory.credentials))
      ensures NoneActive(keys, id)
    {
      TargetIsPlanned(run, inventory, digest, id);
      var i :| 0 <= i < |plan| && plan[i] == Revoke(id);
      assert log[i].op == Revoke(id) && log[i].fate.Converged?;
    }
  }

  lemma TargetIsPlanned(run: RunCleanup, inventory: Inventory, digest: seq<string> -> string, id: string)
    ensures id in TargetIds(run, Rows0(inventory.credentials)) <==> Revoke(id) in Plan(run, inventory, digest)
  {
    hide TargetIds, Plan;
    TargetIdsAre(run, Rows0(inventory.credentials), id);
    PlanIsExact(run, inventory, digest, Revoke(id));
  }

  lemma KeysAreTargets(run: RunCleanup, inventory: Inventory, digest: seq<string> -> string)
    ensures forall op ::
              (op in Plan(run, inventory, digest) && op.Revoke?) ==>
                op.id in TargetIds(run, Rows0(inventory.credentials))
  {
    hide TargetIds, Plan;
    forall op | op in Plan(run, inventory, digest) && op.Revoke?
      ensures op.id in TargetIds(run, Rows0(inventory.credentials))
    {
      TargetIsPlanned(run, inventory, digest, op.id);
    }
  }

  /** A run that a fault stopped has attempted what its whole plan would. */
  lemma StoppedShort(run: RunCleanup, inventory: Inventory, digest: seq<string> -> string, net: Net,
                     start: seq<Request>, keys: map<string, Key>, ids: seq<string>, ops: seq<Op>, rest: seq<Op>,
                     sent: seq<Request>, now: map<string, Key>, failures: multiset<Category>, found: nat)
    requires Attempted(net, start, keys, ids, ops, sent, now, failures, found) && Broken(Attempts(net, ops, |start|))
    requires Plan(run, inventory, digest) == ops + rest
    ensures var log := Attempts(net, Plan(run, inventory, digest), |start|);
            && sent == start + Sent(log) && Narrowed(keys, ids, now)
            && FaultOf(Attempts(net, ops, |start|)).Some?
            && Report(run, inventory, log) == Stopped(FaultOf(Attempts(net, ops, |start|)).value)
  {
    hide Plan, Attempts, Sent, Narrowed, Settled, FailedIn, FoundIn, AllFailures;
    AttemptsBoth(net, ops, rest, |start|);
  }

  lemma WholePlan(net: Net, start: seq<Request>, keys: map<string, Key>, ids: seq<string>, ops: seq<Op>,
                  sent: seq<Request>, now: map<string, Key>, failures: multiset<Category>, found: nat)
    requires Attempted(net, start, keys, ids, ops, sent, now, failures, found)
    ensures var log := Attempts(net, ops, |start|);
            && sent == start + Sent(log) && failures == FailedIn(log) && found == FoundIn(log)
            && Narrowed(keys, ids, now) && Settled(log, now)
            && (FaultOf(log) == None <==> !Broken(log))
  {
    hide Attempts, Sent, Narrowed, Settled, FailedIn, FoundIn;
  }

  lemma PlanIs(run: RunCleanup, inventory: Inventory, digest: seq<string> -> string)
    ensures Plan(run, inventory, digest)
            == RevokeEach(SortedSet(TargetIds(run, Rows0(inventory.credentials)))) + Retirements(run)
               + ConnectorDeletes(run, digest)
               + DeleteEach(Unique(ResourceIds(run, Rows0(inventory.resources))))
    ensures Revokes(run, inventory) == RevokeEach(SortedSet(TargetIds(run, Rows0(inventory.credentials))))
    ensures ResourceDeletes(run, inventory) == DeleteEach(Unique(ResourceIds(run, Rows0(inventory.resources))))
  {
  }

  /** Main result: one run's cleanup makes the service receive exactly the requests of
      its plan, whatever fails on the way; only a fault that is not a `Credential` one
      cuts them short, at the target that met it. It reports exactly what those
      requests met, with success exactly when nothing failed. Only keys of the plan are
      revoked, and after success none of them is active. */
  method ReconcileRun(run: RunCleanup, remote: Remote, inventory: Inventory, digest: seq<string> -> string)
    returns (cleaned: Cleaned)
    modifies remote
    ensures if ValidRun(run.runId, run.runAttempt) then
              var log := Attempts(remote.net, Plan(run, inventory, digest), |old(remote.sent)|);
              remote.sent == old(remote.sent) + Sent(log) && cleaned == Report(run, inventory, log)
            else
              cleaned.InvalidRun? && remote.sent == old(remote.sent) && remote.keys == old(remote.keys)
    ensures Narrowed(old(remote.keys), TargetIds(run, Rows0(inventory.credentials)), remote.keys)
    ensures cleaned.Reconciled? ==>
              forall id :: id in TargetIds(run, Rows0(inventory.credentials)) ==> NoneActive(remote.keys, id)
  {
    hide *;
    ghost var ids, plan := TargetIds(run, Rows0(inventory.credentials)), Plan(run, inventory, digest);
    ghost var net, start, keys := remote.net, remote.sent, remote.keys;
    KeysStart(keys, ids);
    if !ValidRun(run.runId, run.runAttempt) {
      return InvalidRun;
    }
    NothingAttempted(net, start, keys, ids);
    PlanIs(run, inventory, digest);
    KeysAreTargets(run, inventory, digest);
    var keyIds, badRows := CollectKeys(run, Rows0(inventory.credentials));
    var revokes, retirements, connectors := RevokeEach(SortedSet(keyIds)), Retirements(run),
        ConnectorDeletes(run, digest);
    ghost var deletes0 := DeleteEach(Unique(ResourceIds(run, Rows0(inventory.resources))));
    var fault, failures, found := AttemptEach(remote, revokes, multiset{}, 0, [], start, keys, ids);
    FaultMeans(Attempts(net, [] + revokes, |start|));
    assert [] + revokes == revokes;
    if fault.Some? {
      assert plan == revokes + (retirements + connectors + deletes0);
      StoppedShort(run, inventory, digest, net, start, keys, ids, revokes, retirements + connectors + deletes0,
                   remote.sent, remote.keys, failures, found);
      return Stopped(fault.value);
    }
    fault, failures, found := AttemptEach(remote, retirements, failures, found, revokes, start, keys, ids);
    FaultMeans(Attempts(net, revokes + retirements, |start|));
    if fault.Some? {
      assert plan == revokes + retirements + (connectors + deletes0);
      StoppedShort(run, inventory, digest, net, start, keys, ids, revokes + retirements, connectors + deletes0,
                   remote.sent, remote.keys, failures, found);
      return Stopped(fault.value);
    }
    fault, failures, found := AttemptEach(remote, connectors, failures, found, revokes + retirements, start, keys, ids);
    FaultMeans(Attempts(net, revokes + retirements + connectors, |start|));
    if fault.Some? {
      StoppedShort(run, inventory, digest, net, start, keys, ids, revokes + retirements + connectors, deletes0,
                   remote.sent, remote.keys, failures, found);
      return Stopped(fault.value);
    }
    var resourceIds, badResources := CollectResources(run, Rows0(inventory.resources));
    var deletes := DeleteEach(Unique(resourceIds));
    ghost var before := revokes + retirements + connectors;
    fault, failures, found := AttemptEach(remote, deletes, failures, found, before, start, keys, ids);
    FaultMeans(Attempts(net, plan, |start|));
    if fault.Some? {
      assert plan == plan + [];
      StoppedShort(run, inventory, digest, net, start, keys, ids, plan, [], remote.sent, remote.keys, failures, found);
      return Stopped(fault.value);
    }
    WholePlan(net, start, keys, ids, plan, remote.sent, remote.keys, failures, found);
    ReportIs(run, inventory, Attempts(net, plan, |start|));
    var all := Noted(inventory.credentialFailure) + Times(CredentialShape, badRows)
               + Noted(inventory.resourceFailure) + Times(ResourceShape, badResources) + failures;
    if all != multiset{} {
      return NotReconciled(all);
    }
    AllSettled(run, inventory, digest, net, |start|, remote.keys);
    cleaned := Reconciled(found + |deletes|, |revokes|);
  }

  lemma ReportIs(run: RunCleanup, inventory: Inventory, log: seq<Done>)
    requires !Broken(log)
    ensures var all := Noted(inventory.credentialFailure)
                       + Times(CredentialShape, BadRows(run, Rows0(inventory.credentials)))
                       + Noted(inventory.resourceFailure)
                       + Times(ResourceShape, BadResources(run, Rows0(inventory.resources)))
                       + FailedIn(log);
            && Report(run, inventory, log)
               == (if all != multiset{} then NotReconciled(all)
                   else Reconciled(FoundIn(log) + |ResourceDeletes(run, inventory)|, |Revokes(run, inventory)|))
            && (all == multiset{} ==> FailedIn(log) == multiset{})
  {
    hide Noted, Times, BadRows, BadResources, FailedIn, FoundIn, Revokes, ResourceDeletes;
  }

  /** What success says, in both directions: every target of the plan was attempted
      and done, both inventories were read whole, and no row of the run was out of
      shape. */
  lemma SuccessMeans(run: RunCleanup, inventory: Inventory, log: seq<Done>)
    ensures AllFailures(run, inventory, log) == multiset{} <==>
              && inventory.credentialFailure == None && inventory.resourceFailure == None
              && BadRows(run, Rows0(inventory.credentials)) == 0 && BadResources(run, Rows0(inventory.resources)) == 0
              && (forall i :: 0 <= i < |log| ==> !log[i].fate.Failed?)
  {
    hide BadRows, BadResources, Rows0;
    var bad, badResources := BadRows(run, Rows0(inventory.credentials)), BadResources(run, Rows0(inventory.resources));
    TimesIs(CredentialShape, bad);
    TimesIs(ResourceShape, badResources);
    assert Noted(inventory.credentialFailure) == multiset{} <==> inventory.credentialFailure == None;
    assert Noted(inventory.resourceFailure) == multiset{} <==> inventory.resourceFailure == None;
    FailedInIs(log);
    hide Noted, Times, FailedIn;
    var a, b := Noted(inventory.credentialFailure), Times(CredentialShape, bad);
    var c, d := Noted(inventory.resourceFailure), Times(ResourceShape, badResources);
    var e := FailedIn(log);
    assert a + b + c + d + e == multiset{} <==> a == b == c == d == e == multiset{};
  }

  lemma TimesIs(c: Category, n: nat)
    ensures Times(c, n) == multiset{} <==> n == 0
  {
    assert Times(c, n)[c] == n;
  }

  lemma {:induction false} FailedInIs(log: seq<Done>)
    ensures FailedIn(log) == multiset{} <==> forall i :: 0 <= i < |log| ==> !log[i].fate.Failed?
  {
    if log != [] {
      FailedInIs(log[..|log| - 1]);
      var last := log[|log| - 1];
      assert last.fate.Failed? ==> FailureOf(last.op) in FailedIn(log);
    }
  }

  // ------------------------------------------------------------ across commands

  /** The inventory shows every active key under the run's credential names. */
  ghost predicate Shows(run: RunCleanup, rows: seq<Row>, keys: map<string, Key>) {
    forall name :: name in CredentialNames(run) && name in keys && keys[name].active ==>
      exists row :: row in rows && Claimed(run, row) && row.keyId == Some(keys[name].id)
  }

  /** Main result: whatever an interrupted creation left behind, a successful cleanup
      with such an inventory leaves no active key under the run's names. */
  lemma CleanupFinishesTheJob(run: RunCleanup, rows: seq<Row>, before: map<string, Key>, after: map<string, Key>)
    requires Shows(run, rows, before)
    requires Narrowed(before, TargetIds(run, rows), after)
    requires forall id :: id in TargetIds(run, rows) ==> NoneActive(after, id)
    ensures forall name :: name in CredentialNames(run) && name in after ==> !after[name].active
  {
    hide CredentialNames, TargetIds, Claimed;
    forall name | name in CredentialNames(run) && name in after
      ensures !after[name].active
    {
      if before[name].active {
        TargetIdsAre(run, rows, before[name].id);
        assert NoneActive(after, before[name].id);
      }
    }
  }

  /** Every row shows the key of its own name, and no two keys have the same ID. */
  ghost predicate Truthful(rows: seq<Row>, keys: map<string, Key>) {
    && (forall row :: row in rows && row.name.Some? && row.keyId.Some? ==>
          row.name.value in keys && keys[row.name.value].id == row.keyId.value)
    && (forall a, b :: a in keys && b in keys && keys[a].id == keys[b].id ==> a == b)
  }

  /** Main result: cleaning up one run leaves the keys of every other run, or other
      attempt, as they were. */
  lemma OtherRunsKeepTheirKeys(run: RunCleanup, other: RunCleanup, rows: seq<Row>,
                               before: map<string, Key>, after: map<string, Key>, name: string)
    requires ValidRun(run.runId, run.runAttempt) && ValidRun(other.runId, other.runAttempt)
    requires run.runId != other.runId || run.runAttempt != other.runAttempt
    requires Truthful(rows, before) && Narrowed(before, TargetIds(run, rows), after)
    requires name in before && (name in CredentialNames(other) || name in DeviceKeyNames(other))
    ensures after[name] == before[name]
  {
    hide CredentialNames, DeviceKeyNames, TargetIds, KeyId;
    if before[name].id in TargetIds(run, rows) {
      TargetIdsAre(run, rows, before[name].id);
      var row :| row in rows && Claimed(run, row) && row.keyId == Some(before[name].id);
      assert row.name.value == name;
      RunsShareNothing(run, other, _ => "", name);
      if name in CredentialNames(run) {
        NamesDisjoint(run, other, name);
      } else {
        NamesDisjointBack(other, run, name);
      }
      assert false;
    }
  }

  lemma NamesDisjointBack(other: RunCleanup, run: RunCleanup, name: string)
    requires name in DeviceKeyNames(run)
    ensures name !in CredentialNames(other)
  {
    if name in CredentialNames(other) {
      NamesDisjoint(other, run, name);
    }
  }

  // ----------------------------------------------------------- a fault escapes

  const SMALL_RUN := RunCleanup("1", "1", Linux, Host, Production)
  const NOTHING_LISTED := Inventory(Some([]), None, Some([]), None)
  const FIRST_AGENT := AgentId("1", "1", Host, 'f')
  const SECOND_AGENT := AgentId("1", "1", Host, 's')

  /** Everything succeeds, but the first answer's body cannot be read. */
  const BODY_UNREAD: Net := Net(_ => Created, _ => Effect(true, Status(204)),
                                (n: nat) => if n == 0 then NoReply(Os) else Status(204),
                                _ => Answered(200, Some([])), _ => Status(204), _ => None, _ => "", _ => "")

  lemma AgentsInOrder()
    ensures Less(FIRST_AGENT, SECOND_AGENT) && !Less(SECOND_AGENT, FIRST_AGENT)
  {
    var p := AGENT_PREFIX + ("1" + "-" + ("a" + ("1" + "-" + "h")));
    assert FIRST_AGENT == p + "f" && SECOND_AGENT == p + "s";
    SamePrefix(p, "s", "f");
    SamePrefix(p, "f", "s");
    assert !Less("s", "f") && Less("f", "s");
  }

  lemma SmallAgents()
    ensures AgentIds(SMALL_RUN) == [SECOND_AGENT, FIRST_AGENT]
  {
    hide AgentId;
  }

  lemma SmallPlan()
    ensures Revokes(SMALL_RUN, NOTHING_LISTED) == []
            && Retirements(SMALL_RUN) == [Retire(FIRST_AGENT), Retire(SECOND_AGENT)]
  {
    hide Less, AgentIds, AgentId, SortedSet;
    AgentsInOrder();
    AgentsDiffer();
    SmallAgents();
    TwoSorted(SECOND_AGENT, FIRST_AGENT);
    assert TargetIds(SMALL_RUN, []) == [];
    NoneSorted();
  }

  lemma NoneSorted()
    ensures SortedSet([]) == []
  {
  }

  lemma AgentsDiffer()
    ensures FIRST_AGENT != SECOND_AGENT
  {
    assert FIRST_AGENT[|FIRST_AGENT| - 1] == 'f' && SECOND_AGENT[|SECOND_AGENT| - 1] == 's';
  }

  /** A fault that escapes from the first target ends everything there. */
  lemma FirstFaultEnds(net: Net, first: Op, rest: seq<Op>, n: nat)
    requires Try(net, first, n).fate.Escapes?
    ensures var log := Attempts(net, [first] + rest, n);
            log == [Try(net, first, n)] && Sent(log) == Try(net, first, n).sent && Broken(log)
  {
    hide Try;
    NoAttempts(net, n);
    AttemptsMore(net, [], first, n);
    assert [] + [first] == [first];
    var only := Try(net, first, n);
    assert [] + [only] == [only];
    SentMore([], only);
    AttemptsBoth(net, [first], rest, n);
  }

  lemma FaultAtOnce(turn: nat -> Turn, fault: Raw)
    requires turn(0) == Turn.Raises(fault)
    ensures Retry(turn, 0, 0) == (1, Escapes(fault))
  {
  }

  lemma FirstAgentFails()
    ensures Try(BODY_UNREAD, Retire(FIRST_AGENT), 0)
            == Done(Retire(FIRST_AGENT), [RetireAssignment(FIRST_AGENT)], Escapes(Os))
  {
    hide AgentId, Retry;
    assert BODY_UNREAD.retire(0) == NoReply(Os);
    FaultAtOnce(RetireTurns(BODY_UNREAD), Os);
  }

  /** A concrete run with two agents, where the body of the first answer cannot be
      read: that fault ends the cleanup, and the second agent is never requested. */
  lemma AnUnreadBodyEndsTheCleanup(digest: seq<string> -> string)
    ensures var plan := Plan(SMALL_RUN, NOTHING_LISTED, digest);
            var log := Attempts(BODY_UNREAD, plan, 0);
            && Retire(FIRST_AGENT) in plan && Retire(SECOND_AGENT) in plan
            && Sent(log) == [RetireAssignment(FIRST_AGENT)]
            && Report(SMALL_RUN, NOTHING_LISTED, log) == Stopped(Os)
    ensures RetireAssignment(FIRST_AGENT) != RetireAssignment(SECOND_AGENT)
  {
    SmallPlan();
    AgentsDiffer();
    FirstAgentFails();
    hide AgentId, ConnectorDeletes, ResourceDeletes, Revokes, Retirements, AllFailures, Try, Attempts, Sent;
    var rest := [Retire(SECOND_AGENT)] + ConnectorDeletes(SMALL_RUN, digest)
        + ResourceDeletes(SMALL_RUN, NOTHING_LISTED);
    assert Plan(SMALL_RUN, NOTHING_LISTED, digest) == [Retire(FIRST_AGENT)] + rest;
    FirstFaultEnds(BODY_UNREAD, Retire(FIRST_AGENT), rest, 0);
  }
}
