/** What a run's cleanup makes of the status codes it is answered with. */
module CiReconcileLaws {
  import opened Wrappers
  import opened CiShapes
  import opened CiRemote
  import opened CiNames
  import opened CiInventory
  import opened CiSorting
  import opened CiReconcile

  /** How one target ends, in status codes. */
  ghost predicate EndsAs(net: Net, done: Done, n: nat) {
    match done.op
    case Revoke(id) => done.sent == Same(RevokeKey(id), |done.sent|) && RevokeEnds(net, n, |done.sent|, done.fate)
    case Retire(id) =>
      done.sent == Same(RetireAssignment(id), |done.sent|) && RetireEnds(net, n, |done.sent|, done.fate)
    case DeleteConnector(id) => exists count :: ConnectorEnds(net, id, n, count, Course(done.sent, done.fate))
    case DeleteResource(id) =>
      if ResourceId(id) then
        done.sent == Same(EraseResource(id), |done.sent|) && EraseEnds(net, n, |done.sent|, done.fate)
      else done.sent == [] && done.fate == Failed
  }

  lemma TryInCodes(net: Net, op: Op, n: nat)
    ensures Try(net, op, n).op == op && EndsAs(net, Try(net, op, n), n)
  {
    hide RevokeEnds, RetireEnds, EraseEnds, ConnectorEnds, RevokeCourse, RetireCourse, EraseCourse, ConnectorCourse,
         ResourceId;
    match op
    case Revoke(id) => RevokeInCodes(net, id, n);
    case Retire(id) => RetireInCodes(net, id, n);
    case DeleteResource(id) => EraseInCodes(net, id, n);
    case DeleteConnector(id) => var count := ConnectorInCodes(net, id, n);
  }

  /** Main result: every target of a cleanup ends as the status codes that it was
      answered with say. */
  lemma TargetsEndInCodes(net: Net, ops: seq<Op>, n: nat, i: nat)
    requires i < |Attempts(net, ops, n)|
    ensures var log := Attempts(net, ops, n);
            i < |ops| && log[i].op == ops[i] && EndsAs(net, log[i], n + |Sent(log[..i])|)
  {
    hide Try, Attempts, Sent, EndsAs;
    AttemptAt(net, ops, n, i);
    TryInCodes(net, ops[i], n + |Sent(Attempts(net, ops, n)[..i])|);
  }

  // ----------------------------------------------------------- when all goes well

  predicate Good(r: Reply, codes: set<int>) {
    r.Status? && r.code in codes
  }

  /** The first answers about a target say that it is done. */
  ghost predicate AnsweredWell(net: Net, op: Op, n: nat) {
    match op
    case Revoke(_) => Good(net.revoke(n).reply, {200, 204, 404})
    case Retire(_) => Good(net.retire(n), {204})
    case DeleteConnector(slug) =>
      && net.find(n).Answered? && net.find(n).code == 200
      && (|| net.find(n).rows == Some([])
          || ((exists resource :: OwnRow(net.find(n).rows, slug, resource)) && Good(net.erase(n + 1), {204, 404})))
    case DeleteResource(id) => ResourceId(id) && Good(net.erase(n), {204, 404})
  }

  /** A good first answer is the only one. */
  lemma GoodAtOnce(reply: nat -> Reply, n: nat, count: nat, fate: Fate, good: set<int>, again: int -> bool)
    requires EndsInCodes(reply, n, count, fate, good, again) && Good(reply(n), good)
    requires forall code :: code in good ==> !again(code)
    ensures count == 1 && fate == Converged(true)
  {
    assert count > 1 ==> AsksAgain(reply(n), again);
  }

  lemma ConnectorAtOnce(net: Net, slug: string, n: nat, count: nat, course: Course)
    requires ConnectorEnds(net, slug, n, count, course) && AnsweredWell(net, DeleteConnector(slug), n)
    ensures course.fate.Converged?
  {
    hide EndsInCodes;
    assert count > 1 ==> FindsLater(net.find(n));
    if exists resource :: OwnRow(net.find(n).rows, slug, resource) {
      GoodAtOnce(net.erase, n + 1, |course.sent| - 1, course.fate, {204, 404}, BUSY);
    }
  }

  lemma WellConverges(net: Net, op: Op, n: nat)
    requires AnsweredWell(net, op, n)
    ensures Try(net, op, n).fate.Converged?
  {
    TryInCodes(net, op, n);
    var done := Try(net, op, n);
    hide Try, EndsInCodes, ConnectorEnds, ResourceId;
    match op
    case Revoke(_) =>
      assert RevokeReplies(net)(n) == net.revoke(n).reply;
      GoodAtOnce(RevokeReplies(net), n, |done.sent|, done.fate, {200, 204, 404}, BUSY);
    case Retire(_) => GoodAtOnce(net.retire, n, |done.sent|, done.fate, {204}, PASSING);
    case DeleteResource(_) => GoodAtOnce(net.erase, n, |done.sent|, done.fate, {204, 404}, BUSY);
    case DeleteConnector(slug) =>
      var count :| ConnectorEnds(net, slug, n, count, Course(done.sent, done.fate));
      ConnectorAtOnce(net, slug, n, count, Course(done.sent, done.fate));
  }

  /** Every target of a plan is answered well, each after the ones before it. */
  ghost predicate AllAnsweredWell(net: Net, ops: seq<Op>, n: nat) {
    forall i :: 0 <= i < |ops| ==> AnsweredWell(net, ops[i], n + |Sent(Attempts(net, ops[..i], n))|)
  }

  lemma {:induction false} WellAllConverge(net: Net, ops: seq<Op>, n: nat)
    requires AllAnsweredWell(net, ops, n)
    ensures var log := Attempts(net, ops, n);
            |log| == |ops| && forall i :: 0 <= i < |log| ==> log[i].op == ops[i] && log[i].fate.Converged?
  {
    hide Try, Attempts, Sent, AnsweredWell;
    if ops == [] {
      NoAttempts(net, n);
    } else {
      var init, last := ops[..|ops| - 1], ops[|ops| - 1];
      assert ops == init + [last];
      forall i | 0 <= i < |init|
        ensures AnsweredWell(net, init[i], n + |Sent(Attempts(net, init[..i], n))|)
      {
        assert init[..i] == ops[..i];
      }
      WellAllConverge(net, init, n);
      AttemptsMore(net, init, last, n);
      TryFor(net, last, n + |Sent(Attempts(net, init, n))|);
      WellConverges(net, last, n + |Sent(Attempts(net, init, n))|);
    }
  }

  /** Both inventories were read whole, and every row of the run is in shape. */
  ghost predicate Whole(run: RunCleanup, inventory: Inventory) {
    && inventory.credentialFailure == None && inventory.resourceFailure == None
    && (forall row :: row in Rows0(inventory.credentials) ==> !OutOfShape(run, row))
    && (forall row :: row in Rows0(inventory.resources) && row.description == Some(Description(run)) ==>
          row.resourceId != None)
  }

  lemma {:induction false} NoBadRows(run: RunCleanup, rows: seq<Row>)
    ensures BadRows(run, rows) == 0 <==> forall row :: row in rows ==> !OutOfShape(run, row)
  {
    hide Judge, OutOfShape;
    if rows != [] {
      var init, last := rows[..|rows| - 1], rows[|rows| - 1];
      assert rows == init + [last];
      NoBadRows(run, init);
      JudgeIsExact(run, last, "");
    }
  }

  lemma {:induction false} NoBadResources(run: RunCleanup, rows: seq<Row>)
    ensures BadResources(run, rows) == 0
            <==> forall row :: row in rows && row.description == Some(Description(run)) ==> row.resourceId != None
  {
    hide Description;
    if rows != [] {
      var init, last := rows[..|rows| - 1], rows[|rows| - 1];
      assert rows == init + [last];
      NoBadResources(run, init);
    }
  }

  /** Main result: when both inventories are whole and every target is answered well, the
      cleanup reports success, with every key of the plan and every resource counted. */
  lemma AllWellIsReconciled(run: RunCleanup, inventory: Inventory, digest: seq<string> -> string, net: Net, n: nat)
    requires Whole(run, inventory) && AllAnsweredWell(net, Plan(run, inventory, digest), n)
    ensures var log := Attempts(net, Plan(run, inventory, digest), n);
            Report(run, inventory, log)
            == Reconciled(FoundIn(log) + |ResourceDeletes(run, inventory)|, |Revokes(run, inventory)|)
  {
    hide *;
    var plan := Plan(run, inventory, digest);
    WellAllConverge(net, plan, n);
    WholeReports(run, inventory, Attempts(net, plan, n));
  }

  lemma WholeReports(run: RunCleanup, inventory: Inventory, log: seq<Done>)
    requires Whole(run, inventory) && forall i :: 0 <= i < |log| ==> log[i].fate.Converged?
    ensures Report(run, inventory, log)
            == Reconciled(FoundIn(log) + |ResourceDeletes(run, inventory)|, |Revokes(run, inventory)|)
  {
    hide AllFailures, BadRows, BadResources, OutOfShape, Description, FoundIn, ResourceDeletes, Revokes, Rows0;
    NoBadRows(run, Rows0(inventory.credentials));
    NoBadResources(run, Rows0(inventory.resources));
    SuccessMeans(run, inventory, log);
  }

  /** The last answer about a target said that it is done. */
  ghost predicate EndedWell(net: Net, done: Done, n: nat) {
    && done.sent != []
    && var last := n + |done.sent| - 1;
       match done.sent[|done.sent| - 1]
       case RevokeKey(_) => Good(net.revoke(last).reply, {200, 204, 404})
       case RetireAssignment(_) => Good(net.retire(last), {204})
       case EraseResource(_) => Good(net.erase(last), {204, 404})
       case FindConnector(_) => net.find(last) == Answered(200, Some([]))
       case _ => false
  }

  lemma CodesConverge(reply: nat -> Reply, n: nat, count: nat, fate: Fate, good: set<int>, again: int -> bool)
    requires EndsInCodes(reply, n, count, fate, good, again)
    ensures 1 <= count && (fate.Converged? <==> Good(reply(n + count - 1), good))
  {
  }

  lemma ConnectorConverges(net: Net, slug: string, n: nat, count: nat, course: Course)
    requires ConnectorEnds(net, slug, n, count, course) && course.fate.Converged?
    ensures EndedWell(net, Done(DeleteConnector(slug), course.sent, course.fate), n)
  {
    hide EndsInCodes, OwnRow;
    var rest := course.sent[count..];
    assert course.sent == course.sent[..count] + rest;
    var answer := net.find(n + count - 1);
    if answer.Answered? && answer.code == 200 && exists resource :: OwnRow(answer.rows, slug, resource) {
      CodesConverge(net.erase, n + count, |rest|, course.fate, {204, 404}, BUSY);
      assert rest[|rest| - 1] == course.sent[|course.sent| - 1];
    }
  }

  /** Main result: and success means that. A target is done exactly when the last answer
      about it said so. */
  lemma ConvergedMeans(net: Net, done: Done, n: nat)
    requires EndsAs(net, done, n)
    ensures done.fate.Converged? ==> EndedWell(net, done, n)
    ensures !done.op.DeleteConnector? && EndedWell(net, done, n) ==> done.fate.Converged?
  {
    hide EndsInCodes, ConnectorEnds, ResourceId;
    match done.op
    case Revoke(_) =>
      CodesConverge(RevokeReplies(net), n, |done.sent|, done.fate, {200, 204, 404}, BUSY);
      assert RevokeReplies(net)(n + |done.sent| - 1) == net.revoke(n + |done.sent| - 1).reply;
    case Retire(_) => CodesConverge(net.retire, n, |done.sent|, done.fate, {204}, PASSING);
    case DeleteResource(id) =>
      if ResourceId(id) {
        CodesConverge(net.erase, n, |done.sent|, done.fate, {204, 404}, BUSY);
      }
    case DeleteConnector(slug) =>
      if done.fate.Converged? {
        var count :| ConnectorEnds(net, slug, n, count, Course(done.sent, done.fate));
        ConnectorConverges(net, slug, n, count, Course(done.sent, done.fate));
      }
  }

  lemma SuccessNeeds(run: RunCleanup, inventory: Inventory, log: seq<Done>)
    requires Report(run, inventory, log).Reconciled?
    ensures Whole(run, inventory) && !Broken(log) && forall i :: 0 <= i < |log| ==> !log[i].fate.Failed?
  {
    SuccessMeans(run, inventory, log);
    hide AllFailures, BadRows, BadResources, OutOfShape, Description;
    NoBadRows(run, Rows0(inventory.credentials));
    NoBadResources(run, Rows0(inventory.resources));
  }

  lemma RanConverges(ops: seq<Op>, log: seq<Done>, i: nat)
    requires Ran(ops, log) && !Broken(log) && i < |log| && !log[i].fate.Failed?
    ensures log[i].fate.Converged?
  {
  }

  /** Main result: success means that both inventories were whole, and that the last
      answer about every target said that it is done. */
  lemma ReconciledMeans(run: RunCleanup, inventory: Inventory, digest: seq<string> -> string, net: Net, n: nat, i: nat)
    requires var log := Attempts(net, Plan(run, inventory, digest), n);
             Report(run, inventory, log).Reconciled? && i < |log|
    ensures var log := Attempts(net, Plan(run, inventory, digest), n);
            Whole(run, inventory) && EndedWell(net, log[i], n + |Sent(log[..i])|)
  {
    hide *;
    var plan := Plan(run, inventory, digest);
    var log := Attempts(net, plan, n);
    SuccessNeeds(run, inventory, log);
    AttemptsRan(net, plan, n);
    RanConverges(plan, log, i);
    TargetsEndInCodes(net, plan, n, i);
    ConvergedMeans(net, log[i], n + |Sent(log[..i])|);
  }

  // ------------------------------------------------------------------- failures

  /** The name that a failure of a target is reported under. */
  ghost predicate ReportedAs(op: Op, c: Category) {
    || (op.Revoke? && c == CredentialRevoke)
    || (op.Retire? && c == AssignmentRetire)
    || (op.DeleteConnector? && c == ConnectorResource)
    || (op.DeleteResource? && c == ResourceDelete)
  }

  /** Main result: a failure is reported under the name of its kind of target, and only
      when such a target failed. */
  lemma {:induction false} FailuresAreNamed(log: seq<Done>, c: Category)
    ensures c in FailedIn(log) <==> exists i :: 0 <= i < |log| && log[i].fate.Failed? && ReportedAs(log[i].op, c)
  {
    if log != [] {
      var init, last := log[..|log| - 1], log[|log| - 1];
      FailuresAreNamed(init, c);
      hide ReportedAs;
      ReportedOnce(last.op, c);
      assert forall i :: 0 <= i < |init| ==> log[i] == init[i];
    }
  }

  lemma ReportedOnce(op: Op, c: Category)
    ensures ReportedAs(op, c) <==> c == FailureOf(op)
  {
  }
}
