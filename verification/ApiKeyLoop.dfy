/** The retry loop of `APIKey`: what one caller does with each answer, and the
    three budgets that bound how often it looks again. */
module ApiKeyLoop {
  import opened Wrappers
  import opened ApiKeyCell

  const SHARED_CONTEXT_ERROR_RETRY_LIMIT := 1
  const VALIDATION_RECHECK_LIMIT := 3

  /** What a caller has spent: retries after a shared fill, retries after a shared
      validation, and validations that did not settle the cached key. */
  datatype Budget = Budget(shared: nat, renewed: nat, rechecks: nat)

  const UNSPENT := Budget(0, 0, 0)

  ghost predicate Within(b: Budget) {
    && b.shared <= SHARED_CONTEXT_ERROR_RETRY_LIMIT
    && b.renewed <= SHARED_CONTEXT_ERROR_RETRY_LIMIT
    && b.rechecks <= VALIDATION_RECHECK_LIMIT
  }

  function Spent(b: Budget): nat {
    b.shared + b.renewed + b.rechecks
  }

  function LoopBacksLeft(b: Budget): nat
    requires Within(b)
  {
    2 * SHARED_CONTEXT_ERROR_RETRY_LIMIT + VALIDATION_RECHECK_LIMIT - Spent(b)
  }

  /** What a validation read says about a cached token. */
  datatype Verdict = Current | Stale | Unread(contextEnded: bool)

  datatype Next<T> = Again(spent: Budget) | Done(result: Lookup<T>)

  /** What a caller owes to a verdict before its turn is over. */
  datatype Duty<T> = Settled(next: Next<T>) | MustRevoke | MustBeLocal

  /** A waiter retries once when the owner's context, and not its own, ended. */
  function AfterShared<T>(result: Lookup<T>, ctxEnded: bool, b: Budget): Next<T> {
    if result == Failed(ContextEnded) && !ctxEnded && b.shared < SHARED_CONTEXT_ERROR_RETRY_LIMIT
    then Again(b.(shared := b.shared + 1))
    else Done(result)
  }

  function Recheck<T>(b: Budget): Next<T> {
    if b.rechecks >= VALIDATION_RECHECK_LIMIT then Done(Failed(OtherFailure))
    else Again(b.(rechecks := b.rechecks + 1))
  }

  function AfterVerdict<T>(v: Verdict, ctxEnded: bool, b: Budget): Duty<T> {
    match v
    case Current => MustBeLocal
    case Stale => MustRevoke
    case Unread(kind) =>
      if ctxEnded then Settled(Done(Failed(ContextEnded)))
      else if kind && b.renewed < SHARED_CONTEXT_ERROR_RETRY_LIMIT then Settled(Again(b.(renewed := b.renewed + 1)))
      else MustBeLocal
  }

  /** A key that a local writer replaced meanwhile is not returned. */
  function AfterLocal<T>(local: bool, apiKey: string, token: T, b: Budget): Next<T> {
    if local then Done(Found(apiKey, token)) else Recheck(b)
  }

  /** What one turn of the loop met, whatever other callers did meanwhile. */
  datatype Turn<T> =
    | Hit(apiKey: string, token: T, verdict: Verdict, ctxEnded: bool, local: bool)
    | Waited(shared: Option<Lookup<T>>, ctxEnded: bool)
    | Owned(result: Lookup<T>)

  function AfterTurn<T>(t: Turn<T>, b: Budget): Next<T> {
    match t
    case Hit(apiKey, token, verdict, ctxEnded, local) =>
      (match AfterVerdict<T>(verdict, ctxEnded, b)
       case Settled(next) => next
       case MustRevoke => Recheck(b)
       case MustBeLocal => AfterLocal(local, apiKey, token, b))
    case Waited(None, _) => Done(Failed(ContextEnded))
    case Waited(Some(result), ctxEnded) => AfterShared(result, ctxEnded, b)
    case Owned(result) => Done(result)
  }

  /** Going round again always spends exactly one unit of one budget. */
  lemma TurnSpends<T>(t: Turn<T>, b: Budget)
    requires Within(b)
    ensures var next := AfterTurn(t, b);
            next.Again? ==> Within(next.spent) && Spent(next.spent) == Spent(b) + 1
  {
  }

  /** The answer of a caller whose n-th turn meets `turns(n)`, and the number of
      turns it takes from the n-th on. */
  ghost function AnswerFrom<T>(turns: nat -> Turn<T>, n: nat, b: Budget): (Lookup<T>, nat)
    requires Within(b)
    decreases LoopBacksLeft(b)
  {
    match AfterTurn(turns(n), b)
    case Done(result) => (result, 1)
    case Again(spent) =>
      TurnSpends(turns(n), b);
      var (result, count) := AnswerFrom(turns, n + 1, spent);
      (result, count + 1)
  }

  /** Main result: whatever the other callers do, one call looks at most six times,
      once for its first turn and once for each unit of budget. */
  lemma {:induction false} AtMostSixLookups<T>(turns: nat -> Turn<T>, n: nat, b: Budget)
    requires Within(b)
    ensures 1 <= AnswerFrom(turns, n, b).1 <= LoopBacksLeft(b) + 1 <= 6
    decreases LoopBacksLeft(b)
  {
    TurnSpends(turns(n), b);
    match AfterTurn(turns(n), b)
    case Done(_) =>
    case Again(spent) => AtMostSixLookups(turns, n + 1, spent);
  }

  function WorstTurn(n: nat): Turn<nat> {
    if n == 0 then Waited(Some(Failed(ContextEnded)), false)
    else if n == 1 then Hit("key", 0, Unread(true), false, true)
    else Hit("key", 0, Stale, false, false)
  }

  /** The bound is met: one shared retry, one renewed validation and three rechecks. */
  lemma SixLookupsHappen()
    ensures AnswerFrom(WorstTurn, 0, UNSPENT) == (Failed(OtherFailure), 6)
  {
    assert AnswerFrom(WorstTurn, 5, Budget(1, 1, 3)) == (Failed(OtherFailure), 1);
    assert AnswerFrom(WorstTurn, 4, Budget(1, 1, 2)) == (Failed(OtherFailure), 2);
    assert AnswerFrom(WorstTurn, 3, Budget(1, 1, 1)) == (Failed(OtherFailure), 3);
    assert AnswerFrom(WorstTurn, 2, Budget(1, 1, 0)) == (Failed(OtherFailure), 4);
    assert AnswerFrom(WorstTurn, 1, Budget(1, 0, 0)) == (Failed(OtherFailure), 5);
  }

  /** The loop itself, carrying its three counters. */
  method APIKey<T>(ws: string, ctxEnded: bool, turns: nat -> Turn<T>) returns (result: Lookup<T>, lookups: nat)
    ensures ws == "" ==> result == Failed(OtherFailure) && lookups == 0
    ensures ws != "" && ctxEnded ==> result == Failed(ContextEnded) && lookups == 0
    ensures ws != "" && !ctxEnded ==> (result, lookups) == AnswerFrom(turns, 0, UNSPENT)
    ensures lookups <= 6
  {
    if ws == "" {
      return Failed(OtherFailure), 0;
    }
    if ctxEnded {
      return Failed(ContextEnded), 0;
    }
    var spent := UNSPENT;
    lookups := 0;
    ghost var whole := AnswerFrom(turns, 0, UNSPENT);
    while true
      invariant Within(spent)
      invariant AnswerFrom(turns, lookups, spent) == (whole.0, whole.1 - lookups)
      decreases LoopBacksLeft(spent)
    {
      AtMostSixLookups(turns, 0, UNSPENT);
      TurnSpends(turns(lookups), spent);
      hide AfterTurn;
      var next := AfterTurn(turns(lookups), spent);
      lookups := lookups + 1;
      if next.Done? {
        return next.result, lookups;
      }
      spent := next.spent;
    }
  }
}
