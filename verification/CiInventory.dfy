/** One bounded inventory: pages that follow each other by a cursor the service
    chooses. */
module CiInventory {
  import opened Wrappers
  import opened CiRemote

  const INVENTORY_MAX_PAGES := 20
  const INVENTORY_MAX_ROWS := 2000

  /** A row's members, each None when it is missing or of another type. */
  datatype Row = Row(name: Option<string>, keyId: Option<string>, status: Option<string>, kind: Option<string>,
                     scopes: Option<seq<string>>, description: Option<string>, resourceId: Option<string>)

  /** With the defaults for members that are missing; None when of another type. */
  datatype Meta = Meta(hasMore: Option<bool>, next: Option<string>)

  /** The answer to one page request. `rows` and `meta` are None when they are not a
      list and an object, and a row is None when it is not an object. */
  datatype PageAnswer = Raises(fault: Raw) | Page(status: int, rows: Option<seq<Option<Row>>>, meta: Option<Meta>)

  datatype Paged = Rows(rows: seq<Row>) | Bound(kept: seq<Row>) | Malformed | Raised(fault: Raw)

  predicate GoodRows(p: PageAnswer) {
    && p.Page? && p.status == 200 && p.rows.Some? && p.meta.Some?
    && (forall i :: 0 <= i < |p.rows.value| ==> p.rows.value[i].Some?)
  }

  predicate GoodPage(p: PageAnswer) {
    && GoodRows(p)
    && p.meta.value.hasMore.Some? && p.meta.value.next.Some?
    && p.meta.value.hasMore.value == (p.meta.value.next.value != "")
  }

  function RowsOf(p: PageAnswer): (r: seq<Row>)
    requires GoodRows(p)
  {
    seq(|p.rows.value|, i requires 0 <= i < |p.rows.value| => p.rows.value[i].value)
  }

  function NextOf(p: PageAnswer): string
    requires GoodPage(p)
  {
    p.meta.value.next.value
  }

  /** The pages before the n-th are good, and each names the one after it. */
  ghost predicate Chain(pages: nat -> PageAnswer, n: nat) {
    && (forall i: nat :: i < n ==> GoodPage(pages(i)) && NextOf(pages(i)) != "")
    && (forall i: nat, j: nat :: i < j < n ==> NextOf(pages(i)) != NextOf(pages(j)))
  }

  /** The rows of the first n pages, in order. */
  ghost function AllRows(pages: nat -> PageAnswer, n: nat): seq<Row>
    requires forall i: nat :: i < n ==> GoodRows(pages(i))
  {
    if n == 0 then [] else AllRows(pages, n - 1) + RowsOf(pages(n - 1))
  }

  ghost predicate Ends(pages: nat -> PageAnswer, n: nat) {
    Chain(pages, n) && GoodPage(pages(n)) && NextOf(pages(n)) == ""
  }

  /** An inventory whose last page is the n-th fits the limits. */
  ghost predicate Fits(pages: nat -> PageAnswer, n: nat) {
    n < INVENTORY_MAX_PAGES && Ends(pages, n) && |AllRows(pages, n + 1)| <= INVENTORY_MAX_ROWS
  }

  lemma {:induction false} RowsGrow(pages: nat -> PageAnswer, n: nat, m: nat)
    requires n <= m && forall i: nat :: i < m ==> GoodRows(pages(i))
    ensures |AllRows(pages, n)| <= |AllRows(pages, m)|
  {
    if n < m {
      RowsGrow(pages, n, m - 1);
    }
  }

  lemma EndsLater(pages: nat -> PageAnswer, n: nat, m: nat)
    requires Chain(pages, n) && Ends(pages, m)
    ensures n <= m && GoodPage(pages(n)) && (NextOf(pages(n)) == "" ==> n == m)
  {
    if m < n {
      ChainAt(pages, n, m);
      assert false;
    } else if n < m {
      ChainAt(pages, m, n);
    }
  }

  lemma ChainAt(pages: nat -> PageAnswer, n: nat, i: nat)
    requires Chain(pages, n) && i < n
    ensures GoodPage(pages(i)) && NextOf(pages(i)) != ""
  {
  }

  lemma NewCursor(pages: nat -> PageAnswer, n: nat, m: nat, i: nat)
    requires Chain(pages, n) && Ends(pages, m) && n <= m && i < n && GoodPage(pages(n)) && GoodPage(pages(i))
    ensures NextOf(pages(i)) != NextOf(pages(n))
  {
    assert NextOf(pages(i)) != "";
    if n < m {
      assert NextOf(pages(i)) != NextOf(pages(n));
    }
  }

  lemma GoodSoFar(pages: nat -> PageAnswer, m: nat)
    requires Ends(pages, m)
    ensures forall i: nat :: i < m + 1 ==> GoodRows(pages(i))
  {
  }

  lemma RoomForPage(pages: nat -> PageAnswer, n: nat, m: nat)
    requires Chain(pages, n) && Fits(pages, m) && n <= m && GoodPage(pages(n))
    ensures |AllRows(pages, n)| + |RowsOf(pages(n))| <= INVENTORY_MAX_ROWS
  {
    GoodSoFar(pages, m);
    hide Chain, GoodPage;
    RowsGrow(pages, n + 1, m + 1);
  }

  /** A fitting inventory that has not ended before page n goes on at page n, and
      does not break a bound there. */
  lemma FitsGoesOn(pages: nat -> PageAnswer, n: nat, m: nat)
    requires Chain(pages, n) && Fits(pages, m)
    ensures n <= m && GoodPage(pages(n))
    ensures |AllRows(pages, n)| + |RowsOf(pages(n))| <= INVENTORY_MAX_ROWS
    ensures NextOf(pages(n)) == "" ==> n == m
    ensures forall i: nat :: i < n ==> NextOf(pages(n)) != NextOf(pages(i))
  {
    EndsLater(pages, n, m);
    RoomForPage(pages, n, m);
    GoodBefore(pages, n);
    hide Chain, AllRows, Ends;
    forall i: nat | i < n
      ensures NextOf(pages(n)) != NextOf(pages(i))
    {
      NewCursor(pages, n, m, i);
    }
  }

  lemma GoodBefore(pages: nat -> PageAnswer, n: nat)
    requires Chain(pages, n)
    ensures forall i: nat :: i < n ==> GoodPage(pages(i))
  {
  }

  lemma ChainGrows(pages: nat -> PageAnswer, n: nat)
    requires Chain(pages, n) && GoodPage(pages(n)) && NextOf(pages(n)) != ""
    requires forall i: nat :: i < n ==> NextOf(pages(n)) != NextOf(pages(i))
    ensures Chain(pages, n + 1)
    ensures AllRows(pages, n + 1) == AllRows(pages, n) + RowsOf(pages(n))
  {
  }

  /** What a request's cursors say: the first has none, and each other has the
      successor that the page before it named. */
  ghost predicate Follows(pages: nat -> PageAnswer, cursors: seq<string>) {
    forall i :: 0 <= i < |cursors| ==>
      if i == 0 then cursors[i] == ""
          else GoodPage(pages(i - 1)) && cursors[i] == NextOf(pages(i - 1)) && cursors[i] != ""
  }

  lemma FollowsGrows(pages: nat -> PageAnswer, cursors: seq<string>, next: string)
    requires Follows(pages, cursors)
    requires if cursors == [] then next == ""
             else GoodPage(pages(|cursors| - 1)) && next == NextOf(pages(|cursors| - 1)) && next != ""
    ensures Follows(pages, cursors + [next])
  {
    var longer := cursors + [next];
    forall i | 0 <= i < |longer|
      ensures if i == 0 then longer[i] == ""
              else GoodPage(pages(i - 1)) && longer[i] == NextOf(pages(i - 1)) && longer[i] != ""
    {
      if i < |cursors| {
        assert longer[i] == cursors[i];
      }
    }
  }

  lemma FollowsDistinct(pages: nat -> PageAnswer, cursors: seq<string>)
    requires Follows(pages, cursors) && (cursors != [] ==> Chain(pages, |cursors| - 1))
    ensures forall i, j :: 0 <= i < j < |cursors| ==> cursors[i] != cursors[j]
  {
    forall i, j | 0 <= i < j < |cursors|
      ensures cursors[i] != cursors[j]
    {
      if i > 0 {
        assert NextOf(pages(i - 1)) != NextOf(pages(j - 1));
      }
    }
  }

  /** What the loop keeps. */
  ghost predicate Reading(pages: nat -> PageAnswer, n: nat, rows: seq<Row>, seen: set<string>) {
    && Chain(pages, n)
    && rows == AllRows(pages, n)
    && (forall c :: c in seen <==> exists i: nat :: i < n && NextOf(pages(i)) == c)
  }

  lemma ReadingGoesOn(pages: nat -> PageAnswer, n: nat, rows: seq<Row>, seen: set<string>)
    requires Reading(pages, n, rows, seen) && GoodPage(pages(n)) && NextOf(pages(n)) != "" && NextOf(pages(n)) !in seen
    ensures Reading(pages, n + 1, rows + RowsOf(pages(n)), seen + {NextOf(pages(n))})
  {
    ChainGrows(pages, n);
  }

  lemma Ended(pages: nat -> PageAnswer, n: nat, rows: seq<Row>, seen: set<string>)
    requires Reading(pages, n, rows, seen) && GoodPage(pages(n)) && NextOf(pages(n)) == ""
    ensures Ends(pages, n) && rows + RowsOf(pages(n)) == AllRows(pages, n + 1)
  {
  }

  lemma Started(pages: nat -> PageAnswer)
    ensures Reading(pages, 0, [], {}) && Follows(pages, [])
  {
  }

  /** Any fitting inventory has a good page here, with room for it and a new cursor. */
  lemma FitsOn(pages: nat -> PageAnswer, n: nat, rows: seq<Row>, seen: set<string>)
    requires Reading(pages, n, rows, seen)
    ensures forall m: nat :: Fits(pages, m) ==>
              && n <= m < INVENTORY_MAX_PAGES && GoodPage(pages(n)) && |rows| + |RowsOf(pages(n))| <= INVENTORY_MAX_ROWS
              && NextOf(pages(n)) !in seen && (NextOf(pages(n)) == "" ==> n == m)
  {
    forall m: nat | Fits(pages, m)
      ensures n <= m < INVENTORY_MAX_PAGES && GoodPage(pages(n)) && |rows| + |RowsOf(pages(n))| <= INVENTORY_MAX_ROWS
              && NextOf(pages(n)) !in seen && (NextOf(pages(n)) == "" ==> n == m)
    {
      FitsGoesOn(pages, n, m);
    }
  }

  /** An answer that is no page: rejected, or without a list of objects. */
  ghost predicate Rejected(p: PageAnswer) {
    && p.Page?
    && (p.status != 200 || p.rows == None || p.meta == None
        || exists i :: 0 <= i < |p.rows.value| && p.rows.value[i] == None)
  }

  /** The successor that a page names is missing, superfluous or of another type, or was
      named by an earlier page. */
  ghost predicate BadSuccessor(pages: nat -> PageAnswer, n: nat) {
    && GoodRows(pages(n))
    && var meta := pages(n).meta.value;
       || meta.hasMore == None || meta.next == None || (meta.hasMore.value <==> meta.next.value == "")
       || exists i: nat :: i < n && pages(i).Page? && pages(i).meta.Some? && pages(i).meta.value.next == meta.next
  }

  ghost predicate TooManyRows(pages: nat -> PageAnswer, n: nat, rows: seq<Row>) {
    GoodRows(pages(n)) && |rows| + |pages(n).rows.value| > 2000
  }

  /** Why a reading without a result ended after these requests. */
  ghost predicate EndedFor(pages: nat -> PageAnswer, late: nat -> bool, asked: nat, result: Paged) {
    match result
    case Rows(rows) =>
      && 0 < asked <= 20 && |rows| <= 2000
      && (forall i: nat :: i < asked ==> !pages(i).Raises? && !Rejected(pages(i)) && !BadSuccessor(pages, i))
      && (forall i: nat :: i < asked ==> pages(i).Page? && pages(i).meta.Some? && pages(i).meta.value.next.Some?
                                         && (pages(i).meta.value.next.value == "" <==> i == asked - 1))
    case Raised(fault) => asked > 0 && Chain(pages, asked - 1) && pages(asked - 1) == PageAnswer.Raises(fault)
    case Malformed =>
      && asked > 0 && Chain(pages, asked - 1)
      && (Rejected(pages(asked - 1))
          || (BadSuccessor(pages, asked - 1) && !TooManyRows(pages, asked - 1, AllRows(pages, asked - 1))))
    case Bound(kept) =>
      || (asked == 20 && Chain(pages, 20))
      || (exists t: nat :: late(t))
      || (asked > 0 && Chain(pages, asked - 1) && TooManyRows(pages, asked - 1, kept)
          && kept == AllRows(pages, asked - 1))
  }

  lemma ReturnedEnds(pages: nat -> PageAnswer, late: nat -> bool, n: nat, rows: seq<Row>)
    requires Ends(pages, n) && n < INVENTORY_MAX_PAGES && |rows| <= INVENTORY_MAX_ROWS
    ensures EndedFor(pages, late, n + 1, Rows(rows))
  {
    forall i: nat | i < n + 1
      ensures GoodPage(pages(i)) && (NextOf(pages(i)) == "" <==> i == n)
      ensures forall j: nat :: j < i ==> GoodPage(pages(j)) && NextOf(pages(j)) != NextOf(pages(i))
    {
      forall j: nat | j < i
        ensures GoodPage(pages(j)) && NextOf(pages(j)) != NextOf(pages(i))
      {
        ChainAt(pages, n, j);
      }
    }
    hide Chain;
    forall i: nat | i < n + 1
      ensures !BadSuccessor(pages, i)
    {
      assert GoodPage(pages(i));
    }
  }

  lemma RejectedEnds(pages: nat -> PageAnswer, late: nat -> bool, n: nat)
    requires Chain(pages, n) && pages(n).Page? && !GoodRows(pages(n))
    ensures EndedFor(pages, late, n + 1, Malformed)
  {
    hide Chain;
  }

  lemma BadSuccessorEnds(pages: nat -> PageAnswer, late: nat -> bool, n: nat, rows: seq<Row>, seen: set<string>)
    requires Reading(pages, n, rows, seen) && GoodRows(pages(n)) && |rows| + |RowsOf(pages(n))| <= INVENTORY_MAX_ROWS
    requires !GoodPage(pages(n)) || NextOf(pages(n)) in seen
    ensures EndedFor(pages, late, n + 1, Malformed)
  {
    hide AllRows;
    if GoodPage(pages(n)) {
      var i: nat :| i < n && NextOf(pages(i)) == NextOf(pages(n));
      assert GoodPage(pages(i));
    }
    assert BadSuccessor(pages, n);
  }

  lemma BoundEnds(pages: nat -> PageAnswer, late: nat -> bool, n: nat, t: nat, rows: seq<Row>, seen: set<string>)
    requires Reading(pages, n, rows, seen)
    ensures n == INVENTORY_MAX_PAGES ==> EndedFor(pages, late, n, Bound(rows))
    ensures late(t) ==> forall asked: nat :: EndedFor(pages, late, asked, Bound(rows))
    ensures GoodRows(pages(n)) && |rows| + |RowsOf(pages(n))| > INVENTORY_MAX_ROWS ==>
              EndedFor(pages, late, n + 1, Bound(rows))
    ensures pages(n).Raises? ==> EndedFor(pages, late, n + 1, Raised(pages(n).fault))
  {
    hide AllRows;
  }

  /** Row i of the k-th page is its i-th object, after the rows of the pages before. */
  lemma {:induction false} RowAt(pages: nat -> PageAnswer, n: nat, k: nat, i: nat)
    requires k < n && (forall j: nat :: j < n ==> GoodRows(pages(j)))
    requires GoodRows(pages(k)) && i < |pages(k).rows.value|
    ensures |AllRows(pages, k)| + i < |AllRows(pages, n)|
    ensures Some(AllRows(pages, n)[|AllRows(pages, k)| + i]) == pages(k).rows.value[i]
  {
    if k + 1 < n {
      RowAt(pages, n - 1, k, i);
    }
  }

  /** Main result: at most 20 pages are asked for and no cursor twice. A normal
      return is every page's rows in order, up to the page with no successor. A bound
      error carries the rows of the pages before the one that broke the bound. And
      when the reading is in time, every inventory within the limits is returned. A
      reading that does not return ends for the reason its result names. */
  method PagedRows(pages: nat -> PageAnswer, late: nat -> bool) returns (result: Paged, ghost cursors: seq<string>)
    ensures |cursors| <= INVENTORY_MAX_PAGES && Follows(pages, cursors)
    ensures forall i, j :: 0 <= i < j < |cursors| ==> cursors[i] != cursors[j]
    ensures result.Rows? ==> cursors != [] && Fits(pages, |cursors| - 1) && result.rows == AllRows(pages, |cursors|)
    ensures result.Bound? ==>
              && |result.kept| <= INVENTORY_MAX_ROWS
              && exists n: nat :: |cursors| - 1 <= n <= |cursors| && Chain(pages, n) && result.kept == AllRows(pages, n)
    ensures forall n: nat :: Fits(pages, n) && (forall t: nat :: !late(t)) ==> result == Rows(AllRows(pages, n + 1))
    ensures EndedFor(pages, late, |cursors|, result)
  {
    hide Chain, AllRows, Ends, Fits, Follows, Reading, GoodPage, RowsOf, NextOf;
    hide EndedFor;
    var cursor := "";
    var seen: set<string> := {};
    var rows := [];
    var n := 0;
    var readings := 0;
    cursors := [];
    Started(pages);
    while true
      invariant 0 <= n <= INVENTORY_MAX_PAGES && |cursors| == n
      invariant Reading(pages, n, rows, seen) && |rows| <= INVENTORY_MAX_ROWS
      invariant Follows(pages, cursors)
      invariant if n == 0 then cursor == ""
                else GoodPage(pages(n - 1)) && cursor == NextOf(pages(n - 1)) && cursor != ""
      decreases INVENTORY_MAX_PAGES - n
    {
      Read(pages, n, rows, seen);
      FitsOn(pages, n, rows, seen);
      FollowsDistinct(pages, cursors);
      BoundEnds(pages, late, n, readings, rows, seen);
      BoundEnds(pages, late, n, readings + 1, rows, seen);
      if n >= INVENTORY_MAX_PAGES {
        return Bound(rows), cursors;
      }
      if late(readings) {
        return Bound(rows), cursors;
      }
      FollowsGrows(pages, cursors, cursor);
      var page := pages(n);
      cursors := cursors + [cursor];
      FollowsDistinct(pages, cursors);
      if page.Raises? {
        Good(page);
        return Raised(page.fault), cursors;
      }
      if late(readings + 1) {
        return Bound(rows), cursors;
      }
      readings := readings + 2;
      if !GoodRows(page) {
        Good(page);
        RejectedEnds(pages, late, n);
        return Malformed, cursors;
      }
      if |rows| + |RowsOf(page)| > INVENTORY_MAX_ROWS {
        return Bound(rows), cursors;
      }
      if !GoodPage(page) {
        BadSuccessorEnds(pages, late, n, rows, seen);
        return Malformed, cursors;
      }
      if NextOf(page) == "" {
        Ended(pages, n, rows, seen);
        Fitting(pages, n);
        ReturnedEnds(pages, late, n, rows + RowsOf(page));
        return Rows(rows + RowsOf(page)), cursors;
      }
      if NextOf(page) in seen {
        BadSuccessorEnds(pages, late, n, rows, seen);
        return Malformed, cursors;
      }
      ReadingGoesOn(pages, n, rows, seen);
      rows := rows + RowsOf(page);
      seen := seen + {NextOf(page)};
      cursor := NextOf(page);
      n := n + 1;
    }
  }

  lemma Read(pages: nat -> PageAnswer, n: nat, rows: seq<Row>, seen: set<string>)
    requires Reading(pages, n, rows, seen)
    ensures Chain(pages, n) && rows == AllRows(pages, n) && (n > 0 ==> Chain(pages, n - 1))
  {
  }

  lemma Good(p: PageAnswer)
    ensures GoodPage(p) ==> GoodRows(p) && p.Page?
  {
  }

  lemma Fitting(pages: nat -> PageAnswer, n: nat)
    requires n < INVENTORY_MAX_PAGES && Ends(pages, n) && |AllRows(pages, n + 1)| <= INVENTORY_MAX_ROWS
    ensures Fits(pages, n)
  {
  }
}
