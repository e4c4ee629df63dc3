/** The billing history page: four newest-first lists, cut to a prefix each, merged and cut again. */
module BillingHistory {
  import opened Options

  datatype ItemType = InvoiceItem | PaymentItem | CreditItem | RefundItem
  /** `at` is the creation time. */
  datatype Item = Item(kind: ItemType, id: nat, at: int)

  ghost predicate NewestFirst(s: seq<Item>) {
    forall i, j :: 0 <= i < j < |s| ==> s[i].at >= s[j].at
  }

  function Take<T>(s: seq<T>, n: nat): seq<T> { if |s| <= n then s else s[..n] }

  // ---------------------------------------------------------------- sorting

  /** Before the first item that is not newer. */
  function Insert(x: Item, s: seq<Item>): seq<Item> {
    if s == [] || s[0].at <= x.at then [x] + s else [s[0]] + Insert(x, s[1..])
  }

  /** The stable sort by time, newest first, which keeps the order of items of one time. */
  function Sort(s: seq<Item>): seq<Item> {
    if s == [] then [] else Insert(s[0], Sort(s[1..]))
  }

  function Merge(a: seq<Item>, b: seq<Item>): (r: seq<Item>)
    ensures |r| == |a| + |b|
    decreases |a| + |b|
  {
    if a == [] then b
    else if b == [] then a
    else if a[0].at >= b[0].at then [a[0]] + Merge(a[1..], b)
    else [b[0]] + Merge(a, b[1..])
  }

  lemma {:induction false} InsertFacts(x: Item, s: seq<Item>)
    requires NewestFirst(s)
    ensures NewestFirst(Insert(x, s)) && multiset(Insert(x, s)) == multiset{x} + multiset(s)
    ensures |Insert(x, s)| == |s| + 1
  {
    if s != [] && s[0].at > x.at {
      InsertFacts(x, s[1..]);
      assert s == [s[0]] + s[1..];
      forall i | 0 <= i < |Insert(x, s[1..])| ensures Insert(x, s[1..])[i].at <= s[0].at {
        assert Insert(x, s[1..])[i] in multiset(Insert(x, s[1..]));
      }
    }
  }

  lemma {:induction false} SortFacts(s: seq<Item>)
    ensures NewestFirst(Sort(s)) && multiset(Sort(s)) == multiset(s) && |Sort(s)| == |s|
  {
    if s != [] {
      SortFacts(s[1..]);
      InsertFacts(s[0], Sort(s[1..]));
      assert s == [s[0]] + s[1..];
    }
  }

  /** The items of one time, in order. */
  function OfTime(s: seq<Item>, t: int): seq<Item> {
    if s == [] then [] else (if s[0].at == t then [s[0]] else []) + OfTime(s[1..], t)
  }

  lemma OfTimeCons(x: Item, s: seq<Item>, t: int)
    ensures OfTime([x] + s, t) == (if x.at == t then [x] else []) + OfTime(s, t)
  {
    assert ([x] + s)[1..] == s;
  }

  lemma {:induction false} InsertIsStable(x: Item, s: seq<Item>, t: int)
    requires NewestFirst(s)
    ensures OfTime(Insert(x, s), t) == (if x.at == t then [x] else []) + OfTime(s, t)
  {
    if s == [] || s[0].at <= x.at {
      OfTimeCons(x, s, t);
    } else {
      InsertIsStable(x, s[1..], t);
      OfTimeCons(s[0], Insert(x, s[1..]), t);
      if x.at != t { assert [] + OfTime(s[1..], t) == OfTime(s[1..], t); }
    }
  }

  /** Items of one time keep their order. */
  lemma {:induction false} SortIsStable(s: seq<Item>, t: int)
    ensures OfTime(Sort(s), t) == OfTime(s, t)
  {
    if s != [] {
      SortIsStable(s[1..], t);
      SortFacts(s[1..]);
      InsertIsStable(s[0], Sort(s[1..]), t);
    }
  }

  lemma {:induction false} InsertMerges(x: Item, a: seq<Item>, b: seq<Item>)
    requires NewestFirst([x] + a) && NewestFirst(b)
    ensures Insert(x, Merge(a, b)) == Merge([x] + a, b)
    decreases |b|
  {
    var xa := [x] + a;
    assert xa[1..] == a;
    if a != [] { assert xa[0] == x && xa[1] == a[0]; }
    if b != [] && x.at < b[0].at {
      var rest := Merge(a, b[1..]);
      assert b == [b[0]] + b[1..];
      assert Merge(a, b) == [b[0]] + rest;
      assert ([b[0]] + rest)[1..] == rest;
      InsertMerges(x, a, b[1..]);
    }
  }

  /** Sorting a sorted list in front of others is merging it with them sorted. */
  lemma {:induction false} SortIsMerge(a: seq<Item>, b: seq<Item>)
    requires NewestFirst(a)
    ensures Sort(a + b) == Merge(a, Sort(b))
  {
    if a == [] {
      assert a + b == b;
    } else {
      assert (a + b)[1..] == a[1..] + b && a == [a[0]] + a[1..];
      SortIsMerge(a[1..], b);
      SortFacts(b);
      InsertMerges(a[0], a[1..], Sort(b));
    }
  }

  lemma {:induction false} MergeTakesLeft(a: seq<Item>, b: seq<Item>, n: nat, k: nat)
    requires k <= n
    ensures Take(Merge(Take(a, n), b), k) == Take(Merge(a, b), k)
    decreases |a| + |b|
  {
    if k > 0 && |a| > n && b != [] {
      var t := Take(a, n);
      assert t[0] == a[0] && t[1..] == Take(a[1..], n - 1);
      if a[0].at >= b[0].at {
        MergeTakesLeft(a[1..], b, n - 1, k - 1);
        TakeCons(a[0], Merge(t[1..], b), k);
        TakeCons(a[0], Merge(a[1..], b), k);
      } else {
        MergeTakesLeft(a, b[1..], n, k - 1);
        TakeCons(b[0], Merge(t, b[1..]), k);
        TakeCons(b[0], Merge(a, b[1..]), k);
      }
    }
  }

  lemma {:induction false} MergeTakesRight(a: seq<Item>, b: seq<Item>, n: nat, k: nat)
    requires k <= n
    ensures Take(Merge(a, Take(b, n)), k) == Take(Merge(a, b), k)
    decreases |a| + |b|
  {
    if k > 0 && |b| > n && a != [] {
      var t := Take(b, n);
      assert t[0] == b[0] && t[1..] == Take(b[1..], n - 1);
      if a[0].at >= b[0].at {
        MergeTakesRight(a[1..], b, n, k - 1);
        TakeCons(a[0], Merge(a[1..], t), k);
        TakeCons(a[0], Merge(a[1..], b), k);
      } else {
        MergeTakesRight(a, b[1..], n - 1, k - 1);
        TakeCons(b[0], Merge(a, t[1..]), k);
        TakeCons(b[0], Merge(a, b[1..]), k);
      }
    }
  }

  lemma TakeCons<T>(x: T, s: seq<T>, k: nat)
    requires k > 0
    ensures Take([x] + s, k) == [x] + Take(s, k - 1)
  {
  }

  // ---------------------------------------------------------------- the page

  /** The customer's items of each kind, newest first, within the dates asked for. */
  datatype Sources = Sources(invoices: seq<Item>, payments: seq<Item>, credits: seq<Item>, refunds: seq<Item>)

  ghost predicate Sorted(src: Sources) {
    NewestFirst(src.invoices) && NewestFirst(src.payments) && NewestFirst(src.credits) && NewestFirst(src.refunds)
  }

  predicate Wanted(filter: Option<ItemType>, kind: ItemType) { filter.None? || filter.value == kind }

  /** Items older than the cursor, in order. */
  function Older(s: seq<Item>, cursor: Option<int>): (r: seq<Item>) {
    if cursor.None? || s == [] then s
    else if s[0].at < cursor.value then [s[0]] + Older(s[1..], cursor)
    else Older(s[1..], cursor)
  }

  /** One query: the newest `limit + 1` items older than the cursor, or nothing when its kind is not wanted. */
  function Query(s: seq<Item>, kind: ItemType, filter: Option<ItemType>, cursor: Option<int>, limit: nat): seq<Item> {
    if Wanted(filter, kind) then Take(Older(s, cursor), limit + 1) else []
  }

  function All(s: seq<Item>, kind: ItemType, filter: Option<ItemType>, cursor: Option<int>): seq<Item> {
    if Wanted(filter, kind) then Older(s, cursor) else []
  }

  function Everything(src: Sources, filter: Option<ItemType>, cursor: Option<int>): seq<Item> {
    All(src.invoices, InvoiceItem, filter, cursor) + (All(src.payments, PaymentItem, filter, cursor)
    + (All(src.credits, CreditItem, filter, cursor) + (All(src.refunds, RefundItem, filter, cursor) + [])))
  }

  /** Everything that matches, newest first: what a page is cut from. */
  function FullHistory(src: Sources, filter: Option<ItemType>, cursor: Option<int>): seq<Item> {
    Sort(Everything(src, filter, cursor))
  }

  function Fetched(src: Sources, filter: Option<ItemType>, cursor: Option<int>, limit: nat): seq<Item> {
    Query(src.invoices, InvoiceItem, filter, cursor, limit) + (Query(src.payments, PaymentItem, filter, cursor, limit)
    + (Query(src.credits, CreditItem, filter, cursor, limit) + (Query(src.refunds, RefundItem, filter, cursor, limit) + [])))
  }

  datatype Page = Page(data: seq<Item>, cursor: Option<int>, hasMore: bool)

  /** What a page should be: the first `limit` items of everything that matches. */
  function PageOf(full: seq<Item>, limit: nat): Page {
    var data := Take(full, limit);
    Page(data, if |full| > limit && data != [] then Some(data[|data| - 1].at) else None, |full| > limit)
  }

  /** One of the four queries and the loop that collects what it finds. */
  method Collect(items: seq<Item>, s: seq<Item>, kind: ItemType, filter: Option<ItemType>, cursor: Option<int>, limit: nat)
    returns (all: seq<Item>)
    ensures all == items + Query(s, kind, filter, cursor, limit)
  {
    all := items;
    if Wanted(filter, kind) {
      var found := Take(Older(s, cursor), limit + 1);
      for n := 0 to |found|
        invariant all == items + found[..n]
      {
        all := all + [found[n]];
      }
    }
  }

  /** The page is built from at most `limit + 1` items of each kind, and is exactly the first `limit` items of
      the whole merged history, with `hasMore` and the cursor exact. */
  method GetBillingHistory(src: Sources, filter: Option<ItemType>, cursor: Option<int>, limit: nat) returns (page: Page)
    requires Sorted(src)
    ensures page == PageOf(FullHistory(src, filter, cursor), limit)
  {
    hide *;
    FetchedInOrder(src, filter, cursor, limit);
    var allItems := Collect([], src.invoices, InvoiceItem, filter, cursor, limit);
    allItems := Collect(allItems, src.payments, PaymentItem, filter, cursor, limit);
    allItems := Collect(allItems, src.credits, CreditItem, filter, cursor, limit);
    allItems := Collect(allItems, src.refunds, RefundItem, filter, cursor, limit);
    PrefixesSuffice(src, filter, cursor, limit);
    allItems := Sort(allItems);
    SamePage(allItems, FullHistory(src, filter, cursor), limit);
    page := CutPage(allItems, limit);
  }

  method CutPage(allItems: seq<Item>, limit: nat) returns (page: Page)
    ensures page == PageOf(allItems, limit)
  {
    var hasMore := |allItems| > limit;
    var data := if hasMore then allItems[..limit] else allItems;
    page := Page(data, if hasMore && data != [] then Some(data[|data| - 1].at) else None, hasMore);
  }

  lemma FetchedInOrder(src: Sources, filter: Option<ItemType>, cursor: Option<int>, limit: nat)
    ensures [] + Query(src.invoices, InvoiceItem, filter, cursor, limit) + Query(src.payments, PaymentItem, filter, cursor, limit)
            + Query(src.credits, CreditItem, filter, cursor, limit) + Query(src.refunds, RefundItem, filter, cursor, limit)
            == Fetched(src, filter, cursor, limit)
  {
    hide Query;
  }

  lemma SamePage(x: seq<Item>, y: seq<Item>, limit: nat)
    requires Take(x, limit + 1) == Take(y, limit + 1)
    ensures PageOf(x, limit) == PageOf(y, limit)
  {
    assert Take(x, limit) == Take(Take(x, limit + 1), limit) && Take(y, limit) == Take(Take(y, limit + 1), limit);
    assert |Take(x, limit + 1)| > limit <==> |x| > limit;
    assert |Take(y, limit + 1)| > limit <==> |y| > limit;
  }

  lemma {:induction false} OfTimeConcat(a: seq<Item>, b: seq<Item>, t: int)
    ensures OfTime(a + b, t) == OfTime(a, t) + OfTime(b, t)
  {
    if a == [] {
      assert a + b == b;
    } else {
      OfTimeConcat(a[1..], b, t);
      OfTimeCons(a[0], a[1..] + b, t);
      OfTimeCons(a[0], a[1..], t);
      hide OfTime;
      assert a + b == [a[0]] + (a[1..] + b) && a == [a[0]] + a[1..];
    }
  }

  /** The history is newest first and holds exactly what matches; items of one time come by kind, invoices,
      payments, credits and refunds, and within a kind as the database returned them. */
  lemma HistoryOrder(src: Sources, filter: Option<ItemType>, cursor: Option<int>, t: int)
    ensures var full := FullHistory(src, filter, cursor);
            && NewestFirst(full) && multiset(full) == multiset(Everything(src, filter, cursor))
            && OfTime(full, t)
               == OfTime(All(src.invoices, InvoiceItem, filter, cursor), t) + OfTime(All(src.payments, PaymentItem, filter, cursor), t)
                  + OfTime(All(src.credits, CreditItem, filter, cursor), t) + OfTime(All(src.refunds, RefundItem, filter, cursor), t)
  {
    hide Sort, All, OfTime, NewestFirst;
    var i, p := All(src.invoices, InvoiceItem, filter, cursor), All(src.payments, PaymentItem, filter, cursor);
    var c, r := All(src.credits, CreditItem, filter, cursor), All(src.refunds, RefundItem, filter, cursor);
    SortFacts(Everything(src, filter, cursor));
    SortIsStable(Everything(src, filter, cursor), t);
    assert r + [] == r;
    OfTimeConcat(c, r, t);
    OfTimeConcat(p, c + r, t);
    OfTimeConcat(i, p + (c + r), t);
  }

  lemma {:induction false} OlderIsSorted(s: seq<Item>, cursor: Option<int>)
    requires NewestFirst(s)
    ensures NewestFirst(Older(s, cursor))
    ensures forall x :: x in Older(s, cursor) <==> x in s && (cursor.None? || x.at < cursor.value)
  {
    if cursor.Some? && s != [] {
      OlderIsSorted(s[1..], cursor);
      assert s == [s[0]] + s[1..];
    }
  }

  /** Some kind of item is asked for by name, or all are. */
  predicate AsksFor(filter: Option<ItemType>, kind: ItemType) {
    match filter
    case None => true
    case Some(k) => k == kind
  }

  lemma {:induction false} OlderHolds(s: seq<Item>, cursor: Option<int>, x: Item)
    ensures x in Older(s, cursor) <==> x in s && (cursor.None? || x.at < cursor.value)
  {
    if cursor.Some? && s != [] {
      OlderHolds(s[1..], cursor, x);
      assert s == [s[0]] + s[1..];
    }
  }

  /** The history holds exactly the items of the kinds asked for that are older than the cursor. */
  lemma HistoryHolds(src: Sources, filter: Option<ItemType>, cursor: Option<int>, x: Item)
    ensures x in FullHistory(src, filter, cursor)
            <==> && (cursor.Some? ==> x.at < cursor.value)
                 && (|| (AsksFor(filter, InvoiceItem) && x in src.invoices) || (AsksFor(filter, PaymentItem) && x in src.payments)
                     || (AsksFor(filter, CreditItem) && x in src.credits) || (AsksFor(filter, RefundItem) && x in src.refunds))
  {
    OlderHolds(src.invoices, cursor, x);
    OlderHolds(src.payments, cursor, x);
    OlderHolds(src.credits, cursor, x);
    OlderHolds(src.refunds, cursor, x);
    hide Older, Sort, NewestFirst;
    var all := Everything(src, filter, cursor);
    SortFacts(all);
    assert x in Sort(all) <==> x in multiset(Sort(all));
    assert x in all <==> x in multiset(all);
  }

  /** A page shows the first `limit` items, says whether there are more, and then where the last one shown stands. */
  lemma PageShows(full: seq<Item>, limit: nat)
    ensures var page := PageOf(full, limit);
            && page.data <= full && |page.data| == (if |full| < limit then |full| else limit)
            && (page.hasMore <==> |page.data| < |full|)
            && (if page.hasMore && limit > 0 then page.cursor == Some(full[limit - 1].at) else page.cursor == None)
  {
  }

  /** Merging prefixes gives a prefix of the merge. */
  lemma MergePrefixes(a: seq<Item>, b: seq<Item>, c: seq<Item>, n: nat)
    requires Take(b, n) == Take(c, n)
    ensures Take(Merge(Take(a, n), b), n) == Take(Merge(a, c), n)
  {
    MergeTakesLeft(a, b, n, n);
    MergeTakesRight(a, b, n, n);
    MergeTakesRight(a, c, n, n);
  }

  lemma PrefixesSuffice(src: Sources, filter: Option<ItemType>, cursor: Option<int>, limit: nat)
    requires Sorted(src)
    ensures Take(Sort(Fetched(src, filter, cursor, limit)), limit + 1) == Take(FullHistory(src, filter, cursor), limit + 1)
  {
    AddSource(src.refunds, RefundItem, filter, cursor, limit, [], []);
    var c, d := Query(src.refunds, RefundItem, filter, cursor, limit) + [], All(src.refunds, RefundItem, filter, cursor) + [];
    AddSource(src.credits, CreditItem, filter, cursor, limit, c, d);
    c, d := Query(src.credits, CreditItem, filter, cursor, limit) + c, All(src.credits, CreditItem, filter, cursor) + d;
    AddSource(src.payments, PaymentItem, filter, cursor, limit, c, d);
    c, d := Query(src.payments, PaymentItem, filter, cursor, limit) + c, All(src.payments, PaymentItem, filter, cursor) + d;
    AddSource(src.invoices, InvoiceItem, filter, cursor, limit, c, d);
  }

  /** Putting one more source in front keeps prefix and whole in step. */
  lemma AddSource(s: seq<Item>, kind: ItemType, filter: Option<ItemType>, cursor: Option<int>, limit: nat,
                  fetched: seq<Item>, all: seq<Item>)
    requires NewestFirst(s) && Take(Sort(fetched), limit + 1) == Take(Sort(all), limit + 1)
    ensures Take(Sort(Query(s, kind, filter, cursor, limit) + fetched), limit + 1)
            == Take(Sort(All(s, kind, filter, cursor) + all), limit + 1)
  {
    OlderIsSorted(s, cursor);
    var a := All(s, kind, filter, cursor);
    assert Query(s, kind, filter, cursor, limit) == Take(a, limit + 1);
    SortIsMerge(Take(a, limit + 1), fetched);
    SortIsMerge(a, all);
    MergePrefixes(a, Sort(fetched), Sort(all), limit + 1);
  }

  // ---------------------------------------------------------------- following the cursor

  lemma OlderCons(x: Item, s: seq<Item>, c: int)
    ensures Older([x] + s, Some(c)) == if x.at < c then [x] + Older(s, Some(c)) else Older(s, Some(c))
  {
    assert ([x] + s)[1..] == s;
  }

  lemma {:induction false} OlderConcat(a: seq<Item>, b: seq<Item>, cursor: Option<int>)
    ensures Older(a + b, cursor) == Older(a, cursor) + Older(b, cursor)
  {
    if cursor.Some? {
      if a == [] {
        assert a + b == b;
      } else {
        assert (a + b)[1..] == a[1..] + b;
        OlderConcat(a[1..], b, cursor);
      }
    }
  }

  lemma OlderNothing(c: int)
    ensures Older([], Some(c)) == []
  {
  }

  lemma {:induction false} OlderInsert(x: Item, s: seq<Item>, c: int)
    requires NewestFirst(s)
    ensures Older(Insert(x, s), Some(c)) == if x.at < c then Insert(x, Older(s, Some(c))) else Older(s, Some(c))
  {
    if s == [] || s[0].at <= x.at {
      OlderCons(x, s, c);
      if x.at < c { OlderKeeps(s, c); }
    } else {
      OlderCons(s[0], Insert(x, s[1..]), c);
      OlderInsert(x, s[1..], c);
      var rest := Older(s[1..], Some(c));
      assert ([s[0]] + rest)[1..] == rest;
    }
  }

  lemma {:induction false} OlderSort(s: seq<Item>, c: int)
    ensures Older(Sort(s), Some(c)) == Sort(Older(s, Some(c)))
  {
    hide Insert, NewestFirst;
    if s != [] {
      OlderSort(s[1..], c);
      SortFacts(s[1..]);
      OlderInsert(s[0], Sort(s[1..]), c);
      var rest := Older(s[1..], Some(c));
      assert ([s[0]] + rest)[1..] == rest;
    }
  }

  lemma {:induction false} OlderTwice(s: seq<Item>, cursor: Option<int>, c: int)
    requires cursor.Some? ==> c <= cursor.value
    ensures Older(Older(s, cursor), Some(c)) == Older(s, Some(c))
  {
    if cursor.Some? && s != [] {
      OlderTwice(s[1..], cursor, c);
      OlderCons(s[0], Older(s[1..], cursor), c);
    }
  }

  lemma AllOlder(s: seq<Item>, kind: ItemType, filter: Option<ItemType>, cursor: Option<int>, c: int)
    requires cursor.Some? ==> c <= cursor.value
    ensures Older(All(s, kind, filter, cursor), Some(c)) == All(s, kind, filter, Some(c))
  {
    OlderTwice(s, cursor, c);
  }

  /** What comes after a cursor is what the history holds that is older. */
  lemma NextPage(src: Sources, filter: Option<ItemType>, cursor: Option<int>, c: int)
    requires cursor.Some? ==> c <= cursor.value
    ensures FullHistory(src, filter, Some(c)) == Older(FullHistory(src, filter, cursor), Some(c))
  {
    hide All, Sort, Older;
    var i, p := All(src.invoices, InvoiceItem, filter, cursor), All(src.payments, PaymentItem, filter, cursor);
    var n, r := All(src.credits, CreditItem, filter, cursor), All(src.refunds, RefundItem, filter, cursor);
    OlderConcat(i, p + (n + (r + [])), Some(c));
    OlderConcat(p, n + (r + []), Some(c));
    OlderConcat(n, r + [], Some(c));
    OlderConcat(r, [], Some(c));
    OlderNothing(c);
    AllOlder(src.invoices, InvoiceItem, filter, cursor, c);
    AllOlder(src.payments, PaymentItem, filter, cursor, c);
    AllOlder(src.credits, CreditItem, filter, cursor, c);
    AllOlder(src.refunds, RefundItem, filter, cursor, c);
    OlderSort(Everything(src, filter, cursor), c);
  }

  lemma {:induction false} OlderNotLonger(s: seq<Item>, cursor: int)
    ensures |Older(s, Some(cursor))| <= |s|
  {
    if s != [] { OlderNotLonger(s[1..], cursor); }
  }

  /** A prefix that is not older than the cursor is dropped. */
  lemma {:induction false} OlderDrops(s: seq<Item>, c: int, k: nat)
    requires k <= |s| && forall i :: 0 <= i < k ==> s[i].at >= c
    ensures Older(s, Some(c)) == Older(s[k..], Some(c))
  {
    if k > 0 {
      OlderDrops(s[1..], c, k - 1);
      assert s[1..][k - 1..] == s[k..];
    }
  }

  lemma {:induction false} OlderKeeps(s: seq<Item>, c: int)
    requires forall x :: x in s ==> x.at < c
    ensures Older(s, Some(c)) == s
  {
    if s != [] { OlderKeeps(s[1..], c); }
  }

  lemma HistoryIsOlder(src: Sources, filter: Option<ItemType>, cursor: Option<int>)
    ensures NewestFirst(FullHistory(src, filter, cursor))
    ensures cursor.Some? ==> forall x :: x in FullHistory(src, filter, cursor) ==> x.at < cursor.value
  {
    SortFacts(Everything(src, filter, cursor));
    if cursor.Some? {
      NextPage(src, filter, None, cursor.value);
      SortFacts(Everything(src, filter, None));
      OlderIsSorted(FullHistory(src, filter, None), cursor);
    }
  }

  /** The next page starts after the page shown, and skips items of the time of its last one. */
  lemma AfterPage(src: Sources, filter: Option<ItemType>, cursor: Option<int>, limit: nat)
    requires 0 < limit < |FullHistory(src, filter, cursor)|
    ensures var full := FullHistory(src, filter, cursor);
            var next := FullHistory(src, filter, Some(full[limit - 1].at));
            && |next| <= |full| - limit
            && (full[limit - 1].at > full[limit].at ==> next == full[limit..])
            && (full[limit - 1].at == full[limit].at ==> |next| < |full| - limit)
            && full[limit - 1].at >= full[limit].at
  {
    hide FullHistory, Older;
    var full := FullHistory(src, filter, cursor);
    HistoryIsOlder(src, filter, cursor);
    var c := full[limit - 1].at;
    NextPage(src, filter, cursor, c);
    OlderDrops(full, c, limit);
    OlderNotLonger(full[limit..], c);
    if c > full[limit].at {
      OlderKeeps(full[limit..], c);
    } else {
      OlderDrops(full, c, limit + 1);
      OlderNotLonger(full[limit + 1..], c);
    }
  }

  /** Pages until there are no more, each from the cursor of the one before. */
  function Walk(src: Sources, filter: Option<ItemType>, cursor: Option<int>, limit: nat): seq<Item>
    requires limit > 0
    decreases |FullHistory(src, filter, cursor)|
  {
    var page := PageOf(FullHistory(src, filter, cursor), limit);
    if !page.hasMore then page.data
    else
      AfterPage(src, filter, cursor, limit);
      page.data + Walk(src, filter, page.cursor, limit)
  }

  /** No page ends between two items of one time. */
  predicate NoTies(full: seq<Item>, limit: nat)
    requires limit > 0
  {
    |full| <= limit || (full[limit - 1].at > full[limit].at && NoTies(full[limit..], limit))
  }

  /** Following the cursors ends, and shows the whole history in order, every item once, exactly when no page
      ends between two items of one time; otherwise items are lost. */
  lemma {:induction false} WalkShowsAll(src: Sources, filter: Option<ItemType>, cursor: Option<int>, limit: nat)
    requires limit > 0
    ensures var full := FullHistory(src, filter, cursor);
            && |Walk(src, filter, cursor, limit)| <= |full|
            && (Walk(src, filter, cursor, limit) == full <==> NoTies(full, limit))
    decreases |FullHistory(src, filter, cursor)|
  {
    hide FullHistory;
    var full := FullHistory(src, filter, cursor);
    if |full| > limit {
      AfterPage(src, filter, cursor, limit);
      var c := Some(full[limit - 1].at);
      WalkShowsAll(src, filter, c, limit);
      var rest := Walk(src, filter, c, limit);
      assert Walk(src, filter, cursor, limit) == full[..limit] + rest;
      assert full == full[..limit] + full[limit..];
      assert full[..limit] + rest == full <==> rest == full[limit..] by {
        if full[..limit] + rest == full { assert rest == (full[..limit] + rest)[limit..]; }
      }
    }
  }

  lemma {:induction false} DistinctHasNoTies(full: seq<Item>, limit: nat)
    requires limit > 0 && NewestFirst(full) && forall i, j :: 0 <= i < j < |full| ==> full[i].at != full[j].at
    ensures NoTies(full, limit)
  {
    if |full| > limit { DistinctHasNoTies(full[limit..], limit); }
  }

  /** With distinct times, following the cursors from the start shows every item of every kind exactly once. */
  lemma WalkVisitsEachOnce(src: Sources, limit: nat)
    requires limit > 0
    requires var full := FullHistory(src, None, None); forall i, j :: 0 <= i < j < |full| ==> full[i].at != full[j].at
    ensures multiset(Walk(src, None, None, limit))
            == multiset(src.invoices) + multiset(src.payments) + multiset(src.credits) + multiset(src.refunds)
    ensures NewestFirst(Walk(src, None, None, limit))
  {
    SortFacts(Everything(src, None, None));
    DistinctHasNoTies(FullHistory(src, None, None), limit);
    WalkShowsAll(src, None, None, limit);
    assert src.refunds + [] == src.refunds;
  }

  /** Two items of one time and pages of one item: the walk shows the invoice and never the payment. */
  lemma WalkLosesTie(invoice: Item, payment: Item)
    requires invoice == Item(InvoiceItem, 1, 9) && payment == Item(PaymentItem, 2, 9)
    ensures var src := Sources([invoice], [payment], [], []);
            FullHistory(src, None, None) == [invoice, payment] && Walk(src, None, None, 1) == [invoice]
  {
    var src, none: seq<Item> := Sources([invoice], [payment], [], []), [];
    TwoOfOneTime(invoice, payment);
    assert FullHistory(src, None, Some(9)) == none by {
      NextPage(src, None, None, 9);
      OlderDrops([invoice, payment], 9, 2);
      assert [invoice, payment][2..] == none;
    }
    hide FullHistory;
    assert [invoice, payment][..1] == [invoice] && [invoice] + none == [invoice];
    assert Walk(src, None, Some(9), 1) == none;
  }

  lemma TwoOfOneTime(invoice: Item, payment: Item)
    requires invoice.at == payment.at
    ensures FullHistory(Sources([invoice], [payment], [], []), None, None) == [invoice, payment]
  {
    var none: seq<Item> := [];
    assert [invoice] + ([payment] + (none + (none + none))) == [invoice, payment];
    assert [invoice, payment][1..] == [payment] && [payment][1..] == none;
    assert Sort([payment]) == [payment];
  }
}
