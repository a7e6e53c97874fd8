/** The transaction ledger view: four differently shaped lists from the
    current account's transaction query are normalised into one record
    shape and concatenated in a fixed order (src/pages/wallet/components/transaction.tsx). */
module Ledger {
  import opened Options
  import opened Text
  import opened Seqs

  /** The `type` labels of the ledger (`TransactionType`). */
  const BonusType := "Bonus Point"
  const DailyType := "Daily Point"
  const TransactionLabel := "Transaction"
  const OrderType := "Order Point"

  /** The post a bonus or daily point was earned on. */
  datatype Post = Post(title: Option<string>, status: string)

  /** One entry of the `bonusPoint` or `dailyPointList` lists: both lists
      carry the same fields. */
  datatype PointRecord = PointRecord(
    dailyPointId: string,
    post: Option<Post>,
    pointEarned: int,
    createdDate: string)

  datatype Reward = Reward(name: string, status: string)

  /** One entry of `transactionList`. */
  datatype Transaction = Transaction(
    transactionId: string,
    reward: Option<Reward>,
    kind: string,
    amount: int,
    createdDate: string,
    transactionType: Option<string>)

  datatype CoinPack = CoinPack(point: int)

  /** One entry of `orderPointList`. */
  datatype OrderPoint = OrderPoint(
    orderId: string,
    status: string,
    monkeyCoinPack: Option<CoinPack>,
    orderDate: string)

  /** The query's data; every list may be missing. */
  datatype TransactionsData = TransactionsData(
    bonusPoint: Option<seq<PointRecord>>,
    dailyPointList: Option<seq<PointRecord>>,
    transactionList: Option<seq<Transaction>>,
    orderPointList: Option<seq<OrderPoint>>)

  /** `FormatTransaction`: the normalised ledger row. `kind` is the
      source's `type` field. Fields the source may leave undefined are
      options. */
  datatype FormatTransaction = FormatTransaction(
    id: string,
    title: Option<string>,
    kind: string,
    amount: Option<int>,
    createdDate: string,
    status: Option<string>,
    transactionType: Option<string>)

  /** `(list || [])`: a missing list reads as empty. */
  function OrEmpty<T>(xs: Option<seq<T>>): (r: seq<T>)
    ensures xs.None? ==> r == []
    ensures xs.Some? ==> r == xs.value
  {
    xs.GetOr([])
  }

  /** The post's title, or `''` when the post or its title is missing. */
  function PostTitle(post: Option<Post>): (r: string)
    ensures post.Some? && post.value.title.Some? ==> r == post.value.title.value
    ensures post.None? || post.value.title.None? ==> r == ""
  {
    match post
    case None => ""
    case Some(p) => p.title.GetOr("")
  }

  function PostStatus(post: Option<Post>): (r: Option<string>)
    ensures r.Some? <==> post.Some?
    ensures post.Some? ==> r == Some(post.value.status)
  {
    match post
    case None => None
    case Some(p) => Some(p.status)
  }

  /** A point record as a ledger row with the given fixed type label. */
  function FromPoint(typeLabel: string, b: PointRecord): (r: FormatTransaction)
    ensures r.kind == typeLabel && r.id == b.dailyPointId
    ensures r.title == Some(PostTitle(b.post)) && r.status == PostStatus(b.post)
    ensures r.amount == Some(b.pointEarned) && r.createdDate == b.createdDate
    ensures r.transactionType.None?
  {
    FormatTransaction(b.dailyPointId, Some(PostTitle(b.post)), typeLabel,
                      Some(b.pointEarned), b.createdDate, PostStatus(b.post), None)
  }

  function FromBonus(b: PointRecord): FormatTransaction {
    FromPoint(BonusType, b)
  }

  function FromDaily(d: PointRecord): FormatTransaction {
    FromPoint(DailyType, d)
  }

  /** A transaction keeps its own type; title and status come from the
      reward, and are missing when the reward is. */
  function FromTransaction(t: Transaction): (r: FormatTransaction)
    ensures r.kind == t.kind && r.id == t.transactionId
    ensures r.amount == Some(t.amount) && r.createdDate == t.createdDate
    ensures r.transactionType == t.transactionType
    ensures r.title.Some? <==> t.reward.Some?
    ensures r.status.Some? <==> t.reward.Some?
    ensures t.reward.Some? ==> r.title == Some(t.reward.value.name) && r.status == Some(t.reward.value.status)
  {
    match t.reward
    case None => FormatTransaction(t.transactionId, None, t.kind, Some(t.amount), t.createdDate, None, t.transactionType)
    case Some(w) => FormatTransaction(t.transactionId, Some(w.name), t.kind, Some(t.amount), t.createdDate, Some(w.status), t.transactionType)
  }

  /** An order point: empty title, type `Order Point`, amount from the
      coin pack (missing with it), date from the order date. */
  function FromOrder(o: OrderPoint): (r: FormatTransaction)
    ensures r.id == o.orderId && r.title == Some("") && r.kind == OrderType
    ensures r.createdDate == o.orderDate && r.status == Some(o.status)
    ensures r.amount.Some? <==> o.monkeyCoinPack.Some?
    ensures o.monkeyCoinPack.Some? ==> r.amount == Some(o.monkeyCoinPack.value.point)
    ensures r.transactionType.None?
  {
    var amount := match o.monkeyCoinPack case None => None case Some(p) => Some(p.point);
    FormatTransaction(o.orderId, Some(""), OrderType, amount, o.orderDate, Some(o.status), None)
  }

  /** `!params.status`: no status, or the empty string, selects every
      order point. */
  predicate NoStatus(status: Option<string>) {
    status.None? || status.value == ""
  }

  /** Whether one order point passes the status filter. */
  predicate KeepsOrder(status: Option<string>, o: OrderPoint) {
    NoStatus(status) || EqualsIgnoringCase(o.status, status.value)
  }

  /** The order-point status filter, keeping relative order. */
  function FilterOrders(status: Option<string>, os: seq<OrderPoint>): (r: seq<OrderPoint>)
    ensures |r| <= |os|
    ensures forall i :: 0 <= i < |r| ==> KeepsOrder(status, r[i])
  {
    if |os| == 0 then []
    else if KeepsOrder(status, os[0]) then [os[0]] + FilterOrders(status, os[1..])
    else FilterOrders(status, os[1..])
  }

  /** The merged ledger of four source lists: bonus, daily and
      transaction rows, then the rows of the order points that pass the
      status filter. */
  function MergeLedger(bonus: seq<PointRecord>, daily: seq<PointRecord>, txs: seq<Transaction>,
                       orders: seq<OrderPoint>, status: Option<string>): (r: seq<FormatTransaction>)
    ensures |r| == |bonus| + |daily| + |txs| + |FilterOrders(status, orders)|
  {
    MapSeq(FromBonus, bonus) + MapSeq(FromDaily, daily) + MapSeq(FromTransaction, txs)
      + MapSeq(FromOrder, FilterOrders(status, orders))
  }

  /** `allTransactions`. A missing query result (`data` undefined) gives the
      empty ledger; a missing list reads as empty. */
  function AllTransactions(data: Option<TransactionsData>, status: Option<string>): (r: seq<FormatTransaction>)
    ensures data.None? ==> r == []
  {
    match data
    case None => []
    case Some(d) =>
      MergeLedger(OrEmpty(d.bonusPoint), OrEmpty(d.dailyPointList), OrEmpty(d.transactionList),
                  OrEmpty(d.orderPointList), status)
  }

  /** A missing source list and an empty one give the same ledger. */
  lemma MissingListIsEmpty(d: TransactionsData, status: Option<string>)
    ensures AllTransactions(Some(d.(bonusPoint := None)), status) == AllTransactions(Some(d.(bonusPoint := Some([]))), status)
    ensures AllTransactions(Some(d.(dailyPointList := None)), status) == AllTransactions(Some(d.(dailyPointList := Some([]))), status)
    ensures AllTransactions(Some(d.(transactionList := None)), status) == AllTransactions(Some(d.(transactionList := Some([]))), status)
    ensures AllTransactions(Some(d.(orderPointList := None)), status) == AllTransactions(Some(d.(orderPointList := Some([]))), status)
  {
  }

  /** The merged ledger is the bonus rows, then the daily rows, then the
      transaction rows, then the rows of the order points that pass the
      filter, each block one-to-one and in source order. */
  lemma MergeLedgerLayout(b: seq<PointRecord>, dl: seq<PointRecord>, t: seq<Transaction>,
                          os: seq<OrderPoint>, status: Option<string>)
    ensures var r := MergeLedger(b, dl, t, os, status);
            var o := FilterOrders(status, os);
            && (forall i :: 0 <= i < |b| ==> r[i] == FromBonus(b[i]))
            && (forall i :: 0 <= i < |dl| ==> r[|b| + i] == FromDaily(dl[i]))
            && (forall i :: 0 <= i < |t| ==> r[|b| + |dl| + i] == FromTransaction(t[i]))
            && (forall i :: 0 <= i < |o| ==> r[|b| + |dl| + |t| + i] == FromOrder(o[i]))
  {
    BonusBlock(b, dl, t, os, status);
    DailyBlock(b, dl, t, os, status);
    TransactionBlock(b, dl, t, os, status);
    OrderBlock(b, dl, t, os, status);
  }

  lemma BonusBlock(b: seq<PointRecord>, dl: seq<PointRecord>, t: seq<Transaction>, os: seq<OrderPoint>, status: Option<string>)
    ensures var r := MergeLedger(b, dl, t, os, status);
            forall i :: 0 <= i < |b| ==> r[i] == FromBonus(b[i])
  {
  }

  lemma DailyBlock(b: seq<PointRecord>, dl: seq<PointRecord>, t: seq<Transaction>, os: seq<OrderPoint>, status: Option<string>)
    ensures var r := MergeLedger(b, dl, t, os, status);
            forall i :: 0 <= i < |dl| ==> r[|b| + i] == FromDaily(dl[i])
  {
  }

  lemma TransactionBlock(b: seq<PointRecord>, dl: seq<PointRecord>, t: seq<Transaction>, os: seq<OrderPoint>, status: Option<string>)
    ensures var r := MergeLedger(b, dl, t, os, status);
            forall i :: 0 <= i < |t| ==> r[|b| + |dl| + i] == FromTransaction(t[i])
  {
  }

  lemma OrderBlock(b: seq<PointRecord>, dl: seq<PointRecord>, t: seq<Transaction>, os: seq<OrderPoint>, status: Option<string>)
    ensures var r := MergeLedger(b, dl, t, os, status);
            var o := FilterOrders(status, os);
            forall i :: 0 <= i < |o| ==> r[|b| + |dl| + |t| + i] == FromOrder(o[i])
  {
  }

  /** The type labels of the merged ledger, block by block: fixed labels
      for bonus, daily and order rows, the source's own type for
      transactions; order rows have an empty title. This follows from
      `MergeLedgerLayout` and the contracts of the row mappings; it is
      proved block by block, through the helpers below, only to keep each
      proof obligation small. */
  lemma MergeLedgerKinds(b: seq<PointRecord>, dl: seq<PointRecord>, t: seq<Transaction>,
                         os: seq<OrderPoint>, status: Option<string>)
    ensures var r := MergeLedger(b, dl, t, os, status);
            var o := FilterOrders(status, os);
            && |r| == |b| + |dl| + |t| + |o|
            && (forall i :: 0 <= i < |b| ==> r[i].kind == BonusType)
            && (forall i :: 0 <= i < |dl| ==> r[|b| + i].kind == DailyType && r[|b| + i].id == dl[i].dailyPointId)
            && (forall i :: 0 <= i < |t| ==> r[|b| + |dl| + i].kind == t[i].kind)
            && (forall i :: 0 <= i < |o| ==>
                  var row := r[|b| + |dl| + |t| + i];
                  row.kind == OrderType && row.title == Some("") && row.id == o[i].orderId)
  {
    BonusKinds(b, dl, t, os, status);
    DailyKinds(b, dl, t, os, status);
    TransactionKinds(b, dl, t, os, status);
    OrderKinds(b, dl, t, os, status);
  }

  lemma BonusKinds(b: seq<PointRecord>, dl: seq<PointRecord>, t: seq<Transaction>, os: seq<OrderPoint>, status: Option<string>)
    ensures var r := MergeLedger(b, dl, t, os, status);
            forall i :: 0 <= i < |b| ==> r[i].kind == BonusType
  {
    BonusBlock(b, dl, t, os, status);
  }

  lemma DailyKinds(b: seq<PointRecord>, dl: seq<PointRecord>, t: seq<Transaction>, os: seq<OrderPoint>, status: Option<string>)
    ensures var r := MergeLedger(b, dl, t, os, status);
            forall i :: 0 <= i < |dl| ==> r[|b| + i].kind == DailyType && r[|b| + i].id == dl[i].dailyPointId
  {
    DailyBlock(b, dl, t, os, status);
  }

  lemma TransactionKinds(b: seq<PointRecord>, dl: seq<PointRecord>, t: seq<Transaction>, os: seq<OrderPoint>, status: Option<string>)
    ensures var r := MergeLedger(b, dl, t, os, status);
            forall i :: 0 <= i < |t| ==> r[|b| + |dl| + i].kind == t[i].kind
  {
    TransactionBlock(b, dl, t, os, status);
  }

  lemma OrderKinds(b: seq<PointRecord>, dl: seq<PointRecord>, t: seq<Transaction>, os: seq<OrderPoint>, status: Option<string>)
    ensures var r := MergeLedger(b, dl, t, os, status);
            var o := FilterOrders(status, os);
            forall i :: 0 <= i < |o| ==>
              var row := r[|b| + |dl| + |t| + i];
              row.kind == OrderType && row.title == Some("") && row.id == o[i].orderId
  {
    OrderBlock(b, dl, t, os, status);
  }

  /** A row is in the merged ledger exactly when it is the image of a
      bonus, daily or transaction record, or of an order point that passes
      the status filter. */
  lemma MergeLedgerMembership(b: seq<PointRecord>, dl: seq<PointRecord>, t: seq<Transaction>,
                              os: seq<OrderPoint>, status: Option<string>, x: FormatTransaction)
    ensures x in MergeLedger(b, dl, t, os, status) <==>
              || (exists p :: p in b && x == FromBonus(p))
              || (exists p :: p in dl && x == FromDaily(p))
              || (exists p :: p in t && x == FromTransaction(p))
              || (exists p :: p in os && KeepsOrder(status, p) && x == FromOrder(p))
  {
    MapMembership(FromBonus, b, x);
    MapMembership(FromDaily, dl, x);
    MapMembership(FromTransaction, t, x);
    var o := FilterOrders(status, os);
    MapMembership(FromOrder, o, x);
    forall p | p in os && KeepsOrder(status, p)
      ensures p in o
    {
      FilterMembership(status, os, p);
    }
    forall p | p in o
      ensures p in os && KeepsOrder(status, p)
    {
      FilterMembership(status, os, p);
    }
  }

  /** The status filter touches only the order block: the first three
      blocks of the ledger do not depend on the status. */
  lemma StatusTouchesOnlyOrders(b: seq<PointRecord>, dl: seq<PointRecord>, t: seq<Transaction>,
                                os: seq<OrderPoint>, s1: Option<string>, s2: Option<string>)
    ensures var n := |b| + |dl| + |t|;
            MergeLedger(b, dl, t, os, s1)[..n] == MergeLedger(b, dl, t, os, s2)[..n]
  {
  }

  /** An element of a mapped list is the image of an element of the list. */
  lemma MapMembership<A, B>(f: A -> B, xs: seq<A>, y: B)
    ensures y in MapSeq(f, xs) <==> exists x :: x in xs && y == f(x)
  {
  }

  /** An order point survives the filter exactly when it is in the source
      list and passes the status test. */
  lemma {:induction false} FilterMembership(status: Option<string>, os: seq<OrderPoint>, o: OrderPoint)
    ensures o in FilterOrders(status, os) <==> o in os && KeepsOrder(status, o)
  {
    if |os| > 0 {
      FilterMembership(status, os[1..], o);
      assert os == [os[0]] + os[1..];
    }
  }

  /** With no status (or the empty one) every order point is kept. */
  lemma {:induction false} FilterNoStatusKeepsAll(status: Option<string>, os: seq<OrderPoint>)
    requires NoStatus(status)
    ensures FilterOrders(status, os) == os
  {
    if |os| > 0 {
      FilterNoStatusKeepsAll(status, os[1..]);
      assert os == [os[0]] + os[1..];
    }
  }

  /** The filter of a one-element list keeps it iff the element passes. */
  lemma FilterSingleton(status: Option<string>, o: OrderPoint)
    ensures FilterOrders(status, [o]) == if KeepsOrder(status, o) then [o] else []
  {
  }

  /** Filtering distributes over concatenation: the filter keeps the
      relative order of the order points it keeps. */
  lemma {:induction false} FilterAppend(status: Option<string>, a: seq<OrderPoint>, b: seq<OrderPoint>)
    ensures FilterOrders(status, a + b) == FilterOrders(status, a) + FilterOrders(status, b)
  {
    if |a| == 0 {
      assert a + b == b;
    } else {
      assert (a + b)[0] == a[0];
      assert (a + b)[1..] == a[1..] + b;
      FilterAppend(status, a[1..], b);
    }
  }

  /** Filtering twice by the same status is filtering once. */
  lemma {:induction false} FilterIdempotent(status: Option<string>, os: seq<OrderPoint>)
    ensures FilterOrders(status, FilterOrders(status, os)) == FilterOrders(status, os)
  {
    if |os| > 0 {
      FilterIdempotent(status, os[1..]);
      if KeepsOrder(status, os[0]) {
        var rest := FilterOrders(status, os[1..]);
        assert ([os[0]] + rest)[0] == os[0];
        assert ([os[0]] + rest)[1..] == rest;
      }
    }
  }

  /** The status is compared ignoring case: statuses that differ only in
      case select the same order points. */
  lemma {:induction false} FilterIgnoresCase(s1: string, s2: string, os: seq<OrderPoint>)
    requires EqualsIgnoringCase(s1, s2)
    ensures FilterOrders(Some(s1), os) == FilterOrders(Some(s2), os)
  {
    if |os| > 0 {
      FilterIgnoresCase(s1, s2, os[1..]);
      assert s1 == "" <==> s2 == "";
      assert KeepsOrder(Some(s1), os[0]) == KeepsOrder(Some(s2), os[0]);
    }
  }
}
