/** The query side of the cash-flow report: which transactions each of the
    four per-period queries selects, what the grouped `sum(amount)` of a
    query returns, and how `recalculate` unpacks the five query results
    into its starting balance and four sparse indexes. The query engine
    itself is not modelled; `GroupSum` is the meaning of a grouped sum over
    transactions that already passed the report's common filters (date
    range, on-budget account, transfer exclusions, user conditions). */
module Queries {
  import opened Wrappers
  import opened Sums
  import opened CashFlow

  /** A transaction as the queries see it: its period key, its signed
      amount in minor units, and whether it is cleared. */
  datatype Transaction<K> = Transaction(date: K, amount: int, cleared: bool)

  /** The extra filter each of the four flow queries adds. */
  predicate Selects<K>(bk: Bucket, t: Transaction<K>) {
    match bk
    case IncomeUncleared => t.amount > 0 && !t.cleared
    case IncomeCleared => t.amount > 0 && t.cleared
    case ExpenseUncleared => t.amount < 0 && !t.cleared
    case ExpenseCleared => t.amount < 0 && t.cleared
  }

  /** The one bucket whose filter selects `t`: the four filters are pairwise
      disjoint, cover every non-zero amount, and leave zero amounts out. */
  function Classify<K>(t: Transaction<K>): (r: Option<Bucket>)
    ensures r.None? <==> t.amount == 0
    ensures forall bk :: Selects(bk, t) <==> r == Some(bk)
  {
    if t.amount > 0 then
      Some(if t.cleared then IncomeCleared else IncomeUncleared)
    else if t.amount < 0 then
      Some(if t.cleared then ExpenseCleared else ExpenseUncleared)
    else
      None
  }

  /** The summed amount of the transactions dated `k` that bucket `bk`'s
      filter selects. */
  function PeriodSum<K(==)>(txs: seq<Transaction<K>>, bk: Bucket, k: K): int
    decreases |txs|
  {
    if |txs| == 0 then 0
    else
      var t := txs[|txs| - 1];
      PeriodSum(txs[..|txs| - 1], bk, k) + (if t.date == k && Selects(bk, t) then t.amount else 0)
  }

  /** The summed amount of every transaction dated `k`. */
  function PeriodTotal<K(==)>(txs: seq<Transaction<K>>, k: K): int
    decreases |txs|
  {
    if |txs| == 0 then 0
    else
      var t := txs[|txs| - 1];
      PeriodTotal(txs[..|txs| - 1], k) + (if t.date == k then t.amount else 0)
  }

  /** `sum(amount)` grouped by period, over the transactions bucket `bk`
      selects, accumulated one row at a time. A period appears exactly when
      some selected transaction is dated in it, and its sum has the sign of
      the bucket. */
  function GroupSum<K(==,!new)>(txs: seq<Transaction<K>>, bk: Bucket): (m: map<K, int>)
    ensures forall k :: Lookup(m, k) == PeriodSum(txs, bk, k)
    ensures forall k :: k in m <==> exists i :: 0 <= i < |txs| && txs[i].date == k && Selects(bk, txs[i])
    ensures forall k :: k in m ==> if bk.IsIncome() then m[k] > 0 else m[k] < 0
    decreases |txs|
  {
    if |txs| == 0 then map[]
    else
      var init := txs[..|txs| - 1];
      var m := GroupSum(init, bk);
      var t := txs[|txs| - 1];
      assert forall i :: 0 <= i < |init| ==> init[i] == txs[i];
      if Selects(bk, t) then m[t.date := Lookup(m, t.date) + t.amount] else m
  }

  /** Every transaction of a period is counted in exactly one of the four
      buckets, or in none when its amount is zero: the four bucket sums of a
      period add up to the period's total. */
  lemma {:induction false} EveryTransactionCountedOnce<K>(txs: seq<Transaction<K>>, k: K)
    ensures PeriodSum(txs, IncomeUncleared, k) + PeriodSum(txs, IncomeCleared, k)
          + PeriodSum(txs, ExpenseUncleared, k) + PeriodSum(txs, ExpenseCleared, k)
         == PeriodTotal(txs, k)
    decreases |txs|
  {
    if |txs| > 0 {
      EveryTransactionCountedOnce(txs[..|txs| - 1], k);
      // Brings Classify's ensures into scope: the last transaction is selected
      // by exactly one bucket, or by none when its amount is zero.
      var c := Classify(txs[|txs| - 1]);
    }
  }

  /** One result of `runAll`: the scalar starting-balance sum, or the rows
      of a grouped query indexed by period. */
  datatype QueryResult<K> = Scalar(total: int) | Rows(byDate: map<K, int>)

  /** The buckets of the four flow queries, in the order they are issued. */
  const QueryOrder: seq<Bucket> := [IncomeUncleared, IncomeCleared, ExpenseUncleared, ExpenseCleared]

  /** The five results in issue order: the starting balance, then one grouped
      sum per entry of `QueryOrder`. */
  function Dispatch<K(==,!new)>(txs: seq<Transaction<K>>, opening: int): seq<QueryResult<K>> {
    [Scalar(opening),
     Rows(GroupSum(txs, QueryOrder[0])),
     Rows(GroupSum(txs, QueryOrder[1])),
     Rows(GroupSum(txs, QueryOrder[2])),
     Rows(GroupSum(txs, QueryOrder[3]))]
  }

  /** The shape `recalculate` destructures: a scalar, then four row sets. */
  predicate WellShaped<K>(data: seq<QueryResult<K>>) {
    && |data| == 5
    && data[0].Scalar?
    && data[1].Rows? && data[2].Rows? && data[3].Rows? && data[4].Rows?
  }

  /** The destructuring at the head of `recalculate`: position 0 is the
      starting balance, positions 1 to 4 are income uncleared, income
      cleared, expense uncleared and expense cleared. */
  function Unpack<K(==)>(data: seq<QueryResult<K>>): (int, Buckets<K>)
    requires WellShaped(data)
  {
    (data[0].total,
     Buckets(data[2].byDate, data[1].byDate, data[4].byDate, data[3].byDate))
  }

  /** The positions `recalculate` binds agree with the order the queries are
      issued in: each index holds the grouped sum of exactly the filter it is
      named after, and the starting balance is passed through. */
  lemma WiringMatchesFilters<K(!new)>(txs: seq<Transaction<K>>, opening: int)
    ensures WellShaped(Dispatch(txs, opening))
    ensures Unpack(Dispatch(txs, opening)).0 == opening
    ensures forall bk :: Unpack(Dispatch(txs, opening)).1.Index(bk) == GroupSum(txs, bk)
  {
    var data := Dispatch(txs, opening);
    assert QueryOrder[0] == IncomeUncleared && QueryOrder[1] == IncomeCleared;
    assert QueryOrder[2] == ExpenseUncleared && QueryOrder[3] == ExpenseCleared;
    var b := Unpack(data).1;
    forall bk
      ensures b.Index(bk) == GroupSum(txs, bk)
    {
      match bk
      case IncomeUncleared => assert b.Index(bk) == data[1].byDate;
      case IncomeCleared => assert b.Index(bk) == data[2].byDate;
      case ExpenseUncleared => assert b.Index(bk) == data[3].byDate;
      case ExpenseCleared => assert b.Index(bk) == data[4].byDate;
    }
  }

  /** `cashFlowByDate` once its queries have run: unpack the results and
      recalculate. */
  function CashFlowByDate<K(==,!new)>(txs: seq<Transaction<K>>, opening: int, dates: seq<K>): (r: Result<CashFlowData<K>, Error>)
    ensures r.Failure? <==> |dates| == 0
  {
    WiringMatchesFilters(txs, opening);
    var (start, b) := Unpack(Dispatch(txs, opening));
    Recalculate(b, dates, start)
  }

  /** The total of every transaction dated in each period, in period order. */
  function PeriodTotals<K(==)>(txs: seq<Transaction<K>>, dates: seq<K>): (xs: seq<int>)
    ensures |xs| == |dates|
    ensures forall i :: 0 <= i < |dates| ==> xs[i] == PeriodTotal(txs, dates[i])
    decreases |dates|
  {
    if |dates| == 0 then [] else [PeriodTotal(txs, dates[0])] + PeriodTotals(txs, dates[1..])
  }

  /** End to end: the income total is never negative, the expense total never
      positive, and the final balance is the starting balance plus every
      transaction dated in the range's periods. */
  lemma CashFlowByDateTotals<K(!new)>(txs: seq<Transaction<K>>, opening: int, dates: seq<K>)
    requires |dates| > 0
    ensures var r := CashFlowByDate(txs, opening, dates).value;
      && r.totalIncome >= 0
      && r.totalExpenses <= 0
      && r.balance == opening + Sum(PeriodTotals(txs, dates))
  {
    WiringMatchesFilters(txs, opening);
    var start := Unpack(Dispatch(txs, opening)).0;
    var b := Unpack(Dispatch(txs, opening)).1;
    assert b.Index(IncomeCleared) == GroupSum(txs, IncomeCleared);
    assert b.Index(IncomeUncleared) == GroupSum(txs, IncomeUncleared);
    assert b.Index(ExpenseCleared) == GroupSum(txs, ExpenseCleared);
    assert b.Index(ExpenseUncleared) == GroupSum(txs, ExpenseUncleared);
    assert b.incomes == GroupSum(txs, IncomeCleared);
    assert b.incomesUncleared == GroupSum(txs, IncomeUncleared);
    assert b.expenses == GroupSum(txs, ExpenseCleared);
    assert b.expensesUncleared == GroupSum(txs, ExpenseUncleared);
    SignedBucketsGiveSignedTotals(b, dates, start);
    FinalBalance(b, dates, start);
    forall i | 0 <= i < |dates|
      ensures Nets(b, dates)[i] == PeriodTotals(txs, dates)[i]
    {
      EveryTransactionCountedOnce(txs, dates[i]);
    }
    assert Nets(b, dates) == PeriodTotals(txs, dates);
  }
}
