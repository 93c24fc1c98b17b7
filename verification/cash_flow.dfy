/** The series builder of the cash-flow report: a left fold over the ordered
    periods of a date range that looks up four sparse per-period sums, keeps
    a running balance and running income/expense totals, and emits one point
    per period in five aligned series. Amounts are integer minor currency
    units throughout. */
module CashFlow {
  import opened Wrappers
  import opened Sums

  /** The four sign-by-reconciliation buckets a transaction can fall in. */
  datatype Bucket = IncomeUncleared | IncomeCleared | ExpenseUncleared | ExpenseCleared {
    predicate IsIncome() {
      IncomeUncleared? || IncomeCleared?
    }
  }

  /** The four indexed query results: per-period summed amounts, sparse
      (a period with no matching transaction has no key). */
  datatype Buckets<K> = Buckets(
    incomes: map<K, int>,            // amount > 0, cleared
    incomesUncleared: map<K, int>,   // amount > 0, not cleared
    expenses: map<K, int>,           // amount < 0, cleared
    expensesUncleared: map<K, int>)  // amount < 0, not cleared
  {
    function Index(bk: Bucket): map<K, int> {
      match bk
      case IncomeCleared => incomes
      case IncomeUncleared => incomesUncleared
      case ExpenseCleared => expenses
      case ExpenseUncleared => expensesUncleared
    }
  }

  /** The amount a sparse index holds for `k`, zero when `k` is absent. */
  function Lookup<K>(m: map<K, int>, k: K): int {
    if k in m then m[k] else 0
  }

  /** The period's change to the balance: all four amounts summed
      (expense amounts are negative). */
  function NetAt<K>(b: Buckets<K>, date: K): int {
    Lookup(b.incomes, date) + Lookup(b.incomesUncleared, date)
      + Lookup(b.expenses, date) + Lookup(b.expensesUncleared, date)
  }

  /** The period's cleared plus uncleared income. */
  function IncomeAt<K>(b: Buckets<K>, date: K): int {
    Lookup(b.incomes, date) + Lookup(b.incomesUncleared, date)
  }

  /** The period's cleared plus uncleared expense. */
  function ExpenseAt<K>(b: Buckets<K>, date: K): int {
    Lookup(b.expenses, date) + Lookup(b.expensesUncleared, date)
  }

  /** Two bucket sets hold the same four amounts for `date`. */
  predicate SameAt<K>(b1: Buckets<K>, b2: Buckets<K>, date: K) {
    && Lookup(b1.incomes, date) == Lookup(b2.incomes, date)
    && Lookup(b1.incomesUncleared, date) == Lookup(b2.incomesUncleared, date)
    && Lookup(b1.expenses, date) == Lookup(b2.expenses, date)
    && Lookup(b1.expensesUncleared, date) == Lookup(b2.expensesUncleared, date)
  }

  /** One chart point: the period key and an integer amount in minor units.
      On a flow series `amount` is the integer the chart's `y` is converted
      from; on the balance series it is the point's own `amount` field. */
  datatype Point<K> = Point(date: K, amount: int)

  /** The five series handed to the chart. */
  datatype GraphData<K> = GraphData(
    expenses: seq<Point<K>>,
    expensesUncleared: seq<Point<K>>,
    income: seq<Point<K>>,
    incomeUncleared: seq<Point<K>>,
    balances: seq<Point<K>>)
  {
    /** The flow series fed from bucket `bk`. */
    function Series(bk: Bucket): seq<Point<K>> {
      match bk
      case IncomeCleared => income
      case IncomeUncleared => incomeUncleared
      case ExpenseCleared => expenses
      case ExpenseUncleared => expensesUncleared
    }
  }

  /** The state carried through the fold: the series so far and the three
      running scalars. */
  datatype Running<K> = Running(graph: GraphData<K>, balance: int, totalExpenses: int, totalIncome: int)

  /** The record handed to the report once the fold completes. */
  datatype CashFlowData<K> = CashFlowData(
    graphData: GraphData<K>,
    balance: int,
    totalExpenses: int,
    totalIncome: int,
    totalChange: int)

  /** The source reads the first and last balance point unguarded; on an
      empty range that read fails. */
  datatype Error = EmptyRange

  function Start<K>(startingBalance: int): Running<K> {
    Running(GraphData([], [], [], [], []), startingBalance, 0, 0)
  }

  /** One call of the reduce callback: look up the period's four amounts,
      update the totals and the balance, append one point to every series. */
  function Step<K>(acc: Running<K>, b: Buckets<K>, date: K): Running<K> {
    var income := Lookup(b.incomes, date);
    var incomeUncleared := Lookup(b.incomesUncleared, date);
    var expense := Lookup(b.expenses, date);
    var expenseUncleared := Lookup(b.expensesUncleared, date);
    var balance := acc.balance + (income + expense + incomeUncleared + expenseUncleared);
    var g := acc.graph;
    Running(
      GraphData(
        g.expenses + [Point(date, expense)],
        g.expensesUncleared + [Point(date, expenseUncleared)],
        g.income + [Point(date, income)],
        g.incomeUncleared + [Point(date, incomeUncleared)],
        g.balances + [Point(date, balance)]),
      balance,
      acc.totalExpenses + expense + expenseUncleared,
      acc.totalIncome + income + incomeUncleared)
  }

  /** `dates.reduce(Step, acc)`: every series grows by one point per period. */
  function Fold<K>(acc: Running<K>, b: Buckets<K>, dates: seq<K>): (r: Running<K>)
    ensures |r.graph.balances| == |acc.graph.balances| + |dates|
    ensures forall bk :: |r.graph.Series(bk)| == |acc.graph.Series(bk)| + |dates|
    decreases |dates|
  {
    if |dates| == 0 then acc else Fold(Step(acc, b, dates[0]), b, dates[1..])
  }

  /** `recalculate`: fold from the starting balance, then read the final
      balance and the first-to-last change off the balance series. */
  function Recalculate<K>(b: Buckets<K>, dates: seq<K>, startingBalance: int): (r: Result<CashFlowData<K>, Error>)
    ensures r.Failure? <==> |dates| == 0
    ensures r.Success? ==>
      && |r.value.graphData.balances| == |dates|
      && forall bk :: |r.value.graphData.Series(bk)| == |dates|
  {
    var acc := Fold(Start(startingBalance), b, dates);
    var balances := acc.graph.balances;
    if |balances| == 0 then
      Failure(EmptyRange)
    else
      var last := balances[|balances| - 1].amount;
      Success(CashFlowData(acc.graph, last, acc.totalExpenses, acc.totalIncome, last - balances[0].amount))
  }

  // ---------------------------------------------------------------------
  // Closed forms: the per-period flows of a range, as plain sequences.

  /** The net flow of each period, in period order. */
  function Nets<K>(b: Buckets<K>, dates: seq<K>): (xs: seq<int>)
    ensures |xs| == |dates|
    ensures forall i :: 0 <= i < |dates| ==> xs[i] == NetAt(b, dates[i])
    decreases |dates|
  {
    if |dates| == 0 then [] else [NetAt(b, dates[0])] + Nets(b, dates[1..])
  }

  /** The cleared plus uncleared income of each period, in period order. */
  function Incomes<K>(b: Buckets<K>, dates: seq<K>): (xs: seq<int>)
    ensures |xs| == |dates|
    ensures forall i :: 0 <= i < |dates| ==> xs[i] == IncomeAt(b, dates[i])
    decreases |dates|
  {
    if |dates| == 0 then [] else [IncomeAt(b, dates[0])] + Incomes(b, dates[1..])
  }

  /** The cleared plus uncleared expense of each period, in period order. */
  function Expenses<K>(b: Buckets<K>, dates: seq<K>): (xs: seq<int>)
    ensures |xs| == |dates|
    ensures forall i :: 0 <= i < |dates| ==> xs[i] == ExpenseAt(b, dates[i])
    decreases |dates|
  {
    if |dates| == 0 then [] else [ExpenseAt(b, dates[0])] + Expenses(b, dates[1..])
  }

  /** Splitting the first period off the three flow sums. */
  lemma FlowSumsFirst<K>(b: Buckets<K>, dates: seq<K>)
    requires |dates| > 0
    ensures Sum(Nets(b, dates)) == NetAt(b, dates[0]) + Sum(Nets(b, dates[1..]))
    ensures Sum(Incomes(b, dates)) == IncomeAt(b, dates[0]) + Sum(Incomes(b, dates[1..]))
    ensures Sum(Expenses(b, dates)) == ExpenseAt(b, dates[0]) + Sum(Expenses(b, dates[1..]))
  {
    SumFirst(Nets(b, dates));
    SumFirst(Incomes(b, dates));
    SumFirst(Expenses(b, dates));
    assert Nets(b, dates)[1..] == Nets(b, dates[1..]);
    assert Incomes(b, dates)[1..] == Incomes(b, dates[1..]);
    assert Expenses(b, dates)[1..] == Expenses(b, dates[1..]);
  }

  /** Splitting the first period off a prefix of the net flows. */
  lemma NetPrefixFirst<K>(b: Buckets<K>, dates: seq<K>, i: nat)
    requires i < |dates|
    ensures Sum(Nets(b, dates)[..i + 1]) == NetAt(b, dates[0]) + Sum(Nets(b, dates[1..])[..i])
  {
    var xs := Nets(b, dates)[..i + 1];
    SumFirst(xs);
    assert xs[1..] == Nets(b, dates[1..])[..i];
  }

  /** `r` is `prefix` followed by one point per date carrying that date's
      amount in index `m` (zero when absent). */
  ghost predicate Appends<K>(r: seq<Point<K>>, prefix: seq<Point<K>>, dates: seq<K>, m: map<K, int>) {
    && |r| == |prefix| + |dates|
    && r[..|prefix|] == prefix
    && forall i :: 0 <= i < |dates| ==> r[|prefix| + i] == Point(dates[i], Lookup(m, dates[i]))
  }

  /** Appending the first date's point, then the rest, appends them all. */
  lemma AppendsCons<K>(r: seq<Point<K>>, prefix: seq<Point<K>>, dates: seq<K>, m: map<K, int>)
    requires |dates| > 0
    requires Appends(r, prefix + [Point(dates[0], Lookup(m, dates[0]))], dates[1..], m)
    ensures Appends(r, prefix, dates, m)
  {
  }

  /** With nothing before them, the appended points start at index 0. */
  lemma AppendsToEmpty<K>(r: seq<Point<K>>, dates: seq<K>, m: map<K, int>)
    requires Appends(r, [], dates, m)
    ensures forall i :: 0 <= i < |dates| ==> r[i] == Point(dates[i], Lookup(m, dates[i]))
  {
    assert forall i :: 0 <= i < |dates| ==> r[0 + i] == r[i];
  }

  /** The four flow series of a fold: one point per period, carrying the
      bucket's amount for that period, or zero when the period has no key. */
  lemma {:induction false} FoldPoints<K>(acc: Running<K>, b: Buckets<K>, dates: seq<K>)
    ensures forall bk :: Appends(Fold(acc, b, dates).graph.Series(bk), acc.graph.Series(bk), dates, b.Index(bk))
    decreases |dates|
  {
    var r := Fold(acc, b, dates);
    if |dates| == 0 {
      forall bk
        ensures Appends(r.graph.Series(bk), acc.graph.Series(bk), dates, b.Index(bk))
      {
        assert r.graph.Series(bk)[..|acc.graph.Series(bk)|] == acc.graph.Series(bk);
      }
    } else {
      var next := Step(acc, b, dates[0]);
      FoldPoints(next, b, dates[1..]);
      forall bk
        ensures Appends(r.graph.Series(bk), acc.graph.Series(bk), dates, b.Index(bk))
      {
        assert next.graph.Series(bk) == acc.graph.Series(bk) + [Point(dates[0], Lookup(b.Index(bk), dates[0]))];
        AppendsCons(r.graph.Series(bk), acc.graph.Series(bk), dates, b.Index(bk));
      }
    }
  }

  /** The balance points a fold appends when it starts from balance `base`:
      each period's point carries the balance after adding its net flow. */
  function BalancePoints<K>(b: Buckets<K>, dates: seq<K>, base: int): (ps: seq<Point<K>>)
    ensures |ps| == |dates|
    decreases |dates|
  {
    if |dates| == 0 then []
    else
      var next := base + NetAt(b, dates[0]);
      [Point(dates[0], next)] + BalancePoints(b, dates[1..], next)
  }

  /** The balance point of period i holds `base` plus the net flows of
      periods 0..i. */
  lemma {:induction false} BalancePointsArePrefixSums<K>(b: Buckets<K>, dates: seq<K>, base: int)
    ensures forall i :: 0 <= i < |dates| ==>
      BalancePoints(b, dates, base)[i] == Point(dates[i], base + Sum(Nets(b, dates)[..i + 1]))
    decreases |dates|
  {
    if |dates| > 0 {
      var next := base + NetAt(b, dates[0]);
      var ps := BalancePoints(b, dates, base);
      var rest := BalancePoints(b, dates[1..], next);
      assert ps == [Point(dates[0], next)] + rest;
      BalancePointsArePrefixSums(b, dates[1..], next);
      forall i | 0 <= i < |dates|
        ensures ps[i] == Point(dates[i], base + Sum(Nets(b, dates)[..i + 1]))
      {
        NetPrefixFirst(b, dates, i);
        if i == 0 {
          assert Nets(b, dates[1..])[..0] == [];
        } else {
          assert ps[i] == rest[i - 1];
          assert dates[1..][i - 1] == dates[i];
        }
      }
    }
  }

  /** The fold appends exactly `BalancePoints` from the carried balance to
      the balance series. */
  lemma {:induction false} FoldBalances<K>(acc: Running<K>, b: Buckets<K>, dates: seq<K>)
    ensures Fold(acc, b, dates).graph.balances == acc.graph.balances + BalancePoints(b, dates, acc.balance)
    decreases |dates|
  {
    if |dates| > 0 {
      var next := Step(acc, b, dates[0]);
      var first := Point(dates[0], acc.balance + NetAt(b, dates[0]));
      assert next.graph.balances == acc.graph.balances + [first];
      assert next.balance == acc.balance + NetAt(b, dates[0]);
      FoldBalances(next, b, dates[1..]);
      assert (acc.graph.balances + [first]) + BalancePoints(b, dates[1..], next.balance)
          == acc.graph.balances + ([first] + BalancePoints(b, dates[1..], next.balance));
    }
  }

  /** The three running scalars of a fold equal the carried values plus the
      sums of the corresponding per-period flows. */
  lemma {:induction false} FoldTotals<K>(acc: Running<K>, b: Buckets<K>, dates: seq<K>)
    ensures var r := Fold(acc, b, dates);
      && r.balance == acc.balance + Sum(Nets(b, dates))
      && r.totalIncome == acc.totalIncome + Sum(Incomes(b, dates))
      && r.totalExpenses == acc.totalExpenses + Sum(Expenses(b, dates))
    decreases |dates|
  {
    if |dates| > 0 {
      FoldTotals(Step(acc, b, dates[0]), b, dates[1..]);
      FlowSumsFirst(b, dates);
    }
  }

  /** The fold keeps `balance - totalIncome - totalExpenses` fixed: every
      unit added to the balance is added to exactly one of the totals. */
  lemma {:induction false} FoldKeepsLedger<K>(acc: Running<K>, b: Buckets<K>, dates: seq<K>)
    ensures var r := Fold(acc, b, dates);
      r.balance - r.totalIncome - r.totalExpenses == acc.balance - acc.totalIncome - acc.totalExpenses
    decreases |dates|
  {
    if |dates| > 0 {
      FoldKeepsLedger(Step(acc, b, dates[0]), b, dates[1..]);
    }
  }

  /** Two bucket sets that agree on every period of the range fold alike. */
  lemma {:induction false} FoldAgrees<K>(acc: Running<K>, b1: Buckets<K>, b2: Buckets<K>, dates: seq<K>)
    requires forall i :: 0 <= i < |dates| ==> SameAt(b1, b2, dates[i])
    ensures Fold(acc, b1, dates) == Fold(acc, b2, dates)
    decreases |dates|
  {
    if |dates| > 0 {
      assert SameAt(b1, b2, dates[0]);
      assert Step(acc, b1, dates[0]) == Step(acc, b2, dates[0]);
      forall i | 0 <= i < |dates[1..]|
        ensures SameAt(b1, b2, dates[1..][i])
      {
        assert dates[1..][i] == dates[i + 1];
      }
      FoldAgrees(Step(acc, b1, dates[0]), b1, b2, dates[1..]);
    }
  }

  // ---------------------------------------------------------------------
  // Properties of `recalculate`.

  /** Each of the four flow series has one point per period, in period
      order, holding the bucket's amount for that period (zero when the
      period has no key); the balance series is dated the same way. */
  lemma SeriesFollowPeriods<K>(b: Buckets<K>, dates: seq<K>, startingBalance: int)
    requires |dates| > 0
    ensures var g := Recalculate(b, dates, startingBalance).value.graphData;
      && (forall bk, i :: 0 <= i < |dates| ==> g.Series(bk)[i] == Point(dates[i], Lookup(b.Index(bk), dates[i])))
      && (forall i :: 0 <= i < |dates| ==> g.balances[i].date == dates[i])
  {
    var acc := Start<K>(startingBalance);
    FoldPoints(acc, b, dates);
    FoldBalances(acc, b, dates);
    BalancePointsArePrefixSums(b, dates, startingBalance);
    var g := Fold(acc, b, dates).graph;
    forall bk
      ensures forall i :: 0 <= i < |dates| ==> g.Series(bk)[i] == Point(dates[i], Lookup(b.Index(bk), dates[i]))
    {
      AppendsToEmpty(g.Series(bk), dates, b.Index(bk));
    }
    assert g.balances == BalancePoints(b, dates, startingBalance);
    assert Recalculate(b, dates, startingBalance).value.graphData == g;
  }

  /** The balance point of period i is the starting balance plus the net
      flows of periods 0..i. */
  lemma BalancesArePrefixSums<K>(b: Buckets<K>, dates: seq<K>, startingBalance: int)
    requires |dates| > 0
    ensures var g := Recalculate(b, dates, startingBalance).value.graphData;
      forall i :: 0 <= i < |dates| ==> g.balances[i].amount == startingBalance + Sum(Nets(b, dates)[..i + 1])
  {
    var acc := Start<K>(startingBalance);
    FoldBalances(acc, b, dates);
    BalancePointsArePrefixSums(b, dates, startingBalance);
    var r := Fold(acc, b, dates).graph.balances;
    assert r == BalancePoints(b, dates, startingBalance);
    assert Recalculate(b, dates, startingBalance).value.graphData.balances == r;
  }

  /** Consecutive balance points differ by exactly the later period's net flow. */
  lemma ConsecutiveBalances<K>(b: Buckets<K>, dates: seq<K>, startingBalance: int)
    requires |dates| > 0
    ensures var g := Recalculate(b, dates, startingBalance).value.graphData;
      && g.balances[0].amount == startingBalance + NetAt(b, dates[0])
      && forall i :: 0 < i < |dates| ==> g.balances[i].amount == g.balances[i - 1].amount + NetAt(b, dates[i])
  {
    BalancesArePrefixSums(b, dates, startingBalance);
    var xs := Nets(b, dates);
    assert xs[..1][..0] == [];
    assert Sum(xs[..1]) == xs[0];
    forall i | 0 < i < |dates|
      ensures Sum(xs[..i + 1]) == Sum(xs[..i]) + NetAt(b, dates[i])
    {
      assert xs[..i + 1][..i] == xs[..i];
      assert xs[..i + 1][i] == xs[i];
    }
  }

  /** `totalIncome` and `totalExpenses` are the sums over all periods of the
      cleared plus uncleared income, and expense, amounts. */
  lemma TotalsAreSums<K>(b: Buckets<K>, dates: seq<K>, startingBalance: int)
    requires |dates| > 0
    ensures var r := Recalculate(b, dates, startingBalance).value;
      && r.totalIncome == Sum(Incomes(b, dates))
      && r.totalExpenses == Sum(Expenses(b, dates))
  {
    FoldTotals(Start<K>(startingBalance), b, dates);
  }

  /** The returned balance is the last balance point, and equals the
      starting balance plus both totals. */
  lemma FinalBalance<K>(b: Buckets<K>, dates: seq<K>, startingBalance: int)
    requires |dates| > 0
    ensures var r := Recalculate(b, dates, startingBalance).value;
      && r.balance == r.graphData.balances[|dates| - 1].amount
      && r.balance == startingBalance + Sum(Nets(b, dates))
      && r.balance == startingBalance + r.totalIncome + r.totalExpenses
  {
    var acc := Start<K>(startingBalance);
    FoldKeepsLedger(acc, b, dates);
    FoldTotals(acc, b, dates);
    BalancesArePrefixSums(b, dates, startingBalance);
    assert Nets(b, dates)[..|dates|] == Nets(b, dates);
  }

  /** `totalChange` is last minus first balance; since the first balance
      already includes period 0, this is the net flow of periods 1..n-1. */
  lemma TotalChangeSkipsFirstPeriod<K>(b: Buckets<K>, dates: seq<K>, startingBalance: int)
    requires |dates| > 0
    ensures var r := Recalculate(b, dates, startingBalance).value;
      && r.totalChange == r.graphData.balances[|dates| - 1].amount - r.graphData.balances[0].amount
      && r.totalChange == Sum(Nets(b, dates)[1..])
  {
    var xs := Nets(b, dates);
    BalancesArePrefixSums(b, dates, startingBalance);
    SumFirst(xs);
    SumFirst(xs[..1]);
    assert xs[..|dates|] == xs;
    assert xs[..1][1..] == [];
  }

  /** Non-negative income indexes and non-positive expense indexes give a
      non-negative `totalIncome` and a non-positive `totalExpenses`. */
  lemma SignedBucketsGiveSignedTotals<K>(b: Buckets<K>, dates: seq<K>, startingBalance: int)
    requires |dates| > 0
    requires forall k :: k in b.incomes ==> b.incomes[k] >= 0
    requires forall k :: k in b.incomesUncleared ==> b.incomesUncleared[k] >= 0
    requires forall k :: k in b.expenses ==> b.expenses[k] <= 0
    requires forall k :: k in b.expensesUncleared ==> b.expensesUncleared[k] <= 0
    ensures var r := Recalculate(b, dates, startingBalance).value;
      r.totalIncome >= 0 && r.totalExpenses <= 0
  {
    TotalsAreSums(b, dates, startingBalance);
    SumNonNegative(Incomes(b, dates));
    SumNonPositive(Expenses(b, dates));
  }

  /** Only the buckets' amounts at the range's periods matter. */
  lemma OnlyListedPeriodsMatter<K>(b1: Buckets<K>, b2: Buckets<K>, dates: seq<K>, startingBalance: int)
    requires forall i :: 0 <= i < |dates| ==> SameAt(b1, b2, dates[i])
    ensures Recalculate(b1, dates, startingBalance) == Recalculate(b2, dates, startingBalance)
  {
    FoldAgrees(Start<K>(startingBalance), b1, b2, dates);
  }

  /** `m` with an explicit zero entry for `k` when it had none. */
  function Fill<K>(m: map<K, int>, k: K): map<K, int> {
    if k in m then m else m[k := 0]
  }

  function ZeroFill<K>(b: Buckets<K>, k: K): Buckets<K> {
    Buckets(Fill(b.incomes, k), Fill(b.incomesUncleared, k), Fill(b.expenses, k), Fill(b.expensesUncleared, k))
  }

  /** A period absent from an index behaves exactly like one present with
      amount zero: filling in the missing entries changes nothing. */
  lemma AbsentKeyCountsAsZero<K>(b: Buckets<K>, k: K, dates: seq<K>, startingBalance: int)
    ensures Recalculate(ZeroFill(b, k), dates, startingBalance) == Recalculate(b, dates, startingBalance)
  {
    forall i | 0 <= i < |dates|
      ensures SameAt(ZeroFill(b, k), b, dates[i])
    {
    }
    OnlyListedPeriodsMatter(ZeroFill(b, k), b, dates, startingBalance);
  }

  function Restrict<K>(m: map<K, int>, dates: seq<K>): map<K, int> {
    map k | k in m && k in dates :: m[k]
  }

  function RestrictAll<K>(b: Buckets<K>, dates: seq<K>): Buckets<K> {
    Buckets(Restrict(b.incomes, dates), Restrict(b.incomesUncleared, dates),
            Restrict(b.expenses, dates), Restrict(b.expensesUncleared, dates))
  }

  /** Entries for periods outside the range contribute nothing. */
  lemma OutsideRangeIgnored<K>(b: Buckets<K>, dates: seq<K>, startingBalance: int)
    ensures Recalculate(RestrictAll(b, dates), dates, startingBalance) == Recalculate(b, dates, startingBalance)
  {
    forall i | 0 <= i < |dates|
      ensures SameAt(RestrictAll(b, dates), b, dates[i])
    {
      assert dates[i] in dates;
    }
    OnlyListedPeriodsMatter(RestrictAll(b, dates), b, dates, startingBalance);
  }

  /** Three distinct periods, a starting balance of 1000, an income of 500
      in the second period and an expense of 200 in the third. */
  lemma WorkedExample<K>(d1: K, d2: K, d3: K)
    requires d1 != d2 && d2 != d3 && d1 != d3
    ensures var b := Buckets(map[d2 := 500], map[], map[d3 := -200], map[]);
      var r := Recalculate(b, [d1, d2, d3], 1000).value;
      && |r.graphData.balances| == 3
      && r.graphData.balances[0].amount == 1000
      && r.graphData.balances[1].amount == 1500
      && r.graphData.balances[2].amount == 1300
      && r.totalIncome == 500
      && r.totalExpenses == -200
      && r.totalChange == 300
      && r.balance == 1300
  {
    var dates := [d1, d2, d3];
    var b := Buckets(map[d2 := 500], map[], map[d3 := -200], map[]);
    assert NetAt(b, dates[0]) == 0 && IncomeAt(b, dates[0]) == 0 && ExpenseAt(b, dates[0]) == 0;
    assert NetAt(b, dates[1]) == 500 && IncomeAt(b, dates[1]) == 500 && ExpenseAt(b, dates[1]) == 0;
    assert NetAt(b, dates[2]) == -200 && IncomeAt(b, dates[2]) == 0 && ExpenseAt(b, dates[2]) == -200;
    ConsecutiveBalances(b, dates, 1000);
    TotalsAreSums(b, dates, 1000);
    FinalBalance(b, dates, 1000);
    assert Incomes(b, dates) == [0, 500, 0];
    assert Expenses(b, dates) == [0, 0, -200];
    TotalChangeSkipsFirstPeriod(b, dates, 1000);
    assert Nets(b, dates)[1..] == [500, -200];
    assert Sum([500, -200]) == 300;
    assert Sum([0, 500, 0]) == 500;
    assert Sum([0, 0, -200]) == -200;
  }
}
