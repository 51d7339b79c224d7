/**
 * The `GET` usage-analysis handler: read the newest match and transaction rows, compute the
 * match count, the completed-match percentage and the mean transaction amount, and pack them
 * into a report summary.
 */
module UsageAnalysis {
  import opened Wrappers
  import opened Seqs
  import AutoMatching

  /** A `transactions` row; only its amount is read here. */
  datatype Transaction = Transaction(amount: real)

  /**
   * A JavaScript number as the divisions here can produce it: dividing by zero gives `NaN`
   * for a zero numerator and an infinity otherwise.
   */
  datatype Num = Finite(value: real) | NaN | PosInfinity | NegInfinity

  datatype Analysis = Analysis(totalMatches: nat, successRate: Num, averageTransactionValue: Num)

  /** `report.summary`. The `toFixed` formatting of the two ratios is not modelled. */
  datatype Summary = Summary(
    totalMatches: nat, successRate: Num, averageTransactionValue: Num,
    topCategories: seq<string>, userGrowthRate: real)

  datatype Response =
    | MethodNotAllowed          // 405
    | Reported(summary: Summary) // 200, report saved
    | ServerError               // 500

  /** Each datastore read is `.limit(1000)`. */
  const FetchLimit: nat := 1000
  const Completed := "completed"
  const TopCategories: seq<string> := ["家事代行", "パーソナルトレーニング", "家庭教師"]
  const UserGrowthRate: real := 15.2

  /** JavaScript `a / b` on finite operands. */
  function Divide(a: real, b: real): (r: Num)
    ensures b != 0.0 ==> r == Finite(a / b)
    ensures b == 0.0 && a == 0.0 ==> r == NaN
    ensures r.Finite? <==> b != 0.0
  {
    if b != 0.0 then Finite(a / b)
    else if a == 0.0 then NaN
    else if a > 0.0 then PosInfinity
    else NegInfinity
  }

  /** JavaScript `n * k`; an infinity times a positive constant stays that infinity. */
  function Scale(n: Num, k: real): (r: Num)
    requires k > 0.0
    ensures r.Finite? <==> n.Finite?
    ensures n.Finite? && n.value >= 0.0 ==> r.value >= 0.0
  {
    match n
    case Finite(v) => Finite(v * k)
    case _ => n
  }

  function IsCompleted(m: AutoMatching.MatchRow): bool
  {
    m.status == Completed
  }

  /** `transactionData.reduce((sum, t) => sum + t.amount, 0)`: a left fold from 0. */
  function SumAmounts(txs: seq<Transaction>): (sum: real)
    ensures txs == [] ==> sum == 0.0
    ensures |txs| == 1 ==> sum == txs[0].amount
  {
    if txs == [] then 0.0 else SumAmounts(txs[..|txs| - 1]) + txs[|txs| - 1].amount
  }

  /** `analyzeData`. */
  function AnalyzeData(usage: seq<AutoMatching.MatchRow>, txs: seq<Transaction>): (a: Analysis)
    ensures a.totalMatches == |usage|
    ensures a.successRate.Finite? <==> |usage| > 0
    ensures a.averageTransactionValue.Finite? <==> |txs| > 0
  {
    var totalMatches := |usage|;
    var successfulMatches := |Filter(IsCompleted, usage)|;
    Analysis(
      totalMatches,
      Scale(Divide(successfulMatches as real, totalMatches as real), 100.0),
      Divide(SumAmounts(txs), |txs| as real))
  }

  /** The summary part of `generateReport`. */
  function GenerateSummary(a: Analysis): (s: Summary)
    ensures s.totalMatches == a.totalMatches && s.successRate == a.successRate
    ensures s.averageTransactionValue == a.averageTransactionValue
  {
    Summary(a.totalMatches, a.successRate, a.averageTransactionValue, TopCategories, UserGrowthRate)
  }

  /** The rows a `.order('created_at', { ascending: false }).limit(1000)` read returns. */
  function Newest<T>(rowsNewestFirst: seq<T>): (r: seq<T>)
    ensures |r| == if |rowsNewestFirst| < FetchLimit then |rowsNewestFirst| else FetchLimit
    ensures r <= rowsNewestFirst
  {
    rowsNewestFirst[..if |rowsNewestFirst| < FetchLimit then |rowsNewestFirst| else FetchLimit]
  }

  /**
   * The whole handler. Each table is given newest first, or `None` when its read fails;
   * `saveSucceeds` is the datastore's answer to the report insert.
   */
  function HandleUsageAnalysis(
    httpMethod: string, matchTable: Option<seq<AutoMatching.MatchRow>>,
    transactionTable: Option<seq<Transaction>>, saveSucceeds: bool): (r: Response)
    ensures r == MethodNotAllowed <==> httpMethod != "GET"
    ensures r.Reported? <==> httpMethod == "GET" && matchTable.Some? && transactionTable.Some? && saveSucceeds
    ensures r.Reported? ==>
      r.summary == GenerateSummary(AnalyzeData(Newest(matchTable.value), Newest(transactionTable.value)))
  {
    if httpMethod != "GET" then MethodNotAllowed
    else if matchTable.None? || transactionTable.None? then ServerError
    else
      var report := GenerateSummary(AnalyzeData(Newest(matchTable.value), Newest(transactionTable.value)));
      if saveSucceeds then Reported(report) else ServerError
  }

  // ---------------------------------------------------------------- properties

  /**
   * The match count is the number of rows; the success rate is 100 × completed / total,
   * which lies in [0, 100], and it is `NaN` when there are no rows.
   */
  lemma SuccessRateSpec(usage: seq<AutoMatching.MatchRow>, txs: seq<Transaction>)
    ensures var a := AnalyzeData(usage, txs);
      && a.totalMatches == |usage|
      && |Filter(IsCompleted, usage)| <= a.totalMatches
      && (|usage| == 0 ==> a.successRate == NaN)
      && (|usage| > 0 ==>
            && a.successRate == Finite(100.0 * (|Filter(IsCompleted, usage)| as real) / (|usage| as real))
            && 0.0 <= a.successRate.value <= 100.0)
  {
    if |usage| > 0 {
      Percentage(|Filter(IsCompleted, usage)| as real, |usage| as real);
    }
  }

  lemma Percentage(s: real, t: real)
    requires 0.0 <= s <= t && t > 0.0
    ensures s / t * 100.0 == 100.0 * s / t
    ensures 0.0 <= s / t * 100.0 <= 100.0
  {
    assert s / t <= 1.0;
  }

  /** The average is the sum of the amounts over their number, `NaN` when there are none. */
  lemma AverageSpec(usage: seq<AutoMatching.MatchRow>, txs: seq<Transaction>)
    ensures var a := AnalyzeData(usage, txs);
      && (|txs| == 0 ==> a.averageTransactionValue == NaN)
      && (|txs| > 0 ==> a.averageTransactionValue == Finite(SumAmounts(txs) / (|txs| as real)))
  {
  }

  lemma {:induction false} SumBounds(txs: seq<Transaction>, lo: real, hi: real)
    requires forall t :: t in txs ==> lo <= t.amount <= hi
    ensures (|txs| as real) * lo <= SumAmounts(txs) <= (|txs| as real) * hi
  {
    if txs != [] {
      var init, last := txs[..|txs| - 1], txs[|txs| - 1];
      forall t | t in init ensures lo <= t.amount <= hi {
        assert t in txs;
      }
      SumBounds(init, lo, hi);
      assert lo <= last.amount <= hi by {
        assert last in txs;
      }
      AddWithinBounds(|init| as real, SumAmounts(init), last.amount, lo, hi);
      assert |txs| as real == |init| as real + 1.0;
    }
  }

  lemma AddWithinBounds(n: real, x: real, a: real, lo: real, hi: real)
    requires n * lo <= x <= n * hi && lo <= a <= hi
    ensures (n + 1.0) * lo <= x + a <= (n + 1.0) * hi
  {
  }

  /** When every amount lies in [lo, hi], so does the average. */
  lemma AverageWithinBounds(usage: seq<AutoMatching.MatchRow>, txs: seq<Transaction>, lo: real, hi: real)
    requires |txs| > 0
    requires forall t :: t in txs ==> lo <= t.amount <= hi
    ensures var avg := AnalyzeData(usage, txs).averageTransactionValue;
      avg.Finite? && lo <= avg.value <= hi
  {
    SumBounds(txs, lo, hi);
    Quotient(SumAmounts(txs), |txs| as real, lo, hi);
  }

  lemma Quotient(x: real, n: real, lo: real, hi: real)
    requires n > 0.0 && n * lo <= x <= n * hi
    ensures lo <= x / n <= hi
  {
  }

  /**
   * Three matches, two of them completed, and two transactions summing to 12000: the
   * success rate is 200/3 (66.7 once formatted) and the average 6000.
   */
  lemma WorkedExample(a: AutoMatching.MatchRow, b: AutoMatching.MatchRow, c: AutoMatching.MatchRow)
    requires a.status == "completed" && b.status == "completed" && c.status == "pending"
    ensures var r := AnalyzeData([a, b, c], [Transaction(5000.0), Transaction(7000.0)]);
      r == Analysis(3, Finite(200.0 / 3.0), Finite(6000.0))
  {
    assert Filter(IsCompleted, [c]) == [];
    assert Filter(IsCompleted, [b, c]) == [b] by {
      assert [b, c][1..] == [c];
    }
    assert Filter(IsCompleted, [a, b, c]) == [a, b] by {
      assert [a, b, c][1..] == [b, c];
    }
    var txs := [Transaction(5000.0), Transaction(7000.0)];
    assert txs[..1] == [Transaction(5000.0)];
    assert [Transaction(5000.0)][..0] == [];
  }

  /**
   * The summary copies the match count of the rows read (never more than 1000), carries the
   * fixed category list and growth rate, and the handler rejects anything but `GET` first.
   */
  lemma SummaryShape(matchTable: seq<AutoMatching.MatchRow>, transactionTable: seq<Transaction>)
    ensures var r := HandleUsageAnalysis("GET", Some(matchTable), Some(transactionTable), true);
      && r.Reported?
      && r.summary.totalMatches == (if |matchTable| < FetchLimit then |matchTable| else FetchLimit)
      && r.summary.topCategories == ["家事代行", "パーソナルトレーニング", "家庭教師"]
      && r.summary.userGrowthRate == 15.2
  {
  }
}
