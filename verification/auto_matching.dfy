/**
 * The `POST` auto-matching handler: score every business profile against a customer's
 * needs, sort the scores in descending order, keep the best five and write one `pending`
 * match row per survivor.
 */
module AutoMatching {
  import opened Wrappers
  import opened Seqs
  import opened Catalog

  /** The `needs` object a customer stores from the needs form. */
  datatype Needs = Needs(industry: string, location: string, budget: string, otherRequirements: string)

  /** One entry of the ranked list returned to the client. */
  datatype ScoredMatch = ScoredMatch(businessId: string, companyName: string, score: real)

  /** One row inserted into the `matches` table. */
  datatype MatchRow = MatchRow(customerId: string, businessId: string, score: real, status: string)

  /** The match scorer; the handler's own scorer is a random stand-in, so it is a parameter. */
  type Scorer = (Needs, Option<seq<(string, string)>>) -> real

  datatype Response =
    | MethodNotAllowed                                            // 405
    | Matched(matches: seq<ScoredMatch>, written: seq<MatchRow>)  // 200, rows inserted
    | ServerError                                                 // 500

  const MaxMatches: nat := 5
  const Pending := "pending"

  /** The `map` step: one scored entry per business, in catalog order. */
  function ScoreAll(needs: Needs, catalog: seq<BusinessProfile>, scorer: Scorer): (ms: seq<ScoredMatch>)
    ensures |ms| == |catalog|
  {
    seq(|catalog|, i requires 0 <= i < |catalog| =>
      ScoredMatch(catalog[i].id, catalog[i].companyName, scorer(needs, catalog[i].services)))
  }

  predicate NonIncreasing(ms: seq<ScoredMatch>)
  {
    forall i, j :: 0 <= i < j < |ms| ==> ms[i].score >= ms[j].score
  }

  /** Selects the entries with score `v`: the tie class of `v`. */
  function WithScore(v: real): ScoredMatch -> bool
  {
    (m: ScoredMatch) => m.score == v
  }

  /**
   * Places `m` into a non-increasing list after every entry that scores strictly more
   * than it and before the rest, so `m` precedes the entries it ties with.
   */
  function Insert(m: ScoredMatch, sorted: seq<ScoredMatch>): (r: seq<ScoredMatch>)
    ensures |r| == |sorted| + 1
    ensures multiset(r) == multiset(sorted) + multiset{m}
  {
    if sorted == [] || sorted[0].score <= m.score then [m] + sorted
    else
      assert sorted == [sorted[0]] + sorted[1..];
      [sorted[0]] + Insert(m, sorted[1..])
  }

  /** `ms.sort((a, b) => b.score - a.score)`: a stable sort by descending score. */
  function SortByScore(ms: seq<ScoredMatch>): (r: seq<ScoredMatch>)
    ensures |r| == |ms|
    ensures multiset(r) == multiset(ms)
  {
    if ms == [] then []
    else
      assert ms == [ms[0]] + ms[1..];
      Insert(ms[0], SortByScore(ms[1..]))
  }

  /** The `sort` and `slice(0, 5)` steps. */
  function TopMatches(ms: seq<ScoredMatch>): (r: seq<ScoredMatch>)
    ensures |r| == (if |ms| < MaxMatches then |ms| else MaxMatches)
    ensures multiset(r) <= multiset(ms)
  {
    var sorted := SortByScore(ms);
    var n := if |sorted| < MaxMatches then |sorted| else MaxMatches;
    assert sorted == sorted[..n] + sorted[n..];
    sorted[..n]
  }

  /** The ranked list the handler computes from the needs and the catalog. */
  function Rank(needs: Needs, catalog: seq<BusinessProfile>, scorer: Scorer): (r: seq<ScoredMatch>)
    ensures |r| == (if |catalog| < MaxMatches then |catalog| else MaxMatches)
  {
    TopMatches(ScoreAll(needs, catalog, scorer))
  }

  /** The rows handed to the bulk insert: one per ranked entry, in the same order. */
  function ToRows(customerId: string, ms: seq<ScoredMatch>): (rows: seq<MatchRow>)
    ensures |rows| == |ms|
  {
    seq(|ms|, i requires 0 <= i < |ms| => MatchRow(customerId, ms[i].businessId, ms[i].score, Pending))
  }

  /**
   * The whole handler. A failed read of the customer's needs or of the catalog is `None`;
   * `insertSucceeds` is the datastore's answer to the bulk insert.
   */
  function HandleAutoMatching(
    httpMethod: string, customerId: string, needs: Option<Needs>,
    catalog: Option<seq<BusinessProfile>>, insertSucceeds: bool, scorer: Scorer): (r: Response)
    ensures r == MethodNotAllowed <==> httpMethod != "POST"
    ensures r.Matched? <==> httpMethod == "POST" && needs.Some? && catalog.Some? && insertSucceeds
    ensures r.Matched? ==>
      && r.matches == Rank(needs.value, catalog.value, scorer)
      && r.written == ToRows(customerId, r.matches)
      && |r.matches| <= MaxMatches
  {
    if httpMethod != "POST" then MethodNotAllowed
    else if needs.None? || catalog.None? then ServerError
    else
      var matches := Rank(needs.value, catalog.value, scorer);
      if insertSucceeds then Matched(matches, ToRows(customerId, matches)) else ServerError
  }

  // ---------------------------------------------------------------- sorting

  /** Every entry of `ms` scores at most `v`. */
  predicate AllAtMost(ms: seq<ScoredMatch>, v: real)
  {
    forall k :: 0 <= k < |ms| ==> ms[k].score <= v
  }

  lemma {:induction false} InsertAtMost(m: ScoredMatch, sorted: seq<ScoredMatch>, v: real)
    requires AllAtMost(sorted, v) && m.score <= v
    ensures AllAtMost(Insert(m, sorted), v)
  {
    if sorted != [] && sorted[0].score > m.score {
      InsertAtMost(m, sorted[1..], v);
    }
  }

  lemma {:induction false} InsertSorted(m: ScoredMatch, sorted: seq<ScoredMatch>)
    requires NonIncreasing(sorted)
    ensures NonIncreasing(Insert(m, sorted))
  {
    if sorted != [] && sorted[0].score > m.score {
      InsertSorted(m, sorted[1..]);
      InsertAtMost(m, sorted[1..], sorted[0].score);
      var r := Insert(m, sorted);
      assert r == [sorted[0]] + Insert(m, sorted[1..]);
    } else if sorted != [] {
      assert AllAtMost(sorted, m.score);
    }
  }

  /** Sorting yields a non-increasing permutation of its input. */
  lemma {:induction false} SortByScoreSortedPermutation(ms: seq<ScoredMatch>)
    ensures NonIncreasing(SortByScore(ms))
    ensures multiset(SortByScore(ms)) == multiset(ms)
    ensures |SortByScore(ms)| == |ms|
  {
    if ms != [] {
      SortByScoreSortedPermutation(ms[1..]);
      InsertSorted(ms[0], SortByScore(ms[1..]));
    }
  }

  lemma FilterCons(p: ScoredMatch -> bool, a: ScoredMatch, s: seq<ScoredMatch>)
    ensures Filter(p, [a] + s) == (if p(a) then [a] else []) + Filter(p, s)
  {
    assert ([a] + s)[0] == a && ([a] + s)[1..] == s;
  }

  lemma {:induction false} InsertStable(m: ScoredMatch, sorted: seq<ScoredMatch>, v: real)
    ensures Filter(WithScore(v), Insert(m, sorted)) == Filter(WithScore(v), [m] + sorted)
  {
    if sorted != [] && sorted[0].score > m.score {
      var p, h, t := WithScore(v), sorted[0], sorted[1..];
      assert sorted == [h] + t;
      InsertStable(m, t, v);
      FilterCons(p, h, Insert(m, t));
      FilterCons(p, m, t);
      FilterCons(p, m, sorted);
      FilterCons(p, h, t);
    }
  }

  /**
   * Stability: within every tie class the sorted list keeps the input order, as
   * `Array.prototype.sort` must (section 22.1.3.27 of ECMA-262, 10th edition).
   */
  lemma {:induction false} SortByScoreStable(ms: seq<ScoredMatch>, v: real)
    ensures Filter(WithScore(v), SortByScore(ms)) == Filter(WithScore(v), ms)
  {
    if ms != [] {
      var p := WithScore(v);
      SortByScoreStable(ms[1..], v);
      InsertStable(ms[0], SortByScore(ms[1..]), v);
      FilterCons(p, ms[0], SortByScore(ms[1..]));
      assert ms == [ms[0]] + ms[1..];
      FilterCons(p, ms[0], ms[1..]);
    }
  }

  // ---------------------------------------------------------------- top five

  /**
   * The ranked list holds min(5, n) entries, in non-increasing order, drawn from the
   * scored entries without repetition.
   */
  lemma TopMatchesShape(ms: seq<ScoredMatch>)
    ensures var r := TopMatches(ms);
      && |r| == (if |ms| < MaxMatches then |ms| else MaxMatches)
      && NonIncreasing(r)
      && multiset(r) <= multiset(ms)
  {
    SortByScoreSortedPermutation(ms);
  }

  /** Ties keep catalog order: each tie class of the ranking is a prefix of that of the input. */
  lemma TopMatchesStable(ms: seq<ScoredMatch>, v: real)
    ensures Filter(WithScore(v), TopMatches(ms)) <= Filter(WithScore(v), ms)
  {
    var sorted := SortByScore(ms);
    SortByScoreSortedPermutation(ms);
    var n := if |sorted| < MaxMatches then |sorted| else MaxMatches;
    FilterPrefix(WithScore(v), sorted, n);
    SortByScoreStable(ms, v);
  }

  lemma DropPrefix(a: seq<ScoredMatch>, b: seq<ScoredMatch>)
    ensures multiset(a + b) - multiset(a) == multiset(b)
  {
    assert multiset(a + b) == multiset(a) + multiset(b);
  }

  /** In a non-increasing list no entry past position `n` scores more than one before it. */
  lemma PrefixDominates(sorted: seq<ScoredMatch>, n: nat)
    requires NonIncreasing(sorted) && n <= |sorted|
    ensures forall e, k :: e in multiset(sorted[n..]) && k in sorted[..n] ==> e.score <= k.score
  {
    forall e, k | e in multiset(sorted[n..]) && k in sorted[..n] ensures e.score <= k.score {
      var j :| 0 <= j < |sorted[n..]| && sorted[n..][j] == e;
      var i :| 0 <= i < n && sorted[..n][i] == k;
      assert sorted[i] == k && sorted[n + j] == e;
    }
  }

  /** Top-N: no entry left out scores more than any entry kept. */
  lemma TopMatchesKeepsBest(ms: seq<ScoredMatch>)
    ensures var r := TopMatches(ms);
      forall e, k :: e in multiset(ms) - multiset(r) && k in r ==> e.score <= k.score
  {
    var sorted := SortByScore(ms);
    SortByScoreSortedPermutation(ms);
    var n := if |sorted| < MaxMatches then |sorted| else MaxMatches;
    assert sorted == sorted[..n] + sorted[n..];
    DropPrefix(sorted[..n], sorted[n..]);
    PrefixDominates(sorted, n);
  }

  /** An empty catalog yields an empty ranking. */
  lemma RankEmpty(needs: Needs, scorer: Scorer)
    ensures Rank(needs, [], scorer) == []
  {
  }

  /**
   * Each ranked entry carries the id, company name and score of one catalog row, and if the
   * scorer stays within [0, 1) so does every ranked score.
   */
  lemma RankEntriesFromCatalog(needs: Needs, catalog: seq<BusinessProfile>, scorer: Scorer)
    ensures forall m :: m in Rank(needs, catalog, scorer) ==>
      exists i :: 0 <= i < |catalog| &&
        m == ScoredMatch(catalog[i].id, catalog[i].companyName, scorer(needs, catalog[i].services))
    ensures (forall b :: b in catalog ==> 0.0 <= scorer(needs, b.services) < 1.0) ==>
      forall m :: m in Rank(needs, catalog, scorer) ==> 0.0 <= m.score < 1.0
  {
    var scored := ScoreAll(needs, catalog, scorer);
    TopMatchesShape(scored);
    forall m | m in Rank(needs, catalog, scorer)
      ensures exists i :: 0 <= i < |catalog| && m == scored[i]
    {
      assert m in multiset(scored);
      var i :| 0 <= i < |scored| && scored[i] == m;
    }
  }

  /**
   * The rows written: one per ranked entry, same order, the request's customer id, the
   * entry's business id and score, status `pending`.
   */
  lemma RowsMatchRanking(customerId: string, ms: seq<ScoredMatch>)
    ensures var rows := ToRows(customerId, ms);
      && |rows| == |ms|
      && forall i :: 0 <= i < |ms| ==>
        rows[i].customerId == customerId && rows[i].businessId == ms[i].businessId
        && rows[i].score == ms[i].score && rows[i].status == "pending"
  {
  }

  /** A successful run writes exactly min(5, |catalog|) rows, all pending, with scores from the catalog. */
  lemma HandlerWritesRanking(
    customerId: string, needs: Needs, catalog: seq<BusinessProfile>, scorer: Scorer)
    ensures var r := HandleAutoMatching("POST", customerId, Some(needs), Some(catalog), true, scorer);
      && r.Matched?
      && |r.written| == |r.matches| == (if |catalog| < MaxMatches then |catalog| else MaxMatches)
      && NonIncreasing(r.matches)
      && forall row :: row in r.written ==> row.customerId == customerId && row.status == Pending
  {
    TopMatchesShape(ScoreAll(needs, catalog, scorer));
  }
}
