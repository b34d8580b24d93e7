/**
 * getPageViewsByCategory: classifies page paths into department buckets by
 * keyword and sums their page views per bucket.
 */
module Categories {
  import opened Js
  import opened JsStrings
  import opened JsNumbers
  import opened Analytics
  import opened DashboardTypes

  datatype Bucket = Dev | Mkt | Sales | HR | Other

  /** The buckets in the order the `categories` object is written, which `Object.entries` keeps. */
  const BucketOrder: seq<Bucket> := [Dev, Mkt, Sales, HR, Other]

  function Name(b: Bucket): string {
    match b
    case Dev => "Dev"
    case Mkt => "Mkt"
    case Sales => "Sales"
    case HR => "HR"
    case Other => "Other"
  }

  /** The position of a bucket in BucketOrder. */
  function Rank(b: Bucket): (k: nat)
    ensures k < |BucketOrder| && BucketOrder[k] == b
  {
    match b
    case Dev => 0
    case Mkt => 1
    case Sales => 2
    case HR => 3
    case Other => 4
  }

  /** The position of a bucket's name; 5 for a string that names no bucket. */
  function NameRank(name: string): nat {
    if name == "Dev" then 0
    else if name == "Mkt" then 1
    else if name == "Sales" then 2
    else if name == "HR" then 3
    else if name == "Other" then 4
    else 5
  }

  /** The keywords of the four rules, each tested with `includes` in this order. */
  const DevKeywords: seq<string> := ["dev", "developer", "tech", "engineering"]
  const MktKeywords: seq<string> := ["marketing", "mkt", "marketing"]  // the source tests 'marketing' twice
  const SalesKeywords: seq<string> := ["sales", "business"]
  const HRKeywords: seq<string> := ["hr", "human", "recruit"]

  /** `p.includes(k0) || p.includes(k1) || ...`, evaluated left to right. */
  predicate AnyContained(pagePath: string, keywords: seq<string>) {
    keywords != [] && (Contains(pagePath, keywords[0]) || AnyContained(pagePath, keywords[1..]))
  }

  /** The bucket of a lower-cased page path: the first rule one of whose keywords it contains. */
  function Classify(pagePath: string): Bucket {
    if AnyContained(pagePath, DevKeywords) then Dev
    else if AnyContained(pagePath, MktKeywords) then Mkt
    else if AnyContained(pagePath, SalesKeywords) then Sales
    else if AnyContained(pagePath, HRKeywords) then HR
    else Other
  }

  /** The keyword occurs somewhere in the path. */
  ghost predicate Mentions(pagePath: string, keyword: string) {
    exists i: nat :: OccursAt(pagePath, keyword, i)
  }

  /** Some keyword of the list occurs somewhere in the path. */
  ghost predicate MentionsAny(pagePath: string, keywords: seq<string>) {
    keywords != [] && (Mentions(pagePath, keywords[0]) || MentionsAny(pagePath, keywords[1..]))
  }

  /**
   * Classification is first match wins over the four keyword rules, in the order
   * Dev, Mkt, Sales, HR, and Other when no keyword occurs.
   */
  lemma ClassifyFirstMatchWins(pagePath: string)
    ensures Classify(pagePath) == Dev <==> MentionsAny(pagePath, DevKeywords)
    ensures Classify(pagePath) == Mkt <==>
      !MentionsAny(pagePath, DevKeywords) && MentionsAny(pagePath, MktKeywords)
    ensures Classify(pagePath) == Sales <==>
      !MentionsAny(pagePath, DevKeywords) && !MentionsAny(pagePath, MktKeywords) && MentionsAny(pagePath, SalesKeywords)
    ensures Classify(pagePath) == HR <==>
      !MentionsAny(pagePath, DevKeywords) && !MentionsAny(pagePath, MktKeywords)
      && !MentionsAny(pagePath, SalesKeywords) && MentionsAny(pagePath, HRKeywords)
    ensures Classify(pagePath) == Other <==>
      !MentionsAny(pagePath, DevKeywords) && !MentionsAny(pagePath, MktKeywords)
      && !MentionsAny(pagePath, SalesKeywords) && !MentionsAny(pagePath, HRKeywords)
  {
    RuleMatches(pagePath, DevKeywords);
    RuleMatches(pagePath, MktKeywords);
    RuleMatches(pagePath, SalesKeywords);
    RuleMatches(pagePath, HRKeywords);
  }

  /** The `||` chain of `includes` tests of a rule holds exactly when one of its keywords occurs. */
  lemma {:induction false} RuleMatches(pagePath: string, keywords: seq<string>)
    ensures MentionsAny(pagePath, keywords) <==> AnyContained(pagePath, keywords)
  {
    if keywords != [] {
      ContainsIffOccurs(pagePath, keywords[0]);
      RuleMatches(pagePath, keywords[1..]);
    }
  }

  /** A path naming two departments goes to the earlier rule. */
  lemma ClassifyExample()
    ensures Classify("dev-marketing") == Dev
  {
    ContainsInfix("", "dev", "-marketing");
  }

  /** The views a row adds (`parseInt(metricValues[0].value)`) and the bucket it adds them to. */
  function Views(row: Row): Num
    requires WellFormedRow(row)
  {
    ParseInt(row.metricValues[0])
  }

  function BucketOf(row: Row): Bucket
    requires WellFormedRow(row)
  {
    Classify(ToLowerCase(row.dimensionValues[0]))
  }

  /** What one row contributes to the rollup: its bucket and its views. */
  datatype Visit = Visit(bucket: Bucket, views: Num)

  function VisitOf(row: Row): Visit
    requires WellFormedRow(row)
  {
    Visit(BucketOf(row), Views(row))
  }

  /** The visits of the rows, in row order. */
  function Visits(rows: seq<Row>): (vs: seq<Visit>)
    requires AllWellFormed(rows)
    ensures |vs| == |rows|
    ensures forall i :: 0 <= i < |rows| ==> vs[i] == VisitOf(rows[i])
  {
    seq(|rows|, i requires 0 <= i < |rows| => VisitOf(rows[i]))
  }

  /** `categories[b]` once the forEach has made the visits: the sum of the views classified into b. */
  function BucketTotal(vs: seq<Visit>, b: Bucket): Num {
    if vs == [] then Zero
    else
      var last := vs[|vs| - 1];
      var before := BucketTotal(vs[..|vs| - 1], b);
      if last.bucket == b then Add(before, last.views) else before
  }

  /** The `categories` object before the forEach: every bucket at 0. */
  const NoViews: map<Bucket, Num> := map[Dev := Zero, Mkt := Zero, Sales := Zero, HR := Zero, Other := Zero]

  lemma NoViewsCoversAll()
    ensures forall b: Bucket :: b in NoViews
  {
    forall b: Bucket
      ensures b in NoViews
    {
      match b
      case Dev =>
      case Mkt =>
      case Sales =>
      case HR =>
      case Other =>
    }
  }

  /** The `categories` object as the forEach leaves it after the visits, one update per row. */
  function Tally(vs: seq<Visit>): (m: map<Bucket, Num>)
    ensures forall b: Bucket :: b in m
  {
    if vs != [] then
      var last := vs[|vs| - 1];
      var m := Tally(vs[..|vs| - 1]);
      m[last.bucket := Add(m[last.bucket], last.views)]
    else
      NoViewsCoversAll();
      NoViews
  }

  /** Each bucket of the tally holds the sum of the views classified into it. */
  lemma {:induction false} TallyIsBucketTotal(vs: seq<Visit>, b: Bucket)
    ensures Tally(vs)[b] == BucketTotal(vs, b)
  {
    if vs != [] {
      TallyIsBucketTotal(vs[..|vs| - 1], b);
    }
  }

  /** Visiting one more well-formed row adds its views to its bucket. */
  lemma VisitStep(rows: seq<Row>, i: nat)
    requires i < |rows| && AllWellFormed(rows[..i]) && WellFormedRow(rows[i])
    ensures AllWellFormed(rows[..i + 1])
    ensures Visits(rows[..i + 1]) == Visits(rows[..i]) + [VisitOf(rows[i])]
  {
    var prefix := rows[..i + 1];
    assert prefix == rows[..i] + [rows[i]];
    assert AllWellFormed(prefix) by {
      forall j | 0 <= j < |prefix|
        ensures WellFormedRow(prefix[j])
      {
        if j < i {
          assert prefix[j] == rows[..i][j];
        }
      }
    }
    var longer := Visits(prefix);
    var shorter := Visits(rows[..i]) + [VisitOf(rows[i])];
    assert |longer| == |shorter|;
    forall j | 0 <= j < |longer|
      ensures longer[j] == shorter[j]
    {
      if j < i {
        assert prefix[j] == rows[..i][j];
      }
    }
  }

  lemma TallyStep(vs: seq<Visit>, v: Visit)
    ensures Tally(vs + [v]) == Tally(vs)[v.bucket := Add(Tally(vs)[v.bucket], v.views)]
  {
    assert (vs + [v])[..|vs|] == vs;
  }

  /** The `{name, val}` entries of the first k buckets whose total is above 0. */
  function EntriesUpTo(k: nat, vs: seq<Visit>): seq<CategoryViews>
    requires k <= |BucketOrder|
  {
    if k == 0 then []
    else
      var b := BucketOrder[k - 1];
      var total := BucketTotal(vs, b);
      EntriesUpTo(k - 1, vs) + (if Positive(total) then [CategoryViews(Name(b), total)] else [])
  }

  /** What getPageViewsByCategory returns for the outcome of its query. */
  function PageViewsByCategory(o: Outcome): (r: seq<CategoryViews>)
    ensures !HasRows(o) ==> r == []
    ensures HasRows(o) && !AllWellFormed(o.rows.value) ==> r == []
  {
    if !HasRows(o) || !AllWellFormed(o.rows.value) then []
    else EntriesUpTo(|BucketOrder|, Visits(o.rows.value))
  }

  method GetPageViewsByCategory(o: Outcome) returns (entries: seq<CategoryViews>)
    ensures entries == PageViewsByCategory(o)
  {
    if !HasRows(o) {
      return [];
    }
    var rows := o.rows.value;
    var categories := NoViews;
    assert rows[..0] == [];
    var i := 0;
    while i < |rows|
      invariant 0 <= i <= |rows|
      invariant AllWellFormed(rows[..i])
      invariant categories == Tally(Visits(rows[..i]))
    {
      var row := rows[i];
      if |row.dimensionValues| == 0 || |row.metricValues| == 0 {
        // reading a missing value throws, and the catch returns []
        assert !WellFormedRow(rows[i]);
        return [];
      }
      var pagePath := ToLowerCase(row.dimensionValues[0]);
      var views := ParseInt(row.metricValues[0]);
      var category := Classify(pagePath);
      VisitStep(rows, i);
      TallyStep(Visits(rows[..i]), Visit(category, views));
      categories := categories[category := Add(categories[category], views)];
      i := i + 1;
    }
    assert rows[..i] == rows;
    entries := [];
    var k := 0;
    while k < |BucketOrder|
      invariant 0 <= k <= |BucketOrder|
      invariant entries == EntriesUpTo(k, Visits(rows))
    {
      var b := BucketOrder[k];
      TallyIsBucketTotal(Visits(rows), b);
      if Positive(categories[b]) {
        entries := entries + [CategoryViews(Name(b), categories[b])];
      }
      k := k + 1;
    }
  }

  /** A bucket's name leads back to the bucket's position. */
  lemma NameRankOfName(b: Bucket)
    ensures NameRank(Name(b)) == Rank(b)
  {
  }

  /**
   * The entries keep the order of the `categories` object, leave out every bucket
   * whose total is not above 0 (zero, negative or NaN), and report each kept
   * bucket with its full total.
   */
  lemma {:induction false} EntriesUpToShape(k: nat, vs: seq<Visit>)
    requires k <= |BucketOrder|
    ensures |EntriesUpTo(k, vs)| <= k
    ensures forall e :: e in EntriesUpTo(k, vs) ==>
      NameRank(e.name) < k && e == CategoryViews(Name(BucketOrder[NameRank(e.name)]), BucketTotal(vs, BucketOrder[NameRank(e.name)]))
      && Positive(e.val)
    ensures forall j, j' :: 0 <= j < j' < |EntriesUpTo(k, vs)| ==>
      NameRank(EntriesUpTo(k, vs)[j].name) < NameRank(EntriesUpTo(k, vs)[j'].name)
  {
    if k > 0 {
      EntriesUpToShape(k - 1, vs);
      var b := BucketOrder[k - 1];
      NameRankOfName(b);
      var prev := EntriesUpTo(k - 1, vs);
      var total := BucketTotal(vs, b);
      var tail := if Positive(total) then [CategoryViews(Name(b), total)] else [];
      assert EntriesUpTo(k, vs) == prev + tail;
      assert NameRank(Name(b)) == k - 1;
    }
  }

  /** A bucket is reported exactly when its total is above 0. */
  lemma {:induction false} EntriesUpToComplete(k: nat, vs: seq<Visit>, b: Bucket)
    requires Rank(b) < k <= |BucketOrder|
    ensures Positive(BucketTotal(vs, b)) <==> CategoryViews(Name(b), BucketTotal(vs, b)) in EntriesUpTo(k, vs)
  {
    EntriesUpToShape(k - 1, vs);
    NameRankOfName(b);
    NameRankOfName(BucketOrder[k - 1]);
    if Rank(b) < k - 1 {
      EntriesUpToComplete(k - 1, vs, b);
    } else {
      assert CategoryViews(Name(b), BucketTotal(vs, b)) !in EntriesUpTo(k - 1, vs);
    }
  }

  /** What the endpoint reports for well-formed rows: ordered, positive, complete. */
  lemma PageViewsByCategoryShape(rows: seq<Row>)
    requires AllWellFormed(rows)
    ensures var r := PageViewsByCategory(Returned(Some(rows)));
      |r| <= 5
      && (forall e :: e in r ==> Positive(e.val) && NameRank(e.name) < 5)
      && (forall j, j' :: 0 <= j < j' < |r| ==> NameRank(r[j].name) < NameRank(r[j'].name))
      && (forall b :: Positive(BucketTotal(Visits(rows), b)) <==> CategoryViews(Name(b), BucketTotal(Visits(rows), b)) in r)
  {
    EntriesUpToShape(|BucketOrder|, Visits(rows));
    forall b
      ensures Positive(BucketTotal(Visits(rows), b)) <==> CategoryViews(Name(b), BucketTotal(Visits(rows), b)) in PageViewsByCategory(Returned(Some(rows)))
    {
      EntriesUpToComplete(|BucketOrder|, Visits(rows), b);
    }
  }

  /** A visit whose views are NaN poisons its bucket: the bucket's total is NaN. */
  lemma {:induction false} NaNPoisonsBucket(vs: seq<Visit>, i: nat)
    requires i < |vs| && vs[i].views == NaN
    ensures BucketTotal(vs, vs[i].bucket) == NaN
  {
    if i < |vs| - 1 {
      assert vs[..|vs| - 1][i] == vs[i];
      NaNPoisonsBucket(vs[..|vs| - 1], i);
    }
  }

  /** A row whose views do not parse leaves its bucket out of the response altogether. */
  lemma NaNBucketDropped(rows: seq<Row>, i: nat)
    requires AllWellFormed(rows) && i < |rows| && Views(rows[i]) == NaN
    ensures forall e :: e in PageViewsByCategory(Returned(Some(rows))) ==> e.name != Name(BucketOf(rows[i]))
  {
    var vs := Visits(rows);
    NaNPoisonsBucket(vs, i);
    EntriesUpToShape(|BucketOrder|, vs);
    NameRankOfName(BucketOf(rows[i]));
  }

  /** `Σ val` over the entries. */
  function SumVals(entries: seq<CategoryViews>): Num {
    if entries == [] then Zero else Add(SumVals(entries[..|entries| - 1]), entries[|entries| - 1].val)
  }

  /** `Σ views` over all visits, whatever their bucket. */
  function TotalViews(vs: seq<Visit>): Num {
    if vs == [] then Zero else Add(TotalViews(vs[..|vs| - 1]), vs[|vs| - 1].views)
  }

  /** Every visit's views are a number that is not negative. */
  predicate Countable(vs: seq<Visit>) {
    forall i :: 0 <= i < |vs| ==> vs[i].views.Finite? && vs[i].views.r >= 0.0
  }

  lemma {:induction false} BucketTotalCountable(vs: seq<Visit>, b: Bucket)
    requires Countable(vs)
    ensures BucketTotal(vs, b).Finite? && BucketTotal(vs, b).r >= 0.0
  {
    if vs != [] {
      BucketTotalCountable(vs[..|vs| - 1], b);
    }
  }

  /** The totals of the first k buckets, added up. */
  function BucketsUpTo(k: nat, vs: seq<Visit>): Num
    requires k <= |BucketOrder|
  {
    if k == 0 then Zero else Add(BucketsUpTo(k - 1, vs), BucketTotal(vs, BucketOrder[k - 1]))
  }

  /** The five bucket totals, added up in bucket order. */
  function AllBuckets(vs: seq<Visit>): real
    requires Countable(vs)
  {
    BucketTotalCountable(vs, Dev);
    BucketTotalCountable(vs, Mkt);
    BucketTotalCountable(vs, Sales);
    BucketTotalCountable(vs, HR);
    BucketTotalCountable(vs, Other);
    BucketTotal(vs, Dev).r + BucketTotal(vs, Mkt).r + BucketTotal(vs, Sales).r + BucketTotal(vs, HR).r
      + BucketTotal(vs, Other).r
  }

  lemma BucketsUpToFive(vs: seq<Visit>)
    ensures BucketsUpTo(|BucketOrder|, vs) == Add(Add(Add(Add(Add(Zero, BucketTotal(vs, Dev)), BucketTotal(vs, Mkt)),
      BucketTotal(vs, Sales)), BucketTotal(vs, HR)), BucketTotal(vs, Other))
  {
    assert BucketsUpTo(1, vs) == Add(Zero, BucketTotal(vs, Dev));
    assert BucketsUpTo(2, vs) == Add(BucketsUpTo(1, vs), BucketTotal(vs, Mkt));
    assert BucketsUpTo(3, vs) == Add(BucketsUpTo(2, vs), BucketTotal(vs, Sales));
    assert BucketsUpTo(4, vs) == Add(BucketsUpTo(3, vs), BucketTotal(vs, HR));
  }

  lemma BucketsUpToAll(vs: seq<Visit>)
    requires Countable(vs)
    ensures BucketsUpTo(|BucketOrder|, vs) == Finite(AllBuckets(vs))
  {
    BucketsUpToFive(vs);
    BucketTotalCountable(vs, Dev);
    BucketTotalCountable(vs, Mkt);
    BucketTotalCountable(vs, Sales);
    BucketTotalCountable(vs, HR);
    BucketTotalCountable(vs, Other);
    AddFive(BucketTotal(vs, Dev), BucketTotal(vs, Mkt), BucketTotal(vs, Sales), BucketTotal(vs, HR), BucketTotal(vs, Other));
  }

  /** Adding five finite numbers to zero with `+` gives their sum (kept apart so the solver sees it in isolation). */
  lemma AddFive(a: Num, b: Num, c: Num, d: Num, e: Num)
    requires a.Finite? && b.Finite? && c.Finite? && d.Finite? && e.Finite?
    ensures Add(Add(Add(Add(Add(Zero, a), b), c), d), e) == Finite(a.r + b.r + c.r + d.r + e.r)
  {
  }

  /** Every visit lands in exactly one bucket, so the buckets add up to all the views. */
  lemma {:induction false} BucketsAddUp(vs: seq<Visit>)
    requires Countable(vs)
    ensures Finite(AllBuckets(vs)) == TotalViews(vs)
  {
    if vs != [] {
      var prefix := vs[..|vs| - 1];
      var last := vs[|vs| - 1];
      assert Countable(prefix);
      BucketsAddUp(prefix);
      assert last.views.Finite?;
      BucketTotalCountable(prefix, last.bucket);
      assert AllBuckets(vs) == AllBuckets(prefix) + last.views.r by {
        BucketTotalCountable(prefix, Dev);
        BucketTotalCountable(prefix, Mkt);
        BucketTotalCountable(prefix, Sales);
        BucketTotalCountable(prefix, HR);
        BucketTotalCountable(prefix, Other);
        match last.bucket
        case Dev =>
        case Mkt =>
        case Sales =>
        case HR =>
        case Other =>
      }
    }
  }

  /** Dropping the buckets whose total is 0 does not change the sum. */
  lemma {:induction false} EntriesAddUp(k: nat, vs: seq<Visit>)
    requires k <= |BucketOrder| && Countable(vs)
    ensures SumVals(EntriesUpTo(k, vs)) == BucketsUpTo(k, vs)
  {
    if k > 0 {
      EntriesAddUp(k - 1, vs);
      var b := BucketOrder[k - 1];
      BucketTotalCountable(vs, b);
      var prefix := EntriesUpTo(k - 1, vs);
      if Positive(BucketTotal(vs, b)) {
        var e := CategoryViews(Name(b), BucketTotal(vs, b));
        assert (prefix + [e])[..|prefix|] == prefix;
      } else {
        assert prefix + [] == prefix;
      }
    }
  }

  /**
   * Conservation: when every row's views are a number that is not negative, the
   * reported categories add up to all the page views of the response.
   */
  lemma Conservation(rows: seq<Row>)
    requires AllWellFormed(rows) && Countable(Visits(rows))
    ensures SumVals(PageViewsByCategory(Returned(Some(rows)))) == TotalViews(Visits(rows))
  {
    EntriesAddUp(|BucketOrder|, Visits(rows));
    BucketsUpToAll(Visits(rows));
    BucketsAddUp(Visits(rows));
  }
}
