/**
 * The list logic of the trending-picks page: how mention counts and
 * freshness are shown, which niches are offered, which products pass the
 * filters and in which order, the favourites view, the grouping by niche
 * and the toggles of the page's selection state. Dates are millisecond
 * timestamps; a date that is missing or empty is None.
 */
module TrendingPicks {
  import opened Wrappers
  import opened Text
  import opened Collections

  datatype Product = Product(
    id: int,
    title: string,
    niche: string,
    mentions: int,
    source: string,
    dataSource: Option<string>,
    createdAt: Option<int>,
    fetchedAt: Option<int>)

  datatype Favorite = Favorite(id: int, userId: int, productId: int, pinnedAt: string)

  // ---------------------------------------------------------------------
  // Mention counts and freshness.
  // ---------------------------------------------------------------------

  const Million := 1000000
  const Thousand := 1000
  /** 24 hours, in milliseconds. */
  const DayMs := 24 * 60 * 60 * 1000

  /** A count of tenths written with one decimal: 12 is "1.2". */
  function Tenths(n: nat): string {
    NatToString(n / 10) + "." + [DigitChar(n % 10)]
  }

  /** `n` is `m / unit` rounded to the nearest integer, halves upwards. */
  predicate RoundsTo(m: int, unit: nat, n: int)
    requires unit > 0
  {
    n * unit - unit / 2 <= m < n * unit + (unit - unit / 2)
  }

  /**
   * `formatMentions`: millions with one decimal and an "M", thousands with
   * no decimals and a "K", the plain number below that.
   */
  function FormatMentions(mentions: int): (r: string)
    ensures r != ""
    ensures mentions >= Million ==> r[|r| - 1] == 'M'
    ensures Thousand <= mentions < Million ==> r[|r| - 1] == 'K'
  {
    if mentions >= Million then Tenths((mentions + Million / 20) / (Million / 10)) + "M"
    else if mentions >= Thousand then NatToString((mentions + Thousand / 2) / Thousand) + "K"
    else IntToString(mentions)
  }

  /** From a million up, the count in tenths of a million, rounded to the nearest, and an "M". */
  lemma FormatMentionsMillions(mentions: int)
    requires mentions >= Million
    ensures exists n: nat :: FormatMentions(mentions) == Tenths(n) + "M" && RoundsTo(mentions, 100000, n)
  {
    var n := (mentions + 50000) / 100000;
    assert RoundsTo(mentions, 100000, n);
  }

  /** From a thousand up to a million, the count in thousands, rounded to the nearest, and a "K". */
  lemma FormatMentionsThousands(mentions: int)
    requires Thousand <= mentions < Million
    ensures exists n: nat :: FormatMentions(mentions) == NatToString(n) + "K" && RoundsTo(mentions, 1000, n)
  {
    var n := (mentions + 500) / 1000;
    assert RoundsTo(mentions, 1000, n);
  }

  /** Below a thousand, the plain number, which ends in a digit. */
  lemma FormatMentionsPlain(mentions: int)
    requires mentions < Thousand
    ensures var r := FormatMentions(mentions); r == IntToString(mentions) && '0' <= r[|r| - 1] <= '9'
  {
    if mentions >= 0 {
      var s := NatToString(mentions);
      assert '0' <= s[|s| - 1] <= '9';
    } else {
      var s := NatToString(-mentions);
      assert ("-" + s)[|s|] == s[|s| - 1];
    }
  }

  /** The suffix says which tier a count is in. */
  lemma FormatMentionsSuffix(mentions: int)
    ensures var r := FormatMentions(mentions);
      && (mentions >= Million <==> r[|r| - 1] == 'M')
      && (Thousand <= mentions < Million <==> r[|r| - 1] == 'K')
  {
    if mentions >= Million {
      FormatMentionsMillions(mentions);
    } else if mentions >= Thousand {
      FormatMentionsThousands(mentions);
    } else {
      FormatMentionsPlain(mentions);
    }
  }

  /** `isWithin24Hours`: a missing date is never fresh; otherwise less than a day old, or in the future. */
  predicate IsWithin24Hours(date: Option<int>, now: int)
    ensures IsWithin24Hours(date, now) ==> date.Some?
    ensures date.Some? && now <= date.value ==> IsWithin24Hours(date, now)
  {
    date.Some? && now - date.value < DayMs
  }

  /** What the product card asks about: `fetchedAt || createdAt`. */
  function FreshnessDate(p: Product): Option<int> {
    if p.fetchedAt.Some? then p.fetchedAt else p.createdAt
  }

  /** Freshness is lost exactly one day after the date, and never regained. */
  lemma FreshnessWindow(date: int, now: int, later: int)
    requires now <= later
    ensures IsWithin24Hours(Some(date), now) <==> now < date + DayMs
    ensures IsWithin24Hours(Some(date), later) ==> IsWithin24Hours(Some(date), now)
    ensures !IsWithin24Hours(None, now)
  {
  }

  // ---------------------------------------------------------------------
  // The niche filter's options.
  // ---------------------------------------------------------------------

  function Niches(products: seq<Product>): (r: seq<string>)
    ensures |r| == |products| && forall i :: 0 <= i < |r| ==> r[i] == products[i].niche
  {
    if products == [] then [] else [products[0].niche] + Niches(products[1..])
  }

  predicate StrictlySorted(s: seq<string>) {
    forall i, j :: 0 <= i < j < |s| ==> LexLess(s[i], s[j])
  }

  /** One step of the default sort: `x` placed before the first element not below it. */
  function InsertString(x: string, s: seq<string>): (r: seq<string>)
    ensures multiset(r) == multiset(s) + multiset{x}
  {
    if s == [] then [x]
    else if LexLess(s[0], x) then
      assert s == [s[0]] + s[1..];
      [s[0]] + InsertString(x, s[1..])
    else [x] + s
  }

  /** `Array.prototype.sort` with its default comparison, by insertion. */
  function SortStrings(xs: seq<string>): (r: seq<string>)
    ensures multiset(r) == multiset(xs)
  {
    if xs == [] then []
    else
      assert xs == [xs[0]] + xs[1..];
      InsertString(xs[0], SortStrings(xs[1..]))
  }

  lemma {:induction false} InsertStringSorted(x: string, s: seq<string>)
    requires StrictlySorted(s) && x !in s
    ensures StrictlySorted(InsertString(x, s))
  {
    if s != [] {
      var r := InsertString(x, s);
      if LexLess(s[0], x) {
        assert StrictlySorted(s[1..]) by {
          forall i, j | 0 <= i < j < |s| - 1
            ensures LexLess(s[1..][i], s[1..][j])
          {
            assert s[1..][i] == s[i + 1] && s[1..][j] == s[j + 1];
          }
        }
        InsertStringSorted(x, s[1..]);
        var t := InsertString(x, s[1..]);
        forall k | 0 <= k < |t|
          ensures LexLess(s[0], t[k])
        {
          assert t[k] in multiset(t);
          if t[k] != x {
            assert t[k] in s[1..];
            var m :| 0 <= m < |s[1..]| && s[1..][m] == t[k];
            assert s[m + 1] == t[k];
          }
        }
      } else {
        LexLessTotal(x, s[0]);
        forall k | 0 <= k < |s|
          ensures LexLess(x, s[k])
        {
          if k > 0 {
            LexLessTransitive(x, s[0], s[k]);
          }
        }
        forall i, j | 0 <= i < j < |r|
          ensures LexLess(r[i], r[j])
        {
          if i > 0 {
            assert r[i] == s[i - 1] && r[j] == s[j - 1];
          } else {
            assert r[j] == s[j - 1];
          }
        }
      }
    }
  }

  lemma {:induction false} SortStringsSorted(xs: seq<string>)
    requires Distinct(xs)
    ensures StrictlySorted(SortStrings(xs))
  {
    if xs != [] {
      DistinctTail(xs);
      SortStringsSorted(xs[1..]);
      assert multiset(SortStrings(xs[1..])) == multiset(xs[1..]);
      assert xs[0] !in multiset(SortStrings(xs[1..]));
      InsertStringSorted(xs[0], SortStrings(xs[1..]));
    }
  }

  /** `availableNiches`: `[...new Set(products.map(p => p.niche))].sort()`. */
  function AvailableNiches(products: seq<Product>): seq<string> {
    SortStrings(AppendNew([], Niches(products)))
  }

  /** The niche options are strictly ascending, so free of duplicates, and are exactly the niches present. */
  lemma AvailableNichesProperties(products: seq<Product>)
    ensures StrictlySorted(AvailableNiches(products))
    ensures forall n :: n in AvailableNiches(products) <==> exists i :: 0 <= i < |products| && products[i].niche == n
  {
    var ns := Niches(products);
    var unique := AppendNew([], ns);
    assert StrictlySorted(AvailableNiches(products)) by {
      AppendNewDistinct([], ns);
      SortStringsSorted(unique);
    }
    assert forall n :: n in AvailableNiches(products) <==> n in ns by {
      AppendNewMembers([], ns);
      forall n
        ensures n in AvailableNiches(products) <==> n in unique
      {
        assert n in AvailableNiches(products) <==> n in multiset(AvailableNiches(products));
      }
    }
    NichesMembers(products);
  }

  /** A niche is listed exactly when some product has it. */
  lemma NichesMembers(products: seq<Product>)
    ensures forall n :: n in Niches(products) <==> exists i :: 0 <= i < |products| && products[i].niche == n
  {
    var ns := Niches(products);
    forall n
      ensures n in ns <==> exists i :: 0 <= i < |products| && products[i].niche == n
    {
      if n in ns {
        var i :| 0 <= i < |ns| && ns[i] == n;
        assert products[i].niche == n;
      }
    }
  }

  // ---------------------------------------------------------------------
  // The filters and the sort.
  // ---------------------------------------------------------------------

  datatype SourceFilter = AllSources | Gpt | Perplexity
  datatype SortOption = Newest | Mentions | DatePulled

  /** The filter controls of the page. */
  datatype View = View(
    dateRange: int,
    sourceFilter: SourceFilter,
    selectedNiches: seq<string>,
    minMentions: int,
    maxMentions: int,
    sortBy: SortOption)

  function SourceName(f: SourceFilter): string {
    match f
    case AllSources => "all"
    case Gpt => "gpt"
    case Perplexity => "perplexity"
  }

  /** When the product was pulled: `fetchedAt || createdAt || 0`. */
  function FetchTime(p: Product): int {
    if p.fetchedAt.Some? then p.fetchedAt.value else p.createdAt.GetOr(0)
  }

  /** Where the product came from: `dataSource || source || 'gpt'`. */
  function SourceOf(p: Product): string {
    if p.dataSource.Some? && p.dataSource.value != "" then p.dataSource.value
    else if p.source != "" then p.source
    else "gpt"
  }

  /** `dateRange` days before now. */
  function Cutoff(view: View, now: int): int {
    now - view.dateRange * DayMs
  }

  predicate FreshEnough(p: Product, cutoff: int) {
    FetchTime(p) >= cutoff
  }

  predicate FromSource(p: Product, f: SourceFilter) {
    Contains(Lower(SourceOf(p)), SourceName(f))
  }

  predicate InNiches(p: Product, niches: seq<string>) {
    p.niche in niches
  }

  predicate MentionsBetween(p: Product, lo: int, hi: int) {
    lo <= p.mentions <= hi
  }

  function DateStage(cutoff: int): Product -> bool {
    p => FreshEnough(p, cutoff)
  }

  function SourceStage(f: SourceFilter): Product -> bool {
    p => FromSource(p, f)
  }

  function NicheStage(niches: seq<string>): Product -> bool {
    p => InNiches(p, niches)
  }

  function MentionsStage(lo: int, hi: int): Product -> bool {
    p => MentionsBetween(p, lo, hi)
  }

  /** A filter stage applied only when its control is set. */
  function WhenActive(active: bool, ps: seq<Product>, keep: Product -> bool): seq<Product> {
    if active then Filter(ps, keep) else ps
  }

  /** The filter stages of `filteredProducts`, in their order. */
  function Narrowed(products: seq<Product>, view: View, now: int): seq<Product> {
    var byDate := WhenActive(view.dateRange < 365, products, DateStage(Cutoff(view, now)));
    var bySource := WhenActive(view.sourceFilter != AllSources, byDate, SourceStage(view.sourceFilter));
    var byNiche := WhenActive(|view.selectedNiches| > 0, bySource, NicheStage(view.selectedNiches));
    Filter(byNiche, MentionsStage(view.minMentions, view.maxMentions))
  }

  /** The same filters stated as one condition on a product. */
  predicate Matches(p: Product, view: View, now: int) {
    && (view.dateRange < 365 ==> FreshEnough(p, Cutoff(view, now)))
    && (view.sourceFilter != AllSources ==> FromSource(p, view.sourceFilter))
    && (|view.selectedNiches| > 0 ==> InNiches(p, view.selectedNiches))
    && MentionsBetween(p, view.minMentions, view.maxMentions)
  }

  function MatchesView(view: View, now: int): Product -> bool {
    p => Matches(p, view, now)
  }

  /** A stage that may be switched off is a filter by "off, or passing". */
  lemma WhenActiveIsFilter(active: bool, ps: seq<Product>, keep: Product -> bool, guarded: Product -> bool)
    requires forall p :: guarded(p) == (active ==> keep(p))
    ensures WhenActive(active, ps, keep) == Filter(ps, guarded)
  {
    if !active {
      FilterAll(ps, guarded);
    }
  }

  /** Applying the stages one after another is filtering once by their conjunction, order kept. */
  lemma NarrowedIsOneFilter(products: seq<Product>, view: View, now: int)
    ensures Narrowed(products, view, now) == Filter(products, MatchesView(view, now))
  {
    var dateOk: Product -> bool := p => view.dateRange < 365 ==> FreshEnough(p, Cutoff(view, now));
    var sourceOk: Product -> bool := p => view.sourceFilter != AllSources ==> FromSource(p, view.sourceFilter);
    var nicheOk: Product -> bool := p => |view.selectedNiches| > 0 ==> InNiches(p, view.selectedNiches);
    var upToSource: Product -> bool := p => dateOk(p) && sourceOk(p);
    var upToNiche: Product -> bool := p => upToSource(p) && nicheOk(p);

    var byDate := WhenActive(view.dateRange < 365, products, DateStage(Cutoff(view, now)));
    assert byDate == Filter(products, dateOk) by {
      WhenActiveIsFilter(view.dateRange < 365, products, DateStage(Cutoff(view, now)), dateOk);
    }
    var bySource := WhenActive(view.sourceFilter != AllSources, byDate, SourceStage(view.sourceFilter));
    assert bySource == Filter(products, upToSource) by {
      WhenActiveIsFilter(view.sourceFilter != AllSources, byDate, SourceStage(view.sourceFilter), sourceOk);
      FilterFilter(products, dateOk, sourceOk, upToSource);
    }
    var byNiche := WhenActive(|view.selectedNiches| > 0, bySource, NicheStage(view.selectedNiches));
    assert byNiche == Filter(products, upToNiche) by {
      WhenActiveIsFilter(|view.selectedNiches| > 0, bySource, NicheStage(view.selectedNiches), nicheOk);
      FilterFilter(products, upToSource, nicheOk, upToNiche);
    }
    FilterFilter(products, upToNiche, MentionsStage(view.minMentions, view.maxMentions), MatchesView(view, now));
  }

  /** The comparator's key: `mentions || 0`, the pull date, or `createdAt || 0`. */
  function SortKey(p: Product, order: SortOption): int {
    match order
    case Mentions => p.mentions
    case DatePulled => FetchTime(p)
    case Newest => p.createdAt.GetOr(0)
  }

  predicate NonIncreasing(s: seq<Product>, order: SortOption) {
    forall i, j :: 0 <= i < j < |s| ==> SortKey(s[i], order) >= SortKey(s[j], order)
  }

  /** `x` placed after every element whose key is not below its own. */
  function InsertByKey(x: Product, s: seq<Product>, order: SortOption): (r: seq<Product>)
    ensures multiset(r) == multiset(s) + multiset{x}
  {
    if s == [] then [x]
    else if SortKey(s[0], order) >= SortKey(x, order) then
      assert s == [s[0]] + s[1..];
      [s[0]] + InsertByKey(x, s[1..], order)
    else [x] + s
  }

  /** The stable sort by descending key that the comparator `b - a` asks for, by insertion. */
  function SortByKey(xs: seq<Product>, order: SortOption): (r: seq<Product>)
    ensures multiset(r) == multiset(xs)
  {
    if xs == [] then []
    else
      assert xs == xs[..|xs| - 1] + [xs[|xs| - 1]];
      InsertByKey(xs[|xs| - 1], SortByKey(xs[..|xs| - 1], order), order)
  }

  lemma {:induction false} InsertByKeySorted(x: Product, s: seq<Product>, order: SortOption)
    requires NonIncreasing(s, order)
    ensures NonIncreasing(InsertByKey(x, s, order), order)
  {
    if s != [] && SortKey(s[0], order) >= SortKey(x, order) {
      var t := InsertByKey(x, s[1..], order);
      InsertByKeySorted(x, s[1..], order);
      forall k | 0 <= k < |t|
        ensures SortKey(s[0], order) >= SortKey(t[k], order)
      {
        assert t[k] in multiset(t);
        if t[k] != x {
          assert t[k] in s[1..];
          var m :| 0 <= m < |s[1..]| && s[1..][m] == t[k];
          assert s[m + 1] == t[k];
        }
      }
    }
  }

  lemma {:induction false} SortByKeySorted(xs: seq<Product>, order: SortOption)
    ensures NonIncreasing(SortByKey(xs, order), order)
  {
    if xs != [] {
      SortByKeySorted(xs[..|xs| - 1], order);
      InsertByKeySorted(xs[|xs| - 1], SortByKey(xs[..|xs| - 1], order), order);
    }
  }

  function KeyIs(order: SortOption, k: int): Product -> bool {
    p => SortKey(p, order) == k
  }

  /** The elements with key exactly `k`, in order. */
  function WithKey(s: seq<Product>, order: SortOption, k: int): seq<Product> {
    Filter(s, KeyIs(order, k))
  }

  lemma {:induction false} InsertByKeyWithKey(x: Product, s: seq<Product>, order: SortOption, k: int)
    requires NonIncreasing(s, order)
    ensures WithKey(InsertByKey(x, s, order), order, k)
         == WithKey(s, order, k) + (if SortKey(x, order) == k then [x] else [])
  {
    if s == [] {
      ConsWithKey(x, [], order, k);
      assert [x] + [] == [x];
    } else if SortKey(s[0], order) >= SortKey(x, order) {
      NonIncreasingTail(s, order);
      InsertByKeyWithKey(x, s[1..], order, k);
      InsertBehindWithKey(x, s, order, k);
    } else {
      PrependWithKey(x, s, order, k);
    }
  }

  /** An element whose key is not above the head's is inserted behind it. */
  lemma InsertByKeyBehind(x: Product, s: seq<Product>, order: SortOption)
    requires s != [] && SortKey(s[0], order) >= SortKey(x, order)
    ensures InsertByKey(x, s, order) == [s[0]] + InsertByKey(x, s[1..], order)
  {
  }

  /** Inserting `x` behind the head: the head's equal-key part comes first, then the rest's. */
  lemma {:induction false} InsertBehindWithKey(x: Product, s: seq<Product>, order: SortOption, k: int)
    requires s != [] && SortKey(s[0], order) >= SortKey(x, order)
    requires WithKey(InsertByKey(x, s[1..], order), order, k)
          == WithKey(s[1..], order, k) + (if SortKey(x, order) == k then [x] else [])
    ensures WithKey(InsertByKey(x, s, order), order, k)
         == WithKey(s, order, k) + (if SortKey(x, order) == k then [x] else [])
  {
    var rest := InsertByKey(x, s[1..], order);
    var head := if SortKey(s[0], order) == k then [s[0]] else [];
    var tail := if SortKey(x, order) == k then [x] else [];
    var mid := WithKey(s[1..], order, k);
    assert WithKey(InsertByKey(x, s, order), order, k) == head + WithKey(rest, order, k) by {
      InsertByKeyBehind(x, s, order);
      ConsWithKey(s[0], rest, order, k);
    }
    assert WithKey(s, order, k) == head + mid by {
      assert s == [s[0]] + s[1..];
      ConsWithKey(s[0], s[1..], order, k);
    }
    assert head + (mid + tail) == (head + mid) + tail;
  }

  lemma NonIncreasingTail(s: seq<Product>, order: SortOption)
    requires s != [] && NonIncreasing(s, order)
    ensures NonIncreasing(s[1..], order)
  {
    forall i, j | 0 <= i < j < |s| - 1
      ensures SortKey(s[1..][i], order) >= SortKey(s[1..][j], order)
    {
      assert s[1..][i] == s[i + 1] && s[1..][j] == s[j + 1];
    }
  }

  /** The equal-key elements of `[h] + t`: `h` when its key is `k`, then those of `t`. */
  lemma ConsWithKey(h: Product, t: seq<Product>, order: SortOption, k: int)
    ensures WithKey([h] + t, order, k) == (if SortKey(h, order) == k then [h] else []) + WithKey(t, order, k)
  {
    var keep := KeyIs(order, k);
    FilterAppend([h], t, keep);
    assert Filter([h], keep) == (if SortKey(h, order) == k then [h] else []) + Filter([h][1..], keep);
  }

  /** Placing `x` in front of a list whose keys are all below its own keeps the equal-key order. */
  lemma PrependWithKey(x: Product, s: seq<Product>, order: SortOption, k: int)
    requires s != [] && NonIncreasing(s, order) && SortKey(s[0], order) < SortKey(x, order)
    ensures WithKey([x] + s, order, k) == WithKey(s, order, k) + (if SortKey(x, order) == k then [x] else [])
  {
    ConsWithKey(x, s, order, k);
    if SortKey(x, order) == k {
      KeyAboveAll(s, order, k);
    }
  }

  /** No element of a non-increasing list whose head is below `k` has key `k`. */
  lemma KeyAboveAll(s: seq<Product>, order: SortOption, k: int)
    requires s != [] && NonIncreasing(s, order) && SortKey(s[0], order) < k
    ensures WithKey(s, order, k) == []
  {
    forall p | p in s
      ensures !KeyIs(order, k)(p)
    {
      var i :| 0 <= i < |s| && s[i] == p;
      if i > 0 {
        assert SortKey(s[0], order) >= SortKey(s[i], order);
      }
    }
    FilterNone(s, KeyIs(order, k));
  }

  /** The sort is stable: among products with equal keys the original order is kept. */
  lemma {:induction false} SortByKeyStable(xs: seq<Product>, order: SortOption, k: int)
    ensures WithKey(SortByKey(xs, order), order, k) == WithKey(xs, order, k)
  {
    if xs != [] {
      var init := xs[..|xs| - 1];
      SortByKeyStable(init, order, k);
      assert xs == init + [xs[|xs| - 1]];
      InsertKeepsKeyOrder(xs[|xs| - 1], init, order, k);
    }
  }

  /** One step of the stable sort: inserting the last element keeps the equal-key order of `init + [x]`. */
  lemma InsertKeepsKeyOrder(x: Product, init: seq<Product>, order: SortOption, k: int)
    requires WithKey(SortByKey(init, order), order, k) == WithKey(init, order, k)
    ensures WithKey(InsertByKey(x, SortByKey(init, order), order), order, k) == WithKey(init + [x], order, k)
  {
    var tail := if SortKey(x, order) == k then [x] else [];
    SortByKeySorted(init, order);
    InsertByKeyWithKey(x, SortByKey(init, order), order, k);
    FilterAppend(init, [x], KeyIs(order, k));
    assert Filter([x], KeyIs(order, k)) == tail + Filter([x][1..], KeyIs(order, k));
  }

  /** `filteredProducts`: the products passing the filters, sorted by the chosen key. */
  function FilteredProducts(products: seq<Product>, view: View, now: int): (r: seq<Product>)
    ensures multiset(r) == multiset(Filter(products, MatchesView(view, now)))
  {
    NarrowedIsOneFilter(products, view, now);
    SortByKey(Narrowed(products, view, now), view.sortBy)
  }

  /**
   * A product is shown exactly when it passes every active filter, each as
   * often as it occurs, in non-increasing order of the key, equal keys in
   * their original order.
   */
  lemma FilteredProductsProperties(products: seq<Product>, view: View, now: int, k: int)
    ensures var r := FilteredProducts(products, view, now);
      && (forall p :: p in r <==> p in products && Matches(p, view, now))
      && multiset(r) == multiset(Filter(products, MatchesView(view, now)))
      && NonIncreasing(r, view.sortBy)
      && WithKey(r, view.sortBy, k) == WithKey(Filter(products, MatchesView(view, now)), view.sortBy, k)
  {
    var narrowed := Narrowed(products, view, now);
    var r := SortByKey(narrowed, view.sortBy);
    NarrowedIsOneFilter(products, view, now);
    SortByKeyStable(narrowed, view.sortBy, k);
    SortByKeySorted(narrowed, view.sortBy);
    assert forall p :: p in r <==> p in narrowed by {
      forall p
        ensures p in r <==> p in narrowed
      {
        assert p in r <==> p in multiset(r);
        assert p in narrowed <==> p in multiset(narrowed);
      }
    }
    FilterMembers(products, MatchesView(view, now));
  }

  // ---------------------------------------------------------------------
  // Favourites.
  // ---------------------------------------------------------------------

  /** `new Set(favorites.map(f => f.productId))`. */
  function FavoriteIds(favorites: seq<Favorite>): set<int> {
    set i | 0 <= i < |favorites| :: favorites[i].productId
  }

  /** `isFavorited`: `favorites.some(f => f.productId === productId)`. */
  predicate IsFavorited(productId: int, favorites: seq<Favorite>) {
    exists i :: 0 <= i < |favorites| && favorites[i].productId == productId
  }

  /** `favoriteProducts`: the products whose id is in the id set, in product order. */
  function FavoriteProducts(products: seq<Product>, favorites: seq<Favorite>): (r: seq<Product>)
    ensures |r| <= |products|
  {
    var ids := FavoriteIds(favorites);
    Filter(products, (p: Product) => p.id in ids)
  }

  /** The favourites tab and the card's heart agree: a product is listed exactly when it is marked. */
  lemma FavoritesAgree(products: seq<Product>, favorites: seq<Favorite>)
    ensures forall p :: p in FavoriteProducts(products, favorites) <==> p in products && IsFavorited(p.id, favorites)
  {
    var ids := FavoriteIds(favorites);
    FilterMembers(products, (p: Product) => p.id in ids);
    forall id
      ensures id in FavoriteIds(favorites) <==> IsFavorited(id, favorites)
    {
      if IsFavorited(id, favorites) {
        var i :| 0 <= i < |favorites| && favorites[i].productId == id;
        assert favorites[i].productId in FavoriteIds(favorites);
      }
    }
  }

  // ---------------------------------------------------------------------
  // Grouping by niche.
  // ---------------------------------------------------------------------

  datatype Tab = AllTab | FavoritesTab

  /** The list the page groups: the favourites tab shows favourites, the other the filtered list. */
  function DisplayProducts(tab: Tab, favorites: seq<Product>, filtered: seq<Product>): seq<Product> {
    if tab == FavoritesTab then favorites else filtered
  }

  /** The products of one niche, in display order. */
  function OfNiche(display: seq<Product>, niche: string): (r: seq<Product>)
    ensures forall k :: 0 <= k < |r| ==> r[k].niche == niche
    decreases |display|
  {
    if display == [] then []
    else
      var before := OfNiche(display[..|display| - 1], niche);
      var p := display[|display| - 1];
      if p.niche == niche then before + [p] else before
  }

  /** `productsByNiche`: the `reduce` that pushes each product onto its niche's list. */
  method GroupByNiche(display: seq<Product>) returns (groups: map<string, seq<Product>>)
    ensures forall n :: n in groups <==> OfNiche(display, n) != []
    ensures forall n :: n in groups ==> groups[n] == OfNiche(display, n)
  {
    groups := map[];
    for i := 0 to |display|
      invariant forall n :: n in groups <==> OfNiche(display[..i], n) != []
      invariant forall n :: n in groups ==> groups[n] == OfNiche(display[..i], n)
    {
      var p := display[i];
      assert display[..i + 1][..i] == display[..i];
      if p.niche !in groups {
        groups := groups[p.niche := []];
      }
      groups := groups[p.niche := groups[p.niche] + [p]];
    }
    assert display[..|display|] == display;
  }

  /** The sizes of the groups named in `niches`. */
  function GroupSizes(display: seq<Product>, niches: seq<string>): nat {
    if niches == [] then 0 else |OfNiche(display, niches[0])| + GroupSizes(display, niches[1..])
  }

  lemma {:induction false} GroupSizesStep(display: seq<Product>, p: Product, niches: seq<string>)
    requires Distinct(niches)
    ensures GroupSizes(display + [p], niches) == GroupSizes(display, niches) + (if p.niche in niches then 1 else 0)
  {
    if niches != [] {
      DistinctTail(niches);
      assert (display + [p])[..|display|] == display;
      GroupSizesStep(display, p, niches[1..]);
    }
  }

  /** Over distinct niches covering the list, the group sizes add up to the list's length. */
  lemma {:induction false} GroupSizesSum(display: seq<Product>, niches: seq<string>)
    requires Distinct(niches)
    requires forall k :: 0 <= k < |display| ==> display[k].niche in niches
    ensures GroupSizes(display, niches) == |display|
    decreases |display|
  {
    if display == [] {
      GroupSizesEmpty(niches);
    } else {
      var init := display[..|display| - 1];
      var p := display[|display| - 1];
      GroupSizesSum(init, niches);
      GroupSizesStep(init, p, niches);
      assert init + [p] == display;
    }
  }

  lemma {:induction false} GroupSizesEmpty(niches: seq<string>)
    ensures GroupSizes([], niches) == 0
  {
    if niches != [] {
      GroupSizesEmpty(niches[1..]);
    }
  }

  /** The groups shown partition the displayed list: every product is in exactly one group. */
  lemma GroupsPartitionDisplay(display: seq<Product>)
    ensures GroupSizes(display, AppendNew([], Niches(display))) == |display|
  {
    AppendNewDistinct([], Niches(display));
    AppendNewMembers([], Niches(display));
    GroupSizesSum(display, AppendNew([], Niches(display)));
  }

  // ---------------------------------------------------------------------
  // Selection state toggles.
  // ---------------------------------------------------------------------

  /** `toggleProductDetails` and `toggleNicheCollapse`: flip the membership of one element. */
  function Toggle<T(!new)>(s: set<T>, x: T): (r: set<T>)
    ensures x in r <==> x !in s
    ensures forall y :: y != x ==> (y in r <==> y in s)
  {
    if x in s then s - {x} else s + {x}
  }

  /** Toggling the same element twice restores the set. */
  lemma ToggleTwice<T(!new)>(s: set<T>, x: T)
    ensures Toggle(Toggle(s, x), x) == s
  {
  }

  /** `handleNicheToggle`: remove the niche where present, else append it. */
  function ToggleNiche(selected: seq<string>, niche: string): (r: seq<string>)
    ensures niche in r <==> niche !in selected
    ensures forall n :: n != niche ==> (n in r <==> n in selected)
  {
    if niche in selected then Without(selected, niche) else selected + [niche]
  }

  /**
   * Selecting a niche and deselecting it restores the list; deselecting and
   * reselecting moves the niche to the end.
   */
  lemma ToggleNicheTwice(selected: seq<string>, niche: string)
    ensures niche !in selected ==> ToggleNiche(ToggleNiche(selected, niche), niche) == selected
    ensures niche in selected ==> ToggleNiche(ToggleNiche(selected, niche), niche) == Without(selected, niche) + [niche]
  {
    if niche !in selected {
      assert (selected + [niche]) == selected + [niche];
      WithoutAppend(selected, niche);
    }
  }

  lemma {:induction false} WithoutAppend(s: seq<string>, x: string)
    requires x !in s
    ensures Without(s + [x], x) == s
  {
    if s == [] {
      assert [x][1..] == [];
    } else {
      assert (s + [x])[1..] == s[1..] + [x];
      WithoutAppend(s[1..], x);
      assert s == [s[0]] + s[1..];
    }
  }
}
