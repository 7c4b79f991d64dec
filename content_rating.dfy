/**
 * The rating panel of a generated piece of content: five scores and a
 * note held in component state, the badge a score earns, the rounded mean
 * shown in the collapsed view, the record loaded from the server and the
 * payload posted on save.
 *
 * A JavaScript number is an integer or NaN here (the inputs are integer
 * fields read with `parseInt`); `undefined` is None.
 */
module ContentRating {
  import opened Wrappers
  import opened Collections

  datatype Num = Int(value: int) | NaN

  /** A number is falsy when it is 0 or NaN. */
  predicate Falsy(n: Num) {
    n == Int(0) || n.NaN?
  }

  /** `a + b` on numbers: NaN absorbs. */
  function Add(a: Num, b: Num): Num {
    if a.NaN? || b.NaN? then NaN else Int(a.value + b.value)
  }

  datatype Field = Overall | Instagram | TikTok | YouTube | Twitter

  /** The component's `ratings` state. */
  datatype Rating = Rating(
    contentHistoryId: Num,
    userId: Option<int>,
    overall: Option<Num>,
    instagram: Option<Num>,
    tiktok: Option<Num>,
    youtube: Option<Num>,
    twitter: Option<Num>,
    notes: Option<string>)

  function Score(r: Rating, f: Field): Option<Num> {
    match f
    case Overall => r.overall
    case Instagram => r.instagram
    case TikTok => r.tiktok
    case YouTube => r.youtube
    case Twitter => r.twitter
  }

  /** `{ ...r, [f]: v }` for a score field. */
  function WithScore(r: Rating, f: Field, v: Option<Num>): (r': Rating)
    ensures Score(r', f) == v
    ensures forall g :: g != f ==> Score(r', g) == Score(r, g)
    ensures r'.contentHistoryId == r.contentHistoryId && r'.userId == r.userId && r'.notes == r.notes
  {
    match f
    case Overall => r.(overall := v)
    case Instagram => r.(instagram := v)
    case TikTok => r.(tiktok := v)
    case YouTube => r.(youtube := v)
    case Twitter => r.(twitter := v)
  }

  /** The five scores, in the order the average lists them. */
  function Scores(r: Rating): seq<Option<Num>> {
    [r.overall, r.instagram, r.tiktok, r.youtube, r.twitter]
  }

  /** The state the panel starts in. */
  function InitialRating(contentHistoryId: Num, userId: Option<int>): Rating {
    Rating(contentHistoryId, userId, None, None, None, None, None, Some(""))
  }

  // ---------------------------------------------------------------------
  // Badge.
  // ---------------------------------------------------------------------

  datatype Badge = Excellent | Great | Good | Fair | NeedsWork {
    function Label(): string {
      match this
      case Excellent => "Excellent"
      case Great => "Great"
      case Good => "Good"
      case Fair => "Fair"
      case NeedsWork => "Needs Work"
    }

    /** Higher is better. */
    function Rank(): nat {
      match this
      case NeedsWork => 0
      case Fair => 1
      case Good => 2
      case Great => 3
      case Excellent => 4
    }
  }

  /** `getRatingBadge`: none for a falsy rating, else by the 90/80/70/60 thresholds. */
  function RatingBadge(rating: Option<Num>): (b: Option<Badge>)
    ensures b.None? <==> rating.None? || Falsy(rating.value)
  {
    if rating.None? || Falsy(rating.value) then None
    else
      var r := rating.value.value;
      if r >= 90 then Some(Excellent)
      else if r >= 80 then Some(Great)
      else if r >= 70 then Some(Good)
      else if r >= 60 then Some(Fair)
      else Some(NeedsWork)
  }

  /** The rank of the badge is the number of thresholds the rating reaches. */
  lemma RatingBadgeRank(r: int)
    requires r != 0
    ensures RatingBadge(Some(Int(r))).Some?
    ensures RatingBadge(Some(Int(r))).value.Rank()
         == (if r >= 60 then 1 else 0) + (if r >= 70 then 1 else 0) + (if r >= 80 then 1 else 0) + (if r >= 90 then 1 else 0)
  {
  }

  /** A higher rating never earns a lower badge. */
  lemma RatingBadgeMonotone(r1: int, r2: int)
    requires r1 != 0 && r2 != 0 && r1 <= r2
    ensures RatingBadge(Some(Int(r1))).value.Rank() <= RatingBadge(Some(Int(r2))).value.Rank()
  {
    RatingBadgeRank(r1);
    RatingBadgeRank(r2);
  }

  // ---------------------------------------------------------------------
  // Average.
  // ---------------------------------------------------------------------

  /** `.filter(r => r !== undefined)`. */
  function Defined(xs: seq<Option<Num>>): (vs: seq<Num>)
    ensures |vs| <= |xs|
  {
    if xs == [] then []
    else (if xs[0].Some? then [xs[0].value] else []) + Defined(xs[1..])
  }

  /** `.reduce((sum, r) => sum + r, 0)`. */
  function Sum(vs: seq<Num>): Num {
    if vs == [] then Int(0) else Add(Sum(vs[..|vs| - 1]), vs[|vs| - 1])
  }

  /** `Math.round(sum / n)`: the nearest integer, halves upwards. */
  function RoundedMean(sum: int, n: nat): int
    requires n > 0
  {
    (2 * sum + n) / (2 * n)
  }

  /** `getAverageRating`. */
  function AverageRating(r: Rating): Option<Num> {
    var vs := Defined(Scores(r));
    if |vs| == 0 then None
    else
      var s := Sum(vs);
      if s.NaN? then Some(NaN) else Some(Int(RoundedMean(s.value, |vs|)))
  }

  lemma {:induction false} DefinedMembers(xs: seq<Option<Num>>)
    ensures forall v :: v in Defined(xs) <==> Some(v) in xs
    ensures Defined(xs) == [] <==> forall k :: 0 <= k < |xs| ==> xs[k].None?
  {
    if xs != [] {
      DefinedMembers(xs[1..]);
      assert xs == [xs[0]] + xs[1..];
      if xs[0].None? {
        forall k | 0 <= k < |xs[1..]|
          ensures xs[1..][k] == xs[k + 1]
        {
        }
      }
    }
  }

  lemma {:induction false} SumIsNaN(vs: seq<Num>)
    ensures Sum(vs).NaN? <==> NaN in vs
  {
    if vs != [] {
      SumIsNaN(vs[..|vs| - 1]);
      assert vs == vs[..|vs| - 1] + [vs[|vs| - 1]];
    }
  }

  /** A sum of numbers within bounds lies between n times the bounds. */
  lemma {:induction false} SumBounds(vs: seq<Num>, lo: int, hi: int)
    requires forall k :: 0 <= k < |vs| ==> vs[k].Int? && lo <= vs[k].value <= hi
    ensures Sum(vs).Int? && |vs| * lo <= Sum(vs).value <= |vs| * hi
  {
    if vs != [] {
      var init := vs[..|vs| - 1];
      var n := |init|;
      SumBounds(init, lo, hi);
      assert Sum(vs) == Add(Sum(init), vs[n]);
      MultiplySucc(n, lo);
      MultiplySucc(n, hi);
    }
  }

  lemma MultiplySucc(n: nat, x: int)
    ensures (n + 1) * x == n * x + x
  {
  }

  /** Rounding the mean keeps it within the bounds of what was averaged. */
  lemma RoundedMeanBounds(sum: int, n: nat, lo: int, hi: int)
    requires n > 0 && n * lo <= sum <= n * hi
    ensures lo <= RoundedMean(sum, n) <= hi
  {
    var q := RoundedMean(sum, n);
    RoundedMeanNearest(sum, n);
    assert n * (2 * q + 1 - 2 * lo) == 2 * n * q + n - 2 * (n * lo);
    PositiveFactor(n, 2 * q + 1 - 2 * lo);
    assert n * (2 * hi + 1 - 2 * q) == 2 * (n * hi) + n - 2 * n * q;
    PositiveFactor(n, 2 * hi + 1 - 2 * q);
  }

  lemma PositiveFactor(n: nat, x: int)
    requires n > 0 && n * x > 0
    ensures x > 0
  {
  }

  /** The rounded mean is the integer nearest the exact mean, halves upwards. */
  lemma RoundedMeanNearest(sum: int, n: nat)
    requires n > 0
    ensures 2 * n * RoundedMean(sum, n) - n <= 2 * sum < 2 * n * RoundedMean(sum, n) + n
  {
    var q := RoundedMean(sum, n);
    var a := 2 * sum + n;
    assert a == q * (2 * n) + a % (2 * n) && 0 <= a % (2 * n) < 2 * n;
  }

  /** Each of the five scores is listed, and only they are. */
  lemma ScoresListed(r: Rating)
    ensures forall f :: Score(r, f) in Scores(r)
    ensures forall k :: 0 <= k < |Scores(r)| ==> exists f :: Scores(r)[k] == Score(r, f)
  {
    var xs := Scores(r);
    assert xs[0] == Score(r, Overall) && xs[1] == Score(r, Instagram) && xs[2] == Score(r, TikTok);
    assert xs[3] == Score(r, YouTube) && xs[4] == Score(r, Twitter);
  }

  /** The average is undefined exactly when no score is set. */
  lemma AverageUndefined(r: Rating)
    ensures AverageRating(r).None? <==> forall f :: Score(r, f).None?
  {
    ScoresListed(r);
    DefinedMembers(Scores(r));
  }

  /** A set score that is NaN makes the average NaN. */
  lemma AverageNaN(r: Rating)
    requires Some(NaN) in Scores(r)
    ensures AverageRating(r) == Some(NaN)
  {
    var vs := Defined(Scores(r));
    DefinedMembers(Scores(r));
    SumIsNaN(vs);
  }

  /**
   * When the set scores are numbers between `lo` and `hi`, the average is
   * the nearest integer to their mean, and lies between `lo` and `hi` too.
   */
  lemma AverageBounds(r: Rating, lo: int, hi: int)
    requires forall f :: Score(r, f).Some? ==> Score(r, f).value.Int? && lo <= Score(r, f).value.value <= hi
    requires exists f :: Score(r, f).Some?
    ensures var vs := Defined(Scores(r));
      && |vs| > 0
      && Sum(vs).Int?
      && AverageRating(r) == Some(Int(RoundedMean(Sum(vs).value, |vs|)))
      && lo <= RoundedMean(Sum(vs).value, |vs|) <= hi
  {
    var xs := Scores(r);
    var vs := Defined(xs);
    ScoresListed(r);
    DefinedMembers(xs);
    forall k | 0 <= k < |vs|
      ensures vs[k].Int? && lo <= vs[k].value <= hi
    {
      assert vs[k] in vs;
    }
    SumBounds(vs, lo, hi);
    var f :| Score(r, f).Some?;
    assert Score(r, f).value in vs;
    RoundedMeanBounds(Sum(vs).value, |vs|, lo, hi);
  }

  // ---------------------------------------------------------------------
  // The save payload.
  // ---------------------------------------------------------------------

  /** A JSON value of the payload. */
  datatype Value = Number(n: Num) | Text(s: string)

  /** `Object.entries(ratings)`, in the order the state object was built. */
  function Entries(r: Rating): seq<(string, Option<Value>)> {
    [("contentHistoryId", Some(Number(r.contentHistoryId))),
     ("userId", if r.userId.Some? then Some(Number(Int(r.userId.value))) else None),
     ("overallRating", NumberOf(r.overall)),
     ("instagramRating", NumberOf(r.instagram)),
     ("tiktokRating", NumberOf(r.tiktok)),
     ("youtubeRating", NumberOf(r.youtube)),
     ("twitterRating", NumberOf(r.twitter)),
     ("notes", if r.notes.Some? then Some(Text(r.notes.value)) else None)]
  }

  function NumberOf(n: Option<Num>): Option<Value> {
    if n.Some? then Some(Number(n.value)) else None
  }

  /** The value an entry keeps through the filter: neither undefined nor `''`. */
  predicate Sent(v: Option<Value>) {
    v.Some? && v.value != Text("")
  }

  /** `.filter(([_, value]) => value !== undefined && value !== '')`. */
  function Kept(es: seq<(string, Option<Value>)>): (ps: seq<(string, Value)>)
    ensures forall k :: 0 <= k < |ps| ==> ps[k].1 != Text("")
  {
    if es == [] then []
    else (if Sent(es[0].1) then [(es[0].0, es[0].1.value)] else []) + Kept(es[1..])
  }

  /** The value under `key` in an entry list: the first entry with that key. */
  function Lookup<V>(es: seq<(string, V)>, key: string): Option<V> {
    if es == [] then None
    else if es[0].0 == key then Some(es[0].1)
    else Lookup(es[1..], key)
  }

  /** `{ ...ps, [key]: v }`: the existing entry is overwritten in place, else appended. */
  function Put(ps: seq<(string, Value)>, key: string, v: Value): seq<(string, Value)> {
    if ps == [] then [(key, v)]
    else if ps[0].0 == key then [(key, v)] + ps[1..]
    else [ps[0]] + Put(ps[1..], key, v)
  }

  /** No key occurs twice. */
  ghost predicate DistinctKeys<V>(es: seq<(string, V)>) {
    forall i, j :: 0 <= i < j < |es| ==> es[i].0 != es[j].0
  }

  /** Filtering an entry list with distinct keys keeps a key's value exactly when it is sent. */
  lemma {:induction false} KeptLookup(es: seq<(string, Option<Value>)>, key: string)
    requires DistinctKeys(es)
    ensures Lookup(Kept(es), key) ==
      (if Lookup(es, key).Some? && Sent(Lookup(es, key).value) then Some(Lookup(es, key).value.value) else None)
  {
    if es != [] {
      var rest := es[1..];
      var head := if Sent(es[0].1) then [(es[0].0, es[0].1.value)] else [];
      assert Kept(es) == head + Kept(rest);
      assert DistinctKeys(rest) by {
        forall i, j | 0 <= i < j < |rest|
          ensures rest[i].0 != rest[j].0
        {
          assert rest[i] == es[i + 1] && rest[j] == es[j + 1];
        }
      }
      if es[0].0 == key {
        forall k | 0 <= k < |rest|
          ensures rest[k].0 != key
        {
          assert rest[k] == es[k + 1];
        }
        KeptAbsent(rest, key);
        if head == [] {
          assert head + Kept(rest) == Kept(rest);
        } else {
          assert (head + Kept(rest))[0] == head[0];
        }
      } else {
        KeptLookup(rest, key);
        if head == [] {
          assert head + Kept(rest) == Kept(rest);
        } else {
          assert (head + Kept(rest))[0] == head[0];
          assert (head + Kept(rest))[1..] == Kept(rest);
        }
      }
    }
  }

  /** A key no entry has is not in the filtered list either. */
  lemma {:induction false} KeptAbsent(es: seq<(string, Option<Value>)>, key: string)
    requires forall k :: 0 <= k < |es| ==> es[k].0 != key
    ensures Lookup(Kept(es), key).None?
  {
    if es != [] {
      var rest := es[1..];
      var head := if Sent(es[0].1) then [(es[0].0, es[0].1.value)] else [];
      assert Kept(es) == head + Kept(rest);
      forall k | 0 <= k < |rest|
        ensures rest[k].0 != key
      {
        assert rest[k] == es[k + 1];
      }
      KeptAbsent(rest, key);
      if head == [] {
        assert head + Kept(rest) == Kept(rest);
      } else {
        assert (head + Kept(rest))[0] == head[0];
        assert (head + Kept(rest))[1..] == Kept(rest);
      }
    }
  }

  lemma {:induction false} PutLookup(ps: seq<(string, Value)>, key: string, v: Value, other: string)
    ensures Lookup(Put(ps, key, v), key) == Some(v)
    ensures other != key ==> Lookup(Put(ps, key, v), other) == Lookup(ps, other)
  {
    if ps != [] && ps[0].0 != key {
      PutLookup(ps[1..], key, v, other);
    }
  }

  /** `handleSave`: nothing is sent for a falsy id; otherwise the filtered entries with the id. */
  function SavePayload(contentHistoryId: Num, r: Rating): Option<seq<(string, Value)>> {
    if Falsy(contentHistoryId) then None
    else Some(Put(Kept(Entries(r)), "contentHistoryId", Number(contentHistoryId)))
  }

  const PayloadKeys := ["contentHistoryId", "userId", "overallRating", "instagramRating",
                        "tiktokRating", "youtubeRating", "twitterRating", "notes"]

  /**
   * Nothing is sent for an id that is 0 or NaN. Otherwise the payload
   * carries the component's id and, for every other field, exactly the
   * values that are neither undefined nor empty.
   */
  lemma SavePayloadProperties(contentHistoryId: Num, r: Rating, key: string)
    ensures SavePayload(contentHistoryId, r).None? <==> Falsy(contentHistoryId)
    ensures SavePayload(contentHistoryId, r).Some? ==>
      && Lookup(SavePayload(contentHistoryId, r).value, "contentHistoryId") == Some(Number(contentHistoryId))
      && (key != "contentHistoryId" ==>
            Lookup(SavePayload(contentHistoryId, r).value, key)
            == (var e := Lookup(Entries(r), key); if e.Some? && Sent(e.value) then Some(e.value.value) else None))
  {
    if !Falsy(contentHistoryId) {
      var es := Entries(r);
      EntriesKeysDistinct(r);
      KeptLookup(es, key);
      PutLookup(Kept(es), "contentHistoryId", Number(contentHistoryId), key);
    }
  }

  /** The keys of the state object are distinct. */
  lemma EntriesKeysDistinct(r: Rating)
    ensures DistinctKeys(Entries(r))
  {
    var es := Entries(r);
    forall i, j | 0 <= i < j < |es|
      ensures es[i].0 != es[j].0
    {
      assert es[i].0 == PayloadKeys[i] && es[j].0 == PayloadKeys[j];
      KeyLiteralsDiffer(i, j);
    }
  }

  lemma KeyLiteralsDiffer(i: nat, j: nat)
    requires i < j < |PayloadKeys|
    ensures PayloadKeys[i] != PayloadKeys[j]
  {
  }

  // ---------------------------------------------------------------------
  // Loading an existing rating.
  // ---------------------------------------------------------------------

  /** The rating record the server returns; its numbers are integers, null is None. */
  datatype StoredRating = StoredRating(
    overallRating: Option<int>,
    instagramRating: Option<int>,
    tiktokRating: Option<int>,
    youtubeRating: Option<int>,
    twitterRating: Option<int>,
    notes: Option<string>)

  /** `x || undefined` on a stored score. */
  function LoadedScore(x: Option<int>): (s: Option<Num>)
    ensures s.None? <==> x.None? || x.value == 0
    ensures s.Some? ==> s.value == Int(x.value) && !Falsy(s.value)
  {
    if x.Some? && x.value != 0 then Some(Int(x.value)) else None
  }

  /** The state replaced on load. */
  function Loaded(contentHistoryId: Num, userId: Option<int>, stored: StoredRating): (r: Rating)
    ensures r.contentHistoryId == contentHistoryId && r.userId == userId
    ensures r.notes.Some? && (stored.notes.Some? ==> r.notes == stored.notes)
  {
    Rating(contentHistoryId, userId,
      LoadedScore(stored.overallRating), LoadedScore(stored.instagramRating), LoadedScore(stored.tiktokRating),
      LoadedScore(stored.youtubeRating), LoadedScore(stored.twitterRating),
      Some(if stored.notes.Some? then stored.notes.value else ""))
  }

  /** A loaded record never holds a falsy score, and its note is always a string. */
  lemma LoadedIsClean(contentHistoryId: Num, userId: Option<int>, stored: StoredRating)
    ensures var r := Loaded(contentHistoryId, userId, stored);
      && (forall f :: Score(r, f).None? || !Falsy(Score(r, f).value))
      && r.notes.Some?
      && (stored.notes.None? ==> r.notes == Some(""))
  {
    var r := Loaded(contentHistoryId, userId, stored);
    forall f
      ensures Score(r, f).None? || !Falsy(Score(r, f).value)
    {
    }
  }

  // ---------------------------------------------------------------------
  // Editing a score.
  // ---------------------------------------------------------------------

  /**
   * What `handleRatingChange` stores for a score as written: the score
   * inputs hand it `parseInt(e.target.value)`, a number, so the `''` test
   * never matches and a cleared input stores NaN.
   */
  function StoredScoreAsWritten(value: Num): Option<Num> {
    Some(value)
  }

  /** What the `''` test evidently intends: a cleared input leaves the score undefined. */
  function StoredScore(value: Num): (s: Option<Num>)
    ensures s.None? <==> value.NaN?
    ensures s.Some? ==> s.value == value
  {
    if value.NaN? then None else Some(value)
  }

  /**
   * Clearing one score of two, as written, makes the average NaN (hidden in
   * the collapsed view), where the remaining score should be the average.
   */
  lemma ClearedScoreAverage()
    ensures var r := InitialRating(Int(7), None).(overall := Some(Int(80)));
      && AverageRating(WithScore(r, Instagram, StoredScoreAsWritten(NaN))) == Some(NaN)
      && AverageRating(WithScore(r, Instagram, StoredScore(NaN))) == Some(Int(80))
  {
    var r := InitialRating(Int(7), None).(overall := Some(Int(80)));
    var asWritten := WithScore(r, Instagram, StoredScoreAsWritten(NaN));
    var corrected := WithScore(r, Instagram, StoredScore(NaN));
    assert Defined(Scores(asWritten)) == [Int(80), NaN];
    assert Sum([Int(80), NaN]) == Add(Sum([Int(80)]), NaN);
    assert Defined(Scores(corrected)) == [Int(80)];
    assert Sum([Int(80)]) == Add(Sum([]), Int(80));
  }

  /** The component's rating state. */
  class RatingPanel {
    const contentHistoryId: Num
    const userId: Option<int>
    var ratings: Rating

    /** The state keeps the component's own id and user. */
    ghost predicate Valid()
      reads this
    {
      ratings.contentHistoryId == contentHistoryId && ratings.userId == userId
    }

    constructor (contentHistoryId: Num, userId: Option<int>)
      ensures this.contentHistoryId == contentHistoryId && this.userId == userId
      ensures ratings == InitialRating(contentHistoryId, userId)
      ensures Valid()
    {
      this.contentHistoryId := contentHistoryId;
      this.userId := userId;
      ratings := InitialRating(contentHistoryId, userId);
    }

    /** `handleRatingChange` on a score: only that score changes. */
    method ChangeScore(field: Field, value: Num)
      requires Valid()
      modifies this
      ensures Valid()
      ensures ratings == WithScore(old(ratings), field, StoredScore(value))
      ensures forall g :: g != field ==> Score(ratings, g) == Score(old(ratings), g)
      ensures ratings.notes == old(ratings.notes)
    {
      ratings := WithScore(ratings, field, StoredScore(value));
    }

    /** `handleRatingChange` on the note: `''` leaves it undefined, nothing else changes. */
    method ChangeNotes(value: string)
      requires Valid()
      modifies this
      ensures Valid()
      ensures ratings == old(ratings).(notes := if value == "" then None else Some(value))
    {
      ratings := ratings.(notes := if value == "" then None else Some(value));
    }

    /** The load effect: a loaded record replaces the state; none leaves it as it was. */
    method Load(existing: Option<StoredRating>)
      requires Valid()
      modifies this
      ensures Valid()
      ensures existing.Some? ==> ratings == Loaded(contentHistoryId, userId, existing.value)
      ensures existing.None? ==> ratings == old(ratings)
    {
      if existing.Some? {
        ratings := Loaded(contentHistoryId, userId, existing.value);
      }
    }
  }

  /** Editing one score and reading the average sees the edit; clearing it drops it from the mean. */
  method EditThenAverage(panel: RatingPanel)
    requires panel.Valid()
    modifies panel
    ensures Score(panel.ratings, Overall).None?
    ensures AverageRating(panel.ratings).None? <==> forall f :: f != Overall ==> Score(old(panel.ratings), f).None?
  {
    panel.ChangeScore(Overall, NaN);
    AverageUndefined(panel.ratings);
    assert forall f :: f != Overall ==> Score(panel.ratings, f) == Score(old(panel.ratings), f);
  }
}
