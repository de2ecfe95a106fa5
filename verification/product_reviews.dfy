/**
 * The review list of src/components/product/ProductReviews.tsx: ratings sorted by the chosen
 * order, the per-star counts, and the empty state. `createdOn` is a timestamp in milliseconds;
 * the floating-point average is kept as a sum and a count.
 */
module ProductReviews {
  import Seqs

  datatype Review = Review(id: string, rating: int, createdOn: int)

  datatype SortOrder = Recent | HighestRated | LowestRated

  /**
   * The comparator `(a, b) => ...` orders by this key, ascending: newest first, highest rating
   * first, or lowest rating first.
   */
  function Key(order: SortOrder, r: Review): int
  {
    match order
    case Recent => -r.createdOn
    case HighestRated => -r.rating
    case LowestRated => r.rating
  }

  predicate SortedBy(order: SortOrder, s: seq<Review>)
  {
    forall i, j :: 0 <= i < j < |s| ==> Key(order, s[i]) <= Key(order, s[j])
  }

  /** Where a stable insertion puts `x`: before the first element whose key is not smaller. */
  function InsertionPoint(order: SortOrder, x: Review, s: seq<Review>): (p: nat)
    ensures p <= |s|
    ensures forall j :: 0 <= j < p ==> Key(order, s[j]) < Key(order, x)
    ensures p < |s| ==> Key(order, x) <= Key(order, s[p])
  {
    if s == [] || Key(order, x) <= Key(order, s[0]) then 0
    else InsertionPoint(order, x, s[1..]) + 1
  }

  function Insert(order: SortOrder, x: Review, s: seq<Review>): seq<Review>
  {
    var p := InsertionPoint(order, x, s);
    s[..p] + [x] + s[p..]
  }

  lemma InsertAt(order: SortOrder, x: Review, s: seq<Review>)
    ensures var p := InsertionPoint(order, x, s); var r := Insert(order, x, s);
      && |r| == |s| + 1 && r[p] == x
      && (forall i :: 0 <= i < p ==> r[i] == s[i])
      && (forall i :: p < i < |r| ==> r[i] == s[i - 1])
  {
  }

  lemma InsertSorted(order: SortOrder, x: Review, s: seq<Review>)
    requires SortedBy(order, s)
    ensures SortedBy(order, Insert(order, x, s))
  {
    var p := InsertionPoint(order, x, s);
    var r := Insert(order, x, s);
    InsertAt(order, x, s);
    forall i, j | 0 <= i < j < |r| ensures Key(order, r[i]) <= Key(order, r[j]) {
      if j < p {
        assert r[i] == s[i] && r[j] == s[j];
      } else if i > p {
        assert r[i] == s[i - 1] && r[j] == s[j - 1];
      } else if i == p {
        assert r[j] == s[j - 1];
        assert Key(order, x) <= Key(order, s[p]);
      } else if j == p {
        assert r[i] == s[i];
      } else {
        assert r[i] == s[i] && r[j] == s[j - 1];
        assert Key(order, s[i]) < Key(order, x);
        assert Key(order, x) <= Key(order, s[p]);
      }
    }
  }

  lemma InsertPermutes(order: SortOrder, x: Review, s: seq<Review>)
    ensures multiset(Insert(order, x, s)) == multiset{x} + multiset(s)
  {
    var p := InsertionPoint(order, x, s);
    assert s == s[..p] + s[p..];
  }

  /**
   * `[...ratings].sort(comparator)`: a stable sort by the key, written as insertion sort. Its
   * result is the sorted permutation that keeps equal keys in input order, the only result a
   * stable sort can give.
   */
  function SortReviews(order: SortOrder, ratings: seq<Review>): (r: seq<Review>)
    ensures multiset(r) == multiset(ratings)
    ensures SortedBy(order, r)
  {
    if ratings == [] then []
    else
      var rest := SortReviews(order, ratings[1..]);
      InsertSorted(order, ratings[0], rest);
      InsertPermutes(order, ratings[0], rest);
      assert ratings == [ratings[0]] + ratings[1..];
      Insert(order, ratings[0], rest)
  }

  function HasKey(order: SortOrder, k: int): Review -> bool
  {
    (r: Review) => Key(order, r) == k
  }

  lemma InsertKeepsEqualKeysInOrder(order: SortOrder, x: Review, s: seq<Review>, k: int)
    ensures Seqs.Filter(Insert(order, x, s), HasKey(order, k))
         == (if Key(order, x) == k then [x] else []) + Seqs.Filter(s, HasKey(order, k))
  {
    var p := InsertionPoint(order, x, s);
    var f := HasKey(order, k);
    assert s == s[..p] + s[p..];
    assert f(x) ==> forall i :: 0 <= i < |s[..p]| ==> !f(s[..p][i]);
    Seqs.FilterInsertFirst(s[..p], x, s[p..], f);
  }

  /** Stability: reviews with the same key keep their original relative order. */
  lemma {:induction false} SortIsStable(order: SortOrder, ratings: seq<Review>, k: int)
    ensures Seqs.Filter(SortReviews(order, ratings), HasKey(order, k)) == Seqs.Filter(ratings, HasKey(order, k))
  {
    if ratings != [] {
      SortIsStable(order, ratings[1..], k);
      InsertKeepsEqualKeysInOrder(order, ratings[0], SortReviews(order, ratings[1..]), k);
    }
  }

  /** What the three orders mean for the sorted list. */
  lemma SortOrders(ratings: seq<Review>)
    ensures var s := SortReviews(HighestRated, ratings);
      forall i, j :: 0 <= i < j < |s| ==> s[i].rating >= s[j].rating
    ensures var s := SortReviews(LowestRated, ratings);
      forall i, j :: 0 <= i < j < |s| ==> s[i].rating <= s[j].rating
    ensures var s := SortReviews(Recent, ratings);
      forall i, j :: 0 <= i < j < |s| ==> s[i].createdOn >= s[j].createdOn
  {
    var h := SortReviews(HighestRated, ratings);
    assert forall i, j :: 0 <= i < j < |h| ==> Key(HighestRated, h[i]) <= Key(HighestRated, h[j]);
    var r := SortReviews(Recent, ratings);
    assert forall i, j :: 0 <= i < j < |r| ==> Key(Recent, r[i]) <= Key(Recent, r[j]);
  }

  // ---------------------------------------------------------------------------------------------

  function RatedAs(k: int): Review -> bool
  {
    (r: Review) => r.rating == k
  }

  /** `ratings.filter(r => r.rating === k).length`. */
  function CountOf(ratings: seq<Review>, k: int): nat
  {
    |Seqs.Filter(ratings, RatedAs(k))|
  }

  /** `ratingCounts`, listed for 5, 4, 3, 2, 1 stars. */
  function RatingCounts(ratings: seq<Review>): seq<nat>
  {
    [CountOf(ratings, 5), CountOf(ratings, 4), CountOf(ratings, 3), CountOf(ratings, 2), CountOf(ratings, 1)]
  }

  predicate InStarRange(r: Review)
  {
    1 <= r.rating <= 5
  }

  /** When every rating is 1 to 5 stars, the five counts add up to the number of ratings. */
  lemma {:induction false} CountsCoverAllRatings(ratings: seq<Review>)
    requires forall i :: 0 <= i < |ratings| ==> InStarRange(ratings[i])
    ensures var c := RatingCounts(ratings); c[0] + c[1] + c[2] + c[3] + c[4] == |ratings|
  {
    if ratings != [] {
      CountsCoverAllRatings(ratings[1..]);
    }
  }

  function RatingValue(r: Review): int
  {
    r.rating
  }

  /** The summary block, or the empty state when there are no ratings. */
  datatype ReviewsView =
    | EmptyState
    | Summary(totalRatings: nat, ratingSum: int, counts: seq<nat>, sorted: seq<Review>)

  /** What the component renders for `ratings` under `order`. */
  function View(ratings: seq<Review>, order: SortOrder): (v: ReviewsView)
    ensures v.EmptyState? <==> ratings == []
    ensures v.Summary? ==> v.totalRatings > 0 && |v.counts| == 5 && multiset(v.sorted) == multiset(ratings)
    ensures v.Summary? ==> v.totalRatings == |ratings| && v.counts == RatingCounts(ratings)
    ensures v.Summary? ==> v.ratingSum == Seqs.SumOf(ratings, RatingValue) && SortedBy(order, v.sorted)
  {
    var sorted := SortReviews(order, ratings);
    if |ratings| == 0 then EmptyState
    else Summary(|ratings|, Seqs.SumOf(ratings, RatingValue), RatingCounts(ratings), sorted)
  }

  /** The summary's five star bars add up to the total it shows, when every rating is 1 to 5 stars. */
  lemma ViewCountsAddUpToTotal(ratings: seq<Review>, order: SortOrder)
    requires ratings != []
    requires forall i :: 0 <= i < |ratings| ==> InStarRange(ratings[i])
    ensures var v := View(ratings, order);
      v.Summary? && v.counts[0] + v.counts[1] + v.counts[2] + v.counts[3] + v.counts[4] == v.totalRatings
  {
    CountsCoverAllRatings(ratings);
  }

  /** The five stars of one review: star `i` is filled iff `i < rating`. */
  function Stars(rating: int): (stars: seq<bool>)
    ensures |stars| == 5
    ensures forall i :: 0 <= i < 5 ==> (stars[i] <==> i < rating)
  {
    seq(5, i => i < rating)
  }

  /** A review shows as many filled stars as its rating, clamped to 0..5, all of them first. */
  lemma FilledStars(rating: int)
    ensures var n := if rating < 0 then 0 else if rating > 5 then 5 else rating;
      && (forall i :: 0 <= i < n ==> Stars(rating)[i])
      && (forall i :: n <= i < 5 ==> !Stars(rating)[i])
  {
  }
}
