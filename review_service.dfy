/**
 * src/services/review.service.ts: adding and deleting reviews, and the
 * per-variant statistics (`average_rating`, `review_count`,
 * `rating_distribution`) recomputed from the variant's reviews after each.
 */
module ReviewService {
  import opened Wrappers
  import opened Models
  import opened JsMath
  import Paging

  datatype ReviewError =
    | VariantUnavailable   // 'Product variant not found or inactive'
    | LoginRequired        // 'User must be logged in to provide a rating'
    | ReviewNotFound       // 'Review not found'

  /** The reviews of one variant, in store order. */
  function ReviewsOf(reviews: seq<Review>, vid: Id): (r: seq<Review>)
    ensures |r| <= |reviews|
    ensures forall i :: 0 <= i < |r| ==> r[i].product_variant_id == vid
  {
    if reviews == [] then []
    else
      var last := reviews[|reviews| - 1];
      ReviewsOf(reviews[..|reviews| - 1], vid) + (if last.product_variant_id == vid then [last] else [])
  }

  lemma {:induction false} ReviewsOfAppend(a: seq<Review>, b: seq<Review>, vid: Id)
    ensures ReviewsOf(a + b, vid) == ReviewsOf(a, vid) + ReviewsOf(b, vid)
  {
    if b == [] {
      assert a + b == a;
    } else {
      assert (a + b)[..|a + b| - 1] == a + b[..|b| - 1];
      ReviewsOfAppend(a, b[..|b| - 1], vid);
    }
  }

  /** A review is among a variant's reviews exactly when it is a review of that variant. */
  lemma {:induction false} ReviewsOfMembers(reviews: seq<Review>, vid: Id, x: Review)
    ensures x in ReviewsOf(reviews, vid) <==> x in reviews && x.product_variant_id == vid
  {
    if reviews != [] {
      var init := reviews[..|reviews| - 1];
      ReviewsOfMembers(init, vid, x);
      assert reviews == init + [reviews[|reviews| - 1]];
    }
  }

  /** How many of the reviews have exactly this rating (`r.rating === star`). */
  function CountStars(reviews: seq<Review>, star: int): (n: nat)
    ensures n <= |reviews|
  {
    if reviews == [] then 0
    else CountStars(reviews[..|reviews| - 1], star) + (if reviews[|reviews| - 1].rating == Some(star) then 1 else 0)
  }

  /** The five buckets of one variant's reviews. */
  datatype Buckets = Buckets(one: nat, two: nat, three: nat, four: nat, five: nat)

  function BucketsOf(rs: seq<Review>): Buckets {
    Buckets(CountStars(rs, 1), CountStars(rs, 2), CountStars(rs, 3), CountStars(rs, 4), CountStars(rs, 5))
  }

  /** `reviewsWithRating`: the reviews counted in some bucket. */
  function Rated(b: Buckets): nat {
    b.one + b.two + b.three + b.four + b.five
  }

  function WeightedSum(b: Buckets): nat {
    5 * b.five + 4 * b.four + 3 * b.three + 2 * b.two + 1 * b.one
  }

  /** `averageRating`: the weighted mean, divided by 1 when nothing is rated. */
  function Average(b: Buckets): real {
    WeightedSum(b) as real / (if Rated(b) == 0 then 1 else Rated(b)) as real
  }

  /** The stored `rating_distribution` object. */
  function DistributionMap(b: Buckets): map<string, int> {
    map["one_star" := b.one, "two_star" := b.two, "three_star" := b.three,
        "four_star" := b.four, "five_star" := b.five]
  }

  /** A review can be in at most one bucket: the buckets never count more than there are reviews. */
  lemma {:induction false} BucketsWithinReviews(rs: seq<Review>)
    ensures Rated(BucketsOf(rs)) <= |rs|
  {
    if rs != [] {
      BucketsWithinReviews(rs[..|rs| - 1]);
    }
  }

  lemma QuotientBetween(w: real, n: real, lo: real, hi: real)
    requires n > 0.0 && lo * n <= w <= hi * n
    ensures lo <= w / n <= hi
  {
    assert w / n * n == w;
  }

  /** With no rated review the average is 0; otherwise it lies between one and five stars. */
  lemma AverageInRange(b: Buckets)
    ensures Rated(b) == 0 ==> Average(b) == 0.0
    ensures Rated(b) > 0 ==> 1.0 <= Average(b) <= 5.0
  {
    var n, w := Rated(b), WeightedSum(b);
    if n > 0 {
      assert n <= w <= 5 * n;
      assert 1.0 * n as real <= w as real <= 5.0 * n as real;
      QuotientBetween(w as real, n as real, 1.0, 5.0);
    }
  }

  /** The three statistics stored on a variant. */
  datatype Stats = Stats(average_rating: real, review_count: int, rating_distribution: map<string, int>)

  /** The statistics of one variant, recomputed from all of its reviews. */
  function StatsOf(reviews: seq<Review>, vid: Id): Stats {
    var rs := ReviewsOf(reviews, vid);
    var b := BucketsOf(rs);
    Stats(Average(b), |rs|, DistributionMap(b))
  }

  function StoredStats(v: Variant): Stats {
    Stats(v.average_rating, v.review_count, v.rating_distribution)
  }

  /** updateProductVariantStats: an update by id, which does nothing when the variant is gone. */
  function Restat(variants: map<Id, Variant>, vid: Id, s: Stats): (r: map<Id, Variant>)
    ensures r.Keys == variants.Keys
    ensures forall id :: id in variants && id != vid ==> r[id] == variants[id]
    ensures vid in variants ==> StoredStats(r[vid]) == s
  {
    if vid in variants
    then variants[vid := variants[vid].(average_rating := s.average_rating, review_count := s.review_count,
                                        rating_distribution := s.rating_distribution)]
    else variants
  }

  /** Every variant's statistics agree with its reviews. */
  predicate StatsInSync(variants: map<Id, Variant>, reviews: seq<Review>) {
    forall id :: id in variants ==> StoredStats(variants[id]) == StatsOf(reviews, id)
  }

  /**
   * A review of one variant leaves every other variant's reviews as they
   * were, wherever in the store it is added or removed.
   */
  lemma OtherVariantsUnaffected(before: seq<Review>, rv: Review, after: seq<Review>, vid: Id)
    requires rv.product_variant_id != vid
    ensures ReviewsOf(before + after, vid) == ReviewsOf(before + [rv] + after, vid)
  {
    ReviewsOfAppend(before, after, vid);
    ReviewsOfAppend(before + [rv], after, vid);
    ReviewsOfAppend(before, [rv], vid);
    assert ReviewsOf([rv], vid) == [] by {
      assert [rv][..0] == [];
    }
  }

  /** Recomputing one variant after adding or removing one of its reviews keeps every variant in sync. */
  lemma RestatKeepsSync(variants: map<Id, Variant>, before: seq<Review>, rv: Review, after: seq<Review>,
                        was: seq<Review>, now: seq<Review>)
    requires (was == before + after && now == before + [rv] + after)
          || (was == before + [rv] + after && now == before + after)
    requires StatsInSync(variants, was)
    ensures StatsInSync(Restat(variants, rv.product_variant_id, StatsOf(now, rv.product_variant_id)), now)
  {
    var vid := rv.product_variant_id;
    var r := Restat(variants, vid, StatsOf(now, vid));
    forall id | id in r
      ensures StoredStats(r[id]) == StatsOf(now, id)
    {
      if id != vid {
        OtherVariantsUnaffected(before, rv, after, id);
        assert ReviewsOf(was, id) == ReviewsOf(now, id);
      }
    }
  }

  lemma AppendKeepsSync(variants: map<Id, Variant>, reviews: seq<Review>, rv: Review)
    requires StatsInSync(variants, reviews)
    ensures StatsInSync(Restat(variants, rv.product_variant_id, StatsOf(reviews + [rv], rv.product_variant_id)), reviews + [rv])
  {
    assert reviews + [rv] + [] == reviews + [rv];
    assert reviews + [] == reviews;
    RestatKeepsSync(variants, reviews, rv, [], reviews, reviews + [rv]);
  }

  /** JavaScript truthiness of the optional rating: a rating of 0 counts as not given. */
  predicate RatingGiven(rating: Option<real>) {
    rating.Some? && rating.value != 0.0
  }

  /** The review document addReview stores: the user and the rounded rating only for a signed-in user. */
  function NewReview(reviewId: Id, vid: Id, userId: Option<Id>, content: string, rating: Option<real>): (r: Review)
    ensures r.id == reviewId && r.product_variant_id == vid && r.user_id == userId && r.content == content
    ensures r.rating.Some? <==> userId.Some? && RatingGiven(rating)
    ensures r.rating.Some? ==> rating.value - 0.5 < r.rating.value as real <= rating.value + 0.5
  {
    Review(reviewId, vid, userId, content,
           if userId.Some? && RatingGiven(rating) then Some(Round(rating.value)) else None)
  }

  predicate FreshReviewId(reviews: seq<Review>, id: Id) {
    forall i :: 0 <= i < |reviews| ==> reviews[i].id != id
  }

  /** Store a new review and recompute its variant's statistics. */
  method Record(db: Db, review: Review)
    modifies db
    ensures db.carts == old(db.carts) && db.coupons == old(db.coupons)
    ensures db.users == old(db.users) && db.orders == old(db.orders)
    ensures db.reviews == old(db.reviews) + [review]
    ensures db.variants == Restat(old(db.variants), review.product_variant_id, StatsOf(db.reviews, review.product_variant_id))
    ensures StatsInSync(old(db.variants), old(db.reviews)) ==> StatsInSync(db.variants, db.reviews)
  {
    if StatsInSync(db.variants, db.reviews) {
      AppendKeepsSync(db.variants, db.reviews, review);
    }
    db.reviews := db.reviews + [review];
    db.variants := Restat(db.variants, review.product_variant_id, StatsOf(db.reviews, review.product_variant_id));
  }

  /** addReview. `reviewId` is the identifier the store assigns to the new review. */
  method AddReview(db: Db, vid: Id, userId: Option<Id>, content: string, rating: Option<real>, reviewId: Id)
    returns (r: Result<Review, ReviewError>)
    requires FreshReviewId(db.reviews, reviewId)
    modifies db
    ensures db.carts == old(db.carts) && db.coupons == old(db.coupons)
    ensures db.users == old(db.users) && db.orders == old(db.orders)
    ensures !ActiveIn(old(db.variants), vid) ==>
      r == Err(VariantUnavailable) && db.reviews == old(db.reviews) && db.variants == old(db.variants)
    ensures ActiveIn(old(db.variants), vid) && RatingGiven(rating) && userId.None? ==>
      r == Err(LoginRequired) && db.reviews == old(db.reviews) && db.variants == old(db.variants)
    ensures ActiveIn(old(db.variants), vid) && !(RatingGiven(rating) && userId.None?) ==>
      && r == Ok(NewReview(reviewId, vid, userId, content, rating))
      && db.reviews == old(db.reviews) + [r.value]
      && db.variants == Restat(old(db.variants), vid, StatsOf(db.reviews, vid))
    ensures StatsInSync(old(db.variants), old(db.reviews)) ==> StatsInSync(db.variants, db.reviews)
  {
    if !ActiveIn(db.variants, vid) {
      return Err(VariantUnavailable);
    }
    if RatingGiven(rating) && userId.None? {
      return Err(LoginRequired);
    }
    var review := NewReview(reviewId, vid, userId, content, rating);
    Record(db, review);
    r := Ok(review);
  }

  /** The position of the review with this id, if any (findById). */
  function FindReview(reviews: seq<Review>, id: Id): (r: Option<nat>)
    ensures r.None? <==> forall i :: 0 <= i < |reviews| ==> reviews[i].id != id
    ensures r.Some? ==> r.value < |reviews| && reviews[r.value].id == id
  {
    if reviews == [] then None
    else if reviews[0].id == id then Some(0)
    else
      var rest := FindReview(reviews[1..], id);
      if rest.Some? then Some(rest.value + 1) else None
  }

  /** deleteReview: remove the review, then recompute its variant's statistics. */
  method DeleteReview(db: Db, reviewId: Id) returns (r: Result<Review, ReviewError>)
    modifies db
    ensures db.carts == old(db.carts) && db.coupons == old(db.coupons)
    ensures db.users == old(db.users) && db.orders == old(db.orders)
    ensures FindReview(old(db.reviews), reviewId).None? ==>
      r == Err(ReviewNotFound) && db.reviews == old(db.reviews) && db.variants == old(db.variants)
    ensures FindReview(old(db.reviews), reviewId).Some? ==>
      var i := FindReview(old(db.reviews), reviewId).value;
      && r == Ok(old(db.reviews)[i])
      && db.reviews == old(db.reviews)[..i] + old(db.reviews)[i + 1..]
      && db.variants == Restat(old(db.variants), old(db.reviews)[i].product_variant_id,
                                StatsOf(db.reviews, old(db.reviews)[i].product_variant_id))
    ensures StatsInSync(old(db.variants), old(db.reviews)) ==> StatsInSync(db.variants, db.reviews)
  {
    var found := FindReview(db.reviews, reviewId);
    if found.None? {
      return Err(ReviewNotFound);
    }
    var i := found.value;
    var review := db.reviews[i];
    var before, after := db.reviews[..i], db.reviews[i + 1..];
    db.reviews := before + after;
    db.variants := Restat(db.variants, review.product_variant_id, StatsOf(db.reviews, review.product_variant_id));
    r := Ok(review);
    if StatsInSync(old(db.variants), old(db.reviews)) {
      assert old(db.reviews) == before + [review] + after;
      RestatKeepsSync(old(db.variants), before, review, after, old(db.reviews), db.reviews);
    }
  }

  /** Deleting a review takes it out of its variant's count and, if rated one to five, out of its bucket. */
  lemma DeleteLowersCounts(before: seq<Review>, rv: Review, after: seq<Review>, star: int)
    ensures var vid := rv.product_variant_id;
      && |ReviewsOf(before + after, vid)| + 1 == |ReviewsOf(before + [rv] + after, vid)|
      && CountStars(ReviewsOf(before + after, vid), star) + (if rv.rating == Some(star) then 1 else 0)
         == CountStars(ReviewsOf(before + [rv] + after, vid), star)
  {
    var vid := rv.product_variant_id;
    ReviewsOfAppend(before, after, vid);
    ReviewsOfAppend(before + [rv], after, vid);
    ReviewsOfAppend(before, [rv], vid);
    assert [rv][..0] == [];
    assert ReviewsOf([rv], vid) == [rv];
    CountStarsAppend(ReviewsOf(before, vid), ReviewsOf(after, vid), star);
    CountStarsAppend(ReviewsOf(before, vid) + [rv], ReviewsOf(after, vid), star);
    CountStarsAppend(ReviewsOf(before, vid), [rv], star);
    assert [rv][..0] == [];
  }

  lemma {:induction false} CountStarsAppend(a: seq<Review>, b: seq<Review>, star: int)
    ensures CountStars(a + b, star) == CountStars(a, star) + CountStars(b, star)
  {
    if b == [] {
      assert a + b == a;
    } else {
      assert (a + b)[..|a + b| - 1] == a + b[..|b| - 1];
      CountStarsAppend(a, b[..|b| - 1], star);
    }
  }

  // ------------------------------------------------------------ read path

  /** What getReviewsByProductVariantId reports besides the page of reviews. */
  datatype Summary = Summary(
    total: int,
    page: int,
    limit: int,
    average_rating: real,
    review_count: int,
    reviews_with_rating: int,
    rating_distribution: map<string, int>,
    total_page: Option<int>)

  /** A missing bucket field reads as 0 (`|| 0`). */
  function Bucket(d: map<string, int>, key: string): (n: int)
    ensures key !in d ==> n == 0
    ensures key in d ==> n == d[key]
  {
    if key in d then d[key] else 0
  }

  function ReviewsWithRating(d: map<string, int>): int {
    Bucket(d, "one_star") + Bucket(d, "two_star") + Bucket(d, "three_star")
    + Bucket(d, "four_star") + Bucket(d, "five_star")
  }

  /**
   * The listing's summary for an active variant, from the statistics stored
   * on it; `total` is the number of hits the search reports.
   */
  function ReviewsSummary(variants: map<Id, Variant>, vid: Id, total: int, page: int, limit: int): (r: Result<Summary, ReviewError>)
    ensures r.Err? <==> !ActiveIn(variants, vid)
    ensures r.Ok? ==>
      r.value.review_count == variants[vid].review_count
      && r.value.rating_distribution == variants[vid].rating_distribution
      && r.value.total_page == Paging.TotalPages(total, limit)
      && r.value.reviews_with_rating == ReviewsWithRating(variants[vid].rating_distribution)
      && r.value.average_rating == variants[vid].average_rating
      && r.value.total == total && r.value.page == page && r.value.limit == limit
  {
    if !ActiveIn(variants, vid) then Err(VariantUnavailable)
    else
      var v := variants[vid];
      Ok(Summary(total, page, limit, v.average_rating, v.review_count,
                 ReviewsWithRating(v.rating_distribution), v.rating_distribution,
                 Paging.TotalPages(total, limit)))
  }

  /**
   * For a variant kept in sync, the listing reports as rated exactly the
   * reviews in some bucket, never more than the review count.
   */
  lemma SummaryAgreesWithReviews(variants: map<Id, Variant>, reviews: seq<Review>, vid: Id, total: int, page: int, limit: int)
    requires StatsInSync(variants, reviews) && ActiveIn(variants, vid)
    ensures var s := ReviewsSummary(variants, vid, total, page, limit).value;
      var b := BucketsOf(ReviewsOf(reviews, vid));
      && s.reviews_with_rating == Rated(b)
      && s.reviews_with_rating <= s.review_count
      && s.average_rating == Average(b)
  {
    BucketsWithinReviews(ReviewsOf(reviews, vid));
  }
}
