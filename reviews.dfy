/** The review handlers of controllers/user.controller.js (`addReview`,
    `editReview`, `deleteReview`): a mentor's `reviews` array and the
    `rating` kept as the average of the reviews' ratings. A path id that is
    not a valid ObjectId is `None`; the rating is the JSON value the body
    carries under `rating`. */
module Reviews {
  import opened Wrappers
  import opened Js
  import opened Users

  /** `reviews.reduce((sum, r) => sum + r.rating, 0)`. */
  function Sum(reviews: seq<Review>): real {
    if reviews == [] then 0.0 else reviews[0].rating + Sum(reviews[1..])
  }

  /** The mentor's `rating` over a review list: the mean, and 0 when there
      is no review (the schema default, and what `deleteReview` stores). */
  function Average(reviews: seq<Review>): real {
    if reviews == [] then 0.0 else Sum(reviews) / |reviews| as real
  }

  /** The guard `!rating || rating < 1 || rating > 5` lets the value
      through: it is truthy, and `Number` does not read it as a number
      below 1 or above 5. A value read as NaN passes, because every
      comparison with NaN is false. */
  predicate PassesGuard(rating: Value) {
    Truthy(rating) && var x := ToNumber(rating); !(x.Num? && (x.n < 1.0 || x.n > 5.0))
  }

  /** What the review schema's `Number` path makes of the value when the
      review is pushed or its rating assigned: a number is kept, a string or
      a boolean is converted with `Number`, and anything else, or a string
      that reads as NaN, fails to cast, which makes the following `save()`
      reject. */
  function CastRating(rating: Value): (r: Option<real>)
    ensures r.Some? ==> ToNumber(rating) == Num(r.value)
  {
    match rating
    case Num(n) => Some(n)
    case Bool(b) => Some(if b then 1.0 else 0.0)
    case Str(_) => (match ToNumber(rating) case Num(n) => Some(n) case _ => None)
    case _ => None
  }

  predicate InScale(r: Review) {
    1.0 <= r.rating <= 5.0
  }

  /** What the handlers keep true of a user document: every rating is on
      the 1..5 scale of the review schema and `rating` is their average. */
  predicate Consistent(u: UserDoc) {
    (forall r :: r in u.reviews ==> InScale(r)) && u.rating == Average(u.reviews)
  }

  predicate HasReview(u: UserDoc, id: ReviewId) {
    exists r :: r in u.reviews && r.id == id
  }

  /** No review id is in use anywhere in the collection. */
  ghost predicate Unused(docs: map<UserId, UserDoc>, id: ReviewId) {
    forall m :: m in docs ==> !HasReview(docs[m], id)
  }

  /** `mentor.reviews.push(...)` and the recomputed average. */
  function Added(u: UserDoc, review: Review): UserDoc {
    var reviews := u.reviews + [review];
    u.(reviews := reviews, rating := Sum(reviews) / |reviews| as real)
  }

  /** The review at `i` given the new rating and comment, and the average
      recomputed. */
  function Edited(u: UserDoc, i: nat, rating: real, comment: Option<string>): UserDoc
    requires i < |u.reviews|
  {
    var reviews := u.reviews[i := u.reviews[i].(rating := rating, comment := comment)];
    u.(reviews := reviews, rating := Sum(reviews) / |reviews| as real)
  }

  /** The reviews whose id is not `id`: what `reviews.pull(id)` leaves. */
  function Without(reviews: seq<Review>, id: ReviewId): (r: seq<Review>)
    ensures |r| <= |reviews|
  {
    if reviews == [] then []
    else if reviews[0].id == id then Without(reviews[1..], id)
    else [reviews[0]] + Without(reviews[1..], id)
  }

  /** `reviews.pull(id)` and the rating: the new mean, or 0 when none is left. */
  function Pulled(u: UserDoc, id: ReviewId): UserDoc {
    var reviews := Without(u.reviews, id);
    u.(reviews := reviews, rating := if |reviews| > 0 then Sum(reviews) / |reviews| as real else 0.0)
  }

  /** `deleteReview`'s permission: the author of the review, or the mentor
      the review is about acting on their own profile. */
  predicate MayDelete(mentorId: UserId, review: Review, userId: UserId, userRole: Option<Role>) {
    review.studentId == userId || (mentorId == userId && userRole == Some(Mentor))
  }

  /** The edit made on the mentor `findOne` chose. */
  ghost predicate EditedOne(before: map<UserId, UserDoc>, after: map<UserId, UserDoc>, id: ReviewId,
                            userId: UserId, rating: real, comment: Option<string>)
  {
    exists m, i: nat :: m in before && i < |before[m].reviews| && before[m].reviews[i].id == id
      && (forall j :: 0 <= j < i ==> before[m].reviews[j].id != id)
      && before[m].reviews[i].studentId == userId
      && after == before[m := Edited(before[m], i, rating, comment)]
  }

  /** A refused edit: the chosen mentor's first review with that id belongs
      to someone else. */
  ghost predicate EditRefused(docs: map<UserId, UserDoc>, id: ReviewId, userId: UserId) {
    exists m, i: nat :: m in docs && i < |docs[m].reviews| && docs[m].reviews[i].id == id
      && (forall j :: 0 <= j < i ==> docs[m].reviews[j].id != id)
      && docs[m].reviews[i].studentId != userId
  }

  /** A permitted edit: the chosen mentor's first review with that id
      belongs to the caller. */
  ghost predicate EditPermitted(docs: map<UserId, UserDoc>, id: ReviewId, userId: UserId) {
    exists m, i: nat :: m in docs && i < |docs[m].reviews| && docs[m].reviews[i].id == id
      && (forall j :: 0 <= j < i ==> docs[m].reviews[j].id != id)
      && docs[m].reviews[i].studentId == userId
  }

  /** The delete made on the mentor `findOne` chose. */
  ghost predicate PulledOne(before: map<UserId, UserDoc>, after: map<UserId, UserDoc>, id: ReviewId,
                            userId: UserId, userRole: Option<Role>)
  {
    exists m, i: nat :: m in before && i < |before[m].reviews| && before[m].reviews[i].id == id
      && (forall j :: 0 <= j < i ==> before[m].reviews[j].id != id)
      && MayDelete(m, before[m].reviews[i], userId, userRole)
      && after == before[m := Pulled(before[m], id)]
  }

  ghost predicate DeleteRefused(docs: map<UserId, UserDoc>, id: ReviewId, userId: UserId,
                                userRole: Option<Role>)
  {
    exists m, i: nat :: m in docs && i < |docs[m].reviews| && docs[m].reviews[i].id == id
      && (forall j :: 0 <= j < i ==> docs[m].reviews[j].id != id)
      && !MayDelete(m, docs[m].reviews[i], userId, userRole)
  }

  /** `reviews.id(id)`: the first review carrying the id. */
  method FindReview(reviews: seq<Review>, id: ReviewId) returns (i: nat)
    requires exists r :: r in reviews && r.id == id
    ensures i < |reviews| && reviews[i].id == id
    ensures forall j :: 0 <= j < i ==> reviews[j].id != id
  {
    i := 0;
    while reviews[i].id != id
      invariant i < |reviews|
      invariant forall j :: 0 <= j < i ==> reviews[j].id != id
      invariant exists k :: i <= k < |reviews| && reviews[k].id == id
      decreases |reviews| - i
    {
      i := i + 1;
    }
  }

  /** `addReview` (400 for a bad id or a rating the guard refuses, 404
      unless the target is a mentor, 500 when the rating does not cast, else
      201 with the review appended). `freshId` is the `_id`
      the new subdocument receives. */
  method AddReview(db: UserDb, mentorId: Option<UserId>, studentId: UserId, rating: Value,
                   comment: Option<string>, freshId: ReviewId) returns (status: nat)
    requires db.Valid() && Unused(db.docs, freshId)
    modifies db`docs
    ensures db.Valid()
    ensures mentorId.None? || !PassesGuard(rating) ==> status == 400 && db.docs == old(db.docs)
    ensures mentorId.Some? && PassesGuard(rating)
            && (mentorId.value !in old(db.docs) || old(db.docs)[mentorId.value].role != Some(Mentor)) ==>
      status == 404 && db.docs == old(db.docs)
    ensures mentorId.Some? && PassesGuard(rating)
            && mentorId.value in old(db.docs) && old(db.docs)[mentorId.value].role == Some(Mentor)
            && CastRating(rating).None? ==>
      status == 500 && db.docs == old(db.docs)
    ensures mentorId.Some? && PassesGuard(rating)
            && mentorId.value in old(db.docs) && old(db.docs)[mentorId.value].role == Some(Mentor)
            && CastRating(rating).Some? ==>
      status == 201
      && db.docs == old(db.docs)[mentorId.value :=
           Added(old(db.docs)[mentorId.value], Review(freshId, studentId, comment, CastRating(rating).value))]
  {
    if mentorId.None? {
      return 400;
    }
    if !PassesGuard(rating) {
      return 400;
    }
    var m := mentorId.value;
    if m !in db.docs || db.docs[m].role != Some(Mentor) {
      return 404;
    }
    var cast := CastRating(rating);
    if cast.None? {
      return 500;
    }
    var mentor := Added(db.docs[m], Review(freshId, studentId, comment, cast.value));
    SameEmailKeepsUnique(db.docs, m, mentor);
    db.docs := db.docs[m := mentor];
    status := 201;
  }

  /** `editReview`: 400 for a bad id or a rating the guard refuses, 404
      when no document holds the review, 403 unless the caller wrote it, 500
      when the rating does not cast, else 200 with its rating and comment
      replaced and the average recomputed. */
  method EditReview(db: UserDb, reviewId: Option<ReviewId>, userId: UserId, rating: Value,
                    comment: Option<string>) returns (status: nat)
    requires db.Valid()
    modifies db`docs
    ensures db.Valid()
    ensures reviewId.None? || !PassesGuard(rating) ==> status == 400 && db.docs == old(db.docs)
    ensures reviewId.Some? && PassesGuard(rating) ==>
      (status == 404 && db.docs == old(db.docs)
         && forall m :: m in old(db.docs) ==> !HasReview(old(db.docs)[m], reviewId.value))
      || (status == 403 && db.docs == old(db.docs) && EditRefused(old(db.docs), reviewId.value, userId))
      || (status == 500 && db.docs == old(db.docs) && CastRating(rating).None?
          && EditPermitted(old(db.docs), reviewId.value, userId))
      || (status == 200 && CastRating(rating).Some?
          && EditedOne(old(db.docs), db.docs, reviewId.value, userId, CastRating(rating).value, comment))
  {
    if reviewId.None? {
      return 400;
    }
    if !PassesGuard(rating) {
      return 400;
    }
    var id := reviewId.value;
    if m :| m in db.docs && HasReview(db.docs[m], id) {
      var mentor := db.docs[m];
      var i := FindReview(mentor.reviews, id);
      if mentor.reviews[i].studentId != userId {
        return 403;
      }
      var cast := CastRating(rating);
      if cast.None? {
        return 500;
      }
      mentor := Edited(mentor, i, cast.value, comment);
      SameEmailKeepsUnique(db.docs, m, mentor);
      db.docs := db.docs[m := mentor];
      status := 200;
    } else {
      status := 404;
    }
  }

  /** `deleteReview`: 400 for a bad id, 404 when no document holds the
      review, 403 unless the caller wrote it or is the mentor on their own
      profile, else 200 with every review of that id pulled. */
  method DeleteReview(db: UserDb, reviewId: Option<ReviewId>, userId: UserId, userRole: Option<Role>)
    returns (status: nat)
    requires db.Valid()
    modifies db`docs
    ensures db.Valid()
    ensures reviewId.None? ==> status == 400 && db.docs == old(db.docs)
    ensures reviewId.Some? ==>
      (status == 404 && db.docs == old(db.docs)
         && forall m :: m in old(db.docs) ==> !HasReview(old(db.docs)[m], reviewId.value))
      || (status == 403 && db.docs == old(db.docs)
          && DeleteRefused(old(db.docs), reviewId.value, userId, userRole))
      || (status == 200 && PulledOne(old(db.docs), db.docs, reviewId.value, userId, userRole))
  {
    if reviewId.None? {
      return 400;
    }
    var id := reviewId.value;
    if m :| m in db.docs && HasReview(db.docs[m], id) {
      var mentor := db.docs[m];
      var i := FindReview(mentor.reviews, id);
      var isReviewOwner := mentor.reviews[i].studentId == userId;
      var isMentorProfile := m == userId && userRole == Some(Mentor);
      if !isReviewOwner && !isMentorProfile {
        return 403;
      }
      mentor := Pulled(mentor, id);
      SameEmailKeepsUnique(db.docs, m, mentor);
      db.docs := db.docs[m := mentor];
      status := 200;
    } else {
      status := 404;
    }
  }

  // ----- Properties ------------------------------------------------------------

  lemma {:induction false} SumAppend(reviews: seq<Review>, r: Review)
    ensures Sum(reviews + [r]) == Sum(reviews) + r.rating
  {
    if reviews != [] {
      assert (reviews + [r])[1..] == reviews[1..] + [r];
      SumAppend(reviews[1..], r);
    }
  }

  /** Ratings on the scale sum to between one and five times their number. */
  lemma {:induction false} SumBounds(reviews: seq<Review>)
    requires forall r :: r in reviews ==> InScale(r)
    ensures |reviews| as real <= Sum(reviews) <= 5.0 * |reviews| as real
  {
    if reviews != [] {
      assert forall r :: r in reviews[1..] ==> r in reviews;
      SumBounds(reviews[1..]);
      assert InScale(reviews[0]);
    }
  }

  /** With every rating in 1..5 and at least one review, the average lies
      in [1, 5]. */
  lemma AverageInScale(reviews: seq<Review>)
    requires reviews != [] && forall r :: r in reviews ==> InScale(r)
    ensures 1.0 <= Average(reviews) <= 5.0
  {
    SumBounds(reviews);
    var n, total := |reviews| as real, Sum(reviews);
    var mean := total / n;
    assert mean * n == total;
    if mean < 1.0 {
      assert mean * n < 1.0 * n;
    }
  }

  /** `addReview` appends exactly the new review, and the rating is the
      old total plus the new rating over one more review. */
  lemma AddedAppendsOne(u: UserDoc, review: Review)
    ensures Added(u, review).reviews == u.reviews + [review]
    ensures Added(u, review).rating == (Sum(u.reviews) + review.rating) / (|u.reviews| + 1) as real
    ensures Added(u, review).email == u.email && Added(u, review).role == u.role
  {
    SumAppend(u.reviews, review);
  }

  /** A rating that passes the guard and casts lies on the review scale,
      so a review the handlers store is always on the scale. */
  lemma AcceptedInScale(rating: Value, id: ReviewId, studentId: UserId, comment: Option<string>)
    requires PassesGuard(rating) && CastRating(rating).Some?
    ensures InScale(Review(id, studentId, comment, CastRating(rating).value))
  {
  }

  /** The guard lets a word through (every comparison with NaN is false);
      the cast then fails, so the handlers answer 500 after the lookups. */
  lemma WordPassesGuard()
    ensures PassesGuard(Str("ten")) && CastRating(Str("ten")).None?
  {
    WordIsNaN();
  }

  /** `true` passes the guard and is stored as the rating 1. */
  lemma TrueRatesOne()
    ensures PassesGuard(Bool(true)) && CastRating(Bool(true)) == Some(1.0)
  {
  }

  /** A rating sent as the string of its digits is stored as that number. */
  lemma DigitStringRating(n: nat)
    requires 1 <= n <= 5
    ensures PassesGuard(Str(Show(n))) && CastRating(Str(Show(n))) == Some(n as real)
  {
    ToNumberShow(n);
  }

  /** Adding a review on the scale keeps a consistent document consistent. */
  lemma AddedConsistent(u: UserDoc, review: Review)
    requires Consistent(u) && InScale(review)
    ensures Consistent(Added(u, review))
    ensures 1.0 <= Added(u, review).rating <= 5.0
  {
    var v := Added(u, review);
    assert forall r :: r in v.reviews ==> r in u.reviews || r == review;
    AverageInScale(v.reviews);
  }

  /** An edit touches only the review at `i`, and only its rating and
      comment. */
  lemma EditedChangesOne(u: UserDoc, i: nat, rating: real, comment: Option<string>)
    requires i < |u.reviews|
    ensures var v := Edited(u, i, rating, comment);
      |v.reviews| == |u.reviews|
      && (forall j :: 0 <= j < |u.reviews| && j != i ==> v.reviews[j] == u.reviews[j])
      && v.reviews[i] == u.reviews[i].(rating := rating, comment := comment)
      && v.reviews[i].id == u.reviews[i].id && v.reviews[i].studentId == u.reviews[i].studentId
      && v.rating == Average(v.reviews)
  {
  }

  /** Editing with a rating on the scale keeps a consistent document
      consistent. */
  lemma EditedConsistent(u: UserDoc, i: nat, rating: real, comment: Option<string>)
    requires i < |u.reviews| && Consistent(u) && 1.0 <= rating <= 5.0
    ensures Consistent(Edited(u, i, rating, comment))
  {
    var v := Edited(u, i, rating, comment);
    forall r | r in v.reviews
      ensures InScale(r)
    {
      var j :| 0 <= j < |v.reviews| && v.reviews[j] == r;
      if j != i {
        assert r == u.reviews[j];
      }
    }
  }

  /** `pull` removes every review with the id and keeps every other one. */
  lemma {:induction false} WithoutMembers(reviews: seq<Review>, id: ReviewId)
    ensures forall r :: r in Without(reviews, id) <==> r in reviews && r.id != id
  {
    if reviews != [] {
      WithoutMembers(reviews[1..], id);
      assert reviews == [reviews[0]] + reviews[1..];
    }
  }

  /** After a delete the review is gone and the rating is the new average,
      or 0 when no review is left. */
  lemma PulledRemoves(u: UserDoc, id: ReviewId)
    ensures !HasReview(Pulled(u, id), id)
    ensures forall r :: r in Pulled(u, id).reviews <==> r in u.reviews && r.id != id
    ensures Pulled(u, id).reviews == [] ==> Pulled(u, id).rating == 0.0
    ensures Pulled(u, id).rating == Average(Pulled(u, id).reviews)
  {
    WithoutMembers(u.reviews, id);
  }

  /** Deleting keeps a consistent document consistent. */
  lemma PulledConsistent(u: UserDoc, id: ReviewId)
    requires Consistent(u)
    ensures Consistent(Pulled(u, id))
  {
    WithoutMembers(u.reviews, id);
  }

  /** The first review carrying an id is the only one once ids are
      distinct, so a delete removes exactly one review. */
  lemma {:induction false} PullOneOfDistinct(reviews: seq<Review>, i: nat)
    requires i < |reviews|
    requires forall a, b :: 0 <= a < b < |reviews| ==> reviews[a].id != reviews[b].id
    ensures Without(reviews, reviews[i].id) == reviews[..i] + reviews[i + 1..]
  {
    var id := reviews[i].id;
    if i == 0 {
      NoneWithout(reviews[1..], id);
      assert reviews[..0] + reviews[1..] == reviews[1..];
    } else {
      PullOneOfDistinct(reviews[1..], i - 1);
      assert reviews[1..][..i - 1] == reviews[1..i];
      assert reviews[1..][i..] == reviews[i + 1..];
      assert reviews[..i] == [reviews[0]] + reviews[1..i];
    }
  }

  lemma {:induction false} NoneWithout(reviews: seq<Review>, id: ReviewId)
    requires forall k :: 0 <= k < |reviews| ==> reviews[k].id != id
    ensures Without(reviews, id) == reviews
  {
    if reviews != [] {
      NoneWithout(reviews[1..], id);
    }
  }
}
