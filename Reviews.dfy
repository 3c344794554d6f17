/** Product reviews and the per-product review store (Review.java,
    ReviewManager.java). */
module Reviews {
  import opened Wrappers
  import opened Histories
  import opened Products
  import opened Customers

  /** A review: its author (null when built from the product alone), the
      reviewed product, a star rating and an optional comment. */
  datatype Review = Review(customer: Customer?, product: Product, rating: int, comment: Option<string>)

  /** The store after adding `rs` one after another. */
  function WithReviews(m: map<int, seq<Review>>, rs: seq<Review>): map<int, seq<Review>>
    decreases |rs|
  {
    if rs == [] then m else WithReviews(Recorded(m, rs[0].product.id, rs[0]), rs[1..])
  }

  /** Adding reviews one by one appends them, in order, to the list of their
      product; a product none of them is about keeps its list. */
  lemma {:induction false} WithReviewsAppends(m: map<int, seq<Review>>, rs: seq<Review>, productId: int)
    ensures History(WithReviews(m, rs), productId)
         == History(m, productId) + ReviewsAbout(rs, productId)
    decreases |rs|
  {
    if rs != [] {
      WithReviewsAppends(Recorded(m, rs[0].product.id, rs[0]), rs[1..], productId);
    }
  }

  /** The reviews in `rs` that are about `productId`, in their order. */
  function ReviewsAbout(rs: seq<Review>, productId: int): (about: seq<Review>)
    ensures |about| <= |rs|
    ensures forall r | r in about :: r in rs && r.product.id == productId
  {
    if rs == [] then []
    else (if rs[0].product.id == productId then [rs[0]] else []) + ReviewsAbout(rs[1..], productId)
  }

  /** n reviews that are all about one product, added to a store with none,
      form that product's list: length n, insertion order. */
  lemma {:induction false} SameProductReviewsInOrder(rs: seq<Review>, productId: int)
    requires forall r | r in rs :: r.product.id == productId
    ensures History(WithReviews(map[], rs), productId) == rs
  {
    WithReviewsAppends(map[], rs, productId);
    AllAbout(rs, productId);
  }

  lemma {:induction false} AllAbout(rs: seq<Review>, productId: int)
    requires forall r | r in rs :: r.product.id == productId
    ensures ReviewsAbout(rs, productId) == rs
  {
    if rs != [] {
      assert rs[0] in rs;
      assert forall r | r in rs[1..] :: r in rs;
      AllAbout(rs[1..], productId);
      assert rs == [rs[0]] + rs[1..];
    }
  }

  class ReviewManager {
    var reviewMap: map<int, seq<Review>>

    /** A fresh manager holds no reviews for any product. */
    constructor ()
      ensures reviewMap == map[]
      ensures forall p :: History(reviewMap, p) == []
    {
      reviewMap := map[];
    }

    /** Appends the review to the list of its product. */
    method AddReview(review: Review)
      modifies this
      ensures reviewMap == Recorded(old(reviewMap), review.product.id, review)
    {
      var productId := review.product.id;
      var reviews: seq<Review>;
      if productId in reviewMap {
        reviews := reviewMap[productId];
      } else {
        reviews := [];
        reviewMap := reviewMap[productId := reviews];
      }
      reviewMap := reviewMap[productId := reviews + [review]];
    }

    /** The product's reviews, or an empty list; the store is not changed. */
    method GetReviewsForProduct(productId: int) returns (reviews: seq<Review>)
      ensures reviews == History(reviewMap, productId)
      ensures productId !in reviewMap ==> reviews == []
    {
      if productId in reviewMap {
        reviews := reviewMap[productId];
      } else {
        reviews := [];
      }
    }
  }

  /** Three reviews of one product come back as a list of three, in the order
      they were added, and a product nobody reviewed gets an empty list. */
  method ThreeReviewsOfOneProduct(p: Product, unreviewed: int) returns (reviews: seq<Review>, none: seq<Review>)
    requires unreviewed != p.id
    ensures |reviews| == 3 && reviews[0].rating == 5 && reviews[2].rating == 3
    ensures none == []
  {
    var manager := new ReviewManager();
    var r1 := Review(null, p, 5, Some("Excellent quality!"));
    var r2 := Review(null, p, 4, Some("Very comfortable."));
    var r3 := Review(null, p, 3, Some("Good, but a bit tight."));
    manager.AddReview(r1);
    manager.AddReview(r2);
    manager.AddReview(r3);
    reviews := manager.GetReviewsForProduct(p.id);
    none := manager.GetReviewsForProduct(unreviewed);
  }
}
