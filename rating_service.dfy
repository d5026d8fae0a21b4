/**
 * Rating an order: the guard chain in front of the rating insert. Orders come from the
 * order store model; the rating store's lookup and insert are not modelled, and their
 * answers are function parameters.
 */
module RatingService {
  import opened Wrappers
  import opened Model
  import opened Store

  const MinRating: int := 1
  const MaxRating: int := 5

  const ErrRatingRange: string := "rating must be between 1 and 5"
  const ErrNotCompleted: string := "only completed orders can be rated"
  const ErrAlreadyRated: string := "order has already been rated"

  function OrderNotFound(msg: string): string {
    "order not found: " + msg
  }

  /** The rating as it is inserted: the order and restaurant come from the path, not the client. */
  function Stamped(r: Rating, restaurantId: int, orderId: int): (s: Rating)
    ensures s.orderId == orderId && s.restaurantId == restaurantId
    ensures s.id == r.id && s.rating == r.rating && s.comment == r.comment
  {
    r.(orderId := orderId, restaurantId := restaurantId)
  }

  /**
   * Create: the score range, then the order's existence in this restaurant, then its
   * status, then an existing rating; only then the insert. A failed rating lookup reads as
   * "not rated yet".
   */
  function Create(db: Db, restaurantId: int, orderId: int, r: Rating,
                  getByOrderId: (int, int) -> Result<Rating>, insert: Rating -> Result<Rating>): (res: Result<Rating>)
    ensures !(MinRating <= r.rating <= MaxRating) ==> res == Err(ErrRatingRange)
    ensures MinRating <= r.rating <= MaxRating && GetOrderByID(db, restaurantId, orderId).Err?
            ==> res == Err(OrderNotFound(GetOrderByID(db, restaurantId, orderId).msg))
    ensures MinRating <= r.rating <= MaxRating && GetOrderByID(db, restaurantId, orderId).Ok?
            && GetOrderByID(db, restaurantId, orderId).value.status != StatusCompleted
            ==> res == Err(ErrNotCompleted)
    ensures MinRating <= r.rating <= MaxRating && GetOrderByID(db, restaurantId, orderId).Ok?
            && GetOrderByID(db, restaurantId, orderId).value.status == StatusCompleted
            ==> res == (if getByOrderId(restaurantId, orderId).Ok? then Err(ErrAlreadyRated)
                        else insert(Stamped(r, restaurantId, orderId)))
  {
    if r.rating < MinRating || r.rating > MaxRating then Err(ErrRatingRange)
    else
      var order := GetOrderByID(db, restaurantId, orderId);
      if order.Err? then Err(OrderNotFound(order.msg))
      else if order.value.status != StatusCompleted then Err(ErrNotCompleted)
      else if getByOrderId(restaurantId, orderId).Ok? then Err(ErrAlreadyRated)
      else insert(Stamped(r, restaurantId, orderId))
  }

  /** Whatever order and restaurant ids the client put in the body, the outcome is the same. */
  lemma ClientIdsIgnored(db: Db, restaurantId: int, orderId: int, r1: Rating, r2: Rating,
                         getByOrderId: (int, int) -> Result<Rating>, insert: Rating -> Result<Rating>)
    requires r1.id == r2.id && r1.rating == r2.rating && r1.comment == r2.comment
    ensures Create(db, restaurantId, orderId, r1, getByOrderId, insert)
            == Create(db, restaurantId, orderId, r2, getByOrderId, insert)
  {
    assert Stamped(r1, restaurantId, orderId) == Stamped(r2, restaurantId, orderId);
  }

  /**
   * The insert is reached only for a completed order of this restaurant that has no
   * rating yet, with a score in range.
   */
  lemma InsertOnlyForCompletedUnrated(db: Db, restaurantId: int, orderId: int, r: Rating,
                                      getByOrderId: (int, int) -> Result<Rating>, insert: Rating -> Result<Rating>)
    requires Create(db, restaurantId, orderId, r, getByOrderId, insert).Ok?
    ensures MinRating <= r.rating <= MaxRating
    ensures exists o :: o in db.orders && o.id == orderId && o.restaurantId == restaurantId && o.status == StatusCompleted
    ensures getByOrderId(restaurantId, orderId).Err?
    ensures Create(db, restaurantId, orderId, r, getByOrderId, insert) == insert(Stamped(r, restaurantId, orderId))
  {
    var o := GetOrderByID(db, restaurantId, orderId).value;
    assert o in db.orders;
  }

  /** Another restaurant's order cannot be rated through this restaurant's path. */
  lemma ForeignOrderNotFound(db: Db, restaurantId: int, orderId: int, r: Rating,
                             getByOrderId: (int, int) -> Result<Rating>, insert: Rating -> Result<Rating>)
    requires MinRating <= r.rating <= MaxRating
    requires forall o :: o in db.orders && o.id == orderId ==> o.restaurantId != restaurantId
    ensures GetOrderByID(db, restaurantId, orderId).Err?
    ensures Create(db, restaurantId, orderId, r, getByOrderId, insert)
            == Err(OrderNotFound(GetOrderByID(db, restaurantId, orderId).msg))
  {
  }
}
