/** Shared value types of the mock data services: optional values, the
    errors a service call raises, and the id allocation every store uses. */
module Common {

  datatype Option<+T> = None | Some(value: T)

  /** Why a service call is rejected (the `throw new Error(...)` paths). */
  datatype Error =
    | NotFound(id: int)                  // no record has this id
    | AssociatedPostMissing(postId: int) // a roadmap item whose feedback post is gone

  datatype Result<+T> = Ok(value: T) | Err(error: Error)

  /** The value of an optional key, or a default when the key is absent. */
  function Or<T>(o: Option<T>, default: T): T
  {
    if o.Some? then o.value else default
  }

  /** What a key holds after the spread `{...before, ...patch}`: the patch's
      value when the patch has the key, the old value when it has not. */
  predicate Overrides<T(==)>(patch: Option<T>, before: T, after: T)
  {
    (patch.Some? ==> after == patch.value) && (patch.None? ==> after == before)
  }

  /** The largest element of a non-empty list of ids. */
  function MaxOf(ids: seq<int>): (m: int)
    requires |ids| > 0
    ensures m in ids
    ensures forall x :: x in ids ==> x <= m
  {
    if |ids| == 1 then ids[0]
    else
      var rest := MaxOf(ids[1..]);
      assert forall x :: x in ids ==> x == ids[0] || x in ids[1..];
      if ids[0] >= rest then ids[0] else rest
  }

  /** A JavaScript number as `Math.max(...ids) + 1` can produce it:
      `Math.max()` of no arguments is -Infinity. */
  datatype JsNumber = NegInfinity | Finite(v: int)

  /** `Math.max(...ids) + 1` as the stores write it. */
  function JsMaxPlusOne(ids: seq<int>): (r: JsNumber)
    ensures r.NegInfinity? <==> ids == []
    ensures r.Finite? ==> forall x :: x in ids ==> x < r.v
  {
    if ids == [] then NegInfinity else Finite(MaxOf(ids) + 1)
  }

  /** On an empty store the source allocates the id -Infinity, which is not
      an integer id at all. */
  lemma EmptyStoreAllocatesNonIntegerId()
    ensures JsMaxPlusOne([]) == NegInfinity
  {
  }

  /** The id a store allocates for a new record: one more than the largest
      id in use, and 1 when the store is empty. */
  function NextId(ids: seq<int>): (r: int)
    ensures forall x :: x in ids ==> x < r
    ensures ids != [] ==> JsMaxPlusOne(ids) == Finite(r)
    ensures ids == [] ==> r == 1
  {
    if ids == [] then 1 else MaxOf(ids) + 1
  }

  function Max(a: int, b: int): int { if a >= b then a else b }
}
