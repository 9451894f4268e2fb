/**
 * The loop of get_cart_items as written deletes stale keys from the dict it
 * is iterating. CPython checks at every step of a dict iterator, the final one
 * included, whether the dict changed size, and raises RuntimeError if it did;
 * so the loop never finishes once it has deleted a key.
 */
module SweepFinding {
  import opened Wrappers
  import opened Shop
  import opened Cart
  import opened CartItems

  datatype IterationError = DictChangedSizeDuringIteration

  /**
   * The listing the loop as written produces from the entries still to visit;
   * `deleted` records that a key was deleted from the dict earlier on.
   */
  function LoopAsWritten(rest: Cart, products: ProductTable, deleted: bool): Result<seq<CartItem>, IterationError> {
    if deleted then Failure(DictChangedSizeDuringIteration)
    else if rest == [] then Success([])
    else if !Resolves(products, rest[0].id) then LoopAsWritten(rest[1..], products, true)
    else
      match LoopAsWritten(rest[1..], products, false)
      case Success(tail) =>
        Success((if Included(products, rest[0]) then [ItemOf(products, rest[0])] else []) + tail)
      case Failure(e) => Failure(e)
  }

  /**
   * The loop as written raises exactly when the cart holds an entry whose
   * product is missing or inactive, that is when there is something to sweep;
   * otherwise it lists what the intended loop lists.
   */
  lemma {:induction false} AsWrittenFailsOnStale(c: Cart, products: ProductTable)
    ensures LoopAsWritten(c, products, false).Failure? <==> exists e :: e in c && !Resolves(products, e.id)
    ensures LoopAsWritten(c, products, false).Success? ==> LoopAsWritten(c, products, false).value == Materialized(c, products)
  {
    if c != [] {
      assert forall e :: e in c <==> e == c[0] || e in c[1..];
      AsWrittenFailsOnStale(c[1..], products);
    }
  }

  /** A cart holding one unit of a product id that no longer exists: the page fails instead of dropping it. */
  lemma StaleEntryCrashes()
    ensures LoopAsWritten([CartEntry(7, 1)], map[], false) == Failure(DictChangedSizeDuringIteration)
    ensures Swept([CartEntry(7, 1)], map[]) == [] && Materialized([CartEntry(7, 1)], map[]) == []
  {
  }
}
