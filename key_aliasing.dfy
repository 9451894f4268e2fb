/**
 * The cart as add_to_cart actually keys it: by `str(product_id)` of the
 * request, while the product lookup coerces that string to an integer id. Two
 * spellings of one id, such as "7" and "07", are two keys of the dict but one
 * product, so the held quantity the stock guard reads depends on the spelling.
 * The rest of the model keys the cart by the coerced id, which is what the
 * guard evidently means.
 */
module KeyAliasing {
  import opened Wrappers
  import opened Shop
  import opened Cart
  import opened CartItems
  import opened Checkout

  /** One key/value pair of the session dict, keyed by the request's spelling of the id. */
  datatype RawEntry = RawEntry(key: string, quantity: int)

  /** The session dict in insertion order. */
  type RawCart = seq<RawEntry>

  /** A decimal spelling of an id: at least one digit and nothing else (`int("")` raises). */
  predicate AllDigits(k: string) {
    |k| > 0 && forall i :: 0 <= i < |k| ==> '0' <= k[i] <= '9'
  }

  predicate AllKeysDigits(c: RawCart) {
    forall e :: e in c ==> AllDigits(e.key)
  }

  /** The integer id a decimal spelling coerces to in an `id=` lookup; leading zeros do not count. */
  function DecimalValue(k: string): nat
    requires AllDigits(k)
    decreases |k|
  {
    var last := k[|k| - 1] as int - '0' as int;
    if |k| == 1 then last else DecimalValue(k[..|k| - 1]) * 10 + last
  }

  /** Every spelling has another one, with a leading zero, that names the same product. */
  lemma {:induction false} LeadingZeroAliases(k: string)
    requires AllDigits(k)
    ensures AllDigits("0" + k) && "0" + k != k
    ensures DecimalValue("0" + k) == DecimalValue(k)
    decreases |k|
  {
    assert |"0" + k| != |k|;
    if |k| == 1 {
      assert ("0" + k)[..1] == "0";
    } else {
      assert ("0" + k)[..|"0" + k| - 1] == "0" + k[..|k| - 1];
      LeadingZeroAliases(k[..|k| - 1]);
    }
  }

  /** `cart.get(key, 0)`, matching the key string exactly. */
  function RawQuantity(c: RawCart, key: string): int {
    if c == [] then 0
    else if c[0].key == key then c[0].quantity
    else RawQuantity(c[1..], key)
  }

  /** `cart[key] = q`: an existing key is overwritten in place, a new key is appended. */
  function RawPut(c: RawCart, key: string, q: int): RawCart {
    if c == [] then [RawEntry(key, q)]
    else if c[0].key == key then [RawEntry(key, q)] + c[1..]
    else [c[0]] + RawPut(c[1..], key, q)
  }

  /** Writing one key leaves the value under every other spelling as it was. */
  lemma {:induction false} RawPutOther(c: RawCart, key: string, other: string, q: int)
    requires other != key
    ensures RawQuantity(RawPut(c, key, q), other) == RawQuantity(c, other)
  {
    if c != [] && c[0].key != key {
      RawPutOther(c[1..], key, other, q);
    }
  }

  /** add_to_cart as written: the product is found by the coerced id, the held quantity by the key string. */
  function RawAddCheck(products: ProductTable, c: RawCart, key: string, quantity: int): Option<CartError>
    requires AllDigits(key)
  {
    AddGuards(products, DecimalValue(key), RawQuantity(c, key), quantity)
  }

  /** The session dict add_to_cart leaves when its guards pass. */
  function RawAdded(c: RawCart, key: string, quantity: int): RawCart {
    RawPut(c, key, RawQuantity(c, key) + quantity)
  }

  /** The cart as get_cart_items and checkout see it: each key coerced to the id it looks up. */
  function Coerced(c: RawCart): Cart
    requires AllKeysDigits(c)
  {
    seq(|c|, i requires 0 <= i < |c| => CartEntry(DecimalValue(c[i].key), c[i].quantity))
  }

  /**
   * As written, an add that passes can be repeated under a leading-zero
   * spelling that the cart does not hold yet, and it passes again: the product
   * then has the held quantity plus twice the request in the cart, across two
   * keys, which exceeds the stock whenever the request is more than half of it.
   */
  lemma AliasedAddPasses(products: ProductTable, c: RawCart, key: string, quantity: int)
    requires AllDigits(key)
    requires RawAddCheck(products, c, key, quantity) == None
    requires RawQuantity(c, "0" + key) == 0
    ensures AllDigits("0" + key) && DecimalValue("0" + key) == DecimalValue(key)
    ensures RawAddCheck(products, RawAdded(c, key, quantity), "0" + key, quantity) == None
    ensures var c2 := RawAdded(RawAdded(c, key, quantity), "0" + key, quantity);
      RawQuantity(c2, key) + RawQuantity(c2, "0" + key) == RawQuantity(c, key) + 2 * quantity
  {
    LeadingZeroAliases(key);
    var c1 := RawAdded(c, key, quantity);
    RawPutOther(c, key, "0" + key, RawQuantity(c, key) + quantity);
    RawPutOther(c1, "0" + key, key, RawQuantity(c1, "0" + key) + quantity);
    RawPutQuantity(c, key, RawQuantity(c, key) + quantity);
    RawPutQuantity(c1, "0" + key, RawQuantity(c1, "0" + key) + quantity);
  }

  /** A key reads back what was just written under it. */
  lemma {:induction false} RawPutQuantity(c: RawCart, key: string, q: int)
    ensures RawQuantity(RawPut(c, key, q), key) == q
  {
    if c != [] && c[0].key != key {
      RawPutQuantity(c[1..], key, q);
    }
  }

  /**
   * The phone with 5 in stock: adding 5 as "7" and then 5 as "07" both pass,
   * the cart page then lists 10 units of it, and the order checkout would
   * write has two lines for the same product, which the (order, product)
   * uniqueness constraint refuses after the order row, the first line and the
   * first stock decrement are already saved.
   */
  lemma AliasedAddsExceedStock()
    ensures var products := map[7 := Product("Phone", 99999, 5, true)];
      var c1 := RawAdded([], "7", 5);
      var c2 := RawAdded(c1, "07", 5);
      && RawAddCheck(products, [], "7", 5) == None
      && RawAddCheck(products, c1, "07", 5) == None
      && AllKeysDigits(c2)
      && Coerced(c2) == [CartEntry(7, 5), CartEntry(7, 5)]
      && CountOf(Materialized(Coerced(c2), products)) == 10 > products[7].stock
      && !DistinctProducts(LinesOf(Materialized(Coerced(c2), products)))
  {
    var products := map[7 := Product("Phone", 99999, 5, true)];
    var c1 := RawAdded([], "7", 5);
    var c2 := RawAdded(c1, "07", 5);
    assert DecimalValue("7") == 7;
    assert DecimalValue("07") == 7 by { assert "07"[..1] == "0"; }
    assert c1 == [RawEntry("7", 5)];
    assert c2 == [RawEntry("7", 5), RawEntry("07", 5)];
    var item := CartItem(7, products[7], 5, 99999, 499995);
    assert Coerced(c2) == [CartEntry(7, 5), CartEntry(7, 5)];
    var listed := Materialized(Coerced(c2), products);
    assert Materialized([CartEntry(7, 5)], products) == [item];
    assert Coerced(c2)[1..] == [CartEntry(7, 5)];
    assert listed == [item, item];
    assert listed[1..] == [item] && listed[1..][1..] == [];
    assert CountOf(listed[1..]) == 5;
    assert CountOf(listed) == 10;
    assert LinesOf(listed)[0].product == LinesOf(listed)[1].product;
  }

  /**
   * With the key coerced before it is stored, as the rest of the model does,
   * two adds under any two spellings of one id hold at most the stock.
   */
  lemma CanonicalAddIsCapped(products: ProductTable, c: Cart, k1: string, k2: string, q1: int, q2: int)
    requires AllDigits(k1) && AllDigits(k2) && DecimalValue(k1) == DecimalValue(k2)
    requires AddCheck(products, c, DecimalValue(k1), q1) == None
    requires AddCheck(products, Added(c, DecimalValue(k1), q1), DecimalValue(k2), q2) == None
    ensures var pid := DecimalValue(k1);
      Quantity(Added(Added(c, pid, q1), pid, q2), pid) == Quantity(c, pid) + q1 + q2 <= products[pid].stock
  {
    var pid := DecimalValue(k1);
    AddKeepsWithinStock(products, c, pid, q1);
    AddKeepsWithinStock(products, Added(c, pid, q1), pid, q2);
  }

  /** The phone again, with coerced keys: the second add, spelled "07", is refused with "Only 5 items available". */
  lemma CanonicalRejectsAlias()
    ensures var products := map[7 := Product("Phone", 99999, 5, true)];
      && AddCheck(products, [], DecimalValue("7"), 5) == None
      && AddCheck(products, Added([], DecimalValue("7"), 5), DecimalValue("07"), 5) == Some(OnlyAvailable(5))
  {
    assert DecimalValue("7") == 7;
    assert DecimalValue("07") == 7 by { assert "07"[..1] == "0"; }
    assert Added([], 7, 5) == [CartEntry(7, 5)];
  }
}
