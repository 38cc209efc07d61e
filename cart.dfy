/**
 * The cart of the shopping assistant as a value: the module-level `cart` dict of
 * `app.py`, keyed by product key, in insertion order. `keys` is that order and
 * `entries` the dict's contents; the session class in `session.dfy` holds the
 * same two parts as fields and updates them in place.
 */
module CartModel {
  import opened Wrappers

  /** One cart line: `{'quantity': ..., 'color': ..., 'price': ...}`. */
  datatype Entry = Entry(quantity: int, color: string, price: real)

  datatype Cart = Cart(keys: seq<string>, entries: map<string, Entry>)

  /** No key is listed twice. */
  predicate Distinct(keys: seq<string>)
  {
    keys == [] || (keys[0] !in keys[1..] && Distinct(keys[1..]))
  }

  /** A key that is not listed yet can be appended. */
  lemma {:induction false} DistinctAppend(keys: seq<string>, key: string)
    requires Distinct(keys) && key !in keys
    ensures Distinct(keys + [key])
  {
    if keys != [] {
      assert (keys + [key])[1..] == keys[1..] + [key];
      DistinctAppend(keys[1..], key);
    }
  }

  /** Each key is listed once, and the listed keys are exactly the dict's keys. */
  ghost predicate Valid(c: Cart)
  {
    Distinct(c.keys) && forall k :: k in c.entries <==> k in c.keys
  }

  const Empty: Cart := Cart([], map[])

  /** The cart key of an item: the name, or `"name (attributes)"` when there are attributes. */
  function Key(name: string, attributes: string): (key: string)
    ensures name <= key
    ensures key == name <==> attributes == ""
    ensures attributes != "" ==> key[|name|..] == " (" + attributes + ")"
  {
    if attributes == "" then name else name + " (" + attributes + ")"
  }

  /**
   * Lines 329-332: an existing key gains `quantity` and keeps its colour and price;
   * a new key is appended with the given quantity, colour and price.
   */
  function Insert(c: Cart, key: string, quantity: int, color: string, price: real): (d: Cart)
    requires Valid(c)
    ensures Valid(d)
    ensures d.entries.Keys == c.entries.Keys + {key}
    ensures key in c.entries ==> d.keys == c.keys
                                 && d.entries[key] == c.entries[key].(quantity := c.entries[key].quantity + quantity)
    ensures key !in c.entries ==> d.keys == c.keys + [key] && d.entries[key] == Entry(quantity, color, price)
    ensures forall k :: k in c.entries && k != key ==> d.entries[k] == c.entries[k]
  {
    if key in c.entries then
      Cart(c.keys, c.entries[key := c.entries[key].(quantity := c.entries[key].quantity + quantity)])
    else
      DistinctAppend(c.keys, key);
      Cart(c.keys + [key], c.entries[key := Entry(quantity, color, price)])
  }

  /** `keys` without `key`, order kept. */
  function Without(keys: seq<string>, key: string): (r: seq<string>)
    ensures forall k :: k in r <==> k in keys && k != key
    ensures Distinct(keys) ==> Distinct(r)
  {
    if keys == [] then []
    else if keys[0] == key then Without(keys[1..], key)
    else [keys[0]] + Without(keys[1..], key)
  }

  /** Removing a key listed once keeps the keys before it and after it, in order. */
  lemma {:induction false} WithoutOnce(before: seq<string>, key: string, after: seq<string>)
    requires key !in before + after
    ensures Without(before + [key] + after, key) == before + after
  {
    if before == [] {
      assert [key] + after == before + [key] + after;
      assert ([key] + after)[1..] == after;
      WithoutAbsent(after, key);
    } else {
      assert (before + [key] + after)[1..] == before[1..] + [key] + after;
      WithoutOnce(before[1..], key, after);
      assert before + after == [before[0]] + (before[1..] + after);
    }
  }

  /** Line 357, `del cart[key]`: the entry leaves the dict and the order. */
  function Delete(c: Cart, key: string): (d: Cart)
    requires Valid(c) && key in c.entries
    ensures Valid(d) && d.keys == Without(c.keys, key)
    ensures d.entries.Keys == c.entries.Keys - {key}
    ensures forall k :: k in d.entries ==> d.entries[k] == c.entries[k]
  {
    Cart(Without(c.keys, key), c.entries - {key})
  }

  /** Line 361: the entry's quantity drops by `amount`; nothing else changes. */
  function Decrement(c: Cart, key: string, amount: int): (d: Cart)
    requires Valid(c) && key in c.entries
    ensures Valid(d) && d.keys == c.keys
    ensures d.entries[key] == c.entries[key].(quantity := c.entries[key].quantity - amount)
    ensures forall k :: k in c.entries && k != key ==> k in d.entries && d.entries[k] == c.entries[k]
  {
    Cart(c.keys, c.entries[key := c.entries[key].(quantity := c.entries[key].quantity - amount)])
  }

  /** The position of the first key that starts with `name`: the scan at lines 345-349. */
  function FirstMatch(keys: seq<string>, name: string): (r: Option<nat>)
    ensures r.Some? ==> r.value < |keys| && name <= keys[r.value]
                        && forall j :: 0 <= j < r.value ==> !(name <= keys[j])
    ensures r.None? ==> forall j :: 0 <= j < |keys| ==> !(name <= keys[j])
  {
    if keys == [] then None
    else if name <= keys[0] then Some(0)
    else match FirstMatch(keys[1..], name)
      case None => None
      case Some(i) => Some(i + 1)
  }

  predicate Covers(keys: seq<string>, entries: map<string, Entry>)
  {
    forall k :: k in keys ==> k in entries
  }

  function SumQuantity(keys: seq<string>, entries: map<string, Entry>): int
    requires Covers(keys, entries)
  {
    if keys == [] then 0 else entries[keys[0]].quantity + SumQuantity(keys[1..], entries)
  }

  /** One line's share of the total, quantity times price. */
  function LineTotal(e: Entry): real
  {
    e.quantity as real * e.price
  }

  lemma LineAdd(e: Entry, n: int)
    ensures LineTotal(e.(quantity := e.quantity + n)) == LineTotal(e) + n as real * e.price
  {
  }

  lemma LineSub(e: Entry, n: int)
    ensures LineTotal(e.(quantity := e.quantity - n)) == LineTotal(e) - n as real * e.price
  {
  }

  function SumPrice(keys: seq<string>, entries: map<string, Entry>): real
    requires Covers(keys, entries)
  {
    if keys == [] then 0.0
    else LineTotal(entries[keys[0]]) + SumPrice(keys[1..], entries)
  }

  /** Line 409: the number of items, the sum of the quantities. */
  function TotalItems(c: Cart): int
    requires Valid(c)
  {
    SumQuantity(c.keys, c.entries)
  }

  /** Lines 337 and 410: the cart total, the sum of quantity times price. */
  function TotalPrice(c: Cart): real
    requires Valid(c)
  {
    SumPrice(c.keys, c.entries)
  }

  /** Sums read only the entries of the listed keys. */
  lemma {:induction false} SumsFrame(keys: seq<string>, m1: map<string, Entry>, m2: map<string, Entry>)
    requires Covers(keys, m1) && Covers(keys, m2)
    requires forall k :: k in keys ==> m1[k] == m2[k]
    ensures SumQuantity(keys, m1) == SumQuantity(keys, m2)
    ensures SumPrice(keys, m1) == SumPrice(keys, m2)
  {
    if keys != [] {
      SumsFrame(keys[1..], m1, m2);
    }
  }

  /** Sums over a concatenation add up. */
  lemma {:induction false} SumsConcat(a: seq<string>, b: seq<string>, m: map<string, Entry>)
    requires Covers(a, m) && Covers(b, m)
    ensures Covers(a + b, m)
    ensures SumQuantity(a + b, m) == SumQuantity(a, m) + SumQuantity(b, m)
    ensures SumPrice(a + b, m) == SumPrice(a, m) + SumPrice(b, m)
  {
    if a != [] {
      assert (a + b)[1..] == a[1..] + b;
      SumsConcat(a[1..], b, m);
    } else {
      assert a + b == b;
    }
  }

  /** A key listed once contributes once: replacing its entry changes the sums by the difference. */
  lemma {:induction false} SumsUpdate(keys: seq<string>, m: map<string, Entry>, key: string, e: Entry)
    requires Covers(keys, m) && Distinct(keys) && key in keys
    ensures Covers(keys, m[key := e])
    ensures SumQuantity(keys, m[key := e]) == SumQuantity(keys, m) - m[key].quantity + e.quantity
    ensures SumPrice(keys, m[key := e])
            == SumPrice(keys, m) - LineTotal(m[key]) + LineTotal(e)
  {
    if keys[0] == key {
      SumsFrame(keys[1..], m, m[key := e]);
    } else {
      SumsUpdate(keys[1..], m, key, e);
    }
  }

  /** Dropping a key listed once removes exactly its contribution. */
  lemma {:induction false} SumsWithout(keys: seq<string>, m: map<string, Entry>, key: string)
    requires Covers(keys, m) && Distinct(keys) && key in keys
    ensures Covers(Without(keys, key), m - {key})
    ensures SumQuantity(Without(keys, key), m - {key}) == SumQuantity(keys, m) - m[key].quantity
    ensures SumPrice(Without(keys, key), m - {key})
            == SumPrice(keys, m) - LineTotal(m[key])
  {
    if keys[0] == key {
      WithoutAbsent(keys[1..], key);
      SumsFrame(keys[1..], m, m - {key});
    } else {
      var rest := Without(keys[1..], key);
      SumsWithout(keys[1..], m, key);
      assert Without(keys, key) == [keys[0]] + rest;
      assert ([keys[0]] + rest)[1..] == rest;
    }
  }

  lemma {:induction false} WithoutAbsent(keys: seq<string>, key: string)
    requires key !in keys
    ensures Without(keys, key) == keys
  {
    if keys != [] {
      WithoutAbsent(keys[1..], key);
    }
  }

  lemma ExistingTotals(c: Cart, key: string, quantity: int)
    requires Valid(c) && key in c.entries
    ensures var d := Insert(c, key, quantity, "", 0.0);
            && TotalItems(d) == TotalItems(c) + quantity
            && TotalPrice(d) == TotalPrice(c) + quantity as real * c.entries[key].price
  {
    var before := c.entries[key];
    var e := before.(quantity := before.quantity + quantity);
    var d := Insert(c, key, quantity, "", 0.0);
    assert d == Cart(c.keys, c.entries[key := e]);
    assert key in c.keys;
    SumsUpdate(c.keys, c.entries, key, e);
    LineAdd(before, quantity);
  }

  lemma NewTotals(c: Cart, key: string, quantity: int, color: string, price: real)
    requires Valid(c) && key !in c.entries
    ensures var d := Insert(c, key, quantity, color, price);
            && TotalItems(d) == TotalItems(c) + quantity
            && TotalPrice(d) == TotalPrice(c) + quantity as real * price
  {
    var m := c.entries[key := Entry(quantity, color, price)];
    var d := Insert(c, key, quantity, color, price);
    assert d == Cart(c.keys + [key], m);
    assert Covers(c.keys, m) && SumQuantity(c.keys, m) == SumQuantity(c.keys, c.entries)
           && SumPrice(c.keys, m) == SumPrice(c.keys, c.entries) by {
      assert key !in c.keys;
      SumsFrame(c.keys, c.entries, m);
    }
    assert SumQuantity([key], m) == quantity && SumPrice([key], m) == LineTotal(m[key]) by {
      assert [key][1..] == [];
    }
    SumsConcat(c.keys, [key], m);
  }

  /** Adding `quantity` items raises the count by `quantity` and the total by their price as stored. */
  lemma InsertTotals(c: Cart, key: string, quantity: int, color: string, price: real)
    requires Valid(c)
    ensures TotalItems(Insert(c, key, quantity, color, price)) == TotalItems(c) + quantity
    ensures TotalPrice(Insert(c, key, quantity, color, price))
            == TotalPrice(c) + quantity as real * Insert(c, key, quantity, color, price).entries[key].price
  {
    if key in c.entries {
      ExistingTotals(c, key, quantity);
    } else {
      NewTotals(c, key, quantity, color, price);
    }
  }

  /** Deleting an entry removes its quantity from the count and its line total from the total. */
  lemma DeleteTotals(c: Cart, key: string)
    requires Valid(c) && key in c.entries
    ensures TotalItems(Delete(c, key)) == TotalItems(c) - c.entries[key].quantity
    ensures TotalPrice(Delete(c, key)) == TotalPrice(c) - c.entries[key].quantity as real * c.entries[key].price
  {
    SumsWithout(c.keys, c.entries, key);
  }

  /** Taking `amount` off an entry lowers the count by `amount` and the total by `amount` times its price. */
  lemma DecrementTotals(c: Cart, key: string, amount: int)
    requires Valid(c) && key in c.entries
    ensures TotalItems(Decrement(c, key, amount)) == TotalItems(c) - amount
    ensures TotalPrice(Decrement(c, key, amount)) == TotalPrice(c) - amount as real * c.entries[key].price
  {
    var before := c.entries[key];
    var e := before.(quantity := before.quantity - amount);
    var d := Decrement(c, key, amount);
    assert d == Cart(c.keys, c.entries[key := e]);
    assert key in c.keys;
    SumsUpdate(c.keys, c.entries, key, e);
    LineSub(before, amount);
  }
}
