/**
 * The inner `try` of the `/submit` handler (`app.py` lines 297-370) as a function
 * of the cart and the model's reply: the reply is cleaned, decoded, read as an
 * `add` or `remove` action or else shown as it is, and the cart changes accordingly.
 *
 * `json.loads` is the parameter `decode` (None for a JSONDecodeError) and MD5 the
 * parameter `md5`. Python's dynamic typing is followed where the outcome is an
 * exception: a TypeError is caught at line 368 and shows the reply verbatim, an
 * AttributeError escapes to the handler at lines 483-487. Where Python would
 * instead carry on with values of another type (a float quantity, a number as a
 * name), the result is `Beyond`: those runs are not modelled.
 */
module Interpret {
  import opened Wrappers
  import opened Text
  import opened JsonValue
  import opened Colors
  import opened CartModel
  import opened Reply

  /** How the handling of a reply ended when it did not produce a chat message of its own. */
  datatype Failure =
    | Caught  // TypeError: caught at line 368, the reply is shown as it is
    | Raised  // AttributeError: escapes to the outer handler of the request
    | Beyond  // Python goes on with duck-typed values that this model does not represent

  /** A step that either produced a value or stopped with a failure. */
  datatype Step<T> = Done(value: T) | Stop(failure: Failure)

  /** One `"{quantity} {key}"` fragment of the add summary. */
  datatype Fragment = Fragment(quantity: Json, key: string)

  /** The chat message of a handled reply, before it is formatted as text. */
  datatype Message =
    | Verbatim(text: string)                                      // lines 366 and 370
    | Added(fragments: seq<Fragment>, total: real)                // line 338
    | RemovedAll(key: string)                                     // line 358
    | RemovedSome(requested: Json, key: string, remaining: int)   // line 362
    | NotFound(name: Json)                                        // line 364

  datatype Outcome = Said(message: Message) | Failed(failure: Failure)

  /** The cart after a reply, and how the handling ended. */
  datatype Handled = Handled(cart: Cart, outcome: Outcome)

  /** Line 320: a colour that is empty, blank or only `#` counts as missing. */
  predicate Blank(color: string)
  {
    Strip(color) == "" || Strip(color) == "#"
  }

  /**
   * Lines 316-321: a usable colour string is kept as given; a missing one is
   * derived from the product name.
   */
  function ResolveColor(name: Json, color: Json, md5: string -> Rgb): (r: Step<string>)
    ensures color.JStr? && !Blank(color.s) ==> r == Done(color.s)
    ensures (!Truthy(color) || (color.JStr? && Blank(color.s))) && name.JStr?
            ==> r == Done(GenerateColor(name.s, md5))
    ensures (!Truthy(color) || (color.JStr? && Blank(color.s))) && !name.JStr? ==> r == Stop(Raised)
    ensures Truthy(color) && !color.JStr? ==> r == Stop(Raised)
  {
    if !Truthy(color) || (color.JStr? && Blank(color.s)) then
      if name.JStr? then Done(GenerateColor(name.s, md5))
      else Stop(Raised)  // `title.encode()` on a non-string
    else if color.JStr? then Done(color.s)
    else Stop(Raised)    // `color.strip()` on a non-string
  }

  /** Line 326: the key is the name, with the attributes in parentheses when there are any. */
  function ItemKey(name: Json, attributes: Json): (r: Step<string>)
    ensures name.JStr? && attributes.JStr? ==> r == Done(Key(name.s, attributes.s))
    ensures name.JStr? && !Truthy(attributes) ==> r == Done(name.s)
  {
    if Truthy(attributes) then
      if name.JStr? && attributes.JStr? then Done(Key(name.s, attributes.s))
      else Stop(Beyond)  // `str()` of a value that is not a string
    else if name.JStr? then Done(name.s)
    else if name.JArr? || name.JObj? then Stop(Caught)  // unhashable key at `cart_key in cart`
    else Stop(Beyond)    // a key that is not a string
  }

  /** An item with its key and resolved colour, before it meets the cart. */
  datatype Item = Item(key: string, quantity: Json, color: string, price: Json)

  /** Lines 314-326: the fields of one element of `items`, with their defaults. */
  function DecodeItem(item: Json, md5: string -> Rgb): (r: Step<Item>)
    ensures !item.JObj? ==> r == Stop(Raised)
  {
    if !item.JObj? then Stop(Raised)  // `item.get` on a non-dict
    else
      var name := Get(item.fields, "name", JStr("Unknown"));
      var quantity := Get(item.fields, "quantity", JInt(1));
      var color := Get(item.fields, "color", JStr(""));
      var price := Get(item.fields, "price", JFloat(0.0));
      match ResolveColor(name, color, md5)
      case Stop(f) => Stop(f)
      case Done(resolved) =>
        match ItemKey(name, Get(item.fields, "attributes", JStr("")))
        case Stop(f) => Stop(f)
        case Done(key) => Done(Item(key, quantity, resolved, price))
  }

  /** Python's numeric view of a JSON number, for the `price` of a new entry. */
  function Number(v: Json): Option<real>
  {
    match v
    case JInt(i) => Some(i as real)
    case JFloat(x) => Some(x)
    case _ => None
  }

  /**
   * Lines 329-334: the item meets the cart. An existing key only gains the
   * quantity; a new key is inserted with quantity, colour and price.
   */
  function Place(c: Cart, item: Item): (r: Step<(Cart, Fragment)>)
    requires Valid(c)
    ensures r.Done? ==> Valid(r.value.0) && r.value.1 == Fragment(item.quantity, item.key)
    ensures r.Done? ==> c.keys <= r.value.0.keys
    ensures r.Done? ==> forall k :: k in c.entries ==> (k in r.value.0.entries
                                   && r.value.0.entries[k].color == c.entries[k].color
                                   && r.value.0.entries[k].price == c.entries[k].price)
  {
    if item.key in c.entries then
      match item.quantity
      case JInt(n) => Done((Insert(c, item.key, n, item.color, 0.0), Fragment(item.quantity, item.key)))
      case JBool(b) => Done((Insert(c, item.key, if b then 1 else 0, item.color, 0.0), Fragment(item.quantity, item.key)))
      case JFloat(_) => Stop(Beyond)  // the quantity becomes a float
      case _ => Stop(Caught)          // int + None, str, list or dict
    else
      match (item.quantity, Number(item.price))
      case (JInt(n), Some(p)) => Done((Insert(c, item.key, n, item.color, p), Fragment(item.quantity, item.key)))
      case _ => Stop(Beyond)  // a stored quantity or price of another type
  }

  /** The state of the add loop: the cart, the fragments so far, and the failure that ended it, if any. */
  datatype AddRun = AddRun(cart: Cart, fragments: seq<Fragment>, stop: Option<Failure>)

  /**
   * Lines 313-334 from the element at index `from` on: each element is decoded
   * and placed in order; the first failure, in decoding or in placing, ends the
   * loop, and the items placed before it stay in the cart.
   */
  function AddFrom(c: Cart, items: seq<Json>, from: nat, md5: string -> Rgb): (run: AddRun)
    requires Valid(c) && from <= |items|
    ensures Valid(run.cart)
    decreases |items| - from, 1
  {
    if from == |items| then AddRun(c, [], None) else AddNext(c, items, from, md5)
  }

  /** One pass of the loop of lines 313-334, on the element at index `from`, then the rest of the loop. */
  function AddNext(c: Cart, items: seq<Json>, from: nat, md5: string -> Rgb): (run: AddRun)
    requires Valid(c) && from < |items|
    ensures Valid(run.cart)
    decreases |items| - from, 0
  {
    match DecodeItem(items[from], md5)
    case Stop(f) => AddRun(c, [], Some(f))
    case Done(item) =>
      match Place(c, item)
      case Stop(f) => AddRun(c, [], Some(f))
      case Done(placed) =>
        var rest := AddFrom(placed.0, items, from + 1, md5);
        AddRun(rest.cart, [placed.1] + rest.fragments, rest.stop)
  }

  /** Lines 313-334: the add loop over the elements of `items`. */
  function AddItems(c: Cart, items: seq<Json>, md5: string -> Rgb): (run: AddRun)
    requires Valid(c)
    ensures Valid(run.cart)
  {
    AddFrom(c, items, 0, md5)
  }

  /**
   * The add summary has at most one fragment per element, and exactly one per
   * element when no element failed.
   */
  lemma {:induction false} AddFromCount(c: Cart, items: seq<Json>, from: nat, md5: string -> Rgb)
    requires Valid(c) && from <= |items|
    ensures var run := AddFrom(c, items, from, md5);
            |run.fragments| <= |items| - from && (run.stop.None? ==> |run.fragments| == |items| - from)
    decreases |items| - from
  {
    if from < |items| {
      var decoded := DecodeItem(items[from], md5);
      if decoded.Done? && Place(c, decoded.value).Done? {
        var placed := Place(c, decoded.value).value;
        AddFromCount(placed.0, items, from + 1, md5);
        var rest := AddFrom(placed.0, items, from + 1, md5);
        assert |[placed.1] + rest.fragments| == 1 + |rest.fragments|;
      }
    }
  }

  /**
   * The add loop never drops or reorders a key, and keys already in the cart
   * keep their colour and price.
   */
  lemma {:induction false} AddFromKeeps(c: Cart, items: seq<Json>, from: nat, md5: string -> Rgb)
    requires Valid(c) && from <= |items|
    ensures var run := AddFrom(c, items, from, md5);
            && c.keys <= run.cart.keys
            && forall k :: k in c.entries ==> (k in run.cart.entries
                                    && run.cart.entries[k].color == c.entries[k].color
                                    && run.cart.entries[k].price == c.entries[k].price)
    decreases |items| - from
  {
    if from < |items| {
      var decoded := DecodeItem(items[from], md5);
      if decoded.Done? && Place(c, decoded.value).Done? {
        var placed := Place(c, decoded.value).value;
        AddFromKeeps(placed.0, items, from + 1, md5);
        assert AddFrom(c, items, from, md5).cart == AddFrom(placed.0, items, from + 1, md5).cart;
      }
    }
  }

  /** The whole add loop: one fragment per element unless it stopped, and no key lost. */
  lemma AddItemsShape(c: Cart, items: seq<Json>, md5: string -> Rgb)
    requires Valid(c)
    ensures var run := AddItems(c, items, md5);
            && |run.fragments| <= |items|
            && (run.stop.None? ==> |run.fragments| == |items|)
            && c.keys <= run.cart.keys
  {
    AddFromCount(c, items, 0, md5);
    AddFromKeeps(c, items, 0, md5);
  }

  /**
   * Lines 345-349: the first key, in insertion order, that starts with the name.
   * There is one exactly when some key of the cart starts with the name.
   */
  function Lookup(c: Cart, name: string): (found: Option<string>)
    requires Valid(c)
    ensures found.Some? ==> found.value in c.entries && name <= found.value
    ensures found.Some? ==> exists i :: 0 <= i < |c.keys| && c.keys[i] == found.value
                                        && forall j :: 0 <= j < i ==> !(name <= c.keys[j])
    ensures found.None? <==> forall k :: k in c.entries ==> !(name <= k)
  {
    match FirstMatch(c.keys, name)
    case Some(i) => Some(c.keys[i])
    case None =>
      assert forall k :: k in c.entries ==> !(name <= k) by {
        forall k | k in c.entries ensures !(name <= k) {
          var j :| 0 <= j < |c.keys| && c.keys[j] == k;
        }
      }
      None
  }

  /** The as-written test at line 352, `if found_key:`, which an empty key fails. */
  predicate FoundAsWritten(found: Option<string>)
  {
    found.Some? && found.value != ""
  }

  /** The evidently intended test: a key was found. */
  predicate Found(found: Option<string>)
  {
    found.Some?
  }

  /** Lines 353-362 once a key is found: delete the entry, or lower its quantity by `amount`. */
  function Reduce(c: Cart, key: string, amount: int, requested: Json): (r: (Cart, Message))
    requires Valid(c) && key in c.entries
    ensures Valid(r.0)
    ensures amount == 0 || amount >= c.entries[key].quantity
            ==> r.0 == Delete(c, key) && key !in r.0.entries && r.1 == RemovedAll(key)
    ensures !(amount == 0 || amount >= c.entries[key].quantity)
            ==> r.0 == Decrement(c, key, amount) && r.0.entries[key].quantity >= 1
                && r.1 == RemovedSome(requested, key, r.0.entries[key].quantity)
  {
    var current := c.entries[key].quantity;
    if amount == 0 || amount >= current then (Delete(c, key), RemovedAll(key))
    else (Decrement(c, key, amount), RemovedSome(requested, key, current - amount))
  }

  /**
   * Lines 353-362 with the requested quantity as Python compares it: a boolean
   * counts as 0 or 1, a float deletes or else turns the quantity into a float,
   * and any other value fails the comparison with a TypeError.
   */
  function RemoveFound(c: Cart, key: string, requested: Json): (r: Step<(Cart, Message)>)
    requires Valid(c) && key in c.entries
    ensures r.Done? ==> Valid(r.value.0) && (r.value.1.RemovedAll? || r.value.1.RemovedSome?)
    ensures requested.JInt? ==> r == Done(Reduce(c, key, requested.i, requested))
    ensures requested.JBool? ==> r == Done(Reduce(c, key, if requested.b then 1 else 0, requested))
    ensures requested.JFloat? && (requested.x == 0.0 || requested.x >= c.entries[key].quantity as real)
            ==> r == Done((Delete(c, key), RemovedAll(key)))
    ensures requested.JFloat? && !(requested.x == 0.0 || requested.x >= c.entries[key].quantity as real)
            ==> r == Stop(Beyond)
    ensures !(requested.JInt? || requested.JBool? || requested.JFloat?) ==> r == Stop(Caught)
  {
    match requested
    case JInt(n) => Done(Reduce(c, key, n, requested))
    case JBool(b) => Done(Reduce(c, key, if b then 1 else 0, requested))
    case JFloat(x) =>
      if x == 0.0 || x >= c.entries[key].quantity as real then Done((Delete(c, key), RemovedAll(key)))
      else Stop(Beyond)  // the quantity becomes a float
    case _ => Stop(Caught)  // None, str, list or dict compared with an int
  }

  /** Lines 341-364 as written, with the test `if found_key:` of line 352. */
  function RemoveItemAsWritten(c: Cart, name: Json, requested: Json): (r: Step<(Cart, Message)>)
    requires Valid(c)
    ensures r.Done? ==> Valid(r.value.0)
    ensures r.Stop? ==> r.failure != Raised
    ensures c.keys != [] && !name.JStr? ==> r == Stop(Caught)
    ensures name.JStr? && FoundAsWritten(Lookup(c, name.s))
            ==> r == RemoveFound(c, Lookup(c, name.s).value, requested)
    ensures name.JStr? && !FoundAsWritten(Lookup(c, name.s)) ==> r == Done((c, NotFound(name)))
  {
    if c.keys == [] then Done((c, NotFound(name)))
    else if !name.JStr? then Stop(Caught)  // `key.startswith` of a non-string
    else
      var found := Lookup(c, name.s);
      if FoundAsWritten(found) then RemoveFound(c, found.value, requested)
      else Done((c, NotFound(name)))
  }

  /**
   * Lines 341-364 with the test of line 352 as intended: the first key in
   * insertion order that starts with the name is the target, even the empty key.
   */
  function RemoveItem(c: Cart, name: Json, requested: Json): (r: Step<(Cart, Message)>)
    requires Valid(c)
    ensures r.Done? ==> Valid(r.value.0)
    ensures r.Stop? ==> r.failure != Raised
    ensures c.keys != [] && !name.JStr? ==> r == Stop(Caught)
    ensures name.JStr? && Lookup(c, name.s).Some?
            ==> r == RemoveFound(c, Lookup(c, name.s).value, requested)
    ensures name.JStr? && Lookup(c, name.s).None? ==> r == Done((c, NotFound(name)))
  {
    if c.keys == [] then Done((c, NotFound(name)))
    else if !name.JStr? then Stop(Caught)  // `key.startswith` of a non-string
    else
      var found := Lookup(c, name.s);
      if Found(found) then RemoveFound(c, found.value, requested)
      else Done((c, NotFound(name)))
  }

  /** A stopped step in the handler: a caught TypeError shows the reply itself. */
  function Conclude(c: Cart, failure: Failure, response: string): Handled
  {
    if failure == Caught then Handled(c, Said(Verbatim(response))) else Handled(c, Failed(failure))
  }

  /** Lines 308-338: an `add` action with the given `items` value. */
  function HandleAdd(c: Cart, items: Json, response: string, md5: string -> Rgb): (h: Handled)
    requires Valid(c)
    ensures Valid(h.cart)
    ensures h.outcome.Failed? ==> h.outcome.failure != Caught
    ensures h.outcome.Said? && h.outcome.message.Added? ==> h.outcome.message.total == TotalPrice(h.cart)
    ensures h.outcome.Said? && h.outcome.message.Verbatim? ==> h.outcome.message.text == response
    ensures Iterate(items).None? ==> h == Handled(c, Said(Verbatim(response)))
    ensures Iterate(items).Some? ==>
              var run := AddItems(c, Iterate(items).value, md5);
              && h.cart == run.cart
              && (run.stop.None? ==> h.outcome == Said(Added(run.fragments, TotalPrice(run.cart))))
              && (run.stop == Some(Caught) ==> h.outcome == Said(Verbatim(response)))
              && (run.stop.Some? && run.stop.value != Caught ==> h.outcome == Failed(run.stop.value))
  {
    match Iterate(items)
    case None => Handled(c, Said(Verbatim(response)))  // items is not iterable
    case Some(elems) =>
      var run := AddItems(c, elems, md5);
      match run.stop
      case None => Handled(run.cart, Said(Added(run.fragments, TotalPrice(run.cart))))
      case Some(f) => Conclude(run.cart, f, response)
  }

  /** Lines 340-364: a `remove` action with the given `name` and `quantity` values. */
  function HandleRemove(c: Cart, name: Json, requested: Json, response: string): (h: Handled)
    requires Valid(c)
    ensures Valid(h.cart)
    ensures h.outcome.Failed? ==> h.outcome.failure == Beyond
    ensures h.outcome.Said? && h.outcome.message.Verbatim? ==> h.outcome.message.text == response
    ensures name.JStr? && Lookup(c, name.s).None? ==> h == Handled(c, Said(NotFound(name)))
    ensures var r := RemoveItem(c, name, requested);
            && (r.Done? ==> h == Handled(r.value.0, Said(r.value.1)))
            && (r == Stop(Caught) ==> h == Handled(c, Said(Verbatim(response))))
            && (r.Stop? && r.failure != Caught ==> h == Handled(c, Failed(r.failure)))
  {
    match RemoveItem(c, name, requested)
    case Done((d, message)) => Handled(d, Said(message))
    case Stop(f) => Conclude(c, f, response)
  }

  /**
   * Lines 306-370 once the cleaned reply went through `json.loads`: `decoded` is
   * None for a JSONDecodeError, and `response` is the reply as received.
   */
  function Act(c: Cart, decoded: Option<Json>, response: string, md5: string -> Rgb): (h: Handled)
    requires Valid(c)
    ensures Valid(h.cart)
    ensures h.outcome.Failed? ==> h.outcome.failure != Caught
    ensures decoded.None? ==> h == Handled(c, Said(Verbatim(response)))
    ensures decoded.Some? && !decoded.value.JObj? ==> h == Handled(c, Failed(Raised))
    ensures decoded.Some? && decoded.value.JObj?
            && Get(decoded.value.fields, "action", JNull) !in {JStr("add"), JStr("remove")}
            ==> h == Handled(c, Said(Verbatim(response)))
  {
    match decoded
    case None => Handled(c, Said(Verbatim(response)))
    case Some(data) =>
      if !data.JObj? then Handled(c, Failed(Raised))  // `response_data.get` on a non-dict
      else
        var action := Get(data.fields, "action", JNull);
        if action == JStr("add") then
          HandleAdd(c, Get(data.fields, "items", JArr([])), response, md5)
        else if action == JStr("remove") then
          HandleRemove(c, Get(data.fields, "name", JStr("Unknown")), Get(data.fields, "quantity", JInt(0)), response)
        else Handled(c, Said(Verbatim(response)))
  }

  /** Lines 297-370: the cart and the outcome after the reply `response`. */
  function Interpret(c: Cart, response: string, decode: string -> Option<Json>, md5: string -> Rgb): (h: Handled)
    requires Valid(c)
    ensures Valid(h.cart)
    ensures h.outcome.Failed? ==> h.outcome.failure != Caught
  {
    Act(c, decode(CleanReply(response)), response, md5)
  }

  /** The number of items a stored quantity stands for: Python adds a boolean as 0 or 1. */
  function Units(quantity: Json): int
  {
    match quantity
    case JInt(n) => n
    case JBool(b) => if b then 1 else 0
    case _ => 0
  }

  /** The number of items the fragments of an add summary stand for. */
  function AddedUnits(fragments: seq<Fragment>): int
  {
    if fragments == [] then 0 else Units(fragments[0].quantity) + AddedUnits(fragments[1..])
  }

  /** Placing one item adds its quantity to the number of items in the cart. */
  lemma PlaceUnits(c: Cart, item: Item)
    requires Valid(c) && Place(c, item).Done?
    ensures TotalItems(Place(c, item).value.0) == TotalItems(c) + Units(item.quantity)
  {
    var n := Units(item.quantity);
    if item.key in c.entries {
      ExistingTotals(c, item.key, n);
    } else {
      NewTotals(c, item.key, n, item.color, Number(item.price).value);
    }
  }

  /** Adding the elements from `from` on raises the number of items by the quantities reported. */
  lemma {:induction false} AddFromUnits(c: Cart, items: seq<Json>, from: nat, md5: string -> Rgb)
    requires Valid(c) && from <= |items|
    ensures var run := AddFrom(c, items, from, md5);
            TotalItems(run.cart) == TotalItems(c) + AddedUnits(run.fragments)
    decreases |items| - from
  {
    if from < |items| {
      var decoded := DecodeItem(items[from], md5);
      if decoded.Done? && Place(c, decoded.value).Done? {
        var placed := Place(c, decoded.value).value;
        PlaceUnits(c, decoded.value);
        AddFromUnits(placed.0, items, from + 1, md5);
        var rest := AddFrom(placed.0, items, from + 1, md5);
        assert ([placed.1] + rest.fragments)[1..] == rest.fragments;
      }
    }
  }

  /**
   * The add loop raises the number of items in the cart by exactly the
   * quantities it reports, also when it stops part-way.
   */
  lemma AddItemsUnits(c: Cart, items: seq<Json>, md5: string -> Rgb)
    requires Valid(c)
    ensures var run := AddItems(c, items, md5);
            TotalItems(run.cart) == TotalItems(c) + AddedUnits(run.fragments)
  {
    AddFromUnits(c, items, 0, md5);
  }

  /**
   * A removal lowers the number of items by what it reports: the whole
   * quantity of a deleted entry, or the difference to the remaining quantity.
   */
  lemma RemoveUnits(c: Cart, name: Json, requested: Json)
    requires Valid(c) && RemoveItem(c, name, requested).Done?
    ensures var (d, message) := RemoveItem(c, name, requested).value;
            match message
            case RemovedAll(key) => key in c.entries && TotalItems(d) == TotalItems(c) - c.entries[key].quantity
            case RemovedSome(_, key, remaining) =>
              key in c.entries && TotalItems(d) == TotalItems(c) - (c.entries[key].quantity - remaining)
            case NotFound(_) => d == c
            case _ => false
  {
    if c.keys != [] && name.JStr? && Found(Lookup(c, name.s)) {
      var key := Lookup(c, name.s).value;
      var (d, message) := RemoveItem(c, name, requested).value;
      if message.RemovedAll? {
        DeleteTotals(c, key);
      } else {
        var amount := if requested.JBool? then Units(requested) else requested.i;
        DecrementTotals(c, key, amount);
      }
    }
  }

  /** The intended lookup: a name that starts some key of the cart is never reported missing. */
  lemma RemoveFinds(c: Cart, name: string, requested: Json)
    requires Valid(c)
    requires exists k :: k in c.entries && name <= k
    ensures var r := RemoveItem(c, JStr(name), requested);
            r.Done? ==> !r.value.1.NotFound?
  {
    var k :| k in c.entries && name <= k;
    assert k in c.keys;
  }

  /** Where no key is empty, the test of line 352 as written and as intended agree. */
  lemma AsWrittenAgrees(c: Cart, name: Json, requested: Json)
    requires Valid(c) && "" !in c.entries
    ensures RemoveItemAsWritten(c, name, requested) == RemoveItem(c, name, requested)
  {
  }

  /**
   * The test as written misses the empty key: after an item named "" was added,
   * removing "" reports it missing and leaves it in the cart, where the
   * intended test removes it.
   */
  lemma EmptyKeyMissed(color: string, price: real)
    ensures var c := Insert(Empty, "", 1, color, price);
            RemoveItemAsWritten(c, JStr(""), JInt(0)) == Done((c, NotFound(JStr(""))))
            && RemoveItem(c, JStr(""), JInt(0)) == Done((Empty, RemovedAll("")))
  {
    EmptyKeyFound(color, price);
    EmptyKeyRemoved(color, price);
  }

  /** The only key, "", starts with "", so the scan finds it, and the test as written rejects it. */
  lemma EmptyKeyFound(color: string, price: real)
    ensures var c := Insert(Empty, "", 1, color, price);
            Lookup(c, "") == Some("") && RemoveItemAsWritten(c, JStr(""), JInt(0)) == Done((c, NotFound(JStr(""))))
  {
    var c := Insert(Empty, "", 1, color, price);
    assert c.keys == [""];
    assert Lookup(c, "") == Some("");
  }

  /** Removing the whole entry "" leaves the empty cart. */
  lemma EmptyKeyRemoved(color: string, price: real)
    ensures var c := Insert(Empty, "", 1, color, price);
            RemoveItem(c, JStr(""), JInt(0)) == Done((Empty, RemovedAll("")))
  {
    var c := Insert(Empty, "", 1, color, price);
    EmptyKeyFound(color, price);
    assert c.keys == [""];
    assert Without(c.keys, "") == [] by {
      assert [""][1..] == [];
    }
    assert Reduce(c, "", 0, JInt(0)) == (Empty, RemovedAll(""));
  }

  /** An element of `items` with a name, a quantity and a price, and no colour or attributes. */
  function Product(name: string, quantity: int, price: real): Json
  {
    JObj([("name", JStr(name)), ("quantity", JInt(quantity)), ("price", JFloat(price))])
  }

  /** Decoding such an element gives its name as the key and the colour derived from the name. */
  lemma DecodeProduct(name: string, quantity: int, price: real, md5: string -> Rgb)
    ensures DecodeItem(Product(name, quantity, price), md5)
            == Done(Item(name, JInt(quantity), GenerateColor(name, md5), JFloat(price)))
  {
    var fields := Product(name, quantity, price).fields;
    assert LastNamed(fields, "name", 0) by {
      assert fields[1].0 != "name" && fields[2].0 != "name";
    }
    assert LastNamed(fields, "quantity", 1) by {
      assert fields[2].0 != "quantity";
    }
    assert Get(fields, "name", JStr("Unknown")) == JStr(name);
    assert Get(fields, "quantity", JInt(1)) == JInt(quantity);
    assert Get(fields, "color", JStr("")) == JStr("");
    assert Get(fields, "price", JFloat(0.0)) == JFloat(price);
    assert Get(fields, "attributes", JStr("")) == JStr("");
  }

  /** An element with no members: named "Unknown", one of it, free, coloured from the name "Unknown". */
  lemma DecodeDefaults(md5: string -> Rgb)
    ensures DecodeItem(JObj([]), md5) == Done(Item("Unknown", JInt(1), GenerateColor("Unknown", md5), JFloat(0.0)))
  {
  }

  /** An item with an int quantity and a float price meets the cart. */
  lemma PlaceProduct(c: Cart, name: string, quantity: int, color: string, price: real)
    requires Valid(c)
    ensures Place(c, Item(name, JInt(quantity), color, JFloat(price)))
            == Done((Insert(c, name, quantity, color, if name in c.entries then 0.0 else price),
                     Fragment(JInt(quantity), name)))
  {
    var item := Item(name, JInt(quantity), color, JFloat(price));
    if name !in c.entries {
      assert Number(item.price) == Some(price);
    }
  }

  /** A single product added to a valid cart. */
  lemma AddProduct(c: Cart, name: string, quantity: int, price: real, md5: string -> Rgb)
    requires Valid(c)
    ensures var run := AddItems(c, [Product(name, quantity, price)], md5);
            run == AddRun(Insert(c, name, quantity, GenerateColor(name, md5), if name in c.entries then 0.0 else price),
                          [Fragment(JInt(quantity), name)], None)
  {
    var items := [Product(name, quantity, price)];
    var color := GenerateColor(name, md5);
    var placed := Insert(c, name, quantity, color, if name in c.entries then 0.0 else price);
    var fragment := Fragment(JInt(quantity), name);
    DecodeProduct(name, quantity, price, md5);
    assert DecodeItem(items[0], md5) == Done(Item(name, JInt(quantity), color, JFloat(price)));
    PlaceProduct(c, name, quantity, color, price);
    assert AddFrom(placed, items, 1, md5) == AddRun(placed, [], None);
    assert AddNext(c, items, 0, md5) == AddRun(placed, [fragment], None);
  }

  /** The totals of a cart with one entry. */
  lemma SingleTotals(c: Cart)
    requires Valid(c) && |c.keys| == 1
    ensures var e := c.entries[c.keys[0]];
            TotalItems(c) == e.quantity && TotalPrice(c) == e.quantity as real * e.price
  {
    assert c.keys[1..] == [];
    assert SumQuantity(c.keys[1..], c.entries) == 0 && SumPrice(c.keys[1..], c.entries) == 0.0;
  }

  /**
   * Adding a product twice adds up the quantities and keeps the colour and
   * price of the first add: 2 apples at 3.99 and then 3 at 5.00 give 5 apples
   * at 3.99.
   */
  lemma RepeatedAdd(md5: string -> Rgb)
    ensures var first := AddItems(Empty, [Product("Apples", 2, 3.99)], md5);
            var second := AddItems(first.cart, [Product("Apples", 3, 5.0)], md5);
            second.stop == None && second.fragments == [Fragment(JInt(3), "Apples")]
            && second.cart.keys == ["Apples"]
            && second.cart.entries["Apples"] == Entry(5, GenerateColor("Apples", md5), 3.99)
            && TotalPrice(second.cart) == 19.95
  {
    var color := GenerateColor("Apples", md5);
    AddProduct(Empty, "Apples", 2, 3.99, md5);
    var first := Insert(Empty, "Apples", 2, color, 3.99);
    assert first.keys == ["Apples"] && first.entries["Apples"] == Entry(2, color, 3.99);
    AddProduct(first, "Apples", 3, 5.0, md5);
    var second := Insert(first, "Apples", 3, color, 0.0);
    assert second.keys == ["Apples"] && second.entries["Apples"] == Entry(5, color, 3.99);
    SingleTotals(second);
  }

  /**
   * The reply as received only matters where it is shown verbatim: two replies
   * that decode alike change the cart alike and fail alike.
   */
  lemma ActOnDecoded(c: Cart, decoded: Option<Json>, a: string, b: string, md5: string -> Rgb)
    requires Valid(c)
    ensures var x := Act(c, decoded, a, md5);
            var y := Act(c, decoded, b, md5);
            x.cart == y.cart && (x.outcome.Failed? <==> y.outcome.Failed?)
  {
    if decoded.Some? && decoded.value.JObj? {
      var fields := decoded.value.fields;
      var action := Get(fields, "action", JNull);
      if action == JStr("add") {
        HandleAddAlike(c, Get(fields, "items", JArr([])), a, b, md5);
      } else if action == JStr("remove") {
        HandleRemoveAlike(c, Get(fields, "name", JStr("Unknown")), Get(fields, "quantity", JInt(0)), a, b);
      }
    }
  }

  lemma HandleAddAlike(c: Cart, items: Json, a: string, b: string, md5: string -> Rgb)
    requires Valid(c)
    ensures var x := HandleAdd(c, items, a, md5);
            var y := HandleAdd(c, items, b, md5);
            x.cart == y.cart && (x.outcome.Failed? <==> y.outcome.Failed?)
  {
    if Iterate(items).Some? {
      var run := AddItems(c, Iterate(items).value, md5);
      if run.stop.Some? {
        assert HandleAdd(c, items, a, md5) == Conclude(run.cart, run.stop.value, a);
        assert HandleAdd(c, items, b, md5) == Conclude(run.cart, run.stop.value, b);
      }
    }
  }

  lemma HandleRemoveAlike(c: Cart, name: Json, requested: Json, a: string, b: string)
    requires Valid(c)
    ensures var x := HandleRemove(c, name, requested, a);
            var y := HandleRemove(c, name, requested, b);
            x.cart == y.cart && (x.outcome.Failed? <==> y.outcome.Failed?)
  {
  }

  /**
   * Lines 301-304: a reply wrapped in a code fence changes the cart as its body
   * alone would, and fails exactly when the body fails.
   */
  lemma FencedReply(c: Cart, tag: string, body: string, decode: string -> Option<Json>, md5: string -> Rgb)
    requires Valid(c) && '\n' !in tag && !(Fence <= Strip(body))
    ensures var fenced := Interpret(c, Fenced(tag, body), decode, md5);
            var bare := Interpret(c, body, decode, md5);
            fenced.cart == bare.cart && (fenced.outcome.Failed? <==> bare.outcome.Failed?)
  {
    FencedAsBare(tag, body);
    ActOnDecoded(c, decode(CleanReply(body)), Fenced(tag, body), body, md5);
  }
}
