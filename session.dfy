/**
 * The module-level state of `app.py`: the cart dict, the chat log and the agent.
 * A page load clears the chat and the cart (lines 21-25); a `/submit` request
 * asks the agent, applies the reply to the cart, logs the turn and shows the
 * counters (lines 290-487).
 *
 * The cart is the pair of fields `keys` (the dict's insertion order) and
 * `entries` (the dict itself), updated in place as the handler does. The time
 * stamp of `datetime.now()` is the parameter `time`; the rendered HTML is left
 * out, and a page is the three counters it updates, or the error it shows.
 */
module Session {
  import opened Wrappers
  import opened JsonValue
  import opened Colors
  import opened CartModel
  import opened Reply
  import opened Interpret
  import Gateway

  /** Line 374: one entry of the chat log. */
  datatype Turn = Turn(prompt: string, message: Message, time: string)

  /** Why a request showed an error (lines 483-487). */
  datatype PostError =
    | UpstreamFailure(text: string)  // the exception re-raised by the agent
    | AttributeFailure               // a reply of the wrong shape: `.get` on a non-dict

  /** What a `/submit` request shows. */
  datatype Page =
    | Shown(messageCount: nat, itemCount: int, totalPrice: real)  // lines 476-480
    | ErrorShown(error: PostError)                                 // lines 483-487
    | Unmodelled                                                   // a run this model does not follow

  /** Line 294: what the agent reads of the cart, each key with its quantity, in order. */
  function Snapshot(c: Cart): seq<(string, int)>
    requires Valid(c)
  {
    seq(|c.keys|, i requires 0 <= i < |c.keys| => (c.keys[i], c.entries[c.keys[i]].quantity))
  }

  /**
   * Line 294 with agent.py line 98: the cart block is sent exactly when the cart
   * dict is non-empty, and then it has one line per entry in insertion order.
   */
  lemma ContextShown(message: string, c: Cart)
    requires Valid(c)
    ensures Gateway.Enhance(message, Some(Snapshot(c))) == message <==> c.entries == map[]
    ensures c.entries != map[] ==> Gateway.Enhance(message, Some(Snapshot(c)))
                                   == message + Gateway.CartHeader + Gateway.Lines(Snapshot(c), Gateway.Line)
  {
    if c.keys != [] {
      assert c.keys[0] in c.entries;
    }
  }

  class Shop {
    /** The keys of the global `cart` dict, in insertion order. */
    var keys: seq<string>
    /** The global `cart` dict. */
    var entries: map<string, Entry>
    /** The global `messages` list. */
    var messages: seq<Turn>
    /** The global `agent`. */
    const agent: Gateway.Agent

    ghost predicate Valid()
      reads this
    {
      CartModel.Valid(Contents())
    }

    function Contents(): Cart
      reads this
    {
      Cart(keys, entries)
    }

    /** Lines 9-15: the server starts with an empty cart, no messages and a fresh agent. */
    constructor ()
      ensures Valid() && Contents() == Empty && messages == []
      ensures fresh(agent) && agent.history == []
    {
      keys := [];
      entries := map[];
      messages := [];
      agent := new Gateway.Agent();
    }

    /** Lines 21-25: a page load clears the chat and the cart; the agent keeps its history. */
    method Reset()
      modifies this
      ensures Valid() && Contents() == Empty && messages == []
    {
      messages := [];
      keys := [];
      entries := map[];
    }

    /** Lines 345-349: scan the keys in order and stop at the first that starts with `name`. */
    method FindKey(name: string) returns (found: Option<string>)
      requires Valid()
      ensures found == Lookup(Contents(), name)
    {
      found := None;
      var i := 0;
      while i < |keys|
        invariant 0 <= i <= |keys|
        invariant forall j :: 0 <= j < i ==> !(name <= keys[j])
      {
        if name <= keys[i] {
          found := Some(keys[i]);
          return;
        }
        i := i + 1;
      }
    }

    /** Lines 329-334: one decoded item meets the dict, which is updated in place. */
    method PlaceItem(item: Item) returns (stop: Option<Failure>)
      requires Valid()
      modifies this
      ensures Valid() && messages == old(messages)
      ensures match Place(old(Contents()), item)
              case Done(placed) => stop.None? && Contents() == placed.0
              case Stop(f) => stop == Some(f) && Contents() == old(Contents())
    {
      ghost var c := Contents();
      var key := item.key;
      if key in entries {
        match item.quantity
        case JInt(n) =>
          entries := entries[key := entries[key].(quantity := entries[key].quantity + n)];
          assert Contents() == Insert(c, key, n, item.color, 0.0);
          stop := None;
        case JBool(b) =>
          entries := entries[key := entries[key].(quantity := entries[key].quantity + if b then 1 else 0)];
          assert Contents() == Insert(c, key, if b then 1 else 0, item.color, 0.0);
          stop := None;
        case JFloat(_) =>
          stop := Some(Beyond);
        case _ =>
          stop := Some(Caught);
      } else {
        match (item.quantity, Number(item.price))
        case (JInt(n), Some(p)) =>
          keys := keys + [key];
          entries := entries[key := Entry(n, item.color, p)];
          assert Contents() == Insert(c, key, n, item.color, p);
          stop := None;
        case _ =>
          stop := Some(Beyond);
      }
    }

    /** Lines 314-334, one pass of the loop: decode the element at index `i` and place it. */
    method PlaceNext(items: seq<Json>, i: nat, md5: string -> Rgb) returns (fragment: Fragment, stop: Option<Failure>)
      requires Valid() && i < |items|
      modifies this
      ensures Valid() && messages == old(messages)
      ensures stop.Some? ==> AddNext(old(Contents()), items, i, md5) == AddRun(Contents(), [], stop)
      ensures stop.None? ==> var rest := AddFrom(Contents(), items, i + 1, md5);
                             AddNext(old(Contents()), items, i, md5) == AddRun(rest.cart, [fragment] + rest.fragments, rest.stop)
    {
      var item := DecodeItem(items[i], md5);
      fragment := Fragment(JNull, []);
      if item.Stop? {
        stop := Some(item.failure);
      } else {
        stop := PlaceItem(item.value);
        fragment := Fragment(item.value.quantity, item.value.key);
      }
    }

    /**
     * Lines 313-334: decode and place the items one by one, updating the dict in
     * place. A failing item ends the loop and the items placed before it stay.
     */
    method AddAll(items: seq<Json>, md5: string -> Rgb) returns (fragments: seq<Fragment>, stop: Option<Failure>)
      requires Valid()
      modifies this
      ensures Valid() && messages == old(messages)
      ensures AddItems(old(Contents()), items, md5) == AddRun(Contents(), fragments, stop)
    {
      fragments := [];
      stop := None;
      var i := 0;
      while i < |items|
        invariant 0 <= i <= |items|
        invariant Valid() && messages == old(messages) && stop.None?
        invariant var run := AddFrom(Contents(), items, i, md5);
                  AddFrom(old(Contents()), items, 0, md5) == AddRun(run.cart, fragments + run.fragments, run.stop)
      {
        var fragment;
        fragment, stop := PlaceNext(items, i, md5);
        if stop.Some? {
          assert fragments + [] == fragments;
          return;
        }
        ghost var rest := AddFrom(Contents(), items, i + 1, md5);
        assert fragments + ([fragment] + rest.fragments) == (fragments + [fragment]) + rest.fragments;
        fragments := fragments + [fragment];
        i := i + 1;
      }
      assert fragments + [] == fragments;
    }

    /** Lines 357 and 361 for a found key: delete the entry, or lower its quantity by `amount`. */
    method Take(key: string, amount: int, requested: Json) returns (message: Message)
      requires Valid() && key in entries
      modifies this
      ensures Valid() && messages == old(messages)
      ensures Reduce(old(Contents()), key, amount, requested) == (Contents(), message)
    {
      var current := entries[key].quantity;
      if amount == 0 || amount >= current {
        keys := Without(keys, key);
        entries := entries - {key};
        message := RemovedAll(key);
      } else {
        entries := entries[key := entries[key].(quantity := current - amount)];
        message := RemovedSome(requested, key, current - amount);
      }
    }

    /** Lines 340-364: the remove branch on the shop's cart. */
    method Remove(name: Json, requested: Json) returns (r: Step<Message>)
      requires Valid()
      modifies this
      ensures Valid() && messages == old(messages)
      ensures RemoveItem(old(Contents()), name, requested)
              == (if r.Done? then Done((Contents(), r.value)) else Stop(r.failure))
      ensures r.Stop? ==> Contents() == old(Contents())
    {
      if keys == [] {
        return Done(NotFound(name));
      }
      if !name.JStr? {
        return Stop(Caught);
      }
      var found := FindKey(name.s);
      if !Found(found) {
        return Done(NotFound(name));
      }
      var key := found.value;
      match requested
      case JInt(n) =>
        var message := Take(key, n, requested);
        r := Done(message);
      case JBool(b) =>
        var message := Take(key, if b then 1 else 0, requested);
        r := Done(message);
      case JFloat(x) =>
        if x == 0.0 || x >= entries[key].quantity as real {
          keys := Without(keys, key);
          entries := entries - {key};
          r := Done(RemovedAll(key));
        } else {
          r := Stop(Beyond);
        }
      case _ =>
        r := Stop(Caught);
    }

    /** Lines 309-338: the add branch with the reply's `items` value. */
    method AddAction(items: Json, response: string, md5: string -> Rgb) returns (outcome: Outcome)
      requires Valid()
      modifies this
      ensures Valid() && messages == old(messages)
      ensures HandleAdd(old(Contents()), items, response, md5) == Handled(Contents(), outcome)
    {
      match Iterate(items)
      case None =>
        outcome := Said(Verbatim(response));
      case Some(elems) =>
        var fragments, stop := AddAll(elems, md5);
        if stop.None? {
          outcome := Said(Added(fragments, TotalPrice(Contents())));
        } else {
          outcome := Conclude(Contents(), stop.value, response).outcome;
        }
    }

    /** Lines 340-364: the remove branch with the reply's `name` and `quantity` values. */
    method RemoveAction(name: Json, requested: Json, response: string) returns (outcome: Outcome)
      requires Valid()
      modifies this
      ensures Valid() && messages == old(messages)
      ensures HandleRemove(old(Contents()), name, requested, response) == Handled(Contents(), outcome)
    {
      var r := Remove(name, requested);
      if r.Done? {
        outcome := Said(r.value);
      } else {
        outcome := Conclude(Contents(), r.failure, response).outcome;
      }
    }

    /** Lines 306-370 for a reply that decoded to a JSON object with the members `fields`. */
    method Dispatch(fields: seq<(string, Json)>, response: string, md5: string -> Rgb) returns (outcome: Outcome)
      requires Valid()
      modifies this
      ensures Valid() && messages == old(messages)
      ensures Act(old(Contents()), Some(JObj(fields)), response, md5) == Handled(Contents(), outcome)
    {
      var action := Get(fields, "action", JNull);
      if action == JStr("add") {
        outcome := AddAction(Get(fields, "items", JArr([])), response, md5);
      } else if action == JStr("remove") {
        outcome := RemoveAction(Get(fields, "name", JStr("Unknown")), Get(fields, "quantity", JInt(0)), response);
      } else {
        outcome := Said(Verbatim(response));
      }
    }

    /** Lines 297-370: apply the reply to the cart and choose the chat message. */
    method Respond(response: string, decode: string -> Option<Json>, md5: string -> Rgb) returns (outcome: Outcome)
      requires Valid()
      modifies this
      ensures Valid() && messages == old(messages)
      ensures Act(old(Contents()), decode(CleanReply(response)), response, md5) == Handled(Contents(), outcome)
    {
      var decoded := decode(CleanReply(response));
      if decoded.None? {
        outcome := Said(Verbatim(response));
      } else if !decoded.value.JObj? {
        outcome := Failed(Raised);
      } else {
        outcome := Dispatch(decoded.value.fields, response, md5);
      }
    }

    /**
     * Lines 372-487 after the reply was handled: a chat message is logged with
     * its time stamp and the counters are shown; a failure shows an error.
     */
    method Show(prompt: string, time: string, outcome: Outcome) returns (page: Page)
      requires Valid()
      modifies this
      ensures Valid() && Contents() == old(Contents())
      ensures outcome.Said? ==> messages == old(messages) + [Turn(prompt, outcome.message, time)]
                                && page == Shown(|messages|, TotalItems(Contents()), TotalPrice(Contents()))
      ensures outcome.Failed? ==> messages == old(messages)
      ensures outcome == Failed(Raised) ==> page == ErrorShown(AttributeFailure)
      ensures outcome == Failed(Beyond) ==> page == Unmodelled
    {
      match outcome
      case Said(message) =>
        messages := messages + [Turn(prompt, message, time)];
        page := Shown(|messages|, TotalItems(Contents()), TotalPrice(Contents()));
      case Failed(failure) =>
        page := if failure == Raised then ErrorShown(AttributeFailure) else Unmodelled;
    }

    /**
     * Lines 290-487: one `/submit` request. An exception from the agent shows an
     * error and changes nothing here. A reply is applied to the cart; when it
     * yields a chat message the turn is logged and the counters are shown, and
     * a reply of the wrong shape shows an error after the cart changes made
     * before it. `sent` is the message handed to the model: the prompt with the
     * cart as it was before the request (line 294).
     */
    method Submit(prompt: string, time: string, upstream: nat -> Gateway.Upstream,
                  decode: string -> Option<Json>, md5: string -> Rgb) returns (page: Page, sent: string)
      requires Valid()
      modifies this, agent
      ensures Valid()
      ensures sent == Gateway.Enhance(prompt, Some(Snapshot(old(Contents()))))
      ensures var x := Gateway.Retry(upstream, 0);
              agent.history == (if x.transcript.Some? then x.transcript.value else old(agent.history))
      ensures var x := Gateway.Retry(upstream, 0);
              x.reply.Raised? ==> (page == ErrorShown(UpstreamFailure(x.reply.error))
                                   && Contents() == old(Contents()) && messages == old(messages))
      ensures var x := Gateway.Retry(upstream, 0);
              x.reply.Answer? ==>
                var h := Interpret.Interpret(old(Contents()), x.reply.text, decode, md5);
                && Contents() == h.cart
                && (h.outcome.Said? ==> messages == old(messages) + [Turn(prompt, h.outcome.message, time)]
                                        && page == Shown(|messages|, TotalItems(h.cart), TotalPrice(h.cart)))
                && (h.outcome.Failed? ==> messages == old(messages))
                && (h.outcome == Failed(Raised) ==> page == ErrorShown(AttributeFailure))
                && (h.outcome == Failed(Beyond) ==> page == Unmodelled)
    {
      var reply, calls, sleeps;
      reply, sent, calls, sleeps := agent.GetResponse(prompt, Some(Snapshot(Contents())), upstream);
      if reply.Raised? {
        return ErrorShown(UpstreamFailure(reply.error)), sent;
      }
      var outcome := Respond(reply.text, decode, md5);
      page := Show(prompt, time, outcome);
    }
  }
}
