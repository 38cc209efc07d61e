# ShopSmart cart reconciliation and agent helpers, in Dafny

This project models the core of the ShopSmart shopping assistant:

- **The `/submit` handler of `e-commerce/app.py`.**
  - It takes the language model's reply and trims it. It drops a Markdown code fence.
  - It reads the decoded reply as an `add` or `remove` action, or else shows it as chat.
  - It updates the module-level cart dict in place:
    - quantities accumulate on repeated adds, and colour and price are kept from the first add;
    - keys carry an attribute suffix;
    - a removal finds the first key that starts with the name, then deletes or decrements it (the handler as modelled uses the corrected found-test of line 352; see Findings and Left out).
  - It logs the turn and shows the item count and the total price.
  - A page load (`get`) clears the chat and the cart.
- **`Agent.get_response_async` of `e-commerce/agent.py`.**
  - It appends a block describing the cart to the user's message.
  - It calls the language model up to three times, backing off 2 s and then 4 s while the model reports an overload.
  - It re-raises any other error at once.
- **The two colour helpers of `e-commerce/agent.py`.**
  - `generate_color_from_title` derives a colour from the MD5 digest of a product name.
  - `get_text_color` picks black or white text by perceived brightness.

Modules, one per file:

| module | file | what it holds |
|---|---|---|
| `Wrappers` | `wrappers.dfy` | `Option` |
| `Text` | `text.dfy` | Python's `strip`, `lstrip('#')`, `split`/`join`, `in`, `lower` and `str(int)` |
| `JsonValue` | `json.dfy` | a decoded JSON value, with Python truthiness, `dict.get` (the last duplicate member wins) and iteration |
| `Colors` | `colors.dfy` | colour derivation and the contrast-text choice |
| `Gateway` | `gateway.dfy` | the cart block and the retry policy: the function `Retry`, and the class `Agent`, whose `history` field the request updates |
| `Reply` | `reply.dfy` | reply cleaning (trim, code fence) |
| `CartModel` | `cart.dfy` | the cart as a value, its updates and its totals |
| `Interpret` | `interpret.dfy` | the handler's inner `try` as a function from the cart and the reply to the new cart and the chat message |
| `Session` | `session.dfy` | the class `Shop` (cart fields, chat log, agent), whose methods update the dict in place and are proved against `Interpret` |

Python's dynamic typing is followed wherever the cart only ever holds integer quantities and numeric prices:

- A `TypeError` is caught at `app.py` line 368, and the reply is shown verbatim (`Failure.Caught`).
- An `AttributeError` escapes to the handler at lines 483-487 (`Failure.Raised`). Examples are a reply that decodes to a list, or an item that is not an object.
- Where Python would store, or go on with, a value of another type, the model stops with `Failure.Beyond`. Examples are a new entry whose quantity is not an int or whose price is not a number, a float quantity, or a number used as a name. Those runs are not followed further; "## Left out" lists each such case.

External effects are parameters:

- `decode` stands for `json.loads`;
- `md5` stands for the digest, as three bytes;
- `upstream(n)` is the scripted outcome of the n-th model call of a request;
- `time` is the time stamp.

The cart is a sequence of keys, for insertion order, plus a map from key to entry.

Two details of the code that the model follows as written:

- `app.py` lines 330-332 store whatever quantity an add gives, so 0 and negative quantities are kept. Only a removal guarantees a remaining quantity of at least 1.
- The comment at `agent.py` line 169 says "Remove # if present", but the expression `bg_color.lstrip('#').strip()` removes every leading `#` and then the surrounding whitespace.

## Model

| member | source | states |
|---|---|---|
| Text.Strip | e-commerce/app.py:300 | reference definition of `str.strip()`: drop whitespace at the start, then at the end |
| Text.StripHashes | e-commerce/agent.py:170 | reference definition of `lstrip('#')` |
| Text.Lower | e-commerce/agent.py:128 | reference definition of `lower()` on ASCII letters |
| Text.IsSpace | e-commerce/app.py:300 | reference definition of `str.isspace` for one character, the set `strip()` removes |
| Text.Join | e-commerce/app.py:303 | reference definition of `'\n'.join(parts)`: the parts with the separator between neighbours |
| Text.Contains | e-commerce/agent.py:128 | reference definition of the substring test `p in s`: `p` starts at some position of `s` |
| Text.IntToString | e-commerce/agent.py:104 | reference definition of `str(n)` for an int, with a `-` sign for negative values |
| Text.DropStart | e-commerce/agent.py:170 | `lstrip`: the result is a suffix of the input, every character dropped is a stripped character, and the result does not start with one |
| Text.DropEnd | e-commerce/app.py:300 | the trailing half of `strip`: the result is a prefix, every dropped character is whitespace, and the result does not end in whitespace |
| Text.StripKeeps | e-commerce/app.py:300 | a string whose first and last characters are not whitespace is left unchanged by `strip` |
| Text.StripIdempotent | e-commerce/app.py:303 | stripping twice is stripping once |
| Text.Split | e-commerce/app.py:302 | `split('\n')` yields at least one piece, and no piece contains the separator |
| Text.JoinSplit | e-commerce/app.py:302-303 | `'\n'.join` of `split('\n')` restores the string |
| Text.SplitWithout | e-commerce/app.py:302 | a string without the separator splits into itself alone |
| Text.SplitAt | e-commerce/app.py:302 | splitting `a + sep + b` gives the pieces of `a` followed by the pieces of `b` |
| JsonValue.Truthy | e-commerce/app.py:320 | reference definition of Python's truthiness of a decoded value (`not color`, `if attributes`) |
| JsonValue.LastIndex | e-commerce/app.py:306 | the position of the last member with the given name, or none when no member has that name |
| JsonValue.Get | e-commerce/app.py:314-317 | `dict.get(key, default)` gives the default when no member has the name, and otherwise the value of the last member with that name |
| JsonValue.Iterate | e-commerce/app.py:313 | `for item in items` iterates exactly lists, strings and dicts; the sequence is empty exactly when the value is falsy; a string or dict yields strings |
| Colors.ColorDigits | e-commerce/agent.py:170 | reference definition of `bg_color.lstrip('#').strip()` |
| Colors.IsLight | e-commerce/agent.py:182-185 | reference definition of the luminance test as written, over exact reals |
| Colors.Lighten | e-commerce/agent.py:159-161 | `max(x, 100)`: at least 100 and at least x, and equal to one of them |
| Colors.HexDigit | e-commerce/agent.py:163 | a digit value renders as a lower-case hex digit |
| Colors.Hex2 | e-commerce/agent.py:163 | `{n:02x}` is exactly two lower-case hex digits |
| Colors.HexValue | e-commerce/agent.py:177-179 | a hex digit of either case has a value below 16 |
| Colors.ParseHex2 | e-commerce/agent.py:177-179 | `int(s, 16)` of a two-character slice succeeds exactly when both characters are hex digits |
| Colors.HexDigitValue | e-commerce/agent.py:163 | reading back a rendered digit gives its value |
| Colors.ParseHex2RoundTrip | e-commerce/agent.py:163 | reading back `{n:02x}` gives n |
| Colors.ParseRgb | e-commerce/agent.py:177-179 | the three channels parse exactly when the first six characters are all hex digits |
| Colors.GenerateColor | e-commerce/agent.py:147-163 | the derived colour is `#` followed by exactly six lower-case hex digits |
| Colors.GeneratedChannels | e-commerce/agent.py:154-163 | the six digits of the derived colour read back as the digest's three bytes, each raised to at least 100 |
| Colors.IsLightInteger | e-commerce/agent.py:182-185 | over exact reals, the luminance test `(0.299r + 0.587g + 0.114b) / 255 > 0.5` holds exactly when `299r + 587g + 114b > 127500` |
| Colors.TextColor | e-commerce/agent.py:166-188 | the text colour is black or white; it is white exactly when the stripped colour has at least six characters, its first six are hex, and `299r + 587g + 114b <= 127500` (exact reals; Python's double-precision test differs at the single byte triple (218, 58, 248), see Left out) |
| Colors.GeneratedDigits | e-commerce/agent.py:170 | a derived colour reaches the brightness test with exactly its six digits |
| Colors.GeneratedTextColor | e-commerce/agent.py:147-188 | the text colour for a derived background is decided by the lightened digest bytes alone |
| Colors.TextOnWhite | e-commerce/agent.py:182-185 | `#FFFFFF` gets black text |
| Colors.TextOnBlack | e-commerce/agent.py:182-185 | `#000000` gets white text |
| Colors.TextOnShort | e-commerce/agent.py:173-174 | any colour shorter than six characters, the empty one included, gets black text |
| Colors.TextOnNonHex | e-commerce/agent.py:170-188 | every colour whose stripped digits have at least six characters, one of the first six not hexadecimal, gets black text (the ValueError path) |
| Gateway.Overloaded | e-commerce/agent.py:128 | reference definition of the overload test, `'503' in e or 'overloaded' in e.lower()` |
| Gateway.Line | e-commerce/agent.py:104 | reference definition of one line of the cart block, `"- key: quantity item(s)"` |
| Gateway.Lines | e-commerce/agent.py:103-104 | reference definition of the cart block: the lines of the entries in order |
| Gateway.ContainsInside | e-commerce/agent.py:128 | a string contains every piece written inside it |
| Gateway.LowerConcat | e-commerce/agent.py:128 | lowering distributes over concatenation |
| Gateway.OverloadMarkers | e-commerce/agent.py:125-128 | any error text that contains "503", or "overloaded" in any letter case, is an overload |
| Gateway.LinesConcat | e-commerce/agent.py:103-104 | the cart block of two runs of entries is the two blocks one after the other |
| Gateway.LinesAround | e-commerce/agent.py:103-104 | each entry has exactly its own line, in insertion order |
| Gateway.Enhance | e-commerce/agent.py:98-108 | the sent message starts with the user's message; it is the message unchanged exactly when there is no cart or the cart is empty |
| Gateway.BuildMessage | e-commerce/agent.py:98-108 | the loop that builds the block line by line yields `Enhance`; the "Cart is empty" branch is unreachable |
| Gateway.Retry | e-commerce/agent.py:110-140 | 1 to 3 calls; every call but the last was an overload; a success returns its output and transcript; a third overload returns the fixed apology; any other error is re-raised with no transcript |
| Gateway.ThreeOverloads | e-commerce/agent.py:129-135 | three overloads in a row return the "currently overloaded" text, raise nothing and leave no transcript |
| Gateway.FatalFirst | e-commerce/agent.py:136-138 | a first error that is not an overload is re-raised after exactly one call |
| Gateway.Agent.constructor | e-commerce/agent.py:92 | a new agent has an empty history |
| Gateway.Agent.GetResponse | e-commerce/agent.py:95-140 | the loop sends `Enhance` of the message and returns what `Retry` returns. The history becomes the transcript on success and is otherwise unchanged. The waits are `[2, 4]` cut to one fewer than the calls. Line 140 is unreachable. |
| Reply.Inner | e-commerce/app.py:303 | reference definition of `lines[1:-1]`: all but the first and the last line, nothing for fewer than two |
| Reply.CleanReply | e-commerce/app.py:300-303 | the text handed to `json.loads` never has surrounding whitespace |
| Reply.Unfenced | e-commerce/app.py:300-301 | a reply that does not open with a fence is only trimmed |
| Reply.FencedTrimmed | e-commerce/app.py:300-301 | a fenced reply is already trimmed and opens with the fence |
| Reply.FencedInner | e-commerce/app.py:302-303 | dropping the first and last lines of a fenced reply leaves exactly the body's lines |
| Reply.FencedAsBare | e-commerce/app.py:300-303 | a reply wrapped in a fence is cleaned to exactly what its bare body is cleaned to |
| Reply.ClosingLine | e-commerce/app.py:302 | the closing fence is a line of its own |
| Reply.FencedLines | e-commerce/app.py:302 | a fenced reply splits into the opening line, the body's lines and the closing fence |
| CartModel.TotalItems | e-commerce/app.py:409 | reference definition of the item count: the sum of the quantities in insertion order |
| CartModel.LineTotal | e-commerce/app.py:337 | reference definition of one entry's share of the total (also line 410), `item['quantity'] * item.get('price', 0)` |
| CartModel.TotalPrice | e-commerce/app.py:337 | reference definition of the total (also line 410): the sum of quantity times price |
| CartModel.DistinctAppend | e-commerce/app.py:332 | appending a new key keeps keys unique |
| CartModel.Key | e-commerce/app.py:326 | the key starts with the name; it equals the name exactly when the attributes are empty, and otherwise ends in " (attributes)" |
| CartModel.Insert | e-commerce/app.py:329-332 | an existing key gains the quantity and keeps its colour, price and position; a new key is appended with its quantity, colour and price; no other entry changes; keys stay unique |
| CartModel.Without | e-commerce/app.py:357 | removes exactly the given key and keeps uniqueness |
| CartModel.WithoutOnce | e-commerce/app.py:357 | removing a key listed once keeps the keys before and after it in their order |
| CartModel.WithoutAbsent | e-commerce/app.py:357 | removing an absent key changes nothing |
| CartModel.Delete | e-commerce/app.py:357 | `del cart[key]` removes exactly that key, leaves the other entries as they were, and keeps the remaining keys in insertion order (`Without`, with `WithoutOnce`) |
| CartModel.Decrement | e-commerce/app.py:361 | only that entry's quantity drops by the amount; order and other entries are unchanged |
| CartModel.FirstMatch | e-commerce/app.py:345-349 | the first position whose key starts with the name, with no match before it, or none when no key matches |
| CartModel.LineAdd | e-commerce/app.py:330 | raising a quantity by n raises the line's total by n times its price |
| CartModel.LineSub | e-commerce/app.py:361 | lowering a quantity by n lowers the line's total by n times its price |
| CartModel.SumsFrame | e-commerce/app.py:409-410 | the totals read only the listed entries |
| CartModel.SumsConcat | e-commerce/app.py:409-410 | the totals over two runs of keys add up |
| CartModel.SumsUpdate | e-commerce/app.py:409-410 | replacing one entry changes the totals by the difference, since each key is counted once |
| CartModel.SumsWithout | e-commerce/app.py:409-410 | dropping one key removes exactly its share of the totals |
| CartModel.ExistingTotals | e-commerce/app.py:330 | a repeat add raises the count by its quantity and the total by quantity times the stored price |
| CartModel.NewTotals | e-commerce/app.py:332 | a new entry raises the count by its quantity and the total by quantity times its price |
| CartModel.InsertTotals | e-commerce/app.py:329-332 | every add raises the item count by its quantity and the total by quantity times the price as stored |
| CartModel.DeleteTotals | e-commerce/app.py:355-357 | deleting an entry removes its quantity from the count and its line total from the total |
| CartModel.DecrementTotals | e-commerce/app.py:359-361 | a partial removal lowers the count by the amount and the total by the amount times the price |
| Interpret.Blank | e-commerce/app.py:320 | reference definition of a colour string that is blank or only `#` after stripping |
| Interpret.Found | e-commerce/app.py:352 | reference definition of the corrected found-test, `found_key is not None`, used by the whole handler |
| Interpret.FoundAsWritten | e-commerce/app.py:352 | reference definition of `if found_key:` as written: a key was found and it is not empty |
| Interpret.ResolveColor | e-commerce/app.py:316-321 | a colour string that is not blank or `#` is kept as given; a falsy colour (empty, null, 0, false, [] or {}) or a blank one is derived from a string name, and raises an AttributeError for a non-string name; a truthy non-string colour raises an AttributeError |
| Interpret.ItemKey | e-commerce/app.py:323-326 | the key is the name, with " (attributes)" appended when the attributes are a non-empty string |
| Interpret.DecodeItem | e-commerce/app.py:313-326 | an element that is not an object raises an AttributeError |
| Interpret.DecodeProduct | e-commerce/app.py:314-326 | an element with a name, a quantity and a price decodes to its name as the key, with the colour derived from the name |
| Interpret.DecodeDefaults | e-commerce/app.py:314-326 | an empty element defaults to name "Unknown", quantity 1 and price 0.0, with the colour derived from "Unknown" |
| Interpret.Number | e-commerce/app.py:332-337 | reference definition of Python's numeric view of a stored price: an int or a float, nothing for any other value |
| Interpret.Place | e-commerce/app.py:329-334 | placing an item keeps the cart valid and reports `"{quantity} {key}"`; no key is dropped or reordered, and existing keys keep colour and price |
| Interpret.PlaceProduct | e-commerce/app.py:329-334 | an int quantity and a float price place as `Insert`, with the price taken only for a new key |
| Interpret.AddFrom | e-commerce/app.py:313-334 | the add loop from a given element on keeps the cart valid |
| Interpret.AddNext | e-commerce/app.py:313-334 | one pass of the add loop keeps the cart valid |
| Interpret.AddItems | e-commerce/app.py:313-334 | the add loop keeps the cart valid |
| Interpret.AddFromCount | e-commerce/app.py:313-334 | at most one fragment per element, and exactly one per element when nothing failed |
| Interpret.AddFromKeeps | e-commerce/app.py:329-332 | the add loop never drops or reorders a key, and keys already present keep colour and price |
| Interpret.AddItemsShape | e-commerce/app.py:311-334 | the whole add loop: fragment count and key order as above |
| Interpret.PlaceUnits | e-commerce/app.py:329-334 | placing an item raises the item count by its quantity |
| Interpret.AddFromUnits | e-commerce/app.py:313-334 | the loop raises the item count by exactly the quantities it reports, also when it stops part-way |
| Interpret.AddItemsUnits | e-commerce/app.py:313-334 | the whole add loop raises the item count by exactly the quantities in its summary |
| Interpret.AddProduct | e-commerce/app.py:313-334 | adding one product inserts it and reports one fragment, with no failure |
| Interpret.SingleTotals | e-commerce/app.py:337 | the totals of a one-entry cart are its quantity and its line total |
| Interpret.RepeatedAdd | e-commerce/app.py:329-337 | 2 apples at 3.99 and then 3 at 5.00 leave one entry: 5 apples at 3.99, total 19.95 |
| Interpret.Lookup | e-commerce/app.py:344-349 | the found key is in the cart, starts with the name, and no key before it in insertion order does; none is found exactly when no key starts with the name |
| Interpret.Reduce | e-commerce/app.py:353-362 | an amount of 0 or at least the current quantity deletes the entry; otherwise the quantity drops by the amount and stays at least 1 |
| Interpret.RemoveFound | e-commerce/app.py:352-362 | an int or boolean amount removes as `Reduce` (a boolean as 0 or 1); a float amount of 0 or at least the quantity deletes the entry, and a smaller one is not followed; any other amount is a caught TypeError |
| Interpret.RemoveItemAsWritten | e-commerce/app.py:340-364 | the line-352 test as written: a non-string name on a non-empty cart is a caught TypeError; a found non-empty key is removed by `RemoveFound`; otherwise (no match, or the empty key) "not found" with the cart unchanged; never raises |
| Interpret.RemoveItem | e-commerce/app.py:340-364 | the corrected test: a non-string name on a non-empty cart is a caught TypeError; the first matching key (`Lookup`) is removed by `RemoveFound`; an unmatched name leaves the cart unchanged and reports "not found"; never raises |
| Interpret.RemoveUnits | e-commerce/app.py:352-364 | a removal lowers the item count by the whole deleted quantity or by the amount taken; "not found" changes nothing |
| Interpret.RemoveFinds | e-commerce/app.py:344-352 | a name that starts some key is never reported missing |
| Interpret.AsWrittenAgrees | e-commerce/app.py:352 | where no key is empty, the test as written and as intended agree |
| Interpret.EmptyKeyMissed | e-commerce/app.py:352 | with the key "" in the cart, removing "" as written reports it missing; the corrected test removes it |
| Interpret.EmptyKeyFound | e-commerce/app.py:345-352 | the scan finds the key "", and the test as written then reports "not found" with the cart unchanged |
| Interpret.EmptyKeyRemoved | e-commerce/app.py:352-358 | with the corrected test, removing "" with amount 0 deletes the entry and leaves the empty cart |
| Interpret.Conclude | e-commerce/app.py:368-370 | reference definition of a stopped step: a caught TypeError shows the reply itself, any other failure is passed on |
| Interpret.HandleAdd | e-commerce/app.py:308-338 | the add branch's cart is the cart the add loop (`AddItems`) leaves, and it is valid; when the loop completes, the summary is its fragments with the total of the new cart; a caught TypeError, or `items` that is not iterable, shows the reply verbatim, and any other failure of the loop is passed on |
| Interpret.HandleRemove | e-commerce/app.py:340-364 | the remove branch's cart and message are those of `RemoveItem`, and the cart is valid; an unmatched name reports "not found" with the cart unchanged; a caught TypeError shows the reply verbatim with the cart unchanged; its only unfollowed end is a float quantity |
| Interpret.Act | e-commerce/app.py:305-370 | an undecodable reply, or an action other than add or remove, is shown verbatim with the cart unchanged; a reply that is not an object raises an AttributeError with the cart unchanged |
| Interpret.Interpret | e-commerce/app.py:297-370 | handling a reply keeps the cart valid, and a caught TypeError never surfaces as a failure |
| Interpret.ActOnDecoded | e-commerce/app.py:366-370 | the reply as received only matters where it is shown: two replies that decode alike change the cart alike |
| Interpret.HandleAddAlike | e-commerce/app.py:308-338 | the add branch's cart does not depend on the raw reply text |
| Interpret.HandleRemoveAlike | e-commerce/app.py:340-364 | the remove branch's cart does not depend on the raw reply text |
| Interpret.FencedReply | e-commerce/app.py:300-305 | a reply wrapped in a code fence changes the cart exactly as its body would |
| Session.Snapshot | e-commerce/app.py:294 | reference definition of what the agent reads of the cart: each key with its quantity, in insertion order |
| Session.ContextShown | e-commerce/app.py:294 | the cart block is sent exactly when the cart dict is non-empty, and is then the lines of the cart's keys and quantities in insertion order |
| Session.Shop.constructor | e-commerce/app.py:9-15 | the server starts with an empty cart, no messages and an agent with empty history |
| Session.Shop.Reset | e-commerce/app.py:21-25 | a page load empties the cart and the messages |
| Session.Shop.FindKey | e-commerce/app.py:344-349 | the scan with `break` finds exactly `Lookup` |
| Session.Shop.PlaceItem | e-commerce/app.py:329-332 | the in-place update of the dict is `Place`, and a failure leaves the dict untouched |
| Session.Shop.PlaceNext | e-commerce/app.py:313-334 | one pass of the loop on the fields is one step of `AddNext` |
| Session.Shop.AddAll | e-commerce/app.py:311-334 | the in-place loop leaves the cart, the fragments and the failure of `AddItems` |
| Session.Shop.Take | e-commerce/app.py:353-362 | `del` or `-=` on the dict is `Reduce` |
| Session.Shop.Remove | e-commerce/app.py:340-364 | the in-place remove branch is `RemoveItem`, and a failure leaves the dict untouched |
| Session.Shop.AddAction | e-commerce/app.py:308-338 | the in-place add branch is `HandleAdd` |
| Session.Shop.RemoveAction | e-commerce/app.py:340-364 | the in-place remove branch is `HandleRemove` |
| Session.Shop.Dispatch | e-commerce/app.py:306-366 | choosing the branch on `action` is `Act` on an object |
| Session.Shop.Respond | e-commerce/app.py:297-370 | the whole inner `try`, done in place, is `Act` on the decoded cleaned reply |
| Session.Shop.Show | e-commerce/app.py:372-487 | a chat message appends exactly one `(prompt, message, time)` turn, and the page shows the message count, the sum of quantities and the sum of quantity times price; an AttributeError shows an error page and logs nothing |
| Session.Shop.Submit | e-commerce/app.py:290-487 | the message sent to the model is the prompt with the cart block of the cart before the request (`Gateway.Enhance` of `Snapshot`, so `Session.ContextShown` applies); an agent error shows an error and changes neither the cart nor the log; otherwise the cart becomes `Interpret` of the reply, and a chat message logs one turn and shows the counters |

## Left out

- HTML and CSS rendering and HTTP routing (`app.py` lines 27-288 and 376-481, `fast_app`, `serve`): a page is modelled only as the three counters it updates, or the error it shows.
- The per-item rendering loop at `app.py` lines 429-463 is left out, including its call to `get_text_color`. `get_text_color` itself is modelled.
- The language-model client (`agent.py` line 117 and the `pydantic_ai` agent): each call is the scripted outcome `upstream(n)`, an output with its transcript or the text of an exception.
- The system prompt and `user_preferences`, since neither carries logic. Environment and API-key loading (`agent.py` lines 10-37), since it is process start-up.
- `asyncio.sleep`: the requested delays are recorded as a list. Time and concurrency are not modelled.
- The synchronous wrapper `get_response` (`agent.py` lines 142-144): the handler only uses the asynchronous call.
- MD5 (`agent.py` lines 150-151) is the parameter `md5`, giving the first three bytes of the digest. The model proves the clamping and the formatting, not the hash.
- `json.loads` is the parameter `decode`: the model starts from a decoded JSON value. `NaN` and `Infinity` values are not represented.
- `datetime.now()` is the parameter `time`.
- The `favorites` set (`app.py` line 18) is never used.
- The diagnostic prints (`agent.py` line 130, `app.py` lines 484-486) write to the console only.
- JsonValue.Iterate: an object whose members repeat a name yields that name once per member, where Python's dict yields it once. Only the first element of an object is ever used, since it is a string and the add loop stops on it, so the difference is never observed.
- The research agent (`research_agent/`) is a command-line loop around network tools, with no cart or retry logic.
- Interpret.HandleRemove / Session.Shop.Remove: the whole handler (and so `Interpret.Act`, `Interpret.Interpret`, `Session.Shop.RemoveAction`, `Dispatch`, `Respond` and `Submit`) uses the corrected test of line 352 (`Interpret.RemoveItem`). Since every key starts with `""`, the scan for the name `""` stops at the first key, so the two differ exactly when that first key is `""`: for such a cart, a reply removing `""` deletes that entry in the model, where the code as written reports it not found and keeps it. The code as written is `Interpret.RemoveItemAsWritten`, and `Interpret.EmptyKeyMissed` shows the difference. With no empty key the two agree (`Interpret.AsWrittenAgrees`).
- Interpret.Place: stops with `Beyond` in every case where Python would store a value the model's cart cannot hold. For a new key, that is any quantity that is not an int (float, boolean, null, string, list or object). It is also a price that is not an int or a float (boolean, null, string, list or object). For an existing key, it is a float quantity. Python stores the entry (or the float sum), then goes on. Where every quantity and price is a number or a boolean, the total at line 337 and the counters at lines 409-410 are computed from the non-integer cart. Otherwise line 337 raises a TypeError, line 368 catches it and the turn is logged with the reply; then the item count at line 409 raises (a quantity that is not a number) or the price total at line 410 does (a number or boolean quantity with a price that is not a number), so the request ends in the error page of lines 483-487. The model does not follow those runs.
- Interpret.ItemKey: stops with `Beyond` in two cases of line 326. With truthy attributes and a name or attributes that is not a string, Python formats the key with `str()`, which is not modelled for arbitrary JSON values. With falsy attributes and a null, boolean or number name, Python uses that value itself as the key, so the cart holds a key that is not a string; a later remove reaching that key in its scan raises an AttributeError at `key.startswith` (line 346). The model's keys are strings, so neither run is followed.
- Interpret.RemoveFound: stops with `Beyond` where a float amount leaves a float quantity in the cart.
- Session.Shop.Show: a `Beyond` outcome yields the page `Unmodelled` rather than the page Python would show. After a `Beyond` the model's cart and chat log are not Python's either. `Show` logs nothing, and the cart holds only the items placed before the stop. Python, for instance for a new key with quantity 2.5, stores that entry and logs the turn.
- CartModel.TotalPrice: prices and totals are exact reals. The `:.2f` formatting and float rounding of the summary and the counters are not modelled.
- Chat messages are structured values (fragments, key, remaining quantity, total), not the formatted strings with emoji.
- Colors.TextColor: the luminance test is evaluated over exact reals. Python evaluates `(0.299 * r + 0.587 * g + 0.114 * b) / 255` in double precision, and over all byte triples the two disagree only at (218, 58, 248), the background `#da3af8`: there `299r + 587g + 114b` is exactly 127500, the double result is 0.5000000000000001, and Python picks black text where the model picks white. Derived colours never reach that triple, since their channels are at least 100 (`Colors.GeneratedTextColor`).
- Colors.ParseHex2: accepts exactly two ASCII hex digits. `int(s, 16)` also reads a slice such as `"+f"` or `"1 "`, or non-ASCII digits, which the model treats as invalid (black text).
- Text.Lower: lowers ASCII letters only. No other character lowers to a letter of "overloaded", so the overload test is unaffected.

## Findings

| source | as written | input that shows it | evidently intended | confidence | as-written member | corrected member |
|---|---|---|---|---|---|---|
| e-commerce/app.py:352 | `if found_key:` tests the found key's truthiness, so an empty key counts as not found | add an item named "" (key ""), then reply `{"action": "remove", "name": ""}`: the message is "not found" and the entry stays | remove the first key that starts with the name whenever one was found (`found_key is not None`) | not executed | Interpret.RemoveItemAsWritten | Interpret.RemoveItem |
