# Order and inquiry bot: conversation core in Dafny

This project models the conversation core of a Telegram bot that registers
customers by phone number and name, takes product orders and support
inquiries, and shows administrators every order and inquiry. The core is
three linear flows, each a chain of FSM states with values collected along
the way:

- registration: `PhoneNumber` then `FullName`;
- order creation: `ProductName`, then `Quantity`, then `Address`;
- inquiry creation: `Topic` then `Message`.

Behind the flows sit three append-only tables (users, orders, inquiries)
with auto-increment ids, plus read-only listings over them.

The model has two layers:

- `Flows` is the pure state machine. A `World` holds the three tables and a
  map from user id to that user's `Session` (FSM state plus collected fields).
  Each handler of `main.py` is a function from a `World` to an `Outcome`: the
  new `World` and the replies sent. `Flows.Step` routes one inbound event
  (text, shared contact or inline-button press) to the handler the aiogram
  dispatcher would pick. It follows the handlers' registration order. A
  handler registered without `state=` fires only for a user with no state,
  and text is the default content type.
- `Conversation.Bot` is the same thing in the source's own imperative form: a
  class whose fields are the tables and the FSM storage, with a method for
  each handler that changes state and for each listing built in a loop. The
  other handlers (`process_main_menu`, `view_inquiries`, `view_inquiry`)
  only compute a reply without a loop, so `HandleText` and `HandleCallback`
  call their `Flows` functions directly. Each method is proved to produce what
  the matching `Flows` function says. The three listing handlers build their
  text by appending in a loop, as the source does. They are proved equal to
  the pure listing functions.

`FlowProperties` holds the properties proved over `Flows.Step` and
`Flows.Run`:

- only a flow's final step writes, and then exactly one row;
- the whole of each flow;
- the invariant, which includes "at most one user row per id";
- the listings' empty-state branches;
- the round trip of the `view_inquiry_<id>` callback tokens.

`Records`, `Replies` and `Strings` hold the tables and their queries, the
reply texts and the Python string operations the handlers use: `str(n)`,
`int(s)`, `split('_')` and `startswith`.

Modelling choices:

- A user with no `Session` is aiogram's "no state". `state.finish()` clears
  both the state and its data, and no handler stores data outside a flow, so
  "no state" always comes with empty data.
- The admin allowlist is a parameter `admins: seq<int>` of the handlers that
  read it, in place of the YAML file.
- The current time is a parameter `now`, in place of `datetime.now()`. In a
  stream of updates (`Flows.Run`) each update carries its own clock reading
  and its own allowlist, since the source reads the clock at each final step
  and re-reads the allowlist on each `is_admin` call.
- SQLite gives a new row the rowid one more than the largest one. In an
  append-only table numbered from 1, that is the table's length plus one.
- A final step that finds a collected field missing would pass `None` to a
  NOT NULL column. The insert would raise before `finish()`, so the model
  leaves the world unchanged and sends nothing. The invariant `Flows.Valid`
  shows this never happens.

Where the code departs from what such a bot is expected to do, the model
follows the code:

- The admin listings (`admin_orders`, `admin_inquiries`) are not gated by
  `is_admin`. Any user with no active flow who types the button text gets
  every order or inquiry (`AdminOrdersIgnoreAllowlist`).
- Input that a step does not accept is dropped without a re-prompt
  (`UnacceptedInputIsDropped`). Examples: text while a contact is expected,
  or any button during a flow.
- A flow therefore cannot be restarted or replaced from inside another one.
- New rows get the statuses `"в обработке"` (orders) and `"В обработке"`
  (inquiries), not "pending".
- The order listing for administrators has no empty-state branch.
- `view_inquiry` does not check who owns the inquiry.
- The order and inquiry flows do not require a registered user.

## Model

| member | source | states |
|---|---|---|
| `Strings.DecimalString` | main.py:226 | `str(id)` is a non-empty run of decimal digits with no leading zero |
| `Strings.ParseInt` | main.py:317 | `int(s)` succeeds with the digits' value, negated after `-`, on a non-empty digit string with an optional sign; it fails with ValueError when what follows the sign is empty or holds a non-digit |
| `Strings.ParseIntOfDecimalString` | main.py:304-317 | `int(str(n)) == n` for every n >= 0 |
| `Strings.Split` | main.py:317 | `split(sep)` yields at least one piece and no piece contains the separator |
| `Strings.JoinSplit` | main.py:317 | joining the pieces of `split(sep)` with sep gives back the string, so nothing is lost |
| `Strings.SplitAfterPiece` | main.py:317 | a separator-free piece followed by the separator is split off as exactly one part |
| `Strings.SplitWithoutSeparator` | main.py:317 | a string without the separator splits into itself alone |
| `Records.FindUser` | main.py:143-156 | the lookup finds a row exactly when a user row with that id exists, and that row has the id |
| `Records.Owned` | main.py:220 | the per-user query returns only rows of that user, drawn from the table |
| `Records.OwnedAppend` | main.py:220-226 | a later row of the user's is listed last, and a row of another user's is not listed |
| `Records.OwnedComplete` | main.py:220 | every row of the user's is in the per-user query |
| `Records.OwnedEmptyIff` | main.py:222-231 | the per-user query is empty exactly when no row belongs to the user |
| `Records.FindInquiry` | main.py:318 | `Inquiry.get` finds a row with the requested id, or reports that none has it |
| `Records.FindInquiryById` | main.py:318 | with ids 1, 2, ... every id finds its own row |
| `Replies.OrderLinesAppend` | main.py:225-226 | appending an order appends exactly its line to the listing |
| `Replies.InquiryLinesAppend` | main.py:379-380 | appending an inquiry appends exactly its line to the admin listing |
| `Replies.MyOrdersTextAppend` | main.py:222-231 | a further order of the user's adds exactly its line to "my orders", after the bare header if it was empty |
| `Replies.InquiryToken` | main.py:304 | the token is `view_inquiry...`, which the dispatcher routes to `view_inquiry` and never to another callback |
| `Replies.ParseInquiryToken` | main.py:317 | fewer than three `_`-separated pieces raise IndexError |
| `Replies.ParseInquiryTokenRoundTrip` | main.py:304-317 | `int(token.split('_')[2])` gives back the id the token was built from |
| `Replies.InquiryButtons` | main.py:302-306 | one button per inquiry, labelled `"<topic> - <status>"`, carrying that inquiry's token |
| `Flows.IsAdmin` | main.py:90-92 | a user is an administrator exactly when the allowlist contains the id |
| `Flows.StartCommand` | main.py:140-160 | a known user changes nothing; an unknown one enters `PhoneNumber` with no data; no table is written; the invariant is kept |
| `Flows.ProcessContact` | main.py:164-170 | stores the phone under `phone_number` and moves to `FullName`, writing nothing |
| `Flows.ProcessFullName` | main.py:174-188 | under the invariant, appends exactly one user row with the collected phone and this name and clears the state; when the user already exists, skips the insert but still clears the state and replies; user ids stay unique in any case |
| `Flows.ProcessMainMenu` | main.py:192-211 | "Мои заказы" offers the order buttons and "Обращения" offers the inquiry buttons, both under "Выберите действие:"; "Техническая поддержка" sends the operator-search message with no keyboard |
| `Flows.ViewOrders` | main.py:215-231 | exactly one reply, without a keyboard; its two branches are stated by `ViewOrdersEmptyIff` and `ViewOrdersAfterNewOrder` |
| `Flows.CreateOrder` | main.py:238-242 | enters `ProductName` with no data and writes nothing |
| `Flows.ProcessOrderProductName` | main.py:246-251 | stores the product and moves to `Quantity`, writing nothing |
| `Flows.ProcessOrderQuantity` | main.py:255-260 | stores the quantity and moves to `Address`, writing nothing |
| `Flows.ProcessOrderAddress` | main.py:264-276 | under the invariant, appends exactly one order with the collected product and quantity, the initial status and `now`, and clears the state; the address is dropped |
| `Flows.ViewInquiries` | main.py:292-309 | exactly one reply; its branches are stated by `ViewInquiriesEmptyIff` and `InquiryButtonOpensItsInquiry` |
| `Flows.ViewInquiry` | main.py:313-321 | a token that does not parse sends nothing; a parsed id sends the details of the row with that id, or nothing when no row has it |
| `Flows.CreateInquiry` | main.py:325-329 | enters `Topic` with no data and writes nothing |
| `Flows.ProcessInquiryTopic` | main.py:333-338 | stores the topic and moves to `Message`, writing nothing |
| `Flows.ProcessInquiryMessage` | main.py:342-353 | under the invariant, appends exactly one inquiry with the collected topic, this text, the initial status and `now`, and clears the state |
| `Flows.AdminOrders` | main.py:358-368 | exactly one reply; its lines are stated by `AdminOrdersAppend` |
| `Flows.AdminInquiries` | main.py:372-382 | exactly one reply; its lines are stated by `Replies.InquiryLinesAppend` |
| `Flows.Step` | main.py:140-353 | every event keeps the invariant and touches no other user's conversation |
| `FlowProperties.StartEntersRegistrationIffUnknown` | main.py:143-160 | `/start` enters registration exactly when no user row has the id; for a known user the world is unchanged |
| `FlowProperties.StartGreetingFollowsAllowlist` | main.py:155-160 | a known user gets the administrator greeting and menu exactly when the allowlist has the id, and otherwise the greeting by stored name; the stored role is not consulted |
| `FlowProperties.StepWritesOnlyOnCompletion` | main.py:164-353 | tables only grow; an event writes exactly one row iff it is a flow's final step, which also clears the state; otherwise no table changes |
| `FlowProperties.IdleTextChangesNothing` | main.py:140-389 | with no flow active, a text other than `/start` writes nothing and starts no flow |
| `FlowProperties.UnacceptedInputIsDropped` | main.py:164-329 | input no handler accepts changes nothing and gets no reply, and a button pressed during a flow is ignored |
| `FlowProperties.RegistrationFlow` | main.py:140-188 | `/start`, a contact and a name add exactly `User(next id, uid, phone, name, "client")` and leave no state |
| `FlowProperties.OrderFlow` | main.py:238-276 | the button, product, quantity and address add exactly one order with those values and status "в обработке" and leave no state |
| `FlowProperties.OrderFlowSteps` | main.py:236-276 | each of the order flow's four updates, taken alone, gives the next session and reply; the last one appends the order and clears the state |
| `FlowProperties.InquiryFlow` | main.py:325-353 | the button, topic and message add exactly one inquiry with those values and status "В обработке" and leave no state |
| `FlowProperties.RunPreservesValid` | main.py:27 | any stream of updates, from any users interleaved and each with its own allowlist and clock reading, keeps the invariant, so each user id has at most one user row |
| `FlowProperties.RunRowCount` | main.py:185-350 | over any stream of updates from interleaved users, each with its own allowlist and clock reading, the tables grow only by appending, by exactly one row per completed flow |
| `FlowProperties.ViewOrdersEmptyIff` | main.py:220-231 | "my orders" takes the empty-state branch exactly when the user owns no order |
| `FlowProperties.ViewOrdersAfterNewOrder` | main.py:220-231 | after a new order of the user's, "my orders" is the former listing (or the header) plus exactly that order's line |
| `FlowProperties.ViewOrdersAfterOthersOrder` | main.py:217-220 | another user's new order leaves the user's "my orders" reply unchanged |
| `FlowProperties.AdminOrdersIgnoreAllowlist` | main.py:358-368 | any user with no active flow who sends "Клиентские заказы" gets every order, whatever the allowlist holds |
| `FlowProperties.AdminInquiriesIgnoreAllowlist` | main.py:372-382 | any user with no active flow who sends "Тикеты" gets every inquiry, whatever the allowlist holds |
| `FlowProperties.AdminOrdersAppend` | main.py:364-366 | a new order adds exactly its line to the end of the admin listing |
| `FlowProperties.ViewInquiriesEmptyIff` | main.py:296-300 | the inquiry list takes the "no inquiries yet" branch exactly when the user owns none |
| `FlowProperties.InquiryButtonOpensItsInquiry` | main.py:296-321 | pressing the i-th button of the list shows the i-th inquiry of the user's |
| `Conversation.Bot.constructor` | main.py:22-67 | the bot starts with empty tables and no conversations, satisfying the invariant |
| `Conversation.Bot.StartCommand` | main.py:140-160 | the object's new state and replies are those of `Flows.StartCommand` |
| `Conversation.Bot.ProcessContact` | main.py:164-170 | the object's new state and replies are those of `Flows.ProcessContact` |
| `Conversation.Bot.ProcessFullName` | main.py:174-188 | the object's new state and replies are those of `Flows.ProcessFullName` |
| `Conversation.Bot.ViewOrders` | main.py:215-231 | the loop-built listing equals `Flows.ViewOrders` |
| `Conversation.Bot.CreateOrder` | main.py:238-242 | the object's new state and replies are those of `Flows.CreateOrder` |
| `Conversation.Bot.ProcessOrderProductName` | main.py:246-251 | the object's new state and replies are those of `Flows.ProcessOrderProductName` |
| `Conversation.Bot.ProcessOrderQuantity` | main.py:255-260 | the object's new state and replies are those of `Flows.ProcessOrderQuantity` |
| `Conversation.Bot.ProcessOrderAddress` | main.py:264-276 | the object's new state and replies are those of `Flows.ProcessOrderAddress` |
| `Conversation.Bot.CreateInquiry` | main.py:325-329 | the object's new state and replies are those of `Flows.CreateInquiry` |
| `Conversation.Bot.ProcessInquiryTopic` | main.py:333-338 | the object's new state and replies are those of `Flows.ProcessInquiryTopic` |
| `Conversation.Bot.ProcessInquiryMessage` | main.py:342-353 | the object's new state and replies are those of `Flows.ProcessInquiryMessage` |
| `Conversation.Bot.AdminOrders` | main.py:358-368 | the loop-built listing equals `Flows.AdminOrders` |
| `Conversation.Bot.AdminInquiries` | main.py:372-382 | the loop-built listing equals `Flows.AdminInquiries` |
| `Conversation.Bot.HandleText` | main.py:140-382 | a text message changes the object as `Flows.HandleText` says, keeping the invariant |
| `Conversation.Bot.HandleCallback` | main.py:215-329 | a button press changes the object as `Flows.HandleCallback` says, keeping the invariant |
| `Conversation.Bot.Handle` | main.py:140-382 | any event changes the object as `Flows.Step` says, keeping the invariant |

## Left out

- Telegram transport: the bot, dispatcher, polling, `query.answer()` and reply quoting are I/O. Replies are modelled as text plus a keyboard tag; reply-keyboard layout is not modelled.
- Concurrency: each handler is one atomic step. The source does not serialise updates: aiogram's `MemoryStorage` is an unlocked dictionary, polling handles a batch of updates concurrently and no handler takes a lock. The model assumes that each update is handled to completion before the next. It therefore does not cover the interleavings that arise where a handler awaits a Telegram request before it changes the state: `start_command` (main.py:150-152), `process_contact` (main.py:168-169), `create_order` (main.py:240-242), `create_inquiry` (main.py:327-329) and `process_inquiry_topic` (main.py:337-338). For example, `/start` and then a contact from an unknown user in one batch: the contact is filtered while the user still has no state and is dropped, where the model accepts it. The final steps are not affected: between their state filter and `finish()` they await only `MemoryStorage` calls, which never wait, and the insert is synchronous.
- Persistence: peewee and SQLite become in-memory sequences. The only storage failure modelled is the NOT NULL abort described above; other I/O errors are not.
- Configuration: the YAML loaders `load_admins` and `load_telegram_token` are file I/O. The allowlist is a parameter.
- Time: `datetime.now()` is the parameter `now`, one reading per update.
- Logging: the `print` of the phone number and the logging set-up are left out.
- `tech_support`: the handler for "Поддержка" does nothing, so that text is treated like any text no handler takes.
- `user_id` types: the column is text, and the handlers compare it with both `str(id)` and the integer id. The model uses one integer id throughout. This is sound because the column is a peewee `CharField`, which converts the integer id to its decimal text both when a row is created (main.py:185, 272, 349) and when the id is the right operand of a comparison with the column (main.py:143, 155, 181, 296). SQLite's TEXT affinity on the column would do the same.
- `/start` detection is simplified. The model takes a text whose first word is exactly `/start`, with the word ending at a space, tab, newline or carriage return. It leaves out aiogram's case-insensitive match, `@botname` mentions, leading whitespace, and the other Unicode whitespace that Python's `split()` also separates on (`\x0b`, `\x0c`, `\x85`, `\xa0`, `\u2000`-`\u200a`, `\u3000` and others).
- `Strings.ParseInt` models `int()` only as an optional sign and ASCII digits. Python also strips surrounding whitespace, accepts other Unicode digits and accepts single underscores between digits (`int("1_0") == 10`); on those inputs the model fails with ValueError where Python succeeds.
- Chat and user ids: the model assumes a private chat, where the chat id and the user id are the same number and one `uid` stands for both. The source writes and looks rows up by `message.chat.id` (main.py:143, 181, 185, 272, 349), but `view_orders_callback` and `view_inquiries` query by `query.from_user.id` (main.py:217, 220, 296), and aiogram keys the FSM by the pair (chat, user). In a group chat these differ, and the model does not cover it.
- Telegram's limits on message length and on empty texts are not modelled.
