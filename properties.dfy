/**
 * What the conversation core promises, stated over `Flows.Step` and
 * `Flows.Run`: which events write rows, what a completed flow writes, what the
 * listings show, and that inline-button tokens lead back to their rows.
 */
module FlowProperties {
  import opened Wrappers
  import opened Strings
  import opened Records
  import opened Replies
  import opened Flows

  /** The event is the last step of the user's current flow. */
  predicate Completes(w: World, uid: UserId, e: Event) {
    e.Text? && uid in w.sessions && IsFinal(w.sessions[uid].state)
  }

  function RowCount(w: World): nat {
    |w.users| + |w.orders| + |w.inquiries|
  }

  /** Every table of w' extends the same table of w. */
  predicate AppendOnly(w: World, w': World) {
    && w.users <= w'.users
    && w.orders <= w'.orders
    && w.inquiries <= w'.inquiries
  }

  // ---------------------------------------------------------------- one step

  /**
   * `/start` from a user with no state enters registration exactly when no
   * user row has that id; for a known user nothing changes at all.
   */
  lemma StartEntersRegistrationIffUnknown(w: World, uid: UserId, text: string, admins: seq<int>, now: Timestamp)
    requires uid !in w.sessions && IsStartCommand(text)
    ensures var w' := Step(w, uid, Text(text), admins, now).world;
      && TablesUnchanged(w, w')
      && (uid in w'.sessions <==> !HasUser(w.users, uid))
      && (uid in w'.sessions ==> w'.sessions[uid] == Session(PhoneNumber, map[]))
      && (HasUser(w.users, uid) ==> w' == w)
  {
  }

  /** A known user is greeted as administrator exactly when the allowlist has the id; the role column plays no part. */
  lemma StartGreetingFollowsAllowlist(w: World, uid: UserId, text: string, admins: seq<int>, now: Timestamp)
    requires uid !in w.sessions && IsStartCommand(text) && HasUser(w.users, uid)
    ensures var r := Step(w, uid, Text(text), admins, now).replies;
      && |r| == 1
      && (r[0].markup == AdminMenu <==> uid in admins)
      && (uid in admins ==> r == [Reply(AdminGreetingText, AdminMenu)])
      && (uid !in admins ==> r[0].text == ClientGreetingText(FindUser(w.users, uid).value.fullName))
  {
  }

  /**
   * Only the final step of a flow writes, and it writes exactly one row and
   * clears the user's state; every other event leaves the tables as they were.
   */
  lemma StepWritesOnlyOnCompletion(w: World, uid: UserId, e: Event, admins: seq<int>, now: Timestamp)
    requires Valid(w)
    ensures var w' := Step(w, uid, e, admins, now).world;
      && AppendOnly(w, w')
      && RowCount(w') == RowCount(w) + (if Completes(w, uid, e) then 1 else 0)
      && (Completes(w, uid, e) ==> uid !in w'.sessions)
      && (!Completes(w, uid, e) ==> TablesUnchanged(w, w'))
  {
  }

  /** With no flow active, a text that is not `/start` neither writes a row nor starts a flow. */
  lemma IdleTextChangesNothing(w: World, uid: UserId, text: string, admins: seq<int>, now: Timestamp)
    requires uid !in w.sessions && !IsStartCommand(text)
    ensures Step(w, uid, Text(text), admins, now).world == w
  {
  }

  /**
   * Input no handler accepts is dropped without a reply: a text while a phone
   * number is expected, a contact outside that state, any button while a flow
   * is active. In particular no flow can be entered from inside another.
   */
  lemma UnacceptedInputIsDropped(w: World, uid: UserId, e: Event, admins: seq<int>, now: Timestamp)
    requires uid in w.sessions
    requires || (e.Text? && w.sessions[uid].state == PhoneNumber)
             || (e.Contact? && w.sessions[uid].state != PhoneNumber)
             || e.Callback?
    ensures Step(w, uid, e, admins, now) == Outcome(w, [])
  {
  }

  // ------------------------------------------------------------ whole flows

  /** Registration: `/start`, a contact, a name create exactly the user row and leave no state. */
  lemma RegistrationFlow(w: World, uid: UserId, start: string, phone: string, name: string, admins: seq<int>, now: Timestamp)
    requires uid !in w.sessions && !HasUser(w.users, uid) && IsStartCommand(start)
    ensures var o := Run(w, [Update(uid, Text(start), admins, now), Update(uid, Contact(phone), admins, now), Update(uid, Text(name), admins, now)]);
      && o.world == w.(users := w.users + [User(|w.users| + 1, uid, phone, name, DefaultRole)])
      && o.replies == [Reply(WelcomeText, ContactRequest), Reply(AskFullNameText, RemoveKeyboard),
                       Reply(RegisteredText(name), ClientMenu)]
  {
    var es := [Update(uid, Text(start), admins, now), Update(uid, Contact(phone), admins, now), Update(uid, Text(name), admins, now)];
    var o1 := Step(w, uid, es[0].event, admins, now);
    assert o1.world == w.(sessions := w.sessions[uid := Session(PhoneNumber, map[])]);
    var o2 := Step(o1.world, uid, es[1].event, admins, now);
    assert o2.world == w.(sessions := w.sessions[uid := Session(FullName, map[PhoneKey := phone])]);
    var o3 := Step(o2.world, uid, es[2].event, admins, now);
    assert !HasUser(o2.world.users, uid);
    assert o2.world.sessions - {uid} == w.sessions;
    assert o3.world == w.(users := w.users + [User(|w.users| + 1, uid, phone, name, DefaultRole)]);
    assert es[1..][1..][1..] == [];
    assert Run(o2.world, es[2..]) == Outcome(o3.world, o3.replies);
  }

  /**
   * Order creation: the button, a product, a quantity and an address create
   * exactly one order with that product and quantity, the initial status and
   * the current time, and leave no state. The address is not kept.
   */
  lemma OrderFlow(w: World, uid: UserId, product: string, quantity: string, address: string, admins: seq<int>, now: Timestamp)
    requires uid !in w.sessions
    ensures var o := Run(w, [Update(uid, Callback(CreateOrderToken), admins, now), Update(uid, Text(product), admins, now),
                             Update(uid, Text(quantity), admins, now), Update(uid, Text(address), admins, now)]);
      && o.world == w.(orders := w.orders + [Order(|w.orders| + 1, uid, product, quantity, NewOrderStatus, now)])
      && o.replies == [Reply(AskProductText, NoMarkup), Reply(AskQuantityText, NoMarkup),
                       Reply(AskAddressText, NoMarkup), Reply(OrderCreatedText, ClientMenu)]
  {
    var es := [Update(uid, Callback(CreateOrderToken), admins, now), Update(uid, Text(product), admins, now),
               Update(uid, Text(quantity), admins, now), Update(uid, Text(address), admins, now)];
    var w1 := w.(sessions := w.sessions[uid := Session(ProductName, map[])]);
    var w2 := w.(sessions := w.sessions[uid := Session(Quantity, map[ProductKey := product])]);
    var w3 := w.(sessions := w.sessions[uid := Session(Address, map[ProductKey := product, QuantityKey := quantity])]);
    OrderFlowSteps(w, uid, product, quantity, address, admins, now);
    assert es[1..][1..][1..][1..] == [];
    assert Run(w3, es[3..]) == Step(w3, uid, Text(address), admins, now);
    assert Run(w2, es[2..]).world == Run(w3, es[3..]).world;
    assert Run(w1, es[1..]).world == Run(w3, es[3..]).world;
  }

  /** The four steps of the order flow, one at a time. */
  lemma OrderFlowSteps(w: World, uid: UserId, product: string, quantity: string, address: string, admins: seq<int>, now: Timestamp)
    requires uid !in w.sessions
    ensures var w1 := w.(sessions := w.sessions[uid := Session(ProductName, map[])]);
      Step(w, uid, Callback(CreateOrderToken), admins, now) == Outcome(w1, [Reply(AskProductText, NoMarkup)])
    ensures var w1 := w.(sessions := w.sessions[uid := Session(ProductName, map[])]);
      var w2 := w.(sessions := w.sessions[uid := Session(Quantity, map[ProductKey := product])]);
      Step(w1, uid, Text(product), admins, now) == Outcome(w2, [Reply(AskQuantityText, NoMarkup)])
    ensures var w2 := w.(sessions := w.sessions[uid := Session(Quantity, map[ProductKey := product])]);
      var w3 := w.(sessions := w.sessions[uid := Session(Address, map[ProductKey := product, QuantityKey := quantity])]);
      Step(w2, uid, Text(quantity), admins, now) == Outcome(w3, [Reply(AskAddressText, NoMarkup)])
    ensures var w3 := w.(sessions := w.sessions[uid := Session(Address, map[ProductKey := product, QuantityKey := quantity])]);
      Step(w3, uid, Text(address), admins, now)
        == Outcome(w.(orders := w.orders + [Order(|w.orders| + 1, uid, product, quantity, NewOrderStatus, now)]),
                   [Reply(OrderCreatedText, ClientMenu)])
  {
    var w3 := w.(sessions := w.sessions[uid := Session(Address, map[ProductKey := product, QuantityKey := quantity])]);
    assert w3.sessions - {uid} == w.sessions;
  }

  /** Inquiry creation: the button, a topic and a message create exactly one inquiry and leave no state. */
  lemma InquiryFlow(w: World, uid: UserId, topic: string, message: string, admins: seq<int>, now: Timestamp)
    requires uid !in w.sessions
    ensures var o := Run(w, [Update(uid, Callback(CreateInquiryToken), admins, now), Update(uid, Text(topic), admins, now), Update(uid, Text(message), admins, now)]);
      && o.world == w.(inquiries := w.inquiries + [Inquiry(|w.inquiries| + 1, uid, topic, message, NewInquiryStatus, now)])
      && o.replies == [Reply(AskTopicText, NoMarkup), Reply(AskInquiryMessageText, NoMarkup), Reply(InquiryCreatedText, NoMarkup)]
  {
    var es := [Update(uid, Callback(CreateInquiryToken), admins, now), Update(uid, Text(topic), admins, now), Update(uid, Text(message), admins, now)];
    assert CreateInquiryToken[0] != ViewInquiryPrefix[0];
    var o1 := Step(w, uid, es[0].event, admins, now);
    assert o1 == CreateInquiry(w, uid);
    assert o1.world == w.(sessions := w.sessions[uid := Session(Topic, map[])]);
    var o2 := Step(o1.world, uid, es[1].event, admins, now);
    assert o2 == ProcessInquiryTopic(o1.world, uid, topic);
    assert o2.world == w.(sessions := w.sessions[uid := Session(Message, map[TopicKey := topic])]);
    var o3 := Step(o2.world, uid, es[2].event, admins, now);
    assert o3 == ProcessInquiryMessage(o2.world, uid, message, now);
    assert o2.world.sessions - {uid} == w.sessions;
    assert o3.world == w.(inquiries := w.inquiries + [Inquiry(|w.inquiries| + 1, uid, topic, message, NewInquiryStatus, now)]);
    assert es[1..][1..][1..] == [];
    assert Run(o2.world, es[2..]) == Outcome(o3.world, o3.replies);
  }

  // ----------------------------------------------------------- many events

  /**
   * Any stream of updates, from any users interleaved in any order and each
   * with its own allowlist and clock reading, keeps the invariant, so in
   * particular there is never more than one user row per id.
   */
  lemma {:induction false} RunPreservesValid(w: World, us: seq<Update>)
    requires Valid(w)
    ensures Valid(Run(w, us).world)
    ensures UniqueUserIds(Run(w, us).world.users)
    decreases |us|
  {
    if us != [] {
      RunPreservesValid(Step(w, us[0].from, us[0].event, us[0].admins, us[0].now).world, us[1..]);
    }
  }

  /** How many of the updates complete a flow, each judged in the state it arrives in. */
  function CompletedSteps(w: World, us: seq<Update>): nat
    decreases |us|
  {
    if us == [] then 0
    else
      (if Completes(w, us[0].from, us[0].event) then 1 else 0)
      + CompletedSteps(Step(w, us[0].from, us[0].event, us[0].admins, us[0].now).world, us[1..])
  }

  /**
   * Exactly one row per completed flow, over any interleaving of users,
   * allowlists and clock readings: the tables grow by the number of final
   * steps taken, and only by appending.
   */
  lemma {:induction false} RunRowCount(w: World, us: seq<Update>)
    requires Valid(w)
    ensures AppendOnly(w, Run(w, us).world)
    ensures RowCount(Run(w, us).world) == RowCount(w) + CompletedSteps(w, us)
    decreases |us|
  {
    if us != [] {
      var u := us[0];
      StepWritesOnlyOnCompletion(w, u.from, u.event, u.admins, u.now);
      RunRowCount(Step(w, u.from, u.event, u.admins, u.now).world, us[1..]);
    }
  }

  // --------------------------------------------------------------- listings

  /** "My orders" takes the empty-state branch exactly when the user owns no order. */
  lemma ViewOrdersEmptyIff(w: World, uid: UserId)
    ensures ViewOrders(w, uid)[0].text == NoOrdersText <==> forall i :: 0 <= i < |w.orders| ==> w.orders[i].userId != uid
  {
    OwnedEmptyIff(w.orders, OrderOwner, uid);
    var mine := Owned(w.orders, OrderOwner, uid);
    if mine != [] {
      var text := MyOrdersText(mine);
      assert text[0] == MyOrdersHeader[0] == 'С';
      assert NoOrdersText[0] == 'В';
    }
  }

  /**
   * After an order of the user's is appended (as the order flow does), the
   * user's listing is the former one, or the bare header if it was empty,
   * with exactly one more line: the new order's.
   */
  lemma ViewOrdersAfterNewOrder(w: World, o: Order)
    ensures ViewOrders(w.(orders := w.orders + [o]), o.userId)[0].text ==
      (if Owned(w.orders, OrderOwner, o.userId) == [] then MyOrdersHeader else ViewOrders(w, o.userId)[0].text) + OrderLine(o)
  {
    OwnedAppend(w.orders, OrderOwner, o.userId, o);
    MyOrdersTextAppend(Owned(w.orders, OrderOwner, o.userId), o);
  }

  /** An order of another user's leaves the user's listing exactly as it was. */
  lemma ViewOrdersAfterOthersOrder(w: World, uid: UserId, o: Order)
    requires o.userId != uid
    ensures ViewOrders(w.(orders := w.orders + [o]), uid) == ViewOrders(w, uid)
  {
    OwnedAppend(w.orders, OrderOwner, uid, o);
  }

  /** The admin's order listing is every order, one line each, whatever the allowlist says. */
  lemma AdminOrdersIgnoreAllowlist(w: World, uid: UserId, admins: seq<int>, now: Timestamp)
    requires uid !in w.sessions
    ensures Step(w, uid, Text(ClientOrdersButton), admins, now) == Outcome(w, [Reply(AllOrdersHeader + OrderLines(w.orders), NoMarkup)])
  {
  }

  /** The admin's inquiry listing likewise; neither listing is gated by `is_admin`. */
  lemma AdminInquiriesIgnoreAllowlist(w: World, uid: UserId, admins: seq<int>, now: Timestamp)
    requires uid !in w.sessions
    ensures Step(w, uid, Text(TicketsButton), admins, now) == Outcome(w, [Reply(AllInquiriesHeader + InquiryLines(w.inquiries), NoMarkup)])
  {
    assert TicketsButton[0] != '/';
  }

  /** A new order adds exactly its line to the end of the admin's listing. */
  lemma AdminOrdersAppend(w: World, o: Order)
    ensures AdminOrders(w.(orders := w.orders + [o]))[0].text == AdminOrders(w)[0].text + OrderLine(o)
  {
  }

  /** "My inquiries" takes the empty-state branch exactly when the user owns no inquiry. */
  lemma ViewInquiriesEmptyIff(w: World, uid: UserId)
    ensures ViewInquiries(w, uid) == [Reply(NoInquiriesText, NoMarkup)] <==> forall i :: 0 <= i < |w.inquiries| ==> w.inquiries[i].userId != uid
  {
    OwnedEmptyIff(w.inquiries, InquiryOwner, uid);
  }

  /**
   * Pressing the i-th button of the inquiry list shows the i-th inquiry of
   * the user's: the token built for the button parses back to that row's id.
   */
  lemma InquiryButtonOpensItsInquiry(w: World, uid: UserId, i: nat, admins: seq<int>, now: Timestamp)
    requires Valid(w) && uid !in w.sessions
    requires i < |Owned(w.inquiries, InquiryOwner, uid)|
    ensures var mine := Owned(w.inquiries, InquiryOwner, uid);
      && ViewInquiries(w, uid) == [Reply(ChooseInquiryText, InlineButtons(InquiryButtons(mine)))]
      && Step(w, uid, Callback(InquiryButtons(mine)[i].token), admins, now) == Outcome(w, [Reply(InquiryDetails(mine[i]), NoMarkup)])
  {
    var mine := Owned(w.inquiries, InquiryOwner, uid);
    var q := mine[i];
    assert q in mine;
    var k :| 0 <= k < |w.inquiries| && w.inquiries[k] == q;
    ParseInquiryTokenRoundTrip(q.id);
    FindInquiryById(w.inquiries, q.id);
  }
}
