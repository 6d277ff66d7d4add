/**
 * The conversation core as a pure state machine: a World holds the three
 * tables and every user's conversation state, each handler is a function from
 * a World to an Outcome (the new World and the replies sent), and `Step`
 * routes one inbound event to the handler the dispatcher would pick.
 */
module Flows {
  import opened Wrappers
  import opened Strings
  import opened Records
  import opened Replies

  /** The states of the three StatesGroups: registration, order creation, inquiry creation. */
  datatype State =
    | PhoneNumber | FullName              // UserAuthorization
    | ProductName | Quantity | Address    // OrderCreation
    | Topic | Message                     // InquiryCreation

  /** The last state of its flow: the step whose handler writes a row. */
  predicate IsFinal(s: State) {
    s.FullName? || s.Address? || s.Message?
  }

  predicate InRegistration(s: State) {
    s.PhoneNumber? || s.FullName?
  }

  /** `StatesGroup.next()`: the following state of the same group. */
  function Next(s: State): State
    requires !IsFinal(s)
  {
    match s
    case PhoneNumber => FullName
    case ProductName => Quantity
    case Quantity => Address
    case Topic => Message
  }

  // The names under which `state.update_data` stores the collected values.
  const PhoneKey: string := "phone_number"
  const ProductKey: string := "order_product_name"
  const QuantityKey: string := "order_quantity"
  const TopicKey: string := "topic"

  /** The fields a flow has collected by the time it reaches a state. */
  function ExpectedKeys(s: State): set<string> {
    match s
    case PhoneNumber => {}
    case FullName => {PhoneKey}
    case ProductName => {}
    case Quantity => {ProductKey}
    case Address => {ProductKey, QuantityKey}
    case Topic => {}
    case Message => {TopicKey}
  }

  /**
   * A user's FSM record: the current state and the data collected so far.
   * A user without a Session is in aiogram's "no state", whose data is empty:
   * `state.finish()` clears both, and no handler stores data outside a flow.
   */
  datatype Session = Session(state: State, fields: map<string, string>)

  /** An inbound update: a text message, a shared contact, or an inline-button press. */
  datatype Event = Text(text: string) | Contact(phoneNumber: string) | Callback(data: string)

  datatype World = World(users: seq<User>, orders: seq<Order>, inquiries: seq<Inquiry>, sessions: map<UserId, Session>)

  datatype Outcome = Outcome(world: World, replies: seq<Reply>)

  /** `is_admin`: membership of the id in the configured allowlist. */
  function IsAdmin(uid: UserId, admins: seq<int>): (r: bool)
    ensures r <==> exists i :: 0 <= i < |admins| && admins[i] == uid
  {
    uid in admins
  }

  /**
   * The invariant the handlers keep: user ids are unique, row ids run 1, 2, ...
   * in each table, every session holds exactly the fields its state has
   * collected, and a user in the registration flow has no user row yet.
   */
  predicate Valid(w: World) {
    && UniqueUserIds(w.users)
    && DenseUserIds(w.users)
    && DenseOrderIds(w.orders)
    && DenseInquiryIds(w.inquiries)
    && forall uid :: uid in w.sessions ==> SessionFits(w, uid)
  }

  predicate SessionFits(w: World, uid: UserId)
    requires uid in w.sessions
  {
    var s := w.sessions[uid];
    s.fields.Keys == ExpectedKeys(s.state) && (InRegistration(s.state) ==> !HasUser(w.users, uid))
  }

  predicate TablesUnchanged(w: World, w': World) {
    w'.users == w.users && w'.orders == w.orders && w'.inquiries == w.inquiries
  }

  /** Nobody's conversation but uid's is touched. */
  predicate OthersUntouched(w: World, w': World, uid: UserId) {
    w'.sessions - {uid} == w.sessions - {uid}
  }

  lemma UntouchedSession(w: World, w': World, uid: UserId, v: UserId)
    requires OthersUntouched(w, w', uid) && v != uid && v in w'.sessions
    ensures v in w.sessions && w'.sessions[v] == w.sessions[v]
  {
    assert v in w'.sessions - {uid};
    assert (w'.sessions - {uid})[v] == w'.sessions[v];
    assert (w.sessions - {uid})[v] == w.sessions[v];
  }

  /** An intermediate step: value stored under key, state moved on, no table written. */
  predicate Advanced(w: World, w': World, uid: UserId, key: string, value: string)
    requires uid in w.sessions && !IsFinal(w.sessions[uid].state)
  {
    && TablesUnchanged(w, w')
    && OthersUntouched(w, w', uid)
    && uid in w'.sessions
    && w'.sessions[uid] == Session(Next(w.sessions[uid].state), w.sessions[uid].fields[key := value])
  }

  /** A flow entered from no state: its first state, nothing collected, no table written. */
  predicate Entered(w: World, w': World, uid: UserId, first: State) {
    && TablesUnchanged(w, w')
    && OthersUntouched(w, w', uid)
    && uid in w'.sessions
    && w'.sessions[uid] == Session(first, map[])
  }

  lemma EnteredKeepsValid(w: World, w': World, uid: UserId, first: State)
    requires Valid(w) && uid !in w.sessions && Entered(w, w', uid, first)
    requires ExpectedKeys(first) == {}
    requires InRegistration(first) ==> !HasUser(w.users, uid)
    ensures Valid(w')
  {
    forall v | v in w'.sessions ensures SessionFits(w', v) {
      if v != uid {
        UntouchedSession(w, w', uid, v);
        assert SessionFits(w, v);
      }
    }
  }

  lemma AdvancedKeepsValid(w: World, w': World, uid: UserId, key: string, value: string)
    requires Valid(w) && uid in w.sessions && !IsFinal(w.sessions[uid].state)
    requires ExpectedKeys(Next(w.sessions[uid].state)) == ExpectedKeys(w.sessions[uid].state) + {key}
    requires Advanced(w, w', uid, key, value)
    ensures Valid(w')
  {
    forall v | v in w'.sessions ensures SessionFits(w', v) {
      if v != uid {
        UntouchedSession(w, w', uid, v);
      }
      assert SessionFits(w, v);
    }
  }

  /** `start_command`: greet a known user; ask an unknown one for a phone number. */
  function StartCommand(w: World, uid: UserId, admins: seq<int>): (o: Outcome)
    requires uid !in w.sessions
    ensures Valid(w) ==> Valid(o.world)
    ensures HasUser(w.users, uid) ==> o.world == w
    ensures !HasUser(w.users, uid) ==> Entered(w, o.world, uid, PhoneNumber)
    ensures |o.replies| == 1
  {
    match FindUser(w.users, uid)
    case None =>
      var w' := w.(sessions := w.sessions[uid := Session(PhoneNumber, map[])]);
      assert Valid(w) ==> Valid(w') by {
        if Valid(w) { EnteredKeepsValid(w, w', uid, PhoneNumber); }
      }
      Outcome(w', [Reply(WelcomeText, ContactRequest)])
    case Some(user) =>
      if IsAdmin(user.userId, admins) then
        Outcome(w, [Reply(AdminGreetingText, AdminMenu)])
      else
        Outcome(w, [Reply(ClientGreetingText(user.fullName), ClientMenu)])
  }

  /** `process_contact`: keep the shared phone number and ask for the full name. */
  function ProcessContact(w: World, uid: UserId, phone: string): (o: Outcome)
    requires uid in w.sessions && w.sessions[uid].state == PhoneNumber
    ensures Valid(w) ==> Valid(o.world)
    ensures Advanced(w, o.world, uid, PhoneKey, phone)
  {
    var s := w.sessions[uid];
    var w' := w.(sessions := w.sessions[uid := Session(Next(s.state), s.fields[PhoneKey := phone])]);
    assert Valid(w) ==> Valid(w') by {
      if Valid(w) { AdvancedKeepsValid(w, w', uid, PhoneKey, phone); }
    }
    Outcome(w', [Reply(AskFullNameText, RemoveKeyboard)])
  }

  /**
   * `process_fullname`: create the user row unless one exists, then finish the
   * flow. A missing phone number would reach a NOT NULL column and abort the
   * handler before `finish()`.
   */
  function ProcessFullName(w: World, uid: UserId, fullName: string): (o: Outcome)
    requires uid in w.sessions && w.sessions[uid].state == FullName
    ensures o.world.orders == w.orders && o.world.inquiries == w.inquiries
    ensures UniqueUserIds(w.users) ==> UniqueUserIds(o.world.users)
    ensures Valid(w) ==> Valid(o.world)
    ensures Valid(w) ==> o.world == w.(users := w.users + [User(|w.users| + 1, uid, w.sessions[uid].fields[PhoneKey], fullName, DefaultRole)],
                                        sessions := w.sessions - {uid})
    ensures Valid(w) ==> o.replies == [Reply(RegisteredText(fullName), ClientMenu)]
    ensures HasUser(w.users, uid) ==> o == Outcome(w.(sessions := w.sessions - {uid}), [Reply(RegisteredText(fullName), ClientMenu)])
  {
    var s := w.sessions[uid];
    if HasUser(w.users, uid) then
      Outcome(w.(sessions := w.sessions - {uid}), [Reply(RegisteredText(fullName), ClientMenu)])
    else if PhoneKey !in s.fields then
      Outcome(w, [])
    else
      var user := User(NextId(w.users), uid, s.fields[PhoneKey], fullName, DefaultRole);
      var w' := w.(users := w.users + [user], sessions := w.sessions - {uid});
      assert UniqueUserIds(w.users) ==> UniqueUserIds(w'.users);
      assert Valid(w) ==> Valid(w') by {
        if Valid(w) {
          forall v | v in w'.sessions ensures SessionFits(w', v) {
            assert SessionFits(w, v);
            if InRegistration(w.sessions[v].state) {
              assert !HasUser(w.users, v);
            }
          }
        }
      }
      Outcome(w', [Reply(RegisteredText(fullName), ClientMenu)])
  }

  /** `process_main_menu`: the three client menu buttons; nothing is stored. */
  function ProcessMainMenu(button: string): (r: seq<Reply>)
    requires button in MainMenuButtons
    ensures |r| == 1
    ensures button == MyOrdersButton ==> r[0].markup == InlineButtons(OrderOptionButtons)
    ensures button == InquiriesButton ==> r[0].markup == InlineButtons(InquiryOptionButtons)
    ensures button != SupportButton ==> r[0].text == ChooseActionText
    ensures button == SupportButton ==> r == [Reply(SupportSearchText, NoMarkup)]
  {
    if button == MyOrdersButton then
      [Reply(ChooseActionText, InlineButtons(OrderOptionButtons))]
    else if button == InquiriesButton then
      [Reply(ChooseActionText, InlineButtons(InquiryOptionButtons))]
    else
      [Reply(SupportSearchText, NoMarkup)]
  }

  /** `view_orders_callback`: the user's own orders, or the "no orders yet" text. */
  function ViewOrders(w: World, uid: UserId): (r: seq<Reply>)
    ensures |r| == 1 && r[0].markup == NoMarkup
  {
    [Reply(MyOrdersText(Owned(w.orders, OrderOwner, uid)), NoMarkup)]
  }

  /** `create_order`: enter the order flow. */
  function CreateOrder(w: World, uid: UserId): (o: Outcome)
    requires uid !in w.sessions
    ensures Valid(w) ==> Valid(o.world)
    ensures Entered(w, o.world, uid, ProductName)
  {
    var w' := w.(sessions := w.sessions[uid := Session(ProductName, map[])]);
    assert Valid(w) ==> Valid(w') by {
      if Valid(w) { EnteredKeepsValid(w, w', uid, ProductName); }
    }
    Outcome(w', [Reply(AskProductText, NoMarkup)])
  }

  function ProcessOrderProductName(w: World, uid: UserId, product: string): (o: Outcome)
    requires uid in w.sessions && w.sessions[uid].state == ProductName
    ensures Valid(w) ==> Valid(o.world)
    ensures Advanced(w, o.world, uid, ProductKey, product)
  {
    var s := w.sessions[uid];
    var w' := w.(sessions := w.sessions[uid := Session(Next(s.state), s.fields[ProductKey := product])]);
    assert Valid(w) ==> Valid(w') by {
      if Valid(w) { AdvancedKeepsValid(w, w', uid, ProductKey, product); }
    }
    Outcome(w', [Reply(AskQuantityText, NoMarkup)])
  }

  function ProcessOrderQuantity(w: World, uid: UserId, quantity: string): (o: Outcome)
    requires uid in w.sessions && w.sessions[uid].state == Quantity
    ensures Valid(w) ==> Valid(o.world)
    ensures Advanced(w, o.world, uid, QuantityKey, quantity)
  {
    var s := w.sessions[uid];
    var w' := w.(sessions := w.sessions[uid := Session(Next(s.state), s.fields[QuantityKey := quantity])]);
    assert Valid(w) ==> Valid(w') by {
      if Valid(w) { AdvancedKeepsValid(w, w', uid, QuantityKey, quantity); }
    }
    Outcome(w', [Reply(AskAddressText, NoMarkup)])
  }

  /**
   * `process_order_address`: create the order from the collected product and
   * quantity and finish the flow. The address itself is not stored.
   */
  function ProcessOrderAddress(w: World, uid: UserId, address: string, now: Timestamp): (o: Outcome)
    requires uid in w.sessions && w.sessions[uid].state == Address
    ensures o.world.users == w.users && o.world.inquiries == w.inquiries
    ensures Valid(w) ==> Valid(o.world)
    ensures Valid(w) ==> o.world == w.(orders := w.orders + [Order(|w.orders| + 1, uid, w.sessions[uid].fields[ProductKey],
                                                                   w.sessions[uid].fields[QuantityKey], NewOrderStatus, now)],
                                        sessions := w.sessions - {uid})
    ensures Valid(w) ==> o.replies == [Reply(OrderCreatedText, ClientMenu)]
  {
    var s := w.sessions[uid];
    if ProductKey !in s.fields || QuantityKey !in s.fields then
      Outcome(w, [])
    else
      var order := Order(NextId(w.orders), uid, s.fields[ProductKey], s.fields[QuantityKey], NewOrderStatus, now);
      var w' := w.(orders := w.orders + [order], sessions := w.sessions - {uid});
      assert Valid(w) ==> Valid(w') by {
        if Valid(w) {
          forall v | v in w'.sessions ensures SessionFits(w', v) {
            assert SessionFits(w, v);
          }
        }
      }
      Outcome(w', [Reply(OrderCreatedText, ClientMenu)])
  }

  /** `view_inquiries`: a button per inquiry of the user's, or the "no inquiries yet" text. */
  function ViewInquiries(w: World, uid: UserId): (r: seq<Reply>)
    ensures |r| == 1
  {
    var mine := Owned(w.inquiries, InquiryOwner, uid);
    if mine == [] then
      [Reply(NoInquiriesText, NoMarkup)]
    else
      [Reply(ChooseInquiryText, InlineButtons(InquiryButtons(mine)))]
  }

  /**
   * `view_inquiry`: show the inquiry the token names. A token that does not
   * parse, or an id without a row, makes the handler raise: nothing is sent.
   * The inquiry's owner is not checked.
   */
  function ViewInquiry(w: World, data: string): (r: seq<Reply>)
    ensures |r| <= 1
    ensures ParseInquiryToken(data).Failure? ==> r == []
    ensures ParseInquiryToken(data).Success? ==>
      r == match FindInquiry(w.inquiries, ParseInquiryToken(data).value)
           case None => []
           case Some(q) => [Reply(InquiryDetails(q), NoMarkup)]
  {
    match ParseInquiryToken(data)
    case Failure(_) => []
    case Success(id) =>
      match FindInquiry(w.inquiries, id)
      case None => []
      case Some(q) => [Reply(InquiryDetails(q), NoMarkup)]
  }

  /** `create_inquiry`: enter the inquiry flow. */
  function CreateInquiry(w: World, uid: UserId): (o: Outcome)
    requires uid !in w.sessions
    ensures Valid(w) ==> Valid(o.world)
    ensures Entered(w, o.world, uid, Topic)
  {
    var w' := w.(sessions := w.sessions[uid := Session(Topic, map[])]);
    assert Valid(w) ==> Valid(w') by {
      if Valid(w) { EnteredKeepsValid(w, w', uid, Topic); }
    }
    Outcome(w', [Reply(AskTopicText, NoMarkup)])
  }

  function ProcessInquiryTopic(w: World, uid: UserId, topic: string): (o: Outcome)
    requires uid in w.sessions && w.sessions[uid].state == Topic
    ensures Valid(w) ==> Valid(o.world)
    ensures Advanced(w, o.world, uid, TopicKey, topic)
  {
    var s := w.sessions[uid];
    var w' := w.(sessions := w.sessions[uid := Session(Next(s.state), s.fields[TopicKey := topic])]);
    assert Valid(w) ==> Valid(w') by {
      if Valid(w) { AdvancedKeepsValid(w, w', uid, TopicKey, topic); }
    }
    Outcome(w', [Reply(AskInquiryMessageText, NoMarkup)])
  }

  /** `process_inquiry_message`: create the inquiry from the topic and this text, finish the flow. */
  function ProcessInquiryMessage(w: World, uid: UserId, message: string, now: Timestamp): (o: Outcome)
    requires uid in w.sessions && w.sessions[uid].state == Message
    ensures o.world.users == w.users && o.world.orders == w.orders
    ensures Valid(w) ==> Valid(o.world)
    ensures Valid(w) ==> o.world == w.(inquiries := w.inquiries + [Inquiry(|w.inquiries| + 1, uid, w.sessions[uid].fields[TopicKey],
                                                                         message, NewInquiryStatus, now)],
                                        sessions := w.sessions - {uid})
    ensures Valid(w) ==> o.replies == [Reply(InquiryCreatedText, NoMarkup)]
  {
    var s := w.sessions[uid];
    if TopicKey !in s.fields then
      Outcome(w, [])
    else
      var inquiry := Inquiry(NextId(w.inquiries), uid, s.fields[TopicKey], message, NewInquiryStatus, now);
      var w' := w.(inquiries := w.inquiries + [inquiry], sessions := w.sessions - {uid});
      assert Valid(w) ==> Valid(w') by {
        if Valid(w) {
          forall v | v in w'.sessions ensures SessionFits(w', v) {
            assert SessionFits(w, v);
          }
        }
      }
      Outcome(w', [Reply(InquiryCreatedText, NoMarkup)])
  }

  /** `admin_orders`: every order, under a header (no empty-state branch). */
  function AdminOrders(w: World): (r: seq<Reply>)
    ensures |r| == 1
  {
    [Reply(AllOrdersHeader + OrderLines(w.orders), NoMarkup)]
  }

  /** `admin_inquiries`: every inquiry, under a header. */
  function AdminInquiries(w: World): (r: seq<Reply>)
    ensures |r| == 1
  {
    [Reply(AllInquiriesHeader + InquiryLines(w.inquiries), NoMarkup)]
  }

  /**
   * The `/start` command as the Command filter sees it: the first word of the
   * text is `/start`.
   */
  predicate IsStartCommand(text: string) {
    StartsWith(text, "/start") && (|text| == 6 || text[6] in {' ', '\t', '\n', '\r'})
  }

  /**
   * A text message, tried against the text handlers in registration order.
   * Handlers registered without a state fire only when the user has none.
   */
  function HandleText(w: World, uid: UserId, text: string, admins: seq<int>, now: Timestamp): Outcome {
    var idle := uid !in w.sessions;
    if idle && IsStartCommand(text) then StartCommand(w, uid, admins)
    else if !idle && w.sessions[uid].state == FullName then ProcessFullName(w, uid, text)
    else if idle && text in MainMenuButtons then Outcome(w, ProcessMainMenu(text))
    else if !idle && w.sessions[uid].state == ProductName then ProcessOrderProductName(w, uid, text)
    else if !idle && w.sessions[uid].state == Quantity then ProcessOrderQuantity(w, uid, text)
    else if !idle && w.sessions[uid].state == Address then ProcessOrderAddress(w, uid, text, now)
    else if !idle && w.sessions[uid].state == Topic then ProcessInquiryTopic(w, uid, text)
    else if !idle && w.sessions[uid].state == Message then ProcessInquiryMessage(w, uid, text, now)
    else if idle && text == ClientOrdersButton then Outcome(w, AdminOrders(w))
    else if idle && text == TicketsButton then Outcome(w, AdminInquiries(w))
    else Outcome(w, [])
  }

  /** A callback query, tried against the callback handlers in registration order (all state-less). */
  function HandleCallback(w: World, uid: UserId, data: string): Outcome {
    if uid in w.sessions then Outcome(w, [])
    else if data == ViewOrdersToken then Outcome(w, ViewOrders(w, uid))
    else if data == CreateOrderToken then CreateOrder(w, uid)
    else if data == ViewInquiriesToken then Outcome(w, ViewInquiries(w, uid))
    else if StartsWith(data, ViewInquiryPrefix) then Outcome(w, ViewInquiry(w, data))
    else if data == CreateInquiryToken then CreateInquiry(w, uid)
    else Outcome(w, [])
  }

  /**
   * One inbound event from user uid, handled to completion. A contact only
   * reaches `process_contact`, in state PhoneNumber; any other event that no
   * handler accepts is dropped.
   */
  function Step(w: World, uid: UserId, e: Event, admins: seq<int>, now: Timestamp): (o: Outcome)
    ensures Valid(w) ==> Valid(o.world)
    ensures OthersUntouched(w, o.world, uid)
  {
    match e
    case Text(text) => HandleText(w, uid, text, admins, now)
    case Contact(phone) =>
      if uid in w.sessions && w.sessions[uid].state == PhoneNumber then ProcessContact(w, uid, phone) else Outcome(w, [])
    case Callback(data) => HandleCallback(w, uid, data)
  }

  /**
   * One inbound update as the dispatcher delivers it: the user it comes from,
   * the event, and the allowlist and clock reading in force when it is
   * handled (the source re-reads both for each update).
   */
  datatype Update = Update(from: UserId, event: Event, admins: seq<int>, now: Timestamp)

  /**
   * A stream of updates, each handled to completion before the next one,
   * whatever users they interleave.
   */
  function Run(w: World, us: seq<Update>): Outcome
    decreases |us|
  {
    if us == [] then
      Outcome(w, [])
    else
      var first := Step(w, us[0].from, us[0].event, us[0].admins, us[0].now);
      var rest := Run(first.world, us[1..]);
      Outcome(rest.world, first.replies + rest.replies)
  }
}
