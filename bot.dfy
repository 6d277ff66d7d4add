/**
 * The bot as the handlers run it: one object holding the three tables and the
 * per-user FSM storage, and one method per handler that updates them in place.
 * Each method is proved to do what the matching function of Flows says, so
 * everything proved about Flows holds of the object.
 */
module Conversation {
  import opened Wrappers
  import opened Strings
  import opened Records
  import opened Replies
  import opened Flows

  class Bot {
    var users: seq<User>
    var orders: seq<Order>
    var inquiries: seq<Inquiry>
    var sessions: map<UserId, Session>

    /** The object's state as a World of the pure model. */
    function Snapshot(): World
      reads this
    {
      World(users, orders, inquiries, sessions)
    }

    ghost predicate Valid()
      reads this
    {
      Flows.Valid(Snapshot())
    }

    /** Empty tables and no conversation in progress. */
    constructor ()
      ensures Valid()
      ensures Snapshot() == World([], [], [], map[])
    {
      users, orders, inquiries, sessions := [], [], [], map[];
    }

    method StartCommand(uid: UserId, admins: seq<int>) returns (out: seq<Reply>)
      requires Valid() && uid !in sessions
      modifies this
      ensures Valid()
      ensures Snapshot() == Flows.StartCommand(old(Snapshot()), uid, admins).world
      ensures out == Flows.StartCommand(old(Snapshot()), uid, admins).replies
    {
      var user := FindUser(users, uid);
      if user.None? {
        out := [Reply(WelcomeText, ContactRequest)];
        sessions := sessions[uid := Session(PhoneNumber, map[])];
      } else if IsAdmin(user.value.userId, admins) {
        out := [Reply(AdminGreetingText, AdminMenu)];
      } else {
        out := [Reply(ClientGreetingText(user.value.fullName), ClientMenu)];
      }
    }

    method ProcessContact(uid: UserId, phone: string) returns (out: seq<Reply>)
      requires Valid() && uid in sessions && sessions[uid].state == PhoneNumber
      modifies this
      ensures Valid()
      ensures Snapshot() == Flows.ProcessContact(old(Snapshot()), uid, phone).world
      ensures out == Flows.ProcessContact(old(Snapshot()), uid, phone).replies
    {
      var data := sessions[uid].fields[PhoneKey := phone];
      out := [Reply(AskFullNameText, RemoveKeyboard)];
      sessions := sessions[uid := Session(Next(sessions[uid].state), data)];
    }

    method ProcessFullName(uid: UserId, fullName: string) returns (out: seq<Reply>)
      requires Valid() && uid in sessions && sessions[uid].state == FullName
      modifies this
      ensures Valid()
      ensures Snapshot() == Flows.ProcessFullName(old(Snapshot()), uid, fullName).world
      ensures out == Flows.ProcessFullName(old(Snapshot()), uid, fullName).replies
    {
      assert SessionFits(Snapshot(), uid);
      var phone := sessions[uid].fields[PhoneKey];
      var userExists := HasUser(users, uid);
      if !userExists {
        users := users + [User(NextId(users), uid, phone, fullName, DefaultRole)];
      }
      sessions := sessions - {uid};
      out := [Reply(RegisteredText(fullName), ClientMenu)];
    }

    /** `view_orders_callback`: builds the listing line by line, as the handler's loop does. */
    method ViewOrders(uid: UserId) returns (out: seq<Reply>)
      ensures out == Flows.ViewOrders(Snapshot(), uid)
    {
      var userOrders := Owned(orders, OrderOwner, uid);
      if |userOrders| > 0 {
        var text := MyOrdersHeader;
        var i := 0;
        while i < |userOrders|
          invariant 0 <= i <= |userOrders|
          invariant text == MyOrdersHeader + OrderLines(userOrders[..i])
        {
          assert userOrders[..i + 1][..i] == userOrders[..i];
          text := text + OrderLine(userOrders[i]);
          i := i + 1;
        }
        assert userOrders[..i] == userOrders;
        out := [Reply(text, NoMarkup)];
      } else {
        out := [Reply(NoOrdersText, NoMarkup)];
      }
    }

    method CreateOrder(uid: UserId) returns (out: seq<Reply>)
      requires Valid() && uid !in sessions
      modifies this
      ensures Valid()
      ensures Snapshot() == Flows.CreateOrder(old(Snapshot()), uid).world
      ensures out == Flows.CreateOrder(old(Snapshot()), uid).replies
    {
      out := [Reply(AskProductText, NoMarkup)];
      sessions := sessions[uid := Session(ProductName, map[])];
    }

    method ProcessOrderProductName(uid: UserId, product: string) returns (out: seq<Reply>)
      requires Valid() && uid in sessions && sessions[uid].state == ProductName
      modifies this
      ensures Valid()
      ensures Snapshot() == Flows.ProcessOrderProductName(old(Snapshot()), uid, product).world
      ensures out == Flows.ProcessOrderProductName(old(Snapshot()), uid, product).replies
    {
      var data := sessions[uid].fields[ProductKey := product];
      sessions := sessions[uid := Session(Next(sessions[uid].state), data)];
      out := [Reply(AskQuantityText, NoMarkup)];
    }

    method ProcessOrderQuantity(uid: UserId, quantity: string) returns (out: seq<Reply>)
      requires Valid() && uid in sessions && sessions[uid].state == Quantity
      modifies this
      ensures Valid()
      ensures Snapshot() == Flows.ProcessOrderQuantity(old(Snapshot()), uid, quantity).world
      ensures out == Flows.ProcessOrderQuantity(old(Snapshot()), uid, quantity).replies
    {
      var data := sessions[uid].fields[QuantityKey := quantity];
      sessions := sessions[uid := Session(Next(sessions[uid].state), data)];
      out := [Reply(AskAddressText, NoMarkup)];
    }

    method ProcessOrderAddress(uid: UserId, address: string, now: Timestamp) returns (out: seq<Reply>)
      requires Valid() && uid in sessions && sessions[uid].state == Address
      modifies this
      ensures Valid()
      ensures Snapshot() == Flows.ProcessOrderAddress(old(Snapshot()), uid, address, now).world
      ensures out == Flows.ProcessOrderAddress(old(Snapshot()), uid, address, now).replies
    {
      assert SessionFits(Snapshot(), uid);
      var data := sessions[uid].fields;
      var product := data[ProductKey];
      var quantity := data[QuantityKey];
      orders := orders + [Order(NextId(orders), uid, product, quantity, NewOrderStatus, now)];
      sessions := sessions - {uid};
      out := [Reply(OrderCreatedText, ClientMenu)];
    }

    method CreateInquiry(uid: UserId) returns (out: seq<Reply>)
      requires Valid() && uid !in sessions
      modifies this
      ensures Valid()
      ensures Snapshot() == Flows.CreateInquiry(old(Snapshot()), uid).world
      ensures out == Flows.CreateInquiry(old(Snapshot()), uid).replies
    {
      out := [Reply(AskTopicText, NoMarkup)];
      sessions := sessions[uid := Session(Topic, map[])];
    }

    method ProcessInquiryTopic(uid: UserId, topic: string) returns (out: seq<Reply>)
      requires Valid() && uid in sessions && sessions[uid].state == Topic
      modifies this
      ensures Valid()
      ensures Snapshot() == Flows.ProcessInquiryTopic(old(Snapshot()), uid, topic).world
      ensures out == Flows.ProcessInquiryTopic(old(Snapshot()), uid, topic).replies
    {
      var data := sessions[uid].fields[TopicKey := topic];
      sessions := sessions[uid := Session(Next(sessions[uid].state), data)];
      out := [Reply(AskInquiryMessageText, NoMarkup)];
    }

    method ProcessInquiryMessage(uid: UserId, message: string, now: Timestamp) returns (out: seq<Reply>)
      requires Valid() && uid in sessions && sessions[uid].state == Message
      modifies this
      ensures Valid()
      ensures Snapshot() == Flows.ProcessInquiryMessage(old(Snapshot()), uid, message, now).world
      ensures out == Flows.ProcessInquiryMessage(old(Snapshot()), uid, message, now).replies
    {
      assert SessionFits(Snapshot(), uid);
      var topic := sessions[uid].fields[TopicKey];
      inquiries := inquiries + [Inquiry(NextId(inquiries), uid, topic, message, NewInquiryStatus, now)];
      sessions := sessions - {uid};
      out := [Reply(InquiryCreatedText, NoMarkup)];
    }

    /** `admin_orders`: appends one line per order to the header. */
    method AdminOrders() returns (out: seq<Reply>)
      ensures out == Flows.AdminOrders(Snapshot())
    {
      var text := AllOrdersHeader;
      var i := 0;
      while i < |orders|
        invariant 0 <= i <= |orders|
        invariant text == AllOrdersHeader + OrderLines(orders[..i])
      {
        assert orders[..i + 1][..i] == orders[..i];
        text := text + OrderLine(orders[i]);
        i := i + 1;
      }
      assert orders[..i] == orders;
      out := [Reply(text, NoMarkup)];
    }

    /** `admin_inquiries`: appends one line per inquiry to the header. */
    method AdminInquiries() returns (out: seq<Reply>)
      ensures out == Flows.AdminInquiries(Snapshot())
    {
      var text := AllInquiriesHeader;
      var i := 0;
      while i < |inquiries|
        invariant 0 <= i <= |inquiries|
        invariant text == AllInquiriesHeader + InquiryLines(inquiries[..i])
      {
        assert inquiries[..i + 1][..i] == inquiries[..i];
        text := text + InquiryLine(inquiries[i]);
        i := i + 1;
      }
      assert inquiries[..i] == inquiries;
      out := [Reply(text, NoMarkup)];
    }

    /** The text-message handlers, tried in registration order. */
    method HandleText(uid: UserId, text: string, admins: seq<int>, now: Timestamp) returns (out: seq<Reply>)
      requires Valid()
      modifies this
      ensures Valid()
      ensures Snapshot() == Flows.HandleText(old(Snapshot()), uid, text, admins, now).world
      ensures out == Flows.HandleText(old(Snapshot()), uid, text, admins, now).replies
    {
      var idle := uid !in sessions;
      if idle && IsStartCommand(text) {
        out := StartCommand(uid, admins);
      } else if !idle && sessions[uid].state == FullName {
        out := ProcessFullName(uid, text);
      } else if idle && text in MainMenuButtons {
        out := Flows.ProcessMainMenu(text);
      } else if !idle && sessions[uid].state == ProductName {
        out := ProcessOrderProductName(uid, text);
      } else if !idle && sessions[uid].state == Quantity {
        out := ProcessOrderQuantity(uid, text);
      } else if !idle && sessions[uid].state == Address {
        out := ProcessOrderAddress(uid, text, now);
      } else if !idle && sessions[uid].state == Topic {
        out := ProcessInquiryTopic(uid, text);
      } else if !idle && sessions[uid].state == Message {
        out := ProcessInquiryMessage(uid, text, now);
      } else if idle && text == ClientOrdersButton {
        out := AdminOrders();
      } else if idle && text == TicketsButton {
        out := AdminInquiries();
      } else {
        out := [];
      }
    }

    /** The callback handlers, tried in registration order. */
    method HandleCallback(uid: UserId, data: string) returns (out: seq<Reply>)
      requires Valid()
      modifies this
      ensures Valid()
      ensures Snapshot() == Flows.HandleCallback(old(Snapshot()), uid, data).world
      ensures out == Flows.HandleCallback(old(Snapshot()), uid, data).replies
    {
      if uid in sessions {
        out := [];
      } else if data == ViewOrdersToken {
        out := ViewOrders(uid);
      } else if data == CreateOrderToken {
        out := CreateOrder(uid);
      } else if data == ViewInquiriesToken {
        out := Flows.ViewInquiries(Snapshot(), uid);
      } else if StartsWith(data, ViewInquiryPrefix) {
        out := Flows.ViewInquiry(Snapshot(), data);
      } else if data == CreateInquiryToken {
        out := CreateInquiry(uid);
      } else {
        out := [];
      }
    }

    /** One inbound update from user uid. */
    method Handle(uid: UserId, e: Event, admins: seq<int>, now: Timestamp) returns (out: seq<Reply>)
      requires Valid()
      modifies this
      ensures Valid()
      ensures Snapshot() == Step(old(Snapshot()), uid, e, admins, now).world
      ensures out == Step(old(Snapshot()), uid, e, admins, now).replies
    {
      match e
      case Text(text) =>
        out := HandleText(uid, text, admins, now);
      case Contact(phone) =>
        if uid in sessions && sessions[uid].state == PhoneNumber {
          out := ProcessContact(uid, phone);
        } else {
          out := [];
        }
      case Callback(data) =>
        out := HandleCallback(uid, data);
    }
  }
}
