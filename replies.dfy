/**
 * What the bot sends back, with the transport taken away: a reply is a text
 * and the keyboard attached to it. Reply keyboards are named by what they
 * show; inline keyboards keep their buttons, because the callback tokens on
 * them come back to the bot as events.
 */
module Replies {
  import opened Wrappers
  import opened Strings
  import opened Records

  datatype Button = Button(caption: string, token: string)

  datatype Markup =
    | NoMarkup
    | ContactRequest              // one "share my number" button
    | RemoveKeyboard
    | ClientMenu                  // "Мои заказы", "Обращения", "Техническая поддержка"
    | AdminMenu                   // "Клиентские заказы", "Тикеты", "Поддержка"
    | InlineButtons(buttons: seq<Button>)

  datatype Reply = Reply(text: string, markup: Markup)

  // Reply-keyboard button texts, which arrive as ordinary text messages.
  const MyOrdersButton: string := "Мои заказы"
  const InquiriesButton: string := "Обращения"
  const SupportButton: string := "Техническая поддержка"
  const ClientOrdersButton: string := "Клиентские заказы"
  const TicketsButton: string := "Тикеты"

  const MainMenuButtons: seq<string> := [MyOrdersButton, InquiriesButton, SupportButton]

  // Callback tokens of the inline keyboards.
  const CreateOrderToken: string := "create_order"
  const ViewOrdersToken: string := "view_orders"
  const CreateInquiryToken: string := "create_inquiry"
  const ViewInquiriesToken: string := "view_inquiries"
  const ViewInquiryPrefix: string := "view_inquiry"

  const OrderOptionButtons: seq<Button> :=
    [Button("Создать заказ", CreateOrderToken), Button("Просмотреть мои заказы", ViewOrdersToken)]

  const InquiryOptionButtons: seq<Button> :=
    [Button("Создать обращение", CreateInquiryToken), Button("Просмотреть обращения", ViewInquiriesToken)]

  // Fixed texts.
  const WelcomeText: string := "Добро пожаловать! Для начала, поделитесь своим контактным номером телефона."
  const AdminGreetingText: string := "Добрый день, администратор!"
  const AskFullNameText: string := "Отлично! Теперь укажите Ваше ФИО."
  const ChooseActionText: string := "Выберите действие:"
  const SupportSearchText: string := "Начат поиск оператора для технической поддержки."
  const MyOrdersHeader: string := "Список ваших заказов:\n"
  const NoOrdersText: string := "Вы еще не сделали заказов. " + "Чтобы сделать заказ, выберите 'Создать заказ'."
  const AskProductText: string := "Введите название товара:"
  const AskQuantityText: string := "Введите количество товара:"
  const AskAddressText: string := "Введите адрес доставки:"
  const OrderCreatedText: string := "Ваш заказ успешно создан!"
  const NoInquiriesText: string := "У вас пока нет обращений."
  const ChooseInquiryText: string := "Выберите обращение для просмотра:"
  const AskTopicText: string := "Введите тему вашего обращения:"
  const AskInquiryMessageText: string := "Тема обращения сохранена. Теперь введите текст вашего обращения:"
  const InquiryCreatedText: string := "Обращение успешно создано!"
  const AllOrdersHeader: string := "Список заказов:\n"
  const AllInquiriesHeader: string := "Список обращений:\n"

  function ClientGreetingText(fullName: string): string {
    "Добрый день, " + fullName + "!"
  }

  function RegisteredText(fullName: string): string {
    "Спасибо, " + fullName + "! Вы успешно авторизованы."
  }

  /** One line of an order listing; the user's and the admin's listings share it. */
  function OrderLine(o: Order): string {
    "Заказ #" + DecimalString(o.id) + ": " + o.productType + ", Количество: " + o.quantity
      + ", Статус: " + o.status + "\n"
  }

  /** The lines of the given orders, one per order, in order. */
  function OrderLines(orders: seq<Order>): string {
    if orders == [] then "" else OrderLines(orders[..|orders| - 1]) + OrderLine(orders[|orders| - 1])
  }

  /** "My orders" for the user's orders: a header and their lines, or the empty-state text. */
  function MyOrdersText(mine: seq<Order>): string {
    if |mine| > 0 then MyOrdersHeader + OrderLines(mine) else NoOrdersText
  }

  /** One line of the admin's inquiry listing. */
  function InquiryLine(q: Inquiry): string {
    "Обращение #" + DecimalString(q.id) + ": Тема: " + q.topic + ", Статус: " + q.status + "\n"
  }

  function InquiryLines(inquiries: seq<Inquiry>): string {
    if inquiries == [] then "" else InquiryLines(inquiries[..|inquiries| - 1]) + InquiryLine(inquiries[|inquiries| - 1])
  }

  /** Appending a row to a listing appends exactly its line. */
  lemma OrderLinesAppend(orders: seq<Order>, o: Order)
    ensures OrderLines(orders + [o]) == OrderLines(orders) + OrderLine(o)
  {
  }

  lemma InquiryLinesAppend(inquiries: seq<Inquiry>, q: Inquiry)
    ensures InquiryLines(inquiries + [q]) == InquiryLines(inquiries) + InquiryLine(q)
  {
  }

  /** A further order of the user's adds exactly its line to "my orders" (after the header, if it was empty). */
  lemma MyOrdersTextAppend(mine: seq<Order>, o: Order)
    ensures MyOrdersText(mine + [o]) == (if mine == [] then MyOrdersHeader else MyOrdersText(mine)) + OrderLine(o)
  {
    OrderLinesAppend(mine, o);
    if mine == [] {
      assert OrderLines(mine) + OrderLine(o) == OrderLine(o);
    }
  }

  /** The text shown for one inquiry. */
  function InquiryDetails(q: Inquiry): string {
    "Тема: " + q.topic + "\nСтатус: " + q.status + "\nСообщение: " + q.message
  }

  /** The callback token `view_inquiry_<id>` of an inquiry's button. */
  function InquiryToken(id: nat): (t: string)
    ensures StartsWith(t, ViewInquiryPrefix)
    ensures t != ViewInquiriesToken && t != ViewOrdersToken && t != CreateOrderToken && t != CreateInquiryToken
  {
    var t := ViewInquiryPrefix + "_" + DecimalString(id);
    assert t[..|ViewInquiryPrefix|] == ViewInquiryPrefix;
    assert t[12] == '_' && ViewInquiriesToken[12] == 'e';
    assert t[0] == 'v' && CreateOrderToken[0] == 'c' && CreateInquiryToken[0] == 'c';
    assert t[5] == 'i' && ViewOrdersToken[5] == 'o';
    t
  }

  /** `int(data.split('_')[2])`: IndexError with fewer than three pieces, ValueError on a bad number. */
  function ParseInquiryToken(data: string): (r: Result<int, ParseError>)
    ensures (|Split(data, '_')| < 3) ==> r == Failure(IndexError)
  {
    var parts := Split(data, '_');
    if |parts| < 3 then Failure(IndexError) else ParseInt(parts[2])
  }

  /** The token put on an inquiry's button is parsed back to that inquiry's id. */
  lemma ParseInquiryTokenRoundTrip(id: nat)
    ensures ParseInquiryToken(InquiryToken(id)) == Success(id)
  {
    var digits := DecimalString(id);
    assert '_' !in digits;
    assert InquiryToken(id) == "view" + ['_'] + ("inquiry" + ['_'] + digits);
    SplitAfterPiece("view", '_', "inquiry" + ['_'] + digits);
    SplitAfterPiece("inquiry", '_', digits);
    SplitWithoutSeparator(digits, '_');
    assert Split(InquiryToken(id), '_') == ["view", "inquiry", digits];
    ParseIntOfDecimalString(id);
  }

  /** The buttons of the inquiry list: `"<topic> - <status>"` and the inquiry's token. */
  function InquiryButtons(inquiries: seq<Inquiry>): (bs: seq<Button>)
    ensures |bs| == |inquiries|
    ensures forall i :: 0 <= i < |inquiries| ==>
      bs[i].caption == inquiries[i].topic + " - " + inquiries[i].status && bs[i].token == InquiryToken(inquiries[i].id)
  {
    seq(|inquiries|, i requires 0 <= i < |inquiries| =>
      Button(inquiries[i].topic + " - " + inquiries[i].status, InquiryToken(inquiries[i].id)))
  }
}
