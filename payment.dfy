/**
 * The payment step of the wizard: `handle_payment_screenshot`, which checks
 * the upload, forwards it to the private channel with a caption and two
 * admin buttons and marks the order as waiting for verification, and
 * `/payment` (`handle_payment_command`), which reopens that step for the
 * user's most recent rejected order.
 */
module Payment {
  import opened Wrappers
  import opened Text
  import opened Upload
  import opened Wizard
  import opened Orders

  /** `candidate_data.get('phoneNumber')` is truthy: a non-empty text. */
  predicate HasPhone(d: Item) {
    "phoneNumber" in d && d["phoneNumber"].Str? && d["phoneNumber"].s != ""
  }

  /** The stored profile (`candidate.to_dict()`) replaces `candidate_data`
      when the session has no phone number and a profile is stored. */
  function Reloaded(d: Item, stored: Option<Item>): (r: Item)
    ensures HasPhone(d) ==> r == d
    ensures !HasPhone(d) && stored.Some? ==> r == stored.value
    ensures stored.None? ==> r == d
  {
    if !HasPhone(d) && stored.Some? then stored.value else d
  }

  /** The phone as the caption prints it: `N/A` for a missing key, `None` for
      Python's None, the text otherwise. */
  function PhoneText(d: Item): (r: string)
    ensures "phoneNumber" !in d ==> r == "N/A"
    ensures "phoneNumber" in d && d["phoneNumber"].Str? ==> r == d["phoneNumber"].s
    ensures "phoneNumber" in d && d["phoneNumber"].Null? ==> r == "None"
  {
    if "phoneNumber" !in d then "N/A"
    else match d["phoneNumber"]
      case Null => "None"
      case Str(t) => t
  }

  /** The caption says `(RETRY)` when the session has a non-empty order id
      that was not set by the main flow's order confirmation. */
  predicate IsRetry(s: Session) {
    s.orderId.Some? && s.orderId.value != "" && !s.fromMainFlow
  }

  /** What goes to the private channel: the upload's caption and the data of
      its approve and reject buttons. */
  datatype Forward = Forward(caption: string, approve: string, reject: string)

  function ForwardFor(isPhoto: bool, retry: bool, u: Sender, tid: string, orderId: string, phone: string): Forward {
    Forward(PaymentCaption(isPhoto, retry, u, tid, orderId, phone),
            ButtonToken("approve", tid, orderId), ButtonToken("reject", tid, orderId))
  }

  /** The result of the payment handler: the session, the next state, what
      was forwarded and the order as saved. */
  datatype PaymentStep = PaymentStep(session: Session, next: State, forward: Option<Forward>, order: Option<Order>)

  /** `handle_payment_screenshot`. The chat is recorded and the profile
      reloaded before anything can fail. Without an order id building the
      buttons raises; a refused upload or a failed forward keeps the user in
      PAYMENT; a forwarded upload whose order is missing does too; otherwise
      the order records the file and waits for an admin, and the
      conversation ends. `orders` are the stored orders by id. */
  function HandlePaymentScreenshot(s: Session, tid: string, chat: int, u: Sender, m: Media,
                                   stored: Option<Item>, fileUrl: string, forwardOk: bool,
                                   orders: map<string, Order>): (r: PaymentStep)
    ensures r.session == s.(chatId := Some(chat), candidateData := Reloaded(s.candidateData, stored))
    ensures r.next == End || r.next == Payment
    ensures r.forward.Some? <==> s.orderId.Some? && Check(m) == Accepted && forwardOk
    ensures r.forward.Some? ==>
              r.forward.value == ForwardFor(m.Photo?, IsRetry(s), u, tid, s.orderId.value, PhoneText(r.session.candidateData))
    ensures r.next == End <==> r.forward.Some? && s.orderId.value in orders
    ensures r.order.Some? <==> r.next == End
    ensures r.order.Some? ==> r.order.value == SubmitScreenshot(orders[s.orderId.value], fileUrl)
  {
    var s1 := s.(chatId := Some(chat), candidateData := Reloaded(s.candidateData, stored));
    match s.orderId
    case None => PaymentStep(s1, Payment, None, None)
    case Some(oid) =>
      if Check(m) != Accepted || !forwardOk then PaymentStep(s1, Payment, None, None)
      else
        var fwd := ForwardFor(m.Photo?, IsRetry(s), u, tid, oid, PhoneText(s1.candidateData));
        if oid !in orders then PaymentStep(s1, Payment, Some(fwd), None)
        else PaymentStep(s1, End, Some(fwd), Some(SubmitScreenshot(orders[oid], fileUrl)))
  }

  /** An upload the checks refuse reaches neither the channel nor the order,
      and the user stays in PAYMENT. */
  lemma RefusedUploadTouchesNothing(s: Session, tid: string, chat: int, u: Sender, m: Media,
                                    stored: Option<Item>, fileUrl: string, forwardOk: bool,
                                    orders: map<string, Order>)
    requires Check(m) != Accepted
    ensures var r := HandlePaymentScreenshot(s, tid, chat, u, m, stored, fileUrl, forwardOk, orders);
            r.next == Payment && r.forward.None? && r.order.None?
  {
  }

  /** The buttons of a forwarded upload parse back to the user and the
      order: a Telegram id is digits, so it holds no underscore. */
  lemma ForwardedButtonsParse(s: Session, tid: string, chat: int, u: Sender, m: Media,
                              stored: Option<Item>, fileUrl: string, forwardOk: bool,
                              orders: map<string, Order>)
    requires '_' !in tid
    ensures var r := HandlePaymentScreenshot(s, tid, chat, u, m, stored, fileUrl, forwardOk, orders);
            r.forward.Some? ==>
              ParseToken(r.forward.value.approve) == Some(Token("approve", tid, s.orderId.value))
              && ParseToken(r.forward.value.reject) == Some(Token("reject", tid, s.orderId.value))
  {
    var r := HandlePaymentScreenshot(s, tid, chat, u, m, stored, fileUrl, forwardOk, orders);
    if r.forward.Some? {
      ActionsWithoutUnderscore();
      ParseButtonToken("approve", tid, s.orderId.value);
      ParseButtonToken("reject", tid, s.orderId.value);
    }
  }

  lemma ActionsWithoutUnderscore()
    ensures '_' !in "approve" && '_' !in "reject"
  {
  }

  /** The caption of a forwarded upload passes the admin reply handler's
      caption test and its order-id line names the session's order, when no
      text on it breaks a line. */
  lemma ForwardedCaptionNamesOrder(s: Session, tid: string, chat: int, u: Sender, m: Media,
                                   stored: Option<Item>, fileUrl: string, forwardOk: bool,
                                   orders: map<string, Order>)
    requires '\n' !in OrEmpty(u.firstName) && '\n' !in OrEmpty(u.lastName) && '\n' !in OrEmpty(u.username)
    requires '\n' !in tid
    requires s.orderId.Some? ==> '\n' !in s.orderId.value && Strip(s.orderId.value) == s.orderId.value
    requires '\n' !in PhoneText(Reloaded(s.candidateData, stored))
    ensures var r := HandlePaymentScreenshot(s, tid, chat, u, m, stored, fileUrl, forwardOk, orders);
            r.forward.Some? ==>
              StartsWith(r.forward.value.caption, PaymentPrefix)
              && CaptionOrderId(r.forward.value.caption) == Some(s.orderId.value)
  {
    var r := HandlePaymentScreenshot(s, tid, chat, u, m, stored, fileUrl, forwardOk, orders);
    if r.forward.Some? {
      var phone := PhoneText(Reloaded(s.candidateData, stored));
      CaptionHasPrefix(m.Photo?, IsRetry(s), u, tid, s.orderId.value, phone);
      CaptionOrderIdRoundTrip(m.Photo?, IsRetry(s), u, tid, s.orderId.value, phone);
    }
  }

  /** `/payment`: the chat is recorded; without a rejected order the
      conversation ends there. With one, the stored profile (when there is
      one) replaces `candidate_data`, and the session takes the order as a
      retry that has not been notified yet. */
  function HandlePaymentCommand(s: Session, chat: int, rejected: Option<Order>, stored: Option<Item>): (r: Step)
    ensures rejected.None? ==> r == Step(s.(chatId := Some(chat)), End)
    ensures rejected.Some? ==>
              r.next == Payment && r.session.orderId == Some(rejected.value.id)
              && !r.session.notified && !r.session.fromMainFlow
              && r.session.candidateData == (if stored.Some? then stored.value else s.candidateData)
              && r.session == s.(chatId := Some(chat), candidateData := r.session.candidateData,
                                 orderId := r.session.orderId, notified := false, fromMainFlow := false)
  {
    var s1 := s.(chatId := Some(chat));
    match rejected
    case None => Step(s1, End)
    case Some(o) =>
      var d := if stored.Some? then stored.value else s1.candidateData;
      Step(s1.(candidateData := d, orderId := Some(o.id), notified := false, fromMainFlow := false), Payment)
  }

  /** After `/payment` the next upload is captioned as a retry, while the
      upload right after confirming a new order is not. */
  lemma RetryCaptionOnlyAfterCommand(s: Session, chat: int, o: Order, stored: Option<Item>,
                                     data: string, uid: string, newOrderId: string)
    requires o.id != ""
    ensures IsRetry(HandlePaymentCommand(s, chat, Some(o), stored).session)
    ensures data == "confirm_yes" ==> !IsRetry(HandleConfirmOrder(s, chat, data, uid, newOrderId).session)
  {
  }
}
