/**
 * How an update from a user's private chat reaches a callback: the two
 * conversation handlers of `setup_handlers` (the CV wizard and the `/payment`
 * retry), then `/help`, then the catch-all that caches the user's name. A
 * conversation handler offers an update to the handlers of the user's current
 * state, in order, and then to its fallback `/cancel`; a user outside the
 * conversation can only enter through its entry command. The first handler
 * that takes an update is the only one that runs.
 */
module Routing {
  import opened Wrappers
  import opened Text
  import opened Upload
  import opened Wizard
  import opened Orders
  import opened Payment

  /** A private-chat update: a text message (a command is a text starting
      with `/`), an inline-button press, or a photo or document message. */
  datatype Input = Text(text: string) | Button(data: string) | Upload(media: Media)

  predicate IsCommand(u: Input) {
    u.Text? && StartsWith(u.text, "/")
  }

  /** `CommandHandler(name)`: the word after the `/`, compared without
      regard to letter case. */
  predicate IsCommandNamed(u: Input, name: string) {
    IsCommand(u) && Lower(WordRun(u.text[1..])) == name
  }

  /** `filters.TEXT & ~filters.COMMAND`. */
  predicate PlainText(u: Input) {
    u.Text? && !IsCommand(u)
  }

  /** `filters.PHOTO | filters.Document.IMAGE | filters.Document.MimeType("application/pdf")`. */
  predicate ImageOrPdf(u: Input) {
    u.Upload? && IsImageOrPdf(u.media)
  }

  predicate ButtonIs(u: Input, data: string) {
    u.Button? && u.data == data
  }

  /** The callbacks of the two conversations. */
  datatype Callback =
    | OnStart | OnSelectLanguage | OnStartCollectingInfo | OnReturningUserChoice
    | OnPersonalInfo | OnContactInfo | OnProfileImage | OnProfileImageChoice
    | OnSectionText(k: Kind) | OnSectionChoice(k: Kind) | OnCareerObjective | OnActivities
    | OnConfirmOrder | OnEditInfo | OnPaymentScreenshot | OnPaymentCommand | OnCancel

  /** The handlers of a repeated section's state: its text collector and its
      add-another / continue buttons. */
  function SectionRoute(k: Kind, u: Input): Option<Callback> {
    if PlainText(u) then Some(OnSectionText(k))
    else if ButtonIs(u, AddAnotherToken(k)) || ButtonIs(u, ContinueToken(k)) then Some(OnSectionChoice(k))
    else None
  }

  /** The handler list of each state of the CV conversation. */
  function StateRoute(q: State, u: Input): Option<Callback> {
    match q
    case SelectLanguage => if u.Button? && StartsWith(u.data, "lang_") then Some(OnSelectLanguage) else None
    case Start =>
      if PlainText(u) || ButtonIs(u, "update_profile") || ButtonIs(u, "new_cv") then Some(OnStartCollectingInfo)
      else if ButtonIs(u, "guide_video") || ButtonIs(u, "samples") then Some(OnReturningUserChoice)
      else None
    case CollectPersonalInfo => if PlainText(u) then Some(OnPersonalInfo) else None
    case CollectContactInfo => if PlainText(u) then Some(OnContactInfo) else None
    case CollectProfileImage =>
      if ImageOrPdf(u) || u.Text? then Some(OnProfileImage)
      else if ButtonIs(u, "continue_professional") then Some(OnProfileImageChoice)
      else None
    case CollectProfessionalInfo => SectionRoute(Work, u)
    case CollectEducation => SectionRoute(Edu, u)
    case CollectSkills => SectionRoute(Skill, u)
    case CollectCareerObjective => if PlainText(u) then Some(OnCareerObjective) else None
    case CollectCertifications => SectionRoute(Cert, u)
    case CollectProjects => SectionRoute(Project, u)
    case CollectLanguages => SectionRoute(Lang, u)
    case CollectActivities => if PlainText(u) then Some(OnActivities) else None
    case ConfirmOrder =>
      if u.Button? && StartsWith(u.data, "confirm_") then Some(OnConfirmOrder)
      else if u.Button? && StartsWith(u.data, "edit_") then Some(OnEditInfo)
      else None
    case Payment => if ImageOrPdf(u) then Some(OnPaymentScreenshot) else None
    case End => None
  }

  /** The CV conversation's `check_update`: `/start` enters it; inside it
      the state's handlers come first, then `/cancel`. */
  function Route(conv: Option<State>, u: Input): Option<Callback> {
    match conv
    case None => if IsCommandNamed(u, "start") then Some(OnStart) else None
    case Some(q) =>
      var h := StateRoute(q, u);
      if h.Some? then h
      else if IsCommandNamed(u, "cancel") then Some(OnCancel)
      else None
  }

  /** The `/payment` conversation: one state, PAYMENT, and `/cancel`. */
  function RetryRoute(conv: Option<State>, u: Input): Option<Callback> {
    match conv
    case None => if IsCommandNamed(u, "payment") then Some(OnPaymentCommand) else None
    case Some(q) =>
      if q == Payment && ImageOrPdf(u) then Some(OnPaymentScreenshot)
      else if IsCommandNamed(u, "cancel") then Some(OnCancel)
      else None
  }

  /** Who takes a private-chat update. */
  datatype Target = Main(cb: Callback) | Retry(cb: Callback) | Help | CacheUser | Dropped

  function Dispatch(conv: Option<State>, retry: Option<State>, u: Input): (t: Target)
    ensures t.Main? <==> Route(conv, u).Some?
    ensures t.Main? ==> t.cb == Route(conv, u).value
    ensures t.Retry? <==> Route(conv, u).None? && RetryRoute(retry, u).Some?
    ensures t.Retry? ==> t.cb == RetryRoute(retry, u).value
    ensures t == CacheUser ==> !u.Button?
    ensures t == Help <==> Route(conv, u).None? && RetryRoute(retry, u).None? && IsCommandNamed(u, "help")
    ensures t == Dropped <==>
              Route(conv, u).None? && RetryRoute(retry, u).None? && !IsCommandNamed(u, "help") && u.Button?
    ensures t == CacheUser <==>
              Route(conv, u).None? && RetryRoute(retry, u).None? && !IsCommandNamed(u, "help") && !u.Button?
  {
    match Route(conv, u)
    case Some(cb) => Main(cb)
    case None =>
      match RetryRoute(retry, u)
      case Some(cb) => Retry(cb)
      case None =>
        if IsCommandNamed(u, "help") then Help
        else if u.Button? then Dropped
        else CacheUser
  }

  // ---------------------------------------------------------------------
  // Running a callback

  /** What the callbacks read from outside the session: the stored candidate
      with its profile, the sender's names, the uploaded file's URL, whether
      forwarding to the private channel succeeds, the uid and order id
      `confirm_yes` creates, the stored orders and the user's most recent
      rejected order. */
  datatype World = World(
    stored: Option<Candidate>,
    sender: Sender,
    fileUrl: string,
    forwardOk: bool,
    candidateUid: string,
    newOrderId: string,
    orders: map<string, Order>,
    rejected: Option<Order>)

  /** A callback's result: the session (None once `/cancel` deleted it), the
      state returned (None when the callback raised, which leaves the
      conversation where it was), what was forwarded to the private channel
      and the order as saved. */
  datatype Outcome = Outcome(session: Option<Session>, next: Option<State>, forward: Option<Forward>, order: Option<Order>)

  function Stepped(r: Step): Outcome {
    Outcome(Some(r.session), Some(r.next), None, None)
  }

  function TextOf(u: Input): string {
    if u.Text? then u.text else ""
  }

  function DataOf(u: Input): string {
    if u.Button? then u.data else ""
  }

  function MediaOf(u: Input): Media {
    if u.Upload? then u.media else NoMedia
  }

  function StoredData(c: Option<Candidate>): Option<Item> {
    if c.Some? then Some(c.value.data) else None
  }

  /** The text collector of a repeated section. */
  function SectionText(s: Session, chat: int, k: Kind, text: string): Step {
    match k
    case Work => HandleProfessionalInfo(s, chat, text)
    case Cert => HandleCertifications(s, chat, text)
    case _ => SectionAnswer(s, chat, k, text)
  }

  /** Runs one callback on the user's session (as `get_user_session` returns
      it). `start_collecting_info` answers a callback query first, so a text
      message routed to it raises before anything changes. */
  function Perform(cb: Callback, tid: string, s: Session, chat: int, u: Input, w: World): (r: Outcome)
    ensures cb != OnCancel ==> r.session.Some?
    ensures cb == OnCancel ==> r.session.None? && r.next == Some(End)
    ensures r.next.None? <==> cb == OnStartCollectingInfo && !u.Button?
    ensures r.next.None? ==> r.session == Some(s)
    ensures r.forward.Some? || r.order.Some? ==> cb == OnPaymentScreenshot
  {
    match cb
    case OnStart => Stepped(HandleStart(s, chat))
    case OnSelectLanguage => Stepped(HandleSelectLanguage(s, chat, DataOf(u)))
    case OnStartCollectingInfo =>
      if u.Button? then Stepped(HandleStartCollectingInfo(s, chat, u.data, w.stored))
      else Outcome(Some(s), None, None, None)
    case OnReturningUserChoice => Stepped(HandleReturningUserChoice(s, chat, DataOf(u)))
    case OnPersonalInfo => Stepped(HandlePersonalInfo(s, chat, TextOf(u)))
    case OnContactInfo => Stepped(HandleContactInfo(s, chat, TextOf(u)))
    case OnProfileImage =>
      var msg := if u.Upload? then MediaMessage(u.media) else TextMessage(TextOf(u));
      Stepped(HandleProfileImage(s, chat, msg, w.fileUrl, w.forwardOk))
    case OnProfileImageChoice => Stepped(HandleProfileImageChoice(s, chat, DataOf(u)))
    case OnSectionText(k) => Stepped(SectionText(s, chat, k, TextOf(u)))
    case OnSectionChoice(k) => Stepped(SectionChoice(s, chat, k, DataOf(u)))
    case OnCareerObjective => Stepped(HandleCareerObjective(s, chat, TextOf(u)))
    case OnActivities => Stepped(HandleActivities(s, chat, TextOf(u)))
    case OnConfirmOrder => Stepped(HandleConfirmOrder(s, chat, DataOf(u), w.candidateUid, w.newOrderId))
    case OnEditInfo => Stepped(HandleEditInfo(s, chat, DataOf(u)))
    case OnPaymentScreenshot =>
      var p := HandlePaymentScreenshot(s, tid, chat, w.sender, MediaOf(u), StoredData(w.stored), w.fileUrl, w.forwardOk, w.orders);
      Outcome(Some(p.session), Some(p.next), p.forward, p.order)
    case OnPaymentCommand => Stepped(HandlePaymentCommand(s, chat, w.rejected, StoredData(w.stored)))
    case OnCancel => Outcome(None, Some(End), None, None)
  }

  /** The conversation state after a callback: END leaves the conversation,
      a raised callback keeps the state. */
  function NextConv(conv: Option<State>, next: Option<State>): (r: Option<State>)
    ensures r != Some(End)
    ensures next.None? && conv != Some(End) ==> r == conv
    ensures next == Some(End) || (next.None? && conv == Some(End)) ==> r.None?
    ensures next.Some? && next.value != End ==> r == next
  {
    match next
    case None => if conv == Some(End) then None else conv
    case Some(q) => if q == End then None else Some(q)
  }

  // ---------------------------------------------------------------------
  // Properties of the wiring

  /** Outside the CV conversation only `/start` is taken, and it always is. */
  lemma OnlyStartEnters(u: Input)
    ensures Route(None, u).Some? <==> IsCommandNamed(u, "start")
    ensures Route(None, u).Some? ==> Route(None, u) == Some(OnStart)
  {
  }

  /** In the profile-image state the text handler has no command filter, so
      `/cancel` and `/start` are taken as answers there; every other state
      of the conversation lets `/cancel` through to the fallback. */
  lemma CancelSwallowedByProfileImage(q: State, t: string)
    requires q != End
    requires IsCommandNamed(Text(t), "cancel")
    ensures Route(Some(q), Text(t)) == Some(if q == CollectProfileImage then OnProfileImage else OnCancel)
  {
  }

  /** Inside the conversation `/start` is taken by no handler except the
      profile-image collector: it does not restart the wizard. */
  lemma StartDoesNotRestart(q: State, t: string)
    requires IsCommandNamed(Text(t), "start")
    ensures Route(Some(q), Text(t)) == (if q == CollectProfileImage then Some(OnProfileImage) else None)
  {
  }

  /** A repeated section's two buttons reach its choice handler. */
  lemma SectionButtonsRoute(k: Kind)
    ensures Route(Some(StateOf(k)), Button(AddAnotherToken(k))) == Some(OnSectionChoice(k))
    ensures Route(Some(StateOf(k)), Button(ContinueToken(k))) == Some(OnSectionChoice(k))
  {
    match k
    case Work =>
    case Edu =>
    case Skill =>
    case Cert =>
    case Project =>
    case Lang =>
  }

  /** `new_cv` is listed for both handlers of START; the first one,
      `start_collecting_info`, takes it. */
  lemma NewCvGoesToStartCollecting()
    ensures Route(Some(Start), Button("new_cv")) == Some(OnStartCollectingInfo)
  {
  }

  /** Every summary button reaches `edit_info`, including `edit_no`, so the
      `edit_no` branch of `confirm_order` is never taken. */
  lemma EditButtonsReachEditInfo(sec: Section)
    ensures Route(Some(ConfirmOrder), Button(EditToken(sec))) == Some(OnEditInfo)
    ensures Route(Some(ConfirmOrder), Button("edit_no")) == Some(OnEditInfo)
  {
    assert "edit_no"[..5] == "edit_" && "edit_no"[0] != "confirm_"[0];
    assert EditToken(sec)[..5] == "edit_" && EditToken(sec)[0] != "confirm_"[0];
  }

  /** In PAYMENT an upload reaches the payment handler exactly when it
      passes the routing filter, and every upload the handler would accept
      passes it. */
  lemma PaymentUploadsRoute(m: Media)
    ensures Route(Some(Payment), Upload(m)) == (if IsImageOrPdf(m) then Some(OnPaymentScreenshot) else None)
    ensures Check(m) == Accepted ==> Route(Some(Payment), Upload(m)) == Some(OnPaymentScreenshot)
  {
    if Check(m) == Accepted {
      AcceptedPassesFilter(m);
    }
  }
}
