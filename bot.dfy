/**
 * The bot object of `bot.py`. It holds the per-user session dict (with its
 * insertion order, which the status poll walks), the state of each user in
 * the two conversations, and the username cache. Its handlers update these
 * in place. The Telegram and database calls a handler makes are parameters:
 * what they return, or whether they raise.
 */
module Bot {
  import opened Wrappers
  import opened Text
  import opened Chat
  import opened Wizard
  import opened Orders
  import opened Notify
  import opened Routing

  /** The session `get_user_session` returns: the stored one, or a new one. */
  function SessionIn(sessions: map<string, Session>, tid: string): Session {
    if tid in sessions then sessions[tid] else NewSession()
  }

  /** The dict's insertion order after `get_user_session`: a new user goes last. */
  function Admit(order: seq<string>, sessions: map<string, Session>, tid: string): seq<string> {
    if tid in sessions then order else order + [tid]
  }

  predicate Distinct(ids: seq<string>) {
    forall i, j :: 0 <= i < j < |ids| ==> ids[i] != ids[j]
  }

  /** The insertion order once `del user_sessions[tid]` has run. */
  function Without(ids: seq<string>, t: string): (r: seq<string>)
    ensures forall x :: x in r <==> x in ids && x != t
    ensures Distinct(ids) ==> Distinct(r)
  {
    if ids == [] then []
    else
      assert Distinct(ids) ==> ids[0] !in ids[1..] && Distinct(ids[1..]);
      (if ids[0] == t then [] else [ids[0]]) + Without(ids[1..], t)
  }

  /** Deleting works piece by piece, so the users that stay keep their
      insertion order. */
  lemma {:induction false} WithoutAppend(a: seq<string>, b: seq<string>, t: string)
    ensures Without(a + b, t) == Without(a, t) + Without(b, t)
    decreases |a|
  {
    if a != [] {
      assert (a + b)[0] == a[0] && (a + b)[1..] == a[1..] + b;
      WithoutAppend(a[1..], b, t);
    } else {
      assert a + b == b;
    }
  }

  lemma {:induction false} WithoutAppendSelf(ids: seq<string>, t: string)
    ensures Without(ids + [t], t) == Without(ids, t)
  {
    if ids == [] {
      assert [t][1..] == [];
    } else {
      assert (ids + [t])[1..] == ids[1..] + [t];
      WithoutAppendSelf(ids[1..], t);
    }
  }

  /** The session store after a callback: `/cancel` deletes the session. */
  function Applied(sessions: map<string, Session>, tid: string, s: Option<Session>): map<string, Session> {
    if s.Some? then sessions[tid := s.value] else sessions - {tid}
  }

  /** A user's state in a conversation, None when outside it. */
  function Lookup(states: map<string, State>, tid: string): Option<State> {
    if tid in states then Some(states[tid]) else None
  }

  function Moved(states: map<string, State>, tid: string, q: Option<State>): map<string, State> {
    if q.Some? then states[tid := q.value] else states - {tid}
  }

  /** Moving a user to a state other than END keeps END out of the map. */
  lemma MovedLive(states: map<string, State>, tid: string, q: Option<State>)
    requires forall t :: t in states ==> states[t] != End
    requires q != Some(End)
    ensures forall t :: t in Moved(states, tid, q) ==> Moved(states, tid, q)[t] != End
  {
  }

  /** The cache after `cache_user_info`: a sender with a username is cached
      under its lower-cased form. */
  function Cached(cache: map<string, int>, username: Option<string>, uid: int): map<string, int> {
    if username.Some? && username.value != "" then cache[Lower(username.value) := uid] else cache
  }

  /** Writing a callback's result back keeps the insertion order a listing
      without repeats of the users that have a session. */
  lemma StoreKeepsOrder(sessions: map<string, Session>, order: seq<string>, tid: string, s: Option<Session>)
    requires Distinct(order) && (forall t :: t in order <==> t in sessions) && tid in sessions
    ensures s.None? ==> Distinct(Without(order, tid))
                        && forall t :: t in Without(order, tid) <==> t in Applied(sessions, tid, s)
    ensures s.Some? ==> forall t :: t in order <==> t in Applied(sessions, tid, s)
  {
  }

  /** Fetching a session and then writing a callback's result back is
      writing the result back. */
  lemma StoreAfterGet(sessions: map<string, Session>, order: seq<string>, tid: string, s: Session, next: Option<Session>)
    ensures Applied(sessions[tid := s], tid, next) == Applied(sessions, tid, next)
    ensures Without(Admit(order, sessions, tid), tid) == Without(order, tid)
  {
    WithoutAppendSelf(order, tid);
    if next.Some? {
      UpdateTwice(sessions, tid, s, next.value);
    } else {
      assert sessions[tid := s] - {tid} == sessions - {tid};
    }
  }

  // ---------------------------------------------------------------------
  // The loops of `start_collecting_info`

  /** The inner loop: the items whose `candidate_uid` is the candidate's, in
      their order. */
  method FilterOwned(items: seq<Item>, uid: string) returns (r: seq<Item>)
    ensures r == Owned(items, uid)
  {
    r := [];
    var i := 0;
    while i < |items|
      invariant 0 <= i <= |items|
      invariant r == Owned(items[..i], uid)
    {
      assert items[..i + 1] == items[..i] + [items[i]];
      OwnedAppend(items[..i], [items[i]], uid);
      assert [items[i]][1..] == [];
      if BelongsTo(items[i], uid) {
        r := r + [items[i]];
      }
      i := i + 1;
    }
    assert items[..i] == items;
  }

  /** The body of `start_collecting_info` on the fetched session:
      `update_profile` loads the stored profile through the two loops. */
  method CollectingStep(s0: Session, chat: int, data: string, stored: Option<Candidate>) returns (st: Step)
    ensures st == HandleStartCollectingInfo(s0, chat, data, stored)
  {
    var s := s0.(chatId := Some(chat));
    if data == "update_profile" {
      if stored.Some? {
        var lists := FilterProfile(stored.value, s.lists);
        LoadedProfile(s, stored.value, lists);
        s := s.(candidateData := WithAvailability(stored.value.data), lists := lists);
      }
      st := Step(s, Start);
    } else {
      st := Step(s.(currentField := Some(FirstName)), CollectPersonalInfo);
    }
  }

  /** The outer loop visits the eight subcollections in this order. */
  const SectionOrder: seq<Section> := [WorkExperiences, Education, Skills, CareerObjectives,
                                       CertificationsAwards, Projects, Languages, OtherActivities]

  lemma SectionOrderComplete()
    ensures forall sec :: sec in SectionOrder
  {
    forall sec ensures sec in SectionOrder {
      match sec
      case WorkExperiences => assert SectionOrder[0] == sec;
      case Education => assert SectionOrder[1] == sec;
      case Skills => assert SectionOrder[2] == sec;
      case CareerObjectives => assert SectionOrder[3] == sec;
      case CertificationsAwards => assert SectionOrder[4] == sec;
      case Projects => assert SectionOrder[5] == sec;
      case Languages => assert SectionOrder[6] == sec;
      case OtherActivities => assert SectionOrder[7] == sec;
    }
  }

  /** The outer loop: every subcollection of the session is replaced by the
      candidate's items of the stored one. */
  method FilterProfile(c: Candidate, lists: Lists) returns (r: Lists)
    ensures forall sec :: sec in r && r[sec] == Owned(CollectionOf(c, sec), c.uid)
  {
    r := lists;
    var i := 0;
    while i < |SectionOrder|
      invariant 0 <= i <= |SectionOrder|
      invariant forall sec :: sec in SectionOrder[..i] ==> sec in r && r[sec] == Owned(CollectionOf(c, sec), c.uid)
    {
      var kept := FilterOwned(CollectionOf(c, SectionOrder[i]), c.uid);
      assert forall sec :: sec in SectionOrder[..i + 1] ==> sec in SectionOrder[..i] || sec == SectionOrder[i];
      r := r[SectionOrder[i] := kept];
      i := i + 1;
    }
    assert SectionOrder[..i] == SectionOrder;
    SectionOrderComplete();
  }

  /** Lists built that way are those of the profile `LoadProfile` loads. */
  lemma LoadedProfile(s: Session, c: Candidate, lists: Lists)
    requires forall sec :: sec in lists && lists[sec] == Owned(CollectionOf(c, sec), c.uid)
    ensures s.(candidateData := WithAvailability(c.data), lists := lists) == LoadProfile(s, c)
  {
    SectionsAreAll();
    assert lists.Keys == AllSections;
    assert lists == LoadProfile(s, c).lists;
  }

  lemma UpdateTwice<K, V>(m: map<K, V>, k: K, a: V, b: V)
    ensures m[k := a][k := b] == m[k := b]
  {
  }

  // ---------------------------------------------------------------------
  // Resolving a username

  /** A member of the private channel's administrator list. */
  datatype Admin = Admin(id: int, username: Option<string>)

  /** What the three Telegram lookups of `resolve_username_to_id` give:
      `get_chat` and the administrator list are None when the call raises,
      `get_chat_member` is None when it raises or has no user. */
  datatype Lookups = Lookups(chat: Option<ChatInfo>, admins: Option<seq<Admin>>, member: Option<int>)

  /** `admin.user.username and admin.user.username.lower() == clean` */
  predicate AdminIs(a: Admin, clean: string) {
    a.username.Some? && a.username.value != "" && Lower(a.username.value) == clean
  }

  /** The administrator loop: the id of the first administrator with the
      name. */
  method FindAdmin(admins: seq<Admin>, clean: string) returns (r: Option<int>)
    ensures r.None? <==> forall k :: 0 <= k < |admins| ==> !AdminIs(admins[k], clean)
    ensures r.Some? ==> exists k :: 0 <= k < |admins| && AdminIs(admins[k], clean) && admins[k].id == r.value
                                    && forall j :: 0 <= j < k ==> !AdminIs(admins[j], clean)
  {
    var i := 0;
    while i < |admins|
      invariant 0 <= i <= |admins|
      invariant forall j :: 0 <= j < i ==> !AdminIs(admins[j], clean)
    {
      if AdminIs(admins[i], clean) {
        return Some(admins[i].id);
      }
      i := i + 1;
    }
    return None;
  }

  /** `cache_user_info` stores a user under the key `resolve_username_to_id`
      looks up, whether the name is written with `@` or without it and in
      any letter case (a Telegram username holds no `@`). */
  lemma CacheKeyIsCleanName(name: string, written: string)
    requires '@' !in name
    requires written == name || written == "@" + name
    ensures Clean(written) == Lower(name)
    ensures Clean(Lower(written)) == Lower(name)
  {
    LowerIdempotent(name);
    LowerKeepsAt(name);
    DropLeadingAt(name);
    DropLeadingAt(Lower(name));
    if written != name {
      LowerOfTagged(name);
    }
  }

  lemma LowerKeepsAt(name: string)
    requires '@' !in name
    ensures '@' !in Lower(name)
  {
    forall i | 0 <= i < |name| ensures Lower(name)[i] != '@' {
      assert name[i] != '@';
    }
  }

  lemma DropLeadingAt(name: string)
    requires '@' !in name
    ensures RemoveChar("@" + name, '@') == name
  {
    assert ("@" + name)[1..] == name;
  }

  lemma LowerOfTagged(name: string)
    ensures Lower("@" + name) == "@" + Lower(name)
  {
  }

  // ---------------------------------------------------------------------
  // What an admin's verdict does

  /** The owner's session after an admin's verdict, the order as saved and
      the message sent. */
  datatype Effect = Effect(session: Session, saved: Option<Order>, sent: Option<Notice>)

  /** `handle_admin_response` once the data split into a token and the
      user's session `s` was fetched: nothing without a chat or a stored
      order; approve and reject save the order and notify through the
      button path, which does not look at `notified`. */
  function ButtonEffect(s: Session, tok: Token, orders: map<string, Order>, sendOk: bool, editOk: bool): (e: Effect)
    ensures e.saved.Some? <==> s.chatId.Some? && tok.orderId in orders && (tok.action == "approve" || tok.action == "reject")
    ensures e.saved.Some? ==>
              e.saved.value == if tok.action == "approve" then Approve(orders[tok.orderId]) else Reject(orders[tok.orderId], NoReason)
    ensures e.sent.Some? <==> e.saved.Some? && sendOk
    ensures e.sent.Some? ==>
              e.sent.value == Notice(s.chatId.value, if tok.action == "approve" then PaymentVerified else PaymentRejected(NoReason))
    ensures e.session == s.(notified := e.session.notified)
    ensures e.session.notified <==> s.notified || (e.saved.Some? && sendOk && editOk)
  {
    if s.chatId.None? || tok.orderId !in orders || (tok.action != "approve" && tok.action != "reject") then
      Effect(s, None, None)
    else
      var o := orders[tok.orderId];
      var approve := tok.action == "approve";
      var a := NotifyByButton(s, if approve then PaymentVerified else PaymentRejected(NoReason), sendOk, editOk);
      Effect(a.session, Some(if approve then Approve(o) else Reject(o, NoReason)), a.sent)
  }

  /** `handle_admin_reply` once the order `o` was found and its owner's
      session `s` fetched: nothing without a chat or a decision; otherwise
      the order is saved and the owner told once. */
  function ReplyEffect(s: Session, o: Order, d: Decision, sendOk: bool): (e: Effect)
    ensures e.saved.Some? <==> s.chatId.Some? && d != NoDecision
    ensures e.saved.Some? ==> e.saved.value == if d == ApproveOrder then Approve(o) else Reject(o, d.reason)
    ensures e.sent.Some? <==> e.saved.Some? && !s.notified && sendOk
    ensures e.sent.Some? ==>
              e.sent.value == Notice(s.chatId.value, if d == ApproveOrder then PaymentVerified else PaymentRejected(d.reason))
    ensures e.session == s.(notified := s.notified || e.sent.Some?)
  {
    if s.chatId.None? || d == NoDecision then Effect(s, None, None)
    else
      var a := NotifyOnce(s, if d == ApproveOrder then PaymentVerified else PaymentRejected(d.reason), sendOk);
      Effect(a.session, Some(if d == ApproveOrder then Approve(o) else Reject(o, d.reason)), a.sent)
  }

  /** The order a reply in the private channel is about: the reply passed
      the text gate, and the replied-to caption starts like a payment
      caption and names a stored order. The order id is read as the handler
      reads it, from the first `Order ID: ` anywhere in the caption. */
  function ReplyOrder(text: Option<string>, caption: Option<string>, orders: map<string, Order>): Option<Order> {
    if !PassesReplyGate(ReplyText(text)) || caption.None? || !StartsWith(caption.value, PaymentPrefix) then None
    else
      var id := CaptionOrderIdAsWritten(caption.value);
      if id.None? || id.value !in orders then None else Some(orders[id.value])
  }

  /** `ReplyOrder` with the order id read from the caption's `📋 Order ID:`
      line instead. */
  function ReplyOrderByLine(text: Option<string>, caption: Option<string>, orders: map<string, Order>): Option<Order> {
    if !PassesReplyGate(ReplyText(text)) || caption.None? || !StartsWith(caption.value, PaymentPrefix) then None
    else
      var id := CaptionOrderId(caption.value);
      if id.None? || id.value !in orders then None else Some(orders[id.value])
  }

  /** A reply to a caption the bot built finds the session's order, both as
      written and by line, as long as no line before the order-id line holds
      `Order ID: `. */
  lemma ReplyOrdersAgree(text: Option<string>, isPhoto: bool, retry: bool, u: Sender, tid: string,
                         orderId: string, phone: string, orders: map<string, Order>)
    requires '\n' !in OrEmpty(u.firstName) && '\n' !in OrEmpty(u.lastName) && '\n' !in OrEmpty(u.username)
    requires '\n' !in tid && '\n' !in orderId && '\n' !in phone
    requires FindFrom(UserLine(u), "Order ID: ", 0).None? && 'O' !in tid
    requires FindFrom(orderId, "Order ID: ", 0).None? && Strip(orderId) == orderId
    ensures var caption := Some(PaymentCaption(isPhoto, retry, u, tid, orderId, phone));
            var found := if PassesReplyGate(ReplyText(text)) && orderId in orders then Some(orders[orderId]) else None;
            ReplyOrder(text, caption, orders) == found && ReplyOrderByLine(text, caption, orders) == found
  {
    CaptionOrderIdAgree(isPhoto, retry, u, tid, orderId, phone);
    CaptionHasPrefix(isPhoto, retry, u, tid, orderId, phone);
  }

  /** A sender whose last name is `Order ID: ` and some stored order's id
      `x` turns an admin's reply to their upload into a verdict on order `x`;
      read by line, the reply is about the sender's own order. */
  lemma ReplyOrderHijacked(text: Option<string>, isPhoto: bool, retry: bool, x: string, tid: string,
                           orderId: string, phone: string, orders: map<string, Order>)
    requires x != [] && 'O' !in x && '\n' !in x && Strip(x) == x
    requires '\n' !in tid && '\n' !in orderId && '\n' !in phone && Strip(orderId) == orderId
    requires PassesReplyGate(ReplyText(text)) && x in orders && orderId in orders
    ensures var caption := Some(PaymentCaption(isPhoto, retry, Sender(None, Some("Order ID: " + x), None), tid, orderId, phone));
            ReplyOrder(text, caption, orders) == Some(orders[x])
            && ReplyOrderByLine(text, caption, orders) == Some(orders[orderId])
  {
    CaptionOrderIdHijacked(isPhoto, retry, x, tid, orderId, phone);
    CaptionHasPrefix(isPhoto, retry, Sender(None, Some("Order ID: " + x), None), tid, orderId, phone);
  }

  /** A verdict the owner was told by reply is not told again by the poll. */
  lemma ReplyNotRepeatedByPoll(s: Session, o: Order, d: Decision, sendOk: bool, env: PollEnv)
    requires ReplyEffect(s, o, d, sendOk).sent.Some?
    ensures !VisitSession(ReplyEffect(s, o, d, sendOk).session, env).Deliver?
  {
  }

  /** When the caption edit after a button's message fails, the flag stays
      unset and the next poll sends the verdict a second time. */
  lemma ButtonEditFailureRepeats(s: Session, tok: Token, orders: map<string, Order>, env: PollEnv)
    requires !s.notified && s.chatId.Some? && tok.orderId in orders && tok.action == "approve"
    requires s.orderId.Some? && s.orderId.value !in env.unreadable && s.orderId.value in env.orders
    requires env.orders[s.orderId.value].status == Verified && s.chatId.value !in env.unreachable
    ensures ButtonEffect(s, tok, orders, true, false).sent == Some(Notice(s.chatId.value, PaymentVerified))
    ensures VisitSession(ButtonEffect(s, tok, orders, true, false).session, env)
            == Deliver(s.(notified := true), Notice(s.chatId.value, PaymentVerified))
  {
  }

  // ---------------------------------------------------------------------
  // The bot

  class CVBot {
    /** `user_sessions`, and the order its keys were inserted in. */
    var userSessions: map<string, Session>
    var sessionOrder: seq<string>
    /** Each user's state in the CV conversation and in the `/payment` one. */
    var conversations: map<string, State>
    var retries: map<string, State>
    /** `user_cache`: lower-cased username to user id. */
    var userCache: map<string, int>
    /** The private channel's chat id. */
    const privateChannelId: int

    ghost predicate Valid()
      reads this
    {
      Distinct(sessionOrder)
      && (forall t :: t in sessionOrder <==> t in userSessions)
      && (forall t :: t in conversations ==> conversations[t] != End)
      && (forall t :: t in retries ==> retries[t] != End)
    }

    constructor(channel: int)
      ensures Valid()
      ensures userSessions == map[] && sessionOrder == [] && userCache == map[]
      ensures conversations == map[] && retries == map[] && privateChannelId == channel
    {
      userSessions := map[];
      sessionOrder := [];
      conversations := map[];
      retries := map[];
      userCache := map[];
      privateChannelId := channel;
    }

    /** `get_user_session`: a user without a session gets a new one. */
    method GetUserSession(tid: string) returns (s: Session)
      requires Valid()
      modifies this
      ensures Valid()
      ensures s == SessionIn(old(userSessions), tid)
      ensures userSessions == old(userSessions)[tid := s]
      ensures sessionOrder == Admit(old(sessionOrder), old(userSessions), tid)
      ensures conversations == old(conversations) && retries == old(retries) && userCache == old(userCache)
    {
      if tid !in userSessions {
        userSessions := userSessions[tid := NewSession()];
        sessionOrder := sessionOrder + [tid];
      }
      s := userSessions[tid];
    }

    /** `start_collecting_info` on a button press: `update_profile` loads
        the stored candidate and keeps only the subcollection items that
        belong to it; anything else starts a new CV. */
    method StartCollectingInfo(tid: string, chat: int, data: string, stored: Option<Candidate>) returns (next: State)
      requires Valid()
      modifies this
      ensures Valid()
      ensures var st := HandleStartCollectingInfo(SessionIn(old(userSessions), tid), chat, data, stored);
              userSessions == old(userSessions)[tid := st.session] && next == st.next
      ensures sessionOrder == Admit(old(sessionOrder), old(userSessions), tid)
      ensures conversations == old(conversations) && retries == old(retries) && userCache == old(userCache)
    {
      var s0 := GetUserSession(tid);
      var st := CollectingStep(s0, chat, data, stored);
      UpdateTwice(old(userSessions), tid, s0, st.session);
      userSessions := userSessions[tid := st.session];
      next := st.next;
    }

    /** Writes a callback's session back: `/cancel` deletes it. */
    method Store(tid: string, s: Option<Session>)
      requires Valid() && tid in userSessions
      modifies this
      ensures Valid()
      ensures userSessions == Applied(old(userSessions), tid, s)
      ensures sessionOrder == if s.None? then Without(old(sessionOrder), tid) else old(sessionOrder)
      ensures conversations == old(conversations) && retries == old(retries) && userCache == old(userCache)
    {
      if s.None? {
        DropSession(tid);
      } else {
        PutSession(tid, s.value);
      }
    }

    /** `/cancel`: the session is deleted and the user leaves the
        insertion order. */
    method DropSession(tid: string)
      requires Valid() && tid in userSessions
      modifies this
      ensures Valid()
      ensures userSessions == old(userSessions) - {tid} && sessionOrder == Without(old(sessionOrder), tid)
      ensures conversations == old(conversations) && retries == old(retries) && userCache == old(userCache)
    {
      StoreKeepsOrder(userSessions, sessionOrder, tid, None);
      userSessions := userSessions - {tid};
      sessionOrder := Without(sessionOrder, tid);
    }

    /** A callback's session is written back over the one it was given. */
    method PutSession(tid: string, s: Session)
      requires Valid() && tid in userSessions
      modifies this
      ensures Valid()
      ensures userSessions == old(userSessions)[tid := s] && sessionOrder == old(sessionOrder)
      ensures conversations == old(conversations) && retries == old(retries) && userCache == old(userCache)
    {
      StoreKeepsOrder(userSessions, sessionOrder, tid, Some(s));
      userSessions := userSessions[tid := s];
    }

    /** `start_collecting_info` run from a button, as a conversation
        callback. */
    method RunStartCollecting(tid: string, chat: int, data: string, w: World) returns (out: Outcome)
      requires Valid()
      modifies this
      ensures Valid()
      ensures out == Perform(OnStartCollectingInfo, tid, SessionIn(old(userSessions), tid), chat, Input.Button(data), w)
      ensures out.session.Some? && userSessions == old(userSessions)[tid := out.session.value]
      ensures sessionOrder == Admit(old(sessionOrder), old(userSessions), tid)
      ensures conversations == old(conversations) && retries == old(retries) && userCache == old(userCache)
    {
      var next := StartCollectingInfo(tid, chat, data, w.stored);
      out := Outcome(Some(userSessions[tid]), Some(next), None, None);
    }

    /** Any other callback: it works on the session `get_user_session`
        returns, and the result is written back. */
    method RunOther(cb: Callback, tid: string, chat: int, u: Input, w: World) returns (out: Outcome)
      requires Valid()
      modifies this
      ensures Valid()
      ensures out == Perform(cb, tid, SessionIn(old(userSessions), tid), chat, u, w)
      ensures userSessions == Applied(old(userSessions), tid, out.session)
      ensures sessionOrder == if out.session.None? then Without(old(sessionOrder), tid)
                              else Admit(old(sessionOrder), old(userSessions), tid)
      ensures conversations == old(conversations) && retries == old(retries) && userCache == old(userCache)
    {
      var s := GetUserSession(tid);
      out := Perform(cb, tid, s, chat, u, w);
      StoreAfterGet(old(userSessions), old(sessionOrder), tid, s, out.session);
      Store(tid, out.session);
    }

    /** Runs a conversation callback for the user `tid`. A callback that
        raises leaves the session as `error_handler`'s own
        `get_user_session` call makes it. */
    method RunCallback(cb: Callback, tid: string, chat: int, u: Input, w: World) returns (out: Outcome)
      requires Valid()
      modifies this
      ensures Valid()
      ensures out == Perform(cb, tid, SessionIn(old(userSessions), tid), chat, u, w)
      ensures userSessions == Applied(old(userSessions), tid, out.session)
      ensures sessionOrder == if out.session.None? then Without(old(sessionOrder), tid)
                              else Admit(old(sessionOrder), old(userSessions), tid)
      ensures conversations == old(conversations) && retries == old(retries) && userCache == old(userCache)
    {
      if cb == OnStartCollectingInfo && u.Button? {
        out := RunStartCollecting(tid, chat, u.data, w);
      } else {
        out := RunOther(cb, tid, chat, u, w);
      }
    }

    /** `cache_user_info`. */
    method CacheUserInfo(username: Option<string>, uid: int)
      modifies this
      ensures userCache == Cached(old(userCache), username, uid)
      ensures userSessions == old(userSessions) && sessionOrder == old(sessionOrder)
      ensures conversations == old(conversations) && retries == old(retries)
    {
      if username.Some? && username.value != "" {
        userCache := userCache[Lower(username.value) := uid];
      }
    }

    /** A callback of the CV conversation: the conversation moves to the
        state it returns. */
    method ConverseMain(cb: Callback, tid: string, chat: int, u: Input, w: World) returns (out: Outcome)
      requires Valid()
      modifies this
      ensures Valid()
      ensures out == Perform(cb, tid, SessionIn(old(userSessions), tid), chat, u, w)
      ensures userSessions == Applied(old(userSessions), tid, out.session)
      ensures sessionOrder == if out.session.None? then Without(old(sessionOrder), tid)
                              else Admit(old(sessionOrder), old(userSessions), tid)
      ensures conversations == Moved(old(conversations), tid, NextConv(Lookup(old(conversations), tid), out.next))
      ensures retries == old(retries) && userCache == old(userCache)
    {
      var conv := Lookup(conversations, tid);
      out := RunCallback(cb, tid, chat, u, w);
      MoveMain(tid, NextConv(conv, out.next));
    }

    /** The main conversation handler records the user's next state. */
    method MoveMain(tid: string, q: Option<State>)
      requires Valid() && q != Some(End)
      modifies this
      ensures Valid()
      ensures conversations == Moved(old(conversations), tid, q)
      ensures userSessions == old(userSessions) && sessionOrder == old(sessionOrder)
      ensures retries == old(retries) && userCache == old(userCache)
    {
      MovedLive(conversations, tid, q);
      conversations := Moved(conversations, tid, q);
    }

    /** A callback of the `/payment` conversation. */
    method ConverseRetry(cb: Callback, tid: string, chat: int, u: Input, w: World) returns (out: Outcome)
      requires Valid()
      modifies this
      ensures Valid()
      ensures out == Perform(cb, tid, SessionIn(old(userSessions), tid), chat, u, w)
      ensures userSessions == Applied(old(userSessions), tid, out.session)
      ensures sessionOrder == if out.session.None? then Without(old(sessionOrder), tid)
                              else Admit(old(sessionOrder), old(userSessions), tid)
      ensures retries == Moved(old(retries), tid, NextConv(Lookup(old(retries), tid), out.next))
      ensures conversations == old(conversations) && userCache == old(userCache)
    {
      var retry := Lookup(retries, tid);
      out := RunCallback(cb, tid, chat, u, w);
      MoveRetry(tid, NextConv(retry, out.next));
    }

    /** The retry handler records the user's next state. */
    method MoveRetry(tid: string, q: Option<State>)
      requires Valid() && q != Some(End)
      modifies this
      ensures Valid()
      ensures retries == Moved(old(retries), tid, q)
      ensures userSessions == old(userSessions) && sessionOrder == old(sessionOrder)
      ensures conversations == old(conversations) && userCache == old(userCache)
    {
      MovedLive(retries, tid, q);
      retries := Moved(retries, tid, q);
    }

    /** One update from the private chat of the user `tid`, whose numeric id
        is `uid`: the first handler that takes it runs. Returns who took the
        update and, for a conversation callback, what it did. */
    method HandlePrivate(tid: string, uid: int, chat: int, u: Input, w: World) returns (t: Target, out: Outcome)
      requires Valid()
      modifies this
      ensures Valid()
      ensures t == Dispatch(Lookup(old(conversations), tid), Lookup(old(retries), tid), u)
      ensures t.Main? || t.Retry? ==>
                out == Perform(t.cb, tid, SessionIn(old(userSessions), tid), chat, u, w)
                && userSessions == Applied(old(userSessions), tid, out.session)
                && userCache == old(userCache)
                && sessionOrder == (if out.session.None? then Without(old(sessionOrder), tid)
                                    else Admit(old(sessionOrder), old(userSessions), tid))
      ensures t.Main? ==>
                conversations == Moved(old(conversations), tid, NextConv(Lookup(old(conversations), tid), out.next))
                && retries == old(retries)
      ensures t.Retry? ==>
                retries == Moved(old(retries), tid, NextConv(Lookup(old(retries), tid), out.next))
                && conversations == old(conversations)
      ensures t == Help ==>
                userSessions == old(userSessions)[tid := SessionIn(old(userSessions), tid)] && userCache == old(userCache)
                && sessionOrder == Admit(old(sessionOrder), old(userSessions), tid)
      ensures t == CacheUser ==> userCache == Cached(old(userCache), w.sender.username, uid) && userSessions == old(userSessions)
      ensures t == Dropped ==> userCache == old(userCache) && userSessions == old(userSessions)
      ensures !t.Main? && !t.Retry? ==> conversations == old(conversations) && retries == old(retries)
      ensures t == CacheUser || t == Dropped ==> sessionOrder == old(sessionOrder)
    {
      t := Dispatch(Lookup(conversations, tid), Lookup(retries, tid), u);
      out := Outcome(None, None, None, None);
      match t
      case Main(cb) =>
        out := ConverseMain(cb, tid, chat, u, w);
      case Retry(cb) =>
        out := ConverseRetry(cb, tid, chat, u, w);
      case Help =>
        var _ := GetUserSession(tid);
      case CacheUser =>
        CacheUserInfo(w.sender.username, uid);
      case Dropped =>
    }

    /** `resolve_username_to_id`: the cache first, then `get_chat` when it
        finds a private chat, then the channel's administrators, then
        `get_chat_member`; a lookup that succeeds is cached. None is the
        ValueError raised when every way fails. */
    method ResolveUsernameToId(username: string, look: Lookups) returns (r: Option<int>)
      modifies this
      ensures var key := Clean(username);
              key in old(userCache) ==> r == Some(old(userCache)[key]) && userCache == old(userCache)
      ensures var key := Clean(username);
              key !in old(userCache) ==>
                userCache == (if r.Some? then old(userCache)[key := r.value] else old(userCache))
      ensures var key := Clean(username);
              key !in old(userCache) && look.chat.Some? && look.chat.value.isPrivate ==> r == Some(look.chat.value.id)
      ensures var key := Clean(username);
              key !in old(userCache) && !(look.chat.Some? && look.chat.value.isPrivate) && look.admins.Some?
              && (exists k :: 0 <= k < |look.admins.value| && AdminIs(look.admins.value[k], key)) ==>
                r.Some? && exists k :: 0 <= k < |look.admins.value| && AdminIs(look.admins.value[k], key)
                                       && look.admins.value[k].id == r.value
                                       && forall j :: 0 <= j < k ==> !AdminIs(look.admins.value[j], key)
      ensures var key := Clean(username);
              key !in old(userCache) && !(look.chat.Some? && look.chat.value.isPrivate)
              && (look.admins.None? || forall k :: 0 <= k < |look.admins.value| ==> !AdminIs(look.admins.value[k], key)) ==>
                r == look.member
      ensures userSessions == old(userSessions) && sessionOrder == old(sessionOrder)
      ensures conversations == old(conversations) && retries == old(retries)
    {
      var key := Clean(username);
      if key in userCache {
        return Some(userCache[key]);
      }
      if look.chat.Some? && look.chat.value.isPrivate {
        r := Some(look.chat.value.id);
      } else {
        r := None;
        if look.admins.Some? {
          r := FindAdmin(look.admins.value, key);
        }
        if r.None? {
          r := look.member;
        }
      }
      if r.Some? {
        userCache := userCache[key := r.value];
      }
    }

    /** Replaces the session of a user who has one. */
    method Replace(tid: string, s: Session)
      requires Valid() && tid in userSessions
      modifies this
      ensures Valid()
      ensures userSessions == old(userSessions)[tid := s]
      ensures sessionOrder == old(sessionOrder) && userCache == old(userCache)
      ensures conversations == old(conversations) && retries == old(retries)
    {
      userSessions := userSessions[tid := s];
    }

    /** `handle_admin_response`, an approve or reject button under a
        forwarded upload. Data that does not split into three pieces changes
        nothing; otherwise the user's session is fetched (and created when
        missing) and the verdict applied. Returns the order as saved and the
        message sent. */
    method HandleAdminResponse(data: string, orders: map<string, Order>, sendOk: bool, editOk: bool)
      returns (saved: Option<Order>, sent: Option<Notice>)
      requires Valid()
      modifies this
      ensures Valid()
      ensures conversations == old(conversations) && retries == old(retries) && userCache == old(userCache)
      ensures ParseToken(data).None? ==>
                saved.None? && sent.None? && userSessions == old(userSessions) && sessionOrder == old(sessionOrder)
      ensures ParseToken(data).Some? ==>
                var tok := ParseToken(data).value;
                var e := ButtonEffect(SessionIn(old(userSessions), tok.tid), tok, orders, sendOk, editOk);
                saved == e.saved && sent == e.sent && userSessions == old(userSessions)[tok.tid := e.session]
                && sessionOrder == Admit(old(sessionOrder), old(userSessions), tok.tid)
    {
      var tok := ParseToken(data);
      if tok.None? {
        return None, None;
      }
      var s := GetUserSession(tok.value.tid);
      var e := ButtonEffect(s, tok.value, orders, sendOk, editOk);
      UpdateTwice(old(userSessions), tok.value.tid, s, e.session);
      Replace(tok.value.tid, e.session);
      saved, sent := e.saved, e.sent;
    }

    /** `handle_admin_reply`, a reply in the private channel to a forwarded
        upload; `caption` is the replied-to message's caption, whose order id
        is read as written. Returns the order as saved and the
        message sent. */
    method HandleAdminReply(chatId: int, text: Option<string>, caption: Option<string>,
                            orders: map<string, Order>, sendOk: bool)
      returns (saved: Option<Order>, sent: Option<Notice>)
      requires Valid()
      modifies this
      ensures Valid()
      ensures conversations == old(conversations) && retries == old(retries) && userCache == old(userCache)
      ensures chatId != privateChannelId || ReplyOrder(text, caption, orders).None? ==>
                saved.None? && sent.None? && userSessions == old(userSessions) && sessionOrder == old(sessionOrder)
      ensures chatId == privateChannelId && ReplyOrder(text, caption, orders).Some? ==>
                var o := ReplyOrder(text, caption, orders).value;
                var e := ReplyEffect(SessionIn(old(userSessions), o.telegramUserId), o, ReplyDecision(ReplyText(text)), sendOk);
                saved == e.saved && sent == e.sent && userSessions == old(userSessions)[o.telegramUserId := e.session]
                && sessionOrder == Admit(old(sessionOrder), old(userSessions), o.telegramUserId)
    {
      if chatId != privateChannelId {
        return None, None;
      }
      var o := ReplyOrder(text, caption, orders);
      if o.None? {
        return None, None;
      }
      var tid := o.value.telegramUserId;
      var s := GetUserSession(tid);
      var e := ReplyEffect(s, o.value, ReplyDecision(ReplyText(text)), sendOk);
      UpdateTwice(old(userSessions), tid, s, e.session);
      Replace(tid, e.session);
      saved, sent := e.saved, e.sent;
    }

    /** One pass of `poll_order_status_changes` over the sessions in
        insertion order; the first exception ends the pass. */
    method PollTick(env: PollEnv) returns (sent: seq<Delivery>, aborted: bool)
      requires Valid()
      modifies this
      ensures Valid()
      ensures var p := Poll(old(sessionOrder), old(userSessions), env);
              userSessions == p.sessions && sent == p.sent && aborted == p.aborted
      ensures sessionOrder == old(sessionOrder) && userCache == old(userCache)
      ensures conversations == old(conversations) && retries == old(retries)
    {
      var updated;
      updated, sent, aborted := PollSessions(sessionOrder, userSessions, env);
      userSessions := updated;
    }
  }

  /** A pass's result with `sent` delivered before it. */
  function After(sent: seq<Delivery>, r: PollResult): PollResult {
    PollResult(r.sessions, sent + r.sent, r.aborted)
  }

  /** One step of a pass, from position `i` of `ids`, after `sent` went out. */
  lemma PollFrom(ids: seq<string>, i: int, sessions: map<string, Session>, env: PollEnv, sent: seq<Delivery>)
    requires 0 <= i < |ids| && forall k :: 0 <= k < |ids| ==> ids[k] in sessions
    ensures var t := ids[i];
            After(sent, Poll(ids[i..], sessions, env)) ==
              match VisitSession(sessions[t], env)
              case Pass => After(sent, Poll(ids[i + 1..], sessions, env))
              case Abort => PollResult(sessions, sent, true)
              case Deliver(s', n) => After(sent + [Delivery(t, n)], Poll(ids[i + 1..], sessions[t := s'], env))
  {
    var t := ids[i];
    assert ids[i..][0] == t && ids[i..][1..] == ids[i + 1..];
    match VisitSession(sessions[t], env)
    case Pass =>
    case Abort =>
      assert sent + [] == sent;
    case Deliver(s', n) =>
      var r := Poll(ids[i + 1..], sessions[t := s'], env);
      assert sent + ([Delivery(t, n)] + r.sent) == (sent + [Delivery(t, n)]) + r.sent;
  }

  /** The body of the poll loop: visits the session at position `i`. */
  method VisitAt(ids: seq<string>, i: int, current: map<string, Session>, env: PollEnv, sent: seq<Delivery>)
    returns (next: map<string, Session>, sent': seq<Delivery>, stop: bool)
    requires 0 <= i < |ids| && forall k :: 0 <= k < |ids| ==> ids[k] in current
    ensures next.Keys == current.Keys
    ensures stop ==> After(sent, Poll(ids[i..], current, env)) == PollResult(next, sent', true)
    ensures !stop ==> After(sent, Poll(ids[i..], current, env)) == After(sent', Poll(ids[i + 1..], next, env))
  {
    var t := ids[i];
    PollFrom(ids, i, current, env, sent);
    match VisitSession(current[t], env) {
      case Pass =>
        return current, sent, false;
      case Abort =>
        return current, sent, true;
      case Deliver(s', n) =>
        return current[t := s'], sent + [Delivery(t, n)], false;
    }
  }

  /** The loop of one poll pass: visits the sessions in `ids` order, marks
      each one it notified, and stops at the first exception. */
  method PollSessions(ids: seq<string>, sessions: map<string, Session>, env: PollEnv)
    returns (current: map<string, Session>, sent: seq<Delivery>, aborted: bool)
    requires forall i :: 0 <= i < |ids| ==> ids[i] in sessions
    ensures Poll(ids, sessions, env) == PollResult(current, sent, aborted)
  {
    current := sessions;
    sent, aborted := [], false;
    var i := 0;
    assert ids[0..] == ids && [] + Poll(ids, sessions, env).sent == Poll(ids, sessions, env).sent;
    while i < |ids|
      invariant 0 <= i <= |ids|
      invariant current.Keys == sessions.Keys
      invariant Poll(ids, sessions, env) == After(sent, Poll(ids[i..], current, env))
    {
      var stop;
      current, sent, stop := VisitAt(ids, i, current, env, sent);
      if stop {
        return current, sent, true;
      }
      i := i + 1;
    }
    assert sent + [] == sent;
  }
}
