/**
 * Telling the user the outcome of a payment check. Three paths send the
 * message: the admin's reply in the private channel, the admin's inline
 * button, and the status poll that runs every five minutes. The session's
 * `notified` flag is meant to make the message go out once per order.
 */
module Notify {
  import opened Wrappers
  import opened Orders
  import opened Wizard

  /** The two messages: `payment_verified`, and `payment_rejected` with its
      reason filled in. */
  datatype Message = PaymentVerified | PaymentRejected(reason: string)

  /** A message sent to a chat. */
  datatype Notice = Notice(chat: int, message: Message)

  /** `order.statusDetails or "No reason provided"` */
  function OrNoReason(details: Option<string>): (r: string)
    ensures r != []
    ensures details.Some? && details.value != "" ==> r == details.value
    ensures !(details.Some? && details.value != "") ==> r == NoReason
  {
    if details.Some? && details.value != "" then details.value else NoReason
  }

  /** The message the poll owes for an order: none unless it was verified or
      rejected. */
  function StatusMessage(o: Order): (r: Option<Message>)
    ensures r.Some? <==> o.status == Verified || o.status == Rejected
    ensures o.status == Verified ==> r == Some(PaymentVerified)
    ensures o.status == Rejected ==> r == Some(PaymentRejected(OrNoReason(o.statusDetails)))
  {
    match o.status
    case Verified => Some(PaymentVerified)
    case Rejected => Some(PaymentRejected(OrNoReason(o.statusDetails)))
    case _ => None
  }

  /** A session after a notification attempt, and what was sent. */
  datatype Attempt = Attempt(session: Session, sent: Option<Notice>)

  /** The admin reply's and the poll's guard: send only while the session
      is not notified, and mark it notified once the message went out.
      `sendOk` is false when sending raises. */
  function NotifyOnce(s: Session, m: Message, sendOk: bool): (r: Attempt)
    requires s.chatId.Some?
    ensures s.notified ==> r == Attempt(s, None)
    ensures !s.notified ==> (r.sent.Some? <==> sendOk) && (r.session.notified <==> sendOk)
    ensures r.sent.Some? ==> r.sent.value == Notice(s.chatId.value, m)
    ensures r.session == s.(notified := r.session.notified)
  {
    if s.notified || !sendOk then Attempt(s, None)
    else Attempt(s.(notified := true), Some(Notice(s.chatId.value, m)))
  }

  /** The admin button: the message goes out whatever the flag says, and the
      flag is set only when both the message and the caption edit after it
      succeed. */
  function NotifyByButton(s: Session, m: Message, sendOk: bool, editOk: bool): (r: Attempt)
    requires s.chatId.Some?
    ensures r.sent.Some? <==> sendOk
    ensures r.sent.Some? ==> r.sent.value == Notice(s.chatId.value, m)
    ensures r.session.notified <==> s.notified || (sendOk && editOk)
    ensures r.session == s.(notified := r.session.notified)
  {
    var sent := if sendOk then Some(Notice(s.chatId.value, m)) else None;
    Attempt(if sendOk && editOk then s.(notified := true) else s, sent)
  }

  // ---------------------------------------------------------------------
  // One pass of the status poll

  /** What the poll sees of the world: the stored orders by id, the ids
      whose lookup raises, and the chats a message to which raises. */
  datatype PollEnv = PollEnv(orders: map<string, Order>, unreadable: set<string>, unreachable: set<int>)

  /** The session has an order and a chat, and the order was decided. */
  predicate Due(s: Session, env: PollEnv) {
    s.orderId.Some? && s.chatId.Some? && s.orderId.value !in env.unreadable
    && s.orderId.value in env.orders && StatusMessage(env.orders[s.orderId.value]).Some?
  }

  /** The message a due session is owed. */
  function Owed(s: Session, env: PollEnv): Message
    requires Due(s, env)
  {
    StatusMessage(env.orders[s.orderId.value]).value
  }

  /** The outcome of visiting one session: nothing to do, an exception that
      ends the pass, or a message delivered. */
  datatype Visit = Pass | Abort | Deliver(session: Session, notice: Notice)

  function VisitSession(s: Session, env: PollEnv): (v: Visit)
    ensures v.Deliver? <==> Due(s, env) && !s.notified && s.chatId.value !in env.unreachable
    ensures v.Deliver? ==> v.session == s.(notified := true) && v.notice == Notice(s.chatId.value, Owed(s, env))
  {
    if s.orderId.None? || s.chatId.None? then Pass
    else if s.orderId.value in env.unreadable then Abort
    else if s.orderId.value !in env.orders then Pass
    else match StatusMessage(env.orders[s.orderId.value])
      case None => Pass
      case Some(m) =>
        if s.notified then Pass
        else if s.chatId.value in env.unreachable then Abort
        else Deliver(s.(notified := true), Notice(s.chatId.value, m))
  }

  /** A visit raises when the order cannot be read, or when the owed
      message cannot be sent. */
  lemma VisitAborts(s: Session, env: PollEnv)
    ensures VisitSession(s, env).Abort? <==>
              s.orderId.Some? && s.chatId.Some?
              && (s.orderId.value in env.unreadable
                  || (Due(s, env) && !s.notified && s.chatId.value in env.unreachable))
  {
  }

  /** A message the poll sent, and to whose session it belonged. */
  datatype Delivery = Delivery(tid: string, notice: Notice)

  datatype PollResult = PollResult(sessions: map<string, Session>, sent: seq<Delivery>, aborted: bool)

  /** `b` is `a` with, at most, more flags set. */
  predicate FlagsOnly(a: map<string, Session>, b: map<string, Session>) {
    a.Keys == b.Keys
    && (forall t :: t in a ==> b[t] == a[t].(notified := b[t].notified))
    && (forall t :: t in a && a[t].notified ==> b[t].notified)
  }

  lemma FlagsOnlyTrans(a: map<string, Session>, b: map<string, Session>, c: map<string, Session>)
    requires FlagsOnly(a, b) && FlagsOnly(b, c)
    ensures FlagsOnly(a, c)
  {
    forall t | t in a
      ensures c[t] == a[t].(notified := c[t].notified)
    {
      assert b[t] == a[t].(notified := b[t].notified);
    }
  }

  lemma FlagsOnlyMark(a: map<string, Session>, t: string)
    requires t in a
    ensures FlagsOnly(a, a[t := a[t].(notified := true)])
  {
  }

  /** One pass over the sessions in `ids` order: every session is visited
      in turn until one raises. A pass changes no session but its flag, and
      adds or drops none. */
  function Poll(ids: seq<string>, sessions: map<string, Session>, env: PollEnv): (r: PollResult)
    requires forall i :: 0 <= i < |ids| ==> ids[i] in sessions
    ensures FlagsOnly(sessions, r.sessions)
    decreases |ids|
  {
    if ids == [] then PollResult(sessions, [], false)
    else
      var t := ids[0];
      match VisitSession(sessions[t], env)
      case Pass => Poll(ids[1..], sessions, env)
      case Abort => PollResult(sessions, [], true)
      case Deliver(s', n) =>
        var next := sessions[t := s'];
        FlagsOnlyMark(sessions, t);
        var r := Poll(ids[1..], next, env);
        FlagsOnlyTrans(sessions, next, r.sessions);
        PollResult(r.sessions, [Delivery(t, n)] + r.sent, r.aborted)
  }

  /** A session whose flag a pass sets was due and got its message, and a
      session absent from `ids` is left alone. */
  lemma {:induction false} PollSetsOnlyDue(ids: seq<string>, sessions: map<string, Session>, env: PollEnv)
    requires forall i :: 0 <= i < |ids| ==> ids[i] in sessions
    ensures forall t :: t in sessions && !sessions[t].notified && Poll(ids, sessions, env).sessions[t].notified ==>
              t in ids && Due(sessions[t], env)
              && Delivery(t, Notice(sessions[t].chatId.value, Owed(sessions[t], env))) in Poll(ids, sessions, env).sent
    decreases |ids|
  {
    if ids != [] {
      var t := ids[0];
      match VisitSession(sessions[t], env)
      case Pass =>
        PollSetsOnlyDue(ids[1..], sessions, env);
      case Abort =>
      case Deliver(s', n) =>
        var next := sessions[t := s'];
        PollSetsOnlyDue(ids[1..], next, env);
    }
  }

  /** Every message in `r` is the one owed to a session of `ids` that was
      due and not yet notified in `sessions`, and is notified in `r`. */
  predicate SentOwed(ids: seq<string>, sessions: map<string, Session>, env: PollEnv, r: PollResult)
    requires r.sessions.Keys == sessions.Keys
  {
    forall d :: d in r.sent ==>
      d.tid in ids && d.tid in sessions && Due(sessions[d.tid], env) && !sessions[d.tid].notified
      && d.notice == Notice(sessions[d.tid].chatId.value, Owed(sessions[d.tid], env))
      && r.sessions[d.tid].notified
  }

  /** Every message a pass sends is the one owed to a session that was due
      and not yet notified, and leaves that session notified. */
  lemma {:induction false} PollSendsOwed(ids: seq<string>, sessions: map<string, Session>, env: PollEnv)
    requires forall i :: 0 <= i < |ids| ==> ids[i] in sessions
    ensures SentOwed(ids, sessions, env, Poll(ids, sessions, env))
    decreases |ids|
  {
    if ids != [] {
      var t := ids[0];
      var rest := ids[1..];
      match VisitSession(sessions[t], env)
      case Pass =>
        PollSendsOwed(rest, sessions, env);
      case Abort =>
      case Deliver(s', n) =>
        PollSendsOwed(rest, sessions[t := s'], env);
        DeliverKeepsOwed(ids, sessions, env, s', n);
    }
  }

  lemma DeliverKeepsOwed(ids: seq<string>, sessions: map<string, Session>, env: PollEnv, s': Session, n: Notice)
    requires forall i :: 0 <= i < |ids| ==> ids[i] in sessions
    requires ids != [] && VisitSession(sessions[ids[0]], env) == Deliver(s', n)
    requires SentOwed(ids[1..], sessions[ids[0] := s'], env, Poll(ids[1..], sessions[ids[0] := s'], env))
    ensures SentOwed(ids, sessions, env, Poll(ids, sessions, env))
  {
    var t := ids[0];
    var next := sessions[t := s'];
    var r := Poll(ids[1..], next, env);
    assert Poll(ids, sessions, env) == PollResult(r.sessions, [Delivery(t, n)] + r.sent, r.aborted);
    assert r.sessions[t].notified;
    forall d | d in r.sent
      ensures d.tid != t && next[d.tid] == sessions[d.tid]
    {
    }
  }

  /** No session gets two messages from one pass, even were `ids` to list
      it twice: the first message sets its flag. */
  lemma {:induction false} PollSendsOnce(ids: seq<string>, sessions: map<string, Session>, env: PollEnv)
    requires forall i :: 0 <= i < |ids| ==> ids[i] in sessions
    ensures forall k, l :: 0 <= k < l < |Poll(ids, sessions, env).sent| ==>
              Poll(ids, sessions, env).sent[k].tid != Poll(ids, sessions, env).sent[l].tid
    decreases |ids|
  {
    if ids != [] {
      var t := ids[0];
      var rest := ids[1..];
      match VisitSession(sessions[t], env)
      case Pass =>
        PollSendsOnce(rest, sessions, env);
      case Abort =>
      case Deliver(s', n) =>
        var next := sessions[t := s'];
        PollSendsOnce(rest, next, env);
        PollSendsOwed(rest, next, env);
        var r := Poll(rest, next, env);
        forall k | 0 <= k < |r.sent|
          ensures r.sent[k].tid != t
        {
          assert r.sent[k] in r.sent;
        }
        assert Poll(ids, sessions, env).sent == [Delivery(t, n)] + r.sent;
    }
  }

  /** A pass that raises nowhere leaves every due session of `ids` notified. */
  lemma {:induction false} PollComplete(ids: seq<string>, sessions: map<string, Session>, env: PollEnv)
    requires forall i :: 0 <= i < |ids| ==> ids[i] in sessions
    requires !Poll(ids, sessions, env).aborted
    ensures forall t :: t in ids && Due(sessions[t], env) ==> Poll(ids, sessions, env).sessions[t].notified
    decreases |ids|
  {
    if ids != [] {
      var t := ids[0];
      var rest := ids[1..];
      match VisitSession(sessions[t], env)
      case Pass =>
        PollComplete(rest, sessions, env);
      case Abort =>
      case Deliver(s', n) =>
        var next := sessions[t := s'];
        PollComplete(rest, next, env);
    }
  }

  /** A pass that raises at a session leaves it and every later session
      untouched (so, by `PollSendsOwed`, sends them nothing). */
  lemma {:induction false} PollAbortStops(ids: seq<string>, sessions: map<string, Session>, env: PollEnv, k: nat)
    requires forall i :: 0 <= i < |ids| ==> ids[i] in sessions
    requires forall i, j :: 0 <= i < j < |ids| ==> ids[i] != ids[j]
    requires k < |ids| && VisitSession(sessions[ids[k]], env).Abort?
    ensures Poll(ids, sessions, env).aborted
    ensures forall i :: k <= i < |ids| ==> Poll(ids, sessions, env).sessions[ids[i]] == sessions[ids[i]]
    decreases |ids|
  {
    var t := ids[0];
    var rest := ids[1..];
    assert forall i :: 0 <= i < |rest| ==> rest[i] == ids[i + 1];
    if k > 0 {
      match VisitSession(sessions[t], env)
      case Pass =>
        PollAbortStops(rest, sessions, env, k - 1);
      case Abort =>
      case Deliver(s', n) =>
        var next := sessions[t := s'];
        assert next[rest[k - 1]] == sessions[rest[k - 1]];
        PollAbortStops(rest, next, env, k - 1);
    }
  }

  /** A second pass over the same store sends nothing the first one sent:
      after a pass that raised nowhere, only sessions the first pass had to
      skip could still be due and unnotified, and there are none. */
  lemma PollAgainSendsNothing(ids: seq<string>, sessions: map<string, Session>, env: PollEnv)
    requires forall i :: 0 <= i < |ids| ==> ids[i] in sessions
    requires !Poll(ids, sessions, env).aborted
    ensures Poll(ids, Poll(ids, sessions, env).sessions, env).sent == []
  {
    var r := Poll(ids, sessions, env);
    PollComplete(ids, sessions, env);
    forall t | t in ids
      ensures Due(r.sessions[t], env) ==> r.sessions[t].notified
    {
      assert Due(r.sessions[t], env) == Due(sessions[t], env);
    }
    NothingOwed(ids, r.sessions, env);
  }

  lemma {:induction false} NothingOwed(ids: seq<string>, sessions: map<string, Session>, env: PollEnv)
    requires forall i :: 0 <= i < |ids| ==> ids[i] in sessions
    requires forall t :: t in ids && Due(sessions[t], env) ==> sessions[t].notified
    ensures Poll(ids, sessions, env).sent == []
    decreases |ids|
  {
    if ids != [] {
      var rest := ids[1..];
      assert forall t :: t in rest ==> t in ids;
      assert !VisitSession(sessions[ids[0]], env).Deliver?;
      NothingOwed(rest, sessions, env);
    }
  }

  // ---------------------------------------------------------------------
  // The flag across events

  /** What can happen to one session's notification state: an admin reply
      or a poll visit (both guarded), an admin button, or a new order
      (confirming one, or `/payment` for a rejected one) that clears the
      flag. */
  datatype Event = Reply(sendOk: bool) | PollVisit(sendOk: bool) | Button(sendOk: bool, editOk: bool) | NewOrder(id: string)

  /** The session after the events, and how many messages went out. */
  function Replay(s: Session, events: seq<Event>, m: Message): (r: (Session, nat))
    requires s.chatId.Some?
    ensures r.0.chatId == s.chatId
    decreases |events|
  {
    if events == [] then (s, 0)
    else
      var a := match events[0]
        case Reply(ok) => NotifyOnce(s, m, ok)
        case PollVisit(ok) => NotifyOnce(s, m, ok)
        case Button(ok, edited) => NotifyByButton(s, m, ok, edited)
        case NewOrder(id) => Attempt(s.(orderId := Some(id), notified := false), None);
      var r := Replay(a.session, events[1..], m);
      (r.0, r.1 + (if a.sent.Some? then 1 else 0))
  }

  function NewOrders(events: seq<Event>): nat
    decreases |events|
  {
    if events == [] then 0 else (if events[0].NewOrder? then 1 else 0) + NewOrders(events[1..])
  }

  /** Without admin buttons, a session is told at most once per order: no
      more messages than new orders, plus one if it was not yet notified. */
  lemma {:induction false} GuardedPathsNotifyOncePerOrder(s: Session, events: seq<Event>, m: Message)
    requires s.chatId.Some?
    requires forall i :: 0 <= i < |events| ==> !events[i].Button?
    ensures Replay(s, events, m).1 <= (if s.notified then 0 else 1) + NewOrders(events)
    decreases |events|
  {
    if events != [] {
      var rest := events[1..];
      assert forall i :: 0 <= i < |rest| ==> rest[i] == events[i + 1];
      match events[0]
      case Reply(ok) => GuardedPathsNotifyOncePerOrder(NotifyOnce(s, m, ok).session, rest, m);
      case PollVisit(ok) => GuardedPathsNotifyOncePerOrder(NotifyOnce(s, m, ok).session, rest, m);
      case NewOrder(id) => GuardedPathsNotifyOncePerOrder(s.(orderId := Some(id), notified := false), rest, m);
    }
  }

  /** The button bypasses the guard: after a reply told the user, a button
      press tells them again; and a caption edit that fails after the
      message leaves the flag clear, so the next poll repeats it. */
  lemma ButtonRepeats(s: Session, m: Message)
    requires s.chatId.Some? && !s.notified
    ensures Replay(s, [Reply(true), Button(true, true)], m).1 == 2
    ensures Replay(s, [Button(true, false), PollVisit(true)], m).1 == 2
  {
    var s1 := s.(notified := true);
    assert [Reply(true), Button(true, true)][1..] == [Button(true, true)];
    assert Replay(s1, [Button(true, true)], m).1 == 1 by {
      assert [Button(true, true)][1..] == [];
    }
    assert [Button(true, false), PollVisit(true)][1..] == [PollVisit(true)];
    assert Replay(s, [PollVisit(true)], m).1 == 1 by {
      assert [PollVisit(true)][1..] == [];
    }
  }
}
