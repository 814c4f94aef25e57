/**
 * Orders as the payment flow sees them: the order record and the status
 * changes the bot asks of it, the callback data of the admin buttons, the
 * caption forwarded to the private channel with a payment upload, the
 * grammar of an admin's reply to that caption, and the choice of the most
 * recent rejected order for `/payment`.
 */
module Orders {
  import opened Wrappers
  import opened Text

  datatype Status = AwaitingPayment | PendingVerification | Verified | Rejected

  /** An order as stored. `createdAt` is the key the rejected-order search
      sorts by, already resolved from whichever timestamp the record has. */
  datatype Order = Order(
    id: string,
    telegramUserId: string,
    status: Status,
    statusDetails: Option<string>,
    createdAt: int,
    paymentScreenshotUrl: Option<string>)

  const NoReason: string := "No reason provided"
  const AwaitingVerification: string := "Payment screenshot submitted, awaiting admin verification"

  /** A payment upload was forwarded: the order waits for an admin. */
  function SubmitScreenshot(o: Order, url: string): (r: Order)
    ensures r.status == PendingVerification && r.paymentScreenshotUrl == Some(url)
    ensures r.statusDetails == Some(AwaitingVerification)
    ensures r.id == o.id && r.telegramUserId == o.telegramUserId && r.createdAt == o.createdAt
  {
    o.(paymentScreenshotUrl := Some(url), status := PendingVerification,
       statusDetails := Some(AwaitingVerification))
  }

  /** `approve_payment`. */
  function Approve(o: Order): (r: Order)
    ensures r.status == Verified
    ensures r == o.(status := Verified)
  {
    o.(status := Verified)
  }

  /** `reject_payment(reason)`: the reason is what the status poll later
      reports to the user. */
  function Reject(o: Order, reason: string): (r: Order)
    ensures r.status == Rejected && r.statusDetails == Some(reason)
    ensures r == o.(status := Rejected, statusDetails := Some(reason))
  {
    o.(status := Rejected, statusDetails := Some(reason))
  }

  // ---------------------------------------------------------------------
  // Admin buttons

  /** The callback data of an admin button, `{action}_{telegram id}_{order id}`. */
  datatype Token = Token(action: string, tid: string, orderId: string)

  function ButtonToken(action: string, tid: string, orderId: string): string {
    action + "_" + tid + "_" + orderId
  }

  /** `action, telegram_id, order_id = data.split('_', 2)`; None where the
      unpacking raises ValueError because there are fewer than three pieces. */
  function ParseToken(data: string): (r: Option<Token>)
    ensures r.None? <==> multiset(data)['_'] < 2
    ensures r.Some? ==> '_' !in r.value.action && '_' !in r.value.tid
    ensures r.Some? ==> ButtonToken(r.value.action, r.value.tid, r.value.orderId) == data
  {
    var pieces := SplitMax(data, '_', 2);
    SplitMaxCount(data, '_', 2);
    if |pieces| < 3 then None
    else
      JoinOfSplitMax(data, '_', 2);
      JoinThree(pieces, '_');
      Some(Token(pieces[0], pieces[1], pieces[2]))
  }

  lemma JoinThree(pieces: seq<string>, c: char)
    requires |pieces| == 3
    ensures Join(pieces, c) == pieces[0] + [c] + pieces[1] + [c] + pieces[2]
  {
    var tail := pieces[1..];
    assert |tail| == 2 && tail[0] == pieces[1];
    assert tail[1..] == [pieces[2]];
    assert Join(tail[1..], c) == pieces[2];
    assert Join(tail, c) == pieces[1] + [c] + pieces[2];
  }

  /** The data of a button the bot made parses back to its parts. Telegram
      ids are digits and the actions are `approve` and `reject`, so neither
      holds an underscore; the order id may. */
  lemma ParseButtonToken(action: string, tid: string, orderId: string)
    requires '_' !in action && '_' !in tid
    ensures ParseToken(ButtonToken(action, tid, orderId)) == Some(Token(action, tid, orderId))
  {
    var pieces := [action, tid, orderId];
    JoinThree(pieces, '_');
    SplitMaxOfJoin(pieces, '_');
  }

  // ---------------------------------------------------------------------
  // The caption forwarded with a payment upload

  const PaymentPrefix: string := "\U{1F4B3} Payment"
  const ScreenshotHeader: string := "\U{1F4B3} Payment Screenshot Received"
  const DocumentHeader: string := "\U{1F4B3} Payment Document Received"
  const RetryTag: string := " (RETRY)"
  const UserTag: string := "\U{1F464} User: "
  const UserIdTag: string := "\U{1F194} User ID: "
  const OrderIdTag: string := "\U{1F4CB} Order ID: "
  const PhoneTag: string := "\U{1F4DE} Phone: "

  /** What the proofs need of the fixed parts of the caption: their first
      characters differ from that of the order-id tag, and none breaks a
      line or holds an `O`. */
  lemma TagFacts()
    ensures ScreenshotHeader[0] == DocumentHeader[0] == PaymentPrefix[0] == '\U{1F4B3}'
    ensures UserTag[0] == '\U{1F464}' && UserIdTag[0] == '\U{1F194}' && OrderIdTag[0] == '\U{1F4CB}'
    ensures '\n' !in ScreenshotHeader && '\n' !in DocumentHeader && '\n' !in RetryTag
    ensures 'O' !in ScreenshotHeader && 'O' !in DocumentHeader && 'O' !in RetryTag
    ensures '\n' !in UserTag && '\n' !in UserIdTag && '\n' !in OrderIdTag && '\n' !in PhoneTag
    ensures 'O' !in UserTag
    ensures StartsWith(ScreenshotHeader, PaymentPrefix) && StartsWith(DocumentHeader, PaymentPrefix)
  {
  }

  /** The order-id tag is an emoji, a space and `Order ID: `; the user-id
      tag holds no `O`. */
  lemma OrderIdTagFacts()
    ensures OrderIdTag == "\U{1F4CB} " + "Order ID: "
    ensures 'O' !in UserIdTag
  {
  }

  /** The Telegram user who sent the upload. */
  datatype Sender = Sender(firstName: Option<string>, lastName: Option<string>, username: Option<string>)

  /** `x or ''` */
  function OrEmpty(o: Option<string>): string {
    match o
    case None => ""
    case Some(x) => x
  }

  /** `👤 User: {first} {last}`, stripped, then ` (@{username})` when there
      is a username. */
  function UserLine(u: Sender): (r: string)
    ensures |r| > 0 && r[0] == UserTag[0]
    ensures ('\n' !in OrEmpty(u.firstName) && '\n' !in OrEmpty(u.lastName)
             && '\n' !in OrEmpty(u.username)) ==> '\n' !in r
  {
    var raw := UserTag + OrEmpty(u.firstName) + " " + OrEmpty(u.lastName);
    var base := Strip(raw);
    StripKeepsHead(raw);
    if u.username.Some? && u.username.value != "" then base + " (@" + u.username.value + ")" else base
  }

  lemma StripKeepsHead(s: string)
    requires s != [] && !IsSpace(s[0])
    ensures Strip(s) != [] && Strip(s)[0] == s[0]
    ensures '\n' !in s ==> '\n' !in Strip(s)
  {
    var r := Strip(s);
    var k :| SurroundedAt(s, r, k);
    assert !IsSpace(s[0]);
  }

  function Header(isPhoto: bool, retry: bool): (r: string)
    ensures StartsWith(r, PaymentPrefix)
    ensures '\n' !in r && 'O' !in r
  {
    TagFacts();
    var h := if isPhoto then ScreenshotHeader else DocumentHeader;
    var r := h + (if retry then RetryTag else "");
    assert r[..|PaymentPrefix|] == h[..|PaymentPrefix|];
    r
  }

  /** The lines of the caption: the header, a blank line, then the user
      block. `orderId` is the session's order id: the caption is only sent
      when there is one. */
  function CaptionLines(isPhoto: bool, retry: bool, u: Sender, tid: string, orderId: string, phone: string): seq<string> {
    [Header(isPhoto, retry), "", UserLine(u), UserIdTag + tid, OrderIdTag + orderId, PhoneTag + phone]
  }

  /** `f"{header}\n\n{user_info}"` with the lines of `user_info` joined by
      line breaks. */
  function PaymentCaption(isPhoto: bool, retry: bool, u: Sender, tid: string, orderId: string, phone: string): string {
    Join(CaptionLines(isPhoto, retry, u, tid, orderId, phone), '\n')
  }

  /** The caption splits back into its lines when no part the user controls
      breaks a line. */
  lemma SplitCaption(isPhoto: bool, retry: bool, u: Sender, tid: string, orderId: string, phone: string)
    requires '\n' !in OrEmpty(u.firstName) && '\n' !in OrEmpty(u.lastName) && '\n' !in OrEmpty(u.username)
    requires '\n' !in tid && '\n' !in orderId && '\n' !in phone
    ensures SplitAll(PaymentCaption(isPhoto, retry, u, tid, orderId, phone), '\n')
            == CaptionLines(isPhoto, retry, u, tid, orderId, phone)
  {
    CaptionLinesUnbroken(isPhoto, retry, u, tid, orderId, phone);
    SplitAllOfJoin(CaptionLines(isPhoto, retry, u, tid, orderId, phone), '\n');
  }

  /** No line of the caption holds a line break when no part the user
      controls does. */
  lemma CaptionLinesUnbroken(isPhoto: bool, retry: bool, u: Sender, tid: string, orderId: string, phone: string)
    requires '\n' !in OrEmpty(u.firstName) && '\n' !in OrEmpty(u.lastName) && '\n' !in OrEmpty(u.username)
    requires '\n' !in tid && '\n' !in orderId && '\n' !in phone
    ensures forall i :: 0 <= i < |CaptionLines(isPhoto, retry, u, tid, orderId, phone)| ==>
              '\n' !in CaptionLines(isPhoto, retry, u, tid, orderId, phone)[i]
  {
    TagsUnbroken();
    var a, b, c := UserIdTag + tid, OrderIdTag + orderId, PhoneTag + phone;
    assert '\n' !in a && '\n' !in b && '\n' !in c;
    SixUnbroken(Header(isPhoto, retry), "", UserLine(u), a, b, c);
  }

  lemma TagsUnbroken()
    ensures '\n' !in UserIdTag && '\n' !in OrderIdTag && '\n' !in PhoneTag
  {
  }

  lemma SixUnbroken(l0: string, l1: string, l2: string, l3: string, l4: string, l5: string)
    requires '\n' !in l0 && '\n' !in l1 && '\n' !in l2 && '\n' !in l3 && '\n' !in l4 && '\n' !in l5
    ensures forall i :: 0 <= i < 6 ==> '\n' !in [l0, l1, l2, l3, l4, l5][i]
  {
  }

  /** Every payment caption passes the admin reply handler's caption test. */
  lemma CaptionHasPrefix(isPhoto: bool, retry: bool, u: Sender, tid: string, orderId: string, phone: string)
    ensures StartsWith(PaymentCaption(isPhoto, retry, u, tid, orderId, phone), PaymentPrefix)
  {
    var lines := CaptionLines(isPhoto, retry, u, tid, orderId, phone);
    var h := lines[0];
    assert lines[1..][0] == "";
    var c := h + "\n" + Join(lines[1..], '\n');
    assert PaymentCaption(isPhoto, retry, u, tid, orderId, phone) == c;
    assert StartsWith(h, PaymentPrefix);
    assert c[..|PaymentPrefix|] == h[..|PaymentPrefix|];
  }

  /** `caption.split('Order ID: ')[1].split('\n')[0].strip()`, as the admin
      reply handler reads the order id; None where it raises IndexError. */
  function CaptionOrderIdAsWritten(caption: string): (r: Option<string>)
    ensures r.None? <==> FindFrom(caption, "Order ID: ", 0).None?
    ensures r.Some? ==> '\n' !in r.value
  {
    match SplitSecond(caption, "Order ID: ")
    case None => None
    case Some(p) =>
      StripLinePiece(BeforeChar(p, '\n'));
      Some(Strip(BeforeChar(p, '\n')))
  }

  lemma StripLinePiece(s: string)
    requires '\n' !in s
    ensures '\n' !in Strip(s)
  {
    var k :| SurroundedAt(s, Strip(s), k);
  }

  /** The first line that starts with `tag`, with the tag cut off and the
      rest stripped. */
  function FirstTagged(lines: seq<string>, tag: string): (r: Option<string>)
    ensures r.None? <==> forall i :: 0 <= i < |lines| ==> !StartsWith(lines[i], tag)
  {
    if lines == [] then None
    else if StartsWith(lines[0], tag) then Some(Strip(lines[0][|tag|..]))
    else
      var r := FirstTagged(lines[1..], tag);
      assert forall i :: 1 <= i < |lines| ==> lines[i] == lines[1..][i - 1];
      r
  }

  /** `FirstTagged` reads the first line that starts with the tag and
      returns the rest of it, stripped. */
  lemma {:induction false} FirstTaggedIsFirst(lines: seq<string>, tag: string, i: nat)
    requires i < |lines| && StartsWith(lines[i], tag)
    requires forall j :: 0 <= j < i ==> !StartsWith(lines[j], tag)
    ensures FirstTagged(lines, tag) == Some(Strip(lines[i][|tag|..]))
    decreases i
  {
    if i > 0 {
      var rest := lines[1..];
      FirstTaggedSkips(lines, tag);
      assert rest[i - 1] == lines[i];
      forall j | 0 <= j < i - 1
        ensures !StartsWith(rest[j], tag)
      {
        assert rest[j] == lines[j + 1];
      }
      FirstTaggedIsFirst(rest, tag, i - 1);
    }
  }

  /** A first line without the tag is passed over. */
  lemma FirstTaggedSkips(lines: seq<string>, tag: string)
    requires lines != [] && !StartsWith(lines[0], tag)
    ensures FirstTagged(lines, tag) == FirstTagged(lines[1..], tag)
  {
  }

  /** The order id read from the `📋 Order ID:` line of the caption. */
  function CaptionOrderId(caption: string): Option<string> {
    FirstTagged(SplitAll(caption, '\n'), OrderIdTag)
  }

  /** Reading the order id back from a caption the bot built gives the
      session's order id, whatever the user's names: a name cannot start a
      line of its own. */
  lemma CaptionOrderIdRoundTrip(isPhoto: bool, retry: bool, u: Sender, tid: string, orderId: string, phone: string)
    requires '\n' !in OrEmpty(u.firstName) && '\n' !in OrEmpty(u.lastName) && '\n' !in OrEmpty(u.username)
    requires '\n' !in tid && '\n' !in orderId && '\n' !in phone
    requires Strip(orderId) == orderId
    ensures CaptionOrderId(PaymentCaption(isPhoto, retry, u, tid, orderId, phone)) == Some(orderId)
  {
    var h, user := Header(isPhoto, retry), UserLine(u);
    var lines := [h, "", user, UserIdTag + tid, OrderIdTag + orderId, PhoneTag + phone];
    assert lines == CaptionLines(isPhoto, retry, u, tid, orderId, phone);
    SplitCaption(isPhoto, retry, u, tid, orderId, phone);
    CaptionHeads(h, user, tid);
    FifthTagged(h, "", user, UserIdTag + tid, orderId, PhoneTag + phone, OrderIdTag);
    assert CaptionOrderId(PaymentCaption(isPhoto, retry, u, tid, orderId, phone)) == FirstTagged(lines, OrderIdTag);
  }

  /** Of a caption's lines before the order id, none starts like the order
      id tag: the header, the user line and the user id line. */
  lemma CaptionHeads(h: string, user: string, tid: string)
    requires StartsWith(h, PaymentPrefix) && user != [] && user[0] == UserTag[0]
    ensures OrderIdTag != [] && h != [] && h[0] != OrderIdTag[0] && user[0] != OrderIdTag[0]
    ensures UserIdTag + tid != [] && (UserIdTag + tid)[0] != OrderIdTag[0]
  {
    TagHeads();
    assert h[0] == PaymentPrefix[0];
    assert (UserIdTag + tid)[0] == UserIdTag[0];
  }

  /** The caption's tags start with different emoji. */
  lemma TagHeads()
    ensures PaymentPrefix != [] && UserIdTag != [] && OrderIdTag != []
    ensures PaymentPrefix[0] != OrderIdTag[0] && UserTag[0] != OrderIdTag[0] && UserIdTag[0] != OrderIdTag[0]
  {
  }

  /** The first tagged line is the fifth when none of the four before it
      starts like the tag. */
  lemma FifthTagged(a: string, b: string, c: string, d: string, v: string, f: string, tag: string)
    requires tag != []
    requires a == [] || a[0] != tag[0]
    requires b == [] || b[0] != tag[0]
    requires c == [] || c[0] != tag[0]
    requires d == [] || d[0] != tag[0]
    ensures FirstTagged([a, b, c, d, tag + v, f], tag) == Some(Strip(v))
  {
    var lines := [a, b, c, d, tag + v, f];
    var l1, l2, l3, l4 := lines[1..], lines[2..], lines[3..], lines[4..];
    assert !StartsWith(lines[0], tag);
    assert FirstTagged(lines, tag) == FirstTagged(l1, tag);
    assert l1[0] == lines[1] && l1[1..] == l2;
    assert FirstTagged(l1, tag) == FirstTagged(l2, tag);
    assert l2[0] == lines[2] && l2[1..] == l3;
    assert FirstTagged(l2, tag) == FirstTagged(l3, tag);
    assert l3[0] == lines[3] && l3[1..] == l4;
    assert FirstTagged(l3, tag) == FirstTagged(l4, tag);
    assert l4[0] == tag + v && (tag + v)[..|tag|] == tag && (tag + v)[|tag|..] == v;
  }

  /** The as-written parse reads the right text when the first `Order ID: `
      follows a stretch of lines that hold none, then a prefix without an
      `O`, and the text after it holds none up to the line break. */
  lemma AsWrittenReadsAfterLine(l: string, m: string, x: string, b: string)
    requires FindFrom(l, "Order ID: ", 0).None? && 'O' !in m
    requires FindFrom(x, "Order ID: ", 0).None? && '\n' !in x && Strip(x) == x
    requires b != [] && b[0] == '\n'
    ensures CaptionOrderIdAsWritten(l + "\n" + m + "Order ID: " + x + b) == Some(x)
  {
    var s := l + "\n" + m + "Order ID: " + x + b;
    var k := |l| + 1 + |m|;
    var start := k + |"Order ID: "|;
    PartsAroundTag(s, l, m, x, b, k, start);
    AsWrittenInText(s, l, m, x, k, start);
  }

  /** `AsWrittenReadsAfterLine` on a text `s` laid out as `l`, a line break,
      `m`, `Order ID: `, then from `start` the line `x`. */
  lemma AsWrittenInText(s: string, l: string, m: string, x: string, k: nat, start: nat)
    requires FindFrom(l, "Order ID: ", 0).None? && 'O' !in m
    requires FindFrom(x, "Order ID: ", 0).None? && '\n' !in x && Strip(x) == x
    requires |l| + |m| < |s| && s[..|l| + 1] == l + "\n" && s[|l| + 1..|l| + 1 + |m|] == m
    requires k == |l| + 1 + |m| && MatchAt(s, "Order ID: ", k)
    requires start == k + |"Order ID: "|
    requires start + |x| < |s| && s[start..start + |x| + 1] == x + "\n"
    ensures CaptionOrderIdAsWritten(s) == Some(x)
  {
    PieceAfterFirstMatch(s, "Order ID: ", l, m, x, k, start);
  }

  /** Where the pieces of `l`, a line break, `m`, `Order ID: `, `x` and a
      line break lie in their concatenation. */
  lemma PartsAroundTag(s: string, l: string, m: string, x: string, b: string, k: nat, start: nat)
    requires b != [] && b[0] == '\n'
    requires s == l + "\n" + m + "Order ID: " + x + b
    requires k == |l| + 1 + |m| && start == k + |"Order ID: "|
    ensures |l| + |m| < |s| && s[..|l| + 1] == l + "\n" && s[|l| + 1..|l| + 1 + |m|] == m
    ensures MatchAt(s, "Order ID: ", k)
    ensures start + |x| < |s| && s[start..start + |x| + 1] == x + "\n"
  {
    var pat := "Order ID: ";
    assert s[..|l| + 1] == l + "\n";
    assert s[|l| + 1..k] == m;
    assert s[k..k + |pat|] == pat;
    assert s[k + |pat|..k + |pat| + |x| + 1] == x + "\n";
  }

  /** A caption's text around its order-id line: the lines before it, then
      the tag's emoji, `Order ID: `, the id and the last line. */
  lemma CaptionAroundOrderLine(h: string, user: string, l3: string, x: string, l5: string)
    ensures Join([h, "", user, l3, OrderIdTag + x, l5], '\n')
            == h + "\n" + "" + "\n" + user + "\n" + l3 + "\n" + "\U{1F4CB} " + "Order ID: " + x + ("\n" + l5)
  {
    OrderIdTagFacts();
    CaptionAroundUserLine(h, user, l3, OrderIdTag + x, l5);
    JoinThree([l3, OrderIdTag + x, l5], '\n');
  }

  /** On a caption the bot built, the as-written parse and the line-based
      parse agree and read the session's order id, as long as no line before
      the order-id line holds `Order ID: `: the user line holds none and the
      numeric user id has no `O`. */
  lemma CaptionOrderIdAgree(isPhoto: bool, retry: bool, u: Sender, tid: string, orderId: string, phone: string)
    requires '\n' !in OrEmpty(u.firstName) && '\n' !in OrEmpty(u.lastName) && '\n' !in OrEmpty(u.username)
    requires '\n' !in tid && '\n' !in orderId && '\n' !in phone
    requires FindFrom(UserLine(u), "Order ID: ", 0).None? && 'O' !in tid
    requires FindFrom(orderId, "Order ID: ", 0).None? && Strip(orderId) == orderId
    ensures var caption := PaymentCaption(isPhoto, retry, u, tid, orderId, phone);
            CaptionOrderIdAsWritten(caption) == Some(orderId) && CaptionOrderId(caption) == Some(orderId)
  {
    var h, ul, l3, l5 := Header(isPhoto, retry), UserLine(u), UserIdTag + tid, PhoneTag + phone;
    OrderIdTagFacts();
    assert 'O' !in l3;
    AsWrittenOfLines(h, ul, l3, orderId, l5);
    CaptionOrderIdRoundTrip(isPhoto, retry, u, tid, orderId, phone);
  }

  /** The as-written parse of six caption lines reads the order id when no
      line before the order-id line holds `Order ID: `. */
  lemma AsWrittenOfLines(h: string, ul: string, l3: string, x: string, l5: string)
    requires 'O' !in h && FindFrom(ul, "Order ID: ", 0).None? && 'O' !in l3
    requires FindFrom(x, "Order ID: ", 0).None? && '\n' !in x && Strip(x) == x
    ensures CaptionOrderIdAsWritten(Join([h, "", ul, l3, OrderIdTag + x, l5], '\n')) == Some(x)
  {
    var pat := "Order ID: ";
    CaptionAroundOrderLine(h, ul, l3, x, l5);
    NoMatchWithoutHead(h, pat);
    NoMatchWithoutHead("", pat);
    NoMatchAcrossLine(h, "", pat);
    NoMatchAcrossLine(h + "\n" + "", ul, pat);
    NoMatchWithoutHead(l3, pat);
    NoMatchAcrossLine(h + "\n" + "" + "\n" + ul, l3, pat);
    AsWrittenReadsAfterLine(h + "\n" + "" + "\n" + ul + "\n" + l3, "\U{1F4CB} ", x, "\n" + l5);
  }

  /** A last name `Order ID: x` puts that text on the user line. */
  lemma InjectedUserLine(x: string)
    requires x != [] && !IsSpace(x[|x| - 1]) && '\n' !in x
    ensures UserLine(Sender(None, Some("Order ID: " + x), None)) == UserTag + " " + "Order ID: " + x
    ensures '\n' !in OrEmpty(Sender(None, Some("Order ID: " + x), None).lastName)
  {
    var name := "Order ID: " + x;
    UserLineOfLastName(name);
    var raw := UserTag + "" + " " + name;
    assert raw[0] == UserTag[0] && raw[|raw| - 1] == x[|x| - 1];
    StripOfTrimmed(raw);
    ConcatAssoc(UserTag + " ", "Order ID: ", x);
    assert UserTag + "" == UserTag;
  }

  lemma UserLineOfLastName(name: string)
    ensures UserLine(Sender(None, Some(name), None)) == Strip(UserTag + "" + " " + name)
  {
  }

  lemma HeadWithoutO(h: string)
    requires 'O' !in h
    ensures FindFrom(h + "\n", "Order ID: ", 0).None? && 'O' !in UserTag + " "
  {
    TagFacts();
    NoMatchWithoutHead(h + "\n", "Order ID: ");
  }

  lemma Regroup(h: string, t: string, s: string, p: string, x: string, r: string)
    ensures h + "\n\n" + (t + s + p + x) + r == (h + "\n") + "\n" + (t + s) + p + x + r
  {
  }

  lemma ConcatAssoc(a: string, b: string, c: string)
    ensures a + (b + c) == a + b + c
  {
  }

  /** A caption's text around its user line. */
  lemma CaptionAroundUserLine(h: string, user: string, l3: string, l4: string, l5: string)
    ensures Join([h, "", user, l3, l4, l5], '\n') == h + "\n\n" + user + ("\n" + Join([l3, l4, l5], '\n'))
  {
    var lines := [h, "", user, l3, l4, l5];
    var rest := Join([l3, l4, l5], '\n');
    assert lines[2..][0] == user && lines[2..][1..] == [l3, l4, l5];
    assert Join(lines[2..], '\n') == user + "\n" + rest;
    assert lines[1..][0] == "" && lines[1..][1..] == lines[2..];
    assert Join(lines[1..], '\n') == "" + "\n" + (user + "\n" + rest);
  }

  /** The as-written parse takes the first `Order ID: ` anywhere in the
      caption: a user whose last name is `Order ID: ` followed by some `x`
      sends a caption from which it reads `x`, while the line-based parse
      reads the session's order id. */
  lemma CaptionOrderIdHijacked(isPhoto: bool, retry: bool, x: string, tid: string, orderId: string, phone: string)
    requires x != [] && 'O' !in x && '\n' !in x && Strip(x) == x
    requires '\n' !in tid && '\n' !in orderId && '\n' !in phone && Strip(orderId) == orderId
    ensures var caption := PaymentCaption(isPhoto, retry, Sender(None, Some("Order ID: " + x), None), tid, orderId, phone);
            CaptionOrderIdAsWritten(caption) == Some(x) && CaptionOrderId(caption) == Some(orderId)
  {
    var u := Sender(None, Some("Order ID: " + x), None);
    HijackedAsWritten(isPhoto, retry, x, tid, orderId, phone);
    InjectedUserLine(x);
    CaptionOrderIdRoundTrip(isPhoto, retry, u, tid, orderId, phone);
  }

  /** The as-written half of the hijack: the parse reads the injected `x`. */
  lemma HijackedAsWritten(isPhoto: bool, retry: bool, x: string, tid: string, orderId: string, phone: string)
    requires x != [] && 'O' !in x && '\n' !in x && Strip(x) == x
    ensures var caption := PaymentCaption(isPhoto, retry, Sender(None, Some("Order ID: " + x), None), tid, orderId, phone);
            CaptionOrderIdAsWritten(caption) == Some(x)
  {
    var u := Sender(None, Some("Order ID: " + x), None);
    var h := Header(isPhoto, retry);
    var rest := "\n" + Join([UserIdTag + tid, OrderIdTag + orderId, PhoneTag + phone], '\n');
    CaptionAroundUser(isPhoto, retry, u, tid, orderId, phone);
    InjectedUserLine(x);
    Regroup(h, UserTag, " ", "Order ID: ", x, rest);
    HeadWithoutO(h);
    NoMatchWithoutHead(x, "Order ID: ");
    AsWrittenReadsAfterLine(h + "\n", UserTag + " ", x, rest);
  }

  /** A caption is its header, a blank line, the user line, then the
      remaining lines. */
  lemma CaptionAroundUser(isPhoto: bool, retry: bool, u: Sender, tid: string, orderId: string, phone: string)
    ensures PaymentCaption(isPhoto, retry, u, tid, orderId, phone)
            == Header(isPhoto, retry) + "\n\n" + UserLine(u)
               + ("\n" + Join([UserIdTag + tid, OrderIdTag + orderId, PhoneTag + phone], '\n'))
  {
    CaptionAroundUserLine(Header(isPhoto, retry), UserLine(u), UserIdTag + tid, OrderIdTag + orderId, PhoneTag + phone);
  }

  // ---------------------------------------------------------------------
  // Admin replies in the private channel

  /** What a reply asks for. */
  datatype Decision = ApproveOrder | RejectOrder(reason: string) | NoDecision

  /** `message.text.lower() if message.text else ""` */
  function ReplyText(text: Option<string>): string {
    match text
    case None => ""
    case Some(t) => Lower(t)
  }

  /** The handler goes on only for replies starting `approve` or `reject:`. */
  predicate PassesReplyGate(t: string) {
    StartsWith(t, "approve") || StartsWith(t, "reject:")
  }

  /** `text[7:].strip() or 'No reason provided'` */
  function RejectReason(rest: string): (r: string)
    ensures r != []
    ensures Strip(rest) != [] ==> r == Strip(rest)
    ensures Strip(rest) == [] ==> r == NoReason
  {
    var s := Strip(rest);
    if s == [] then NoReason else s
  }

  /** What a lower-cased reply that passed the gate decides: exactly
      `approve` approves, `reject:` rejects with the rest as reason, and
      anything else, such as `approved`, decides nothing. */
  function ReplyDecision(t: string): (r: Decision)
    ensures r == ApproveOrder <==> t == "approve"
    ensures r.RejectOrder? <==> StartsWith(t, "reject:")
    ensures r.RejectOrder? ==> r.reason == RejectReason(t[7..])
  {
    if t == "approve" then
      assert t[0] != "reject:"[0];
      ApproveOrder
    else if StartsWith(t, "reject:") then RejectOrder(RejectReason(t[7..]))
    else NoDecision
  }

  /** The reason reaches the user lower-cased, because it is cut from the
      lower-cased reply. */
  lemma RejectReasonLowerCased(text: string)
    requires ReplyDecision(Lower(text)).RejectOrder?
    requires ReplyDecision(Lower(text)).reason != NoReason
    ensures forall i :: 0 <= i < |ReplyDecision(Lower(text)).reason| ==> !IsUpper(ReplyDecision(Lower(text)).reason[i])
  {
    var t := Lower(text);
    LowerIdempotent(text);
    var rest := t[7..];
    assert forall i :: 0 <= i < |rest| ==> rest[i] == t[7 + i];
    StripNoUpper(rest);
  }

  /** Every reply that decides something passes the gate; some replies pass
      it and still decide nothing. */
  lemma ReplyGateWiderThanGrammar()
    ensures forall t :: ReplyDecision(t) != NoDecision ==> PassesReplyGate(t)
    ensures PassesReplyGate(ReplyText(Some("Approved")))
            && ReplyDecision(ReplyText(Some("Approved"))) == NoDecision
  {
    DecisionsPassGate();
    ApprovedDecidesNothing();
  }

  lemma DecisionsPassGate()
    ensures forall t :: ReplyDecision(t) != NoDecision ==> PassesReplyGate(t)
  {
  }

  lemma ApprovedDecidesNothing()
    ensures PassesReplyGate(ReplyText(Some("Approved")))
            && ReplyDecision(ReplyText(Some("Approved"))) == NoDecision
  {
    assert ReplyText(Some("Approved")) == "approved";
    assert "approved"[..7] == "approve";
  }

  // ---------------------------------------------------------------------
  // The most recent rejected order

  predicate RejectedFor(o: Order, tid: string) {
    o.telegramUserId == tid && o.status == Rejected
  }

  /** `k` is where a stable sort, newest first, puts the order it returns:
      the newest rejected order of the user, the first of them on a tie. */
  predicate MostRecentRejectedAt(orders: seq<Order>, tid: string, k: int) {
    0 <= k < |orders| && RejectedFor(orders[k], tid)
    && (forall j :: 0 <= j < |orders| && RejectedFor(orders[j], tid) ==> orders[j].createdAt <= orders[k].createdAt)
    && (forall j :: 0 <= j < k && RejectedFor(orders[j], tid) ==> orders[j].createdAt < orders[k].createdAt)
  }

  /** The choice is well defined: at most one position qualifies. */
  lemma MostRecentRejectedUnique(orders: seq<Order>, tid: string, k1: int, k2: int)
    requires MostRecentRejectedAt(orders, tid, k1) && MostRecentRejectedAt(orders, tid, k2)
    ensures k1 == k2
  {
    assert orders[k1].createdAt == orders[k2].createdAt;
  }

  /** `get_rejected_order_for_user` over the orders the query streams, in
      stream order; a failing query is None. */
  method GetRejectedOrderForUser(orders: seq<Order>, tid: string, queryFails: bool) returns (r: Option<Order>)
    ensures queryFails ==> r.None?
    ensures !queryFails ==> (r.None? <==> forall j :: 0 <= j < |orders| ==> !RejectedFor(orders[j], tid))
    ensures r.Some? ==> exists k :: MostRecentRejectedAt(orders, tid, k) && orders[k] == r.value
  {
    if queryFails {
      return None;
    }
    var best: int := -1;
    var i := 0;
    while i < |orders|
      invariant 0 <= i <= |orders|
      invariant -1 <= best < i
      invariant best == -1 <==> forall j :: 0 <= j < i ==> !RejectedFor(orders[j], tid)
      invariant best >= 0 ==> MostRecentRejectedAt(orders[..i], tid, best)
    {
      if RejectedFor(orders[i], tid) && (best == -1 || orders[best].createdAt < orders[i].createdAt) {
        best := i;
      }
      i := i + 1;
    }
    assert orders[..i] == orders;
    if best == -1 {
      r := None;
    } else {
      r := Some(orders[best]);
    }
  }
}
