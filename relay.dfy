/**
 * The relay bot: an operator posts `@username message` (or a file whose
 * caption names the user) in a private channel, and the bot forwards it to
 * that user. Modelled here are the parsing of those posts, the two caches
 * of username → id (the bot's own dictionary and the application-wide
 * `bot_data['user_cache']`), their lookup order, and the tiers that
 * resolve a name the caches do not know.
 */
module Relay {
  import opened Wrappers
  import opened Text
  import opened Chat

  // ---------------------------------------------------------------------
  // Parsing a post

  /** Groups 1 and 2 of `re.match(r'^@(\w+)\s*(.*)', text, re.DOTALL)`,
      the second one already passed through `strip()`. */
  datatype Tagged = Tagged(username: string, content: string)

  /** The standard pattern: `@`, the longest run of word characters (group
      1), then the rest of the text, stripped (the `\s*` before group 2 is
      swallowed by the strip). */
  function MatchTagged(text: string): (r: Option<Tagged>)
    ensures r.Some? <==> |text| >= 2 && text[0] == '@' && IsWordChar(text[1])
  {
    WordRunAfterAt(text);
    if |text| >= 1 && text[0] == '@' && WordRun(text[1..]) != [] then
      Some(Tagged(WordRun(text[1..]), Strip(text[|WordRun(text[1..])| + 1..])))
    else
      None
  }

  /** What the standard pattern reads as group 1: the whole run of word
      characters after the `@` (the next character, if any, is not one). */
  lemma MatchTaggedMeaning(text: string, name: string)
    requires MatchTagged(text).Some? && name == MatchTagged(text).value.username
    ensures 1 <= |name| < |text| && text[1..|name| + 1] == name
    ensures forall i :: 0 <= i < |name| ==> IsWordChar(name[i])
    ensures |name| + 1 == |text| || !IsWordChar(text[|name| + 1])
  {
    RunAfterAt(text, name);
  }

  /** The word run after a leading character, read in the whole text. */
  lemma RunAfterAt(text: string, name: string)
    requires |text| >= 1 && name == WordRun(text[1..]) && name != []
    ensures 1 <= |name| < |text| && text[1..|name| + 1] == name
    ensures forall i :: 0 <= i < |name| ==> IsWordChar(name[i])
    ensures |name| + 1 == |text| || !IsWordChar(text[|name| + 1])
  {
    assert text[1..][..|name|] == text[1..|name| + 1];
    assert |name| < |text[1..]| ==> text[1..][|name|] == text[|name| + 1];
  }

  lemma WordRunAfterAt(text: string)
    ensures |text| >= 1 ==> (WordRun(text[1..]) != [] <==> |text| >= 2 && IsWordChar(text[1]))
  {
    if |text| >= 2 {
      assert text[1..][0] == text[1];
    }
  }

  /** Leading white space makes no difference to `strip()`. */
  lemma StripSkipsSpace(c: char, s: string)
    requires IsSpace(c)
    ensures Strip([c] + s) == Strip(s)
  {
    StripLeftSkipsSpace(c, s);
    StripFollowsStripLeft([c] + s, s);
  }

  lemma StripLeftSkipsSpace(c: char, s: string)
    requires IsSpace(c)
    ensures StripLeft([c] + s) == StripLeft(s)
  {
    assert ([c] + s)[1..] == s;
  }

  lemma StripFollowsStripLeft(a: string, b: string)
    requires StripLeft(a) == StripLeft(b)
    ensures Strip(a) == Strip(b)
  {
  }

  /** What an operator types, `@name content`, is read back as that name
      and that content. */
  lemma {:induction false} TaggedRoundTrip(name: string, sep: char, content: string)
    requires name != [] && forall i :: 0 <= i < |name| ==> IsWordChar(name[i])
    requires IsSpace(sep)
    requires content == [] || (!IsSpace(content[0]) && !IsSpace(content[|content| - 1]))
    ensures MatchTagged("@" + name + [sep] + content) == Some(Tagged(name, content))
  {
    var text := "@" + name + [sep] + content;
    assert text[0] == '@' && text[1..] == name + ([sep] + content);
    MatchTaggedOf(text, name, [sep] + content);
    StripSkipsSpace(sep, content);
    StripOfTrimmed(content);
  }

  /** A text that is `@`, a run of word characters, then a rest that does
      not start with one, reads back as that run and the stripped rest. */
  lemma {:induction false} MatchTaggedOf(text: string, name: string, rest: string)
    requires name != [] && forall i :: 0 <= i < |name| ==> IsWordChar(name[i])
    requires rest == [] || !IsWordChar(rest[0])
    requires |text| >= 1 && text[0] == '@' && text[1..] == name + rest
    ensures MatchTagged(text) == Some(Tagged(name, Strip(rest)))
  {
    TaggedNameOf(text, name, rest);
    assert text[|name| + 1..] == rest by {
      assert text[|name| + 1..] == text[1..][|name|..];
    }
    TaggedContentOf(text, |name|, rest);
  }

  /** The content the standard pattern reads is the stripped text after the
      name. */
  lemma TaggedContentOf(text: string, n: nat, rest: string)
    requires MatchTagged(text).Some? && |MatchTagged(text).value.username| == n
    requires n < |text| && text[n + 1..] == rest
    ensures MatchTagged(text).value.content == Strip(rest)
  {
    var name := WordRun(text[1..]);
    assert |MatchTagged(text).value.username| == |name|;
    var c := text[|name| + 1..];
    assert MatchTagged(text).value.content == Strip(c);
  }

  /** The name the standard pattern reads there is that run. */
  lemma TaggedNameOf(text: string, name: string, rest: string)
    requires name != [] && forall i :: 0 <= i < |name| ==> IsWordChar(name[i])
    requires rest == [] || !IsWordChar(rest[0])
    requires |text| >= 1 && text[0] == '@' && text[1..] == name + rest
    ensures MatchTagged(text).Some? && MatchTagged(text).value.username == name
  {
    WordRunOfWord(name, rest);
    assert text[1] == name[0];
  }

  /** `re.search(r'@?(\w+)', text)` has a match starting at `p`: a word
      character there, or an `@` directly before one. */
  predicate SearchMatchesAt(text: string, p: int)
    requires 0 <= p < |text|
  {
    IsWordChar(text[p]) || (text[p] == '@' && p + 1 < |text| && IsWordChar(text[p + 1]))
  }

  /** Group 1 of that match when it starts at `p`. */
  function GroupAt(text: string, p: int): string
    requires 0 <= p < |text| && SearchMatchesAt(text, p)
  {
    if text[p] == '@' then WordRun(text[p + 1..]) else WordRun(text[p..])
  }

  /** The position of the first word character, if there is one. */
  function FirstWordChar(text: string): (r: Option<nat>)
    ensures r.Some? ==> r.value < |text| && IsWordChar(text[r.value])
                        && forall j :: 0 <= j < r.value ==> !IsWordChar(text[j])
    ensures r.None? ==> forall i :: 0 <= i < |text| ==> !IsWordChar(text[i])
  {
    if text == [] then None
    else if IsWordChar(text[0]) then Some(0)
    else match FirstWordChar(text[1..])
      case None => NoWordAfterHead(text); None
      case Some(q) => FirstWordAfterHead(text, q); Some(q + 1)
  }

  lemma NoWordAfterHead(text: string)
    requires text != [] && !IsWordChar(text[0])
    requires forall i :: 0 <= i < |text[1..]| ==> !IsWordChar(text[1..][i])
    ensures forall i :: 0 <= i < |text| ==> !IsWordChar(text[i])
  {
    forall i | 0 < i < |text|
      ensures !IsWordChar(text[i])
    {
      assert text[i] == text[1..][i - 1];
    }
  }

  lemma FirstWordAfterHead(text: string, q: nat)
    requires text != [] && !IsWordChar(text[0])
    requires q < |text[1..]| && IsWordChar(text[1..][q])
    requires forall j :: 0 <= j < q ==> !IsWordChar(text[1..][j])
    ensures q + 1 < |text| && IsWordChar(text[q + 1])
    ensures forall j :: 0 <= j < q + 1 ==> !IsWordChar(text[j])
  {
    assert text[q + 1] == text[1..][q];
    forall j | 0 < j < q + 1
      ensures !IsWordChar(text[j])
    {
      assert text[j] == text[1..][j - 1];
    }
  }

  /** The fallback search: the run of word characters that starts at the
      first word character of the text. */
  function SearchWord(text: string): (r: Option<string>)
    ensures r.None? <==> forall i :: 0 <= i < |text| ==> !IsWordChar(text[i])
    ensures r.Some? ==> exists q :: 0 <= q < |text| && IsWordChar(text[q])
                                    && (forall j :: 0 <= j < q ==> !IsWordChar(text[j]))
                                    && r.value == WordRun(text[q..])
  {
    match FirstWordChar(text)
    case None => None
    case Some(q) => Some(WordRun(text[q..]))
  }

  /** `SearchWord` is what the regular expression gives: no match at all
      when it is None, otherwise group 1 of the leftmost match. The
      optional `@` never changes the captured name. */
  lemma SearchWordIsLeftmostMatch(text: string, p: int)
    requires 0 <= p < |text| && SearchMatchesAt(text, p)
    requires forall j :: 0 <= j < p ==> !SearchMatchesAt(text, j)
    ensures SearchWord(text) == Some(GroupAt(text, p))
  {
    var q := if text[p] == '@' then p + 1 else p;
    assert IsWordChar(text[q]);
    forall j | 0 <= j < q
      ensures !IsWordChar(text[j])
    {
      if j < p {
        assert !SearchMatchesAt(text, j);
      }
    }
    SearchWordAt(text, q);
  }

  /** The search finds the run at the first word character. */
  lemma SearchWordAt(text: string, q: int)
    requires 0 <= q < |text| && IsWordChar(text[q])
    requires forall j :: 0 <= j < q ==> !IsWordChar(text[j])
    ensures SearchWord(text) == Some(WordRun(text[q..]))
  {
    var r := SearchWord(text);
    var k :| 0 <= k < |text| && IsWordChar(text[k])
             && (forall j :: 0 <= j < k ==> !IsWordChar(text[j]))
             && r.value == WordRun(text[k..]);
    assert k == q;
  }

  /** Nothing the search could match: no word character anywhere. */
  lemma SearchWordNone(text: string)
    ensures SearchWord(text).None? <==> forall p :: 0 <= p < |text| ==> !SearchMatchesAt(text, p)
  {
    if SearchWord(text).Some? {
      var q :| 0 <= q < |text| && IsWordChar(text[q]);
      assert SearchMatchesAt(text, q);
    }
  }

  /** Why a post is answered with a correction instead of being forwarded. */
  datatype Refusal =
    | NoText                    // a text post without text
    | NoTag                     // the text does not start with `@name`
    | NoContent(username: string) // `@name` with nothing after it
    | NoFile                    // neither a photo nor a document
    | NoUsername                // a file with neither caption nor text
    | NoWord                    // a file whose text holds no word at all

  /** A parsed post: whom to send to and what text goes with it. */
  datatype Parse = Refuse(why: Refusal) | Parsed(username: string, payload: Option<string>)

  /** The parsing part of `handle_text_message`. */
  function ParseText(text: Option<string>): (r: Parse)
    ensures r.Refuse? && r.why == NoText <==> text.None? || text.value == []
    ensures r.Parsed? ==>
              r.payload.Some? && r.payload.value != []
              && MatchTagged(text.value) == Some(Tagged(r.username, r.payload.value))
    ensures r.Refuse? && r.why.NoTag? ==> MatchTagged(text.value).None?
    ensures r.Parsed? <==>
              text.Some? && MatchTagged(text.value).Some? && MatchTagged(text.value).value.content != []
    ensures r == Refuse(NoTag) <==> text.Some? && text.value != [] && MatchTagged(text.value).None?
    ensures r.Refuse? && r.why.NoContent? <==>
              text.Some? && MatchTagged(text.value).Some? && MatchTagged(text.value).value.content == []
    ensures r.Refuse? && r.why.NoContent? ==> r.why.username == MatchTagged(text.value).value.username
  {
    if text.None? || text.value == [] then Refuse(NoText)
    else match MatchTagged(text.value)
      case None => Refuse(NoTag)
      case Some(t) => if t.content == [] then Refuse(NoContent(t.username)) else Parsed(t.username, Some(t.content))
  }

  /** The parsing part of `handle_file_upload`, after the check for an
      attachment: the caption if there is one, else the text. */
  function ParseFile(caption: Option<string>, text: Option<string>): (r: Parse)
    ensures r.Refuse? ==> r.why == NoUsername || r.why == NoWord
    ensures r.Parsed? ==> r.username != [] && forall i :: 0 <= i < |r.username| ==> IsWordChar(r.username[i])
    ensures r.Parsed? && r.payload.Some? ==> r.payload.value != []
    ensures r == Refuse(NoUsername) <==>
              (caption.None? || caption.value == []) && (text.None? || text.value == [])
    ensures caption.Some? && caption.value != [] ==> r == ParseFileText(caption.value)
    ensures (caption.None? || caption.value == []) && text.Some? ==> r == ParseFileText(text.value)
  {
    if caption.Some? && caption.value != [] then ParseFileText(caption.value)
    else if text.None? then Refuse(NoUsername)
    else ParseFileText(text.value)
  }

  /** The text a file comes with, read as `handle_file_upload` reads it: the
      standard pattern first, with an empty remainder sent as no caption;
      otherwise the first word anywhere, with no caption. */
  function ParseFileText(body: string): (r: Parse)
    ensures r.Refuse? ==> r.why == NoUsername || r.why == NoWord
    ensures r.Parsed? ==> r.username != [] && forall i :: 0 <= i < |r.username| ==> IsWordChar(r.username[i])
    ensures r.Parsed? && r.payload.Some? ==> r.payload.value != []
    ensures r == Refuse(NoUsername) <==> body == []
    ensures MatchTagged(body).Some? ==>
              r.Parsed? && r.username == MatchTagged(body).value.username
              && (r.payload.None? <==> MatchTagged(body).value.content == [])
              && (r.payload.Some? ==> r.payload.value == MatchTagged(body).value.content)
    ensures body != [] && MatchTagged(body).None? ==>
              (r == Refuse(NoWord) <==> SearchWord(body).None?)
              && (SearchWord(body).Some? ==> r == Parsed(SearchWord(body).value, None))
  {
    if body == [] then Refuse(NoUsername)
    else match MatchTagged(body)
      case Some(t) => Parsed(t.username, if t.content == [] then None else Some(t.content))
      case None =>
        match SearchWord(body)
        case None => Refuse(NoWord)
        case Some(w) => Parsed(w, None)
  }

  /** A text post that could be forwarded as a message is read the same
      way when it comes as the caption of a file. */
  lemma TextAndCaptionAgree(text: string)
    requires ParseText(Some(text)).Parsed?
    ensures ParseFile(Some(text), None) == ParseText(Some(text))
  {
    var t := MatchTagged(text).value;
    assert ParseText(Some(text)) == Parsed(t.username, Some(t.content));
    assert t.content != [] && Some(text).value == text;
    assert ParseFile(Some(text), None) == Parsed(t.username, Some(t.content));
  }

  /** A post `@name content` is forwarded to `name` with `content`. */
  lemma TextRoundTrip(name: string, sep: char, content: string)
    requires name != [] && forall i :: 0 <= i < |name| ==> IsWordChar(name[i])
    requires IsSpace(sep)
    requires content != [] && !IsSpace(content[0]) && !IsSpace(content[|content| - 1])
    ensures ParseText(Some("@" + name + [sep] + content)) == Parsed(name, Some(content))
  {
    TaggedRoundTrip(name, sep, content);
  }

  /** A file whose caption does not start with `@name` goes to whatever
      word comes first, `@` or not, and carries no caption. */
  lemma FileFallback(caption: string, p: int)
    requires caption != [] && MatchTagged(caption).None?
    requires 0 <= p < |caption| && SearchMatchesAt(caption, p)
    requires forall j :: 0 <= j < p ==> !SearchMatchesAt(caption, j)
    ensures ParseFile(Some(caption), None) == Parsed(GroupAt(caption, p), None)
  {
    SearchWordIsLeftmostMatch(caption, p);
  }

  // ---------------------------------------------------------------------
  // The channel guard

  function Digit(d: nat): (c: char)
    requires d < 10
    ensures '0' <= c <= '9'
  {
    ('0' as int + d) as char
  }

  /** The decimal digits of a natural number. */
  function Digits(n: nat): (r: string)
    ensures r != [] && forall i :: 0 <= i < |r| ==> '0' <= r[i] <= '9'
    decreases n
  {
    if n < 10 then [Digit(n)] else Digits(n / 10) + [Digit(n % 10)]
  }

  /** `str(n)` for an integer. */
  function Decimal(n: int): (r: string)
    ensures r != [] && (n < 0 <==> r[0] == '-')
    ensures forall i :: 1 <= i < |r| ==> '0' <= r[i] <= '9'
  {
    if n < 0 then "-" + Digits(-n) else Digits(n)
  }

  /** `str(self.private_channel_id)`: the configured text, or `"None"`
      before `register_handlers` has read it. No chat id prints as that. */
  function ChannelText(channel: Option<string>): (r: string)
    ensures channel.None? ==> forall n :: Decimal(n) != r
  {
    if channel.Some? then channel.value else "None"
  }

  /** `str(message.chat_id) == str(self.private_channel_id)` */
  predicate FromChannel(chatId: int, channel: Option<string>) {
    Decimal(chatId) == ChannelText(channel)
  }

  /** Until a channel is configured, every post is ignored. */
  lemma NoChannelNoPosts(chatId: int)
    ensures !FromChannel(chatId, None)
  {
    assert Decimal(chatId) != ChannelText(None);
  }

  // ---------------------------------------------------------------------
  // The two caches

  /** The bot's own `user_cache` and `bot_data['user_cache']`, which does
      not exist until the first write. */
  datatype Caches = Caches(shared: Option<map<string, int>>, local: map<string, int>)

  /** `_update_caches` with a key that is already clean. */
  function Write(c: Caches, key: string, id: int): (r: Caches)
    ensures r.shared.Some? && r.shared.value.Keys == (if c.shared.Some? then c.shared.value.Keys else {}) + {key}
    ensures r.local.Keys == c.local.Keys + {key}
  {
    var shared := if c.shared.Some? then c.shared.value else map[];
    Caches(Some(shared[key := id]), c.local[key := id])
  }

  /** The lookup order of `_resolve_with_retry`: `bot_data` first, then the
      bot's own dictionary. */
  function Hit(c: Caches, key: string): (r: Option<int>)
    ensures r.None? <==> (c.shared.None? || key !in c.shared.value) && key !in c.local
    ensures c.shared.Some? && key in c.shared.value ==> r == Some(c.shared.value[key])
    ensures (c.shared.None? || key !in c.shared.value) && key in c.local ==> r == Some(c.local[key])
  {
    if c.shared.Some? && key in c.shared.value then Some(c.shared.value[key])
    else if key in c.local then Some(c.local[key])
    else None
  }

  /** A written name is found with the id written, and no other name's
      lookup changes. */
  lemma HitAfterWrite(c: Caches, key: string, id: int, other: string)
    ensures Hit(Write(c, key, id), key) == Some(id)
    ensures other != key ==> Hit(Write(c, key, id), other) == Hit(c, other)
  {
  }

  /** Every entry of the bot's own dictionary is also in `bot_data`: both
      are only ever written together. */
  predicate Mirrored(c: Caches) {
    forall k :: k in c.local ==> c.shared.Some? && k in c.shared.value && c.shared.value[k] == c.local[k]
  }

  /** Writing keeps the two caches in step, and while they are in step the
      local dictionary never answers a lookup that `bot_data` missed. */
  lemma MirroredLookup(c: Caches, key: string, id: int)
    requires Mirrored(c)
    ensures Mirrored(Write(c, key, id))
    ensures Hit(c, key) == (if c.shared.Some? && key in c.shared.value then Some(c.shared.value[key]) else None)
  {
  }

  // ---------------------------------------------------------------------
  // Resolving a name the caches do not know

  /** A Telegram user as the updates carry one. */
  datatype User = User(id: int, username: Option<string>)

  /** What the two Telegram calls give: `get_chat` (None when it times out
      or answers BadRequest) and `get_chat_administrators` (None when it
      raises). */
  datatype Tiers = Tiers(chat: Option<ChatInfo>, admins: Option<seq<User>>)

  /** The administrator test: the admin's lower-cased username is compared
      with the name written with a leading `@`. */
  predicate AdminTagged(a: User, key: string) {
    a.username.Some? && a.username.value != [] && Lower(a.username.value) == Lower("@" + key)
  }

  /** The first administrator the test accepts. */
  function FirstTaggedAdmin(admins: seq<User>, key: string): (r: Option<int>)
    ensures r.None? <==> forall k :: 0 <= k < |admins| ==> !AdminTagged(admins[k], key)
    ensures r.Some? ==> exists k :: 0 <= k < |admins| && AdminTagged(admins[k], key) && admins[k].id == r.value
                                    && forall j :: 0 <= j < k ==> !AdminTagged(admins[j], key)
  {
    if admins == [] then None
    else if AdminTagged(admins[0], key) then
      assert AdminTagged(admins[0], key) && admins[0].id == admins[0].id;
      Some(admins[0].id)
    else
      var r := FirstTaggedAdmin(admins[1..], key);
      if r.Some? then
        var k :| 0 <= k < |admins[1..]| && AdminTagged(admins[1..][k], key) && admins[1..][k].id == r.value
                 && forall j :: 0 <= j < k ==> !AdminTagged(admins[1..][j], key);
        assert admins[k + 1] == admins[1..][k];
        assert forall j :: 0 <= j < k + 1 ==> !AdminTagged(admins[j], key) by {
          forall j | 0 <= j < k + 1 ensures !AdminTagged(admins[j], key) {
            if j > 0 {
              assert admins[j] == admins[1..][j - 1];
            }
          }
        }
        r
      else
        assert forall k :: 0 <= k < |admins| ==> !AdminTagged(admins[k], key) by {
          forall k | 0 <= k < |admins| ensures !AdminTagged(admins[k], key) {
            if k > 0 {
              assert admins[k] == admins[1..][k - 1];
            }
          }
        }
        r
  }

  /** The administrator loop. */
  method FindTaggedAdmin(admins: seq<User>, key: string) returns (r: Option<int>)
    ensures r == FirstTaggedAdmin(admins, key)
  {
    var i := 0;
    while i < |admins|
      invariant 0 <= i <= |admins|
      invariant FirstTaggedAdmin(admins, key) == FirstTaggedAdmin(admins[i..], key)
    {
      assert admins[i..][0] == admins[i] && admins[i..][1..] == admins[i + 1..];
      if AdminTagged(admins[i], key) {
        return Some(admins[i].id);
      }
      i := i + 1;
    }
    assert admins[i..] == [];
    return None;
  }

  /** A Telegram username holds no `@`, so the administrator test never
      accepts one: the leading `@` of the compared name has no match. */
  lemma AdminTestRejectsUsernames(a: User, key: string)
    requires a.username.Some? ==> '@' !in a.username.value
    ensures !AdminTagged(a, key)
  {
    if a.username.Some? && a.username.value != [] {
      var name := a.username.value;
      assert name[0] in name;
      assert Lower(name)[0] == LowerChar(name[0]) != '@';
      assert Lower("@" + key)[0] == '@';
    }
  }

  /** Hence with real usernames the administrator tier resolves nobody. */
  lemma {:induction false} AdminTierResolvesNobody(admins: seq<User>, key: string)
    requires forall k :: 0 <= k < |admins| && admins[k].username.Some? ==> '@' !in admins[k].username.value
    ensures FirstTaggedAdmin(admins, key).None?
  {
    forall k | 0 <= k < |admins| ensures !AdminTagged(admins[k], key) {
      AdminTestRejectsUsernames(admins[k], key);
    }
  }

  /** `if self.private_channel_id:` */
  predicate Configured(channel: Option<string>) {
    channel.Some? && channel.value != []
  }

  /** What the tiers give after both caches missed: a private chat's id,
      else (when a channel is configured) the first administrator the test
      accepts, else nothing. */
  function FromTiers(channel: Option<string>, key: string, t: Tiers): (r: Option<int>)
    ensures t.chat.Some? && t.chat.value.isPrivate ==> r == Some(t.chat.value.id)
    ensures !Configured(channel) && !(t.chat.Some? && t.chat.value.isPrivate) ==> r.None?
    ensures r.Some? && !(t.chat.Some? && t.chat.value.isPrivate) ==>
              t.admins.Some? && exists k :: 0 <= k < |t.admins.value| && AdminTagged(t.admins.value[k], key)
                                            && t.admins.value[k].id == r.value
  {
    if t.chat.Some? && t.chat.value.isPrivate then Some(t.chat.value.id)
    else if Configured(channel) && t.admins.Some? then FirstTaggedAdmin(t.admins.value, key)
    else None
  }

  /** `_resolve_with_retry`: a cache hit, else the tiers. */
  function Resolved(c: Caches, channel: Option<string>, key: string, t: Tiers): Option<int> {
    var hit := Hit(c, key);
    if hit.Some? then hit else FromTiers(channel, key, t)
  }

  /** The caches after `_resolve_with_retry`: a tier's answer is written,
      a cache hit or a failure writes nothing. */
  function CachesAfter(c: Caches, channel: Option<string>, key: string, t: Tiers): Caches {
    var found := FromTiers(channel, key, t);
    if Hit(c, key).None? && found.Some? then Write(c, key, found.value) else c
  }

  /** Once a name has been resolved, asking again gives the same id from
      the cache, whatever the tiers would now answer. */
  lemma ResolvedIsRemembered(c: Caches, channel: Option<string>, key: string, t: Tiers, later: Tiers)
    requires Resolved(c, channel, key, t).Some?
    ensures Resolved(CachesAfter(c, channel, key, t), channel, key, later) == Resolved(c, channel, key, t)
  {
    if Hit(c, key).None? {
      HitAfterWrite(c, key, FromTiers(channel, key, t).value, key);
    }
  }

  /** `if user_id:` in `resolve_username_to_id`: a missing id and the id 0
      both end in the ValueError. */
  function Accepted(id: Option<int>): (r: Option<int>)
    ensures r.Some? <==> id.Some? && id.value != 0
    ensures r.Some? ==> r == id
  {
    if id.Some? && id.value != 0 then id else None
  }

  /** The cache key is clean already: cleaning it again changes nothing. */
  lemma CleanIdempotent(s: string)
    ensures Clean(Clean(s)) == Clean(s)
  {
    var c := Clean(s);
    assert '@' !in c by {
      forall i | 0 <= i < |c| ensures c[i] != '@' {
        assert RemoveChar(s, '@')[i] != '@';
      }
    }
    LowerIdempotent(RemoveChar(s, '@'));
  }

  /** Lower-casing before removing `@` is the same as after. */
  lemma {:induction false} LowerRemoveCommute(s: string)
    ensures RemoveChar(Lower(s), '@') == Lower(RemoveChar(s, '@'))
  {
    if s != [] {
      var x, t := s[0], s[1..];
      LowerRemoveCommute(t);
      assert s == [x] + t;
      LowerCons(x, t);
      RemoveCons(LowerChar(x), Lower(t), '@');
      RemoveCons(x, t, '@');
      LowerAppend(if x == '@' then [] else [x], RemoveChar(t, '@'));
      assert (LowerChar(x) == '@') == (x == '@');
    }
  }

  /** Lower-casing works character by character from the front. */
  lemma LowerCons(x: char, t: string)
    ensures Lower([x] + t) == [LowerChar(x)] + Lower(t)
  {
  }

  /** Removing `c` works character by character from the front. */
  lemma RemoveCons(x: char, t: string, c: char)
    ensures RemoveChar([x] + t, c) == (if x == c then [] else [x]) + RemoveChar(t, c)
  {
    assert ([x] + t)[0] == x && ([x] + t)[1..] == t;
  }

  lemma LowerAppend(a: string, b: string)
    ensures Lower(a + b) == Lower(a) + Lower(b)
  {
  }

  /** `cache_user_info` lower-cases the name before `_update_caches` cleans
      it; the key is the one a lookup of the same name uses. */
  lemma CachedUnderLookupKey(username: string)
    ensures Clean(Lower(username)) == Clean(username)
  {
    LowerRemoveCommute(username);
    LowerIdempotent(RemoveChar(username, '@'));
  }

  // ---------------------------------------------------------------------
  // The bot

  /** What became of a post in the channel. */
  datatype Kind = Message | Photo | Document
  datatype Relayed =
    | Ignored                               // not from the private channel
    | Refused(why: Refusal)                 // answered with a correction
    | Unresolved(username: string)          // the ValueError reply
    | Failed(username: string)              // the send raised (blocked, or another error)
    | Sent(target: int, kind: Kind, payload: Option<string>)

  /** The last step of both handlers: resolve, then send. */
  function Deliver(username: string, id: Option<int>, kind: Kind, payload: Option<string>, sendOk: bool): (r: Relayed)
    ensures r.Sent? <==> id.Some? && sendOk
    ensures r.Sent? ==> r.target == id.value && r.kind == kind && r.payload == payload
    ensures r.Unresolved? <==> id.None?
  {
    if id.None? then Unresolved(username)
    else if sendOk then Sent(id.value, kind, payload)
    else Failed(username)
  }

  class TestBot {
    var userCache: map<string, int>
    /** `context.bot_data['user_cache']`, held by the application. */
    var botCache: Option<map<string, int>>
    var privateChannelId: Option<string>

    function State(): Caches
      reads this
    {
      Caches(botCache, userCache)
    }

    ghost predicate Valid()
      reads this
    {
      Mirrored(State())
    }

    /** `__init__` followed by `register_handlers`, which reads the channel
        id from the environment; `bot_data` may already hold a cache. */
    constructor(channel: Option<string>, shared: Option<map<string, int>>)
      ensures userCache == map[] && botCache == shared && privateChannelId == channel
      ensures Valid()
    {
      userCache := map[];
      botCache := shared;
      privateChannelId := channel;
    }

    /** `_update_caches` */
    method UpdateCaches(username: string, id: int)
      modifies this
      ensures old(Valid()) ==> Valid()
      ensures State() == Write(old(State()), Clean(username), id)
      ensures privateChannelId == old(privateChannelId)
    {
      var key := Clean(username);
      if Valid() {
        MirroredLookup(State(), key, id);
      }
      userCache := userCache[key := id];
      if botCache.None? {
        botCache := Some(map[]);
      }
      botCache := Some(botCache.value[key := id]);
    }

    /** `cache_user_info`: a private message from a user with a username
        stores that user under the name. */
    method CacheUserInfo(user: Option<User>)
      modifies this
      ensures old(Valid()) ==> Valid()
      ensures user.Some? && user.value.username.Some? && user.value.username.value != [] ==>
                State() == Write(old(State()), Clean(user.value.username.value), user.value.id)
      ensures !(user.Some? && user.value.username.Some? && user.value.username.value != []) ==>
                State() == old(State())
      ensures privateChannelId == old(privateChannelId)
    {
      if user.None? || user.value.username.None? || user.value.username.value == [] {
        return;
      }
      var name := user.value.username.value;
      CachedUnderLookupKey(name);
      UpdateCaches(Lower(name), user.value.id);
    }

    /** `_resolve_with_retry` */
    method ResolveWithRetry(username: string, tiers: Tiers) returns (r: Option<int>)
      modifies this
      ensures old(Valid()) ==> Valid()
      ensures r == Resolved(old(State()), privateChannelId, Clean(username), tiers)
      ensures State() == CachesAfter(old(State()), privateChannelId, Clean(username), tiers)
      ensures privateChannelId == old(privateChannelId)
    {
      var key := Clean(username);
      CleanIdempotent(username);
      if botCache.Some? && key in botCache.value {
        return Some(botCache.value[key]);
      }
      if key in userCache {
        return Some(userCache[key]);
      }
      if tiers.chat.Some? && tiers.chat.value.isPrivate {
        UpdateCaches(key, tiers.chat.value.id);
        return Some(tiers.chat.value.id);
      }
      if Configured(privateChannelId) && tiers.admins.Some? {
        r := FindTaggedAdmin(tiers.admins.value, key);
        if r.Some? {
          UpdateCaches(key, r.value);
        }
        return r;
      }
      return None;
    }

    /** `resolve_username_to_id`: None stands for the ValueError. */
    method ResolveUsernameToId(username: string, tiers: Tiers) returns (r: Option<int>)
      modifies this
      ensures old(Valid()) ==> Valid()
      ensures r == Accepted(Resolved(old(State()), privateChannelId, Clean(username), tiers))
      ensures State() == CachesAfter(old(State()), privateChannelId, Clean(username), tiers)
      ensures privateChannelId == old(privateChannelId)
    {
      var key := Clean(username);
      CleanIdempotent(username);
      var id := ResolveWithRetry(key, tiers);
      r := Accepted(id);
    }

    /** `handle_text_message`, for a post whose text is `text`; `sendOk`
        says whether `send_message` succeeds. */
    method HandleTextMessage(chatId: int, text: Option<string>, tiers: Tiers, sendOk: bool) returns (out: Relayed)
      modifies this
      ensures old(Valid()) ==> Valid()
      ensures privateChannelId == old(privateChannelId)
      ensures !FromChannel(chatId, privateChannelId) ==> out == Ignored && State() == old(State())
      ensures FromChannel(chatId, privateChannelId) && ParseText(text).Refuse? ==>
                out == Refused(ParseText(text).why) && State() == old(State())
      ensures FromChannel(chatId, privateChannelId) && ParseText(text).Parsed? ==>
                var p := ParseText(text);
                out == Deliver(p.username, Accepted(Resolved(old(State()), privateChannelId, Clean(p.username), tiers)),
                               Message, p.payload, sendOk)
                && State() == CachesAfter(old(State()), privateChannelId, Clean(p.username), tiers)
    {
      if !FromChannel(chatId, privateChannelId) {
        return Ignored;
      }
      var p := ParseText(text);
      if p.Refuse? {
        return Refused(p.why);
      }
      var id := ResolveUsernameToId(p.username, tiers);
      out := Deliver(p.username, id, Message, p.payload, sendOk);
    }

    /** `handle_file_upload`: a photo is sent as a photo even when a
        document comes with it. */
    method HandleFileUpload(chatId: int, hasPhoto: bool, hasDocument: bool, caption: Option<string>,
                            text: Option<string>, tiers: Tiers, sendOk: bool) returns (out: Relayed)
      modifies this
      ensures old(Valid()) ==> Valid()
      ensures privateChannelId == old(privateChannelId)
      ensures !FromChannel(chatId, privateChannelId) ==> out == Ignored && State() == old(State())
      ensures FromChannel(chatId, privateChannelId) && !hasPhoto && !hasDocument ==>
                out == Refused(NoFile) && State() == old(State())
      ensures FromChannel(chatId, privateChannelId) && (hasPhoto || hasDocument) && ParseFile(caption, text).Refuse? ==>
                out == Refused(ParseFile(caption, text).why) && State() == old(State())
      ensures FromChannel(chatId, privateChannelId) && (hasPhoto || hasDocument) && ParseFile(caption, text).Parsed? ==>
                var p := ParseFile(caption, text);
                out == Deliver(p.username, Accepted(Resolved(old(State()), privateChannelId, Clean(p.username), tiers)),
                               if hasPhoto then Photo else Document, p.payload, sendOk)
                && State() == CachesAfter(old(State()), privateChannelId, Clean(p.username), tiers)
    {
      if !FromChannel(chatId, privateChannelId) {
        return Ignored;
      }
      if !hasPhoto && !hasDocument {
        return Refused(NoFile);
      }
      var p := ParseFile(caption, text);
      if p.Refuse? {
        return Refused(p.why);
      }
      var id := ResolveUsernameToId(p.username, tiers);
      out := Deliver(p.username, id, if hasPhoto then Photo else Document, p.payload, sendOk);
    }
  }
}
