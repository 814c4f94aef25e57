# cvmaker: the CV wizard, the payment notifications and the relay bot

cvmaker is a pair of Telegram bots.

**`CVBot` (bot.py)** collects a CV from a candidate through a conversation
of fifteen states:
- language;
- personal, contact and profile-image questions;
- six repeated sections (work, education, skills, certifications,
  projects, languages) plus a career objective and an "other" activity;
- a summary with edit buttons.

After the CV, it takes a payment screenshot and forwards it to a private
channel. There an administrator approves or rejects it, with a button or
by replying to the caption. The user is told the verdict by that handler
or by a background poll. The `notified` flag in the session is meant to
keep the user from being told twice.

**`TestBot` (test_bot.py)** relays posts of the form `@username message`,
and files captioned with a username, from the private channel to the named
user. It resolves the name through two caches and two Telegram lookups.

This project models both. Each model keeps its source's own form.
- **Pure step functions.** Every conversation callback is a function of
  (session, input) to (session, next state), in module `Wizard` and
  friends.
- **Classes.** `CVBot` and `TestBot` are classes whose methods update
  their dictionaries in place.
- **Loops.** The loops of the source are methods with invariants, each
  proved against a specification function:
  - the subcollection filter;
  - the administrator search;
  - the poll pass;
  - the rejected-order search.

Telegram, Firestore and the environment are parameters: stored records as
snapshots, success flags for sends and edits, optional results for lookups.

Modules:
- `Wrappers`: `Option`.
- `Text`: the Python `str` operations used, on `seq<char>`.
- `Chat`: what both bots share, the `get_chat` answer and the cleaned
  username used as a cache key.
- `Upload`: the size, MIME type and extension checks.
- `Wizard`: the session and every collector, choice and edit handler.
- `Orders`: the order record, the button tokens, the payment caption and
  its order-id parse, the admin reply grammar, and the most recent
  rejected order.
- `Notify`: the `notified` gate and the poll pass.
- `Payment`: the screenshot handler and `/payment`.
- `Routing`: which handler the framework gives an update.
- `Bot`: the `CVBot` class.
- `Relay`: `TestBot`.

## Model

| member | source | states |
|---|---|---|
| Text.Strip | bot.py:1811 | `strip()`: the result has no white space at either end and is a contiguous piece of the input with only white space around it |
| Text.StripEmptyIffBlank | bot.py:1811 | stripping gives the empty text exactly when the text is all white space (the `or 'No reason provided'` fallback) |
| Text.SplitMax | bot.py:1563 | `split(c, n)` gives between 1 and n+1 pieces and no piece but the last contains `c` |
| Text.SplitMaxOfJoin | bot.py:1563 | splitting a join of pieces free of `c` gives the pieces back |
| Text.JoinOfSplitMax | bot.py:1563 | joining the pieces of a split gives the text back |
| Text.SplitMaxCount | bot.py:1563 | the number of pieces is one more than the number of separators, capped at n |
| Text.FindFrom | bot.py:1784 | the first occurrence of a pattern at or after a position, or None when there is none |
| Text.SplitAll | bot.py:1784 | `split('\n')` gives at least one piece and no piece contains the separator |
| Text.SplitAllOfJoin | bot.py:1470 | splitting the joined caption lines gives back the lines |
| Text.WordRun | test_bot.py:283 | the longest prefix of word characters, followed by the end or a non-word character |
| Text.RemoveChar | test_bot.py:164 | `replace('@', '')`: the result has no `@`, every other character occurs in it as often as in the input, and an input without `@` comes back unchanged |
| Text.RemoveCharAppend | test_bot.py:164 | the removal works piece by piece, so the characters that stay keep their order |
| Upload.Extension | bot.py:755-756 | `file_name.split('.')[-1].lower()` is the lower-cased dot-free suffix that follows the last dot, or the whole name when it has none |
| Upload.Check | bot.py:714-759 | accepted exactly when size ≤ 5 MiB, the MIME type is jpeg/png/pdf and a present file name ends in jpg/jpeg/png/pdf; too large and missing size are the refusals named |
| Upload.AcceptedPassesFilter | bot.py:204-208 | every accepted upload passes the message filter that routes it to the handler |
| Upload.ExtensionIgnoresCase | bot.py:756 | a file name's extension is judged the same in any letter case |
| Wizard.NewSession | bot.py:342-364 | a new session has language `en`, no chat, no field, empty lists and drafts, and `availability` set |
| Wizard.Reset | bot.py:1336-1360 | the rebuilt session keeps only language and chat id, is otherwise blank, and asks for the first name |
| Wizard.Fill | bot.py:887 | writes one answer under the field's key and nothing else; `skip` stores None for optional fields and leaves `projectLink` absent (also bot.py:897, bot.py:1060-1061) |
| Wizard.HandleStart | bot.py:370-384 | records the chat and asks for the language |
| Wizard.HandleSelectLanguage | bot.py:386-413 | stores the text between the first and second `_` as the language and moves to START; data without `_` raises and keeps the state |
| Wizard.LanguageButtonStoresCode | bot.py:380-395 | the button `lang_<code>` stores exactly `<code>` |
| Wizard.HandleReturningUserChoice | bot.py:415-474 | `new_cv` asks for the first name in COLLECT_PERSONAL_INFO; any other button stays in START |
| Wizard.Owned | bot.py:606-620 | the filter keeps a subsequence of items, each saved under the candidate's uid |
| Wizard.OwnedExactly | bot.py:606-620 | an item survives the filter exactly when it is in the list and carries the uid |
| Wizard.OwnedIdempotent | bot.py:606-620 | filtering twice is filtering once |
| Wizard.OwnedAppend | bot.py:606-620 | the filter distributes over concatenation |
| Wizard.WithAvailability | bot.py:588 | `availability` is set when missing and nothing else changes |
| Wizard.HandleStartCollectingInfo | bot.py:571-632 | `update_profile` loads the stored profile (or keeps the session when there is none) and stays in START; any other data asks for the first name |
| Wizard.LoadProfile | bot.py:584-627 | the stored data replaces `candidate_data` and every list is the filtered subcollection; language, chat, order, drafts, field, `notified` and `from_main_flow` are kept |
| Wizard.AnswerScalar | bot.py:650-706 | one personal/contact answer is stored under its key (`skip` as None for LinkedIn), the next field is asked, nothing else changes |
| Wizard.HandlePersonalInfo | bot.py:650-672 | the last name moves to COLLECT_CONTACT_INFO; otherwise the state stays |
| Wizard.HandleContactInfo | bot.py:674-706 | the country moves to COLLECT_PROFILE_IMAGE; otherwise the state stays |
| Wizard.HandleProfileImage | bot.py:708-788 | only an acceptable, forwarded upload writes `profileImageUrl`; every outcome stays in COLLECT_PROFILE_IMAGE |
| Wizard.EnterSection | bot.py:799-801 | opening a section asks its first field with an empty draft, lists untouched |
| Wizard.HandleProfileImageChoice | bot.py:790-803 | `continue_professional` opens the work section; anything else stays |
| Wizard.CollectField | bot.py:836-847 | the section's last field appends a copy of the draft (earlier items unchanged, one longer) and resets the draft; other fields fill the draft and ask the next field |
| Wizard.SectionAnswer | bot.py:805-1116 | a section's text handler works on its own field and otherwise changes nothing but the chat |
| Wizard.HandleProfessionalInfo | bot.py:813-819 | `skip` as the first job title empties the work list and jumps to the education section |
| Wizard.HandleCertifications | bot.py:994-1003 | `skip` as the certificate name changes nothing and offers add-another/continue |
| Wizard.HandleCareerObjective | bot.py:970-985 | one summary is appended unless skipped, then the certifications section opens with an empty draft; the chat is recorded and the rest of the session header is kept |
| Wizard.HandleActivities | bot.py:1135-1146 | one "Other" activity is appended unless skipped, then CONFIRM_ORDER; the chat is recorded, and the drafts, the field and the rest of the session header are kept |
| Wizard.SectionChoice | bot.py:849-1133 | add-another re-asks the first field in the same state; `continue_education`, `continue_projects` and `continue_languages` open the next section at its first field with an empty draft; `continue_skills` empties `skills` alone and goes to the career objective with drafts and field kept; `continue_career` and `continue_activities` change only the chat; other data changes only the chat |
| Wizard.FinishThenAddAnother | bot.py:836-861 | completing an item and pressing add-another appends exactly that draft, leaves a fresh draft at the first field and keeps the state |
| Wizard.Tag | bot.py:1262-1300 | every saved item is the session's item with `candidate_uid` set |
| Wizard.OwnedOfTagged | bot.py:1262-1300 | what `confirm_yes` saves, `update_profile` loads back in full (also bot.py:606-620) |
| Wizard.TagAll | bot.py:1262-1300 | every list is tagged; nothing else changes |
| Wizard.HandleConfirmOrder | bot.py:1203-1360 | `confirm_yes` tags the lists, sets the new order id, clears `notified` and marks the main flow, moving to PAYMENT, and keeps `candidate_data`, language, drafts and field; `edit_no` resets; other data stays |
| Wizard.ParseEditData | bot.py:1362-1452 | recognises exactly the summary's edit buttons |
| Wizard.HandleEditInfo | bot.py:1362-1452 | `edit_no` resets; personal, contact and image jump to their state and field; unknown data stays in CONFIRM_ORDER |
| Wizard.EditSectionClearsOnlyIt | bot.py:1410-1452 | a section's edit button empties that list and no other, and enters its state |
| Wizard.EditSectionFrame | bot.py:1410-1452 | it touches nothing outside the lists, the drafts and the field |
| Wizard.EditSingleSectionKeepsDrafts | bot.py:1427-1452 | the career-objective and activities buttons keep every draft and `current_field` (also bot.py:1427-1430) |
| Wizard.EditSectionRestartsDraft | bot.py:1410-1452 | a repeated section re-entered asks its first field; its draft is emptied, except work experience, whose draft is kept; other drafts are untouched |
| Orders.SubmitScreenshot | bot.py:1544-1545 | the order waits for verification with the screenshot URL and the fixed status text; id, owner and time kept |
| Orders.Approve | bot.py:1579 | only the status changes, to verified (also bot.py:1801) |
| Orders.Reject | bot.py:1599 | the status becomes rejected with the reason as details (also bot.py:1812) |
| Orders.ParseToken | bot.py:1563 | `split('_', 2)` fails exactly when there are fewer than two `_`; otherwise the first two parts hold no `_` and rebuild the data |
| Orders.ParseButtonToken | bot.py:1482-1483 | a button the bot made parses back to its action, user id and order id when the id has no `_` (also bot.py:1563) |
| Orders.UserLine | bot.py:1466-1468 | the user line starts with its tag and holds no newline when the names hold none |
| Orders.Header | bot.py:1502 | both headers start with `💳 Payment` and hold no newline (also bot.py:1529) |
| Orders.SplitCaption | bot.py:1466-1502 | the caption splits back into its six lines when nothing the user controls holds a newline |
| Orders.CaptionHasPrefix | bot.py:1502 | every payment caption passes the reply handler's caption test (also bot.py:1529, bot.py:1779) |
| Orders.CaptionOrderIdAsWritten | bot.py:1784 | the as-written parse fails exactly when `Order ID: ` is absent and never yields a newline |
| Orders.FirstTagged | bot.py:1784 | the first line starting with the tag, stripped after the tag; None exactly when no line does |
| Orders.FirstTaggedIsFirst | bot.py:1784 | when line i is the first to start with the tag, the result is that line's stripped rest |
| Orders.CaptionOrderIdRoundTrip | bot.py:1470 | the corrected parse reads back the order id the caption was built with (also bot.py:1784) |
| Orders.AsWrittenReadsAfterLine | bot.py:1784 | the as-written parse reads the text after the first `Order ID: ` up to the line break, when the lines before it hold none |
| Orders.CaptionOrderIdHijacked | bot.py:1784 | a last name `Order ID: X` makes the as-written parse read X, not the real order id (also bot.py:1466) |
| Orders.RejectReason | bot.py:1811 | the stripped rest, or `No reason provided` when that is empty; never empty |
| Orders.ReplyDecision | bot.py:1800-1811 | approve exactly on `approve`; reject exactly on a `reject:` prefix, with the reason from the eighth character on |
| Orders.RejectReasonLowerCased | bot.py:1768 | a typed reason reaches the user lower-cased (also bot.py:1811) |
| Orders.ReplyGateWiderThanGrammar | bot.py:1769 | every deciding reply passes the gate, and `Approved` passes it yet decides nothing (also bot.py:1800) |
| Orders.MostRecentRejectedUnique | bot.py:1729-1748 | at most one position is the most recent rejected order |
| Orders.GetRejectedOrderForUser | bot.py:1711-1756 | a failed query gives None; otherwise None exactly when the user has no rejected order, else the most recent one (first among equal times) |
| Notify.OrNoReason | bot.py:271 | the details when present and non-empty; `No reason provided` when they are missing or empty; never empty |
| Notify.StatusMessage | bot.py:263-275 | a message only for verified or rejected orders, with the rejection reason |
| Notify.NotifyOnce | bot.py:1803-1820 | a notified session sends nothing; otherwise it sends exactly when the send succeeds and only then sets the flag (also bot.py:263-277) |
| Notify.NotifyByButton | bot.py:1577-1615 | the button sends whatever the flag says and sets it only when both the send and the caption edit succeed |
| Notify.VisitSession | bot.py:255-277 | a session gets its message exactly when it is due, not yet notified and reachable; it is then marked notified |
| Notify.VisitAborts | bot.py:254-279 | a visit raises exactly when the order cannot be read or the owed message cannot be sent |
| Notify.Poll | bot.py:254-279 | a pass changes nothing but `notified` flags |
| Notify.PollSetsOnlyDue | bot.py:263-277 | a flag a pass sets belongs to a due session that got its message |
| Notify.PollSendsOwed | bot.py:263-277 | every message sent is the one owed to a due, unnotified session |
| Notify.PollSendsOnce | bot.py:263-277 | no session gets two messages in one pass |
| Notify.PollComplete | bot.py:254-279 | a pass that does not raise leaves every due session notified |
| Notify.PollAbortStops | bot.py:254-279 | one failure ends the pass and leaves that session and all later ones untouched |
| Notify.PollAgainSendsNothing | bot.py:254-279 | a second pass over the same store sends nothing |
| Notify.NothingOwed | bot.py:263 | with every due session notified a pass sends nothing |
| Notify.Replay | bot.py:263-277 | replaying events keeps the chat (also bot.py:1312-1313, bot.py:1693-1694, bot.py:1577-1615, bot.py:1803-1820) |
| Notify.GuardedPathsNotifyOncePerOrder | bot.py:263-277 | without buttons a session is told at most once per order (also bot.py:1312-1313, bot.py:1693-1694, bot.py:1803-1820) |
| Notify.ButtonRepeats | bot.py:1577-1615 | a button after a reply, or a poll after a button whose edit failed, tells the user a second time |
| Payment.Reloaded | bot.py:1472-1476 | the stored profile replaces the data only when the phone number is missing |
| Payment.PhoneText | bot.py:1478 | `N/A` for a missing key, `None` for Python's None (as `str()` prints it), the text otherwise |
| Payment.HandlePaymentScreenshot | bot.py:1454-1555 | the chat is recorded; the upload is forwarded exactly when there is an order id, the checks accept it and the forward succeeds; END and the updated order exactly when the order exists |
| Payment.RefusedUploadTouchesNothing | bot.py:1460-1519 | a refused upload forwards nothing, touches no order and stays in PAYMENT |
| Payment.ForwardedButtonsParse | bot.py:1482-1483 | the buttons of a forward parse back to the user and the order (also bot.py:1563) |
| Payment.ForwardedCaptionNamesOrder | bot.py:1470 | the caption of a forward passes the reply test and names its order (also bot.py:1784) |
| Payment.HandlePaymentCommand | bot.py:1655-1709 | without a rejected order, END; otherwise the order id is set, `notified` and the main-flow mark are cleared and PAYMENT follows |
| Payment.RetryCaptionOnlyAfterCommand | bot.py:1497 | after `/payment` an upload is captioned as a retry; after `confirm_yes` it is not (also bot.py:1693-1695, bot.py:1327) |
| Routing.Dispatch | bot.py:229-235 | the CV conversation first, then `/payment`'s; otherwise Help exactly for `/help`, Dropped exactly for another button press, CacheUser exactly for any other message |
| Routing.Perform | bot.py:142-236 | every callback but `/cancel` leaves a session; `/cancel` deletes it and ends; only a text in START keeps the state by raising (also bot.py:1829-1850) |
| Routing.NextConv | bot.py:142-236 | END leaves the conversation; a returned non-END state becomes the state; a callback without a state keeps the current one; never stores END |
| Routing.OnlyStartEnters | bot.py:144-145 | outside the conversation only `/start` enters it |
| Routing.CancelSwallowedByProfileImage | bot.py:163-167 | `/cancel` reaches `cancel` in every state except COLLECT_PROFILE_IMAGE, whose text handler takes it (also bot.py:211) |
| Routing.StartDoesNotRestart | bot.py:144-213 | inside the conversation `/start` restarts nothing |
| Routing.SectionButtonsRoute | bot.py:170-196 | each section's two buttons reach its choice handler |
| Routing.NewCvGoesToStartCollecting | bot.py:151-155 | `new_cv` in START reaches `start_collecting_info` |
| Routing.EditButtonsReachEditInfo | bot.py:200-203 | every summary edit button, `edit_no` included, reaches `edit_info` |
| Routing.PaymentUploadsRoute | bot.py:204-209 | in PAYMENT an upload reaches the handler exactly when the filter admits it; every accepted upload does |
| Bot.Without | bot.py:1829-1850 | the insertion order without a deleted user: the same users less that one, still distinct |
| Bot.WithoutAppend | bot.py:1829-1850 | removing a user from two stretches of the order is removing it from each, so the others keep their order |
| Bot.FilterOwned | bot.py:606-620 | the inner filter loop builds exactly `Owned(items, uid)` |
| Bot.FilterProfile | bot.py:600-627 | the outer loop replaces every subcollection by its filtered list |
| Bot.LoadedProfile | bot.py:584-627 | the session the loops build is `LoadProfile` |
| Bot.FindAdmin | bot.py:318-326 | the first administrator with the name, or None exactly when there is none |
| Bot.CacheKeyIsCleanName | bot.py:282-293 | `cache_user_info` stores under the key `resolve_username_to_id` looks up, `@` or not, in any case |
| Bot.ButtonEffect | bot.py:1557-1624 | an order is saved exactly for a found order and chat with approve/reject; sent exactly when saved and sent; `notified` set only when send and edit succeed |
| Bot.ReplyEffect | bot.py:1790-1823 | saved exactly with a chat and a decision; sent exactly when saved, not yet notified and sent; the flag follows the send |
| Bot.ReplyNotRepeatedByPoll | bot.py:1803-1820 | after a reply told the user, the poll does not tell them again (also bot.py:263) |
| Bot.ButtonEditFailureRepeats | bot.py:1577-1615 | a button whose edit fails sends the message and leaves the poll owing it again (also bot.py:263-277) |
| Bot.CVBot.constructor | bot.py:117-136 | no sessions, conversations or cache |
| Bot.CVBot.GetUserSession | bot.py:342-364 | returns the stored session or stores and returns a new one, appended to the insertion order |
| Bot.CVBot.StartCollectingInfo | bot.py:571-632 | the user's session becomes `HandleStartCollectingInfo` of it |
| Bot.CollectingStep | bot.py:571-632 | the body, loops included, computes `HandleStartCollectingInfo` of the fetched session |
| Bot.CVBot.Store | bot.py:1829-1850 | `/cancel` deletes the session and drops the user from the insertion order; any other result overwrites the session; the sessions stay exactly the users in the insertion order |
| Bot.CVBot.DropSession | bot.py:1847-1848 | the session is gone and the user leaves the insertion order; the other users keep their sessions and order |
| Bot.CVBot.RunCallback | bot.py:142-236 | a callback works on the user's session and its result is written back (deleted by `/cancel`); the insertion order gains a new user and loses a deleted one (also bot.py:1829-1850) |
| Bot.CVBot.CacheUserInfo | bot.py:282-288 | a sender with a username is cached under the lower-cased name |
| Bot.CVBot.HandlePrivate | bot.py:142-236 | the update goes to the handler `Dispatch` picks; conversation state moves as `NextConv` says; the insertion order changes only as the session map does; nothing else changes (also bot.py:1852-1866) |
| Bot.CVBot.ResolveUsernameToId | bot.py:290-340 | a cache hit returns without any lookup; else a private chat, else the first matching administrator, else the member lookup; a success is cached |
| Bot.CVBot.HandleAdminResponse | bot.py:1557-1624 | bad data changes nothing; otherwise the owner's session, the saved order and the message are `ButtonEffect`'s |
| Bot.CVBot.HandleAdminReply | bot.py:1758-1823 | a reply outside the channel or without an order changes nothing; otherwise the effect is `ReplyEffect`'s on the order read, as written, from the first `Order ID: ` in the caption |
| Bot.ReplyOrdersAgree | bot.py:1776-1791 | on a caption the bot built whose lines before the order id hold no `Order ID: `, the as-written and by-line reads both find the session's order |
| Bot.ReplyOrderHijacked | bot.py:1784 | a sender whose last name is `Order ID: X` makes the reply act on order X, where the by-line read acts on their own order (also bot.py:1466) |
| Orders.CaptionOrderIdAgree | bot.py:1784 | on such a caption the as-written parse and the line-based parse both read the session's order id (also bot.py:1470) |
| Bot.CVBot.PollTick | bot.py:251-279 | one tick updates the sessions and sends exactly what `Poll` says |
| Bot.PollSessions | bot.py:254-279 | the loop computes `Poll` over the sessions in insertion order, stopping at the first failure |
| Relay.MatchTagged | test_bot.py:273-284 | `^@(\w+)\s*(.*)` matches exactly when `@` and a word character start the text |
| Relay.MatchTaggedMeaning | test_bot.py:273-284 | group 1 of a match is the whole run of word characters after `@`: the character after it, if any, is not a word character |
| Relay.TaggedContentOf | test_bot.py:273-284 | the content of a match is the text after the name with white space stripped |
| Relay.TaggedRoundTrip | test_bot.py:273-284 | `@name content` reads back as that name and that content |
| Relay.SearchWord | test_bot.py:340 | None exactly when there is no word character; otherwise the run starting at the first one |
| Relay.SearchWordIsLeftmostMatch | test_bot.py:340-346 | that run is group 1 of the leftmost match of `@?(\w+)` |
| Relay.SearchWordNone | test_bot.py:340-344 | no match anywhere exactly when the search gives None |
| Relay.ParseText | test_bot.py:267-286 | refused for no text exactly when the text is missing or empty, for no tag exactly when it does not match `^@(\w+)`, for no content (naming the user) exactly when the stripped rest is empty, and forwarded with the match's name and content exactly otherwise |
| Relay.ParseFile | test_bot.py:334-338 | the caption is read when it is non-empty, else the text; refused for no username exactly when both are missing or empty; the username is a word and a caption sent along is never empty |
| Relay.ParseFileText | test_bot.py:340-352 | a standard match gives group 1, with no caption exactly when the stripped rest is empty; otherwise the first `@?(\w+)` word with no caption, and refused for no word exactly when there is none |
| Relay.TextAndCaptionAgree | test_bot.py:273-286 | a text post that would be forwarded is read the same as a file caption (also test_bot.py:333-353) |
| Relay.TextRoundTrip | test_bot.py:273-286 | `@name content` is forwarded to `name` with `content` |
| Relay.FileFallback | test_bot.py:338-346 | a caption without a leading `@name` goes to the leftmost match's word, without caption |
| Relay.Decimal | test_bot.py:261 | `str(int)`: a leading `-` exactly for negatives, digits after |
| Relay.ChannelText | test_bot.py:261 | `str(None)` matches no chat id |
| Relay.NoChannelNoPosts | test_bot.py:261-263 | before a channel is configured every post is ignored (also test_bot.py:321-323) |
| Relay.Write | test_bot.py:241-248 | both caches gain the key; `bot_data`'s cache exists afterwards |
| Relay.Hit | test_bot.py:170-180 | `bot_data`'s entry when it holds the key; otherwise the local cache's entry; None exactly when neither holds it |
| Relay.HitAfterWrite | test_bot.py:241-248 | a written name is found with its id and no other lookup changes (also test_bot.py:170-180) |
| Relay.MirroredLookup | test_bot.py:241-248 | writing keeps the caches in step, and in step the local cache never answers a `bot_data` miss (also test_bot.py:170-180) |
| Relay.FirstTaggedAdmin | test_bot.py:204-212 | the first administrator the test accepts; None exactly when none does |
| Relay.FindTaggedAdmin | test_bot.py:204-212 | the administrator loop computes `FirstTaggedAdmin` |
| Relay.AdminTestRejectsUsernames | test_bot.py:207 | an administrator whose username has no `@` never passes the `@`-prefixed comparison |
| Relay.AdminTierResolvesNobody | test_bot.py:201-214 | with real usernames the administrator tier resolves nobody |
| Relay.FromTiers | test_bot.py:182-216 | a private chat wins; without a configured channel nothing else is tried; an administrator result is an accepted administrator's id |
| Relay.ResolvedIsRemembered | test_bot.py:170-199 | once resolved, a name resolves again to the same id from the cache, whatever the lookups would say (also test_bot.py:241-248) |
| Relay.Accepted | test_bot.py:225-239 | a missing id and the id 0 both end in the ValueError |
| Relay.CleanIdempotent | test_bot.py:164 | cleaning an already clean name changes nothing (also test_bot.py:220, test_bot.py:243) |
| Relay.CachedUnderLookupKey | test_bot.py:157-159 | lower-casing before cleaning gives the key a lookup uses (also test_bot.py:243) |
| Relay.Deliver | test_bot.py:288-308 | sent exactly when resolved and the send succeeds, to that id with the payload (also test_bot.py:355-401) |
| Relay.TestBot.constructor | test_bot.py:26-30 | empty local cache, the configured channel and the application's cache (also test_bot.py:36-37) |
| Relay.TestBot.UpdateCaches | test_bot.py:241-248 | both caches get the clean name, `bot_data`'s created when missing; the caches stay in step |
| Relay.TestBot.CacheUserInfo | test_bot.py:147-160 | a user with a username is written under the clean name; otherwise nothing changes |
| Relay.TestBot.ResolveWithRetry | test_bot.py:162-216 | the result is `Resolved` and the caches are written only when a lookup answered |
| Relay.TestBot.ResolveUsernameToId | test_bot.py:218-239 | the resolved id when non-zero, else the error; caches as above |
| Relay.TestBot.HandleTextMessage | test_bot.py:250-308 | posts from other chats are ignored; refused posts change nothing; a parsed post goes to the resolved user |
| Relay.TestBot.HandleFileUpload | test_bot.py:310-401 | the same for files, with the photo preferred over the document and the caption as parsed |

## Left out

- Telegram I/O (keyboards, prompts, message edits and deletions, `send_tutorial_video`, `send_sample_cvs`, `log_file_id`) and the translations module: sends and edits are success flags, prompts are not modelled.
- The summary text (bot.py:1148-1185) is presentation and is not modelled.
- Firestore: stored candidates and orders are snapshots given as parameters. The saves and deletions in `confirm_order`, and `approve_payment`/`reject_payment`/`update_status` beyond the fields they set, are not modelled.
- Concurrency: the `while True` poll loop, its sleep, and races between the poller and the admin handlers. One tick is modelled, sequentially.
- Dates: `get_order_time` works on integer timestamps. The ISO and Firestore parsing, and the document-creation fallback, are not modelled.
- The 3-second `asyncio.wait_for` timeout in test_bot.py is folded into "no answer" from `get_chat`.
- Exceptions other than those the handlers catch by name are not modelled. In test_bot.py that is a `get_chat` error other than a timeout or BadRequest.
- Startup: Firebase and environment setup, `run()` retries, the Flask liveness route, and test_bot.py's `register_handlers` validation. The channel id is a constructor parameter.
- `payment_retry_command`, `/teststart`, `/register`, `debug_all_messages` and `ignore_non_reply_messages` are outside the modelled core.
- Text: `\w`, `lower()` and `isspace` are modelled on ASCII letters and digits and on Python's white-space set. Unicode letters and case folding are not modelled.
- Conversations are keyed by the user id. The source keys them by (chat, user), which is the same pair in a private chat.
- Routing.Perform: states the framework-level facts about a callback; each handler's own contract is in `Wizard`, `Payment` and `Bot`.
- The integer codes of the conversation states (bot.py:98-114): states are a datatype, and no code is compared or stored.
- Bot.CVBot.HandleAdminReply: reads the order id as bot.py:1784 does, so that it models the handler as written. The line-based read the finding below argues for is `Bot.ReplyOrderByLine`, and the handler does not use it.
- Bot.ReplyOrdersAgree: assumes the numeric user id holds no `O`. Telegram ids are digits.
- Commands are texts that start with `/`. python-telegram-bot's `CommandHandler` and `filters.COMMAND` look for a `bot_command` entity at offset 0, which Telegram sets for `/` followed by a command name; message entities are not modelled.
- Relay.TestBot.HandleFileUpload: sends whether a photo or a document goes out, not the file id. The file id is I/O.

## Findings

| source | as written | input that shows it | evidently intended | confidence | as-written member | corrected member |
|---|---|---|---|---|---|---|
| bot.py:1784 | `caption.split('Order ID: ')[1].split('\n')[0].strip()` takes the first `Order ID: ` anywhere in the caption, including the user line built from the sender's names (bot.py:1466) | a sender whose last name is `Order ID: X`: an admin reply approves or rejects order X instead of the sender's order | read the id from the caption's `📋 Order ID:` line | not executed | Bot.ReplyOrderHijacked | Orders.CaptionOrderIdRoundTrip |
