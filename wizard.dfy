/**
 * The CV wizard of bot.py: the conversation states, the per-user session
 * record and one step function per conversation callback. Each step takes the
 * session and the update's payload and returns the new session and the state
 * the conversation moves to (`End` for `ConversationHandler.END`; a callback
 * that returns nothing leaves the conversation in the state it was in).
 */
module Wizard {
  import opened Wrappers
  import opened Text
  import opened Upload

  /** The fifteen states of `range(15)` and the framework's END. */
  datatype State =
    | SelectLanguage | Start | CollectPersonalInfo | CollectContactInfo
    | CollectProfileImage | CollectProfessionalInfo | CollectEducation
    | CollectSkills | CollectCareerObjective | CollectCertifications
    | CollectProjects | CollectLanguages | CollectActivities | ConfirmOrder
    | Payment | End

  /** A dict value: Python `None` or a text. */
  datatype Value = Null | Str(s: string)

  /** A Python dict of the session (candidate data, one list entry, a draft). */
  type Item = map<string, Value>

  /** The tags `current_field` takes. */
  datatype Field =
    | FirstName | MiddleName | LastName
    | PhoneNumber | EmailAddress | LinkedinProfile | City | Country
    | WorkJobTitle | WorkCompanyName | WorkLocation | WorkDescription
    | EduDegreeName | EduInstitutionName | EduGpa | EduDescription | EduAchievementsHonors
    | SkillName | SkillProficiency
    | CertCertificateName | CertIssuer
    | ProjectTitle | ProjectDescription | ProjectLink
    | LangLanguageName | LangProficiencyLevel

  /** The six repeated sections that fill a draft item field by field. */
  datatype Kind = Work | Edu | Skill | Cert | Project | Lang

  /** The eight list-valued parts of the CV. */
  datatype Section =
    | WorkExperiences | Education | Skills | CareerObjectives
    | CertificationsAwards | Projects | Languages | OtherActivities

  /** The dict key each field's answer is stored under. */
  function KeyOf(f: Field): string {
    match f
    case FirstName => "firstName"
    case MiddleName => "middleName"
    case LastName => "lastName"
    case PhoneNumber => "phoneNumber"
    case EmailAddress => "emailAddress"
    case LinkedinProfile => "linkedinProfile"
    case City => "city"
    case Country => "country"
    case WorkJobTitle => "jobTitle"
    case WorkCompanyName => "companyName"
    case WorkLocation => "location"
    case WorkDescription => "description"
    case EduDegreeName => "degreeName"
    case EduInstitutionName => "institutionName"
    case EduGpa => "gpa"
    case EduDescription => "description"
    case EduAchievementsHonors => "achievementsHonors"
    case SkillName => "skillName"
    case SkillProficiency => "proficiency"
    case CertCertificateName => "certificateName"
    case CertIssuer => "issuer"
    case ProjectTitle => "projectTitle"
    case ProjectDescription => "description"
    case ProjectLink => "projectLink"
    case LangLanguageName => "languageName"
    case LangProficiencyLevel => "proficiencyLevel"
  }

  /** The repeated section a field belongs to; None for the personal and
      contact fields, which go straight into `candidate_data`. */
  function KindOf(f: Field): Option<Kind> {
    match f
    case WorkJobTitle | WorkCompanyName | WorkLocation | WorkDescription => Some(Work)
    case EduDegreeName | EduInstitutionName | EduGpa | EduDescription | EduAchievementsHonors => Some(Edu)
    case SkillName | SkillProficiency => Some(Skill)
    case CertCertificateName | CertIssuer => Some(Cert)
    case ProjectTitle | ProjectDescription | ProjectLink => Some(Project)
    case LangLanguageName | LangProficiencyLevel => Some(Lang)
    case _ => None
  }

  /** The field asked after `f`; None after a section's last field and after
      `country`. */
  function NextField(f: Field): Option<Field> {
    match f
    case FirstName => Some(MiddleName)
    case MiddleName => Some(LastName)
    case LastName => Some(PhoneNumber)
    case PhoneNumber => Some(EmailAddress)
    case EmailAddress => Some(LinkedinProfile)
    case LinkedinProfile => Some(City)
    case City => Some(Country)
    case Country => None
    case WorkJobTitle => Some(WorkCompanyName)
    case WorkCompanyName => Some(WorkLocation)
    case WorkLocation => Some(WorkDescription)
    case WorkDescription => None
    case EduDegreeName => Some(EduInstitutionName)
    case EduInstitutionName => Some(EduGpa)
    case EduGpa => Some(EduDescription)
    case EduDescription => Some(EduAchievementsHonors)
    case EduAchievementsHonors => None
    case SkillName => Some(SkillProficiency)
    case SkillProficiency => None
    case CertCertificateName => Some(CertIssuer)
    case CertIssuer => None
    case ProjectTitle => Some(ProjectDescription)
    case ProjectDescription => Some(ProjectLink)
    case ProjectLink => None
    case LangLanguageName => Some(LangProficiencyLevel)
    case LangProficiencyLevel => None
  }

  /** The fields of a repeated section in the order they are asked. */
  function FieldsOf(k: Kind): seq<Field> {
    match k
    case Work => [WorkJobTitle, WorkCompanyName, WorkLocation, WorkDescription]
    case Edu => [EduDegreeName, EduInstitutionName, EduGpa, EduDescription, EduAchievementsHonors]
    case Skill => [SkillName, SkillProficiency]
    case Cert => [CertCertificateName, CertIssuer]
    case Project => [ProjectTitle, ProjectDescription, ProjectLink]
    case Lang => [LangLanguageName, LangProficiencyLevel]
  }

  function FirstField(k: Kind): Field {
    FieldsOf(k)[0]
  }

  /** The field tables agree: walking `NextField` from a section's first field
      visits exactly its fields, in order, under distinct keys, and stops. */
  lemma FieldTablesAgree(k: Kind)
    ensures |FieldsOf(k)| >= 2
    ensures forall i :: 0 <= i < |FieldsOf(k)| ==> KindOf(FieldsOf(k)[i]) == Some(k)
    ensures forall i :: 0 <= i < |FieldsOf(k)| - 1 ==> NextField(FieldsOf(k)[i]) == Some(FieldsOf(k)[i + 1])
    ensures NextField(FieldsOf(k)[|FieldsOf(k)| - 1]).None?
  {
    match k
    case Work =>
    case Edu =>
    case Skill =>
    case Cert =>
    case Project =>
    case Lang =>
  }

  /** Every field of a repeated section is listed in its table. */
  lemma FieldListed(f: Field)
    requires KindOf(f).Some?
    ensures f in FieldsOf(KindOf(f).value)
  {
  }

  /** A field inside a section is followed by a field of the same section. */
  lemma NextFieldSameKind(f: Field)
    requires KindOf(f).Some? && NextField(f).Some?
    ensures KindOf(NextField(f).value) == KindOf(f)
  {
  }

  function SectionOf(k: Kind): Section {
    match k
    case Work => WorkExperiences
    case Edu => Education
    case Skill => Skills
    case Cert => CertificationsAwards
    case Project => Projects
    case Lang => Languages
  }

  /** The conversation state that collects a repeated section. */
  function StateOf(k: Kind): State {
    match k
    case Work => CollectProfessionalInfo
    case Edu => CollectEducation
    case Skill => CollectSkills
    case Cert => CollectCertifications
    case Project => CollectProjects
    case Lang => CollectLanguages
  }

  /** The eight lists of a session, keyed by section. Every session the bot
      builds holds all eight keys; a key that is absent reads as empty. */
  type Lists = map<Section, seq<Item>>

  /** The six draft items (`current_work_experience`, `current_education`,
      ...), keyed by repeated section; an absent key reads as empty. */
  type Drafts = map<Kind, Item>

  const NoLists: Lists := map[WorkExperiences := [], Education := [], Skills := [], CareerObjectives := [],
                              CertificationsAwards := [], Projects := [], Languages := [], OtherActivities := []]
  const NoDrafts: Drafts := map[Work := map[], Edu := map[], Skill := map[], Cert := map[], Project := map[], Lang := map[]]

  /** The eight sections, for building a full `Lists` map. */
  const AllSections: set<Section> := {WorkExperiences, Education, Skills, CareerObjectives,
                                      CertificationsAwards, Projects, Languages, OtherActivities}

  lemma SectionsAreAll()
    ensures forall sec :: sec in AllSections
  {
    forall sec ensures sec in AllSections {
      match sec
      case WorkExperiences =>
      case Education =>
      case Skills =>
      case CareerObjectives =>
      case CertificationsAwards =>
      case Projects =>
      case Languages =>
      case OtherActivities =>
    }
  }

  /** The per-user session dict. The eight list keys (`workExperiences`,
      `education`, ...) are `lists`, the six `current_*` drafts are `drafts`.
      Keys the source adds later (`chat_id`, `order_id`, `notified`,
      `from_main_flow`) read as absent, None or False until written. */
  datatype Session = Session(
    language: string,
    chatId: Option<int>,
    candidateData: Item,
    lists: Lists,
    currentField: Option<Field>,
    drafts: Drafts,
    orderId: Option<string>,
    notified: bool,
    fromMainFlow: bool)

  const Availability: string := "To be specified"

  /** `candidate_data` of a fresh session. */
  const FreshData: Item := map["availability" := Str(Availability)]

  function ListOf(s: Session, sec: Section): seq<Item> {
    if sec in s.lists then s.lists[sec] else []
  }

  function DraftOf(s: Session, k: Kind): Item {
    if k in s.drafts then s.drafts[k] else map[]
  }

  /** Everything but the eight lists, the six drafts and `current_field`. */
  predicate SameHeader(a: Session, b: Session) {
    a.language == b.language && a.chatId == b.chatId && a.candidateData == b.candidateData
    && a.orderId == b.orderId && a.notified == b.notified && a.fromMainFlow == b.fromMainFlow
  }

  predicate ListsAgreeExcept(a: Session, b: Session, sec: Section) {
    forall o: Section :: o != sec ==> ListOf(a, o) == ListOf(b, o)
  }

  predicate DraftsAgree(a: Session, b: Session) {
    forall k: Kind :: DraftOf(a, k) == DraftOf(b, k)
  }

  predicate DraftsAgreeExcept(a: Session, b: Session, k: Kind) {
    forall o: Kind :: o != k ==> DraftOf(a, o) == DraftOf(b, o)
  }

  function WithList(s: Session, sec: Section, l: seq<Item>): (r: Session)
    ensures ListOf(r, sec) == l && ListsAgreeExcept(s, r, sec)
    ensures SameHeader(s, r) && DraftsAgree(s, r) && r.currentField == s.currentField
  {
    s.(lists := s.lists[sec := l])
  }

  function WithDraft(s: Session, k: Kind, d: Item): (r: Session)
    ensures DraftOf(r, k) == d && DraftsAgreeExcept(s, r, k)
    ensures SameHeader(s, r) && r.lists == s.lists && r.currentField == s.currentField
  {
    s.(drafts := s.drafts[k := d])
  }

  /** A session with no CV content: every list and draft empty and
      `candidate_data` holding only the default availability. */
  predicate Blank(s: Session) {
    s.candidateData == FreshData
    && (forall sec :: ListOf(s, sec) == [])
    && (forall k :: DraftOf(s, k) == map[])
    && s.orderId.None? && !s.notified && !s.fromMainFlow
  }

  /** `get_user_session` on a user with no session yet. */
  function NewSession(): (s: Session)
    ensures Blank(s) && s.language == "en" && s.chatId.None? && s.currentField.None?
  {
    Session("en", None, FreshData, NoLists, None, NoDrafts, None, false, false)
  }

  /** The session `edit_no` installs: blank, asking for the first name, and
      keeping only the language and the chat. */
  function Reset(s: Session): (r: Session)
    ensures Blank(r) && r.language == s.language && r.chatId == s.chatId
    ensures r.currentField == Some(FirstName)
  {
    NewSession().(language := s.language, chatId := s.chatId, currentField := Some(FirstName))
  }

  /** How an answer of "skip" is stored: as given, as None, or not at all. */
  datatype SkipRule = AsGiven | SkipToNull | SkipToAbsent

  function RuleOf(f: Field): SkipRule {
    match f
    case LinkedinProfile | EduGpa | EduAchievementsHonors => SkipToNull
    case ProjectLink => SkipToAbsent
    case _ => AsGiven
  }

  /** Writes one answer into a dict under the field's key. */
  function Fill(d: Item, f: Field, text: string): (r: Item)
    ensures forall key :: key != KeyOf(f) ==> (key in r <==> key in d) && (key in d ==> r[key] == d[key])
    ensures RuleOf(f) == SkipToAbsent && IsSkip(text) ==> r == d
    ensures !(RuleOf(f) == SkipToAbsent && IsSkip(text)) ==>
              KeyOf(f) in r && r[KeyOf(f)] == (if RuleOf(f) == SkipToNull && IsSkip(text) then Null else Str(text))
  {
    match RuleOf(f)
    case AsGiven => d[KeyOf(f) := Str(text)]
    case SkipToNull => d[KeyOf(f) := if IsSkip(text) then Null else Str(text)]
    case SkipToAbsent => if IsSkip(text) then d else d[KeyOf(f) := Str(text)]
  }

  /** The result of one conversation callback. */
  datatype Step = Step(session: Session, next: State)

  /** `start`: (re)enter the conversation and ask for the language. */
  function HandleStart(s: Session, chat: int): (r: Step)
    ensures r.next == SelectLanguage
    ensures r.session == s.(chatId := Some(chat))
  {
    Step(s.(chatId := Some(chat)), SelectLanguage)
  }

  /** `select_language`: the language code is the text between the first and
      second `_` of the button data; a button without `_` raises and the
      conversation stays put. */
  function HandleSelectLanguage(s: Session, chat: int, data: string): (r: Step)
    ensures '_' !in data ==> r.next == SelectLanguage && r.session == s.(chatId := Some(chat))
    ensures '_' in data ==> (r.next == Start && '_' !in r.session.language
                             && r.session == s.(chatId := Some(chat), language := r.session.language))
  {
    var s1 := s.(chatId := Some(chat));
    match SecondPiece(data, '_')
    case None => Step(s1, SelectLanguage)
    case Some(lang) => Step(s1.(language := lang), Start)
  }

  /** The language buttons `lang_<code>` store exactly `<code>` when the code
      holds no `_` (the keyboard offers `lang_en` and `lang_am`). */
  lemma LanguageButtonStoresCode(s: Session, chat: int, code: string)
    requires '_' !in code
    ensures var r := HandleSelectLanguage(s, chat, "lang_" + code);
            r.next == Start && r.session.language == code
  {
    var data := "lang_" + code;
    assert data == "lang" + ['_'] + code;
    IndexOfPrefix("lang", '_', code);
    assert data[5..] == code;
  }

  /** `handle_returning_user_choice`: `new_cv` starts the personal questions;
      the guide video and the samples keep the menu open. */
  function HandleReturningUserChoice(s: Session, chat: int, data: string): (r: Step)
    ensures data == "new_cv" ==> r == Step(s.(chatId := Some(chat), currentField := Some(FirstName)), CollectPersonalInfo)
    ensures data != "new_cv" ==> r == Step(s.(chatId := Some(chat)), Start)
  {
    var s1 := s.(chatId := Some(chat));
    if data == "new_cv" then Step(s1.(currentField := Some(FirstName)), CollectPersonalInfo)
    else Step(s1, Start)
  }

  /** A stored candidate: its uid, its profile fields and the eight
      subcollections `get_complete_profile` returns. */
  datatype Candidate = Candidate(uid: string, data: Item, collections: map<Section, seq<Item>>)

  /** The item was saved under `uid` (a missing, None or empty
      `candidate_uid` never matches). */
  predicate BelongsTo(item: Item, uid: string) {
    "candidate_uid" in item && item["candidate_uid"] == Str(uid) && uid != ""
  }

  /** The items of a subcollection that belong to the candidate, in order. */
  function Owned(items: seq<Item>, uid: string): (r: seq<Item>)
    ensures |r| <= |items|
    ensures forall x :: x in r ==> x in items && BelongsTo(x, uid)
  {
    if items == [] then []
    else (if BelongsTo(items[0], uid) then [items[0]] else []) + Owned(items[1..], uid)
  }

  /** Filtering keeps exactly the candidate's items. */
  lemma {:induction false} OwnedExactly(items: seq<Item>, uid: string, x: Item)
    ensures x in Owned(items, uid) <==> x in items && BelongsTo(x, uid)
    decreases |items|
  {
    if items != [] {
      OwnedExactly(items[1..], uid, x);
      assert x in items <==> x == items[0] || x in items[1..];
    }
  }

  /** Filtering an already filtered list changes nothing. */
  lemma {:induction false} OwnedIdempotent(items: seq<Item>, uid: string)
    ensures Owned(Owned(items, uid), uid) == Owned(items, uid)
    decreases |items|
  {
    if items != [] {
      OwnedIdempotent(items[1..], uid);
      var head := if BelongsTo(items[0], uid) then [items[0]] else [];
      OwnedAppend(head, Owned(items[1..], uid), uid);
      if BelongsTo(items[0], uid) {
        assert Owned(head, uid) == head by {
          assert head[1..] == [];
        }
      }
    }
  }

  lemma {:induction false} OwnedAppend(a: seq<Item>, b: seq<Item>, uid: string)
    ensures Owned(a + b, uid) == Owned(a, uid) + Owned(b, uid)
    decreases |a|
  {
    if a == [] {
      assert a + b == b;
    } else {
      assert (a + b)[0] == a[0];
      assert (a + b)[1..] == a[1..] + b;
      OwnedAppend(a[1..], b, uid);
    }
  }

  /** `candidate_data` with `availability` defaulted when missing. */
  function WithAvailability(d: Item): (r: Item)
    ensures "availability" in r
    ensures forall key :: key != "availability" ==> (key in r <==> key in d) && (key in d ==> r[key] == d[key])
    ensures "availability" in d ==> r == d
  {
    if "availability" in d then d else d["availability" := Str(Availability)]
  }

  function CollectionOf(c: Candidate, sec: Section): seq<Item> {
    if sec in c.collections then c.collections[sec] else []
  }

  /** `start_collecting_info`: `update_profile` loads the stored candidate
      (and stays in the menu), anything else starts a new CV. Without a
      stored candidate `update_profile` only returns to the menu. */
  function HandleStartCollectingInfo(s: Session, chat: int, data: string, stored: Option<Candidate>): (r: Step)
    ensures data == "update_profile" ==> r.next == Start && r.session.currentField == s.currentField
    ensures data == "update_profile" && stored.None? ==> r.session == s.(chatId := Some(chat))
    ensures data == "update_profile" && stored.Some? ==>
              r.session == LoadProfile(s.(chatId := Some(chat)), stored.value)
    ensures data != "update_profile" ==>
              r == Step(s.(chatId := Some(chat), currentField := Some(FirstName)), CollectPersonalInfo)
  {
    var s1 := s.(chatId := Some(chat));
    if data == "update_profile" then
      match stored
      case None => Step(s1, Start)
      case Some(c) => Step(LoadProfile(s1, c), Start)
    else Step(s1.(currentField := Some(FirstName)), CollectPersonalInfo)
  }

  /** The stored profile replaces `candidate_data` and the eight lists; the
      drafts, `current_field` and the order keys are kept. */
  function LoadProfile(s: Session, c: Candidate): (r: Session)
    ensures r.candidateData == WithAvailability(c.data)
    ensures forall sec :: ListOf(r, sec) == Owned(CollectionOf(c, sec), c.uid)
    ensures r.language == s.language && r.chatId == s.chatId && r.orderId == s.orderId
    ensures r.drafts == s.drafts && r.currentField == s.currentField
    ensures r.notified == s.notified && r.fromMainFlow == s.fromMainFlow
  {
    var lists: Lists := map sec | sec in AllSections :: Owned(CollectionOf(c, sec), c.uid);
    SectionsAreAll();
    s.(candidateData := WithAvailability(c.data), lists := lists)
  }

  predicate PersonalField(f: Field) {
    f == FirstName || f == MiddleName || f == LastName
  }

  predicate ContactField(f: Field) {
    f == PhoneNumber || f == EmailAddress || f == LinkedinProfile || f == City || f == Country
  }

  /** One personal or contact answer: stored in `candidate_data`, then the
      next field is asked. */
  function AnswerScalar(s: Session, f: Field, text: string): (r: Session)
    requires KindOf(f).None?
    ensures r == s.(candidateData := r.candidateData, currentField := NextField(f))
    ensures KeyOf(f) in r.candidateData
    ensures r.candidateData[KeyOf(f)] == (if f == LinkedinProfile && IsSkip(text) then Null else Str(text))
    ensures forall key :: key != KeyOf(f) ==>
              ((key in r.candidateData <==> key in s.candidateData)
               && (key in s.candidateData ==> r.candidateData[key] == s.candidateData[key]))
  {
    s.(candidateData := Fill(s.candidateData, f, text), currentField := NextField(f))
  }

  /** `collect_personal_info`: first, middle and last name; after the last
      name the contact questions start. */
  function HandlePersonalInfo(s: Session, chat: int, text: string): (r: Step)
    ensures r.next == (if s.currentField == Some(LastName) then CollectContactInfo else CollectPersonalInfo)
    ensures s.currentField.Some? && PersonalField(s.currentField.value) ==>
              r.session == AnswerScalar(s.(chatId := Some(chat)), s.currentField.value, text)
    ensures !(s.currentField.Some? && PersonalField(s.currentField.value)) ==> r.session == s.(chatId := Some(chat))
  {
    var s1 := s.(chatId := Some(chat));
    match s.currentField
    case Some(f) =>
      if PersonalField(f) then
        Step(AnswerScalar(s1, f, text), if f == LastName then CollectContactInfo else CollectPersonalInfo)
      else Step(s1, CollectPersonalInfo)
    case None => Step(s1, CollectPersonalInfo)
  }

  /** `collect_contact_info`: phone, email, LinkedIn (skip stores None), city
      and country; after the country the profile image is asked. */
  function HandleContactInfo(s: Session, chat: int, text: string): (r: Step)
    ensures r.next == (if s.currentField == Some(Country) then CollectProfileImage else CollectContactInfo)
    ensures s.currentField.Some? && ContactField(s.currentField.value) ==>
              r.session == AnswerScalar(s.(chatId := Some(chat)), s.currentField.value, text)
    ensures !(s.currentField.Some? && ContactField(s.currentField.value)) ==> r.session == s.(chatId := Some(chat))
  {
    var s1 := s.(chatId := Some(chat));
    match s.currentField
    case Some(f) =>
      if ContactField(f) then
        Step(AnswerScalar(s1, f, text), if f == Country then CollectProfileImage else CollectContactInfo)
      else Step(s1, CollectContactInfo)
    case None => Step(s1, CollectContactInfo)
  }

  /** What a message in the profile-image state carries. */
  datatype ImageMessage = TextMessage(text: string) | MediaMessage(media: Media)

  /** `collect_profile_image`: an accepted upload that was forwarded to the
      private channel records its URL; a skip, a refused upload, any other
      text or a failed forward change nothing. The state never changes here:
      only the continue button leaves it. */
  function HandleProfileImage(s: Session, chat: int, msg: ImageMessage, fileUrl: string, forwardOk: bool): (r: Step)
    ensures r.next == CollectProfileImage
    ensures r.session == s.(chatId := Some(chat), candidateData := r.session.candidateData)
    ensures !(msg.MediaMessage? && Acceptable(msg.media) && forwardOk) ==> r.session.candidateData == s.candidateData
    ensures msg.MediaMessage? && Acceptable(msg.media) && forwardOk ==>
              r.session.candidateData == s.candidateData["profileImageUrl" := Str(fileUrl)]
  {
    var s1 := s.(chatId := Some(chat));
    match msg
    case TextMessage(_) => Step(s1, CollectProfileImage)
    case MediaMessage(m) =>
      if Check(m) == Accepted && forwardOk then
        Step(s1.(candidateData := s.candidateData["profileImageUrl" := Str(fileUrl)]), CollectProfileImage)
      else Step(s1, CollectProfileImage)
  }

  /** Opens a repeated section: its first field and an empty draft. */
  function EnterSection(s: Session, k: Kind): (r: Session)
    ensures r.currentField == Some(FirstField(k)) && DraftOf(r, k) == map[]
    ensures SameHeader(s, r) && DraftsAgreeExcept(s, r, k) && r.lists == s.lists
  {
    WithDraft(s, k, map[]).(currentField := Some(FirstField(k)))
  }

  /** `handle_profile_image_choice`: the continue button opens the work
      experience questions. */
  function HandleProfileImageChoice(s: Session, chat: int, data: string): (r: Step)
    ensures data == "continue_professional" ==>
              r == Step(EnterSection(s.(chatId := Some(chat)), Work), CollectProfessionalInfo)
    ensures data != "continue_professional" ==> r == Step(s.(chatId := Some(chat)), CollectProfileImage)
  {
    var s1 := s.(chatId := Some(chat));
    if data == "continue_professional" then Step(EnterSection(s1, Work), CollectProfessionalInfo)
    else Step(s1, CollectProfileImage)
  }

  /** One answer inside a repeated section. The answer goes into the draft;
      after the section's last field the draft is appended to the section's
      list and cleared, and `current_field` stays on that last field. */
  function CollectField(s: Session, k: Kind, text: string): (r: Session)
    requires s.currentField.Some? && KindOf(s.currentField.value) == Some(k)
    ensures SameHeader(s, r) && DraftsAgreeExcept(s, r, k) && ListsAgreeExcept(s, r, SectionOf(k))
    ensures var f := s.currentField.value;
            var filled := Fill(DraftOf(s, k), f, text);
            var old_ := ListOf(s, SectionOf(k));
            if NextField(f).Some? then
              r.currentField == NextField(f) && KindOf(NextField(f).value) == Some(k)
              && DraftOf(r, k) == filled && ListOf(r, SectionOf(k)) == old_
            else
              r.currentField == s.currentField && DraftOf(r, k) == map[]
              && ListOf(r, SectionOf(k)) == old_ + [filled]
  {
    var f := s.currentField.value;
    var filled := Fill(DraftOf(s, k), f, text);
    match NextField(f)
    case Some(g) =>
      NextFieldSameKind(f);
      WithDraft(s, k, filled).(currentField := Some(g))
    case None =>
      var sec := SectionOf(k);
      WithDraft(WithList(s, sec, ListOf(s, sec) + [filled]), k, map[])
  }

  /** The text handler of a repeated section: an answer for one of the
      section's fields is collected; with any other `current_field` nothing
      happens. The state stays. */
  function SectionAnswer(s: Session, chat: int, k: Kind, text: string): (r: Step)
    ensures r.next == StateOf(k)
    ensures s.currentField.Some? && KindOf(s.currentField.value) == Some(k) ==>
              r.session == CollectField(s.(chatId := Some(chat)), k, text)
    ensures !(s.currentField.Some? && KindOf(s.currentField.value) == Some(k)) ==>
              r.session == s.(chatId := Some(chat))
  {
    var s1 := s.(chatId := Some(chat));
    if s.currentField.Some? && KindOf(s.currentField.value) == Some(k) then
      Step(CollectField(s1, k, text), StateOf(k))
    else Step(s1, StateOf(k))
  }

  /** `collect_professional_info`: "skip" as the first job title drops every
      work experience, also ones already added, and moves to education. */
  function HandleProfessionalInfo(s: Session, chat: int, text: string): (r: Step)
    ensures s.currentField == Some(WorkJobTitle) && IsSkip(text) ==>
              r.next == CollectEducation && ListOf(r.session, WorkExperiences) == []
              && r.session == EnterSection(WithList(s.(chatId := Some(chat)), WorkExperiences, []), Edu)
    ensures !(s.currentField == Some(WorkJobTitle) && IsSkip(text)) ==> r == SectionAnswer(s, chat, Work, text)
  {
    if s.currentField == Some(WorkJobTitle) && IsSkip(text) then
      Step(EnterSection(WithList(s.(chatId := Some(chat)), WorkExperiences, []), Edu), CollectEducation)
    else SectionAnswer(s, chat, Work, text)
  }

  /** `collect_certifications`: "skip" as the certificate name changes
      nothing and offers the add-another / continue buttons. */
  function HandleCertifications(s: Session, chat: int, text: string): (r: Step)
    ensures s.currentField == Some(CertCertificateName) && IsSkip(text) ==>
              r == Step(s.(chatId := Some(chat)), CollectCertifications)
    ensures !(s.currentField == Some(CertCertificateName) && IsSkip(text)) ==> r == SectionAnswer(s, chat, Cert, text)
  {
    if s.currentField == Some(CertCertificateName) && IsSkip(text) then
      Step(s.(chatId := Some(chat)), CollectCertifications)
    else SectionAnswer(s, chat, Cert, text)
  }

  /** `collect_career_objective`: one free-text summary, unless skipped;
      then the certification questions open. */
  function HandleCareerObjective(s: Session, chat: int, text: string): (r: Step)
    ensures r.next == CollectCertifications
    ensures r.session.currentField == Some(CertCertificateName) && DraftOf(r.session, Cert) == map[]
    ensures ListOf(r.session, CareerObjectives) ==
              ListOf(s, CareerObjectives) + (if IsSkip(text) then [] else [map["summaryText" := Str(text)]])
    ensures ListsAgreeExcept(s, r.session, CareerObjectives) && DraftsAgreeExcept(s, r.session, Cert)
    ensures SameHeader(s.(chatId := Some(chat)), r.session)
  {
    var s1 := s.(chatId := Some(chat));
    var s2 := if IsSkip(text) then s1 else WithList(s1, CareerObjectives, ListOf(s1, CareerObjectives) + [map["summaryText" := Str(text)]]);
    Step(EnterSection(s2, Cert), CollectCertifications)
  }

  /** `collect_activities`: one "Other" activity, unless skipped; then the
      summary is shown for confirmation. */
  function HandleActivities(s: Session, chat: int, text: string): (r: Step)
    ensures r.next == ConfirmOrder
    ensures ListOf(r.session, OtherActivities) ==
              ListOf(s, OtherActivities) + (if IsSkip(text) then [] else [map["activityType" := Str("Other"), "description" := Str(text)]])
    ensures r.session.chatId == Some(chat) && ListsAgreeExcept(s, r.session, OtherActivities) && DraftsAgree(s, r.session)
    ensures r.session.candidateData == s.candidateData && r.session.currentField == s.currentField
    ensures r.session.orderId == s.orderId && r.session.notified == s.notified
    ensures SameHeader(s.(chatId := Some(chat)), r.session)
  {
    var s1 := s.(chatId := Some(chat));
    if IsSkip(text) then Step(s1, ConfirmOrder)
    else Step(WithList(s1, OtherActivities, ListOf(s1, OtherActivities) + [map["activityType" := Str("Other"), "description" := Str(text)]]), ConfirmOrder)
  }

  function AddAnotherToken(k: Kind): string {
    match k
    case Work => "add_another_work"
    case Edu => "add_another_edu"
    case Skill => "add_another_skill"
    case Cert => "add_another_cert"
    case Project => "add_another_project"
    case Lang => "add_another_language"
  }

  function ContinueToken(k: Kind): string {
    match k
    case Work => "continue_education"
    case Edu => "continue_skills"
    case Skill => "continue_career"
    case Cert => "continue_projects"
    case Project => "continue_languages"
    case Lang => "continue_activities"
  }

  /** The add-another / continue buttons of a repeated section. Add-another
      asks the section's first field again and keeps the state; continue
      opens what follows (education clears the skills list on the way, as
      the source does). Other data changes nothing. */
  function SectionChoice(s: Session, chat: int, k: Kind, data: string): (r: Step)
    ensures data == AddAnotherToken(k) ==>
              r == Step(s.(chatId := Some(chat), currentField := Some(FirstField(k))), StateOf(k))
    ensures data != AddAnotherToken(k) && data != ContinueToken(k) ==> r == Step(s.(chatId := Some(chat)), StateOf(k))
    ensures data == ContinueToken(k) ==> r.next != StateOf(k) && SameHeader(s.(chatId := Some(chat)), r.session)
    ensures data == ContinueToken(k) && k == Work ==> r == Step(EnterSection(s.(chatId := Some(chat)), Edu), CollectEducation)
    ensures data == ContinueToken(k) && k == Edu ==>
              r.next == CollectCareerObjective && ListOf(r.session, Skills) == []
              && ListsAgreeExcept(s, r.session, Skills) && DraftsAgree(s, r.session)
              && r.session.currentField == s.currentField
    ensures data == ContinueToken(k) && k == Skill ==> r == Step(s.(chatId := Some(chat)), CollectCareerObjective)
    ensures data == ContinueToken(k) && k == Cert ==> r == Step(EnterSection(s.(chatId := Some(chat)), Project), CollectProjects)
    ensures data == ContinueToken(k) && k == Project ==> r == Step(EnterSection(s.(chatId := Some(chat)), Lang), CollectLanguages)
    ensures data == ContinueToken(k) && k == Lang ==> r == Step(s.(chatId := Some(chat)), CollectActivities)
  {
    var s1 := s.(chatId := Some(chat));
    if data == AddAnotherToken(k) then Step(s1.(currentField := Some(FirstField(k))), StateOf(k))
    else if data == ContinueToken(k) then
      match k
      case Work => Step(EnterSection(s1, Edu), CollectEducation)
      case Edu => Step(WithList(s1, Skills, []), CollectCareerObjective)
      case Skill => Step(s1, CollectCareerObjective)
      case Cert => Step(EnterSection(s1, Project), CollectProjects)
      case Project => Step(EnterSection(s1, Lang), CollectLanguages)
      case Lang => Step(s1, CollectActivities)
    else Step(s1, StateOf(k))
  }

  /** Finishing an item and pressing add-another leaves a fresh draft at the
      section's first field, with the finished item at the end of the list. */
  lemma {:induction false} FinishThenAddAnother(s: Session, chat: int, k: Kind, text: string)
    requires s.currentField == Some(FieldsOf(k)[|FieldsOf(k)| - 1])
    ensures var t := SectionChoice(SectionAnswer(s, chat, k, text).session, chat, k, AddAnotherToken(k));
            t.next == StateOf(k) && t.session.currentField == Some(FirstField(k)) && DraftOf(t.session, k) == map[]
            && ListOf(t.session, SectionOf(k)) == ListOf(s, SectionOf(k)) + [Fill(DraftOf(s, k), s.currentField.value, text)]
  {
    FieldTablesAgree(k);
    var s1 := s.(chatId := Some(chat));
    assert DraftOf(s1, k) == DraftOf(s, k) && ListOf(s1, SectionOf(k)) == ListOf(s, SectionOf(k));
  }

  /** Stamps every item with the candidate's uid, as `confirm_yes` does to
      the session's own dicts before saving them. */
  function Tag(items: seq<Item>, uid: string): (r: seq<Item>)
    ensures |r| == |items|
    ensures forall i :: 0 <= i < |r| ==> r[i] == items[i]["candidate_uid" := Str(uid)]
  {
    seq(|items|, i requires 0 <= i < |items| => items[i]["candidate_uid" := Str(uid)])
  }

  /** What `confirm_yes` saves is what `update_profile` loads back: every
      tagged item belongs to the candidate, so the filter keeps them all. */
  lemma {:induction false} OwnedOfTagged(items: seq<Item>, uid: string)
    requires uid != ""
    ensures Owned(Tag(items, uid), uid) == Tag(items, uid)
    decreases |items|
  {
    if items != [] {
      var t := Tag(items, uid);
      assert t[1..] == Tag(items[1..], uid);
      assert BelongsTo(t[0], uid);
      OwnedOfTagged(items[1..], uid);
    }
  }

  function TagAll(s: Session, uid: string): (r: Session)
    ensures forall sec :: ListOf(r, sec) == Tag(ListOf(s, sec), uid)
    ensures SameHeader(s, r) && r.drafts == s.drafts && r.currentField == s.currentField
  {
    var lists: Lists := map sec | sec in s.lists :: Tag(s.lists[sec], uid);
    s.(lists := lists)
  }

  /** `confirm_order`: `confirm_yes` stamps every item with the candidate's
      uid, records the new order (not yet notified, reached from the main
      flow) and asks for payment. Other `confirm_` data changes nothing.
      (Its `edit_no` branch is never reached: `^confirm_` does not match
      `edit_no`, which goes to `edit_info`.) */
  function HandleConfirmOrder(s: Session, chat: int, data: string, candidateUid: string, newOrderId: string): (r: Step)
    ensures data == "confirm_yes" ==>
              r.next == Payment && r.session.orderId == Some(newOrderId)
              && !r.session.notified && r.session.fromMainFlow
              && (forall sec :: ListOf(r.session, sec) == Tag(ListOf(s, sec), candidateUid))
              && r.session.candidateData == s.candidateData && r.session.chatId == Some(chat)
              && r.session.language == s.language && r.session.drafts == s.drafts
              && r.session.currentField == s.currentField
    ensures data == "edit_no" ==> r == Step(Reset(s.(chatId := Some(chat))), CollectPersonalInfo)
    ensures data != "confirm_yes" && data != "edit_no" ==> r == Step(s.(chatId := Some(chat)), ConfirmOrder)
  {
    var s1 := s.(chatId := Some(chat));
    if data == "confirm_yes" then
      Step(TagAll(s1, candidateUid).(orderId := Some(newOrderId), notified := false, fromMainFlow := true), Payment)
    else if data == "edit_no" then Step(Reset(s1), CollectPersonalInfo)
    else Step(s1, ConfirmOrder)
  }

  /** The button that re-collects a section from the summary. */
  function EditToken(sec: Section): string {
    match sec
    case WorkExperiences => "edit_work"
    case Education => "edit_education"
    case Skills => "edit_skills"
    case CareerObjectives => "edit_career"
    case CertificationsAwards => "edit_certs"
    case Projects => "edit_projects"
    case Languages => "edit_languages"
    case OtherActivities => "edit_activities"
  }

  /** The state that collects a section. */
  function EntryState(sec: Section): State {
    match sec
    case WorkExperiences => CollectProfessionalInfo
    case Education => CollectEducation
    case Skills => CollectSkills
    case CareerObjectives => CollectCareerObjective
    case CertificationsAwards => CollectCertifications
    case Projects => CollectProjects
    case Languages => CollectLanguages
    case OtherActivities => CollectActivities
  }

  /** What an `edit_` button asks for. */
  datatype EditChoice = StartOver | EditPersonal | EditContact | EditImage | EditSection(sec: Section) | NoEdit

  /** The button data `edit_info` recognises, in the order it tests them. */
  function ParseEditData(data: string): (c: EditChoice)
    ensures c.EditSection? ==> data == EditToken(c.sec)
    ensures c == StartOver <==> data == "edit_no"
    ensures c == EditPersonal <==> data == "edit_personal"
    ensures c == EditContact <==> data == "edit_contact"
    ensures c == EditImage <==> data == "edit_profile_image"
  {
    if data == "edit_no" then StartOver
    else if data == "edit_personal" then EditPersonal
    else if data == "edit_contact" then EditContact
    else if data == "edit_profile_image" then EditImage
    else if data == "edit_work" then EditSection(WorkExperiences)
    else if data == "edit_education" then EditSection(Education)
    else if data == "edit_skills" then EditSection(Skills)
    else if data == "edit_career" then EditSection(CareerObjectives)
    else if data == "edit_certs" then EditSection(CertificationsAwards)
    else if data == "edit_projects" then EditSection(Projects)
    else if data == "edit_languages" then EditSection(Languages)
    else if data == "edit_activities" then EditSection(OtherActivities)
    else NoEdit
  }

  /** Every section's button is recognised as that section. */
  lemma ParseEditToken(sec: Section)
    ensures ParseEditData(EditToken(sec)) == EditSection(sec)
  {
  }

  /** The repeated section a list is collected by; career objectives and
      other activities are single free-text answers. */
  function KindOfSection(sec: Section): (k: Option<Kind>)
    ensures k.Some? ==> SectionOf(k.value) == sec
    ensures k.None? <==> sec == CareerObjectives || sec == OtherActivities
  {
    match sec
    case WorkExperiences => Some(Work)
    case Education => Some(Edu)
    case Skills => Some(Skill)
    case CertificationsAwards => Some(Cert)
    case Projects => Some(Project)
    case Languages => Some(Lang)
    case _ => None
  }

  /** `edit_info`: `edit_no` starts over (keeping language and chat); the
      personal, contact and image buttons only move `current_field`; a
      section button is covered by the two lemmas below; unknown data
      changes nothing. */
  function HandleEditInfo(s: Session, chat: int, data: string): (r: Step)
    ensures data == "edit_no" ==> r == Step(Reset(s.(chatId := Some(chat))), CollectPersonalInfo)
    ensures data == "edit_personal" ==> r == Step(s.(chatId := Some(chat), currentField := Some(FirstName)), CollectPersonalInfo)
    ensures data == "edit_contact" ==> r == Step(s.(chatId := Some(chat), currentField := Some(PhoneNumber)), CollectContactInfo)
    ensures data == "edit_profile_image" ==> r == Step(s.(chatId := Some(chat), currentField := None), CollectProfileImage)
    ensures ParseEditData(data) == NoEdit ==> r == Step(s.(chatId := Some(chat)), ConfirmOrder)
  {
    var s1 := s.(chatId := Some(chat));
    match ParseEditData(data)
    case StartOver => Step(Reset(s1), CollectPersonalInfo)
    case EditPersonal => Step(s1.(currentField := Some(FirstName)), CollectPersonalInfo)
    case EditContact => Step(s1.(currentField := Some(PhoneNumber)), CollectContactInfo)
    case EditImage => Step(s1.(currentField := None), CollectProfileImage)
    case EditSection(sec) =>
      var s2 := WithList(s1, sec, []);
      if sec == WorkExperiences then Step(s2.(currentField := Some(WorkJobTitle)), CollectProfessionalInfo)
      else (match KindOfSection(sec)
            case Some(k) => Step(EnterSection(s2, k), EntryState(sec))
            case None => Step(s2, EntryState(sec)))
    case NoEdit => Step(s1, ConfirmOrder)
  }

  /** Each section button of the summary empties that section's list and no
      other, and re-enters the section's state. */
  lemma EditSectionClearsOnlyIt(s: Session, chat: int, sec: Section)
    ensures var r := HandleEditInfo(s, chat, EditToken(sec));
            r.next == EntryState(sec) && ListOf(r.session, sec) == []
            && ListsAgreeExcept(s, r.session, sec)
  {
    ParseEditToken(sec);
  }
  /** A section button touches nothing outside the lists, the drafts and
      `current_field`. */
  lemma EditSectionFrame(s: Session, chat: int, sec: Section)
    ensures var r := HandleEditInfo(s, chat, EditToken(sec));
            r.session == s.(chatId := Some(chat), lists := r.session.lists, drafts := r.session.drafts, currentField := r.session.currentField)
  {
    ParseEditToken(sec);
  }

  /** The career-objective and activities buttons, which have no draft,
      keep every draft and `current_field` as they were. */
  lemma EditSingleSectionKeepsDrafts(s: Session, chat: int, sec: Section)
    requires sec == CareerObjectives || sec == OtherActivities
    ensures var r := HandleEditInfo(s, chat, EditToken(sec));
            DraftsAgree(s, r.session) && r.session.currentField == s.currentField
  {
    ParseEditToken(sec);
  }

  /** A repeated section re-entered from the summary asks its first field
      again with a fresh draft, except work experience, whose half-filled
      draft survives. */
  lemma EditSectionRestartsDraft(s: Session, chat: int, k: Kind)
    ensures var r := HandleEditInfo(s, chat, EditToken(SectionOf(k)));
            r.session.currentField == Some(FirstField(k))
            && DraftOf(r.session, k) == (if k == Work then DraftOf(s, k) else map[])
            && DraftsAgreeExcept(s, r.session, k)
  {
    if k == Work {
      EditWorkSession(s, chat);
    } else {
      EditRepeatedSession(s, chat, k);
    }
  }

  /** The work-experience button keeps the work draft. */
  lemma EditWorkSession(s: Session, chat: int)
    ensures HandleEditInfo(s, chat, EditToken(WorkExperiences)).session
            == WithList(s.(chatId := Some(chat)), WorkExperiences, []).(currentField := Some(WorkJobTitle))
  {
    ParseEditToken(WorkExperiences);
  }

  /** Another repeated section's button opens that section afresh. */
  lemma EditRepeatedSession(s: Session, chat: int, k: Kind)
    requires k != Work
    ensures HandleEditInfo(s, chat, EditToken(SectionOf(k))).session
            == EnterSection(WithList(s.(chatId := Some(chat)), SectionOf(k), []), k)
  {
    ParseEditToken(SectionOf(k));
    assert KindOfSection(SectionOf(k)) == Some(k) by {
      match k
      case Edu =>
      case Skill =>
      case Cert =>
      case Project =>
      case Lang =>
    }
  }
}
