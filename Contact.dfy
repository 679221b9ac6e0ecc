/** The contact section: which messaging channels and social links are offered,
    the inquiry text built from the form, the one URL opened per dispatch, and
    the form's state (its fields, the "submitted" flag and the platform chooser). */
module Contact {

  import opened Js
  import Uri

  // ------------------------------------------------------------ channels

  /** The messaging channels, in the order the chooser lists them. */
  datatype Platform = Email | WhatsApp | Telegram

  const MessagingOrder: seq<Platform> := [Email, WhatsApp, Telegram]

  /** Position in `MessagingOrder`. */
  function Rank(p: Platform): int {
    match p
    case Email => 0
    case WhatsApp => 1
    case Telegram => 2
  }

  function PlatformName(p: Platform): string {
    match p
    case Email => "Email"
    case WhatsApp => "WhatsApp"
    case Telegram => "Telegram"
  }

  function PlatformIcon(p: Platform): string {
    match p
    case Email => "\U{1F4E7}"
    case WhatsApp => "\U{1F4AC}"
    case Telegram => "\U{2708}\U{FE0F}"
  }

  /** `contactData.messaging`: an address, a phone number and a handle, each optional. */
  datatype Messaging = Messaging(email: Option<string>, whatsapp: Option<string>, telegram: Option<string>)

  /** The configured destination of a channel, `undefined` when `messaging` is. */
  function Destination(m: Option<Messaging>, p: Platform): Option<string> {
    if m.None? then None
    else match p
      case Email => m.value.email
      case WhatsApp => m.value.whatsapp
      case Telegram => m.value.telegram
  }

  /** The social platforms, in the order the "Follow Me" row lists them. */
  datatype SocialPlatform = Twitter | LinkedIn | Instagram | Dribbble | Behance | GitHub | YouTube | Facebook

  const SocialOrder: seq<SocialPlatform> :=
    [Twitter, LinkedIn, Instagram, Dribbble, Behance, GitHub, YouTube, Facebook]

  /** Position in `SocialOrder`. */
  function SocialRank(p: SocialPlatform): int {
    match p
    case Twitter => 0
    case LinkedIn => 1
    case Instagram => 2
    case Dribbble => 3
    case Behance => 4
    case GitHub => 5
    case YouTube => 6
    case Facebook => 7
  }

  function SocialName(p: SocialPlatform): string {
    match p
    case Twitter => "Twitter"
    case LinkedIn => "LinkedIn"
    case Instagram => "Instagram"
    case Dribbble => "Dribbble"
    case Behance => "Behance"
    case GitHub => "GitHub"
    case YouTube => "YouTube"
    case Facebook => "Facebook"
  }

  function SocialIcon(p: SocialPlatform): string {
    match p
    case Twitter => "\U{1D54F}"
    case LinkedIn => "\U{1F4BC}"
    case Instagram => "\U{1F4F7}"
    case Dribbble => "\U{1F3C0}"
    case Behance => "\U{1F3A8}"
    case GitHub => "\U{1F4BB}"
    case YouTube => "\U{1F4FA}"
    case Facebook => "\U{1F4D8}"
  }

  /** `contactData`, as far as the section's logic reads it; `socialMedia` maps
      a platform to its URL, a platform without a key being `undefined`. */
  datatype ContactData = ContactData(
    isRequired: Option<bool>,
    messaging: Option<Messaging>,
    socialMedia: Option<map<SocialPlatform, string>>)

  /** The early return: nothing is rendered without data or with `isRequired === false`. */
  predicate Renders(d: Option<ContactData>) {
    d.Some? && d.value.isRequired != Some(false)
  }

  /** `socialMedia[key]`. */
  function SocialUrl(sm: Option<map<SocialPlatform, string>>, p: SocialPlatform): Option<string> {
    if sm.Some? && p in sm.value then Some(sm.value[p]) else None
  }

  /** `getAvailableMessagingPlatforms()`: the channels whose destination is set
      and not blank, in the fixed order Email, WhatsApp, Telegram. */
  function AvailableMessaging(m: Option<Messaging>): (r: seq<Platform>)
    ensures m.None? ==> r == []
    ensures |r| <= 3
  {
    if m.None? then []
    else
      (if Filled(m.value.email) then [Email] else [])
      + (if Filled(m.value.whatsapp) then [WhatsApp] else [])
      + (if Filled(m.value.telegram) then [Telegram] else [])
  }

  /** A channel is offered exactly when its destination is set and not blank,
      each at most once and in chooser order. */
  lemma AvailableMessagingMeaning(m: Option<Messaging>)
    ensures forall p :: p in AvailableMessaging(m) <==> m.Some? && Filled(Destination(m, p))
    ensures forall i, j :: 0 <= i < j < |AvailableMessaging(m)| ==>
      Rank(AvailableMessaging(m)[i]) < Rank(AvailableMessaging(m)[j])
  {
    if m.Some? {
      var r := AvailableMessaging(m);
      var e, w, t := Filled(m.value.email), Filled(m.value.whatsapp), Filled(m.value.telegram);
      if e && w && t { assert r == [Email, WhatsApp, Telegram]; }
      else if e && w { assert r == [Email, WhatsApp]; }
      else if e && t { assert r == [Email, Telegram]; }
      else if w && t { assert r == [WhatsApp, Telegram]; }
      else if e { assert r == [Email]; }
      else if w { assert r == [WhatsApp]; }
      else if t { assert r == [Telegram]; }
      else { assert r == []; }
    }
  }

  /** The same list, built one `push` per configured channel. */
  method GetAvailableMessagingPlatforms(m: Option<Messaging>) returns (platforms: seq<Platform>)
    ensures platforms == AvailableMessaging(m)
  {
    if m.None? {
      return [];
    }
    var email, whatsapp, telegram := Filled(m.value.email), Filled(m.value.whatsapp), Filled(m.value.telegram);
    platforms := [];
    if email {
      platforms := platforms + [Email];
    }
    if whatsapp {
      platforms := platforms + [WhatsApp];
    }
    if telegram {
      platforms := platforms + [Telegram];
    }
    assert platforms == (if email then [Email] else []) + (if whatsapp then [WhatsApp] else [])
      + (if telegram then [Telegram] else []);
  }

  /** `getAvailableSocialPlatforms()`: the platforms whose URL is set and not
      blank, in the fixed order Twitter … Facebook. */
  function AvailableSocial(sm: Option<map<SocialPlatform, string>>): (r: seq<SocialPlatform>)
    ensures forall p :: p in r <==> sm.Some? && Filled(SocialUrl(sm, p))
    ensures forall i, j :: 0 <= i < j < |r| ==> SocialRank(r[i]) < SocialRank(r[j])
    ensures sm.None? ==> r == []
  {
    if sm.None? then []
    else
      var f := (p: SocialPlatform) => Filled(SocialUrl(sm, p));
      FilterKeepsOrder(SocialOrder, f, SocialRank);
      assert forall p :: p in SocialOrder by {
        forall p ensures p in SocialOrder {
          assert SocialOrder[SocialRank(p)] == p;
        }
      }
      Filter(SocialOrder, f)
  }

  /** A link's `href`: `socialMedia[key] || "#"`. */
  function SocialHref(sm: Option<map<SocialPlatform, string>>, p: SocialPlatform): string {
    OrElse(SocialUrl(sm, p), "#")
  }

  /** Every offered link points at its configured URL, never at "#". */
  lemma OfferedLinksUseTheirUrl(sm: Option<map<SocialPlatform, string>>, p: SocialPlatform)
    requires p in AvailableSocial(sm)
    ensures sm.Some? && p in sm.value && SocialHref(sm, p) == sm.value[p]
    ensures Trim(SocialHref(sm, p)) != ""
  {
  }

  // ------------------------------------------------------------- message

  /** The form's four fields. */
  datatype FormData = FormData(name: string, email: string, project: string, message: string)

  const EmptyForm := FormData("", "", "", "")

  /** One of the `required` inputs (name, e-mail, message) is empty, so the
      browser refuses to submit. */
  predicate MissesRequired(f: FormData) {
    f.name == "" || f.email == "" || f.message == ""
  }

  /** The `name` attribute of the input an edit comes from. */
  datatype Field = NameField | EmailField | ProjectField | MessageField

  function Get(f: FormData, field: Field): string {
    match field
    case NameField => f.name
    case EmailField => f.email
    case ProjectField => f.project
    case MessageField => f.message
  }

  /** `{...formData, [e.target.name]: e.target.value}`: the named field takes the
      new value and the other three keep theirs. */
  function WithField(f: FormData, field: Field, value: string): (r: FormData)
    ensures Get(r, field) == value
    ensures forall g :: g != field ==> Get(r, g) == Get(f, g)
  {
    match field
    case NameField => f.(name := value)
    case EmailField => f.(email := value)
    case ProjectField => f.(project := value)
    case MessageField => f.(message := value)
  }

  /** One line of the inquiry text: a tag, a value and a line break. */
  function Line(tag: string, value: string): string {
    tag + value + "\n"
  }

  /** The inquiry text sent through every channel: name, e-mail and project on
      a line each, then the message. */
  function Payload(f: FormData): string {
    Line("Name: ", f.name) + (Line("Email: ", f.email) + (Line("Project: ", f.project) + ("Message: " + f.message)))
  }

  /** The subject line of the two e-mail targets. */
  function Subject(f: FormData): string {
    "New Project Inquiry from " + f.name
  }

  /** The text after `tag` up to the first line break, and what follows that break. */
  function ReadField(s: string, tag: string): Option<(string, string)> {
    if |tag| <= |s| && s[..|tag|] == tag then
      var t := s[|tag|..];
      if '\n' in t then Some((t[..FirstIndex(t, '\n')], t[FirstIndex(t, '\n') + 1..])) else None
    else None
  }

  /** Reads an inquiry text back into the form it was built from. */
  function ParsePayload(s: string): Option<FormData> {
    match ReadField(s, "Name: ")
    case None => None
    case Some((name, r1)) =>
      match ReadField(r1, "Email: ")
      case None => None
      case Some((email, r2)) =>
        match ReadField(r2, "Project: ")
        case None => None
        case Some((project, r3)) =>
          if |r3| >= 9 && r3[..9] == "Message: " then Some(FormData(name, email, project, r3[9..]))
          else None
  }

  lemma ReadFieldOf(tag: string, text: string, rest: string)
    requires '\n' !in text
    ensures ReadField(Line(tag, text) + rest, tag) == Some((text, rest))
  {
    var s := Line(tag, text) + rest;
    assert s == tag + (text + ['\n'] + rest);
    var t := s[|tag|..];
    assert t == text + ['\n'] + rest;
    FirstIndexAfter(text, '\n', rest);
    assert t[..|text|] == text;
    assert t[|text| + 1..] == rest;
  }

  /** The inquiry text determines the form, as long as the one-line fields hold
      no line break (the message, the last field, may hold any). */
  lemma PayloadRoundTrip(f: FormData)
    requires '\n' !in f.name && '\n' !in f.email && '\n' !in f.project
    ensures ParsePayload(Payload(f)) == Some(f)
  {
    var r3 := "Message: " + f.message;
    var r2 := Line("Project: ", f.project) + r3;
    var r1 := Line("Email: ", f.email) + r2;
    ReadFieldOf("Name: ", f.name, r1);
    ReadFieldOf("Email: ", f.email, r2);
    ReadFieldOf("Project: ", f.project, r3);
    assert r3[..9] == "Message: " && r3[9..] == f.message;
  }

  /** The name the subject line is about. */
  function SubjectName(s: string): Option<string> {
    var prefix := "New Project Inquiry from ";
    if |prefix| <= |s| && s[..|prefix|] == prefix then Some(s[|prefix|..]) else None
  }

  lemma SubjectRoundTrip(f: FormData)
    ensures SubjectName(Subject(f)) == Some(f.name)
  {
    var prefix := "New Project Inquiry from ";
    assert Subject(f)[..|prefix|] == prefix;
  }

  // ---------------------------------------------------------------- URLs

  /** The web-mail compose endpoint. */
  const GmailBase := "https://mail.google.com/mail/"

  /** The fallback URL's query fields: compose view, full screen, no recipient,
      the subject and the inquiry text (both already encoded), in that order. */
  function GmailFields(su: string, body: string): seq<(string, string)> {
    [("view", "cm"), ("fs", "1"), ("to", ""), ("su", su), ("body", body)]
  }

  /** The web-mail compose URL the form falls back to:
      `…/mail/?view=cm&fs=1&to=&su=<subject>&body=<text>`. */
  function GmailComposeUrl(f: FormData): string {
    GmailBase + "?" + Uri.Join(GmailFields(Uri.Encode(Subject(f)), Uri.Encode(Payload(f))))
  }

  /** The fallback's field names hold no `&` or `=`. */
  lemma GmailFieldsWellFormed(su: string, body: string)
    requires '&' !in su && '&' !in body
    ensures Uri.WellFormedFields(GmailFields(su, body))
  {
  }

  /** The fallback URL names no recipient. */
  lemma GmailTo(su: string, body: string)
    requires '&' !in su && '&' !in body
    ensures Uri.QueryParam(GmailBase + "?" + Uri.Join(GmailFields(su, body)), "to") == Some("")
  {
    GmailFieldsWellFormed(su, body);
    Uri.QueryParamOf(GmailBase, GmailFields(su, body), "to", 2);
  }

  /** The fallback URL's `su` parameter is the subject given. */
  lemma GmailSu(su: string, body: string)
    requires '&' !in su && '&' !in body
    ensures Uri.QueryParam(GmailBase + "?" + Uri.Join(GmailFields(su, body)), "su") == Some(su)
  {
    GmailFieldsWellFormed(su, body);
    Uri.QueryParamOf(GmailBase, GmailFields(su, body), "su", 3);
  }

  /** The fallback URL's `body` parameter is the text given. */
  lemma GmailBody(su: string, body: string)
    requires '&' !in su && '&' !in body
    ensures Uri.QueryParam(GmailBase + "?" + Uri.Join(GmailFields(su, body)), "body") == Some(body)
  {
    GmailFieldsWellFormed(su, body);
    Uri.QueryParamOf(GmailBase, GmailFields(su, body), "body", 4);
  }

  /** `whatsapp?.replace(/[^0-9]/g, "") || ""`. */
  function WhatsAppNumber(m: Option<Messaging>): string {
    var d := Destination(m, WhatsApp);
    if d.Some? then StripNonDigits(d.value) else ""
  }

  /** The WhatsApp number in the URL consists of digits only. */
  lemma WhatsAppNumberDigits(m: Option<Messaging>)
    ensures forall i :: 0 <= i < |WhatsAppNumber(m)| ==> IsDigit(WhatsAppNumber(m)[i])
  {
    var d := Destination(m, WhatsApp);
    if d.Some? {
      StripNonDigitsOnlyDigits(d.value);
    }
  }

  /** `telegram?.replace("@", "") || ""`. */
  function TelegramHandle(m: Option<Messaging>): string {
    var d := Destination(m, Telegram);
    if d.Some? then RemoveFirst(d.value, '@') else ""
  }

  /** The query of a chat link: the encoded inquiry as `text`. */
  function ChatFields(f: FormData): seq<(string, string)> {
    [("text", Uri.Encode(Payload(f)))]
  }

  /** The query of the mail link: the subject and the inquiry, both already encoded. */
  function MailtoFields(su: string, body: string): seq<(string, string)> {
    [("subject", su), ("body", body)]
  }

  /** The one URL a choice in the platform chooser opens:
      `mailto:<address>?subject=…&body=…`, `https://wa.me/<number>?text=…` or
      `https://t.me/<handle>?text=…`. */
  function SendUrl(m: Option<Messaging>, p: Platform, f: FormData): string {
    match p
    case Email => "mailto:" + OrElse(Destination(m, Email), "") + "?" + Uri.Join(MailtoFields(Uri.Encode(Subject(f)), Uri.Encode(Payload(f))))
    case WhatsApp => "https://wa.me/" + WhatsAppNumber(m) + "?" + Uri.Join(ChatFields(f))
    case Telegram => "https://t.me/" + TelegramHandle(m) + "?" + Uri.Join(ChatFields(f))
  }

  /** The fallback URL has an empty recipient and carries the subject and the
      inquiry text, each recoverable by decoding its query parameter. */
  lemma GmailUrlCarriesForm(f: FormData)
    ensures Uri.QueryParam(GmailComposeUrl(f), "to") == Some("")
    ensures Uri.QueryParam(GmailComposeUrl(f), "su") == Some(Uri.Encode(Subject(f)))
    ensures Uri.QueryParam(GmailComposeUrl(f), "body") == Some(Uri.Encode(Payload(f)))
    ensures Uri.Decode(Uri.Encode(Subject(f))) == Some(Subject(f))
    ensures Uri.Decode(Uri.Encode(Payload(f))) == Some(Payload(f))
  {
    Uri.EncodedHasNoDelimiters(Subject(f));
    Uri.EncodedHasNoDelimiters(Payload(f));
    var su, body := Uri.Encode(Subject(f)), Uri.Encode(Payload(f));
    GmailTo(su, body);
    GmailSu(su, body);
    GmailBody(su, body);
    Uri.DecodeEncode(Subject(f));
    Uri.DecodeEncode(Payload(f));
  }

  /** A chat URL `<prefix><target>?text=…`: its `text` parameter decodes to
      the inquiry text. */
  lemma ChatUrlCarriesPayload(prefix: string, target: string, f: FormData)
    requires '?' !in prefix + target
    ensures Uri.QueryParam(prefix + target + "?" + Uri.Join(ChatFields(f)), "text")
      == Some(Uri.Encode(Payload(f)))
    ensures Uri.Decode(Uri.Encode(Payload(f))) == Some(Payload(f))
  {
    var fields := ChatFields(f);
    Uri.EncodedHasNoDelimiters(Payload(f));
    assert Uri.WellFormedFields(fields);
    Uri.QueryParamOf(prefix + target, fields, "text", 0);
    Uri.DecodeEncode(Payload(f));
  }

  /** The WhatsApp choice opens `https://wa.me/<digits>?text=…`: the number is
      the configured one's digits, in order, and the text is the inquiry. */
  lemma WhatsAppUrlShape(m: Option<Messaging>, f: FormData)
    ensures SendUrl(m, WhatsApp, f) == "https://wa.me/" + WhatsAppNumber(m) + "?" + Uri.Join(ChatFields(f))
    ensures Destination(m, WhatsApp).Some? ==> WhatsAppNumber(m) == StripNonDigits(Destination(m, WhatsApp).value)
    ensures Uri.QueryParam(SendUrl(m, WhatsApp, f), "text") == Some(Uri.Encode(Payload(f)))
  {
    var n := WhatsAppNumber(m);
    assert '?' !in "https://wa.me/" + n by {
      WhatsAppNumberDigits(m);
    }
    ChatUrlCarriesPayload("https://wa.me/", n, f);
  }

  /** The Telegram choice opens `https://t.me/<handle>?text=…`, where the handle
      is the configured one with its first `@`, wherever it stands, removed;
      any later `@` stays. */
  lemma TelegramUrlShape(m: Option<Messaging>, f: FormData)
    requires Destination(m, Telegram).Some? && '?' !in Destination(m, Telegram).value
    ensures var h := Destination(m, Telegram).value;
      TelegramHandle(m) == (if '@' in h then h[..FirstIndex(h, '@')] + h[FirstIndex(h, '@') + 1..] else h)
    ensures Uri.QueryParam(SendUrl(m, Telegram, f), "text") == Some(Uri.Encode(Payload(f)))
  {
    var h := Destination(m, Telegram).value;
    var t := TelegramHandle(m);
    RemoveFirstCutsFirst(h, '@');
    RemoveFirstOnlyRemoves(h, '@');
    assert '?' !in t;
    ChatUrlCarriesPayload("https://t.me/", t, f);
  }

  /** The mail link's `subject` parameter is the subject given. */
  lemma MailtoSubject(to: string, su: string, body: string)
    requires '?' !in to && '&' !in su && '&' !in body
    ensures Uri.QueryParam("mailto:" + to + "?" + Uri.Join(MailtoFields(su, body)), "subject") == Some(su)
  {
    assert Uri.WellFormedFields(MailtoFields(su, body));
    Uri.QueryParamOf("mailto:" + to, MailtoFields(su, body), "subject", 0);
  }

  /** The mail link's `body` parameter is the text given. */
  lemma MailtoBody(to: string, su: string, body: string)
    requires '?' !in to && '&' !in su && '&' !in body
    ensures Uri.QueryParam("mailto:" + to + "?" + Uri.Join(MailtoFields(su, body)), "body") == Some(body)
  {
    assert Uri.WellFormedFields(MailtoFields(su, body));
    Uri.QueryParamOf("mailto:" + to, MailtoFields(su, body), "body", 1);
  }

  /** The e-mail choice opens `mailto:<address>?subject=…&body=…`, carrying the
      subject and the inquiry text. */
  lemma MailtoUrlCarriesForm(m: Option<Messaging>, f: FormData)
    requires '?' !in OrElse(Destination(m, Email), "")
    ensures Uri.QueryParam(SendUrl(m, Email, f), "subject") == Some(Uri.Encode(Subject(f)))
    ensures Uri.QueryParam(SendUrl(m, Email, f), "body") == Some(Uri.Encode(Payload(f)))
  {
    var to := OrElse(Destination(m, Email), "");
    var su, body := Uri.Encode(Subject(f)), Uri.Encode(Payload(f));
    Uri.EncodedHasNoDelimiters(Subject(f));
    Uri.EncodedHasNoDelimiters(Payload(f));
    MailtoSubject(to, su, body);
    MailtoBody(to, su, body);
  }

  /** The worked example: only a phone number is configured, so WhatsApp is the
      only channel offered. */
  lemma OnlyWhatsAppExample()
    ensures AvailableMessaging(Some(Messaging(Some(""), Some("+1 555 0100"), Some("")))) == [WhatsApp]
  {
    var phone := "+1 555 0100";
    assert Filled(Some(phone)) by {
      assert !IsWhiteSpace(phone[0]);
      FilledIffVisible(Some(phone));
    }
  }

  /** One separator followed by a group of digits leaves the group. */
  lemma SeparatedDigitGroup(sep: char, group: string)
    requires !IsDigit(sep)
    requires forall i :: 0 <= i < |group| ==> IsDigit(group[i])
    ensures StripNonDigits([sep] + group) == group
  {
    StripNonDigitsCons(sep, group);
    StripNonDigitsKeepsDigits(group);
  }

  /** A number written as `+<country> <area> <line>` keeps exactly its digit
      groups, in order. */
  lemma PhoneDigits(country: string, area: string, line: string)
    requires forall i :: 0 <= i < |country| ==> IsDigit(country[i])
    requires forall i :: 0 <= i < |area| ==> IsDigit(area[i])
    requires forall i :: 0 <= i < |line| ==> IsDigit(line[i])
    ensures StripNonDigits("+" + country + (" " + area + (" " + line))) == country + (area + line)
  {
    var x, y, z := "+" + country, " " + area, " " + line;
    calc {
      StripNonDigits(x + (y + z));
    == { StripNonDigitsAppend(x, y + z); }
      StripNonDigits(x) + StripNonDigits(y + z);
    == { StripNonDigitsAppend(y, z); }
      StripNonDigits(x) + (StripNonDigits(y) + StripNonDigits(z));
    == { SeparatedDigitGroup('+', country); SeparatedDigitGroup(' ', area); SeparatedDigitGroup(' ', line); }
      country + (area + line);
    }
  }

  // ---------------------------------------------------------------- form

  /** The form's state. `openedUrls` records every URL handed to `window.open`. */
  class ContactForm {
    const messaging: Option<Messaging>
    var formData: FormData
    var isSubmitted: bool
    var showMessagePopup: bool
    var openedUrls: seq<string>

    /** What every reachable state satisfies: the chooser is only open before
        the inquiry went out, and at most one URL is ever opened, exactly when
        the form is marked submitted. */
    ghost predicate Valid()
      reads this
    {
      (showMessagePopup ==> !isSubmitted && AvailableMessaging(messaging) != [])
      && |openedUrls| == (if isSubmitted then 1 else 0)
    }

    constructor (messaging: Option<Messaging>)
      ensures Valid()
      ensures this.messaging == messaging
      ensures formData == EmptyForm && !isSubmitted && !showMessagePopup && openedUrls == []
    {
      this.messaging := messaging;
      formData := EmptyForm;
      isSubmitted := false;
      showMessagePopup := false;
      openedUrls := [];
    }

    /** The submit button is disabled once the inquiry went out. */
    predicate SubmitDisabled()
      reads this
    {
      isSubmitted
    }

    /** The submit button's caption. */
    function SubmitLabel(): string
      reads this
    {
      if isSubmitted then "MESSAGE SENT" else "SEND MESSAGE"
    }

    /** `handleInputChange`: one field changes, nothing else does. */
    method HandleInputChange(field: Field, value: string)
      requires Valid()
      modifies this
      ensures Valid()
      ensures formData == WithField(old(formData), field, value)
      ensures isSubmitted == old(isSubmitted) && showMessagePopup == old(showMessagePopup)
      ensures openedUrls == old(openedUrls)
    {
      formData := WithField(formData, field, value);
    }

    /** `handleSubmit`: without a configured channel, opens the web-mail fallback
        and resets the form; otherwise only opens the chooser. */
    method HandleSubmit()
      modifies this
      ensures AvailableMessaging(messaging) == [] ==>
        openedUrls == old(openedUrls) + [GmailComposeUrl(old(formData))]
        && isSubmitted && formData == EmptyForm && showMessagePopup == old(showMessagePopup)
      ensures AvailableMessaging(messaging) != [] ==>
        openedUrls == old(openedUrls) && showMessagePopup
        && formData == old(formData) && isSubmitted == old(isSubmitted)
    {
      var platforms := GetAvailableMessagingPlatforms(messaging);
      if |platforms| == 0 {
        openedUrls := openedUrls + [GmailComposeUrl(formData)];
        isSubmitted := true;
        formData := EmptyForm;
      } else {
        showMessagePopup := true;
      }
    }

    /** `handleSendMessage`: opens exactly one URL for the chosen platform, closes
        the chooser and marks the form submitted; the fields are kept. */
    method HandleSendMessage(p: Platform)
      modifies this
      ensures openedUrls == old(openedUrls) + [SendUrl(messaging, p, old(formData))]
      ensures !showMessagePopup && isSubmitted && formData == old(formData)
    {
      openedUrls := openedUrls + [SendUrl(messaging, p, formData)];
      showMessagePopup := false;
      isSubmitted := true;
    }

    /** The chooser's Cancel button and a click on its backdrop: close, dispatch nothing. */
    method ClosePopup()
      requires Valid()
      modifies this
      ensures Valid()
      ensures !showMessagePopup
      ensures formData == old(formData) && isSubmitted == old(isSubmitted) && openedUrls == old(openedUrls)
    {
      showMessagePopup := false;
    }

    /** A press of the submit button. The browser submits only while the button
        is enabled and the `required` fields are non-empty; a submission then
        runs `handleSubmit`. */
    method SubmitClick()
      requires Valid()
      modifies this
      ensures Valid()
      ensures old(isSubmitted || MissesRequired(formData)) ==>
        formData == old(formData) && isSubmitted == old(isSubmitted)
        && showMessagePopup == old(showMessagePopup) && openedUrls == old(openedUrls)
      ensures !old(isSubmitted || MissesRequired(formData)) && AvailableMessaging(messaging) == [] ==>
        openedUrls == old(openedUrls) + [GmailComposeUrl(old(formData))]
        && formData == EmptyForm && isSubmitted && showMessagePopup == old(showMessagePopup)
      ensures !old(isSubmitted || MissesRequired(formData)) && AvailableMessaging(messaging) != [] ==>
        showMessagePopup && formData == old(formData) && isSubmitted == old(isSubmitted)
        && openedUrls == old(openedUrls)
      ensures |openedUrls| <= 1
    {
      if !isSubmitted && !MissesRequired(formData) {
        HandleSubmit();
      }
    }

    /** A click on a platform in the chooser: the buttons exist only while it is
        open, one per available channel. */
    method ChoosePlatform(p: Platform)
      requires Valid()
      modifies this
      ensures Valid()
      ensures old(showMessagePopup) && p in AvailableMessaging(messaging) ==>
        openedUrls == old(openedUrls) + [SendUrl(messaging, p, old(formData))]
        && formData == old(formData) && isSubmitted && !showMessagePopup
      ensures !(old(showMessagePopup) && p in AvailableMessaging(messaging)) ==>
        openedUrls == old(openedUrls) && formData == old(formData) && isSubmitted == old(isSubmitted)
        && showMessagePopup == old(showMessagePopup)
      ensures |openedUrls| <= 1
    {
      if showMessagePopup && p in AvailableMessaging(messaging) {
        HandleSendMessage(p);
      }
    }
  }

  /** A visitor types the four fields into a fresh form, presses submit and
      picks an offered channel: exactly one URL is opened, and it is that
      channel's URL for the typed fields. */
  method InquiryThroughChooser(m: Option<Messaging>, f: FormData, p: Platform) returns (urls: seq<string>)
    requires !MissesRequired(f) && p in AvailableMessaging(m)
    ensures urls == [SendUrl(m, p, f)]
  {
    var form := new ContactForm(m);
    form.HandleInputChange(NameField, f.name);
    form.HandleInputChange(EmailField, f.email);
    form.HandleInputChange(ProjectField, f.project);
    form.HandleInputChange(MessageField, f.message);
    assert form.formData == f;
    form.SubmitClick();
    form.ChoosePlatform(p);
    urls := form.openedUrls;
  }

  /** Without any configured channel, the same visit opens the web-mail
      compose URL for the typed fields and leaves the form empty. */
  method InquiryThroughWebMail(m: Option<Messaging>, f: FormData) returns (urls: seq<string>, after: FormData)
    requires !MissesRequired(f) && AvailableMessaging(m) == []
    ensures urls == [GmailComposeUrl(f)] && after == EmptyForm
  {
    var form := new ContactForm(m);
    form.HandleInputChange(NameField, f.name);
    form.HandleInputChange(EmailField, f.email);
    form.HandleInputChange(ProjectField, f.project);
    form.HandleInputChange(MessageField, f.message);
    assert form.formData == f;
    form.SubmitClick();
    urls, after := form.openedUrls, form.formData;
  }
}
