/**
 * Email composition of the contact relay (src/services/contact.service.ts).
 *
 * Both send functions build a mail-options record and hand it to the mail
 * transport: `sendContactFormEmail` (subject from the form, recipient
 * CONTACT_FORM_RECIPIENT, with a plain-text part) and `sendContactEmail`
 * (fixed subject, recipient RECEIVER_EMAIL before CONTACT_FORM_RECIPIENT, HTML
 * only). The environment and the current year are parameters; the transport
 * is an object that records every mail handed to it.
 * Every composed string has an inverse here (`Between` reads a piece back
 * from between a known prefix and suffix). The contracts of the
 * mail-options functions state that the name reads back from the subject of
 * `sendContactEmail`, and of `sendContactFormEmail` when the form gives no
 * subject; that the email is the reply-to address; and that, given the name
 * and the email, the message reads back from the text and the HTML.
 */
module ContactService {
  import opened Wrappers
  import opened JsValues

  const DefaultRecipient := "info@finetunai.com"
  const TemplateTitle := "Contact Form Submission"

  /** The environment variables the service reads; `None` is an unset variable. */
  datatype Env = Env(smtpUser: Option<string>, contactFormRecipient: Option<string>, receiverEmail: Option<string>)

  /** The form data of `sendContactFormEmail`; only the subject is optional. */
  datatype ContactFormData = ContactFormData(name: string, email: string, subject: Option<string>, message: string)

  /** The options handed to the mail transport; `text` is absent in `sendContactEmail`. */
  datatype MailOptions = MailOptions(from: string, to: string, replyTo: string, subject: string, text: Option<string>, html: string)

  /** What the mail transport's send settles to: a delivery report, or the error it rejects with. */
  datatype SendOutcome<+I, +E> = Sent(info: I) | Failed(error: E)

  /** `s` with `pre` stripped from its front and `post` from its back, when it has both. */
  function Between(s: string, pre: string, post: string): (r: Option<string>)
    ensures r.Some? <==> |pre| + |post| <= |s| && s[..|pre|] == pre && s[|s| - |post|..] == post
    ensures r.Some? ==> s == pre + r.value + post
  {
    if |pre| + |post| <= |s| && s[..|pre|] == pre && s[|s| - |post|..] == post then
      assert s == s[..|pre|] + s[|pre|..|s| - |post|] + s[|s| - |post|..];
      Some(s[|pre|..|s| - |post|])
    else None
  }

  /** `Between` reads back the middle of a concatenation. */
  lemma BetweenOfConcat(pre: string, mid: string, post: string)
    ensures Between(pre + mid + post, pre, post) == Some(mid)
  {
    var s := pre + mid + post;
    assert s[..|pre|] == pre;
    assert s[|s| - |post|..] == post;
    assert s[|pre|..|s| - |post|] == mid;
  }

  // ----- recipient -----

  /**
   * The module-level recipient constant: CONTACT_FORM_RECIPIENT when set and
   * non-empty, else the default address; never empty.
   */
  function ContactFormRecipient(env: Env): (r: string)
    ensures r != ""
    ensures Truthy(env.contactFormRecipient) ==> r == env.contactFormRecipient.value
    ensures !Truthy(env.contactFormRecipient) ==> r == DefaultRecipient
  {
    Or(env.contactFormRecipient, DefaultRecipient)
  }

  /** The one-time warning at module load fires exactly when the default recipient is in force for that reason. */
  function WarnsOfMissingRecipient(env: Env): (w: bool)
    ensures w <==> !Truthy(env.contactFormRecipient)
    ensures w ==> ContactFormRecipient(env) == DefaultRecipient
  {
    !Truthy(env.contactFormRecipient)
  }

  /**
   * The recipient of `sendContactEmail`: RECEIVER_EMAIL when set and non-empty,
   * else CONTACT_FORM_RECIPIENT when set and non-empty, else the default.
   */
  function ContactEmailRecipient(env: Env): (r: string)
    ensures r != ""
    ensures Truthy(env.receiverEmail) ==> r == env.receiverEmail.value
    ensures !Truthy(env.receiverEmail) && Truthy(env.contactFormRecipient) ==> r == env.contactFormRecipient.value
    ensures !Truthy(env.receiverEmail) && !Truthy(env.contactFormRecipient) ==> r == DefaultRecipient
  {
    Or(env.receiverEmail, ContactFormRecipient(env))
  }

  /** Without RECEIVER_EMAIL the two send functions address the same recipient. */
  lemma RecipientsAgreeWithoutReceiver(env: Env)
    requires !Truthy(env.receiverEmail)
    ensures ContactEmailRecipient(env) == ContactFormRecipient(env)
  {
  }

  /** The recipient is always a configured non-empty value or the default address. */
  lemma RecipientIsConfiguredOrDefault(env: Env)
    ensures ContactEmailRecipient(env) in {DefaultRecipient} + ConfiguredRecipients(env)
    ensures ContactFormRecipient(env) in {DefaultRecipient} + ConfiguredRecipients(env)
  {
  }

  /** The non-empty recipient addresses set in the environment. */
  function ConfiguredRecipients(env: Env): set<string> {
    (if Truthy(env.receiverEmail) then {env.receiverEmail.value} else {})
    + (if Truthy(env.contactFormRecipient) then {env.contactFormRecipient.value} else {})
  }

  // ----- sender and subject -----

  const SenderHead := "\"FineTuneAI\" <"
  const SenderTail := ">"

  /** The `from` field: the display name FineTuneAI and the SMTP user, rendered "undefined" when unset. */
  function Sender(env: Env): (r: string)
    ensures Between(r, SenderHead, SenderTail) == Some(Render(env.smtpUser))
  {
    BetweenOfConcat(SenderHead, Render(env.smtpUser), SenderTail);
    SenderHead + Render(env.smtpUser) + SenderTail
  }

  const SubjectHead := "New Inquiry from "
  const SubjectTail := " - FineTuneAI Contact Form"

  /** The default subject, built around the submitter's name. */
  function DefaultSubject(name: string): (r: string)
    ensures Between(r, SubjectHead, SubjectTail) == Some(name)
  {
    BetweenOfConcat(SubjectHead, name, SubjectTail);
    SubjectHead + name + SubjectTail
  }

  /** The subject of `sendContactFormEmail`: the form's subject when non-empty, else the default. */
  function FormSubject(data: ContactFormData): (r: string)
    ensures Truthy(data.subject) ==> r == data.subject.value
    ensures !Truthy(data.subject) ==> Between(r, SubjectHead, SubjectTail) == Some(data.name)
  {
    Or(data.subject, DefaultSubject(data.name))
  }

  // ----- message bodies -----

  /** `message.replace(/\n/g, '<br>')`. */
  function ReplaceNewlines(s: string): (r: string)
    ensures '\n' !in r
  {
    if s == [] then ""
    else (if s[0] == '\n' then "<br>" else [s[0]]) + ReplaceNewlines(s[1..])
  }

  /** Each newline grows the text by three characters: the output is as long as the input plus 3 per newline. */
  lemma {:induction false} ReplaceNewlinesLength(s: string)
    ensures |ReplaceNewlines(s)| == |s| + 3 * multiset(s)['\n']
  {
    if s != [] {
      assert s == [s[0]] + s[1..];
      ReplaceNewlinesLength(s[1..]);
    }
  }

  /** The replacement acts on each character on its own: it distributes over concatenation. */
  lemma {:induction false} ReplaceNewlinesConcat(a: string, b: string)
    ensures ReplaceNewlines(a + b) == ReplaceNewlines(a) + ReplaceNewlines(b)
  {
    if a == [] {
      assert a + b == b;
    } else {
      assert (a + b)[0] == a[0] && (a + b)[1..] == a[1..] + b;
      ReplaceNewlinesConcat(a[1..], b);
    }
  }

  /** A newline becomes "<br>" and every other character stays as it is. */
  lemma ReplaceNewlinesChar(c: char)
    ensures ReplaceNewlines([c]) == if c == '\n' then "<br>" else [c]
  {
  }

  /** Text without a newline is left unchanged. */
  lemma {:induction false} ReplaceNewlinesKeeps(s: string)
    requires '\n' !in s
    ensures ReplaceNewlines(s) == s
  {
    if s != [] {
      assert '\n' !in s[1..] by {
        forall c | c in s[1..] ensures c != '\n' {
          assert c in s;
        }
      }
      ReplaceNewlinesKeeps(s[1..]);
    }
  }

  /** Replacing a second time changes nothing. */
  lemma ReplaceNewlinesIdempotent(s: string)
    ensures ReplaceNewlines(ReplaceNewlines(s)) == ReplaceNewlines(s)
  {
    ReplaceNewlinesKeeps(ReplaceNewlines(s));
  }

  const TextHeadName := "\n    Name: "
  const TextHeadEmail := "\n    Email: "
  const TextHeadMessage := "\n    \n    Message:\n    "
  const TextTail := "\n  "

  /** The part of the plain text before the message. */
  function TextHead(name: string, email: string): string {
    TextHeadName + name + TextHeadEmail + email + TextHeadMessage
  }

  /** The plain-text part of `sendContactFormEmail`: name, email and the message verbatim, newlines kept. */
  function PlainText(name: string, email: string, message: string): (r: string)
    ensures Between(r, TextHead(name, email), TextTail) == Some(message)
  {
    BetweenOfConcat(TextHead(name, email), message, TextTail);
    TextHead(name, email) + message + TextTail
  }

  const ContentName := "<table><tr><td><p>Contact Information</p><table><tr><td>Name:</td><td>"
  const ContentMailto := "</td></tr><tr><td>Email:</td><td><a href=\"mailto:"
  const ContentLink := "\">"
  const ContentMessage := "</a></td></tr></table></td></tr><tr><td><p>Message Content</p><div>"
  const ContentTail := "</div></td></tr></table>"

  /** The part of the branded content before the message: the name once and the email twice, in a mailto link. */
  function ContentHead(name: string, email: string): string {
    ContentName + name + ContentMailto + email + ContentLink + email + ContentMessage
  }

  /** The branded content names the sender: the name reads back from between the first two fixed pieces. */
  lemma ContentHeadShowsName(name: string, email: string)
    ensures Between(ContentHead(name, email), ContentName, ContentMailto + email + ContentLink + email + ContentMessage)
              == Some(name)
  {
    assert ContentHead(name, email) == ContentName + name + (ContentMailto + email + ContentLink + email + ContentMessage);
    BetweenOfConcat(ContentName, name, ContentMailto + email + ContentLink + email + ContentMessage);
  }

  /** The branded content of both send functions, with the message's newlines turned into line breaks. */
  function ContactContent(name: string, email: string, message: string): (r: string)
    ensures Between(r, ContentHead(name, email), ContentTail) == Some(ReplaceNewlines(message))
  {
    BetweenOfConcat(ContentHead(name, email), ReplaceNewlines(message), ContentTail);
    ContentHead(name, email) + ReplaceNewlines(message) + ContentTail
  }

  const TitleOpen := "<!DOCTYPE html><html lang=\"en\"><head><meta charset=\"UTF-8\"><title>"
  const HeadingOpen := "</title></head><body><table><tr><td><h1>FineTuneAI</h1></td></tr><tr><td><h2>"
  const ContentOpen := "</h2></td></tr><tr><td>"
  const FooterOpen := "</td></tr><tr><td><p>\U{00A9} "
  const FooterTail := " FineTuneAI. All rights reserved.</p><p>This is an automated message. Please do not reply directly to this email.</p></td></tr></table></body></html>"

  /** The part of the page before the content: the title in the head and again as the heading. */
  function TemplateHead(title: string): string {
    TitleOpen + title + HeadingOpen + title + ContentOpen
  }

  /** The part of the page after the content: the footer with the current year. */
  function TemplateTail(year: string): string {
    FooterOpen + year + FooterTail
  }

  /** The head of the page shows the title twice: in the `<title>` element and in the heading. */
  lemma TemplateHeadShowsTitle(title: string)
    ensures Between(TemplateHead(title), TitleOpen, HeadingOpen + title + ContentOpen) == Some(title)
    ensures Between(TemplateHead(title), TitleOpen + title + HeadingOpen, ContentOpen) == Some(title)
  {
    assert TemplateHead(title) == TitleOpen + title + (HeadingOpen + title + ContentOpen);
    BetweenOfConcat(TitleOpen, title, HeadingOpen + title + ContentOpen);
    assert TemplateHead(title) == (TitleOpen + title + HeadingOpen) + title + ContentOpen;
    BetweenOfConcat(TitleOpen + title + HeadingOpen, title, ContentOpen);
  }

  /**
   * `createProfessionalEmailTemplate`: the page embeds the title verbatim
   * twice and the content verbatim, between a fixed head and a footer.
   */
  function EmailTemplate(title: string, content: string, year: string): (r: string)
    ensures Between(r, TemplateHead(title), TemplateTail(year)) == Some(content)
  {
    BetweenOfConcat(TemplateHead(title), content, TemplateTail(year));
    TemplateHead(title) + content + TemplateTail(year)
  }

  // ----- mail options and sending -----

  /** The message a page carries: the content inside the page, then the message inside the content. */
  function MessageOfHtml(html: string, name: string, email: string, year: string): Option<string> {
    match Between(html, TemplateHead(TemplateTitle), TemplateTail(year))
    case None => None
    case Some(content) => Between(content, ContentHead(name, email), ContentTail)
  }

  /**
   * The mail options `sendContactFormEmail` builds. They carry the form: the
   * SMTP user reads back from the sender, the email is the reply-to address,
   * the subject is the form's or the default around the name, the message
   * reads back verbatim from the text and with line breaks from the HTML.
   */
  function ContactFormEmailOptions(env: Env, year: string, data: ContactFormData): (o: MailOptions)
    ensures Between(o.from, SenderHead, SenderTail) == Some(Render(env.smtpUser))
    ensures o.to == ContactFormRecipient(env) && o.replyTo == data.email
    ensures Truthy(data.subject) ==> o.subject == data.subject.value
    ensures !Truthy(data.subject) ==> Between(o.subject, SubjectHead, SubjectTail) == Some(data.name)
    ensures o.text.Some? && Between(o.text.value, TextHead(data.name, data.email), TextTail) == Some(data.message)
    ensures MessageOfHtml(o.html, data.name, data.email, year) == Some(ReplaceNewlines(data.message))
  {
    MailOptions(
      from := Sender(env),
      to := ContactFormRecipient(env),
      replyTo := data.email,
      subject := FormSubject(data),
      text := Some(PlainText(data.name, data.email, data.message)),
      html := EmailTemplate(TemplateTitle, ContactContent(data.name, data.email, data.message), year))
  }

  /**
   * The mail options `sendContactEmail` builds. They carry the submission:
   * the SMTP user reads back from the sender, the name from the subject, the
   * email is the reply-to address, and the message reads back with line
   * breaks from the HTML; there is no plain-text part.
   */
  function ContactEmailOptions(env: Env, year: string, name: string, email: string, message: string): (o: MailOptions)
    ensures Between(o.from, SenderHead, SenderTail) == Some(Render(env.smtpUser))
    ensures o.to == ContactEmailRecipient(env) && o.replyTo == email
    ensures Between(o.subject, SubjectHead, SubjectTail) == Some(name)
    ensures o.text == None
    ensures MessageOfHtml(o.html, name, email, year) == Some(ReplaceNewlines(message))
  {
    MailOptions(
      from := Sender(env),
      to := ContactEmailRecipient(env),
      replyTo := email,
      subject := DefaultSubject(name),
      text := None,
      html := EmailTemplate(TemplateTitle, ContactContent(name, email, message), year))
  }

  /**
   * The two send functions compose the same mail when RECEIVER_EMAIL is unset
   * and the form has no subject, except that only `sendContactFormEmail` adds
   * a plain-text part.
   */
  lemma VariantsAgree(env: Env, year: string, data: ContactFormData)
    requires !Truthy(env.receiverEmail) && !Truthy(data.subject)
    ensures ContactFormEmailOptions(env, year, data)
      == ContactEmailOptions(env, year, data.name, data.email, data.message)
           .(text := Some(PlainText(data.name, data.email, data.message)))
  {
  }

  /**
   * The mail transport (`transporter.sendMail`). `deliver(k, o)` is what the
   * `k`-th send through this transport, counting from 0, settles to when it
   * hands over the options `o`, so a transport that fails once and then
   * delivers the same mail is one of its values. `sent` records every mail
   * handed over, in order.
   */
  class Transport<I, E> {
    const deliver: (nat, MailOptions) -> SendOutcome<I, E>
    var sent: seq<MailOptions>

    constructor (deliver: (nat, MailOptions) -> SendOutcome<I, E>)
      ensures this.deliver == deliver && sent == []
    {
      this.deliver := deliver;
      sent := [];
    }

    /** `sendMail`: hand `o` over once; the outcome is the one this attempt settles to. */
    method SendMail(o: MailOptions) returns (r: SendOutcome<I, E>)
      modifies this
      ensures sent == old(sent) + [o]
      ensures r == deliver(|old(sent)|, o)
    {
      r := deliver(|sent|, o);
      sent := sent + [o];
    }
  }

  /**
   * `sendContactFormEmail`: the composed options are handed to the transport
   * exactly once; its delivery report is returned and its error re-thrown
   * unchanged.
   */
  method SendContactFormEmail<I, E>(env: Env, year: string, data: ContactFormData, t: Transport<I, E>)
    returns (r: SendOutcome<I, E>)
    modifies t
    ensures t.sent == old(t.sent) + [ContactFormEmailOptions(env, year, data)]
    ensures r == t.deliver(|old(t.sent)|, ContactFormEmailOptions(env, year, data))
  {
    var mailOptions := ContactFormEmailOptions(env, year, data);
    var outcome := t.SendMail(mailOptions);
    match outcome
    case Sent(info) =>
      r := Sent(info);
    case Failed(error) =>
      r := Failed(error);
  }

  /** `sendContactEmail`: the composed options are handed to the transport exactly once and its outcome returned. */
  method SendContactEmail<I, E>(env: Env, year: string, name: string, email: string, message: string,
                                t: Transport<I, E>)
    returns (r: SendOutcome<I, E>)
    modifies t
    ensures t.sent == old(t.sent) + [ContactEmailOptions(env, year, name, email, message)]
    ensures r == t.deliver(|old(t.sent)|, ContactEmailOptions(env, year, name, email, message))
  {
    r := t.SendMail(ContactEmailOptions(env, year, name, email, message));
  }
}
