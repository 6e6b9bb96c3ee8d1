# Contact-form relay: a verified model

The finetunai server takes a contact-form submission (`name`, `email`,
`message`) on `/api/contact` (the HTTP method is set by the route module,
which is not part of this model), validates it, composes an email and hands
it to a mail transport, then answers 200, 400 or 500. This project models
three parts of it in Dafny and proves what they promise:

- `validator.dfy`, module `Validator`: `validateInput`. It checks the three
  fields in order. A missing or empty field gives "All fields are required.".
  An email that does not match `^[^\s@]+@[^\s@]+\.[^\s@]+$` gives "Invalid
  email format.". Anything else is valid. The regular expression is stated as
  it reads (`MatchesEmailPattern`: a run, '@', a run, '.', a run, each run made
  of characters outside `\s` and '@'). It is also stated as a structural
  predicate (`EmailShape`: one '@', no white space, a non-empty local part, a
  '.' inside the domain that is neither its first nor its last character).
  `EmailShapeIsPattern` proves that the two agree.
- `contact_service.dfy`, module `ContactService`: the mail options that
  `sendContactFormEmail` and `sendContactEmail` build. This covers the
  recipient fallback chains, the sender, the subjects, the plain text, the
  newline-to-`<br>` replacement, the branded content and the page template.
  Every composed string has an inverse: `Between` reads a piece back from
  between a known prefix and suffix. The contracts of the two mail-options
  functions state what can be read back from what is handed to the
  transport. The name reads back from the subject of `sendContactEmail`, and
  of `sendContactFormEmail` when the form gives no subject. In every case it
  reads back from the branded content (`ContentHeadShowsName`). The email is
  the reply-to address. Given the name and the email, the message reads back
  from the text and the HTML.
- `contact_controller.dfy`, module `ContactController`: `handleContactForm`,
  a method from the request fields to the response. It sends through a
  transport object, and its contract states what that object's record of
  handed-over mails becomes, so "sent exactly once" and "nothing sent" are
  stated about the send itself.
- `js_values.dfy`, modules `Wrappers` and `JsValues`: the optional value used
  for absent fields and unset variables. It also holds the JavaScript
  semantics the code relies on: truthiness, `||`, and how `${v}` renders
  `undefined`.

The environment (`SMTP_USER`, `CONTACT_FORM_RECIPIENT`, `RECEIVER_EMAIL`) is a
record of optional strings. The current year in the page footer is a
parameter. The mail transport is a `Transport` object. Its `SendMail` appends
the options to the object's `sent` record and settles to `Sent(info)` or
`Failed(error)`. Which outcome an attempt gets is given by `deliver(k, o)`,
where `k` counts the earlier attempts on that transport. A transport that
fails once and then delivers the same mail is therefore one of its values.

Points of the code worth knowing:

- There is no generic subject. Both send functions default to "New Inquiry
  from <name> - FineTuneAI Contact Form". `sendContactFormEmail` uses a
  non-empty form subject instead when one is given.
- There are two send functions, with different recipient, subject and text
  logic. Both are modelled. Only `sendContactEmail` is called by the handler.
  `VariantsAgree` states a condition under which the two compose the same
  mail. They also agree in other cases, for example when RECEIVER_EMAIL holds
  the configured recipient.
- Whitespace is not trimmed: a name or a message made only of white space
  counts as present (`WhiteSpaceIsPresent`).

## Model

| member | source | states |
|---|---|---|
| `Validator.ValidateInput` | src/utils/validateInput.ts:1-5 | returns one of exactly three outcomes. Any missing or empty field gives "All fields are required.", whatever the email is. Otherwise an email outside the pattern gives "Invalid email format.". The result is `None` if and only if all three fields are non-empty and the email matches the regular expression |
| `Validator.EmailShapeIsPattern` | src/utils/validateInput.ts:3 | the structural predicate (one '@', no white space, non-empty local part, inner '.' after the '@') accepts exactly the strings the regular expression matches |
| `Validator.ShapeMatchesPattern` | src/utils/validateInput.ts:3 | every string of the structural shape splits into local part, '@', host, '.', top-level domain, each a non-empty run without white space or '@' |
| `Validator.PatternHasShape` | src/utils/validateInput.ts:3 | every string the regular expression matches has exactly one '@', no white space, its '@' after a non-empty prefix, and a '.' neither first nor last after it |
| `Validator.AcceptedEmailShape` | src/utils/validateInput.ts:3-5 | an email the validator accepts contains exactly one '@' and no white space. The part before the '@' is non-empty. The part after it has a '.' that is neither its first nor its last character |
| `Validator.WhiteSpaceIsPresent` | src/utils/validateInput.ts:2 | no trimming: a name and a message made only of white space pass the required-field check, so a valid email makes the input valid |
| `Validator.AcceptsExampleAddresses` | src/utils/validateInput.ts:3 | "a@b.com" and "ada@example.com" match the pattern |
| `Validator.RejectsAddressWithoutAt` | src/utils/validateInput.ts:3-4 | "not-an-email" does not match the pattern |
| `Validator.AcceptsAdaSubmission` | src/utils/validateInput.ts:1-5 | the submission ("Ada", "ada@example.com", "Hello") passes validation |
| `ContactService.ContactFormRecipient` | src/services/contact.service.ts:11-12 | the recipient constant is CONTACT_FORM_RECIPIENT when it is set and non-empty, else "info@finetunai.com". It is never empty |
| `ContactService.WarnsOfMissingRecipient` | src/services/contact.service.ts:15-17 | the load-time warning fires exactly when CONTACT_FORM_RECIPIENT is unset or empty, and then the default recipient is in force |
| `ContactService.ContactEmailRecipient` | src/services/contact.service.ts:180 | three-step chain: RECEIVER_EMAIL if non-empty, else CONTACT_FORM_RECIPIENT if non-empty, else "info@finetunai.com". It is never empty |
| `ContactService.RecipientsAgreeWithoutReceiver` | src/services/contact.service.ts:123 | without RECEIVER_EMAIL, both send functions address the same recipient |
| `ContactService.RecipientIsConfiguredOrDefault` | src/services/contact.service.ts:12 | both recipients are always the default address or a non-empty configured value |
| `ContactService.Sender` | src/services/contact.service.ts:122 | the `from` field is `"FineTuneAI" <`, then SMTP_USER, then `>`. The SMTP user can be read back from it, and an unset SMTP_USER renders as "undefined" |
| `ContactService.DefaultSubject` | src/services/contact.service.ts:182 | the default subject wraps the name between "New Inquiry from " and " - FineTuneAI Contact Form", and the name can be read back from it |
| `ContactService.FormSubject` | src/services/contact.service.ts:75 | a non-empty form subject is used verbatim. An absent or empty one falls back to the default subject, from which the name reads back |
| `ContactService.ReplaceNewlines` | src/services/contact.service.ts:110 | the output contains no newline |
| `ContactService.ReplaceNewlinesLength` | src/services/contact.service.ts:110 | the output is as long as the input plus 3 per newline |
| `ContactService.ReplaceNewlinesConcat` | src/services/contact.service.ts:110 | the replacement distributes over concatenation, so each character is rewritten independently and in order |
| `ContactService.ReplaceNewlinesChar` | src/services/contact.service.ts:110 | a newline becomes "<br>" and every other character is kept |
| `ContactService.ReplaceNewlinesKeeps` | src/services/contact.service.ts:168 | text without a newline is left unchanged |
| `ContactService.ReplaceNewlinesIdempotent` | src/services/contact.service.ts:168 | applying the replacement a second time changes nothing |
| `ContactService.PlainText` | src/services/contact.service.ts:78-84 | the plain text holds the message verbatim, newlines kept, after a head naming the sender and their email |
| `ContactService.ContentHeadShowsName` | src/services/contact.service.ts:94-100 | the sender's name reads back from the branded content, between the "Name:" cell and the email's mailto link |
| `ContactService.ContactContent` | src/services/contact.service.ts:87-115 | the branded content holds the message with newlines turned into line breaks. Before it come the name and the email, in a mailto link |
| `ContactService.TemplateHeadShowsTitle` | src/services/contact.service.ts:29-43 | the page shows the title verbatim twice, in the title element and in the heading |
| `ContactService.EmailTemplate` | src/services/contact.service.ts:22-65 | the page embeds the content verbatim between the titled head and the footer with the year, and the content can be read back from it |
| `ContactService.ContactFormEmailOptions` | src/services/contact.service.ts:70-128 | `sendContactFormEmail`'s options carry the form. The SMTP user reads back from the sender. To: CONTACT_FORM_RECIPIENT or the default. Reply-to: the submitter's email. Subject: a non-empty form subject verbatim, else the default around the name. The message reads back verbatim from the text and, with line breaks, from the HTML |
| `ContactService.ContactEmailOptions` | src/services/contact.service.ts:143-184 | `sendContactEmail`'s options carry the submission. The SMTP user reads back from the sender and the name from the subject. To: the three-step chain. Reply-to: the submitter's email. There is no text part. The message, with line breaks, reads back from the HTML |
| `ContactService.VariantsAgree` | src/services/contact.service.ts:70-184 | with RECEIVER_EMAIL unset and no form subject, both send functions compose the same mail. The one difference is the text part, which only `sendContactFormEmail` has |
| `ContactService.Transport.constructor` | src/config/mailer.ts:8-14 | stands for the transporter's construction: a new transport has handed nothing over yet and settles each attempt as its `deliver` says |
| `ContactService.Transport.SendMail` | src/services/contact.service.ts:131 | one call appends exactly the given options to the record of handed-over mails, and nothing else. The outcome is the one this attempt, numbered by the earlier ones, settles to |
| `ContactService.SendContactFormEmail` | src/services/contact.service.ts:130-137 | the record grows by exactly one entry, `sendContactFormEmail`'s composed options. The delivery report of that attempt is returned, and its error is passed on unchanged |
| `ContactService.SendContactEmail` | src/services/contact.service.ts:186 | the record grows by exactly one entry, `sendContactEmail`'s composed options, and that attempt's outcome is returned as it is |
| `ContactController.ResponseFor` | src/controllers/contact.controller.ts:12-19 | the status is always 200, 400 or 500. It is 400 exactly when the validator rejected, with the validator's message. It is 200 exactly when the transport delivered, with "Message sent successfully!". A failure gives 500 with the generic message |
| `ContactController.HandleContactForm` | src/controllers/contact.controller.ts:5-21 | a request the validator rejects is answered 400 with that error, and the transport's record is unchanged. A valid request adds exactly one entry to the record, its own mail options. The response follows from what that attempt settles to |
| `ContactController.TransportErrorNeverLeaks` | src/controllers/contact.controller.ts:17-19 | two failures, with any errors, give the same response: 500 with the generic message |
| `ContactController.ErrorBodiesAreFixed` | src/controllers/contact.controller.ts:12-19 | whatever the request and the transport's outcome, every error body is one of the three fixed messages |
| `ContactController.SentMailCarriesRequest` | src/controllers/contact.controller.ts:15 | the mail sent for a valid request carries it: the name in the subject, the email as reply-to and the message in the HTML. It goes to the recipient of the fallback chain |
| `ContactController.HandleTwice` | src/controllers/contact.controller.ts:14-15 | no deduplication: handling the same valid request twice adds two identical entries to the record. Each answer follows from its own attempt, so a transport that fails once and then delivers gets 500 and then 200 |
| `ContactController.AnswerAda` | src/controllers/contact.controller.ts:9-16 | with a transport that always delivers and no recipient configured, the submission ("Ada", "ada@example.com", "Hello") is answered 200. It keeps the earlier entries of the record and adds one, with reply-to "ada@example.com" and recipient "info@finetunai.com" |

## Left out

- The Express bootstrap (`index.ts`), CORS, JSON body parsing and the route module. `src/routes/contact.routes` is not part of this model.
- The nodemailer transport construction (`src/config/mailer.ts`) and the transport's internals. `Transport` only records what it is handed and settles each attempt as its `deliver` function says. Retries and connections inside nodemailer are not modelled.
- Promise and `async` semantics, and all `console.log`, `console.warn` and `console.error` output. The warning at load is modelled only as the condition under which it fires.
- The clock: `new Date().getFullYear()` is the `year` parameter.
- Exact markup: the HTML pieces keep the fixed text and the order of the interpolated values. Left out are the viewport `<meta>` element (contact.service.ts:28), `style` attributes, and the table attributes `align`, `border`, `cellpadding`, `cellspacing` and `width` (:32, :88, :92, :94). Also left out are comments, indentation and the white space around the interpolated values. The plain text is modelled character for character.
- Request-body fields that are neither strings nor absent (numbers, objects, `null`). These are JSON values the handler would pass to the validator; only strings and absence are modelled.
- UTF-16: JavaScript strings are sequences of UTF-16 code units and Dafny strings are sequences of Unicode scalar values. Every character of `\s` is a single code unit, so matching is not affected.
- When the environment is read: CONTACT_FORM_RECIPIENT is read once, when the module loads (contact.service.ts:12). SMTP_USER and RECEIVER_EMAIL are read on every send (:122, :179-180). The model takes all three from one `Env` per call. It therefore misses only a change of CONTACT_FORM_RECIPIENT after load, which the code would ignore.
- HTML escaping: the name, the email and the message are embedded in the HTML without escaping, as the code does. The model proves only that they are embedded verbatim.
