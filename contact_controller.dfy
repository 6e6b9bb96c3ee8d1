/**
 * The contact handler (src/controllers/contact.controller.ts).
 *
 * A request is validated; an invalid one is answered 400 with the
 * validator's message and nothing is sent. A valid one is sent once through
 * `sendContactEmail`; the handler answers 200 when the transport delivers and
 * 500 with a fixed message when it fails. The transport is an object that
 * records what is handed to it, so "sent once" and "nothing sent" are
 * statements about that record before and after the call.
 */
module ContactController {
  import opened Wrappers
  import opened JsValues
  import Validator
  import opened ContactService

  const SuccessMessage := "Message sent successfully!"
  const GenericFailure := "Something went wrong, please try again later."

  /** The fields the handler takes from the JSON request body; `None` is a missing field. */
  datatype ContactRequest = ContactRequest(name: Option<string>, email: Option<string>, message: Option<string>)

  /** The JSON response body: `{message}` on success, `{error}` otherwise. */
  datatype Body = MessageBody(message: string) | ErrorBody(error: string)

  datatype Response = Response(status: int, body: Body)

  /** How a request came out: rejected by the validator, or sent and settled by the transport. */
  datatype Run<+I, +E> = Rejected(error: string) | Settled(outcome: SendOutcome<I, E>)

  /** The validator's verdict on a request. */
  function Validate(req: ContactRequest): Option<string> {
    Validator.ValidateInput(req.name, req.email, req.message)
  }

  /** The mail options a valid request is sent as. */
  function OptionsFor(env: Env, year: string, req: ContactRequest): MailOptions
    requires Validate(req) == None
  {
    ContactEmailOptions(env, year, req.name.value, req.email.value, req.message.value)
  }

  /**
   * The response the handler writes for a run: 400 with the validator's
   * message, 200 when the transport delivered, 500 with a fixed message when
   * it failed.
   */
  function ResponseFor<I, E>(run: Run<I, E>): (r: Response)
    ensures r.status in {200, 400, 500}
    ensures r.status == 400 <==> run.Rejected?
    ensures r.status == 200 <==> run.Settled? && run.outcome.Sent?
    ensures run.Rejected? ==> r.body == ErrorBody(run.error)
    ensures r.status == 200 ==> r.body == MessageBody(SuccessMessage)
    ensures r.status == 500 ==> r.body == ErrorBody(GenericFailure)
  {
    match run
    case Rejected(error) => Response(400, ErrorBody(error))
    case Settled(Sent(_)) => Response(200, MessageBody(SuccessMessage))
    case Settled(Failed(_)) => Response(500, ErrorBody(GenericFailure))
  }

  /**
   * `handleContactForm`: an invalid request is answered 400 and nothing is
   * handed to the transport; a valid one is handed over exactly once, and the
   * response follows from what that attempt settles to.
   */
  method HandleContactForm<I, E>(env: Env, year: string, req: ContactRequest, t: Transport<I, E>)
    returns (res: Response)
    modifies t
    ensures Validate(req).Some? ==>
              t.sent == old(t.sent) && res == ResponseFor<I, E>(Rejected(Validate(req).value))
    ensures Validate(req) == None ==>
              t.sent == old(t.sent) + [OptionsFor(env, year, req)]
              && res == ResponseFor(Settled(t.deliver(|old(t.sent)|, OptionsFor(env, year, req))))
  {
    var error := Validator.ValidateInput(req.name, req.email, req.message);
    if Truthy(error) {
      return ResponseFor<I, E>(Rejected(error.value));
    }
    var outcome := SendContactEmail(env, year, req.name.value, req.email.value, req.message.value, t);
    res := ResponseFor(Settled(outcome));
  }

  /**
   * The transport's error never reaches the client: any two failures, with
   * whatever errors, are answered alike, with the generic message.
   */
  lemma TransportErrorNeverLeaks<I, E>(e1: E, e2: E)
    ensures ResponseFor<I, E>(Settled(Failed(e1))) == ResponseFor<I, E>(Settled(Failed(e2)))
    ensures ResponseFor<I, E>(Settled(Failed(e1))).body == ErrorBody(GenericFailure)
  {
  }

  /**
   * Whatever the request and whatever the transport does, an error response
   * carries one of the three fixed messages: the validator's two and the
   * generic failure.
   */
  lemma ErrorBodiesAreFixed<I, E>(req: ContactRequest, outcome: SendOutcome<I, E>)
    ensures var r := ResponseFor(if Validate(req).Some? then Rejected(Validate(req).value) else Settled(outcome));
      r.body.ErrorBody? ==>
        r.body.error in {Validator.AllFieldsRequired, Validator.InvalidEmailFormat, GenericFailure}
  {
  }

  /**
   * The mail sent for a valid request carries that request: the name in the
   * subject, the email as reply-to, the message in the HTML body, and it goes
   * to the recipient of the fallback chain.
   */
  lemma SentMailCarriesRequest(env: Env, year: string, req: ContactRequest)
    requires Validate(req) == None
    ensures var o := OptionsFor(env, year, req);
      Between(o.subject, SubjectHead, SubjectTail) == Some(req.name.value)
      && o.replyTo == req.email.value
      && MessageOfHtml(o.html, req.name.value, req.email.value, year) == Some(ReplaceNewlines(req.message.value))
      && o.to == ContactEmailRecipient(env)
  {
  }

  /**
   * No deduplication: handling the same valid request twice hands two
   * identical mails to the transport, and each answer follows from its own
   * attempt, so a transport that fails once and then delivers is answered 500
   * and then 200.
   */
  method HandleTwice<I, E>(env: Env, year: string, req: ContactRequest, t: Transport<I, E>)
    returns (first: Response, second: Response)
    requires Validate(req) == None
    modifies t
    ensures t.sent == old(t.sent) + [OptionsFor(env, year, req), OptionsFor(env, year, req)]
    ensures first == ResponseFor(Settled(t.deliver(|old(t.sent)|, OptionsFor(env, year, req))))
    ensures second == ResponseFor(Settled(t.deliver(|old(t.sent)| + 1, OptionsFor(env, year, req))))
  {
    first := HandleContactForm(env, year, req, t);
    second := HandleContactForm(env, year, req, t);
  }

  /**
   * With a transport whose every attempt delivers and no recipient
   * configured, the submission ("Ada", "ada@example.com", "Hello") is handed
   * over once, to the default recipient with reply-to "ada@example.com", and
   * answered 200.
   */
  method AnswerAda<I, E>(smtpUser: Option<string>, year: string, t: Transport<I, E>) returns (res: Response)
    requires forall k, o :: t.deliver(k, o).Sent?
    modifies t
    ensures res == Response(200, MessageBody(SuccessMessage))
    ensures |t.sent| == |old(t.sent)| + 1 && t.sent[..|old(t.sent)|] == old(t.sent)
    ensures t.sent[|old(t.sent)|].replyTo == "ada@example.com" && t.sent[|old(t.sent)|].to == DefaultRecipient
  {
    Validator.AcceptsAdaSubmission();
    res := HandleContactForm(Env(smtpUser, None, None), year,
                             ContactRequest(Some("Ada"), Some("ada@example.com"), Some("Hello")), t);
  }
}
