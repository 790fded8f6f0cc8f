/**
 * The older JSON publish endpoint, `pubslish_newsletters_handler`: a session
 * gate, then one send per confirmed subscriber, with no idempotency key.
 */
module Newsletters {
  import opened Wrappers
  import Http
  import opened Errors
  import opened EmailClients
  import Subscriptions
  import opened NewsletterDelivery

  datatype Content = Content(html: string, text: string)

  datatype BodyData = BodyData(title: string, content: Content)

  datatype PublishError = UnexpectedError(error: Error) | Unauthenticated(message: string)

  const PleaseLogIn := "Please log in."

  /** `IntoResponse for PublishError`: the cause of a 500 is only logged, never shown. */
  function PublishErrorResponse(e: PublishError): (r: Http.Response)
    ensures r.status == (if e.UnexpectedError? then Http.InternalServerError else Http.Unauthorized)
    ensures r.body == Http.Utf8(if e.UnexpectedError? then Subscriptions.SomethingWentWrong else e.message)
  {
    match e
    case UnexpectedError(_) => Http.TextResponse(Http.InternalServerError, Subscriptions.SomethingWentWrong)
    case Unauthenticated(message) => Http.TextResponse(Http.Unauthorized, message)
  }

  /** Two unexpected errors answer alike, whatever their causes. */
  lemma UnexpectedCauseIsHidden(a: Error, b: Error)
    ensures PublishErrorResponse(UnexpectedError(a)) == PublishErrorResponse(UnexpectedError(b))
  {
  }

  /** The issue the handler mails, built from the JSON body. */
  function IssueOf(body: BodyData): Issue {
    Issue(body.title, body.content.html, body.content.text)
  }

  /** What one call does: its result and the e-mails it hands to the transport, in order. */
  datatype Publication = Publication(result: Result<Http.StatusCode, PublishError>, sent: seq<Email>)

  /**
   * The handler against the committed subscriptions `rows`; `queryFault`
   * stands for a failure of the subscriber query, and `transport(attempt + i)`
   * for the outcome of the i-th send of this call.
   */
  function Publish(loggedIn: bool, body: BodyData, rows: seq<Subscriptions.SubscriptionRow>, parseEmail: Subscriptions.EmailParser,
                   queryFault: Option<string>, transport: nat -> SendOutcome, attempt: nat): (p: Publication)
    ensures !loggedIn ==> p == Publication(Err(Unauthenticated(PleaseLogIn)), [])
    ensures loggedIn && queryFault.Some? ==> p.sent == [] && p.result.Err? && p.result.error.UnexpectedError?
    ensures p.result.Ok? ==> p.result.value == Http.StatusOk
    ensures loggedIn && queryFault.None? ==>
      var d := Deliver(GetConfirmedSubscribers(rows, parseEmail), IssueOf(body), transport, attempt);
      && p.sent == d.sent
      && (p.result.Ok? <==> d.failure.None?)
      && (d.failure.Some? ==> p.result == Err(UnexpectedError(SendError(d.failure.value))))
  {
    if !loggedIn then Publication(Err(Unauthenticated(PleaseLogIn)), [])
    else if queryFault.Some? then Publication(Err(UnexpectedError(Leaf(queryFault.value))), [])
    else
      var d := Deliver(GetConfirmedSubscribers(rows, parseEmail), IssueOf(body), transport, attempt);
      match d.failure
      case Some(failure) => Publication(Err(UnexpectedError(SendError(failure))), d.sent)
      case None => Publication(Ok(Http.StatusOk), d.sent)
  }

  /** What the client sees: the bare 200, or the error's response. */
  function HandlerResponse(r: Result<Http.StatusCode, PublishError>): Http.Response {
    match r
    case Ok(status) => Http.StatusOnly(status)
    case Err(e) => PublishErrorResponse(e)
  }

  /** Any unexpected error reaches the client as the same plain 500. */
  lemma UnexpectedErrorAnswers500(r: Result<Http.StatusCode, PublishError>)
    requires r.Err? && r.error.UnexpectedError?
    ensures HandlerResponse(r) == Http.TextResponse(Http.InternalServerError, Subscriptions.SomethingWentWrong)
  {
  }

  /** A caller without a session gets 401 "Please log in." and no one is mailed. */
  lemma UnauthenticatedSendsNothing(body: BodyData, rows: seq<Subscriptions.SubscriptionRow>, parseEmail: Subscriptions.EmailParser,
                                    queryFault: Option<string>, transport: nat -> SendOutcome, attempt: nat)
    ensures var p := Publish(false, body, rows, parseEmail, queryFault, transport, attempt);
      p.sent == [] && HandlerResponse(p.result) == Http.TextResponse(Http.Unauthorized, PleaseLogIn)
  {
  }

  /**
   * With every send succeeding, a logged-in call mails each confirmed
   * subscriber whose address parses, once and in query order, and answers 200.
   */
  lemma PublishReachesEveryConfirmedSubscriber(body: BodyData, rows: seq<Subscriptions.SubscriptionRow>, parseEmail: Subscriptions.EmailParser,
                                               transport: nat -> SendOutcome, attempt: nat)
    requires forall n :: attempt <= n < attempt + |Recipients(GetConfirmedSubscribers(rows, parseEmail))| ==> transport(n).Delivered?
    ensures var p := Publish(true, body, rows, parseEmail, None, transport, attempt);
      && p.sent == Letters(Recipients(GetConfirmedSubscribers(rows, parseEmail)), IssueOf(body))
      && HandlerResponse(p.result) == Http.StatusOnly(Http.StatusOk)
  {
    DeliverWhenAllSucceed(GetConfirmedSubscribers(rows, parseEmail), IssueOf(body), transport, attempt);
  }

  /** Subscribers who never confirmed receive nothing, and the call still succeeds. */
  lemma UnconfirmedSubscribersReceiveNothing(body: BodyData, rows: seq<Subscriptions.SubscriptionRow>, parseEmail: Subscriptions.EmailParser,
                                             transport: nat -> SendOutcome, attempt: nat)
    requires forall i :: 0 <= i < |rows| ==> rows[i].status != Subscriptions.Confirmed
    ensures Publish(true, body, rows, parseEmail, None, transport, attempt) == Publication(Ok(Http.StatusOk), [])
  {
    NoRecipientsNoSends(GetConfirmedSubscribers(rows, parseEmail), IssueOf(body), transport, attempt);
  }

  /**
   * A failed send answers 500 "Something went wrong" and nobody after the
   * failing recipient is mailed.
   */
  lemma SendFailureStopsTheLoop(body: BodyData, rows: seq<Subscriptions.SubscriptionRow>, parseEmail: Subscriptions.EmailParser,
                                transport: nat -> SendOutcome, attempt: nat)
    requires var recipients := Recipients(GetConfirmedSubscribers(rows, parseEmail));
      FirstFailure(transport, attempt, |recipients|) < |recipients|
    ensures var recipients := Recipients(GetConfirmedSubscribers(rows, parseEmail));
      var k := FirstFailure(transport, attempt, |recipients|);
      var p := Publish(true, body, rows, parseEmail, None, transport, attempt);
      && p.sent == Letters(recipients[..k + 1], IssueOf(body))
      && HandlerResponse(p.result) == Http.TextResponse(Http.InternalServerError, Subscriptions.SomethingWentWrong)
  {
    var entries := GetConfirmedSubscribers(rows, parseEmail);
    var p := Publish(true, body, rows, parseEmail, None, transport, attempt);
    DeliverStopsAtFailure(entries, IssueOf(body), transport, attempt);
    UnexpectedErrorAnswers500(p.result);
  }

  /** `pubslish_newsletters_handler` against the subscriber store and the e-mail client. */
  method PublishNewslettersHandler(loggedIn: bool, body: BodyData, parseEmail: Subscriptions.EmailParser, db: Subscriptions.SubscriberStore,
                                   client: EmailClient, queryFault: Option<string>)
    returns (r: Result<Http.StatusCode, PublishError>)
    modifies client
    ensures var p := Publish(loggedIn, body, db.subscriptions, parseEmail, queryFault, client.transport, |old(client.requests)|);
      r == p.result && client.requests == old(client.requests) + p.sent
  {
    if !loggedIn {
      return Err(Unauthenticated(PleaseLogIn));
    }
    if queryFault.Some? {
      return Err(UnexpectedError(Leaf(queryFault.value)));
    }
    var subscribers := GetConfirmedSubscribers(db.subscriptions, parseEmail);
    var failure := SendIssue(subscribers, IssueOf(body), client);
    if failure.Some? {
      return Err(UnexpectedError(SendError(failure.value)));
    }
    r := Ok(Http.StatusOk);
  }
}
