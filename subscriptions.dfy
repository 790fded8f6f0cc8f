/**
 * Sign-up (src/routes/subscriptions.rs): validate the form, insert a pending
 * subscriber and its confirmation token in one transaction, then mail the
 * confirmation link.
 */
module Subscriptions {
  import opened Wrappers
  import opened Http
  import opened Uuids
  import opened Errors
  import opened EmailClients
  import opened SubscriberNames

  datatype SubscriptionRow = SubscriptionRow(id: Uuid, email: string, name: string, subscribedAt: int, status: string)

  datatype TokenRow = TokenRow(subscriptionToken: string, subscriberId: Uuid)

  const PendingConfirmation := "pending_confirmation"
  const Confirmed := "confirmed"

  /** The `subscriptions` and `subscription_tokens` tables, rows in storage order. */
  class SubscriberStore {
    var subscriptions: seq<SubscriptionRow>
    var tokens: seq<TokenRow>

    constructor ()
      ensures subscriptions == [] && tokens == []
    {
      subscriptions, tokens := [], [];
    }

    /** Make the transaction's rows visible, all of them or, on failure, none. */
    method Commit(transaction: Transaction, fault: Option<string>) returns (r: Result<(), Error>)
      modifies this
      ensures fault.Some? ==> r == Err(Leaf(fault.value)) && subscriptions == old(subscriptions) && tokens == old(tokens)
      ensures fault.None? ==>
        r == Ok(()) && subscriptions == old(subscriptions) + transaction.subscriptions
        && tokens == old(tokens) + transaction.tokens
    {
      if fault.Some? {
        return Err(Leaf(fault.value));
      }
      subscriptions := subscriptions + transaction.subscriptions;
      tokens := tokens + transaction.tokens;
      r := Ok(());
    }
  }

  const StoreTokenFailure := "A Database failure was encountered while trying to store a subscription token."

  /** An open transaction: the rows it has inserted and not yet committed. */
  class Transaction {
    var subscriptions: seq<SubscriptionRow>
    var tokens: seq<TokenRow>

    constructor Begin()
      ensures subscriptions == [] && tokens == []
    {
      subscriptions, tokens := [], [];
    }

    /** `insert_subscriber`: one pending row under the freshly drawn id. */
    method InsertSubscriber(subscriber: NewSubscriber, id: Uuid, now: int, fault: Option<string>) returns (r: Result<Uuid, Error>)
      modifies this
      ensures fault.Some? ==> r == Err(Leaf(fault.value)) && subscriptions == old(subscriptions)
      ensures fault.None? ==>
        r == Ok(id)
        && subscriptions == old(subscriptions) + [SubscriptionRow(id, subscriber.email, AsRef(subscriber.name), now, PendingConfirmation)]
      ensures tokens == old(tokens)
    {
      if fault.Some? {
        return Err(Leaf(fault.value));
      }
      subscriptions := subscriptions + [SubscriptionRow(id, subscriber.email, AsRef(subscriber.name), now, PendingConfirmation)];
      r := Ok(id);
    }

    /** `store_token`: link the token to the subscriber; a failure is a `StoreTokenError`. */
    method StoreToken(subscriberId: Uuid, token: string, fault: Option<string>) returns (r: Result<(), Error>)
      modifies this
      ensures fault.Some? ==> r == Err(Error(StoreTokenFailure, Some(Leaf(fault.value)))) && tokens == old(tokens)
      ensures fault.None? ==> r == Ok(()) && tokens == old(tokens) + [TokenRow(token, subscriberId)]
      ensures subscriptions == old(subscriptions)
    {
      if fault.Some? {
        return Err(Error(StoreTokenFailure, Some(Leaf(fault.value))));
      }
      tokens := tokens + [TokenRow(token, subscriberId)];
      r := Ok(());
    }
  }

  datatype FormData = FormData(email: string, name: string)

  /** A subscriber whose name and e-mail address have both been validated. */
  datatype NewSubscriber = NewSubscriber(email: string, name: SubscriberName)

  /**
   * `SubscriberEmail::parse` is not part of this model; it is passed in as a
   * function returning the accepted address or an error message.
   */
  type EmailParser = string -> Result<string, string>

  /** `TryFrom<FormData> for NewSubscriber`: the name is checked first, then the e-mail. */
  function NewSubscriberFromForm(form: FormData, parseEmail: EmailParser): (r: Result<NewSubscriber, string>)
    ensures r.Ok? <==> Parse(form.name).Ok? && parseEmail(form.email).Ok?
    ensures Parse(form.name).Err? ==> r == Err(Parse(form.name).error)
    ensures Parse(form.name).Ok? && parseEmail(form.email).Err? ==> r == Err(parseEmail(form.email).error)
    ensures r.Ok? ==> AsRef(r.value.name) == form.name && r.value.email == parseEmail(form.email).value
  {
    match Parse(form.name)
    case Err(e) => Err(e)
    case Ok(name) =>
      match parseEmail(form.email)
      case Err(e) => Err(e)
      case Ok(email) => Ok(NewSubscriber(email, name))
  }

  /** One draw of the `Alphanumeric` distribution: a position in its alphabet. */
  type AlphanumericSample = x: nat | x < 62

  /** The alphabet of `rand::distr::Alphanumeric`: A-Z, then a-z, then 0-9. */
  function AlphanumericChar(i: AlphanumericSample): char {
    if i < 26 then ('A' as int + i) as char
    else if i < 52 then ('a' as int + i - 26) as char
    else ('0' as int + i - 52) as char
  }

  predicate IsAsciiAlphanumeric(c: char) {
    'A' <= c <= 'Z' || 'a' <= c <= 'z' || '0' <= c <= '9'
  }

  const TokenLength := 25

  /**
   * `generate_subscription_token`: the first 25 draws of the random stream,
   * which the caller supplies.
   */
  function GenerateSubscriptionToken(samples: seq<AlphanumericSample>): (token: string)
    requires |samples| >= TokenLength
    ensures |token| == TokenLength
    ensures forall i :: 0 <= i < |token| ==> IsAsciiAlphanumeric(token[i])
  {
    seq(TokenLength, i requires 0 <= i < TokenLength => AlphanumericChar(samples[i]))
  }

  const ConfirmPath := "/subscriptions/confirm?subscription_token="

  /** The link mailed to a new subscriber: the token is what follows the confirmation path. */
  function ConfirmationLink(baseUrl: string, token: string): (link: string)
    ensures Between(link, "http://" + baseUrl + ConfirmPath, "") == Some(token)
  {
    BetweenOf("http://" + baseUrl + ConfirmPath, token, "");
    assert "http://" + baseUrl + ConfirmPath + token + "" == "http://" + baseUrl + ConfirmPath + token;
    "http://" + baseUrl + ConfirmPath + token
  }

  const PlainPrefix := "Welcome to our newsletter! \n\n             Visit "
  const PlainSuffix := " to confirm your subscription."
  const HtmlPrefix := "Welcome to our newsletter!<br /> Click <a href=\""
  const HtmlSuffix := "\" here </a> to confirm your subscription."

  /** The plain-text body; the link can be read back from between the fixed texts. */
  function PlainBody(link: string): (body: string)
    ensures Between(body, PlainPrefix, PlainSuffix) == Some(link)
  {
    BetweenOf(PlainPrefix, link, PlainSuffix);
    PlainPrefix + link + PlainSuffix
  }

  /** The HTML body; the link can be read back from inside the anchor's `href`. */
  function HtmlBody(link: string): (body: string)
    ensures Between(body, HtmlPrefix, HtmlSuffix) == Some(link)
  {
    BetweenOf(HtmlPrefix, link, HtmlSuffix);
    HtmlPrefix + link + HtmlSuffix
  }

  const WelcomeSubject := "Welcome!"

  /** The message `send_confirmation_email` hands to the e-mail client. */
  function ConfirmationEmail(recipient: string, baseUrl: string, token: string): (email: Email)
    ensures email.recipient == recipient && email.subject == WelcomeSubject
    ensures Between(email.text, PlainPrefix, PlainSuffix) == Some(ConfirmationLink(baseUrl, token))
    ensures Between(email.html, HtmlPrefix, HtmlSuffix) == Some(ConfirmationLink(baseUrl, token))
  {
    var link := ConfirmationLink(baseUrl, token);
    Email(recipient, WelcomeSubject, HtmlBody(link), PlainBody(link))
  }

  /** The text strictly between a known prefix and a known suffix, if `s` has both. */
  function Between(s: string, prefix: string, suffix: string): (r: Option<string>)
    ensures r.Some? ==> s == prefix + r.value + suffix
  {
    if |prefix| + |suffix| <= |s| && s[..|prefix|] == prefix && s[|s| - |suffix|..] == suffix then
      assert s == s[..|prefix|] + s[|prefix|..|s| - |suffix|] + s[|s| - |suffix|..];
      Some(s[|prefix|..|s| - |suffix|])
    else None
  }

  lemma BetweenOf(prefix: string, middle: string, suffix: string)
    ensures Between(prefix + middle + suffix, prefix, suffix) == Some(middle)
  {
    var s := prefix + middle + suffix;
    assert s[..|prefix|] == prefix;
    assert s[|s| - |suffix|..] == suffix;
    assert s[|prefix|..|s| - |suffix|] == middle;
  }

  /**
   * Both bodies of the confirmation e-mail carry the same link, and the token
   * can be read back from it.
   */
  lemma ConfirmationLinksAgree(recipient: string, baseUrl: string, token: string)
    ensures var email := ConfirmationEmail(recipient, baseUrl, token);
      && Between(email.text, PlainPrefix, PlainSuffix) == Some(ConfirmationLink(baseUrl, token))
      && Between(email.html, HtmlPrefix, HtmlSuffix) == Some(ConfirmationLink(baseUrl, token))
      && Between(ConfirmationLink(baseUrl, token), "http://" + baseUrl + ConfirmPath, "") == Some(token)
  {
    var link := ConfirmationLink(baseUrl, token);
    BetweenOf(PlainPrefix, link, PlainSuffix);
    BetweenOf(HtmlPrefix, link, HtmlSuffix);
    BetweenOf("http://" + baseUrl + ConfirmPath, token, "");
    assert "http://" + baseUrl + ConfirmPath + token + "" == link;
  }

  datatype SubscribeError = ValidationError(message: string) | UnexpectedError(error: Error)

  const SomethingWentWrong := "Something went wrong"

  /** `SubscribeError::into_response`: a validation failure explains itself, anything else is a generic 500. */
  function SubscribeErrorResponse(e: SubscribeError): (r: Response)
    ensures e.ValidationError? ==> r == TextResponse(BadRequest, e.message)
    ensures e.UnexpectedError? ==> r == TextResponse(InternalServerError, SomethingWentWrong)
  {
    match e
    case ValidationError(rejection) => TextResponse(BadRequest, rejection)
    case UnexpectedError(_) => TextResponse(InternalServerError, SomethingWentWrong)
  }

  /**
   * The HTTP response of the sign-up handler's result: 200 with an empty body
   * exactly on success, 400 with the validation message, and a 500 that hides
   * the cause of any other error.
   */
  function SubscribeResponse(r: Result<(), SubscribeError>): (response: Response)
    ensures response.status == StatusOk <==> r.Ok?
    ensures r.Ok? ==> response.headers == [] && response.body == []
    ensures r.Err? && r.error.ValidationError? ==> response == TextResponse(BadRequest, r.error.message)
    ensures r.Err? && r.error.UnexpectedError? ==> response == TextResponse(InternalServerError, SomethingWentWrong)
  {
    match r
    case Ok(_) => StatusOnly(StatusOk)
    case Err(e) => SubscribeErrorResponse(e)
  }

  /** The text `error_chain_fmt` writes for the causes, nearest first. */
  function CauseLines(messages: seq<string>): string {
    if messages == [] then "" else "Caused by:\n\t" + messages[0] + "\n" + CauseLines(messages[1..])
  }

  /**
   * `error_chain_fmt`: the error, a blank line, then one "Caused by" entry per
   * source in chain order.
   */
  method ErrorChainFmt(e: Error) returns (out: string)
    ensures out == e.message + "\n\n" + CauseLines(Sources(e.source))
  {
    out := e.message + "\n\n";
    var current := e.source;
    while current.Some?
      invariant out + CauseLines(Sources(current)) == e.message + "\n\n" + CauseLines(Sources(e.source))
      decreases current
    {
      var cause := current.value;
      assert Sources(current) == [cause.message] + Sources(cause.source);
      out := out + "Caused by:\n\t" + cause.message + "\n";
      current := cause.source;
    }
  }

  datatype SubscribeFaults = SubscribeFaults(
    begin: Option<string>, insert: Option<string>, storeToken: Option<string>, commit: Option<string>)

  predicate StorageFails(faults: SubscribeFaults) {
    faults.begin.Some? || faults.insert.Some? || faults.storeToken.Some? || faults.commit.Some?
  }

  const AcquireContext := "Failed to acquire a Postgres connection from the pool"
  const InsertContext := "Failed to insert subscriber in the database"
  const StoreTokenContext := "Failed to store the confirmation token in the database"
  const CommitContext := "Failed to commit SQL transaction to store a new subscriber"
  const SendContext := "Failed to send a confirmation email."

  /**
   * The transactional part of `subscribe_handler`: begin, insert the pending
   * subscriber, store its token, commit. Either both rows become visible or
   * neither does.
   */
  method PersistSubscriber(db: SubscriberStore, subscriber: NewSubscriber, newId: Uuid, now: int, token: string, faults: SubscribeFaults)
    returns (r: Result<(), Error>)
    modifies db
    ensures r.Err? <==> StorageFails(faults)
    ensures r.Err? ==> db.subscriptions == old(db.subscriptions) && db.tokens == old(db.tokens)
    ensures r.Ok? ==>
      && db.subscriptions == old(db.subscriptions)
           + [SubscriptionRow(newId, subscriber.email, AsRef(subscriber.name), now, PendingConfirmation)]
      && db.tokens == old(db.tokens) + [TokenRow(token, newId)]
  {
    if faults.begin.Some? {
      return Err(Context(AcquireContext, Leaf(faults.begin.value)));
    }
    var transaction := new Transaction.Begin();
    var inserted := transaction.InsertSubscriber(subscriber, newId, now, faults.insert);
    if inserted.Err? {
      return Err(Context(InsertContext, inserted.error));
    }
    var subscriberId := inserted.value;
    var stored := transaction.StoreToken(subscriberId, token, faults.storeToken);
    if stored.Err? {
      return Err(Context(StoreTokenContext, stored.error));
    }
    var committed := db.Commit(transaction, faults.commit);
    if committed.Err? {
      return Err(Context(CommitContext, committed.error));
    }
    r := Ok(());
  }

  /**
   * `subscribe_handler`. The id (`Uuid::new_v4`), the clock (`Utc::now`) and
   * the random draws are inputs; `faults` says which storage step fails.
   */
  method SubscribeHandler(
    db: SubscriberStore, client: EmailClient, form: FormData, parseEmail: EmailParser,
    baseUrl: string, newId: Uuid, now: int, samples: seq<AlphanumericSample>, faults: SubscribeFaults)
    returns (r: Result<(), SubscribeError>)
    requires |samples| >= TokenLength
    modifies db, client
    ensures var candidate := NewSubscriberFromForm(form, parseEmail);
      candidate.Err? ==>
        && r == Err(ValidationError(candidate.error))
        && db.subscriptions == old(db.subscriptions) && db.tokens == old(db.tokens)
        && client.requests == old(client.requests)
    ensures NewSubscriberFromForm(form, parseEmail).Ok? && StorageFails(faults) ==>
      && r.Err? && r.error.UnexpectedError?
      && db.subscriptions == old(db.subscriptions) && db.tokens == old(db.tokens)
      && client.requests == old(client.requests)
    ensures var candidate := NewSubscriberFromForm(form, parseEmail);
      var token := GenerateSubscriptionToken(samples);
      candidate.Ok? && !StorageFails(faults) ==>
        && db.subscriptions == old(db.subscriptions)
             + [SubscriptionRow(newId, candidate.value.email, form.name, now, PendingConfirmation)]
        && db.tokens == old(db.tokens) + [TokenRow(token, newId)]
        && client.requests == old(client.requests) + [ConfirmationEmail(candidate.value.email, baseUrl, token)]
        && (r.Ok? <==> client.transport(|old(client.requests)|).Delivered?)
        && (r.Err? ==> r.error.UnexpectedError? && r.error.error.message == SendContext)
  {
    var candidate := NewSubscriberFromForm(form, parseEmail);
    if candidate.Err? {
      return Err(ValidationError(candidate.error));
    }
    var subscriber := candidate.value;
    var token := GenerateSubscriptionToken(samples);
    var persisted := PersistSubscriber(db, subscriber, newId, now, token, faults);
    if persisted.Err? {
      return Err(UnexpectedError(persisted.error));
    }
    var outcome := client.SendEmail(ConfirmationEmail(subscriber.email, baseUrl, token));
    if outcome.Failed? {
      return Err(UnexpectedError(Context(SendContext, Leaf(outcome.reason))));
    }
    r := Ok(());
  }
}
