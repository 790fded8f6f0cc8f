/**
 * The admin publish form, `publish_newsletters_handler`: a session gate, the
 * idempotency-key check, the replay of a saved response, the fan-out, and
 * the save of the redirect under (user, key).
 *
 * `PublishAsWritten` follows the handler as it stands: it reads the table
 * through the pool and saves through a transaction that never claimed the
 * key. `Publish` is the handler with the claim in place, as
 * `try_processing` is meant to be used.
 */
module AdminNewsletters {
  import opened Wrappers
  import Http
  import opened Uuids
  import opened Errors
  import opened EmailClients
  import Subscriptions
  import opened NewsletterDelivery
  import opened Idempotency

  datatype FormData = FormData(title: string, html: string, text: string, idempotencyKey: string)

  datatype PublishError = UnexpectedError(error: Error) | Unauthenticated(message: string) | ValidationError(message: string)

  /** `IdempotencyKey::try_from`, whose rules are not part of this model. */
  type KeyParser = string -> Result<IdempotencyKey, string>

  const PleaseLogIn := "Please log in."
  const PublishedMessage := "The newsletter issue has been published!"
  const NewslettersPage := "/admin/newsletters"

  /** `IntoResponse for PublishError`: 500 hides its cause, 401 and 400 show their message. */
  function PublishErrorResponse(e: PublishError): (r: Http.Response)
    ensures r.status == match e
      case UnexpectedError(_) => Http.InternalServerError
      case Unauthenticated(_) => Http.Unauthorized
      case ValidationError(_) => Http.BadRequest
    ensures r.body == Http.Utf8(if e.UnexpectedError? then Subscriptions.SomethingWentWrong else e.message)
  {
    match e
    case UnexpectedError(_) => Http.TextResponse(Http.InternalServerError, Subscriptions.SomethingWentWrong)
    case Unauthenticated(message) => Http.TextResponse(Http.Unauthorized, message)
    case ValidationError(message) => Http.TextResponse(Http.BadRequest, message)
  }

  /** What the client sees: the handler's response, or the error's. */
  function HandlerResponse(r: Result<Http.Response, PublishError>): Http.Response {
    match r
    case Ok(response) => response
    case Err(e) => PublishErrorResponse(e)
  }

  /** The redirect a successful publication answers with. */
  function Published(): (r: Http.Response)
    ensures r.status == Http.SeeOther && r.body == []
    ensures r.headers == [("location", Http.Utf8(NewslettersPage))]
  {
    Http.RedirectTo(NewslettersPage)
  }

  function IssueOf(form: FormData): Issue {
    Issue(form.title, form.html, form.text)
  }

  /** The storage steps that can fail, each with the error it would report. */
  datatype StorageFaults = StorageFaults(read: Option<string>, query: Option<string>, save: Option<string>)

  const NoFaults := StorageFaults(None, None, None)

  /**
   * What one submission does: its result, the flash messages it queues, the
   * committed idempotency table afterwards, and the e-mails it hands to the
   * transport, in order.
   */
  datatype Publication = Publication(
    result: Result<Http.Response, PublishError>,
    flashes: seq<string>,
    table: Table,
    sent: seq<Email>)

  /**
   * After the key is settled: query the confirmed subscribers, mail them, and
   * on success save the redirect through `transaction` and commit. The flash
   * is queued before the save, so a failed save still flashes.
   */
  function Process(form: FormData, key: IdempotencyKey, user: Uuid, transaction: Transaction, rows: seq<Subscriptions.SubscriptionRow>,
                   parseEmail: Subscriptions.EmailParser, faults: StorageFaults, table: Table,
                   transport: nat -> SendOutcome, attempt: nat): (p: Publication)
    ensures faults.query.Some? ==> p.sent == [] && p.table == table && p.result.Err? && p.result.error.UnexpectedError?
    ensures faults.query.None? ==>
      var d := Deliver(GetConfirmedSubscribers(rows, parseEmail), IssueOf(form), transport, attempt);
      && p.sent == d.sent
      && (d.failure.Some? ==> p == Publication(Err(UnexpectedError(SendError(d.failure.value))), [], table, d.sent))
      && (d.failure.None? && faults.save.Some? ==>
            p.result.Err? && p.result.error.UnexpectedError? && p.flashes == [PublishedMessage] && p.table == table)
      && (d.failure.None? && faults.save.None? ==>
            p == Publication(Ok(Published()), [PublishedMessage], Saved(table, transaction, key, user, Published()), d.sent))
  {
    if faults.query.Some? then Publication(Err(UnexpectedError(Leaf(faults.query.value))), [], table, [])
    else
      var d := Deliver(GetConfirmedSubscribers(rows, parseEmail), IssueOf(form), transport, attempt);
      if d.failure.Some? then Publication(Err(UnexpectedError(SendError(d.failure.value))), [], table, d.sent)
      else if faults.save.Some? then Publication(Err(UnexpectedError(Leaf(faults.save.value))), [PublishedMessage], table, d.sent)
      else Publication(Ok(Published()), [PublishedMessage], Saved(table, transaction, key, user, Published()), d.sent)
  }

  /**
   * The handler as written: the saved response is looked up through the
   * pool, and the save runs in a transaction of its own, which sees only
   * the committed rows.
   */
  function PublishAsWritten(userId: Option<Uuid>, form: FormData, parseKey: KeyParser, rows: seq<Subscriptions.SubscriptionRow>,
                            parseEmail: Subscriptions.EmailParser, faults: StorageFaults, table: Table,
                            transport: nat -> SendOutcome, attempt: nat): (p: Publication)
    ensures userId.None? ==> p == Publication(Err(Unauthenticated(PleaseLogIn)), [], table, [])
    ensures userId.Some? && parseKey(form.idempotencyKey).Err? ==>
      p == Publication(Err(ValidationError(parseKey(form.idempotencyKey).error)), [], table, [])
    ensures p.sent != [] ==>
      userId.Some? && parseKey(form.idempotencyKey).Ok? && faults.read.None?
      && ReadRow(table, parseKey(form.idempotencyKey).value, userId.value) == Ok(None)
    ensures userId.Some? && parseKey(form.idempotencyKey).Ok? && faults.read.Some? ==>
      p == Publication(Err(ValidationError(faults.read.value)), [], table, [])
    ensures userId.Some? && parseKey(form.idempotencyKey).Ok? && faults.read.None? ==>
      var lookup := ReadRow(table, parseKey(form.idempotencyKey).value, userId.value);
      && (lookup.Err? ==> p == Publication(Err(ValidationError(lookup.error)), [], table, []))
      && (lookup.Ok? && lookup.value.Some? ==> p == Publication(Ok(lookup.value.value), [PublishedMessage], table, []))
      && (lookup == Ok(None) && faults.query.None? ==>
            p.sent == Deliver(GetConfirmedSubscribers(rows, parseEmail), IssueOf(form), transport, attempt).sent)
    // A fresh key is processed with an empty transaction of its own, so the
    // result on that path (500 on a query or send failure with nothing saved,
    // the redirect on success) is the one Process states.
    ensures userId.Some? && parseKey(form.idempotencyKey).Ok? && faults.read.None?
            && ReadRow(table, parseKey(form.idempotencyKey).value, userId.value) == Ok(None) ==>
      p == Process(form, parseKey(form.idempotencyKey).value, userId.value, Transaction(map[]), rows, parseEmail,
                   faults, table, transport, attempt)
  {
    match userId
    case None => Publication(Err(Unauthenticated(PleaseLogIn)), [], table, [])
    case Some(user) =>
      match parseKey(form.idempotencyKey)
      case Err(e) => Publication(Err(ValidationError(e)), [], table, [])
      case Ok(key) =>
        var lookup: Result<Option<Http.Response>, string> := if faults.read.Some? then Err(faults.read.value) else ReadRow(table, key, user);
        match lookup
        case Err(e) => Publication(Err(ValidationError(e)), [], table, [])
        case Ok(Some(saved)) => Publication(Ok(saved), [PublishedMessage], table, [])
        case Ok(None) => Process(form, key, user, Transaction(map[]), rows, parseEmail, faults, table, transport, attempt)
  }

  /**
   * The handler with the key claimed first: `try_processing` either replays
   * the saved response or opens the transaction that holds the new row, and
   * the save commits the response into that row.
   */
  function Publish(userId: Option<Uuid>, form: FormData, parseKey: KeyParser, rows: seq<Subscriptions.SubscriptionRow>,
                   parseEmail: Subscriptions.EmailParser, faults: StorageFaults, table: Table,
                   transport: nat -> SendOutcome, attempt: nat, now: int): (p: Publication)
    ensures userId.None? ==> p == Publication(Err(Unauthenticated(PleaseLogIn)), [], table, [])
    ensures userId.Some? && parseKey(form.idempotencyKey).Err? ==>
      p == Publication(Err(ValidationError(parseKey(form.idempotencyKey).error)), [], table, [])
    ensures p.sent != [] ==>
      userId.Some? && parseKey(form.idempotencyKey).Ok? && faults.read.None?
      && (userId.value, parseKey(form.idempotencyKey).value) !in table
  {
    match userId
    case None => Publication(Err(Unauthenticated(PleaseLogIn)), [], table, [])
    case Some(user) =>
      match parseKey(form.idempotencyKey)
      case Err(e) => Publication(Err(ValidationError(e)), [], table, [])
      case Ok(key) =>
        match Claim(table, key, user, now, faults.read)
        case Err(e) => Publication(Err(UnexpectedError(Leaf(e))), [], table, [])
        case Ok(ReturnSavedResponse(saved)) => Publication(Ok(saved), [PublishedMessage], table, [])
        case Ok(StartProcessing(transaction)) =>
          Process(form, key, user, transaction, rows, parseEmail, faults, table, transport, attempt)
  }

  /** With every send succeeding, each parsed confirmed recipient is mailed once, in query order. */
  ghost predicate AllSendsSucceed(rows: seq<Subscriptions.SubscriptionRow>, parseEmail: Subscriptions.EmailParser,
                                  transport: nat -> SendOutcome, attempt: nat)
  {
    forall n :: attempt <= n < attempt + |Recipients(GetConfirmedSubscribers(rows, parseEmail))| ==> transport(n).Delivered?
  }

  /**
   * A first submission under a fresh key, with every storage step and every
   * send succeeding: the handler mails everyone once, redirects, flashes,
   * and the corrected handler leaves the redirect saved under (user, key).
   */
  lemma FirstSubmission(user: Uuid, form: FormData, parseKey: KeyParser, rows: seq<Subscriptions.SubscriptionRow>,
                        parseEmail: Subscriptions.EmailParser, table: Table, transport: nat -> SendOutcome, attempt: nat, now: int)
    requires parseKey(form.idempotencyKey).Ok? && (user, parseKey(form.idempotencyKey).value) !in table
    requires AllSendsSucceed(rows, parseEmail, transport, attempt)
    ensures var p := Publish(Some(user), form, parseKey, rows, parseEmail, NoFaults, table, transport, attempt, now);
      && p.result == Ok(Published())
      && p.flashes == [PublishedMessage]
      && p.sent == Letters(Recipients(GetConfirmedSubscribers(rows, parseEmail)), IssueOf(form))
      && ReadRow(p.table, parseKey(form.idempotencyKey).value, user) == Ok(Some(Published()))
  {
    var key := parseKey(form.idempotencyKey).value;
    DeliverWhenAllSucceed(GetConfirmedSubscribers(rows, parseEmail), IssueOf(form), transport, attempt);
    var transaction := Claim(table, key, user, now, None).value.transaction;
    assert (user, key) in Saved(table, transaction, key, user, Published());
  }

  /**
   * What the corrected handler promises: once a submission has produced a
   * response, any later submission by the same user with the same key text,
   * whatever its other fields, replays that response, mails no one and
   * leaves the table as it was.
   */
  lemma PublishIsIdempotent(user: Uuid, form: FormData, again: FormData, parseKey: KeyParser,
                                               rows: seq<Subscriptions.SubscriptionRow>, parseEmail: Subscriptions.EmailParser,
                                               table: Table, transport: nat -> SendOutcome, attempt: nat, later: nat,
                                               now: int, retry: int, rows2: seq<Subscriptions.SubscriptionRow>)
    requires again.idempotencyKey == form.idempotencyKey
    requires Publish(Some(user), form, parseKey, rows, parseEmail, NoFaults, table, transport, attempt, now).result.Ok?
    ensures var first := Publish(Some(user), form, parseKey, rows, parseEmail, NoFaults, table, transport, attempt, now);
      var second := Publish(Some(user), again, parseKey, rows2, parseEmail, NoFaults, first.table, transport, later, retry);
      && second.result == first.result
      && second.flashes == [PublishedMessage]
      && second.sent == []
      && second.table == first.table
  {
    var key := parseKey(form.idempotencyKey).value;
    var first := Publish(Some(user), form, parseKey, rows, parseEmail, NoFaults, table, transport, attempt, now);
    match Claim(table, key, user, now, None)
    case Ok(ReturnSavedResponse(saved)) =>
      assert first.table == table;
    case Ok(StartProcessing(transaction)) =>
      ClaimSaveReplay(table, key, user, now, retry, Published());
  }

  /**
   * The handler as written stores nothing when the key is fresh: the save's
   * transaction cannot see a row for the key, so its UPDATE matches nothing.
   */
  lemma AsWrittenSavesNothing(user: Uuid, form: FormData, parseKey: KeyParser, rows: seq<Subscriptions.SubscriptionRow>,
                              parseEmail: Subscriptions.EmailParser, table: Table, transport: nat -> SendOutcome, attempt: nat)
    requires parseKey(form.idempotencyKey).Ok? && (user, parseKey(form.idempotencyKey).value) !in table
    ensures PublishAsWritten(Some(user), form, parseKey, rows, parseEmail, NoFaults, table, transport, attempt).table == table
  {
    var key := parseKey(form.idempotencyKey).value;
    var d := Deliver(GetConfirmedSubscribers(rows, parseEmail), IssueOf(form), transport, attempt);
    if d.failure.None? {
      assert Saved(table, Transaction(map[]), key, user, Published()) == table;
    }
  }

  /** The subscriber rows of the idempotency scenario: one confirmed subscriber. */
  const OneSubscriber := [Subscriptions.SubscriptionRow(0, "ursula@example.com", "le guin", 0, Subscriptions.Confirmed)]

  function AcceptAll(s: string): Result<string, string> { Ok(s) }

  function AlwaysDelivered(n: nat): SendOutcome { Delivered }

  const Scenario := FormData("Newsletter title", "<p>Newsletter body as HTML</p>", "Newsletter body as plain text", "key")

  /**
   * Two submissions of the same form by the same user, every send
   * succeeding: the handler as written mails the subscriber twice.
   */
  lemma AsWrittenSendsTwice(parseKey: KeyParser)
    requires parseKey(Scenario.idempotencyKey) == Ok("key")
    ensures var first := PublishAsWritten(Some(1), Scenario, parseKey, OneSubscriber, AcceptAll, NoFaults, map[], AlwaysDelivered, 0);
      var second := PublishAsWritten(Some(1), Scenario, parseKey, OneSubscriber, AcceptAll, NoFaults, first.table, AlwaysDelivered, 1);
      && first.result == Ok(Published()) && second.result == Ok(Published())
      && |first.sent| + |second.sent| == 2
  {
    var entries := GetConfirmedSubscribers(OneSubscriber, AcceptAll);
    assert entries == [Ok(ConfirmedSubscriber("ursula@example.com"))] by {
      assert OneSubscriber[1..] == [];
    }
    assert Recipients(entries) == ["ursula@example.com"] by {
      assert entries[1..] == [];
    }
    AsWrittenSavesNothing(1, Scenario, parseKey, OneSubscriber, AcceptAll, map[], AlwaysDelivered, 0);
    DeliverWhenAllSucceed(entries, IssueOf(Scenario), AlwaysDelivered, 0);
    DeliverWhenAllSucceed(entries, IssueOf(Scenario), AlwaysDelivered, 1);
  }

  /** The same two submissions through the corrected handler mail the subscriber once. */
  lemma PublishSendsOnce(parseKey: KeyParser)
    requires parseKey(Scenario.idempotencyKey) == Ok("key")
    ensures var first := Publish(Some(1), Scenario, parseKey, OneSubscriber, AcceptAll, NoFaults, map[], AlwaysDelivered, 0, 0);
      var second := Publish(Some(1), Scenario, parseKey, OneSubscriber, AcceptAll, NoFaults, first.table, AlwaysDelivered, 1, 1);
      && first.result == Ok(Published()) && second.result == Ok(Published())
      && |first.sent| + |second.sent| == 1
  {
    var entries := GetConfirmedSubscribers(OneSubscriber, AcceptAll);
    assert entries == [Ok(ConfirmedSubscriber("ursula@example.com"))] by {
      assert OneSubscriber[1..] == [];
    }
    assert Recipients(entries) == ["ursula@example.com"] by {
      assert entries[1..] == [];
    }
    FirstSubmission(1, Scenario, parseKey, OneSubscriber, AcceptAll, map[], AlwaysDelivered, 0, 0);
    PublishIsIdempotent(1, Scenario, Scenario, parseKey, OneSubscriber, AcceptAll, map[], AlwaysDelivered, 0, 1, 0, 1, OneSubscriber);
  }

  /**
   * A failed send in the corrected handler commits nothing: the claimed row
   * is dropped with its transaction, so a retry under the same key starts
   * over.
   */
  lemma SendFailureLeavesKeyFree(user: Uuid, form: FormData, parseKey: KeyParser, rows: seq<Subscriptions.SubscriptionRow>,
                                 parseEmail: Subscriptions.EmailParser, table: Table, transport: nat -> SendOutcome, attempt: nat, now: int)
    requires parseKey(form.idempotencyKey).Ok? && (user, parseKey(form.idempotencyKey).value) !in table
    requires Deliver(GetConfirmedSubscribers(rows, parseEmail), IssueOf(form), transport, attempt).failure.Some?
    ensures var p := Publish(Some(user), form, parseKey, rows, parseEmail, NoFaults, table, transport, attempt, now);
      && p.table == table
      && HandlerResponse(p.result) == Http.TextResponse(Http.InternalServerError, Subscriptions.SomethingWentWrong)
  {
    var p := Publish(Some(user), form, parseKey, rows, parseEmail, NoFaults, table, transport, attempt, now);
    assert p.result.Err? && p.result.error.UnexpectedError?;
    UnexpectedErrorAnswers500(p.result);
  }

  lemma UnexpectedErrorAnswers500(r: Result<Http.Response, PublishError>)
    requires r.Err? && r.error.UnexpectedError?
    ensures HandlerResponse(r) == Http.TextResponse(Http.InternalServerError, Subscriptions.SomethingWentWrong)
  {
  }

  /**
   * `publish_newsletters_handler` as written, against the idempotency store,
   * the subscriber store and the e-mail client.
   */
  method PublishNewslettersHandlerAsWritten(userId: Option<Uuid>, form: FormData, parseKey: KeyParser, parseEmail: Subscriptions.EmailParser,
                                            store: IdempotencyStore, db: Subscriptions.SubscriberStore, client: EmailClient,
                                            faults: StorageFaults)
    returns (r: Result<Http.Response, PublishError>, flashes: seq<string>)
    modifies store, client
    ensures var p := PublishAsWritten(userId, form, parseKey, db.subscriptions, parseEmail, faults, old(store.table),
                                      client.transport, |old(client.requests)|);
      && r == p.result && flashes == p.flashes
      && store.table == p.table && client.requests == old(client.requests) + p.sent
  {
    flashes := [];
    if userId.None? {
      return Err(Unauthenticated(PleaseLogIn)), flashes;
    }
    var user := userId.value;
    var parsed := parseKey(form.idempotencyKey);
    if parsed.Err? {
      return Err(ValidationError(parsed.error)), flashes;
    }
    var key := parsed.value;
    var lookup: Result<Option<Http.Response>, string>;
    if faults.read.Some? {
      lookup := Err(faults.read.value);
    } else {
      lookup := store.GetSavedResponse(key, user);
    }
    if lookup.Err? {
      return Err(ValidationError(lookup.error)), flashes;
    }
    if lookup.value.Some? {
      flashes := flashes + [PublishedMessage];
      return Ok(lookup.value.value), flashes;
    }
    r, flashes := Fanout(form, key, user, Transaction(map[]), parseEmail, store, db, client, faults);
  }

  /**
   * `publish_newsletters_handler` with the claim: `try_processing` first,
   * then the fan-out and the save in the transaction it returned.
   */
  method PublishNewslettersHandler(userId: Option<Uuid>, form: FormData, parseKey: KeyParser, parseEmail: Subscriptions.EmailParser,
                                   store: IdempotencyStore, db: Subscriptions.SubscriberStore, client: EmailClient,
                                   faults: StorageFaults, now: int)
    returns (r: Result<Http.Response, PublishError>, flashes: seq<string>)
    modifies store, client
    ensures var p := Publish(userId, form, parseKey, db.subscriptions, parseEmail, faults, old(store.table),
                             client.transport, |old(client.requests)|, now);
      && r == p.result && flashes == p.flashes
      && store.table == p.table && client.requests == old(client.requests) + p.sent
  {
    flashes := [];
    if userId.None? {
      return Err(Unauthenticated(PleaseLogIn)), flashes;
    }
    var user := userId.value;
    var parsed := parseKey(form.idempotencyKey);
    if parsed.Err? {
      return Err(ValidationError(parsed.error)), flashes;
    }
    var key := parsed.value;
    var next := store.TryProcessing(key, user, now, faults.read);
    match next {
      case Err(e) =>
        return Err(UnexpectedError(Leaf(e))), flashes;
      case Ok(ReturnSavedResponse(saved)) =>
        flashes := flashes + [PublishedMessage];
        return Ok(saved), flashes;
      case Ok(StartProcessing(transaction)) =>
        r, flashes := Fanout(form, key, user, transaction, parseEmail, store, db, client, faults);
    }
  }

  /** The query, the send loop and the save, shared by both handlers. */
  method Fanout(form: FormData, key: IdempotencyKey, user: Uuid, transaction: Transaction, parseEmail: Subscriptions.EmailParser,
                store: IdempotencyStore, db: Subscriptions.SubscriberStore, client: EmailClient, faults: StorageFaults)
    returns (r: Result<Http.Response, PublishError>, flashes: seq<string>)
    modifies store, client
    ensures var p := Process(form, key, user, transaction, db.subscriptions, parseEmail, faults, old(store.table),
                             client.transport, |old(client.requests)|);
      && r == p.result && flashes == p.flashes
      && store.table == p.table && client.requests == old(client.requests) + p.sent
  {
    flashes := [];
    if faults.query.Some? {
      return Err(UnexpectedError(Leaf(faults.query.value))), flashes;
    }
    ghost var table0 := store.table;
    ghost var requests0 := client.requests;
    var subscribers := GetConfirmedSubscribers(db.subscriptions, parseEmail);
    var failure := SendIssue(subscribers, IssueOf(form), client);
    ghost var d := Deliver(subscribers, IssueOf(form), client.transport, |requests0|);
    assert failure == d.failure && client.requests == requests0 + d.sent;
    if failure.Some? {
      return Err(UnexpectedError(SendError(failure.value))), flashes;
    }
    flashes := flashes + [PublishedMessage];
    var response := Published();
    var saved := store.SaveResponse(transaction, key, user, response, faults.save);
    match saved {
      case Err(e) => r := Err(UnexpectedError(Leaf(e)));
      case Ok(response') => r := Ok(response');
    }
  }
}
