# zero2prod newsletter service: a Dafny model of its core

This project models the request handlers and storage logic of a newsletter
service written in Rust with axum and sqlx. It covers the following parts:

- **Sign-up.** `subscribe_handler` validates the form and inserts a pending
  subscriber and a 25-character confirmation token in one transaction. It then
  mails the confirmation link.
- **Confirmation.** `subscriptions_confirm_handler` looks the token up and sets
  that subscriber's status to `confirmed`.
- **Idempotency store.** This is the `idempotency` table.
  - `try_processing` claims a (user, key) pair with an insert-if-absent, or
    replays the saved response.
  - `save_response` stores status, header pairs and body in the claimed row and
    commits.
  - `get_saved_response` rebuilds the response.
- **Publishing.** There are two handlers.
  - The admin form (`publish_newsletters_handler`) has a session gate, a key
    check, a replay, the fan-out, and the save.
  - The older JSON endpoint (`pubslish_newsletters_handler`) has no key.
  - Both send one e-mail per confirmed subscriber whose address parses, in
    the order the query returns them, and stop at the first failed send.
- **Configuration.** The `APP_ENVIRONMENT` selector (`local` / `production`,
  case-insensitive, unset meaning `local`) and the SSL choice of the connection
  options.

## How the code's behaviour is represented

- **Database.** Tables are Dafny values held by classes whose methods update
  them: `SubscriberStore` for `subscriptions` and `subscription_tokens`, and
  `IdempotencyStore` for `idempotency`.
- **Transactions.** A transaction is a value that holds its uncommitted rows.
  - Committing merges those rows into the store.
  - Dropping the transaction (an early `?` return) leaves the store as it was.
- **Storage failures.** Each storage step that can fail takes an
  `Option<string>` fault. `None` means the step succeeds; `Some(m)` means it
  fails with message `m`.
- **E-mail.** The `EmailClient` class keeps a log of every e-mail handed to
  the transport. It also holds an oracle, `transport(n)`, that gives the
  outcome of the n-th call.
- **Outside inputs.** These are parameters of the model:
  - the clock;
  - `Uuid::new_v4`;
  - the random alphanumeric draws;
  - the session's user id;
  - the e-mail and idempotency-key validators.

No issue table, delivery queue or background worker appears in this code:
delivery happens inline, inside the request, and the model follows that.

## Model

| member | source | states |
|---|---|---|
| Configuration.ToLowercase | src/configuration.rs:70 | same length, each character folded, result has no upper-case letter |
| Configuration.AsStr | src/configuration.rs:58-65 | the name of each environment is a non-empty lower-case string |
| Configuration.TryFrom | src/configuration.rs:67-78 | Ok exactly when the lowered input is "local" or "production"; the Ok value's name is the lowered input; otherwise the error is the lowered input followed by the "is not a supported environment" text |
| Configuration.LowercaseIsIdentityOnLowercase | src/configuration.rs:70 | lowering an already lower-case string changes nothing |
| Configuration.AsStrRoundTrip | src/configuration.rs:58-72 | parsing the name of an environment gives that environment back |
| Configuration.TryFromInvertsAsStr | src/configuration.rs:58-78 | parsing gives `e` if and only if the lowered input is the name of `e` |
| Configuration.TryFromIgnoresCase | src/configuration.rs:67-72 | "PRODUCTION" and "Local" are accepted |
| Configuration.EnvironmentFromVariable | src/configuration.rs:14-17 | an unset variable gives Local; a set one is parsed |
| Configuration.WithoutDb | src/configuration.rs:82-94 | SSL mode is Require if and only if the settings require SSL; host, user, password and port are copied; no database is named |
| Configuration.WithDb | src/configuration.rs:96-100 | the settings' database is named, and every other option is that of WithoutDb |
| SubscriberNames.AsRef | src/domain/subscriber_name.rs:29-33 | the wrapped string; when it is a valid name, parsing it gives the same name back |
| SubscriberNames.TrimStart | src/domain/subscriber_name.rs:8 | the result is a suffix of the input; everything dropped is white space; the result does not start with white space |
| SubscriberNames.TrimEnd | src/domain/subscriber_name.rs:8 | the result is a prefix of the input; everything dropped is white space; the result does not end with white space |
| SubscriberNames.TrimIsEmptyIffBlank | src/domain/subscriber_name.rs:8 | a trimmed name is empty if and only if every character is white space |
| SubscriberNames.ContainsForbidden | src/domain/subscriber_name.rs:19-20 | true if and only if some character is one of the nine forbidden ones |
| SubscriberNames.Parse | src/domain/subscriber_name.rs:7-26 | Ok if and only if the name is not blank, has at most 256 graphemes and no forbidden character; Ok keeps the input unchanged; Err is "{s} is not a valid subscriber name." |
| SubscriberNames.LengthLimitExamples | src/domain/subscriber_name.rs:38-48 | 256 letters are accepted, 257 rejected |
| SubscriberNames.BlankExamples | src/domain/subscriber_name.rs:50-60 | "" and " " are rejected |
| SubscriberNames.ForbiddenExamples | src/domain/subscriber_name.rs:62-68 | each forbidden character alone is rejected |
| SubscriberNames.LettersAndSpacesAreValid | src/domain/subscriber_name.rs:7-26 | any name of at most 256 letters and spaces that is not all spaces is accepted, leading and trailing spaces included |
| SubscriberNames.ValidNameExample | src/domain/subscriber_name.rs:70-74 | "Ursula Le Guin" is accepted |
| EmailClients.EmailClient.SendEmail | src/routes/subscriptions.rs:128-130 | the e-mail is appended to the transport log and the outcome is the transport's answer for that attempt |
| Subscriptions.SubscriberStore.Commit | src/routes/subscriptions.rs:65-68 | on success every row of the transaction is appended to the tables; on failure nothing changes |
| Subscriptions.Transaction.Begin | src/routes/subscriptions.rs:50-54 | a new transaction holds no rows |
| Subscriptions.Transaction.InsertSubscriber | src/routes/subscriptions.rs:85-103 | adds one pending row with the new id, the e-mail, the name and the time, and returns the id; on failure adds nothing |
| Subscriptions.Transaction.StoreToken | src/routes/subscriptions.rs:145-157 | adds one token row for the subscriber; on failure the error reads "A Database failure was encountered…" with the driver error as its source |
| Subscriptions.NewSubscriberFromForm | src/routes/subscriptions.rs:25-33 | Ok if and only if both name and e-mail parse; a bad name is reported before a bad e-mail; Ok keeps both values |
| Subscriptions.GenerateSubscriptionToken | src/routes/subscriptions.rs:133-139 | 25 characters, each an ASCII letter or digit |
| Subscriptions.ConfirmationLink | src/routes/subscriptions.rs:115-116 | the token is exactly what follows `http://{base_url}/subscriptions/confirm?subscription_token=` in the link |
| Subscriptions.PlainBody | src/routes/subscriptions.rs:118-121 | the link is exactly the text between the fixed greeting and the fixed closing sentence of the plain-text body |
| Subscriptions.HtmlBody | src/routes/subscriptions.rs:123-126 | the link is exactly the anchor's `href` text between the fixed parts of the HTML body |
| Subscriptions.ConfirmationEmail | src/routes/subscriptions.rs:128-130 | addressed to the new subscriber with subject "Welcome!", and both bodies carry the confirmation link for the token |
| Subscriptions.ConfirmationLinksAgree | src/routes/subscriptions.rs:115-126 | for every recipient, the plain and the HTML body carry the same confirmation link, and the token can be read back from that link |
| Subscriptions.SubscribeErrorResponse | src/routes/subscriptions.rs:186-202 | a validation error gives 400 with its message; anything else gives 500 "Something went wrong" |
| Subscriptions.SubscribeResponse | src/routes/subscriptions.rs:44-79 | 200 exactly when the handler returns Ok, with no headers and an empty body; a validation error gives 400 with its message; any other error gives 500 "Something went wrong" |
| Subscriptions.ErrorChainFmt | src/routes/subscriptions.rs:173-184 | the error, a blank line, then one "Caused by" entry per source in chain order |
| Subscriptions.PersistSubscriber | src/routes/subscriptions.rs:50-68 | fails if and only if a storage step fails; on failure neither row is stored; on success both the pending row and its token are stored |
| Subscriptions.SubscribeHandler | src/routes/subscriptions.rs:44-79 | invalid form: 400 and nothing stored or sent. Storage failure: 500 and nothing stored or sent. Otherwise the subscriber and token are stored, exactly one confirmation e-mail is sent, and the result is Ok if and only if that send succeeded |
| SubscriptionsConfirm.GetSubscriberIdFromToken | src/routes/subscriptions_confirm.rs:57-74 | None if and only if no token row matches; otherwise the subscriber id of the first matching row |
| SubscriptionsConfirm.ConfirmRows | src/routes/subscriptions_confirm.rs:43-47 | exactly the rows with the given id become confirmed; all others are unchanged |
| SubscriptionsConfirm.ConfirmSubscriber | src/routes/subscriptions_confirm.rs:42-55 | the table becomes ConfirmRows of the old one, or is unchanged on failure; tokens are untouched |
| SubscriptionsConfirm.Confirm | src/routes/subscriptions_confirm.rs:17-40 | lookup failure gives 500; unknown token gives 401; update failure gives 500; otherwise 200 with the token's subscriber confirmed and every other row unchanged |
| SubscriptionsConfirm.SubscriptionsConfirmHandler | src/routes/subscriptions_confirm.rs:17-40 | status and new table are those of Confirm on the old tables; tokens unchanged |
| SubscriptionsConfirm.ConfirmTwice | src/routes/subscriptions_confirm.rs:44-47 | confirming again with the same token returns 200 again and changes nothing |
| SubscriptionsConfirm.ConfirmIsAStateTransition | src/routes/subscriptions_confirm.rs:43-47 | rows stay pending or confirmed, confirmed rows stay confirmed, and no other field changes |
| SubscriptionsConfirm.SignUpThenConfirm | src/routes/subscriptions_confirm.rs:22-38 | a pending row stored with a fresh token is confirmed, with 200, by that token |
| Idempotency.AsI16 | src/idempotency/persistence.rs:69 | same sixteen bits: congruent modulo 2^16, and unchanged below 2^15 |
| Idempotency.StatusFromColumn | src/idempotency/persistence.rs:48 | a stored value reads back as a status if and only if it lies in 100..999, and then as itself |
| Idempotency.StatusColumnRoundTrip | src/idempotency/persistence.rs:69 | storing a status and reading it back gives the same status |
| Idempotency.ToRecords | src/idempotency/persistence.rs:70-78 | one record per header field, in iteration order, with the value as raw bytes |
| Idempotency.FromRecords | src/idempotency/persistence.rs:49-52 | one header per record, in record order |
| Idempotency.Encode | src/idempotency/persistence.rs:65-97 | the status is stored unchanged as an `i16`, one record per header field with its name and value bytes in order, and the body bytes unchanged |
| Idempotency.Decode | src/idempotency/persistence.rs:47-53 | Ok exactly when the stored status lies in 100..999; a negative value fails the `i16` conversion, any other with "invalid status code"; Ok keeps the status, every header record in order, and the body |
| Idempotency.DecodeEncode | src/idempotency/persistence.rs:65-97 | a saved response reads back unchanged: status, header sequence and body |
| Idempotency.EncodeDecode | src/idempotency/persistence.rs:47-53 | columns that decode are exactly the encoding of what they decode to |
| Idempotency.ReadRow | src/idempotency/persistence.rs:25-57 | Ok(None) if and only if there is no row for (user, key); a row still in progress fails on the NULL column; a row holding a response returns its decoding, or passes the decoding error through; a returned response is exactly what the row holds |
| Idempotency.Claim | src/idempotency/persistence.rs:105-134 | starts processing if and only if no row exists, and the transaction then holds exactly the new row; otherwise replays the saved response, or fails with "We expected a saved response, we didn't find it." |
| Idempotency.Saved | src/idempotency/persistence.rs:80-98 | only the (user, key) row and the transaction's own rows change; the (user, key) row then reads back as the saved response; a row exists afterwards only if the table or the transaction had one |
| Idempotency.ClaimThenSaveKeepsCompleted | src/idempotency/persistence.rs:105-127 | if every committed row holds a valid response, that stays true after a claim followed by a save |
| Idempotency.ClaimOnCompletedTable | src/idempotency/persistence.rs:128-133 | against such a table, a claim never fails |
| Idempotency.ClaimSaveReplay | src/idempotency/persistence.rs:105-134 | claim, save, then a second claim of the same key replays the saved response |
| Idempotency.IdempotencyStore.GetSavedResponse | src/idempotency/persistence.rs:25-57 | returns ReadRow of the committed table |
| Idempotency.IdempotencyStore.SaveResponse | src/idempotency/persistence.rs:59-103 | returns the response unchanged and commits Saved; on failure the table is unchanged |
| Idempotency.IdempotencyStore.TryProcessing | src/idempotency/persistence.rs:105-134 | returns Claim of the committed table; the committed table does not change |
| Idempotency.CollectHeaderRecords | src/idempotency/persistence.rs:70-78 | the push loop builds ToRecords of the headers |
| Idempotency.RebuildHeaders | src/idempotency/persistence.rs:49-52 | the builder loop yields FromRecords of the records |
| NewsletterDelivery.GetConfirmedSubscribers | src/routes/admin/newsletters/post.rs:101-116 | at most one entry per row; none if no row is confirmed; each entry is the parse of a confirmed row's address |
| NewsletterDelivery.GetConfirmedSubscribersAppend | src/routes/admin/newsletters/post.rs:105-115 | an added row adds its parsed entry at the end exactly when it is confirmed, so the query is an order-preserving filter |
| NewsletterDelivery.DeliverSendsAPrefix | src/routes/admin/newsletters/post.rs:70-89 | the recipients whose address parsed are mailed in query order, up to and including the first failed send, and no one after it |
| NewsletterDelivery.DeliverReportsFirstFailure | src/routes/admin/newsletters/post.rs:72-79 | a failure is reported if and only if some send fails, naming the first recipient it failed for |
| NewsletterDelivery.DeliverStopsAtFailure | src/routes/admin/newsletters/post.rs:70-89 | when some send fails, everyone up to and including that recipient is mailed, and a failure is reported |
| NewsletterDelivery.DeliverWhenAllSucceed | src/routes/admin/newsletters/post.rs:70-89 | when every send succeeds, each recipient receives the issue exactly once and no failure is reported |
| NewsletterDelivery.NoRecipientsNoSends | src/routes/admin/newsletters/post.rs:81-87 | without a parsable confirmed subscriber nothing is sent |
| NewsletterDelivery.SendError | src/routes/admin/newsletters/post.rs:77-79 | the message names the recipient ("Failed to send newsletter issue to …") and the transport's error is its only cause |
| NewsletterDelivery.SendIssue | src/routes/admin/newsletters/post.rs:70-89 | the loop appends to the transport log exactly the sends of Deliver, and returns its failure |
| Newsletters.PublishErrorResponse | src/routes/newsletters.rs:99-115 | unexpected error gives 500 "Something went wrong"; Unauthenticated gives 401 with its message |
| Newsletters.UnexpectedCauseIsHidden | src/routes/newsletters.rs:101-109 | two unexpected errors produce the same response |
| Newsletters.UnexpectedErrorAnswers500 | src/routes/newsletters.rs:101-109 | any unexpected error reaches the client as 500 "Something went wrong" |
| Newsletters.Publish | src/routes/newsletters.rs:38-80 | no session: 401 and no sends. Query failure: 500 and no sends. Otherwise the sends are those of Deliver, and the result is 200 if and only if no send failed |
| Newsletters.UnauthenticatedSendsNothing | src/routes/newsletters.rs:43-79 | without a session the response is 401 "Please log in." and nothing is sent |
| Newsletters.PublishReachesEveryConfirmedSubscriber | src/routes/newsletters.rs:49-76 | with every send succeeding, each parsed confirmed subscriber is mailed once in order with title, html and text, and the response is 200 |
| Newsletters.UnconfirmedSubscribersReceiveNothing | src/routes/newsletters.rs:86-96 | with no confirmed row, nothing is sent and the response is 200 |
| Newsletters.SendFailureStopsTheLoop | src/routes/newsletters.rs:51-65 | a failed send gives 500, and only the recipients up to the failing one were mailed |
| Newsletters.PublishNewslettersHandler | src/routes/newsletters.rs:38-80 | result and sends are those of Publish for the committed rows |
| AdminNewsletters.PublishErrorResponse | src/routes/admin/newsletters/post.rs:118-135 | 500 with a fixed message; 401 and 400 with theirs |
| AdminNewsletters.Published | src/routes/admin/newsletters/post.rs:91 | 303 with location /admin/newsletters and an empty body |
| AdminNewsletters.Process | src/routes/admin/newsletters/post.rs:68-95 | query failure: no sends. Send failure: 500, nothing saved. Save failure: 500 after the flash. Success: redirect, flash, and the response saved through the given transaction |
| AdminNewsletters.PublishAsWritten | src/routes/admin/newsletters/post.rs:45-99 | no session: 401, no sends. Bad key: 400, no sends. A failed lookup: 400 with its message, no sends. A saved response: replayed with the flash, no sends, table unchanged. No row: the result, flashes, table and sends are those of Process with an empty transaction, so a failed query or send gives 500 with nothing saved and full success gives the redirect. Any send happens only for a logged-in user, a valid key and no saved row |
| AdminNewsletters.Publish | src/routes/admin/newsletters/post.rs:45-99 | same gate and key check; a send happens only when the claim finds no row for (user, key) |
| AdminNewsletters.FirstSubmission | src/routes/admin/newsletters/post.rs:90-95 | a fresh key with everything succeeding: everyone mailed once, redirect, flash, and the redirect saved under (user, key) |
| AdminNewsletters.PublishIsIdempotent | tests/api/newsletter.rs:125-160 | after a submission has a response, a resubmission with the same key replays it, flashes, sends nothing and leaves the table unchanged |
| AdminNewsletters.AsWrittenSavesNothing | src/routes/admin/newsletters/post.rs:92-94 | as written, a fresh key leaves the idempotency table unchanged |
| AdminNewsletters.AsWrittenSendsTwice | tests/api/newsletter.rs:125-160 | as written, two identical submissions mail one confirmed subscriber twice |
| AdminNewsletters.PublishSendsOnce | tests/api/newsletter.rs:125-160 | with the claim in place, the same two submissions mail that subscriber once |
| AdminNewsletters.SendFailureLeavesKeyFree | src/routes/admin/newsletters/post.rs:77-79 | a failed send in the corrected handler gives 500 and commits nothing, so the key is still free |
| AdminNewsletters.UnexpectedErrorAnswers500 | src/routes/admin/newsletters/post.rs:121-128 | any unexpected error reaches the client as 500 "Something went wrong" |
| AdminNewsletters.PublishNewslettersHandlerAsWritten | src/routes/admin/newsletters/post.rs:45-99 | result, flashes, table and sends are those of PublishAsWritten |
| AdminNewsletters.PublishNewslettersHandler | src/routes/admin/newsletters/post.rs:45-99 | result, flashes, table and sends are those of the corrected Publish |
| AdminNewsletters.Fanout | src/routes/admin/newsletters/post.rs:68-95 | result, flashes, table and sends are those of Process |

## Left out

- Concurrency. The model is sequential. Exactly-once under concurrent
  duplicate submissions depends on the table's uniqueness constraint, on
  `ON CONFLICT DO NOTHING` and on transaction isolation.
  `tests/api/newsletter.rs:162-192` is not captured.
- `SubscriberEmail::parse`, `IdempotencyKey::try_from` and
  `EmailClient::send_email` are not part of this model. The first two enter as
  parameters; the transport's outcomes enter as the oracle.
- Configuration.ToLowercase: folds ASCII letters only, not full Unicode
  lowercasing.
- Configuration.EnvironmentFromVariable: its `None` stands for every
  `env::var` error (src/configuration.rs:14-15), so a set value that is not
  valid Unicode also falls back to "local". Where it returns `Err`,
  `get_configuration` panics through `expect` (src/configuration.rs:17); the
  panic itself is not modelled.
- Query order. `SELECT email FROM subscriptions WHERE status = 'confirmed'`
  has no `ORDER BY` (src/routes/admin/newsletters/post.rs:106,
  src/routes/newsletters.rs:87). The model takes the rows in table order; that
  order is its own choice, not something the database promises.
- SubscriberNames.GraphemeCount: counts characters, not extended grapheme
  clusters.
- Idempotency.ToRecords: follows the header sequence in order. It does not
  model that axum's `HeaderMap` iterates values grouped by name.
- Idempotency.ReadRow: assumes the response builder accepts every stored
  header name and value. Builder failures are not modelled.
- Idempotency.IdempotencyStore.SaveResponse: a `to_bytes` body-collection
  failure (src/idempotency/persistence.rs:66) is not told apart from a
  storage error; the method's `fault` parameter stands for both.
- Sessions and logging. The session-store call and its `expect` panic are
  left out; the session enters as a boolean or an optional user id.
- Tracing and log output, including the warning for a skipped subscriber.
- `get_configuration` (file and environment loading through the `config`
  crate).
- The statement logging that `with_db` turns on.
- axum's 422 rejections of malformed forms, which come from the framework and
  not from this code.
- Formatter failures in `error_chain_fmt`.
- Sign-up ordering. The token is drawn after the insert. Since the draws are
  inputs, the order does not affect the result.
- The flash-message store. It is modelled as the list of messages queued in
  one request.
- Schema constraints other than the idempotency primary key (user, key).
  They are not part of this model.
- HTML pages, login, logout and password change.

## Findings

| source | as written | input that shows it | evidently intended | confidence | as-written member | corrected member |
|---|---|---|---|---|---|---|
| src/routes/admin/newsletters/post.rs:61-94 | The handler only looks the key up; it never claims it with `try_processing`. `save_response` gets the pool, so the save's UPDATE finds no row and nothing is stored. | One confirmed subscriber, every send succeeding, the same form submitted twice with the same key: the subscriber is mailed twice. | Claim the key first, replay on `ReturnSavedResponse`, and save in the transaction the claim returned. This gives one mail in total, as tests/api/newsletter.rs:125-160 expects. | not executed; the file also passes a pool where `save_response` takes a transaction | AdminNewsletters.AsWrittenSendsTwice | AdminNewsletters.PublishSendsOnce |
