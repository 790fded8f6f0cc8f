/**
 * What both newsletter handlers share: the confirmed-subscriber query and the
 * loop that mails an issue to each subscriber whose stored address parses,
 * skipping the others and stopping at the first failed send.
 */
module NewsletterDelivery {
  import opened Wrappers
  import opened Errors
  import opened EmailClients
  import opened Subscriptions

  datatype ConfirmedSubscriber = ConfirmedSubscriber(email: string)

  /** One result of the query: a usable subscriber, or why its stored address was rejected. */
  type SubscriberEntry = Result<ConfirmedSubscriber, string>

  function ToEntry(parseEmail: EmailParser, email: string): SubscriberEntry {
    match parseEmail(email)
    case Ok(address) => Ok(ConfirmedSubscriber(address))
    case Err(error) => Err(error)
  }

  /**
   * `get_confirmed_subscribers`: `SELECT email FROM subscriptions WHERE
   * status = 'confirmed'`, each address parsed. The query has no `ORDER BY`;
   * the model takes the rows in table order.
   */
  function GetConfirmedSubscribers(rows: seq<SubscriptionRow>, parseEmail: EmailParser): (r: seq<SubscriberEntry>)
    ensures |r| <= |rows|
    ensures (forall i :: 0 <= i < |rows| ==> rows[i].status != Confirmed) ==> r == []
    ensures forall i :: 0 <= i < |r| ==>
      exists j :: 0 <= j < |rows| && rows[j].status == Confirmed && r[i] == ToEntry(parseEmail, rows[j].email)
  {
    if rows == [] then []
    else
      var rest := GetConfirmedSubscribers(rows[1..], parseEmail);
      assert forall j :: 1 <= j < |rows| ==> rows[j] == rows[1..][j - 1];
      if rows[0].status == Confirmed then [ToEntry(parseEmail, rows[0].email)] + rest else rest
  }

  /**
   * The query is an order-preserving filter: a row added at the end adds its
   * entry at the end exactly when it is confirmed.
   */
  lemma {:induction false} GetConfirmedSubscribersAppend(rows: seq<SubscriptionRow>, row: SubscriptionRow, parseEmail: EmailParser)
    ensures GetConfirmedSubscribers(rows + [row], parseEmail)
      == GetConfirmedSubscribers(rows, parseEmail) + (if row.status == Confirmed then [ToEntry(parseEmail, row.email)] else [])
  {
    if rows == [] {
      assert [row][1..] == [];
    } else {
      assert (rows + [row])[1..] == rows[1..] + [row];
      GetConfirmedSubscribersAppend(rows[1..], row, parseEmail);
    }
  }

  datatype Issue = Issue(title: string, html: string, text: string)

  function Letter(recipient: string, issue: Issue): Email {
    Email(recipient, issue.title, issue.html, issue.text)
  }

  function Letters(recipients: seq<string>, issue: Issue): (r: seq<Email>)
    ensures |r| == |recipients|
    ensures forall i :: 0 <= i < |r| ==> r[i] == Letter(recipients[i], issue)
  {
    seq(|recipients|, i requires 0 <= i < |recipients| => Letter(recipients[i], issue))
  }

  /** The addresses the loop will try, in order: those of the entries that parsed. */
  function Recipients(entries: seq<SubscriberEntry>): seq<string> {
    if entries == [] then []
    else if entries[0].Ok? then [entries[0].value.email] + Recipients(entries[1..])
    else Recipients(entries[1..])
  }

  datatype SendFailure = SendFailure(recipient: string, reason: string)

  /** The sends the loop makes, and the failure that stopped it, if any. */
  datatype Delivery = Delivery(sent: seq<Email>, failure: Option<SendFailure>)

  /**
   * The `for subscriber in subscribers` loop, starting at the transport's
   * `attempt`-th call.
   */
  function Deliver(entries: seq<SubscriberEntry>, issue: Issue, transport: nat -> SendOutcome, attempt: nat): Delivery
  {
    if entries == [] then Delivery([], None)
    else match entries[0]
      case Err(_) => Deliver(entries[1..], issue, transport, attempt)
      case Ok(subscriber) =>
        var email := Letter(subscriber.email, issue);
        match transport(attempt)
        case Failed(reason) => Delivery([email], Some(SendFailure(subscriber.email, reason)))
        case Delivered =>
          var rest := Deliver(entries[1..], issue, transport, attempt + 1);
          Delivery([email] + rest.sent, rest.failure)
  }

  /** How many of `count` calls starting at `attempt` succeed before the first failure. */
  function FirstFailure(transport: nat -> SendOutcome, attempt: nat, count: nat): (k: nat)
    ensures k <= count
    ensures forall n :: attempt <= n < attempt + k ==> transport(n).Delivered?
    ensures k < count ==> transport(attempt + k).Failed?
    decreases count
  {
    if count == 0 || transport(attempt).Failed? then 0
    else 1 + FirstFailure(transport, attempt + 1, count - 1)
  }

  /** How many recipients the loop reaches when `k` sends succeed before the first failure. */
  function Reached(k: nat, count: nat): nat {
    if k < count then k + 1 else k
  }

  /**
   * The loop mails the parsed recipients in query order, skipping the
   * unparsable entries, up to and including the first failed send, and
   * contacts no one after it.
   */
  lemma {:induction false} DeliverSendsAPrefix(entries: seq<SubscriberEntry>, issue: Issue, transport: nat -> SendOutcome, attempt: nat)
    ensures var recipients := Recipients(entries);
      Deliver(entries, issue, transport, attempt).sent
        == Letters(recipients[..Reached(FirstFailure(transport, attempt, |recipients|), |recipients|)], issue)
  {
    if entries != [] {
      var rest := entries[1..];
      DeliverSendsAPrefix(rest, issue, transport, attempt + if entries[0].Ok? then 1 else 0);
      if entries[0].Ok? {
        var head := entries[0].value.email;
        var tail := Recipients(rest);
        assert Recipients(entries) == [head] + tail;
        if transport(attempt).Delivered? {
          PrependLetters(head, tail, Reached(FirstFailure(transport, attempt + 1, |tail|), |tail|), issue);
        } else {
          assert ([head] + tail)[..1] == [head];
        }
      }
    }
  }

  /**
   * The failure a loop over `recipients` meets when the transport's calls start
   * at `attempt`: the first recipient whose send fails, with the transport's reason.
   */
  function FailureAt(recipients: seq<string>, transport: nat -> SendOutcome, attempt: nat): Option<SendFailure> {
    var k := FirstFailure(transport, attempt, |recipients|);
    if k < |recipients| then Some(SendFailure(recipients[k], transport(attempt + k).reason)) else None
  }

  /** After a successful first send, the first failure is the first failure among the rest. */
  lemma FailureAtAfterDelivery(head: string, tail: seq<string>, transport: nat -> SendOutcome, attempt: nat)
    requires transport(attempt).Delivered?
    ensures FailureAt([head] + tail, transport, attempt) == FailureAt(tail, transport, attempt + 1)
  {
    var j := FirstFailure(transport, attempt + 1, |tail|);
    assert FirstFailure(transport, attempt, |tail| + 1) == j + 1;
    if j < |tail| {
      assert ([head] + tail)[j + 1] == tail[j];
      assert attempt + (j + 1) == attempt + 1 + j;
    }
  }

  /** The loop reports a failure exactly when some send fails, naming the first recipient it failed for. */
  lemma {:induction false} DeliverReportsFirstFailure(entries: seq<SubscriberEntry>, issue: Issue, transport: nat -> SendOutcome, attempt: nat)
    ensures Deliver(entries, issue, transport, attempt).failure == FailureAt(Recipients(entries), transport, attempt)
  {
    if entries != [] {
      var rest := entries[1..];
      if entries[0].Ok? {
        var head := entries[0].value.email;
        assert Recipients(entries) == [head] + Recipients(rest);
        if transport(attempt).Delivered? {
          DeliverReportsFirstFailure(rest, issue, transport, attempt + 1);
          FailureAtAfterDelivery(head, Recipients(rest), transport, attempt);
        } else {
          assert FirstFailure(transport, attempt, |Recipients(entries)|) == 0;
        }
      } else {
        DeliverReportsFirstFailure(rest, issue, transport, attempt);
      }
    }
  }

  /** When some send fails, the loop mails everyone up to and including that recipient, then reports the failure. */
  lemma DeliverStopsAtFailure(entries: seq<SubscriberEntry>, issue: Issue, transport: nat -> SendOutcome, attempt: nat)
    requires FirstFailure(transport, attempt, |Recipients(entries)|) < |Recipients(entries)|
    ensures var recipients := Recipients(entries);
      var d := Deliver(entries, issue, transport, attempt);
      d.sent == Letters(recipients[..FirstFailure(transport, attempt, |recipients|) + 1], issue) && d.failure.Some?
  {
    DeliverSendsAPrefix(entries, issue, transport, attempt);
    DeliverReportsFirstFailure(entries, issue, transport, attempt);
  }

  lemma PrependLetters(head: string, tail: seq<string>, n: nat, issue: Issue)
    requires n <= |tail|
    ensures Letters(([head] + tail)[..n + 1], issue) == [Letter(head, issue)] + Letters(tail[..n], issue)
  {
    assert ([head] + tail)[..n + 1] == [head] + tail[..n];
  }

  /** When every send succeeds, every parsed recipient receives the issue exactly once, in order. */
  lemma DeliverWhenAllSucceed(entries: seq<SubscriberEntry>, issue: Issue, transport: nat -> SendOutcome, attempt: nat)
    requires forall n :: attempt <= n < attempt + |Recipients(entries)| ==> transport(n).Delivered?
    ensures Deliver(entries, issue, transport, attempt) == Delivery(Letters(Recipients(entries), issue), None)
  {
    DeliverSendsAPrefix(entries, issue, transport, attempt);
    DeliverReportsFirstFailure(entries, issue, transport, attempt);
    var recipients := Recipients(entries);
    assert recipients[..|recipients|] == recipients;
  }

  /** An issue for nobody: with no parsable confirmed subscriber nothing is sent and nothing fails. */
  lemma NoRecipientsNoSends(entries: seq<SubscriberEntry>, issue: Issue, transport: nat -> SendOutcome, attempt: nat)
    requires Recipients(entries) == []
    ensures Deliver(entries, issue, transport, attempt) == Delivery([], None)
  {
    DeliverSendsAPrefix(entries, issue, transport, attempt);
    DeliverReportsFirstFailure(entries, issue, transport, attempt);
  }

  /** The context `with_context` puts on a failed send: it names the recipient and keeps the transport's error as its cause. */
  function SendError(failure: SendFailure): (e: Error)
    ensures e.message == "Failed to send newsletter issue to " + failure.recipient
    ensures Sources(e.source) == [failure.reason]
  {
    Context("Failed to send newsletter issue to " + failure.recipient, Leaf(failure.reason))
  }

  /** The loop itself, against the e-mail client. */
  method SendIssue(entries: seq<SubscriberEntry>, issue: Issue, client: EmailClient) returns (failure: Option<SendFailure>)
    modifies client
    ensures var d := Deliver(entries, issue, client.transport, |old(client.requests)|);
      client.requests == old(client.requests) + d.sent && failure == d.failure
  {
    ghost var attempt0 := |client.requests|;
    ghost var sent: seq<Email> := [];
    var i := 0;
    while i < |entries|
      invariant 0 <= i <= |entries|
      invariant client.requests == old(client.requests) + sent
      invariant |client.requests| == attempt0 + |sent|
      invariant var rest := Deliver(entries[i..], issue, client.transport, attempt0 + |sent|);
        Deliver(entries, issue, client.transport, attempt0) == Delivery(sent + rest.sent, rest.failure)
    {
      assert entries[i..][1..] == entries[i + 1..];
      match entries[i] {
        case Ok(subscriber) =>
          var email := Letter(subscriber.email, issue);
          var outcome := client.SendEmail(email);
          if outcome.Failed? {
            return Some(SendFailure(subscriber.email, outcome.reason));
          }
          sent := sent + [email];
        case Err(_) =>
      }
      i := i + 1;
    }
    assert entries[i..] == [];
    failure := None;
  }
}
