/**
 * Confirmation (src/routes/subscriptions_confirm.rs): the token from the
 * confirmation link names a subscriber, whose row is flipped to "confirmed".
 */
module SubscriptionsConfirm {
  import opened Wrappers
  import opened Http
  import opened Uuids
  import opened Subscriptions

  /**
   * `get_subscriber_id_from_token`: the `subscriber_id` of the first token row
   * that matches, or None if no row does.
   */
  function GetSubscriberIdFromToken(tokens: seq<TokenRow>, token: string): (r: Option<Uuid>)
    ensures r.None? <==> forall i :: 0 <= i < |tokens| ==> tokens[i].subscriptionToken != token
    ensures r.Some? ==>
      exists i :: 0 <= i < |tokens| && tokens[i] == TokenRow(token, r.value)
                  && forall j :: 0 <= j < i ==> tokens[j].subscriptionToken != token
  {
    if tokens == [] then None
    else if tokens[0].subscriptionToken == token then
      assert tokens[0] == TokenRow(token, tokens[0].subscriberId);
      Some(tokens[0].subscriberId)
    else
      var rest := GetSubscriberIdFromToken(tokens[1..], token);
      assert forall i :: 1 <= i < |tokens| ==> tokens[i] == tokens[1..][i - 1];
      if rest.Some? then
        var k :| 0 <= k < |tokens[1..]| && tokens[1..][k] == TokenRow(token, rest.value)
          && forall j :: 0 <= j < k ==> tokens[1..][j].subscriptionToken != token;
        assert tokens[k + 1] == TokenRow(token, rest.value);
        rest
      else rest
  }

  /** The `subscriptions` table after `UPDATE subscriptions SET status = 'confirmed' WHERE id = $1`. */
  function ConfirmRows(rows: seq<SubscriptionRow>, id: Uuid): (r: seq<SubscriptionRow>)
    ensures |r| == |rows|
    ensures forall i :: 0 <= i < |rows| ==>
      r[i] == if rows[i].id == id then rows[i].(status := Confirmed) else rows[i]
  {
    if rows == [] then []
    else
      var head := if rows[0].id == id then rows[0].(status := Confirmed) else rows[0];
      [head] + ConfirmRows(rows[1..], id)
  }

  /** `confirm_subscriber`. */
  method ConfirmSubscriber(db: SubscriberStore, id: Uuid, fault: Option<string>) returns (r: Result<(), string>)
    modifies db
    ensures fault.Some? ==> r == Err(fault.value) && db.subscriptions == old(db.subscriptions)
    ensures fault.None? ==> r == Ok(()) && db.subscriptions == ConfirmRows(old(db.subscriptions), id)
    ensures db.tokens == old(db.tokens)
  {
    if fault.Some? {
      return Err(fault.value);
    }
    db.subscriptions := ConfirmRows(db.subscriptions, id);
    r := Ok(());
  }

  datatype ConfirmFaults = ConfirmFaults(lookup: Option<string>, update: Option<string>)

  const NoFaults := ConfirmFaults(None, None)

  datatype Confirmation = Confirmation(status: StatusCode, subscriptions: seq<SubscriptionRow>)

  /**
   * What `subscriptions_confirm_handler` answers and leaves in the
   * `subscriptions` table: 500 on a database failure, 401 for an unknown
   * token, otherwise 200 with the token's subscriber confirmed.
   */
  function Confirm(rows: seq<SubscriptionRow>, tokens: seq<TokenRow>, token: string, faults: ConfirmFaults): (c: Confirmation)
    ensures faults.lookup.Some? ==> c == Confirmation(InternalServerError, rows)
    ensures faults.lookup.None? && GetSubscriberIdFromToken(tokens, token).None? ==> c == Confirmation(Unauthorized, rows)
    ensures faults.lookup.None? && GetSubscriberIdFromToken(tokens, token).Some? && faults.update.Some? ==>
      c == Confirmation(InternalServerError, rows)
    ensures faults.lookup.None? && GetSubscriberIdFromToken(tokens, token).Some? && faults.update.None? ==>
      && c.status == StatusOk && |c.subscriptions| == |rows|
      && forall i :: 0 <= i < |rows| ==>
           c.subscriptions[i] == if rows[i].id == GetSubscriberIdFromToken(tokens, token).value
                                 then rows[i].(status := Confirmed) else rows[i]
  {
    if faults.lookup.Some? then Confirmation(InternalServerError, rows)
    else match GetSubscriberIdFromToken(tokens, token)
      case None => Confirmation(Unauthorized, rows)
      case Some(id) =>
        if faults.update.Some? then Confirmation(InternalServerError, rows)
        else Confirmation(StatusOk, ConfirmRows(rows, id))
  }

  /** `subscriptions_confirm_handler`. */
  method SubscriptionsConfirmHandler(db: SubscriberStore, token: string, faults: ConfirmFaults) returns (status: StatusCode)
    modifies db
    ensures Confirmation(status, db.subscriptions) == Confirm(old(db.subscriptions), old(db.tokens), token, faults)
    ensures db.tokens == old(db.tokens)
  {
    if faults.lookup.Some? {
      return InternalServerError;
    }
    var id := GetSubscriberIdFromToken(db.tokens, token);
    match id
    case None =>
      return Unauthorized;
    case Some(subscriberId) =>
      var confirmed := ConfirmSubscriber(db, subscriberId, faults.update);
      if confirmed.Err? {
        return InternalServerError;
      }
      status := StatusOk;
  }

  /** Confirming twice with the same token succeeds both times and changes nothing the second time. */
  lemma ConfirmTwice(rows: seq<SubscriptionRow>, tokens: seq<TokenRow>, token: string)
    requires Confirm(rows, tokens, token, NoFaults).status == StatusOk
    ensures var once := Confirm(rows, tokens, token, NoFaults);
      Confirm(once.subscriptions, tokens, token, NoFaults) == once
  {
    var once := Confirm(rows, tokens, token, NoFaults);
    var twice := Confirm(once.subscriptions, tokens, token, NoFaults);
    assert twice.subscriptions == once.subscriptions;
  }

  /** The two states of a subscriber. */
  ghost predicate StatusesValid(rows: seq<SubscriptionRow>) {
    forall i :: 0 <= i < |rows| ==> rows[i].status == PendingConfirmation || rows[i].status == Confirmed
  }

  /**
   * Confirmation keeps every row in one of the two states, only moves rows
   * from pending to confirmed, and never touches a row's id, e-mail or name.
   */
  lemma ConfirmIsAStateTransition(rows: seq<SubscriptionRow>, tokens: seq<TokenRow>, token: string, faults: ConfirmFaults)
    requires StatusesValid(rows)
    ensures var after := Confirm(rows, tokens, token, faults).subscriptions;
      && StatusesValid(after) && |after| == |rows|
      && forall i :: 0 <= i < |rows| ==>
           && after[i].(status := rows[i].status) == rows[i]
           && (rows[i].status == Confirmed ==> after[i].status == Confirmed)
  {
  }

  /**
   * Sign-up then confirmation: a pending row stored together with a fresh
   * token is confirmed by a request carrying that token.
   */
  lemma SignUpThenConfirm(rows: seq<SubscriptionRow>, tokens: seq<TokenRow>, row: SubscriptionRow, token: string)
    requires row.status == PendingConfirmation
    requires forall i :: 0 <= i < |tokens| ==> tokens[i].subscriptionToken != token
    ensures var c := Confirm(rows + [row], tokens + [TokenRow(token, row.id)], token, NoFaults);
      c.status == StatusOk && c.subscriptions[|rows|] == row.(status := Confirmed)
  {
    var tokens' := tokens + [TokenRow(token, row.id)];
    assert tokens'[|tokens|].subscriptionToken == token;
    var found := GetSubscriberIdFromToken(tokens', token);
    assert found == Some(row.id) by {
      var k :| 0 <= k < |tokens'| && tokens'[k] == TokenRow(token, found.value);
      assert k == |tokens|;
    }
  }
}
