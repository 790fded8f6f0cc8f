/**
 * The idempotency table (src/idempotency/persistence.rs): one row per
 * (user id, idempotency key), claimed by an insert-if-absent and completed
 * with the response that the first request produced.
 */
module Idempotency {
  import opened Wrappers
  import opened Http
  import opened Uuids

  /** The text of a key that has passed `IdempotencyKey` validation. */
  type IdempotencyKey = string

  type RowKey = (Uuid, IdempotencyKey)

  type i16 = x: int | -0x8000 <= x < 0x8000

  /** One element of the `header_pair[]` column. */
  datatype HeaderPairRecord = HeaderPairRecord(name: string, value: seq<byte>)

  /** The three response columns, all set together by `save_response`. */
  datatype SavedColumns = SavedColumns(statusCode: i16, headers: seq<HeaderPairRecord>, body: seq<byte>)

  /** A row; `response` is None while the three response columns are NULL. */
  datatype IdempotencyRow = IdempotencyRow(createdAt: int, response: Option<SavedColumns>)

  type Table = map<RowKey, IdempotencyRow>

  /** An open transaction: the rows it has written and not yet committed. */
  datatype Transaction = Transaction(writes: Table)

  datatype NextAction = StartProcessing(transaction: Transaction) | ReturnSavedResponse(response: Response)

  /**
   * The driver's error for a NULL status column. Its exact text comes from
   * sqlx and is not modelled; this constant only stands for it.
   */
  const UnexpectedNull := "error occurred while decoding column \"response_status_code\": unexpected null; try decoding as an `Option`"
  const OutOfRangeConversion := "out of range integral type conversion attempted"
  const InvalidStatusCode := "invalid status code"
  const MissingSavedResponse := "We expected a saved response, we didn't find it."

  /** `u16 as i16`: the same sixteen bits read as a two's-complement number. */
  function AsI16(u: int): (v: i16)
    requires 0 <= u < 0x1_0000
    ensures v % 0x1_0000 == u
    ensures u < 0x8000 ==> v == u
  {
    if u < 0x8000 then u else u - 0x1_0000
  }

  /** `StatusCode::from_u16(column.try_into()?)?`. */
  function StatusFromColumn(v: i16): (r: Result<StatusCode, string>)
    ensures r.Ok? <==> 100 <= v <= 999
    ensures r.Ok? ==> r.value == v
  {
    if v < 0 then Err(OutOfRangeConversion)
    else if v < 100 || 999 < v then Err(InvalidStatusCode)
    else Ok(v)
  }

  /** Storing a status code and reading it back gives the same code. */
  lemma StatusColumnRoundTrip(s: StatusCode)
    ensures StatusFromColumn(AsI16(s)) == Ok(s)
  {
  }

  /** The header records `save_response` stores: one per field, in iteration order. */
  function ToRecords(headers: seq<HeaderField>): (rs: seq<HeaderPairRecord>)
    ensures |rs| == |headers|
    ensures forall i :: 0 <= i < |rs| ==> rs[i] == HeaderPairRecord(headers[i].0, headers[i].1)
  {
    if headers == [] then []
    else [HeaderPairRecord(headers[0].0, headers[0].1)] + ToRecords(headers[1..])
  }

  /** The header fields `get_saved_response` appends to the builder, in record order. */
  function FromRecords(rs: seq<HeaderPairRecord>): (headers: seq<HeaderField>)
    ensures |headers| == |rs|
    ensures forall i :: 0 <= i < |rs| ==> headers[i] == (rs[i].name, rs[i].value)
  {
    if rs == [] then [] else [(rs[0].name, rs[0].value)] + FromRecords(rs[1..])
  }

  /**
   * What `save_response` writes for a response: the status as its `i16`
   * (unchanged, since every status is below 1000), one record per header
   * field and the body bytes.
   */
  function Encode(response: Response): (columns: SavedColumns)
    ensures columns.statusCode == response.status
    ensures |columns.headers| == |response.headers|
    ensures forall i :: 0 <= i < |columns.headers| ==>
      columns.headers[i].name == response.headers[i].0 && columns.headers[i].value == response.headers[i].1
    ensures columns.body == response.body
  {
    SavedColumns(AsI16(response.status), ToRecords(response.headers), response.body)
  }

  /**
   * How `get_saved_response` rebuilds a response from the stored columns: it
   * succeeds exactly when the stored status is a status code, and then keeps
   * the status, every header record in order and the body.
   */
  function Decode(columns: SavedColumns): (r: Result<Response, string>)
    ensures r.Ok? <==> 100 <= columns.statusCode <= 999
    ensures columns.statusCode < 0 ==> r == Err(OutOfRangeConversion)
    ensures 0 <= columns.statusCode && r.Err? ==> r == Err(InvalidStatusCode)
    ensures r.Ok? ==> r.value.status == columns.statusCode && r.value.body == columns.body
    ensures r.Ok? ==> |r.value.headers| == |columns.headers| && forall i :: 0 <= i < |columns.headers| ==>
      r.value.headers[i] == (columns.headers[i].name, columns.headers[i].value)
  {
    match StatusFromColumn(columns.statusCode)
    case Err(e) => Err(e)
    case Ok(status) => Ok(Response(status, FromRecords(columns.headers), columns.body))
  }

  /** Round trip: a stored response decodes to itself, header order included. */
  lemma DecodeEncode(response: Response)
    ensures Decode(Encode(response)) == Ok(response)
  {
    StatusColumnRoundTrip(response.status);
    assert FromRecords(ToRecords(response.headers)) == response.headers;
  }

  /** And the other way: whatever decodes is exactly what the columns hold. */
  lemma EncodeDecode(columns: SavedColumns)
    requires Decode(columns).Ok?
    ensures Encode(Decode(columns).value) == columns
  {
    assert ToRecords(FromRecords(columns.headers)) == columns.headers;
  }

  /** `get_saved_response` against the committed table. */
  function ReadRow(table: Table, key: IdempotencyKey, user: Uuid): (r: Result<Option<Response>, string>)
    ensures r == Ok(None) <==> (user, key) !in table
    ensures (user, key) in table && table[(user, key)].response.None? ==> r == Err(UnexpectedNull)
    ensures r.Ok? && r.value.Some? ==> table[(user, key)].response == Some(Encode(r.value.value))
    ensures (user, key) in table && table[(user, key)].response.Some? ==>
      var decoded := Decode(table[(user, key)].response.value);
      && (decoded.Ok? ==> r == Ok(Some(decoded.value)))
      && (decoded.Err? ==> r == Err(decoded.error))
  {
    var k := (user, key);
    if k !in table then Ok(None)
    else match table[k].response
      case None => Err(UnexpectedNull)
      case Some(columns) =>
        match Decode(columns)
        case Err(e) => Err(e)
        case Ok(response) =>
          EncodeDecode(columns);
          Ok(Some(response))
  }

  /** `try_processing`: claim the key with an insert-if-absent, or replay the saved response. */
  function Claim(table: Table, key: IdempotencyKey, user: Uuid, now: int, fault: Option<string>): (r: Result<NextAction, string>)
    ensures fault.Some? ==> r == Err(fault.value)
    ensures fault.None? ==> (r.Ok? && r.value.StartProcessing? <==> (user, key) !in table)
    ensures r.Ok? && r.value.StartProcessing? ==>
      r.value.transaction.writes == map[(user, key) := IdempotencyRow(now, None)]
    ensures fault.None? && (user, key) in table ==>
      match ReadRow(table, key, user)
      case Ok(Some(saved)) => r == Ok(ReturnSavedResponse(saved))
      case Ok(None) => r == Err(MissingSavedResponse)
      case Err(e) => r == Err(e)
  {
    var k := (user, key);
    if fault.Some? then Err(fault.value)
    else if k !in table then Ok(StartProcessing(Transaction(map[k := IdempotencyRow(now, None)])))
    else match ReadRow(table, key, user)
      case Err(e) => Err(e)
      case Ok(None) => Err(MissingSavedResponse)
      case Ok(Some(saved)) => Ok(ReturnSavedResponse(saved))
  }

  /**
   * The committed table after `save_response` runs its UPDATE inside
   * `transaction` and commits: the matching row, if the transaction can see
   * one, gets the response; every other row is as before.
   */
  function Saved(table: Table, transaction: Transaction, key: IdempotencyKey, user: Uuid, response: Response): (r: Table)
    ensures (user, key) in r <==> (user, key) in table || (user, key) in transaction.writes
    ensures (user, key) in r ==> ReadRow(r, key, user) == Ok(Some(response))
    ensures forall k :: k != (user, key) && k !in transaction.writes ==>
      (k in r <==> k in table) && (k in table ==> r[k] == table[k])
  {
    var view := table + transaction.writes;
    var k := (user, key);
    DecodeEncode(response);
    if k in view then table + transaction.writes[k := view[k].(response := Some(Encode(response)))]
    else view
  }

  /** Every committed row holds a complete response with a valid status. */
  ghost predicate Completed(table: Table) {
    forall k :: k in table ==> table[k].response.Some? && 100 <= table[k].response.value.statusCode <= 999
  }

  /** A claim followed by a save keeps every row complete: no half-done row is ever committed. */
  lemma ClaimThenSaveKeepsCompleted(table: Table, key: IdempotencyKey, user: Uuid, now: int, response: Response)
    requires Completed(table)
    requires Claim(table, key, user, now, None).Ok? && Claim(table, key, user, now, None).value.StartProcessing?
    ensures Completed(Saved(table, Claim(table, key, user, now, None).value.transaction, key, user, response))
  {
  }

  /** Against a complete table a claim never fails: it starts processing or replays. */
  lemma ClaimOnCompletedTable(table: Table, key: IdempotencyKey, user: Uuid, now: int)
    requires Completed(table)
    ensures Claim(table, key, user, now, None).Ok?
  {
  }

  /** A claim, then a save, then a second claim of the same key replays what was saved. */
  lemma ClaimSaveReplay(table: Table, key: IdempotencyKey, user: Uuid, now: int, later: int, response: Response)
    requires Claim(table, key, user, now, None).Ok? && Claim(table, key, user, now, None).value.StartProcessing?
    ensures Claim(Saved(table, Claim(table, key, user, now, None).value.transaction, key, user, response), key, user, later, None)
      == Ok(ReturnSavedResponse(response))
  {
    var tx := Claim(table, key, user, now, None).value.transaction;
    assert (user, key) in Saved(table, tx, key, user, response);
  }

  class IdempotencyStore {
    /** The committed contents of the `idempotency` table. */
    var table: Table

    constructor ()
      ensures table == map[]
    {
      table := map[];
    }

    /** `get_saved_response`: read the row and rebuild the response header by header. */
    method GetSavedResponse(key: IdempotencyKey, user: Uuid) returns (r: Result<Option<Response>, string>)
      ensures r == ReadRow(table, key, user)
    {
      var k := (user, key);
      if k !in table {
        return Ok(None);
      }
      if table[k].response.None? {
        return Err(UnexpectedNull);
      }
      var columns := table[k].response.value;
      var status := StatusFromColumn(columns.statusCode);
      if status.Err? {
        return Err(status.error);
      }
      var headers := RebuildHeaders(columns.headers);
      r := Ok(Some(Response(status.value, headers, columns.body)));
    }

    /**
     * `save_response`: store the response in the row `transaction` sees for
     * (user, key) and commit. A failure of the UPDATE or of the commit drops
     * the transaction, so nothing of it becomes visible.
     */
    method SaveResponse(transaction: Transaction, key: IdempotencyKey, user: Uuid, response: Response, fault: Option<string>)
      returns (r: Result<Response, string>)
      modifies this
      ensures fault.Some? ==> r == Err(fault.value) && table == old(table)
      ensures fault.None? ==> r == Ok(response) && table == Saved(old(table), transaction, key, user, response)
    {
      if fault.Some? {
        return Err(fault.value);
      }
      var records := CollectHeaderRecords(response.headers);
      var columns := SavedColumns(AsI16(response.status), records, response.body);
      var view := table + transaction.writes;
      var k := (user, key);
      var writes := transaction.writes;
      if k in view {
        writes := writes[k := view[k].(response := Some(columns))];
      }
      table := table + writes;
      r := Ok(response);
    }

    /** `try_processing`: the insert stays in the returned transaction until it commits. */
    method TryProcessing(key: IdempotencyKey, user: Uuid, now: int, fault: Option<string>) returns (r: Result<NextAction, string>)
      ensures r == Claim(table, key, user, now, fault)
    {
      if fault.Some? {
        return Err(fault.value);
      }
      var k := (user, key);
      if k !in table {
        return Ok(StartProcessing(Transaction(map[k := IdempotencyRow(now, None)])));
      }
      var saved := GetSavedResponse(key, user);
      match saved
      case Err(e) => r := Err(e);
      case Ok(None) => r := Err(MissingSavedResponse);
      case Ok(Some(response)) => r := Ok(ReturnSavedResponse(response));
    }
  }

  /** The loop of `save_response` that pushes one record per header field. */
  method CollectHeaderRecords(headers: seq<HeaderField>) returns (h: seq<HeaderPairRecord>)
    ensures h == ToRecords(headers)
  {
    h := [];
    for i := 0 to |headers|
      invariant |h| == i
      invariant forall j :: 0 <= j < i ==> h[j] == HeaderPairRecord(headers[j].0, headers[j].1)
    {
      var (name, value) := headers[i];
      h := h + [HeaderPairRecord(name, value)];
    }
  }

  /** The loop of `get_saved_response` that appends each stored header to the builder. */
  method RebuildHeaders(records: seq<HeaderPairRecord>) returns (headers: seq<HeaderField>)
    ensures headers == FromRecords(records)
  {
    headers := [];
    for i := 0 to |records|
      invariant |headers| == i
      invariant forall j :: 0 <= j < i ==> headers[j] == (records[j].name, records[j].value)
    {
      headers := headers + [(records[i].name, records[i].value)];
    }
  }
}
