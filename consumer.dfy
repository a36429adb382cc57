/** The CDC consumer's normaliser: a TiCDC Canal-JSON row-change record,
    already run through `JSON.parse`, becomes a normalised change event, or
    nothing. */
module Consumer {
  import opened JsValues

  /** The outcome of `JSON.parse` on a message payload. */
  datatype Parsed = Unparseable | Json(v: JsValue)

  /** A normalised change event: `database` and `table` are copied from the
      record, `operation` is its upper-cased `type`, `data` and `oldData`
      (`old_data`) are the first row image or `null`. */
  datatype ChangeEvent = ChangeEvent(database: JsValue, table: JsValue, operation: string,
                                     data: JsValue, oldData: JsValue, timestamp: JsValue)

  /** `record.key && record.key[0] ? record.key[0] : null`. */
  function FirstRow(record: JsValue, key: string): (r: JsValue)
    ensures r == JNull || Truthy(r)
    ensures Get(record, key).JArray? && Get(record, key).items != [] && Truthy(Get(record, key).items[0]) ==>
              r == Get(record, key).items[0]
    ensures Get(record, key).JArray? && Get(record, key).items == [] ==> r == JNull
    ensures !Truthy(Get(record, key)) ==> r == JNull
  {
    var rows := Get(record, key);
    if Truthy(rows) && Truthy(Index0(rows)) then Index0(rows) else JNull
  }

  /** `record.ts || Date.now()`. */
  function Stamp(record: JsValue, now: int): (r: JsValue)
    ensures Truthy(Get(record, "ts")) ==> r == Get(record, "ts")
    ensures !Truthy(Get(record, "ts")) ==> r == JNum(now)
  {
    var ts := Get(record, "ts");
    if Truthy(ts) then ts else JNum(now)
  }

  /** `parseCanalMessage(message)`. A payload that does not parse, and a
      record whose `type`, `database` or `table` is falsy, give nothing; a
      truthy `type` that is not a string makes `toUpperCase` throw, which
      the `catch` also turns into nothing. */
  function ParseCanalMessage(msg: Parsed, now: int): (r: Option<ChangeEvent>)
    ensures msg.Unparseable? ==> r == None
    ensures msg.Json? ==>
      (r.Some? <==> Truthy(Get(msg.v, "type")) && Get(msg.v, "type").JStr?
                    && Truthy(Get(msg.v, "database")) && Truthy(Get(msg.v, "table")))
    ensures r.Some? ==> msg.Json? && WellFormed(r.value)
    ensures r.Some? ==> r.value.database == Get(msg.v, "database") && r.value.table == Get(msg.v, "table")
    ensures r.Some? ==> r.value.operation == ToUpperAscii(Get(msg.v, "type").s)
    ensures r.Some? ==> r.value.data == FirstRow(msg.v, "data") && r.value.oldData == FirstRow(msg.v, "old")
    ensures r.Some? ==> r.value.timestamp == Stamp(msg.v, now)
  {
    match msg
    case Unparseable => None
    case Json(record) =>
      var kind := Get(record, "type");
      if Truthy(kind) && Truthy(Get(record, "database")) && Truthy(Get(record, "table")) then
        if kind.JStr? then
          ToUpperAsciiNormalises(kind.s);
          Some(ChangeEvent(Get(record, "database"), Get(record, "table"), ToUpperAscii(kind.s),
                           FirstRow(record, "data"), FirstRow(record, "old"), Stamp(record, now)))
        else
          None
      else
        None
  }

  /** What every normalised event looks like: truthy `database` and
      `table`, a non-empty operation without lower-case letters, and row
      images that are `null` or truthy. */
  predicate WellFormed(e: ChangeEvent)
  {
    && Truthy(e.database) && Truthy(e.table)
    && e.operation != [] && NoLowerAscii(e.operation)
    && (e.data == JNull || Truthy(e.data))
    && (e.oldData == JNull || Truthy(e.oldData))
  }

  /** The row-image array a Canal record carries for a normalised image. */
  function Rows(image: JsValue): JsValue
  {
    if image == JNull then JArray([]) else JArray([image])
  }

  /** A Canal record that carries exactly the fields of `e`. */
  function ToCanal(e: ChangeEvent): JsValue
  {
    JObject(map["type" := JStr(e.operation), "database" := e.database, "table" := e.table,
                "data" := Rows(e.data), "old" := Rows(e.oldData), "ts" := e.timestamp])
  }

  lemma UpperFixesNormalised(s: string)
    requires NoLowerAscii(s)
    ensures ToUpperAscii(s) == s
  {
  }

  /** Normalising is lossless on normalised events: re-encoding an event as
      a Canal record and parsing it again gives the event back, provided
      its timestamp is truthy (a falsy one is replaced by the clock). */
  lemma CanalRoundTrip(e: ChangeEvent, now: int)
    requires WellFormed(e) && Truthy(e.timestamp)
    ensures ParseCanalMessage(Json(ToCanal(e)), now) == Some(e)
  {
    UpperFixesNormalised(e.operation);
    var record := ToCanal(e);
    assert Get(record, "type") == JStr(e.operation);
    assert FirstRow(record, "data") == e.data;
    assert FirstRow(record, "old") == e.oldData;
  }

  /** Normalising twice is normalising once: the event parsed from a
      record, re-encoded, parses to the same event. */
  lemma ParseIdempotent(msg: Parsed, now: int)
    requires ParseCanalMessage(msg, now).Some?
    requires Truthy(ParseCanalMessage(msg, now).value.timestamp)
    ensures ParseCanalMessage(Json(ToCanal(ParseCanalMessage(msg, now).value)), now) == ParseCanalMessage(msg, now)
  {
    CanalRoundTrip(ParseCanalMessage(msg, now).value, now);
  }

  /** The record of the worked example: an insert of user 1 with no old
      image. */
  function ExampleInsert(): JsValue
  {
    JObject(map["type" := JStr("insert"), "database" := JStr("sre_test"), "table" := JStr("users"),
                "data" := JArray([JObject(map["id" := JNum(1), "username" := JStr("admin")])]),
                "old" := JArray([]), "ts" := JNum(1700000000000)])
  }

  lemma ExampleKeys()
    ensures Get(ExampleInsert(), "type") == JStr("insert")
    ensures Get(ExampleInsert(), "database") == JStr("sre_test")
    ensures Get(ExampleInsert(), "table") == JStr("users")
  {
  }

  lemma ExampleImages(now: int)
    ensures FirstRow(ExampleInsert(), "data") == JObject(map["id" := JNum(1), "username" := JStr("admin")])
    ensures FirstRow(ExampleInsert(), "old") == JNull
    ensures Stamp(ExampleInsert(), now) == JNum(1700000000000)
  {
  }

  lemma UpperInsert()
    ensures ToUpperAscii("insert") == "INSERT"
  {
  }

  lemma ExampleInsertParses(now: int)
    ensures ParseCanalMessage(Json(ExampleInsert()), now)
         == Some(ChangeEvent(JStr("sre_test"), JStr("users"), "INSERT",
                             JObject(map["id" := JNum(1), "username" := JStr("admin")]), JNull,
                             JNum(1700000000000)))
  {
    ExampleKeys();
    ExampleImages(now);
    UpperInsert();
  }

  /** `ts: 0` is falsy, so the clock is used instead. */
  lemma ZeroTimestampFallsBack(record: map<string, JsValue>, now: int)
    requires ParseCanalMessage(Json(JObject(record)), now).Some?
    requires "ts" in record && record["ts"] == JNum(0)
    ensures ParseCanalMessage(Json(JObject(record)), now).value.timestamp == JNum(now)
  {
  }

  /** An empty `old` array gives a `null` old image. */
  lemma EmptyOldIsNull(record: map<string, JsValue>, now: int)
    requires ParseCanalMessage(Json(JObject(record)), now).Some?
    requires "old" in record && record["old"] == JArray([])
    ensures ParseCanalMessage(Json(JObject(record)), now).value.oldData == JNull
  {
  }

  /** A first row image that is itself falsy (say `0` or `""`) is dropped. */
  lemma FalsyRowIsNull(record: map<string, JsValue>, first: JsValue, rest: seq<JsValue>, now: int)
    requires ParseCanalMessage(Json(JObject(record)), now).Some?
    requires "data" in record && record["data"] == JArray([first] + rest) && !Truthy(first)
    ensures ParseCanalMessage(Json(JObject(record)), now).value.data == JNull
  {
  }

  /** Without a table the record is rejected. */
  lemma MissingTableRejected(record: map<string, JsValue>, now: int)
    requires "table" !in record
    ensures ParseCanalMessage(Json(JObject(record)), now) == None
  {
  }

  /** A payload of `null` parses, but `data.type` then throws: the `catch`
      gives null, exactly as a record without `type` does. */
  lemma NullRecordRejected(now: int)
    ensures ParseCanalMessage(Json(JNull), now) == None
    ensures ParseCanalMessage(Json(JNull), now) == ParseCanalMessage(Json(JObject(map[])), now)
  {
  }

  /** An empty `type` string is falsy, so the record is rejected. */
  lemma EmptyTypeRejected(record: map<string, JsValue>, now: int)
    requires "type" in record && record["type"] == JStr("")
    ensures ParseCanalMessage(Json(JObject(record)), now) == None
  {
  }

  /** A numeric `type` has no `toUpperCase`: the exception is caught and the
      record is rejected. */
  lemma NumericTypeRejected(record: map<string, JsValue>, n: int, now: int)
    requires "type" in record && record["type"] == JNum(n)
    ensures ParseCanalMessage(Json(JObject(record)), now) == None
  {
  }

  /** The operation is not checked against INSERT, UPDATE and DELETE: any
      other kind, such as a DDL record's, is forwarded upper-cased. */
  lemma UnknownKindForwarded(now: int)
    ensures ParseCanalMessage(Json(JObject(map["type" := JStr("truncate"), "database" := JStr("d"),
                                               "table" := JStr("t")])), now).value.operation == "TRUNCATE"
  {
    UpperTruncate();
  }

  lemma UpperTruncate()
    ensures ToUpperAscii("truncate") == "TRUNCATE"
  {
  }

  /** One `eachMessage` call: the payload (`None` when the message value is
      `null`, whose `toString` throws) is parsed, and the event is logged
      when there is one. The result is what was logged. */
  function EachMessage(value: Option<Parsed>, now: int): (logged: seq<ChangeEvent>)
    ensures |logged| <= 1
    ensures logged != [] <==> value.Some? && ParseCanalMessage(value.value, now).Some?
    ensures logged != [] ==> logged[0] == ParseCanalMessage(value.value, now).value
  {
    if value.None? then []
    else
      match ParseCanalMessage(value.value, now)
      case None => []
      case Some(event) => [event]
  }
}
