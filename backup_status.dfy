/**
 * The unit status process_pbm_status derives from the JSON status document
 * of the backup tool (pbm): which operation, if any, is running.
 */
module BackupStatus {
  import opened Text
  import opened Results
  import opened Status

  /** A parsed JSON value (numbers are integers here). */
  datatype Json =
    | JNull
    | JBool(b: bool)
    | JNumber(n: int)
    | JString(s: string)
    | JArray(items: seq<Json>)
    | JObject(fields: map<string, Json>)

  /** What `json.loads` makes of the status text: a document, or a decoding failure. */
  datatype PbmText = Parsed(doc: Json) | Malformed

  const Running := "running"
  const ResyncMessage := "waiting to sync s3 configurations."

  /**
   * current_pbm_op: the `running` entry of the document, or the empty string
   * when there is none. Python's `in` on a list tests the elements and on a
   * string the substrings; indexing either of them with a string key, or
   * testing `in` on a number, a boolean or null, raises TypeError.
   */
  function CurrentPbmOp(text: PbmText): (r: Result<Json>)
    ensures text.Malformed? ==> r == Raised(JsonDecodeError)
    ensures text.Parsed? && text.doc.JObject? ==>
      r == Ok(if Running in text.doc.fields then text.doc.fields[Running] else JString(""))
    ensures text.Parsed? && !text.doc.JObject? ==> r.Ok? ==> r.value == JString("")
  {
    match text
    case Malformed => Raised(JsonDecodeError)
    case Parsed(doc) =>
      match doc
      case JObject(fields) => Ok(if Running in fields then fields[Running] else JString(""))
      case JArray(items) => if JString(Running) in items then Raised(TypeError) else Ok(JString(""))
      case JString(s) => if Contains(s, Running) then Raised(TypeError) else Ok(JString(""))
      case _ => Raised(TypeError)
  }

  /**
   * Python's `str` of a JSON value, as the status message embeds it: a
   * string unchanged, an integer in decimal with a minus sign exactly when it
   * is negative, and `None`, `True` or `False` for the other scalars.
   */
  function Str(j: Json): (r: string)
    ensures j.JString? ==> r == j.s
    ensures j.JNumber? ==> |r| >= 1 && (r[0] == '-' <==> j.n < 0)
    ensures j.JNumber? ==> forall i :: (if j.n < 0 then 1 else 0) <= i < |r| ==> '0' <= r[i] <= '9'
    ensures j.JNumber? && j.n >= 0 ==> DigitsValue(r) == j.n
    ensures j.JNumber? && j.n < 0 ==> DigitsValue(r[1..]) == -j.n
    ensures j.JNull? ==> r == "None"
    ensures j.JBool? ==> r == (if j.b then "True" else "False")
  {
    match j
    case JNull => "None"
    case JBool(b) => if b then "True" else "False"
    case JNumber(n) =>
      if n < 0 then
        DecimalValue(-n);
        assert ("-" + Decimal(-n))[1..] == Decimal(-n);
        "-" + Decimal(-n)
      else
        DecimalValue(n);
        Decimal(n)
    case JString(s) => s
    case JArray(_) => "[...]"
    case JObject(_) => "{...}"
  }

  /** `d[key]` on a parsed value: KeyError when a dict lacks the key, TypeError when it is not a dict. */
  function Lookup(j: Json, key: string): (r: Result<Json>)
    ensures r.Ok? <==> j.JObject? && key in j.fields
    ensures r.Ok? ==> r.value == j.fields[key]
    ensures r.Raised? ==> r.error == (if j.JObject? then KeyError(key) else TypeError)
  {
    if !j.JObject? then Raised(TypeError)
    else if key in j.fields then Ok(j.fields[key])
    else Raised(KeyError(key))
  }

  const BackupPrefix := "backup started/running, backup id:'"
  const RestorePrefix := "restore started/running, backup id:'"

  /** The maintenance message of a running operation, with its backup id quoted. */
  function OperationMessage(prefix: string, backupId: string): string
  {
    prefix + backupId + "'"
  }

  /**
   * The backup id a maintenance message names, if it is one of the two
   * operation messages for the given prefix.
   */
  function BackupIdOf(prefix: string, message: string): (r: Option<string>)
    ensures r.Some? ==> message == OperationMessage(prefix, r.value)
  {
    if |message| >= |prefix| + 1 && message[..|prefix|] == prefix && message[|message| - 1] == '\''
    then
      var id := message[|prefix|..|message| - 1];
      assert message == message[..|prefix|] + id + [message[|message| - 1]];
      Some(id)
    else None
  }

  /** Reading the id back from an operation message gives the id that went in. */
  lemma BackupIdRoundTrip(prefix: string, backupId: string)
    ensures BackupIdOf(prefix, OperationMessage(prefix, backupId)) == Some(backupId)
  {
    var m := OperationMessage(prefix, backupId);
    assert m[..|prefix|] == prefix;
    assert m[|prefix|..|m| - 1] == backupId;
  }

  /**
   * A backup message never equals a restore message, whatever the two ids,
   * and neither is read back as the other kind.
   */
  lemma OperationsDistinguished(backupId: string, otherId: string)
    ensures OperationMessage(BackupPrefix, backupId) != OperationMessage(RestorePrefix, otherId)
    ensures BackupIdOf(RestorePrefix, OperationMessage(BackupPrefix, backupId)).None?
    ensures BackupIdOf(BackupPrefix, OperationMessage(RestorePrefix, backupId)).None?
  {
    var b := OperationMessage(BackupPrefix, backupId);
    var r := OperationMessage(RestorePrefix, backupId);
    assert b[0] != RestorePrefix[0];
    assert r[0] != BackupPrefix[0];
    assert b[0] != OperationMessage(RestorePrefix, otherId)[0];
  }

  /**
   * The status for the running operation: none (an empty dict) leaves the
   * unit active; a backup or a restore puts it in maintenance with the
   * operation's name; a resync makes it wait; any other type leaves it
   * active. A running entry that is not a dict, or lacks the `type` or the
   * `name` the branch reads, raises.
   */
  function StatusOfOp(op: Json): (r: Result<UnitStatus>)
    ensures r.Ok? ==> !r.value.Blocked?
    ensures op == JObject(map[]) ==> r == Ok(Active(""))
    ensures r.Ok? && r.value.Maintenance? ==> op.JObject? && "name" in op.fields
    ensures !op.JObject? ==> r == Raised(TypeError)
  {
    if op == JObject(map[]) then Ok(Active(""))
    else
      match Lookup(op, "type")
      case Raised(e) => Raised(e)
      case Ok(kind) =>
        if kind == JString("backup") then
          match Lookup(op, "name")
          case Raised(e) => Raised(e)
          case Ok(name) => Ok(Maintenance(OperationMessage(BackupPrefix, Str(name))))
        else if kind == JString("restore") then
          match Lookup(op, "name")
          case Raised(e) => Raised(e)
          case Ok(name) => Ok(Maintenance(OperationMessage(RestorePrefix, Str(name))))
        else if kind == JString("resync") then Ok(Waiting(ResyncMessage))
        else Ok(Active(""))
  }

  /** process_pbm_status: the status of the operation the status text says is running. */
  function ProcessPbmStatus(text: PbmText): (r: Result<UnitStatus>)
    ensures text.Malformed? ==> r == Raised(JsonDecodeError)
    ensures r.Ok? ==> !r.value.Blocked?
  {
    match CurrentPbmOp(text)
    case Raised(e) => Raised(e)
    case Ok(op) => StatusOfOp(op)
  }

  /**
   * The status table for a status document that is a JSON object: each
   * outcome comes exactly from the running entry the table names.
   */
  lemma PbmStatusTable(fields: map<string, Json>)
    ensures var r := ProcessPbmStatus(Parsed(JObject(fields)));
      && (r == Raised(TypeError) <==> Running !in fields || !fields[Running].JObject?)
      && (r == Ok(Active("")) <==>
            Running in fields && fields[Running].JObject?
            && (fields[Running].fields == map[]
                || ("type" in fields[Running].fields
                    && fields[Running].fields["type"] !in {JString("backup"), JString("restore"), JString("resync")})))
      && (r == Ok(Waiting(ResyncMessage)) <==>
            Running in fields && fields[Running].JObject?
            && "type" in fields[Running].fields && fields[Running].fields["type"] == JString("resync"))
      && (r == Raised(KeyError("type")) <==>
            Running in fields && fields[Running].JObject? && fields[Running].fields != map[]
            && "type" !in fields[Running].fields)
  {
    if Running in fields && fields[Running].JObject? && fields[Running].fields != map[] {
      assert fields[Running] != JObject(map[]);
    }
  }

  /**
   * A running backup or restore puts the unit in maintenance exactly when the
   * entry names the backup, and the message gives that name back; without a
   * name the lookup raises KeyError.
   */
  lemma PbmOperationStatus(fields: map<string, Json>, kind: string)
    requires kind == "backup" || kind == "restore"
    requires Running in fields && fields[Running].JObject?
    requires "type" in fields[Running].fields && fields[Running].fields["type"] == JString(kind)
    ensures var r := ProcessPbmStatus(Parsed(JObject(fields)));
      var prefix := if kind == "backup" then BackupPrefix else RestorePrefix;
      && (r.Ok? <==> "name" in fields[Running].fields)
      && (r.Raised? ==> r.error == KeyError("name"))
      && (r.Ok? ==>
            (r.value.Maintenance?
             && BackupIdOf(prefix, r.value.message) == Some(Str(fields[Running].fields["name"]))))
  {
    var op := fields[Running];
    assert op != JObject(map[]) by {
      assert "type" in op.fields;
    }
    if "name" in op.fields {
      var prefix := if kind == "backup" then BackupPrefix else RestorePrefix;
      BackupIdRoundTrip(prefix, Str(op.fields["name"]));
    }
  }
}
