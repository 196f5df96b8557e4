/** The JSONL audit logs: a file is a sequence of lines, each the JSON text of
    one record. `JsonlLogger.Append` adds one time-stamped record at the end;
    `BulkExport` rewrites a file from a list of records. A line is kept here as
    the value it decodes to, or as malformed text. */
module DecisionLog {
  import opened Common

  /** One line of a JSONL file as `json.loads` sees it. */
  datatype LogLine = Malformed(text: string) | Record(value: Json)

  /** A file on disk: whether it exists, and its lines. */
  class LogFile {
    var present: bool
    var lines: seq<LogLine>

    constructor Missing()
      ensures !present && lines == []
    {
      present := false;
      lines := [];
    }

    constructor Holding(lines: seq<LogLine>)
      ensures present && this.lines == lines
    {
      present := true;
      this.lines := lines;
    }
  }

  /** `{**record, "ts": ts}`: the key "ts" keeps its place if the record has it
      and is added last otherwise; every other key keeps its value. */
  function Stamped(record: seq<(string, Json)>, ts: string): (r: seq<(string, Json)>)
    requires UniqueKeys(record)
    ensures UniqueKeys(r)
    ensures Get(r, "ts") == Some(JStr(ts))
    ensures forall k :: k != "ts" ==> Get(r, k) == Get(record, k)
    ensures |r| == |record| + (if Get(record, "ts").Some? then 0 else 1)
    ensures forall i :: 0 <= i < |record| ==> r[i].0 == record[i].0
  {
    GetLast(record, "ts");
    if Get(record, "ts").Some? then
      var r := seq(|record|, i requires 0 <= i < |record| =>
                   if record[i].0 == "ts" then ("ts", JStr(ts)) else record[i]);
      StampedKeys(record, r);
      GetBound(r, "ts", JStr(ts));
      r
    else
      var r := record + [("ts", JStr(ts))];
      StampedKeys(record, r);
      r
  }

  /** Two objects with the same keys in the same places and the same values
      except under "ts" answer every other `get` alike. */
  lemma StampedKeys(record: seq<(string, Json)>, r: seq<(string, Json)>)
    requires UniqueKeys(record) && UniqueKeys(r) && |record| <= |r|
    requires forall i :: 0 <= i < |record| ==> r[i].0 == record[i].0
    requires forall i :: 0 <= i < |record| && record[i].0 != "ts" ==> r[i] == record[i]
    requires forall i :: |record| <= i < |r| ==> r[i].0 == "ts"
    ensures forall k :: k != "ts" ==> Get(r, k) == Get(record, k)
  {
    forall k | k != "ts" ensures Get(r, k) == Get(record, k) {
      GetLast(record, k);
      GetLast(r, k);
      if Get(record, k).Some? {
        var i :| 0 <= i < |record| && record[i] == (k, Get(record, k).value)
                 && forall j :: i < j < |record| ==> record[j].0 != k;
        GetUnique(r, i);
      }
    }
  }

  /** Stamping twice keeps only the later time. */
  lemma StampedTwice(record: seq<(string, Json)>, a: string, b: string)
    requires UniqueKeys(record)
    ensures Stamped(Stamped(record, a), b) == Stamped(record, b)
  {
    var once := Stamped(record, a);
    if Get(record, "ts").None? {
      var i :| 0 <= i < |once| && once[i] == ("ts", JStr(a));
      assert i == |record|;
    }
  }

  /** A logger bound to one file. */
  class JsonlLogger {
    const file: LogFile

    /** Creating the parent directory leaves the file as it is. */
    constructor (file: LogFile)
      ensures this.file == file
    {
      this.file := file;
    }

    /** Writes the record, stamped with the time of the call, as one new line at
        the end of the file, creating the file if needed. */
    method Append(record: seq<(string, Json)>, now: Instant, rt: Runtime)
      requires UniqueKeys(record)
      modifies file
      ensures file.present
      ensures file.lines == old(file.lines) + [Record(JObj(Stamped(record, rt.toIso(now))))]
    {
      var enriched := Stamped(record, rt.toIso(now));
      file.present := true;
      file.lines := file.lines + [Record(JObj(enriched))];
    }
  }

  /** Replaces the destination with one line per record, in order, unstamped. */
  method BulkExport(records: seq<Json>, destination: LogFile)
    modifies destination
    ensures destination.present
    ensures |destination.lines| == |records|
    ensures forall i :: 0 <= i < |records| ==> destination.lines[i] == Record(records[i])
  {
    destination.present := true;
    destination.lines := [];
    for i := 0 to |records|
      invariant destination.present
      invariant |destination.lines| == i
      invariant forall k :: 0 <= k < i ==> destination.lines[k] == Record(records[k])
    {
      destination.lines := destination.lines + [Record(records[i])];
    }
  }
}
