/** `save_request` and the on-disk ledger it writes. The `requests/` tree is
    a map from a path (partition directory, file name) to what a JSON reader
    finds in the file; the clock is a parameter (the formatted timestamp). */
module Ledger {
  import opened Wrappers
  import opened Text
  import opened Classifier

  /** What `json.load` returns; JSON numbers are modelled as integers only. */
  datatype Json =
    | JNull
    | JBool(b: bool)
    | JInt(i: int)
    | JStr(s: string)
    | JList(items: seq<Json>)
    | JObject(fields: map<string, Json>)

  /** The content of one file: a JSON document, or bytes on which
      `json.load` raises `JSONDecodeError`. */
  datatype FileData = Parsed(value: Json) | Unparsable

  /** `requests/<dir>/<name>`. */
  datatype Path = Path(dir: string, name: string)

  type Store = map<Path, FileData>

  /** One classified submission. `message` is `None` when the chat message
      carried no text (Python writes `null`). */
  datatype Request = Request(
    orderNumber: string,
    userId: int,
    message: Option<string>,
    category: Category,
    timestamp: string)

  /** `f"#{user_id}_{timestamp}"`. */
  function OrderNumber(userId: int, timestamp: string): string {
    "#" + IntToString(userId) + "_" + timestamp
  }

  /** `f"{category}_{timestamp}.json"`: the sender is not part of the name. */
  function FileName(c: Category, timestamp: string): string {
    c.Name() + "_" + timestamp + ".json"
  }

  /** Where `save_request` writes the record of category `c` made at
      `timestamp`. */
  function RecordPath(c: Category, timestamp: string): Path {
    Path(c.Name(), FileName(c, timestamp))
  }

  /** `filename.endswith(".json")`. */
  predicate IsJsonName(name: string) {
    |name| >= 5 && name[|name| - 5..] == ".json"
  }

  lemma FileNameIsJson(c: Category, timestamp: string)
    ensures IsJsonName(FileName(c, timestamp))
  {
    var n := FileName(c, timestamp);
    assert n[|n| - 5..] == ".json";
  }

  /** Two senders get distinct order numbers for the same second. */
  lemma OrderNumberIdentifiesSender(u1: int, u2: int, timestamp: string)
    requires OrderNumber(u1, timestamp) == OrderNumber(u2, timestamp)
    ensures u1 == u2
  {
    var a, b := "#" + IntToString(u1) + "_", "#" + IntToString(u2) + "_";
    assert a + timestamp == OrderNumber(u1, timestamp);
    assert b + timestamp == OrderNumber(u2, timestamp);
    assert |a| == |b|;
    assert a == (a + timestamp)[..|a|] == (b + timestamp)[..|b|] == b;
    assert IntToString(u1) == a[1..|a| - 1] == b[1..|b| - 1] == IntToString(u2);
    IntToStringInjective(u1, u2);
  }

  function MessageJson(message: Option<string>): Json {
    match message
    case Some(s) => JStr(s)
    case None => JNull
  }

  /** The dictionary `save_request` serialises. */
  function Encode(r: Request): Json {
    JObject(map[
      "order_number" := JStr(r.orderNumber),
      "user_id" := JInt(r.userId),
      "message" := MessageJson(r.message),
      "category" := JStr(r.category.Name()),
      "timestamp" := JStr(r.timestamp)])
  }

  function CategoryOfName(s: string): Option<Category> {
    if s == "personal" then Some(Personal)
    else if s == "offers" then Some(Offers)
    else if s == "gibberish" then Some(Gibberish)
    else None
  }

  /** Reads a request record back from a JSON document; any other document
      gives `None`. */
  function Decode(j: Json): Option<Request> {
    match j
    case JObject(f) =>
      if && "order_number" in f && f["order_number"].JStr?
         && "user_id" in f && f["user_id"].JInt?
         && "message" in f && (f["message"].JStr? || f["message"].JNull?)
         && "category" in f && f["category"].JStr? && CategoryOfName(f["category"].s).Some?
         && "timestamp" in f && f["timestamp"].JStr?
      then
        Some(Request(
          f["order_number"].s,
          f["user_id"].i,
          if f["message"].JStr? then Some(f["message"].s) else None,
          CategoryOfName(f["category"].s).value,
          f["timestamp"].s))
      else None
    case _ => None
  }

  /** Decoding what was encoded gives the record back. */
  lemma DecodeEncode(r: Request)
    ensures Decode(Encode(r)) == Some(r)
  {
    assert CategoryOfName(r.category.Name()) == Some(r.category);
  }

  function RecordIn(d: FileData): Option<Request> {
    match d
    case Parsed(j) => Decode(j)
    case Unparsable => None
  }

  /** The record `save_request` builds. */
  function NewRequest(userId: int, message: Option<string>, c: Category, timestamp: string): Request {
    Request(OrderNumber(userId, timestamp), userId, message, c, timestamp)
  }

  /** The store after `save_request(user_id, message, category)` at
      `timestamp`: the record is written at its path, replacing whatever
      was there, and every other file is left as it was. */
  function Saved(files: Store, userId: int, message: Option<string>, c: Category, timestamp: string): (r: Store)
    ensures RecordPath(c, timestamp) in r
    ensures RecordIn(r[RecordPath(c, timestamp)]) == Some(NewRequest(userId, message, c, timestamp))
    ensures r.Keys == files.Keys + {RecordPath(c, timestamp)}
    ensures forall k :: k in files && k != RecordPath(c, timestamp) ==> r[k] == files[k]
  {
    DecodeEncode(NewRequest(userId, message, c, timestamp));
    files[RecordPath(c, timestamp) := Parsed(Encode(NewRequest(userId, message, c, timestamp)))]
  }

  /** The JSON files of partition `c`: what a scan of `requests/<c>` sees. */
  ghost function Scan(files: Store, c: Category): set<Path> {
    set k | k in files && k.dir == c.Name() && IsJsonName(k.name)
  }

  /** Saving then scanning the category finds the message verbatim under a
      record of that category, made by that sender. */
  lemma SaveThenScan(files: Store, userId: int, message: Option<string>, c: Category, timestamp: string)
    ensures exists k :: (
      && k in Scan(Saved(files, userId, message, c, timestamp), c)
      && var r := RecordIn(Saved(files, userId, message, c, timestamp)[k]);
         r.Some? && r.value.message == message && r.value.category == c && r.value.userId == userId)
  {
    FileNameIsJson(c, timestamp);
    var k := RecordPath(c, timestamp);
    assert k in Scan(Saved(files, userId, message, c, timestamp), c);
  }

  /** Writing one JSON file into partition `c` grows that partition's scan
      by the file, unless it was already there, and no other scan. */
  lemma ScanAfterWrite(files: Store, k: Path, v: FileData, c: Category, d: Category)
    requires k.dir == c.Name() && IsJsonName(k.name)
    ensures Scan(files[k := v], d) == if d == c then Scan(files, d) + {k} else Scan(files, d)
  {
    if c.Name() == d.Name() {
      NameInjective(c, d);
    }
  }

  /** A save adds one file to the scan of its category unless a file of the
      same name was already there, and leaves the other categories' scans
      as they were. */
  lemma SaveScanCount(files: Store, userId: int, message: Option<string>, c: Category, timestamp: string, d: Category)
    ensures var after := Saved(files, userId, message, c, timestamp);
      |Scan(after, d)| == |Scan(files, d)| + (if d == c && RecordPath(c, timestamp) !in files then 1 else 0)
  {
    var k := RecordPath(c, timestamp);
    FileNameIsJson(c, timestamp);
    ScanAfterWrite(files, k, Parsed(Encode(NewRequest(userId, message, c, timestamp))), c, d);
    if d == c && k in files {
      assert Scan(files, d) + {k} == Scan(files, d);
    }
  }

  /** Every record decodes to the category of the partition that holds it. */
  ghost predicate PartitionsAgree(files: Store) {
    forall k :: k in files && RecordIn(files[k]).Some? ==> RecordIn(files[k]).value.category.Name() == k.dir
  }

  lemma SavePreservesAgreement(files: Store, userId: int, message: Option<string>, c: Category, timestamp: string)
    requires PartitionsAgree(files)
    ensures PartitionsAgree(Saved(files, userId, message, c, timestamp))
  {
  }

  /** Two saves in one category within one second: the second replaces the
      first, whoever sent either, although their order numbers differ. */
  lemma SameSecondOverwrites(files: Store, u1: int, m1: Option<string>, u2: int, m2: Option<string>, c: Category, timestamp: string)
    ensures Saved(Saved(files, u1, m1, c, timestamp), u2, m2, c, timestamp) == Saved(files, u2, m2, c, timestamp)
    ensures u1 != u2 ==> OrderNumber(u1, timestamp) != OrderNumber(u2, timestamp)
  {
    if OrderNumber(u1, timestamp) == OrderNumber(u2, timestamp) {
      OrderNumberIdentifiesSender(u1, u2, timestamp);
    }
  }

  /** The `requests/` tree, written in place by `save_request`. */
  class RequestStore {
    var files: Store

    constructor ()
      ensures files == map[]
    {
      files := map[];
    }

    /** `save_request`: builds the record, names the file after the category
        and the second, and writes it under `requests/<category>`. */
    method SaveRequest(userId: int, message: Option<string>, category: Category, timestamp: string)
      modifies this
      ensures files == Saved(old(files), userId, message, category, timestamp)
    {
      var fileName := category.Name() + "_" + timestamp + ".json";
      var path := Path(category.Name(), fileName);
      var record := Request("#" + IntToString(userId) + "_" + timestamp, userId, message, category, timestamp);
      files := files[path := Parsed(Encode(record))];
    }
  }
}
