/**
 The canonical printer `stable`: arrays in order, object entries in key order, strings quoted as in section 7 of
 RFC 8259. The key order is any total order, standing for `localeCompare`.
 */
module StablePrinter {
  import opened Common
  import opened CanonicalJson

  type KeyOrder = (string, string) -> bool

  ghost predicate TotalOrder(le: KeyOrder) {
    && (forall a, b :: le(a, b) || le(b, a))
    && (forall a, b :: le(a, b) && le(b, a) ==> a == b)
    && (forall a, b, c :: le(a, b) && le(b, c) ==> le(a, c))
  }

  // ---------------------------------------------------------------- strings

  function HexDigit(n: nat): char
    requires n < 16
  {
    "0123456789abcdef"[n]
  }

  function EscapeChar(c: char): string {
    if c == '"' then "\\\""
    else if c == '\\' then "\\\\"
    else if c == 8 as char then "\\b"
    else if c == 9 as char then "\\t"
    else if c == 10 as char then "\\n"
    else if c == 12 as char then "\\f"
    else if c == 13 as char then "\\r"
    else if c < 32 as char then "\\u00" + [HexDigit(c as nat / 16), HexDigit(c as nat % 16)]
    else [c]
  }

  function Escape(s: string): string {
    if s == "" then "" else EscapeChar(s[0]) + Escape(s[1..])
  }

  function Quote(s: string): string { "\"" + Escape(s) + "\"" }

  // ---------------------------------------------------------------- key order

  function InsertEntry(e: Entry, sorted: seq<Entry>, le: KeyOrder): (r: seq<Entry>)
    ensures multiset(r) == multiset(sorted) + multiset{e}
  {
    if sorted == [] then [e]
    else if le(e.key, sorted[0].key) then [e] + sorted
    else
      assert sorted == [sorted[0]] + sorted[1..];
      [sorted[0]] + InsertEntry(e, sorted[1..], le)
  }

  function SortEntries(entries: seq<Entry>, le: KeyOrder): (r: seq<Entry>)
    ensures multiset(r) == multiset(entries)
  {
    if entries == [] then []
    else
      assert entries == [entries[0]] + entries[1..];
      InsertEntry(entries[0], SortEntries(entries[1..], le), le)
  }

  // ---------------------------------------------------------------- printing

  /** A value printed with the entries of its objects in the order they stand. */
  function Print(v: Json): string
    decreases v, 0
  {
    match v
    case JNull => "null"
    case JBool(b) => if b then "true" else "false"
    case JNum(token) => token
    case JStr(s) => Quote(s)
    case JArr(items) => "[" + PrintItems(items) + "]"
    case JObj(entries) => "{" + PrintEntries(entries) + "}"
  }

  function PrintItems(items: seq<Json>): string
    decreases items, 1
  {
    if items == [] then ""
    else if |items| == 1 then Print(items[0])
    else Print(items[0]) + "," + PrintItems(items[1..])
  }

  function PrintEntry(e: Entry): string
    decreases e, 1
  {
    Quote(e.key) + ":" + Print(e.value)
  }

  function PrintEntries(entries: seq<Entry>): string
    decreases entries, 2
  {
    if entries == [] then ""
    else if |entries| == 1 then PrintEntry(entries[0])
    else PrintEntry(entries[0]) + "," + PrintEntries(entries[1..])
  }

  /** `stable` itself: it sorts the entries of every object it meets. */
  function Stable(v: Json, le: KeyOrder): string
    decreases v, 0
  {
    match v
    case JArr(items) => "[" + StableItems(items, le) + "]"
    case JObj(entries) =>
      var sorted := SortEntries(entries, le);
      assert forall e | e in sorted :: e in multiset(sorted);
      "{" + StableEntries(v, sorted, le) + "}"
    case _ => Print(v)
  }

  function StableItems(items: seq<Json>, le: KeyOrder): string
    decreases items, 1
  {
    if items == [] then ""
    else if |items| == 1 then Stable(items[0], le)
    else Stable(items[0], le) + "," + StableItems(items[1..], le)
  }

  function StableEntries(v: Json, sorted: seq<Entry>, le: KeyOrder): string
    requires v.JObj? && forall e | e in sorted :: e in v.entries
    decreases v, 0, |sorted|
  {
    if sorted == [] then ""
    else
      assert sorted[0].value < v by {
        assert sorted[0] in v.entries;
        var i :| 0 <= i < |v.entries| && v.entries[i] == sorted[0];
        assert v.entries[i].value < v;
      }
      var first := Quote(sorted[0].key) + ":" + Stable(sorted[0].value, le);
      if |sorted| == 1 then first else first + "," + StableEntries(v, sorted[1..], le)
  }

  // ---------------------------------------------------------------- the canonical form

  /** The value with the entries of all its objects in key order. */
  function Canon(v: Json, le: KeyOrder): Json
    decreases v, 0
  {
    match v
    case JArr(items) => JArr(seq(|items|, i requires 0 <= i < |items| => Canon(items[i], le)))
    case JObj(entries) =>
      var sorted := SortEntries(entries, le);
      assert forall e | e in sorted :: e in multiset(sorted);
      JObj(CanonEntries(v, sorted, le))
    case _ => v
  }

  function CanonEntries(v: Json, sorted: seq<Entry>, le: KeyOrder): (r: seq<Entry>)
    requires v.JObj? && forall e | e in sorted :: e in v.entries
    ensures |r| == |sorted| && forall i | 0 <= i < |r| :: r[i].key == sorted[i].key
    decreases v, 0, |sorted|
  {
    if sorted == [] then []
    else
      assert sorted[0].value < v by {
        assert sorted[0] in v.entries;
        var i :| 0 <= i < |v.entries| && v.entries[i] == sorted[0];
        assert v.entries[i].value < v;
      }
      [Entry(sorted[0].key, Canon(sorted[0].value, le))] + CanonEntries(v, sorted[1..], le)
  }

  // ---------------------------------------------------------------- what a JSON value is

  predicate NumChar(c: char) { '0' <= c <= '9' || c == '-' || c == '+' || c == '.' || c == 'e' }

  ghost predicate DistinctKeys(entries: seq<Entry>) {
    forall i, j | 0 <= i < j < |entries| :: entries[i].key != entries[j].key
  }

  /** Numbers print as number tokens; an object has a key once. */
  ghost predicate Valid(v: Json)
    decreases v
  {
    match v
    case JNum(token) => token != "" && forall i | 0 <= i < |token| :: NumChar(token[i])
    case JArr(items) => forall i | 0 <= i < |items| :: Valid(items[i])
    case JObj(entries) => DistinctKeys(entries) && forall i | 0 <= i < |entries| :: Valid(entries[i].value)
    case _ => true
  }

  /** What a value means: an object is a map from its keys, the order of its entries forgotten. */
  datatype Meaning =
    | MNull
    | MBool(b: bool)
    | MNum(token: string)
    | MStr(s: string)
    | MArr(items: seq<Meaning>)
    | MObj(fields: map<string, Meaning>)

  function MeaningOf(v: Json): Meaning
    decreases v, 0
  {
    match v
    case JNull => MNull
    case JBool(b) => MBool(b)
    case JNum(token) => MNum(token)
    case JStr(s) => MStr(s)
    case JArr(items) => MArr(seq(|items|, i requires 0 <= i < |items| => MeaningOf(items[i])))
    case JObj(entries) => MObj(FieldsOf(entries))
  }

  function FieldsOf(entries: seq<Entry>): map<string, Meaning>
    decreases entries, 1
  {
    if entries == [] then map[]
    else FieldsOf(entries[..|entries| - 1])[entries[|entries| - 1].key := MeaningOf(entries[|entries| - 1].value)]
  }

  // ---------------------------------------------------------------- reading back

  datatype Parsed<+T> = Parsed(value: T, rest: string)

  function HexValue(c: char): Option<nat> {
    if '0' <= c <= '9' then Some(c as nat - '0' as nat)
    else if 'a' <= c <= 'f' then Some(c as nat - 'a' as nat + 10)
    else None
  }

  /** The character after a backslash, or the four digits after `\\u`. */
  function ParseEscape(s: string): (r: Option<Parsed<char>>)
    ensures r.Some? ==> |r.value.rest| < |s|
  {
    if s == "" then None
    else if s[0] == '"' || s[0] == '\\' then Some(Parsed(s[0], s[1..]))
    else if s[0] == 'b' then Some(Parsed(8 as char, s[1..]))
    else if s[0] == 't' then Some(Parsed(9 as char, s[1..]))
    else if s[0] == 'n' then Some(Parsed(10 as char, s[1..]))
    else if s[0] == 'f' then Some(Parsed(12 as char, s[1..]))
    else if s[0] == 'r' then Some(Parsed(13 as char, s[1..]))
    else if s[0] == 'u' && |s| >= 5 && s[1] == '0' && s[2] == '0' && HexValue(s[3]).Some? && HexValue(s[4]).Some? then
      Some(Parsed((HexValue(s[3]).value * 16 + HexValue(s[4]).value) as char, s[5..]))
    else None
  }

  /** The characters up to the closing quote. */
  function ParseChars(s: string): (r: Option<Parsed<string>>)
    ensures r.Some? ==> |r.value.rest| < |s|
    decreases |s|
  {
    if s == "" then None
    else if s[0] == '"' then Some(Parsed("", s[1..]))
    else
      var c := if s[0] == '\\' then ParseEscape(s[1..]) else Some(Parsed(s[0], s[1..]));
      if c.None? then None
      else
        var tail := ParseChars(c.value.rest);
        if tail.None? then None else Some(Parsed([c.value.value] + tail.value.value, tail.value.rest))
  }

  function NumLength(s: string): (n: nat)
    ensures n <= |s|
  {
    if s != "" && NumChar(s[0]) then 1 + NumLength(s[1..]) else 0
  }

  function ParseValue(s: string): (r: Option<Parsed<Json>>)
    ensures r.Some? ==> |r.value.rest| < |s|
    decreases |s|, 0
  {
    if s == "" then None
    else if "null" <= s then Some(Parsed(JNull, s[4..]))
    else if "true" <= s then Some(Parsed(JBool(true), s[4..]))
    else if "false" <= s then Some(Parsed(JBool(false), s[5..]))
    else if s[0] == '"' then
      var chars := ParseChars(s[1..]);
      if chars.None? then None else Some(Parsed(JStr(chars.value.value), chars.value.rest))
    else if "[]" <= s then Some(Parsed(JArr([]), s[2..]))
    else if s[0] == '[' then
      var items := ParseItems(s[1..]);
      if items.None? then None else Some(Parsed(JArr(items.value.value), items.value.rest))
    else if "{}" <= s then Some(Parsed(JObj([]), s[2..]))
    else if s[0] == '{' then
      var entries := ParseEntries(s[1..]);
      if entries.None? then None else Some(Parsed(JObj(entries.value.value), entries.value.rest))
    else if NumLength(s) > 0 then Some(Parsed(JNum(s[..NumLength(s)]), s[NumLength(s)..]))
    else None
  }

  /** Items separated by commas, up to the closing bracket. */
  function ParseItems(s: string): (r: Option<Parsed<seq<Json>>>)
    ensures r.Some? ==> |r.value.rest| < |s|
    decreases |s|, 1
  {
    var first := ParseValue(s);
    if first.None? || first.value.rest == "" then None
    else if first.value.rest[0] == ']' then Some(Parsed([first.value.value], first.value.rest[1..]))
    else if first.value.rest[0] == ',' then
      var tail := ParseItems(first.value.rest[1..]);
      if tail.None? then None else Some(Parsed([first.value.value] + tail.value.value, tail.value.rest))
    else None
  }

  function ParseEntry(s: string): (r: Option<Parsed<Entry>>)
    ensures r.Some? ==> |r.value.rest| < |s|
    decreases |s|, 1
  {
    if s == "" || s[0] != '"' then None
    else
      var key := ParseChars(s[1..]);
      if key.None? || key.value.rest == "" || key.value.rest[0] != ':' then None
      else
        var v := ParseValue(key.value.rest[1..]);
        if v.None? then None else Some(Parsed(Entry(key.value.value, v.value.value), v.value.rest))
  }

  function ParseEntries(s: string): (r: Option<Parsed<seq<Entry>>>)
    ensures r.Some? ==> |r.value.rest| < |s|
    decreases |s|, 2
  {
    var first := ParseEntry(s);
    if first.None? || first.value.rest == "" then None
    else if first.value.rest[0] == '}' then Some(Parsed([first.value.value], first.value.rest[1..]))
    else if first.value.rest[0] == ',' then
      var tail := ParseEntries(first.value.rest[1..]);
      if tail.None? then None else Some(Parsed([first.value.value] + tail.value.value, tail.value.rest))
    else None
  }

  /** A whole text read as one value. */
  function Decode(s: string): Option<Json> {
    var r := ParseValue(s);
    if r.Some? && r.value.rest == "" then Some(r.value.value) else None
  }

  // ---------------------------------------------------------------- the two keys of a PDF task

  function Digits(n: nat): string {
    if n < 10 then [HexDigit(n)] else Digits(n / 10) + [HexDigit(n % 10)]
  }

  datatype TaskIdentity = TaskIdentity(caseId: string, templateVersionId: string, snapshotVersion: nat,
    signatureVersion: nat)

  function KeyParts(t: TaskIdentity): seq<Json> {
    [JStr("pdf-task-v1"), JStr(t.caseId), JStr(t.templateVersionId),
     JNum(Digits(t.snapshotVersion)), JNum(Digits(t.signatureVersion))]
  }

  /** The key of the contracts package: a JSON array. */
  function IdempotencyKey(t: TaskIdentity): string { Print(JArr(KeyParts(t))) }

  /** The key the confirmation writes: the same parts joined with colons. */
  function ColonKey(t: TaskIdentity): string {
    t.caseId + ":" + t.templateVersionId + ":" + Digits(t.snapshotVersion) + ":" + Digits(t.signatureVersion)
  }
}
