/** `stable` decodes unambiguously, depends on the meaning of a value only, and determines it. */
module StableProofs {
  import opened Common
  import opened CanonicalJson
  import opened StablePrinter

  // ---------------------------------------------------------------- round trip: strings

  lemma HexRoundTrip(n: nat)
    requires n < 16
    ensures HexValue(HexDigit(n)) == Some(n)
  {
  }

  lemma ShortEscape(c: char, rest: string)
    requires |EscapeChar(c)| == 2
    ensures EscapeChar(c)[0] == '\\' && ParseEscape([EscapeChar(c)[1]] + rest) == Some(Parsed(c, rest))
  {
    assert ([EscapeChar(c)[1]] + rest)[1..] == rest;
  }

  lemma LongEscape(c: char, rest: string)
    requires |EscapeChar(c)| == 6
    ensures EscapeChar(c)[0] == '\\' && ParseEscape(EscapeChar(c)[1..] + rest) == Some(Parsed(c, rest))
  {
    var s := EscapeChar(c)[1..] + rest;
    HexRoundTrip(c as nat / 16);
    HexRoundTrip(c as nat % 16);
    assert s[..5] == EscapeChar(c)[1..] && s[5..] == rest;
    assert s[3] == HexDigit(c as nat / 16) && s[4] == HexDigit(c as nat % 16);
  }

  lemma EscapeRoundTrip(c: char, rest: string)
    ensures var e := EscapeChar(c);
      if e[0] == '\\' then ParseEscape((e + rest)[1..]) == Some(Parsed(c, rest)) else e == [c] && c != '"'
  {
    var e := EscapeChar(c);
    assert (e + rest)[1..] == e[1..] + rest;
    if |e| == 2 {
      ShortEscape(c, rest);
      assert e[1..] == [e[1]];
    } else if |e| == 6 {
      LongEscape(c, rest);
    }
  }

  /** One character read, then the others. */
  lemma CharsStep(s: string, c: char, tail: string, chars: string, rest: string)
    requires s != "" && s[0] != '"'
    requires if s[0] == '\\' then ParseEscape(s[1..]) == Some(Parsed(c, tail)) else c == s[0] && tail == s[1..]
    requires ParseChars(tail) == Some(Parsed(chars, rest))
    ensures ParseChars(s) == Some(Parsed([c] + chars, rest))
  {
  }

  lemma Bracketed(open: string, body: string, close: string, rest: string)
    ensures open + body + close + rest == open + (body + close + rest)
    ensures body != "" ==> body + close + rest != "" && (body + close + rest)[0] == body[0]
  {
  }

  lemma Prefixed(open: string, body: string)
    requires |open| == 1
    ensures (open + body)[0] == open[0] && (open + body)[1..] == body && (body != "" ==> (open + body)[1] == body[0])
  {
  }

  lemma CharRead(c: char, tail: string, chars: string, rest: string)
    requires ParseChars(tail) == Some(Parsed(chars, rest))
    ensures ParseChars(EscapeChar(c) + tail) == Some(Parsed([c] + chars, rest))
  {
    var text := EscapeChar(c) + tail;
    EscapeRoundTrip(c, tail);
    if EscapeChar(c) == [c] {
      assert text[1..] == tail;
    }
    CharsStep(text, c, tail, chars, rest);
  }

  lemma {:induction false} CharsRoundTrip(s: string, rest: string)
    ensures ParseChars(Escape(s) + "\"" + rest) == Some(Parsed(s, rest))
  {
    if s == "" {
      Prefixed("\"", rest);
      assert Escape(s) + "\"" + rest == "\"" + rest;
    } else {
      CharsRoundTrip(s[1..], rest);
      CharRead(s[0], Escape(s[1..]) + "\"" + rest, s[1..], rest);
      Bracketed(EscapeChar(s[0]), Escape(s[1..]), "\"", rest);
      assert s == [s[0]] + s[1..];
    }
  }

  lemma QuoteRoundTrip(s: string, rest: string)
    ensures (Quote(s) + rest)[0] == '"' && ParseChars((Quote(s) + rest)[1..]) == Some(Parsed(s, rest))
  {
    CharsRoundTrip(s, rest);
    Bracketed("\"", Escape(s), "\"", rest);
    Prefixed("\"", Escape(s) + "\"" + rest);
  }

  // ---------------------------------------------------------------- round trip: values

  /** What may follow a printed value: nothing that continues a number. */
  predicate Delimited(rest: string) { rest == "" || !NumChar(rest[0]) }

  lemma {:induction false} NumberRoundTrip(token: string, rest: string)
    requires (forall i | 0 <= i < |token| :: NumChar(token[i])) && Delimited(rest)
    ensures NumLength(token + rest) == |token|
  {
    if token == "" {
      assert token + rest == rest;
    } else {
      assert (token + rest)[1..] == token[1..] + rest;
      NumberRoundTrip(token[1..], rest);
    }
  }

  lemma NumRoundTrip(token: string, rest: string)
    requires Valid(JNum(token)) && Delimited(rest)
    ensures ParseValue(token + rest) == Some(Parsed(JNum(token), rest))
  {
    var s := token + rest;
    NumberRoundTrip(token, rest);
    assert s[0] == token[0] && s[..|token|] == token && s[|token|..] == rest;
  }

  lemma StrRoundTrip(text: string, rest: string)
    ensures ParseValue(Quote(text) + rest) == Some(Parsed(JStr(text), rest))
  {
    QuoteRoundTrip(text, rest);
  }

  lemma WordRoundTrip(v: Json, rest: string)
    requires v.JNull? || v.JBool?
    ensures ParseValue(Print(v) + rest) == Some(Parsed(v, rest))
  {
    var word := Print(v);
    var s := word + rest;
    assert word <= s && s[0] == word[0] && s[|word|..] == rest;
    assert word == "null" || word == "true" || word == "false";
  }

  lemma ArrayStep(body: string, items: seq<Json>, rest: string)
    requires body != "" && body[0] != ']' && ParseItems(body) == Some(Parsed(items, rest))
    ensures ParseValue("[" + body) == Some(Parsed(JArr(items), rest))
  {
    Prefixed("[", body);
  }

  lemma StartsOtherwise(word: string, s: string)
    requires word != "" && s != "" && word[0] != s[0]
    ensures !(word <= s)
  {
  }

  lemma ObjectStep(body: string, entries: seq<Entry>, rest: string)
    requires body != "" && body[0] != '}' && ParseEntries(body) == Some(Parsed(entries, rest))
    ensures ParseValue("{" + body) == Some(Parsed(JObj(entries), rest))
  {
    var s := "{" + body;
    Prefixed("{", body);
    StartsOtherwise("null", s);
    StartsOtherwise("true", s);
    StartsOtherwise("false", s);
    StartsOtherwise("[]", s);
    assert s[1] != '}';
  }

  lemma EmptyRoundTrip(rest: string)
    ensures ParseValue("[" + "" + "]" + rest) == Some(Parsed(JArr([]), rest))
    ensures ParseValue("{" + "" + "}" + rest) == Some(Parsed(JObj([]), rest))
  {
    var a, o := "[" + "" + "]" + rest, "{" + "" + "}" + rest;
    assert a == "[]" + rest && a[0] == '[' && "[]" <= a && a[2..] == rest;
    assert o == "{}" + rest && o[0] == '{' && "{}" <= o && o[2..] == rest;
  }

  lemma {:induction false} ValueRoundTrip(v: Json, rest: string)
    requires Valid(v) && Delimited(rest)
    ensures ParseValue(Print(v) + rest) == Some(Parsed(v, rest))
    decreases v, 0
  {
    match v
    case JNum(token) => NumRoundTrip(token, rest);
    case JStr(text) => StrRoundTrip(text, rest);
    case JArr(items) =>
      var body := PrintItems(items);
      Bracketed("[", body, "]", rest);
      if items == [] {
        EmptyRoundTrip(rest);
      } else {
        ItemsRoundTrip(items, rest);
        FirstOfItems(items);
        ArrayStep(body + "]" + rest, items, rest);
      }
    case JObj(entries) =>
      var body := PrintEntries(entries);
      Bracketed("{", body, "}", rest);
      if entries == [] {
        EmptyRoundTrip(rest);
      } else {
        EntriesRoundTrip(entries, rest);
        assert body[0] == '"';
        ObjectStep(body + "}" + rest, entries, rest);
      }
    case _ => WordRoundTrip(v, rest);
  }

  /** No printed value starts with a closing bracket. */
  lemma FirstOfItems(items: seq<Json>)
    requires items != [] && Valid(items[0])
    ensures PrintItems(items) != "" && PrintItems(items)[0] != ']'
  {
    assert Print(items[0]) != "" && Print(items[0])[0] != ']';
  }

  /** One item read, then the closing bracket or a comma and the others. */
  lemma ItemsStep(s: string, v: Json, tail: string)
    requires ParseValue(s) == Some(Parsed(v, tail)) && tail != ""
    ensures tail[0] == ']' ==> ParseItems(s) == Some(Parsed([v], tail[1..]))
    ensures tail[0] == ',' && ParseItems(tail[1..]).Some? ==>
      ParseItems(s) == Some(Parsed([v] + ParseItems(tail[1..]).value.value, ParseItems(tail[1..]).value.rest))
  {
  }

  lemma Regroup(first: string, others: string, close: string, rest: string)
    ensures (first + "," + others) + close + rest == first + ("," + (others + close + rest))
    ensures first + close + rest == first + (close + rest)
  {
    var whole := first + ("," + (others + close + rest));
    assert (first + "," + others) + close + rest == whole;
  }

  lemma LastItem(items: seq<Json>, rest: string)
    requires |items| == 1 && ParseValue(Print(items[0]) + ("]" + rest)) == Some(Parsed(items[0], "]" + rest))
    ensures ParseItems(PrintItems(items) + "]" + rest) == Some(Parsed(items, rest))
  {
    Regroup(Print(items[0]), PrintItems(items[1..]), "]", rest);
    ItemsStep(Print(items[0]) + ("]" + rest), items[0], "]" + rest);
    Prefixed("]", rest);
    assert items == [items[0]];
  }

  lemma MoreItems(items: seq<Json>, rest: string, tail: string)
    requires |items| > 1 && tail == PrintItems(items[1..]) + "]" + rest
    requires ParseValue(Print(items[0]) + ("," + tail)) == Some(Parsed(items[0], "," + tail))
    requires ParseItems(tail) == Some(Parsed(items[1..], rest))
    ensures ParseItems(PrintItems(items) + "]" + rest) == Some(Parsed(items, rest))
  {
    Regroup(Print(items[0]), PrintItems(items[1..]), "]", rest);
    Prefixed(",", tail);
    ItemsStep(Print(items[0]) + ("," + tail), items[0], "," + tail);
    assert items == [items[0]] + items[1..];
  }

  lemma {:induction false} ItemsRoundTrip(items: seq<Json>, rest: string)
    requires items != [] && forall i | 0 <= i < |items| :: Valid(items[i])
    ensures ParseItems(PrintItems(items) + "]" + rest) == Some(Parsed(items, rest))
    decreases items, 1
  {
    if |items| == 1 {
      ValueRoundTrip(items[0], "]" + rest);
      LastItem(items, rest);
    } else {
      var tail := PrintItems(items[1..]) + "]" + rest;
      ValueRoundTrip(items[0], "," + tail);
      ItemsRoundTrip(items[1..], rest);
      MoreItems(items, rest, tail);
    }
  }

  lemma EntryStep(e: Entry, tail: string, rest: string)
    requires tail != "" && tail[0] == ':' && ParseValue(tail[1..]) == Some(Parsed(e.value, rest))
    ensures ParseEntry(Quote(e.key) + tail) == Some(Parsed(e, rest))
  {
    QuoteRoundTrip(e.key, tail);
  }

  lemma Coloned(key: string, value: string, rest: string)
    ensures key + ":" + value + rest == key + (":" + (value + rest))
  {
  }

  lemma {:induction false} EntryRoundTrip(e: Entry, rest: string)
    requires Valid(e.value) && Delimited(rest)
    ensures ParseEntry(PrintEntry(e) + rest) == Some(Parsed(e, rest))
    decreases e, 1
  {
    var value := Print(e.value);
    ValueRoundTrip(e.value, rest);
    Prefixed(":", value + rest);
    EntryStep(e, ":" + (value + rest), rest);
    Coloned(Quote(e.key), value, rest);
  }

  lemma EntriesStep(s: string, e: Entry, tail: string)
    requires ParseEntry(s) == Some(Parsed(e, tail)) && tail != ""
    ensures tail[0] == '}' ==> ParseEntries(s) == Some(Parsed([e], tail[1..]))
    ensures tail[0] == ',' && ParseEntries(tail[1..]).Some? ==>
      ParseEntries(s) == Some(Parsed([e] + ParseEntries(tail[1..]).value.value, ParseEntries(tail[1..]).value.rest))
  {
  }

  lemma {:induction false} EntriesRoundTrip(entries: seq<Entry>, rest: string)
    requires entries != [] && forall i | 0 <= i < |entries| :: Valid(entries[i].value)
    ensures ParseEntries(PrintEntries(entries) + "}" + rest) == Some(Parsed(entries, rest))
    decreases entries, 2
  {
    var first, others := PrintEntry(entries[0]), PrintEntries(entries[1..]);
    Regroup(first, others, "}", rest);
    if |entries| == 1 {
      EntryRoundTrip(entries[0], "}" + rest);
      EntriesStep(first + ("}" + rest), entries[0], "}" + rest);
      Prefixed("}", rest);
      assert entries == [entries[0]];
    } else {
      var tail := others + "}" + rest;
      EntryRoundTrip(entries[0], "," + tail);
      EntriesRoundTrip(entries[1..], rest);
      Prefixed(",", tail);
      EntriesStep(first + ("," + tail), entries[0], "," + tail);
      assert entries == [entries[0]] + entries[1..];
    }
  }

  /** A printed value reads back as itself: printing is injective on JSON values. */
  lemma PrintRoundTrip(v: Json)
    requires Valid(v)
    ensures Decode(Print(v)) == Some(v)
  {
    ValueRoundTrip(v, "");
    assert Print(v) + "" == Print(v);
  }

  // ---------------------------------------------------------------- key order

  ghost predicate StrictlySorted(entries: seq<Entry>, le: KeyOrder) {
    forall i, j | 0 <= i < j < |entries| :: le(entries[i].key, entries[j].key) && entries[i].key != entries[j].key
  }

  ghost predicate SameEntries(a: seq<Entry>, b: seq<Entry>) {
    forall e :: e in a <==> e in b
  }

  lemma InsertMembers(e: Entry, sorted: seq<Entry>, le: KeyOrder)
    ensures forall x :: x in InsertEntry(e, sorted, le) <==> x == e || x in sorted
  {
    var r := InsertEntry(e, sorted, le);
    assert forall x :: x in r <==> x in multiset(r);
    assert forall x :: x in sorted <==> x in multiset(sorted);
  }

  /** A smallest head before a sorted tail. */
  lemma ConsSorted(e: Entry, tail: seq<Entry>, le: KeyOrder)
    requires StrictlySorted(tail, le) && forall x | x in tail :: le(e.key, x.key) && e.key != x.key
    ensures StrictlySorted([e] + tail, le)
  {
    var r := [e] + tail;
    forall i, j | 0 <= i < j < |r|
      ensures le(r[i].key, r[j].key) && r[i].key != r[j].key
    {
      assert r[j] == tail[j - 1] && tail[j - 1] in tail;
    }
  }

  lemma {:induction false} InsertSorted(e: Entry, sorted: seq<Entry>, le: KeyOrder)
    requires TotalOrder(le) && StrictlySorted(sorted, le) && forall x | x in sorted :: x.key != e.key
    ensures StrictlySorted(InsertEntry(e, sorted, le), le)
  {
    if sorted != [] {
      assert forall x | x in sorted :: x == sorted[0] || le(sorted[0].key, x.key);
      if le(e.key, sorted[0].key) {
        ConsSorted(e, sorted, le);
      } else {
        InsertSorted(e, sorted[1..], le);
        InsertMembers(e, sorted[1..], le);
        ConsSorted(sorted[0], InsertEntry(e, sorted[1..], le), le);
      }
    }
  }

  lemma {:induction false} SortSorts(entries: seq<Entry>, le: KeyOrder)
    requires TotalOrder(le) && DistinctKeys(entries)
    ensures StrictlySorted(SortEntries(entries, le), le) && SameEntries(SortEntries(entries, le), entries)
  {
    if entries != [] {
      SortSorts(entries[1..], le);
      assert entries == [entries[0]] + entries[1..];
      forall x | x in SortEntries(entries[1..], le)
        ensures x.key != entries[0].key
      {
        assert x in entries[1..];
      }
      InsertSorted(entries[0], SortEntries(entries[1..], le), le);
      InsertMembers(entries[0], SortEntries(entries[1..], le), le);
    }
  }

  /** A set of entries with distinct keys has one sorted listing. */
  lemma {:induction false} SortedUnique(a: seq<Entry>, b: seq<Entry>, le: KeyOrder)
    requires TotalOrder(le) && StrictlySorted(a, le) && StrictlySorted(b, le) && SameEntries(a, b)
    ensures a == b
  {
    if a == [] {
      assert forall i | 0 <= i < |b| :: b[i] in b;
    } else {
      assert a[0] in b && b[0] in a;
      assert le(a[0].key, b[0].key) && le(b[0].key, a[0].key);
      assert a[0] == b[0];
      forall e
        ensures e in a[1..] <==> e in b[1..]
      {
        assert a == [a[0]] + a[1..] && b == [b[0]] + b[1..];
        assert e in a[1..] ==> e in b && e.key != a[0].key;
        assert e in b[1..] ==> e in a && e.key != b[0].key;
      }
      SortedUnique(a[1..], b[1..], le);
      assert a == [a[0]] + a[1..] && b == [b[0]] + b[1..];
    }
  }

  // ---------------------------------------------------------------- stable prints the canonical form

  lemma {:induction false} StableIsPrint(v: Json, le: KeyOrder)
    ensures Stable(v, le) == Print(Canon(v, le))
    decreases v, 0
  {
    match v
    case JArr(items) => StableItemsPrint(items, le);
    case JObj(entries) =>
      var sorted := SortEntries(entries, le);
      assert forall e | e in sorted :: e in multiset(sorted);
      StableEntriesPrint(v, sorted, le);
    case _ =>
  }

  function CanonItems(items: seq<Json>, le: KeyOrder): seq<Json> {
    seq(|items|, i requires 0 <= i < |items| => Canon(items[i], le))
  }

  lemma {:induction false} StableItemsPrint(items: seq<Json>, le: KeyOrder)
    ensures StableItems(items, le) == PrintItems(CanonItems(items, le))
    decreases items, 1
  {
    if items != [] {
      StableIsPrint(items[0], le);
      StableItemsPrint(items[1..], le);
      assert CanonItems(items, le)[1..] == CanonItems(items[1..], le);
    }
  }

  lemma {:induction false} StableEntriesPrint(v: Json, sorted: seq<Entry>, le: KeyOrder)
    requires v.JObj? && forall e | e in sorted :: e in v.entries
    ensures StableEntries(v, sorted, le) == PrintEntries(CanonEntries(v, sorted, le))
    decreases v, 0, |sorted|
  {
    if sorted != [] {
      EntryBelow(v, sorted[0]);
      StableIsPrint(sorted[0].value, le);
      StableEntriesPrint(v, sorted[1..], le);
      assert CanonEntries(v, sorted, le)[1..] == CanonEntries(v, sorted[1..], le);
    }
  }

  lemma EntryBelow(v: Json, e: Entry)
    requires v.JObj? && e in v.entries
    ensures e.value < v
  {
    var i :| 0 <= i < |v.entries| && v.entries[i] == e;
    assert v.entries[i].value < v;
  }

  // ---------------------------------------------------------------- meaning and canonical form

  /** The map holds the meaning of every entry under its key, and nothing else. */
  ghost predicate Lists(entries: seq<Entry>, fields: map<string, Meaning>) {
    && (forall i | 0 <= i < |entries| ::
          entries[i].key in fields && fields[entries[i].key] == MeaningOf(entries[i].value))
    && (forall k | k in fields :: exists i | 0 <= i < |entries| :: entries[i].key == k)
  }

  lemma ListsAppend(front: seq<Entry>, last: Entry, fields: map<string, Meaning>, m: Meaning)
    requires Lists(front, fields) && (forall i | 0 <= i < |front| :: front[i].key != last.key)
    requires m == MeaningOf(last.value)
    ensures Lists(front + [last], fields[last.key := m])
  {
    var entries, all := front + [last], fields[last.key := m];
    forall k | k in all
      ensures exists i | 0 <= i < |entries| :: entries[i].key == k
    {
      if k == last.key {
        assert entries[|front|].key == k;
      } else {
        var i :| 0 <= i < |front| && front[i].key == k;
        assert entries[i].key == k;
      }
    }
  }

  lemma {:induction false} FieldsAt(entries: seq<Entry>)
    requires DistinctKeys(entries)
    ensures Lists(entries, FieldsOf(entries))
  {
    if entries != [] {
      var front, last := entries[..|entries| - 1], entries[|entries| - 1];
      FieldsAt(front);
      ListsAppend(front, last, FieldsOf(front), MeaningOf(last.value));
      assert front + [last] == entries;
    }
  }

  lemma {:induction false} CanonEntryAt(v: Json, sorted: seq<Entry>, i: nat, le: KeyOrder)
    requires v.JObj? && (forall e | e in sorted :: e in v.entries) && i < |sorted|
    ensures CanonEntries(v, sorted, le)[i] == Entry(sorted[i].key, Canon(sorted[i].value, le))
    decreases |sorted|
  {
    if i > 0 {
      CanonEntryAt(v, sorted[1..], i - 1, le);
    }
  }

  lemma KeysSorted(sorted: seq<Entry>, c: seq<Entry>, le: KeyOrder)
    requires StrictlySorted(sorted, le) && |c| == |sorted| && forall i | 0 <= i < |c| :: c[i].key == sorted[i].key
    ensures StrictlySorted(c, le)
  {
  }

  lemma CanonIsSorted(v: Json, le: KeyOrder)
    requires TotalOrder(le) && v.JObj? && DistinctKeys(v.entries)
    ensures Canon(v, le).JObj? && StrictlySorted(Canon(v, le).entries, le)
  {
    SortSorts(v.entries, le);
    KeysSorted(SortEntries(v.entries, le), Canon(v, le).entries, le);
  }

  lemma CanonHas(v: Json, le: KeyOrder, e: Entry)
    requires TotalOrder(le) && v.JObj? && DistinctKeys(v.entries) && e in v.entries
    ensures Canon(v, le).JObj? && Entry(e.key, Canon(e.value, le)) in Canon(v, le).entries
  {
    var sorted := SortEntries(v.entries, le);
    SortedMembers(v.entries, le, e);
    var i :| 0 <= i < |sorted| && sorted[i] == e;
    CanonEntryIn(v, le, sorted, i);
  }

  /** Sorting neither loses nor invents entries. */
  lemma SortedMembers(entries: seq<Entry>, le: KeyOrder, e: Entry)
    requires TotalOrder(le) && DistinctKeys(entries)
    ensures e in SortEntries(entries, le) <==> e in entries
    ensures forall x | x in SortEntries(entries, le) :: x in entries
  {
    SortSorts(entries, le);
  }

  lemma CanonEntryIn(v: Json, le: KeyOrder, sorted: seq<Entry>, i: nat)
    requires v.JObj? && sorted == SortEntries(v.entries, le) && (forall x | x in sorted :: x in v.entries)
    requires i < |sorted|
    ensures Canon(v, le).JObj? && Entry(sorted[i].key, Canon(sorted[i].value, le)) in Canon(v, le).entries
  {
    CanonEntryAt(v, sorted, i, le);
  }

  lemma CanonFrom(v: Json, le: KeyOrder, x: Entry) returns (e: Entry)
    requires TotalOrder(le) && v.JObj? && DistinctKeys(v.entries) && Canon(v, le).JObj? && x in Canon(v, le).entries
    ensures e in v.entries && x == Entry(e.key, Canon(e.value, le))
  {
    var sorted, c := SortEntries(v.entries, le), Canon(v, le).entries;
    SortSorts(v.entries, le);
    var i :| 0 <= i < |c| && c[i] == x;
    CanonEntryAt(v, sorted, i, le);
    e := sorted[i];
    assert e in sorted;
  }

  /** The canonical entries of an object, one for each of its entries. */
  lemma CanonObject(v: Json, le: KeyOrder)
    requires TotalOrder(le) && v.JObj? && DistinctKeys(v.entries)
    ensures Canon(v, le).JObj? && StrictlySorted(Canon(v, le).entries, le)
    ensures forall e | e in v.entries :: Entry(e.key, Canon(e.value, le)) in Canon(v, le).entries
    ensures forall x | x in Canon(v, le).entries :: exists e | e in v.entries :: x == Entry(e.key, Canon(e.value, le))
  {
    CanonIsSorted(v, le);
    forall e | e in v.entries
      ensures Entry(e.key, Canon(e.value, le)) in Canon(v, le).entries
    {
      CanonHas(v, le, e);
    }
    forall x | x in Canon(v, le).entries
      ensures exists e | e in v.entries :: x == Entry(e.key, Canon(e.value, le))
    {
      var e := CanonFrom(v, le, x);
    }
  }

  lemma {:induction false} CanonValid(v: Json, le: KeyOrder)
    requires TotalOrder(le) && Valid(v)
    ensures Valid(Canon(v, le))
    decreases v
  {
    match v
    case JArr(items) =>
      forall i | 0 <= i < |items|
        ensures Valid(Canon(items[i], le))
      {
        CanonValid(items[i], le);
      }
    case JObj(entries) =>
      CanonObject(v, le);
      var c := Canon(v, le).entries;
      forall i | 0 <= i < |c|
        ensures Valid(c[i].value)
      {
        assert c[i] in c;
        var e :| e in entries && c[i] == Entry(e.key, Canon(e.value, le));
        EntryBelow(v, e);
        var j :| 0 <= j < |entries| && entries[j] == e;
        assert Valid(entries[j].value);
        CanonValid(e.value, le);
      }
    case _ =>
  }

  /** Sorting changes nothing in what the value means. */
  lemma {:induction false} CanonMeansSame(v: Json, le: KeyOrder)
    requires TotalOrder(le) && Valid(v)
    ensures MeaningOf(Canon(v, le)) == MeaningOf(v)
    decreases v, 0
  {
    match v
    case JArr(items) =>
      forall i | 0 <= i < |items|
        ensures MeaningOf(Canon(items[i], le)) == MeaningOf(items[i])
      {
        CanonMeansSame(items[i], le);
      }
    case JObj(entries) =>
      forall i | 0 <= i < |entries|
        ensures MeaningOf(Canon(entries[i].value, le)) == MeaningOf(entries[i].value)
      {
        CanonMeansSame(entries[i].value, le);
      }
      CanonFields(v, le);
    case _ =>
  }

  lemma CanonFields(v: Json, le: KeyOrder)
    requires TotalOrder(le) && v.JObj? && DistinctKeys(v.entries)
    requires forall i | 0 <= i < |v.entries| ::
      MeaningOf(Canon(v.entries[i].value, le)) == MeaningOf(v.entries[i].value)
    ensures Canon(v, le).JObj? && FieldsOf(Canon(v, le).entries) == FieldsOf(v.entries)
  {
    CanonObject(v, le);
    forall i | 0 <= i < |v.entries|
      ensures Carries(Canon(v, le).entries, v.entries[i])
    {
      CanonCarries(v, i, le);
    }
    CanonKeys(v, le);
    SameFields(v.entries, Canon(v, le).entries);
  }

  lemma CanonCarries(v: Json, i: nat, le: KeyOrder)
    requires TotalOrder(le) && v.JObj? && DistinctKeys(v.entries) && i < |v.entries| && Canon(v, le).JObj?
    requires MeaningOf(Canon(v.entries[i].value, le)) == MeaningOf(v.entries[i].value)
    ensures Carries(Canon(v, le).entries, v.entries[i])
  {
    CanonObject(v, le);
    var c, x := Canon(v, le).entries, Entry(v.entries[i].key, Canon(v.entries[i].value, le));
    assert v.entries[i] in v.entries;
    assert x in c;
    var j :| 0 <= j < |c| && c[j] == x;
  }

  lemma CanonKeys(v: Json, le: KeyOrder)
    requires TotalOrder(le) && v.JObj? && DistinctKeys(v.entries) && Canon(v, le).JObj?
    ensures forall j | 0 <= j < |Canon(v, le).entries| :: Canon(v, le).entries[j].key in FieldsOf(v.entries)
  {
    CanonObject(v, le);
    FieldsAt(v.entries);
    var c := Canon(v, le).entries;
    forall j | 0 <= j < |c|
      ensures c[j].key in FieldsOf(v.entries)
    {
      assert c[j] in c;
      var e :| e in v.entries && c[j] == Entry(e.key, Canon(e.value, le));
      var i :| 0 <= i < |v.entries| && v.entries[i] == e;
    }
  }

  /** Some entry has the key and the meaning of `e`. */
  ghost predicate Carries(entries: seq<Entry>, e: Entry) {
    exists j | 0 <= j < |entries| :: entries[j].key == e.key && MeaningOf(entries[j].value) == MeaningOf(e.value)
  }

  lemma ListedField(a: seq<Entry>, b: seq<Entry>, fields: map<string, Meaning>, others: map<string, Meaning>, k: string)
    requires Lists(a, fields) && Lists(b, others) && k in fields
    requires forall i | 0 <= i < |a| :: Carries(b, a[i])
    ensures k in others && others[k] == fields[k]
  {
    var i :| 0 <= i < |a| && a[i].key == k;
    assert Carries(b, a[i]);
  }

  lemma SameMap(fields: map<string, Meaning>, others: map<string, Meaning>)
    requires forall k | k in fields :: k in others && others[k] == fields[k]
    requires forall k | k in others :: k in fields
    ensures others == fields
  {
  }

  lemma KeysListed(a: seq<Entry>, b: seq<Entry>, fields: map<string, Meaning>, others: map<string, Meaning>)
    requires Lists(b, others) && forall j | 0 <= j < |b| :: b[j].key in fields
    ensures forall k | k in others :: k in fields
  {
  }

  lemma SameFields(a: seq<Entry>, b: seq<Entry>)
    requires DistinctKeys(a) && DistinctKeys(b)
    requires forall i | 0 <= i < |a| :: Carries(b, a[i])
    requires forall j | 0 <= j < |b| :: b[j].key in FieldsOf(a)
    ensures FieldsOf(b) == FieldsOf(a)
  {
    var fields, others := FieldsOf(a), FieldsOf(b);
    FieldsAt(a);
    FieldsAt(b);
    forall k | k in fields
      ensures k in others && others[k] == fields[k]
    {
      ListedField(a, b, fields, others, k);
    }
    KeysListed(a, b, fields, others);
    SameMap(fields, others);
  }

  /** Values of the same meaning have the same canonical form. */
  lemma {:induction false} MeaningDecidesCanon(a: Json, b: Json, le: KeyOrder)
    requires TotalOrder(le) && Valid(a) && Valid(b) && MeaningOf(a) == MeaningOf(b)
    ensures Canon(a, le) == Canon(b, le)
    decreases a
  {
    match a
    case JArr(items) =>
      var ma, mb := MeaningOf(a).items, MeaningOf(b).items;
      forall i | 0 <= i < |items|
        ensures Canon(items[i], le) == Canon(b.items[i], le)
      {
        assert ma[i] == mb[i];
        MeaningDecidesCanon(items[i], b.items[i], le);
      }
    case JObj(entries) =>
      CanonObject(a, le);
      CanonObject(b, le);
      var ca, cb := Canon(a, le).entries, Canon(b, le).entries;
      forall e | e in entries
        ensures Entry(e.key, Canon(e.value, le)) in cb
      {
        var f := SameField(a, b, e);
        EntryBelow(a, e);
        MeaningDecidesCanon(e.value, f.value, le);
      }
      forall f | f in b.entries
        ensures Entry(f.key, Canon(f.value, le)) in ca
      {
        var e := SameField(b, a, f);
        EntryBelow(a, e);
        MeaningDecidesCanon(e.value, f.value, le);
      }
      SortedUnique(ca, cb, le);
    case _ =>
  }

  /** The entry of an object of the same meaning that corresponds to `e`. */
  lemma SameField(a: Json, b: Json, e: Entry) returns (f: Entry)
    requires Valid(a) && Valid(b) && MeaningOf(a) == MeaningOf(b) && a.JObj? && e in a.entries
    ensures b.JObj? && f in b.entries && f.key == e.key && MeaningOf(f.value) == MeaningOf(e.value) && Valid(f.value)
    ensures Valid(e.value)
  {
    FieldsAt(a.entries);
    FieldsAt(b.entries);
    var i :| 0 <= i < |a.entries| && a.entries[i] == e;
    assert e.key in FieldsOf(b.entries);
    var j :| 0 <= j < |b.entries| && b.entries[j].key == e.key;
    f := b.entries[j];
    assert Valid(a.entries[i].value) && Valid(b.entries[j].value);
  }

  /** `stable` of two values agrees exactly when they mean the same: it is blind to key order, and to nothing else. */
  lemma StableDecidesMeaning(a: Json, b: Json, le: KeyOrder)
    requires TotalOrder(le) && Valid(a) && Valid(b)
    ensures Stable(a, le) == Stable(b, le) <==> MeaningOf(a) == MeaningOf(b)
  {
    StableIsPrint(a, le);
    StableIsPrint(b, le);
    CanonValid(a, le);
    CanonValid(b, le);
    CanonMeansSame(a, le);
    CanonMeansSame(b, le);
    if Stable(a, le) == Stable(b, le) {
      PrintRoundTrip(Canon(a, le));
      PrintRoundTrip(Canon(b, le));
    }
    if MeaningOf(a) == MeaningOf(b) {
      MeaningDecidesCanon(a, b, le);
    }
  }

  /** The printed text reads back as a value of the same meaning. */
  lemma StableRoundTrip(v: Json, le: KeyOrder)
    requires TotalOrder(le) && Valid(v)
    ensures Decode(Stable(v, le)).Some? && MeaningOf(Decode(Stable(v, le)).value) == MeaningOf(v)
  {
    StableIsPrint(v, le);
    CanonValid(v, le);
    PrintRoundTrip(Canon(v, le));
    CanonMeansSame(v, le);
  }
}
