/** What the content digest and the two task keys identify. */
module ContentDigest {
  import opened Common
  import opened CanonicalJson
  import opened CaseModel
  import opened StablePrinter
  import opened StableProofs

  // ---------------------------------------------------------------- computePdfContentDigest

  function Without(entries: seq<Entry>, key: string): seq<Entry> {
    if entries == [] then []
    else
      var last := entries[|entries| - 1];
      Without(entries[..|entries| - 1], key) + if last.key == key then [] else [last]
  }

  /** `{draftVersion, ...content}`: the digest is taken of the rest. */
  function DigestOf(hash: string -> Digest, input: seq<Entry>, le: KeyOrder): Digest {
    hash(Stable(JObj(Without(input, "draftVersion")), le))
  }

  lemma AddAndRemove(fields: map<string, Meaning>, k: string, m: Meaning, key: string)
    ensures fields[k := m] - {key} == if k == key then fields - {key} else (fields - {key})[k := m]
  {
  }

  lemma FieldsAppend(front: seq<Entry>, last: Entry)
    ensures FieldsOf(front + [last]) == FieldsOf(front)[last.key := MeaningOf(last.value)]
  {
    var entries := front + [last];
    assert entries[..|entries| - 1] == front;
  }

  lemma {:induction false} WithoutFields(entries: seq<Entry>, key: string)
    ensures FieldsOf(Without(entries, key)) == FieldsOf(entries) - {key}
  {
    if entries != [] {
      var front, last := entries[..|entries| - 1], entries[|entries| - 1];
      var kept := Without(front, key);
      WithoutFields(front, key);
      AddAndRemove(FieldsOf(front), last.key, MeaningOf(last.value), key);
      if last.key == key {
        assert kept + [] == kept;
      } else {
        FieldsAppend(kept, last);
      }
    }
  }

  lemma {:induction false} WithoutValid(entries: seq<Entry>, key: string)
    requires Valid(JObj(entries))
    ensures Valid(JObj(Without(entries, key))) && forall e | e in Without(entries, key) :: e in entries && e.key != key
  {
    if entries != [] {
      var front, last := entries[..|entries| - 1], entries[|entries| - 1];
      WithoutValid(front, key);
      var kept := Without(front, key);
      assert forall i | 0 <= i < |kept| :: kept[i] in kept;
      assert forall e | e in front :: e.key != last.key;
    }
  }

  ghost predicate Injective(hash: string -> Digest) {
    forall a, b :: hash(a) == hash(b) ==> a == b
  }

  /**
   With a collision-free hash two inputs have the same digest exactly when they differ at most in `draftVersion` and
   key order.
   */
  lemma DigestIgnoresExactlyTheVersion(hash: string -> Digest, a: seq<Entry>, b: seq<Entry>, le: KeyOrder)
    requires Injective(hash) && TotalOrder(le) && Valid(JObj(a)) && Valid(JObj(b))
    ensures DigestOf(hash, a, le) == DigestOf(hash, b, le)
      <==> FieldsOf(a) - {"draftVersion"} == FieldsOf(b) - {"draftVersion"}
  {
    var x, y := JObj(Without(a, "draftVersion")), JObj(Without(b, "draftVersion"));
    WithoutFields(a, "draftVersion");
    WithoutFields(b, "draftVersion");
    WithoutValid(a, "draftVersion");
    WithoutValid(b, "draftVersion");
    StableDecidesMeaning(x, y, le);
  }

  // ---------------------------------------------------------------- the digest of a case's content

  /** The parts of the render input that are frozen with the case. */
  datatype Frozen = Frozen(templateVersionId: string, ast: Json, snapshot: seq<Entry>)

  function MimeName(m: Mime): string {
    match m case ApplicationPdf => "application/pdf" case ImagePng => "image/png" case ImageJpeg => "image/jpeg"
  }

  function FileJson(f: FileMeta): seq<Entry> {
    [Entry("fileId", JStr(Digits(f.fileId))), Entry("originalName", JStr(f.name)),
     Entry("mimeType", JStr(MimeName(f.mime))),
     Entry("sizeBytes", JNum(Digits(f.size))), Entry("sha256", JStr(f.sha)),
     Entry("requirementKey", if f.requirement.Some? then JStr(f.requirement.value) else JNull)]
  }

  function FilesJson(files: seq<FileMeta>): Json {
    JArr(seq(|files|, i requires 0 <= i < |files| => JObj(FileJson(files[i]))))
  }

  /** The render input of the canonical preview, with the draft's own version. */
  function RenderInput(frozen: Frozen, c: Content, draftVersion: nat): seq<Entry> {
    [Entry("templateVersionId", JStr(frozen.templateVersionId)), Entry("ast", frozen.ast),
     Entry("snapshot", SnapshotJson(frozen, c.materials)),
     Entry("draftVersion", JNum(Digits(draftVersion))), Entry("answers", JObj(c.answers)),
     Entry("files", FilesJson(c.files))]
  }

  /** The same keys in the same order. */
  ghost predicate Aligned(a: seq<Entry>, b: seq<Entry>) {
    |a| == |b| && DistinctKeys(a) && DistinctKeys(b) && forall i | 0 <= i < |a| :: a[i].key == b[i].key
  }

  ghost predicate AgreeExcept(a: seq<Entry>, b: seq<Entry>, key: string)
    requires |a| == |b|
  {
    forall i | 0 <= i < |a| :: a[i].key == key || MeaningOf(a[i].value) == MeaningOf(b[i].value)
  }

  lemma {:induction false} RecordFields(a: seq<Entry>, b: seq<Entry>, key: string)
    requires Aligned(a, b) && AgreeExcept(a, b, key)
    ensures FieldsOf(a) - {key} == FieldsOf(b) - {key}
  {
    if a != [] {
      var x, y := a[|a| - 1], b[|b| - 1];
      var fields, others := FieldsOf(a[..|a| - 1]), FieldsOf(b[..|b| - 1]);
      RecordFields(a[..|a| - 1], b[..|b| - 1], key);
      AddField(fields, others, x.key, MeaningOf(x.value), MeaningOf(y.value), key);
    }
  }

  lemma AddField(
    fields: map<string, Meaning>, others: map<string, Meaning>, k: string, m: Meaning, n: Meaning, key: string)
    requires fields - {key} == others - {key} && (k == key || m == n)
    ensures fields[k := m] - {key} == others[k := n] - {key}
  {
    var x, y := fields[k := m] - {key}, others[k := n] - {key};
    forall i
      ensures i in x <==> i in y
      ensures i in x ==> x[i] == y[i]
    {
      assert i in fields - {key} <==> i in others - {key};
      assert i in fields - {key} ==> (fields - {key})[i] == (others - {key})[i];
    }
  }

  lemma FieldsAgree(a: seq<Entry>, b: seq<Entry>, key: string)
    requires Aligned(a, b) && FieldsOf(a) - {key} == FieldsOf(b) - {key}
    ensures AgreeExcept(a, b, key)
  {
    FieldsAt(a);
    FieldsAt(b);
    var fields, others := FieldsOf(a), FieldsOf(b);
    forall i | 0 <= i < |a| && a[i].key != key
      ensures MeaningOf(a[i].value) == MeaningOf(b[i].value)
    {
      assert (fields - {key})[a[i].key] == (others - {key})[b[i].key];
    }
  }

  /** Two records with the same keys mean the same, one key aside, exactly when all their other fields do. */
  lemma SameRecord(a: seq<Entry>, b: seq<Entry>, key: string)
    requires Aligned(a, b)
    ensures FieldsOf(a) - {key} == FieldsOf(b) - {key} <==> AgreeExcept(a, b, key)
  {
    if AgreeExcept(a, b, key) {
      RecordFields(a, b, key);
    }
    if FieldsOf(a) - {key} == FieldsOf(b) - {key} {
      FieldsAgree(a, b, key);
    }
  }

  lemma {:induction false} DigitsAreNumber(n: nat)
    ensures Digits(n) != "" && forall i | 0 <= i < |Digits(n)| :: '0' <= Digits(n)[i] <= '9'
  {
    if n >= 10 {
      DigitsAreNumber(n / 10);
    }
  }

  lemma DigitsEnd(n: nat)
    ensures n < 10 ==> |Digits(n)| == 1
    ensures n >= 10 ==>
      && |Digits(n)| >= 2 && Digits(n)[|Digits(n)| - 1] == HexDigit(n % 10)
      && Digits(n)[..|Digits(n)| - 1] == Digits(n / 10)
  {
    DigitsAreNumber(n / 10);
  }

  lemma {:induction false} DigitsInjective(a: nat, b: nat)
    requires Digits(a) == Digits(b)
    ensures a == b
  {
    DigitsEnd(a);
    DigitsEnd(b);
    if a >= 10 {
      DigitsInjective(a / 10, b / 10);
      assert a % 10 == b % 10;
    }
  }

  ghost predicate AgreeAt(a: seq<Entry>, b: seq<Entry>, i: nat)
    requires i < |a| == |b|
  {
    MeaningOf(a[i].value) == MeaningOf(b[i].value)
  }

  /** A record of six fields, field by field. */
  lemma SixFields(a: seq<Entry>, b: seq<Entry>, key: string)
    requires |a| == |b| == 6 && AgreeExcept(a, b, key)
    ensures a[0].key != key ==> AgreeAt(a, b, 0)
    ensures a[1].key != key ==> AgreeAt(a, b, 1)
    ensures a[2].key != key ==> AgreeAt(a, b, 2)
    ensures a[3].key != key ==> AgreeAt(a, b, 3)
    ensures a[4].key != key ==> AgreeAt(a, b, 4)
    ensures a[5].key != key ==> AgreeAt(a, b, 5)
  {
  }

  lemma FileKeys(f: FileMeta, g: FileMeta)
    ensures Aligned(FileJson(f), FileJson(g)) && forall i | 0 <= i < 6 :: FileJson(f)[i].key != ""
  {
  }

  /** Each column of a file row can be read off the meaning of its field. */
  lemma FileColumns(f: FileMeta, g: FileMeta)
    requires AgreeAt(FileJson(f), FileJson(g), 0) && AgreeAt(FileJson(f), FileJson(g), 1)
    requires AgreeAt(FileJson(f), FileJson(g), 2) && AgreeAt(FileJson(f), FileJson(g), 3)
    requires AgreeAt(FileJson(f), FileJson(g), 4) && AgreeAt(FileJson(f), FileJson(g), 5)
    ensures f == g
  {
    DigitsInjective(f.fileId, g.fileId);
    DigitsInjective(f.size, g.size);
  }

  lemma FileMeaning(f: FileMeta, g: FileMeta)
    ensures MeaningOf(JObj(FileJson(f))) == MeaningOf(JObj(FileJson(g))) <==> f == g
  {
    if MeaningOf(JObj(FileJson(f))) == MeaningOf(JObj(FileJson(g))) {
      FileKeys(f, g);
      SameRecord(FileJson(f), FileJson(g), "");
      SixFields(FileJson(f), FileJson(g), "");
      FileColumns(f, g);
    }
  }

  lemma FilesMeaning(files: seq<FileMeta>, others: seq<FileMeta>)
    ensures MeaningOf(FilesJson(files)) == MeaningOf(FilesJson(others)) <==> files == others
  {
    var a, b := MeaningOf(FilesJson(files)).items, MeaningOf(FilesJson(others)).items;
    if a == b {
      assert |files| == |others|;
      forall i | 0 <= i < |files|
        ensures files[i] == others[i]
      {
        assert a[i] == b[i];
        FileMeaning(files[i], others[i]);
      }
    }
  }

  /** The content of a draft as a client may send it. */
  ghost predicate ContentValid(frozen: Frozen, c: Content) {
    Valid(frozen.ast) && Valid(JObj(frozen.snapshot)) && Valid(c.materials) && Valid(JObj(c.answers))
  }

  lemma FilesValid(files: seq<FileMeta>)
    ensures Valid(FilesJson(files))
  {
    forall i | 0 <= i < |files|
      ensures Valid(JObj(FileJson(files[i])))
    {
      DigitsAreNumber(files[i].size);
    }
  }

  function SnapshotJson(frozen: Frozen, materials: Json): Json {
    JObj(Without(frozen.snapshot, "materials") + [Entry("materials", materials)])
  }

  lemma SnapshotValid(frozen: Frozen, materials: Json)
    requires Valid(JObj(frozen.snapshot)) && Valid(materials)
    ensures Valid(SnapshotJson(frozen, materials))
  {
    WithoutValid(frozen.snapshot, "materials");
    var kept := Without(frozen.snapshot, "materials");
    assert forall i | 0 <= i < |kept| :: kept[i] in kept;
  }

  lemma OneFieldDiffers(fields: map<string, Meaning>, key: string, m: Meaning, n: Meaning)
    ensures fields[key := m] == fields[key := n] <==> m == n
  {
    assert fields[key := m][key] == m && fields[key := n][key] == n;
  }

  lemma SnapshotMeaning(frozen: Frozen, a: Json, b: Json)
    ensures MeaningOf(SnapshotJson(frozen, a)) == MeaningOf(SnapshotJson(frozen, b)) <==> MeaningOf(a) == MeaningOf(b)
  {
    var kept := Without(frozen.snapshot, "materials");
    FieldsAppend(kept, Entry("materials", a));
    FieldsAppend(kept, Entry("materials", b));
    OneFieldDiffers(FieldsOf(kept), "materials", MeaningOf(a), MeaningOf(b));
  }

  lemma RenderInputValid(frozen: Frozen, c: Content, v: nat)
    requires ContentValid(frozen, c)
    ensures Valid(JObj(RenderInput(frozen, c, v)))
  {
    SnapshotValid(frozen, c.materials);
    FilesValid(c.files);
    DigitsAreNumber(v);
  }

  /** What the fields of two render inputs say: template and tree are the same anyway. */
  lemma InputFields(frozen: Frozen, c: Content, v: nat, d: Content, w: nat)
    ensures var a, b := RenderInput(frozen, c, v), RenderInput(frozen, d, w);
      && AgreeAt(a, b, 0) && AgreeAt(a, b, 1)
      && (AgreeAt(a, b, 2) && AgreeAt(a, b, 4) && AgreeAt(a, b, 5) <==> SameContent(c, d))
  {
    SnapshotMeaning(frozen, c.materials, d.materials);
    FilesMeaning(c.files, d.files);
  }

  lemma InputKeys(frozen: Frozen, c: Content, v: nat)
    ensures var a := RenderInput(frozen, c, v);
      && a[2].key != "draftVersion" && a[3].key == "draftVersion" && a[4].key != "draftVersion"
      && a[5].key != "draftVersion"
  {
  }

  lemma RenderInputsAgree(frozen: Frozen, c: Content, v: nat, d: Content, w: nat)
    ensures AgreeExcept(RenderInput(frozen, c, v), RenderInput(frozen, d, w), "draftVersion") <==> SameContent(c, d)
  {
    var a, b := RenderInput(frozen, c, v), RenderInput(frozen, d, w);
    InputFields(frozen, c, v, d, w);
    InputKeys(frozen, c, v);
    if AgreeExcept(a, b, "draftVersion") {
      SixFields(a, b, "draftVersion");
    } else {
      var i :| 0 <= i < |a| && a[i].key != "draftVersion" && !AgreeAt(a, b, i);
    }
  }

  /**
   Two contents of one case have the same digest exactly when their answers and materials mean the same and their
   files are the same; the versions of the drafts they come from do not matter.
   */
  lemma ContentDigestExact(hash: string -> Digest, frozen: Frozen, c: Content, v: nat, d: Content, w: nat, le: KeyOrder)
    requires Injective(hash) && TotalOrder(le) && ContentValid(frozen, c) && ContentValid(frozen, d)
    ensures DigestOf(hash, RenderInput(frozen, c, v), le) == DigestOf(hash, RenderInput(frozen, d, w), le)
      <==> SameContent(c, d)
  {
    var a, b := RenderInput(frozen, c, v), RenderInput(frozen, d, w);
    RenderInputValid(frozen, c, v);
    RenderInputValid(frozen, d, w);
    DigestIgnoresExactlyTheVersion(hash, a, b, le);
    SameRecord(a, b, "draftVersion");
    RenderInputsAgree(frozen, c, v, d, w);
  }

  ghost predicate SameContent(c: Content, d: Content) {
    MeaningOf(JObj(c.answers)) == MeaningOf(JObj(d.answers)) && MeaningOf(c.materials) == MeaningOf(d.materials)
      && c.files == d.files
  }

  // ---------------------------------------------------------------- the keys of a PDF task

  /** The JSON-array key identifies the task, whatever characters its ids contain. */
  lemma IdempotencyKeyInjective(a: TaskIdentity, b: TaskIdentity)
    ensures IdempotencyKey(a) == IdempotencyKey(b) <==> a == b
  {
    var x, y := JArr(KeyParts(a)), JArr(KeyParts(b));
    DigitsAreNumber(a.snapshotVersion);
    DigitsAreNumber(a.signatureVersion);
    DigitsAreNumber(b.snapshotVersion);
    DigitsAreNumber(b.signatureVersion);
    if IdempotencyKey(a) == IdempotencyKey(b) {
      PrintRoundTrip(x);
      PrintRoundTrip(y);
      assert x.items[1] == y.items[1] && x.items[2] == y.items[2] && x.items[3] == y.items[3]
        && x.items[4] == y.items[4];
      DigitsInjective(a.snapshotVersion, b.snapshotVersion);
      DigitsInjective(a.signatureVersion, b.signatureVersion);
    }
  }

  predicate NoColon(s: string) { forall i | 0 <= i < |s| :: s[i] != ':' }

  /** A text splits at its last colon in one way. */
  lemma SplitAtLastColon(x: string, d: string, y: string, e: string)
    requires NoColon(d) && NoColon(e) && x + ":" + d == y + ":" + e
    ensures x == y && d == e
  {
    var s, t := x + ":" + d, y + ":" + e;
    assert s[|x|] == ':' && forall i | |x| < i < |s| :: s[i] == d[i - |x| - 1];
    assert t[|y|] == ':' && forall i | |y| < i < |t| :: t[i] == e[i - |y| - 1];
    assert |x| == |y|;
    assert s[..|x|] == x && t[..|y|] == y && s[|x| + 1..] == d && t[|y| + 1..] == e;
  }

  /** And at its first. */
  lemma SplitAtFirstColon(x: string, d: string, y: string, e: string)
    requires NoColon(x) && NoColon(y) && x + ":" + d == y + ":" + e
    ensures x == y && d == e
  {
    var s, t := x + ":" + d, y + ":" + e;
    assert s[|x|] == ':' && forall i | 0 <= i < |x| :: s[i] == x[i];
    assert t[|y|] == ':' && forall i | 0 <= i < |y| :: t[i] == y[i];
    assert |x| == |y|;
    assert s[..|x|] == x && t[..|y|] == y && s[|x| + 1..] == d && t[|y| + 1..] == e;
  }

  /** The colon-joined key confuses two tasks exactly when the versions agree and the joined ids do. */
  lemma ColonKeyExact(a: TaskIdentity, b: TaskIdentity)
    ensures ColonKey(a) == ColonKey(b) <==>
      && a.snapshotVersion == b.snapshotVersion && a.signatureVersion == b.signatureVersion
      && a.caseId + ":" + a.templateVersionId == b.caseId + ":" + b.templateVersionId
  {
    DigitsAreNumber(a.snapshotVersion);
    DigitsAreNumber(a.signatureVersion);
    DigitsAreNumber(b.snapshotVersion);
    DigitsAreNumber(b.signatureVersion);
    if ColonKey(a) == ColonKey(b) {
      var x, y := a.caseId + ":" + a.templateVersionId, b.caseId + ":" + b.templateVersionId;
      SplitAtLastColon(
        x + ":" + Digits(a.snapshotVersion), Digits(a.signatureVersion),
        y + ":" + Digits(b.snapshotVersion), Digits(b.signatureVersion));
      SplitAtLastColon(x, Digits(a.snapshotVersion), y, Digits(b.snapshotVersion));
      DigitsInjective(a.snapshotVersion, b.snapshotVersion);
      DigitsInjective(a.signatureVersion, b.signatureVersion);
    }
  }

  /** It identifies the task as long as case ids contain no colon, as UUIDs do not. */
  lemma ColonKeyWithoutColons(a: TaskIdentity, b: TaskIdentity)
    requires NoColon(a.caseId) && NoColon(b.caseId)
    ensures ColonKey(a) == ColonKey(b) <==> a == b
  {
    ColonKeyExact(a, b);
    if ColonKey(a) == ColonKey(b) {
      SplitAtFirstColon(a.caseId, a.templateVersionId, b.caseId, b.templateVersionId);
    }
  }

  lemma ColonKeyCollides()
    ensures var a, b := TaskIdentity("a:b", "c", 1, 1), TaskIdentity("a", "b:c", 1, 1);
      a != b && ColonKey(a) == ColonKey(b) && IdempotencyKey(a) != IdempotencyKey(b)
  {
    var a, b := TaskIdentity("a:b", "c", 1, 1), TaskIdentity("a", "b:c", 1, 1);
    assert a.caseId[1] == ':' && |a.caseId| != |b.caseId|;
    assert a.caseId + ":" + a.templateVersionId == "a:b:c" == b.caseId + ":" + b.templateVersionId;
    ColonKeyExact(a, b);
    IdempotencyKeyInjective(a, b);
  }
}
