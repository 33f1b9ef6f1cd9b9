/** The document a request is fingerprinted by, and exactly when two requests share it. */
module Fingerprint {
  import opened Json
  import opened JsonText
  import opened JsonReader
  import opened JsonReading
  import opened Types

  datatype CacheControl = Default | Bypass | ReadOnly | WriteOnly | CacheOnly | ForceReplay

  const ENDPOINT_VERSION: string := "responses-v1"

  /** What the gateway knows about a request when it computes the key. */
  datatype Request = Request(
    tenantId: string,
    vendorId: string,
    resolvedModel: string,
    adapterVersion: string,
    control: CacheControl,
    body: Json)

  function FingerprintPolicy(control: CacheControl): string {
    if control == ForceReplay then "force-replay" else "default"
  }

  /** The members other than `stream`, in order. */
  function DropStream(fields: seq<Field>): seq<Field> {
    if fields == [] then []
    else if fields[0].key == "stream" then DropStream(fields[1..])
    else [fields[0]] + DropStream(fields[1..])
  }

  /** The body with a top-level `stream` member removed; anything else is left alone. */
  function BodyWithoutStream(body: Json): Json {
    match body
    case Obj(fields) => if "stream" in KeySet(fields) then Obj(DropStream(fields)) else body
    case _ => body
  }

  function Document(r: Request): Json {
    Obj([
      Field("tenant_id", Str(r.tenantId)),
      Field("endpoint_version", Str(ENDPOINT_VERSION)),
      Field("vendor_id", Str(r.vendorId)),
      Field("resolved_model_version", Str(r.resolvedModel)),
      Field("adapter_version", Str(r.adapterVersion)),
      Field("cache_policy", Str(FingerprintPolicy(r.control))),
      Field("body", BodyWithoutStream(r.body))
    ])
  }

  /** The canonical text that is hashed into the cache key. */
  function FingerprintText(r: Request): string {
    Serialize(Canonicalize(Document(r)))
  }

  /** Equal up to key order at every depth, whatever objects at the top have under `stream`. */
  ghost predicate SameButForStream(a: Json, b: Json) {
    match (a, b)
    case (Obj(fs), Obj(gs)) =>
      && KeySet(fs) - {"stream"} == KeySet(gs) - {"stream"}
      && forall i, j :: 0 <= i < |fs| && 0 <= j < |gs| && fs[i].key == gs[j].key && fs[i].key != "stream" ==>
           SameUpToOrder(fs[i].value, gs[j].value)
    case (_, _) => SameUpToOrder(a, b)
  }

  /** The same question asked of the requests themselves, without documents, sorting or text. */
  ghost predicate SameRequest(p: Request, q: Request) {
    && p.tenantId == q.tenantId
    && p.vendorId == q.vendorId
    && p.resolvedModel == q.resolvedModel
    && p.adapterVersion == q.adapterVersion
    && (p.control == ForceReplay <==> q.control == ForceReplay)
    && SameButForStream(p.body, q.body)
  }

  lemma {:induction false} DropStreamMembers(fields: seq<Field>, f: Field)
    ensures f in DropStream(fields) <==> f in fields && f.key != "stream"
    decreases |fields|
  {
    if fields != [] {
      DropStreamMembers(fields[1..], f);
      assert fields == [fields[0]] + fields[1..];
    }
  }

  /** What is left of an object: all members but `stream`. */
  lemma StreamlessMembers(fields: seq<Field>)
    ensures BodyWithoutStream(Obj(fields)).Obj?
    ensures forall f :: f in BodyWithoutStream(Obj(fields)).fields <==> f in fields && f.key != "stream"
    ensures KeySet(BodyWithoutStream(Obj(fields)).fields) == KeySet(fields) - {"stream"}
  {
    forall f { DropStreamMembers(fields, f); }
    var rest := BodyWithoutStream(Obj(fields)).fields;
    forall f | f in fields ensures f.key in KeySet(fields) {}
    assert forall f :: f in rest <==> f in fields && f.key != "stream";
    forall key | key in KeySet(fields) - {"stream"} ensures key in KeySet(rest) {
      var f :| f in fields && f.key == key;
      assert f in rest;
    }
  }

  lemma StreamlessCompare(a: Json, b: Json)
    ensures SameUpToOrder(BodyWithoutStream(a), BodyWithoutStream(b)) <==> SameButForStream(a, b)
  {
    match (a, b) {
      case (Obj(fs), Obj(gs)) =>
        StreamlessMembers(fs);
        StreamlessMembers(gs);
        MembersAgree(fs, gs, BodyWithoutStream(a).fields, BodyWithoutStream(b).fields);
      case (_, _) =>
    }
  }

  lemma MembersAgree(fs: seq<Field>, gs: seq<Field>, xs: seq<Field>, ys: seq<Field>)
    requires forall f :: f in xs <==> f in fs && f.key != "stream"
    requires forall g :: g in ys <==> g in gs && g.key != "stream"
    ensures (forall i, j :: 0 <= i < |xs| && 0 <= j < |ys| && xs[i].key == ys[j].key ==>
               SameUpToOrder(xs[i].value, ys[j].value))
       <==> (forall i, j :: 0 <= i < |fs| && 0 <= j < |gs| && fs[i].key == gs[j].key && fs[i].key != "stream" ==>
               SameUpToOrder(fs[i].value, gs[j].value))
  {
    if forall i, j :: 0 <= i < |xs| && 0 <= j < |ys| && xs[i].key == ys[j].key ==> SameUpToOrder(xs[i].value, ys[j].value) {
      forall i, j | 0 <= i < |fs| && 0 <= j < |gs| && fs[i].key == gs[j].key && fs[i].key != "stream"
        ensures SameUpToOrder(fs[i].value, gs[j].value)
      {
        assert fs[i] in xs && gs[j] in ys;
        var p :| 0 <= p < |xs| && xs[p] == fs[i];
        var q :| 0 <= q < |ys| && ys[q] == gs[j];
      }
    }
    if forall i, j :: 0 <= i < |fs| && 0 <= j < |gs| && fs[i].key == gs[j].key && fs[i].key != "stream" ==>
      SameUpToOrder(fs[i].value, gs[j].value)
    {
      forall i, j | 0 <= i < |xs| && 0 <= j < |ys| && xs[i].key == ys[j].key
        ensures SameUpToOrder(xs[i].value, ys[j].value)
      {
        assert xs[i] in fs && ys[j] in gs;
        var p :| 0 <= p < |fs| && fs[p] == xs[i];
        var q :| 0 <= q < |gs| && gs[q] == ys[j];
      }
    }
  }

  lemma {:induction false} DropStreamWellFormed(fields: seq<Field>)
    requires WellFormed(Obj(fields))
    ensures WellFormed(Obj(DropStream(fields)))
    decreases |fields|
  {
    if fields != [] {
      var rest := fields[1..];
      assert WellFormed(Obj(rest));
      DropStreamWellFormed(rest);
      var kept := DropStream(rest);
      forall j | 0 <= j < |kept| ensures kept[j].key != fields[0].key {
        DropStreamMembers(rest, kept[j]);
      }
    }
  }

  lemma DocumentWellFormed(r: Request)
    requires WellFormed(r.body)
    ensures WellFormed(Document(r))
  {
    if r.body.Obj? {
      DropStreamWellFormed(r.body.fields);
    }
    DocumentKeysDistinct(r);
  }

  /** Objects listing the same distinct keys in the same order compare member by member. */
  lemma AlignedObjectsCompare(fs: seq<Field>, gs: seq<Field>)
    requires |fs| == |gs| && DistinctKeys(fs) && forall i :: 0 <= i < |fs| ==> fs[i].key == gs[i].key
    ensures SameUpToOrder(Obj(fs), Obj(gs)) <==> forall i :: 0 <= i < |fs| ==> SameUpToOrder(fs[i].value, gs[i].value)
  {
    AlignedKeys(fs, gs);
    if forall i :: 0 <= i < |fs| ==> SameUpToOrder(fs[i].value, gs[i].value) {
      forall i, j | 0 <= i < |fs| && 0 <= j < |gs| && fs[i].key == gs[j].key
        ensures SameUpToOrder(fs[i].value, gs[j].value)
      {
        assert i == j;
      }
    }
  }

  lemma DocumentKeysDistinct(r: Request)
    ensures DistinctKeys(Document(r).fields)
  {
    var fields := Document(r).fields;
    assert |fields[0].key| == 9 && |fields[1].key| == 16 && |fields[2].key| == 9 && |fields[3].key| == 22;
    assert |fields[4].key| == 15 && |fields[5].key| == 12 && |fields[6].key| == 4;
    assert fields[0].key[0] != fields[2].key[0];
    forall i, j | 0 <= i < j < |fields| ensures fields[i].key != fields[j].key {
      assert (i == 0 && j == 2) || |fields[i].key| != |fields[j].key|;
    }
  }

  lemma PoliciesCompare(p: CacheControl, q: CacheControl)
    ensures FingerprintPolicy(p) == FingerprintPolicy(q) <==> (p == ForceReplay <==> q == ForceReplay)
  {
    assert |"force-replay"| != |"default"|;
  }

  lemma DocumentsCompare(p: Request, q: Request)
    ensures SameUpToOrder(Document(p), Document(q)) <==> SameRequest(p, q)
  {
    var fs, gs := Document(p).fields, Document(q).fields;
    DocumentKeysDistinct(p);
    AlignedObjectsCompare(fs, gs);
    SevenMembers(fs, gs);
    MembersCompare(p, q, fs, gs);
  }

  lemma MembersCompare(p: Request, q: Request, fs: seq<Field>, gs: seq<Field>)
    requires |fs| == |gs| == 7
    requires fs[0].value == Str(p.tenantId) && gs[0].value == Str(q.tenantId)
    requires fs[1].value == gs[1].value == Str(ENDPOINT_VERSION)
    requires fs[2].value == Str(p.vendorId) && gs[2].value == Str(q.vendorId)
    requires fs[3].value == Str(p.resolvedModel) && gs[3].value == Str(q.resolvedModel)
    requires fs[4].value == Str(p.adapterVersion) && gs[4].value == Str(q.adapterVersion)
    requires fs[5].value == Str(FingerprintPolicy(p.control)) && gs[5].value == Str(FingerprintPolicy(q.control))
    requires fs[6].value == BodyWithoutStream(p.body) && gs[6].value == BodyWithoutStream(q.body)
    ensures SameRequest(p, q) <==>
      && SameUpToOrder(fs[0].value, gs[0].value) && SameUpToOrder(fs[1].value, gs[1].value)
      && SameUpToOrder(fs[2].value, gs[2].value) && SameUpToOrder(fs[3].value, gs[3].value)
      && SameUpToOrder(fs[4].value, gs[4].value) && SameUpToOrder(fs[5].value, gs[5].value)
      && SameUpToOrder(fs[6].value, gs[6].value)
  {
    PoliciesCompare(p.control, q.control);
    StreamlessCompare(p.body, q.body);
  }

  lemma SevenMembers(fs: seq<Field>, gs: seq<Field>)
    requires |fs| == |gs| == 7
    ensures (forall i :: 0 <= i < |fs| ==> SameUpToOrder(fs[i].value, gs[i].value)) <==>
      && SameUpToOrder(fs[0].value, gs[0].value) && SameUpToOrder(fs[1].value, gs[1].value)
      && SameUpToOrder(fs[2].value, gs[2].value) && SameUpToOrder(fs[3].value, gs[3].value)
      && SameUpToOrder(fs[4].value, gs[4].value) && SameUpToOrder(fs[5].value, gs[5].value)
      && SameUpToOrder(fs[6].value, gs[6].value)
  {
  }

  /**
   * Two requests get the same fingerprint text if and only if tenant, vendor, model, adapter and policy class agree and
   * their bodies, without a top-level `stream`, are equal up to the order of object keys at every depth.
   */
  lemma SameTextIffSameRequest(p: Request, q: Request)
    requires WellFormed(p.body) && WellFormed(q.body)
    ensures FingerprintText(p) == FingerprintText(q) <==> SameRequest(p, q)
  {
    DocumentWellFormed(p);
    DocumentWellFormed(q);
    CanonicalIsWellFormed(Document(p));
    CanonicalIsWellFormed(Document(q));
    DocumentsCompare(p, q);
    if FingerprintText(p) == FingerprintText(q) {
      SerializeIsInjective(Canonicalize(Document(p)), Canonicalize(Document(q)));
      SameCanonicalIsSame(Document(p), Document(q));
    }
    if SameRequest(p, q) {
      SameHasSameCanonical(Document(p), Document(q));
    }
  }

  /** The document's members in the order of their names. */
  ghost function SortedDocument(r: Request, body: Json): Json {
    Obj([
      Field("adapter_version", Str(r.adapterVersion)),
      Field("body", body),
      Field("cache_policy", Str(if r.control == ForceReplay then "force-replay" else "default")),
      Field("endpoint_version", Str("responses-v1")),
      Field("resolved_model_version", Str(r.resolvedModel)),
      Field("tenant_id", Str(r.tenantId)),
      Field("vendor_id", Str(r.vendorId))
    ])
  }

  /** Keys whose first characters ascend are sorted. */
  lemma FirstCharsSort(fields: seq<Field>, firsts: string)
    requires |fields| == |firsts| && forall i :: 0 <= i < |fields| ==> fields[i].key != [] && fields[i].key[0] == firsts[i]
    requires forall i, j :: 0 <= i < j < |firsts| ==> firsts[i] < firsts[j]
    ensures StrictlySorted(fields) && DistinctKeys(fields)
  {
  }

  lemma SortedDocumentValues(r: Request, body: Json)
    requires WellFormed(body) && DeepSorted(body)
    ensures var fields := SortedDocument(r, body).fields;
      forall i :: 0 <= i < |fields| ==> WellFormed(fields[i].value) && DeepSorted(fields[i].value)
  {
    var fields := SortedDocument(r, body).fields;
    forall i | 0 <= i < |fields| ensures WellFormed(fields[i].value) && DeepSorted(fields[i].value) {
      assert i == 1 || fields[i].value.Str?;
    }
  }

  lemma SortedDocumentIsSorted(r: Request, body: Json)
    requires WellFormed(body) && DeepSorted(body)
    ensures WellFormed(SortedDocument(r, body)) && DeepSorted(SortedDocument(r, body))
  {
    FirstCharsSort(SortedDocument(r, body).fields, "abcertv");
    SortedDocumentValues(r, body);
    SortedObject(SortedDocument(r, body).fields);
  }

  lemma SevenPermuted(a: seq<Field>, b: seq<Field>)
    requires |a| == |b| == 7
    requires a[0] == b[5] && a[1] == b[3] && a[2] == b[6] && a[3] == b[4] && a[4] == b[0] && a[5] == b[2] && a[6] == b[1]
    ensures forall f :: f in a <==> f in b
  {
  }

  lemma CanonicalText(cf: seq<Field>, fields: seq<Field>, i: nat, key: string, s: string)
    requires i < |cf| == |fields| && cf[i] == Field(fields[i].key, Canonicalize(fields[i].value))
    requires fields[i] == Field(key, Str(s))
    ensures cf[i] == Field(key, Str(s))
  {
  }

  lemma TextMembers(r: Request, cf: seq<Field>)
    requires cf == CanonicalFields(Document(r).fields)
    ensures |cf| == 7
    ensures cf[0] == Field("tenant_id", Str(r.tenantId)) && cf[1] == Field("endpoint_version", Str("responses-v1"))
    ensures cf[2] == Field("vendor_id", Str(r.vendorId)) && cf[3] == Field("resolved_model_version", Str(r.resolvedModel))
    ensures cf[4] == Field("adapter_version", Str(r.adapterVersion))
    ensures cf[5] == Field("cache_policy", Str(if r.control == ForceReplay then "force-replay" else "default"))
    ensures cf[6] == Field("body", Canonicalize(BodyWithoutStream(r.body)))
  {
    var fields := Document(r).fields;
    CanonicalText(cf, fields, 0, "tenant_id", r.tenantId);
    CanonicalText(cf, fields, 1, "endpoint_version", "responses-v1");
    CanonicalText(cf, fields, 2, "vendor_id", r.vendorId);
    CanonicalText(cf, fields, 3, "resolved_model_version", r.resolvedModel);
    CanonicalText(cf, fields, 4, "adapter_version", r.adapterVersion);
    CanonicalText(cf, fields, 5, "cache_policy", if r.control == ForceReplay then "force-replay" else "default");
  }

  lemma DocumentIsSorted(r: Request, body: Json)
    requires WellFormed(r.body) && body == Canonicalize(BodyWithoutStream(r.body))
    ensures forall f :: f in CanonicalFields(Document(r).fields) <==> f in SortedDocument(r, body).fields
  {
    var cf := CanonicalFields(Document(r).fields);
    TextMembers(r, cf);
    SevenPermuted(cf, SortedDocument(r, body).fields);
  }

  /**
   * The hashed text is JSON for exactly this: seven members in the order of their names, the body without its `stream`
   * among them, with its keys in order at every depth.
   */
  lemma FingerprintReadsAs(r: Request, depth: nat) returns (body: Json)
    requires WellFormed(r.body) && Within(Canonicalize(Document(r)), depth)
    ensures ReadText(text => Some(text), depth, FingerprintText(r)) == Some(SortedDocument(r, body))
    ensures DeepSorted(body) && SameUpToOrder(body, BodyWithoutStream(r.body)) && SameButForStream(body, r.body)
    ensures body.Obj? ==> "stream" !in KeySet(body.fields)
  {
    body := Canonicalize(BodyWithoutStream(r.body));
    StreamlessBody(r, body);
    DocumentIsSorted(r, body);
    DocumentWellFormed(r);
    SortedDocumentIsSorted(r, body);
    var cf := CanonicalFields(Document(r).fields);
    DocumentKeysDistinct(r);
    SortSorts(cf);
    MembersOf(SortFields(cf), cf, multiset{});
    SortedIsUnique(SortFields(cf), SortedDocument(r, body).fields);
    CanonicalIsWellFormed(Document(r));
    ReadsExactly(Canonicalize(Document(r)), depth);
  }

  lemma StreamlessBody(r: Request, body: Json)
    requires WellFormed(r.body) && body == Canonicalize(BodyWithoutStream(r.body))
    ensures WellFormed(body) && DeepSorted(body)
    ensures SameUpToOrder(body, BodyWithoutStream(r.body)) && SameButForStream(body, r.body)
    ensures body.Obj? ==> "stream" !in KeySet(body.fields)
  {
    var rest := BodyWithoutStream(r.body);
    if r.body.Obj? {
      DropStreamWellFormed(r.body.fields);
      StreamlessMembers(r.body.fields);
    }
    CanonicalIsSorted(rest);
    CanonicalIsSame(rest);
    CanonicalIsWellFormed(rest);
    StreamlessAgain(body, r.body);
  }

  lemma StreamlessAgain(body: Json, original: Json)
    requires SameUpToOrder(body, BodyWithoutStream(original))
    ensures SameButForStream(body, original) && (body.Obj? ==> "stream" !in KeySet(body.fields))
  {
    if original.Obj? {
      StreamlessMembers(original.fields);
      assert body.Obj? && KeySet(body.fields) == KeySet(original.fields) - {"stream"};
      DropNothing(body.fields);
      assert BodyWithoutStream(body) == body;
      StreamlessCompare(body, original);
    }
  }

  function CacheKey(hash: string -> string, r: Request): string {
    hash(FingerprintText(r))
  }

  /** Different requests share a cache key only through an explicit collision of the hash. */
  lemma KeysDifferUnlessHashCollides(hash: string -> string, p: Request, q: Request)
    requires WellFormed(p.body) && WellFormed(q.body)
    ensures SameRequest(p, q) ==> CacheKey(hash, p) == CacheKey(hash, q)
    ensures CacheKey(hash, p) == CacheKey(hash, q) && !SameRequest(p, q) ==>
      FingerprintText(p) != FingerprintText(q) && hash(FingerprintText(p)) == hash(FingerprintText(q))
  {
    SameTextIffSameRequest(p, q);
  }

  /** Whether, how and where in its body a request asks for streaming never changes its fingerprint. */
  lemma StreamFlagIgnored(r: Request, before: seq<Field>, stream: Json, after: seq<Field>)
    requires r.body == Obj(before + after) && "stream" !in KeySet(before + after)
    ensures FingerprintText(r.(body := Obj(before + [Field("stream", stream)] + after))) == FingerprintText(r)
  {
    StreamDropped(before, stream, after);
    assert Document(r.(body := Obj(before + [Field("stream", stream)] + after))) == Document(r);
  }

  lemma StreamDropped(before: seq<Field>, stream: Json, after: seq<Field>)
    requires "stream" !in KeySet(before + after)
    ensures BodyWithoutStream(Obj(before + [Field("stream", stream)] + after)) == Obj(before + after)
  {
    var with := before + [Field("stream", stream)] + after;
    assert with[|before|] in with && with[|before|].key in KeySet(with);
    DropInside(before, stream, after);
  }

  lemma {:induction false} DropInside(before: seq<Field>, stream: Json, after: seq<Field>)
    requires "stream" !in KeySet(before + after)
    ensures DropStream(before + [Field("stream", stream)] + after) == before + after
    decreases |before|
  {
    var with := before + [Field("stream", stream)] + after;
    if before == [] {
      assert with[1..] == after && before + after == after;
      DropNothing(after);
    } else {
      assert with[1..] == before[1..] + [Field("stream", stream)] + after;
      assert (before + after)[0] in before + after && before[0].key in KeySet(before + after);
      forall f | f in before[1..] + after ensures f.key in KeySet(before + after) { assert f in before + after; }
      DropInside(before[1..], stream, after);
    }
  }

  lemma {:induction false} DropNothing(fields: seq<Field>)
    requires "stream" !in KeySet(fields)
    ensures DropStream(fields) == fields
    decreases |fields|
  {
    if fields != [] {
      assert fields == [fields[0]] + fields[1..];
      assert fields[0] in fields && fields[0].key in KeySet(fields);
      forall f | f in fields[1..] ensures f.key in KeySet(fields) { assert f in fields; }
      DropNothing(fields[1..]);
    }
  }
}
