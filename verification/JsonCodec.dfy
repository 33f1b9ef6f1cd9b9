/**
 * What survives serialising and parsing again: everything but the order of object keys, and numbers that the parser
 * reads as others. A parser without exact float reading prints some floats back differently; one with a nesting limit
 * rejects what is too deep.
 */
module JsonCodec {
  import opened Types
  import opened Json
  import opened JsonText
  import opened JsonReader
  import opened JsonReading

  datatype Codec = Codec(parse: string -> Option<Json>, reprint: Reprint, maxDepth: nat)

  ghost predicate Accepts(codec: Codec, v: Json) {
    Within(v, codec.maxDepth) && Accepted(codec.reprint, v)
  }

  /** Shallow enough, and every number is printed back as it stands. */
  ghost predicate Stable(codec: Codec, v: Json) {
    Within(v, codec.maxDepth) && StableNumbers(codec.reprint, v)
  }

  ghost predicate ReadsBack(codec: Codec, v: Json) {
    var r := codec.parse(Serialize(v));
    (r.Some? <==> Accepts(codec, v)) && (r.Some? ==> SameUpToOrder(r.value, Reprinted(codec.reprint, v)))
  }

  /** The parser reads every text as RFC 8259 says, but for the order of object members. */
  ghost predicate Agrees(codec: Codec, text: string) {
    var read := ReadText(codec.reprint, codec.maxDepth, text);
    && (codec.parse(text).Some? <==> read.Some?)
    && (read.Some? ==> WellFormed(codec.parse(text).value) && SameUpToOrder(codec.parse(text).value, read.value))
  }

  ghost predicate Sound(codec: Codec) {
    KeepsNumbers(codec.reprint) && forall text :: Agrees(codec, text)
  }

  /** Serialised and parsed, a value comes back with its numbers reprinted, if it is accepted at all. */
  lemma ParsingUndoesWriting(codec: Codec, v: Json)
    requires Sound(codec) && WellFormed(v)
    ensures ReadsBack(codec, v)
  {
    assert Agrees(codec, Serialize(v));
    ReadingUndoesWriting(codec.reprint, codec.maxDepth, v);
  }

  lemma ParsedIsWellFormed(codec: Codec, text: string)
    requires Sound(codec) && codec.parse(text).Some?
    ensures WellFormed(codec.parse(text).value)
  {
    assert Agrees(codec, text);
  }

  /** Reading by the grammar is such a parser, whatever it makes of numbers and however deep it reads. */
  lemma ReaderIsSound(reprint: Reprint, maxDepth: nat) returns (codec: Codec)
    requires KeepsNumbers(reprint)
    ensures Sound(codec) && codec.reprint == reprint && codec.maxDepth == maxDepth
    ensures forall text :: codec.parse(text) == ReadText(reprint, maxDepth, text)
  {
    codec := Codec(text => ReadText(reprint, maxDepth, text), reprint, maxDepth);
    forall text ensures Agrees(codec, text) {
      if codec.parse(text).Some? {
        TextIsWellFormed(reprint, maxDepth, text);
        SameReflexive(codec.parse(text).value);
      }
    }
  }

  // ---- Equality up to key order ----

  lemma SameReflexive(v: Json)
    requires WellFormed(v)
    ensures SameUpToOrder(v, v)
  {
    SameCanonicalIsSame(v, v);
  }

  lemma SameChains(a: Json, b: Json, c: Json)
    requires WellFormed(a) && WellFormed(b) && WellFormed(c)
    requires SameUpToOrder(a, b) && (SameUpToOrder(b, c) || SameUpToOrder(c, b))
    ensures SameUpToOrder(a, c) && SameUpToOrder(c, a)
  {
    SameHasSameCanonical(a, b);
    if SameUpToOrder(b, c) {
      SameHasSameCanonical(b, c);
    } else {
      SameHasSameCanonical(c, b);
    }
    SameCanonicalIsSame(a, c);
    SameCanonicalIsSame(c, a);
  }

  lemma {:induction false} SameWithin(a: Json, b: Json, n: nat)
    requires SameUpToOrder(a, b) && Within(a, n)
    ensures Within(b, n)
    decreases a
  {
    match (a, b) {
      case (Arr(xs), Arr(ys)) =>
        forall i | 0 <= i < |ys| ensures Within(ys[i], n - 1) { SameWithin(xs[i], ys[i], n - 1); }
      case (Obj(fs), Obj(gs)) =>
        forall j | 0 <= j < |gs| ensures Within(gs[j].value, n - 1) {
          assert gs[j] in gs && gs[j].key in KeySet(fs);
          var i :| 0 <= i < |fs| && fs[i].key == gs[j].key;
          SameWithin(fs[i].value, gs[j].value, n - 1);
        }
      case (_, _) =>
    }
  }

  // ---- Reprinting ----

  lemma {:induction false} ReprintedWellFormed(reprint: Reprint, v: Json)
    requires WellFormed(v)
    requires KeepsNumbers(reprint)
    ensures WellFormed(Reprinted(reprint, v))
  {
    match v {
      case Arr(items) =>
        forall i | 0 <= i < |items| ensures WellFormed(Reprinted(reprint, items[i])) { ReprintedWellFormed(reprint, items[i]); }
      case Obj(fields) =>
        forall i | 0 <= i < |fields| ensures WellFormed(Reprinted(reprint, fields[i].value)) {
          ReprintedWellFormed(reprint, fields[i].value);
        }
      case _ =>
    }
  }

  /** A value that reprinting changes nowhere but in key order has stable numbers. */
  lemma {:induction false} SameReprintIsStable(reprint: Reprint, v: Json)
    requires Accepted(reprint, v) && SameUpToOrder(Reprinted(reprint, v), v)
    ensures StableNumbers(reprint, v)
  {
    match v {
      case Arr(items) =>
        var printed := Reprinted(reprint, v).items;
        forall i | 0 <= i < |items| ensures StableNumbers(reprint, items[i]) {
          assert SameUpToOrder(printed[i], items[i]);
          SameReprintIsStable(reprint, items[i]);
        }
      case Obj(fields) =>
        var printed := Reprinted(reprint, v).fields;
        forall i | 0 <= i < |fields| ensures StableNumbers(reprint, fields[i].value) {
          assert printed[i].key == fields[i].key && SameUpToOrder(printed[i].value, fields[i].value);
          SameReprintIsStable(reprint, fields[i].value);
        }
      case _ =>
    }
  }

  lemma {:induction false} ReprintedWithin(reprint: Reprint, v: Json, n: nat)
    ensures Within(Reprinted(reprint, v), n) <==> Within(v, n)
    decreases v
  {
    match v {
      case Arr(items) =>
        if n > 0 { forall i | 0 <= i < |items| { ReprintedWithin(reprint, items[i], n - 1); } }
        assert forall i :: 0 <= i < |items| ==> Reprinted(reprint, v).items[i] == Reprinted(reprint, items[i]);
      case Obj(fields) =>
        if n > 0 { forall i | 0 <= i < |fields| { ReprintedWithin(reprint, fields[i].value, n - 1); } }
        assert forall i :: 0 <= i < |fields| ==> Reprinted(reprint, v).fields[i].value == Reprinted(reprint, fields[i].value);
      case _ =>
    }
  }

  /** A value reads back as itself, up to key order, if and only if it is stable. */
  lemma ReadsBackIffStable(codec: Codec, v: Json)
    requires Sound(codec) && WellFormed(v)
    ensures codec.parse(Serialize(v)).Some? && SameUpToOrder(codec.parse(Serialize(v)).value, v) <==> Stable(codec, v)
  {
    ParsingUndoesWriting(codec, v);
    ReprintedWellFormed(codec.reprint, v);
    if codec.parse(Serialize(v)).Some? {
      ParsedIsWellFormed(codec, Serialize(v));
      SameAsReprinted(codec, codec.parse(Serialize(v)).value, v);
    }
    if Stable(codec, v) {
      StableIsReprinted(codec.reprint, v);
    }
  }

  lemma SameAsReprinted(codec: Codec, x: Json, v: Json)
    requires WellFormed(x) && WellFormed(v) && WellFormed(Reprinted(codec.reprint, v)) && Accepted(codec.reprint, v)
    requires SameUpToOrder(x, Reprinted(codec.reprint, v))
    ensures SameUpToOrder(x, v) ==> StableNumbers(codec.reprint, v)
  {
    if SameUpToOrder(x, v) {
      SameReflexive(x);
      SameChains(x, x, Reprinted(codec.reprint, v));
      SameChains(Reprinted(codec.reprint, v), x, v);
      SameReprintIsStable(codec.reprint, v);
    }
  }

  // ---- Members ----

  predicate NotBefore(fields: seq<Field>, key: string, i: nat) {
    forall q :: 0 <= q < i && q < |fields| ==> fields[q].key != key
  }

  function Get(fields: seq<Field>, key: string): (r: Option<Json>)
    ensures r.Some? <==> key in KeySet(fields)
    ensures r.Some? ==> exists i :: 0 <= i < |fields| && fields[i] == Field(key, r.value) && NotBefore(fields, key, i)
  {
    if fields == [] then None
    else
      assert fields == [fields[0]] + fields[1..];
      if fields[0].key == key then Some(fields[0].value) else Get(fields[1..], key)
  }

  /** Objects equal up to key order have equal members, up to key order. */
  lemma SameGet(fs: seq<Field>, gs: seq<Field>, key: string)
    requires SameUpToOrder(Obj(fs), Obj(gs))
    ensures Get(fs, key).Some? <==> Get(gs, key).Some?
    ensures Get(fs, key).Some? ==> SameUpToOrder(Get(fs, key).value, Get(gs, key).value)
  {
  }

  lemma {:induction false} GetReprinted(reprint: Reprint, fields: seq<Field>, key: string)
    ensures var printed := Reprinted(reprint, Obj(fields)).fields;
      Get(printed, key) == if Get(fields, key).Some? then Some(Reprinted(reprint, Get(fields, key).value)) else None
    decreases |fields|
  {
    var printed := Reprinted(reprint, Obj(fields)).fields;
    if fields != [] {
      assert printed[1..] == Reprinted(reprint, Obj(fields[1..])).fields;
      GetReprinted(reprint, fields[1..], key);
    }
  }

  // ---- Depth ----

  lemma {:induction false} LeastDepth(v: Json, n: nat) returns (m: nat)
    requires Within(v, n)
    ensures Within(v, m) && (m > 0 ==> !Within(v, m - 1))
    decreases n
  {
    m := n;
    if n > 0 && Within(v, n - 1) {
      m := LeastDepth(v, n - 1);
    }
  }
}
