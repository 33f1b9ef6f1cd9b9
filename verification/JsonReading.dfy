/** Reading back what was written: the same value, if it is shallow enough and the reader leaves its numbers alone. */
module JsonReading {
  import opened Types
  import opened Json
  import opened JsonText
  import opened JsonReader

  /** Containers nest at most `n` deep. */
  ghost predicate Within(v: Json, n: nat)
    decreases v
  {
    match v
    case Arr(items) => n > 0 && forall i :: 0 <= i < |items| ==> Within(items[i], n - 1)
    case Obj(fields) => n > 0 && forall i :: 0 <= i < |fields| ==> Within(fields[i].value, n - 1)
    case _ => true
  }

  ghost predicate Accepted(reprint: Reprint, v: Json) {
    match v
    case Num(text) => reprint(text).Some?
    case Arr(items) => forall i :: 0 <= i < |items| ==> Accepted(reprint, items[i])
    case Obj(fields) => forall i :: 0 <= i < |fields| ==> Accepted(reprint, fields[i].value)
    case _ => true
  }

  /** The value with every accepted number as it is printed after parsing. */
  function Reprinted(reprint: Reprint, v: Json): Json {
    match v
    case Num(text) => (match reprint(text) case Some(t) => Num(t) case None => v)
    case Arr(items) => Arr(seq(|items|, i requires 0 <= i < |items| => Reprinted(reprint, items[i])))
    case Obj(fields) =>
      Obj(seq(|fields|, i requires 0 <= i < |fields| => Field(fields[i].key, Reprinted(reprint, fields[i].value))))
    case _ => v
  }

  ghost predicate StableNumbers(reprint: Reprint, v: Json) {
    match v
    case Num(text) => reprint(text) == Some(text)
    case Arr(items) => forall i :: 0 <= i < |items| ==> StableNumbers(reprint, items[i])
    case Obj(fields) => forall i :: 0 <= i < |fields| ==> StableNumbers(reprint, fields[i].value)
    case _ => true
  }

  // ---- Strings ----

  lemma HexDigitReads(n: nat)
    requires n < 16
    ensures HexValue(HexDigit(n)) == Some(n)
  {
  }

  /** One escaped character reads as itself. */
  lemma EscapeReads(c: char, rest: string)
    ensures ReadChars(EscapeChar(c) + rest) == Consed(c, ReadChars(rest))
  {
    var p := EscapeChar(c);
    var s := p + rest;
    assert s[0] == p[0];
    if p[0] == '\\' {
      assert s[1] == p[1];
      if p[1] == 'u' {
        ControlReads(c, rest);
      } else {
        assert s[1..][0] == p[1] && s[1..][1..] == rest;
      }
    } else {
      assert s[1..] == rest;
    }
  }

  lemma ControlReads(c: char, rest: string)
    requires |EscapeChar(c)| == 6
    ensures ReadEscape((EscapeChar(c) + rest)[1..]) == Some((c, rest))
  {
    var p := EscapeChar(c);
    var t := (p + rest)[2..];
    assert t[0] == p[2] && t[1] == p[3] && t[2] == p[4] && t[3] == p[5] && t[4..] == rest;
    assert (p + rest)[1..][0] == 'u' && (p + rest)[1..][1..] == t;
    HexDigitReads(c as int / 16);
    HexDigitReads(c as int % 16);
  }

  lemma {:induction false} CharsRead(s: string, rest: string)
    ensures ReadChars(EscapeOnto(s, "\"" + rest)) == Some((s, rest))
    decreases |s|
  {
    if s == [] {
      assert ("\"" + rest)[1..] == rest;
    } else {
      EscapeReads(s[0], EscapeOnto(s[1..], "\"" + rest));
      CharsRead(s[1..], rest);
      assert s == [s[0]] + s[1..];
    }
  }

  lemma StringReads(s: string, rest: string)
    ensures StringOnto(s, rest)[0] == '"' && ReadChars(StringOnto(s, rest)[1..]) == Some((s, rest))
  {
    CharsRead(s, rest);
    assert StringOnto(s, rest)[1..] == EscapeOnto(s, "\"" + rest);
  }

  // ---- Numbers ----

  lemma {:induction false} RunOfNumber(text: string, rest: string)
    requires NumChars(text) && Delimits(rest)
    ensures NumberRun(text + rest) == |text|
    decreases |text|
  {
    if text == [] {
      assert text + rest == rest;
    } else {
      assert (text + rest)[1..] == text[1..] + rest;
      RunOfNumber(text[1..], rest);
    }
  }

  lemma NumberReads(reprint: Reprint, text: string, rest: string)
    requires JsonNumber(text) && Delimits(rest)
    ensures ReadNumber(reprint, text + rest)
         == match reprint(text) case None => None case Some(t) => Some((Num(t), rest))
  {
    NumberChars(text);
    RunOfNumber(text, rest);
    assert (text + rest)[..|text|] == text && (text + rest)[|text|..] == rest;
  }

  // ---- Values ----

  ghost predicate Readable(reprint: Reprint, depth: nat, v: Json) {
    Within(v, depth) && Accepted(reprint, v)
  }

  /** What is written reads as itself, numbers reprinted, up to where the text goes on; or not at all. */
  lemma {:induction false} ValueReads(reprint: Reprint, depth: nat, v: Json, rest: string)
    requires WellFormed(v) && Delimits(rest)
    ensures ReadValue(reprint, depth, WriteOnto(v, rest))
         == if Readable(reprint, depth, v) then Some((Reprinted(reprint, v), rest)) else None
    decreases v, 1
  {
    FirstChar(v, rest);
    var text := WriteOnto(v, rest);
    assert SkipSpace(text) == text;
    match v {
      case Null => assert text[4..] == rest;
      case Bool(b) => assert text[if b then 4 else 5..] == rest;
      case Num(n) => NumberReads(reprint, n, rest);
      case Str(s) => StringReads(s, rest);
      case Arr(items) =>
        assert text[1..] == ItemsOnto(items, "]" + rest);
        if depth > 0 { ArrayReads(reprint, depth, items, rest); }
      case Obj(fields) =>
        assert text[1..] == FieldsOnto(fields, "}" + rest);
        if depth > 0 { ObjectReads(reprint, depth, fields, rest); }
    }
  }

  /** An array is read item by item. */
  lemma ArrayMembers(reprint: Reprint, depth: nat, items: seq<Json>)
    requires depth > 0
    ensures Readable(reprint, depth, Arr(items)) <==> AllReadable(reprint, depth - 1, items)
    ensures Reprinted(reprint, Arr(items)) == Arr(AllReprinted(reprint, items))
  {
  }

  lemma ArrayOf(reprint: Reprint, depth: nat, s: string)
    requires s != [] && s[0] != ']'
    ensures ReadArray(reprint, depth, s)
         == match ReadItems(reprint, depth, s) case None => None case Some((items, rest)) => Some((Arr(items), rest))
  {
  }

  lemma {:induction false} ArrayReads(reprint: Reprint, depth: nat, items: seq<Json>, rest: string)
    requires depth > 0 && forall i :: 0 <= i < |items| ==> WellFormed(items[i])
    ensures ReadArray(reprint, depth - 1, SkipSpace(ItemsOnto(items, "]" + rest)))
         == if Readable(reprint, depth, Arr(items)) then Some((Reprinted(reprint, Arr(items)), rest)) else None
    decreases items, 1
  {
    var text := ItemsOnto(items, "]" + rest);
    ArrayMembers(reprint, depth, items);
    if items == [] {
      assert text[1..] == rest && AllReprinted(reprint, items) == [];
    } else {
      ItemsHead(items, "]" + rest);
      FirstChar(items[0], if |items| == 1 then "]" + rest else "," + ItemsOnto(items[1..], "]" + rest));
      ItemsRead(reprint, depth - 1, items, rest);
      ArrayOf(reprint, depth - 1, text);
    }
  }

  ghost predicate AllReadable(reprint: Reprint, depth: nat, items: seq<Json>) {
    forall i :: 0 <= i < |items| ==> Readable(reprint, depth, items[i])
  }

  function AllReprinted(reprint: Reprint, items: seq<Json>): seq<Json> {
    seq(|items|, i requires 0 <= i < |items| => Reprinted(reprint, items[i]))
  }

  lemma LastItem(reprint: Reprint, depth: nat, s: string, rest: string)
    requires ReadValue(reprint, depth, s).Some? && ReadValue(reprint, depth, s).value.1 == "]" + rest
    ensures ReadItems(reprint, depth, s) == Some(([ReadValue(reprint, depth, s).value.0], rest))
  {
    assert ("]" + rest)[1..] == rest;
  }

  lemma MoreItems(reprint: Reprint, depth: nat, s: string, more: string)
    requires ReadValue(reprint, depth, s).Some? && ReadValue(reprint, depth, s).value.1 == "," + more
    ensures ReadItems(reprint, depth, s)
         == match ReadItems(reprint, depth, more)
            case None => None
            case Some((items, after)) => Some(([ReadValue(reprint, depth, s).value.0] + items, after))
  {
    assert ("," + more)[1..] == more;
  }

  lemma ItemsSplit(reprint: Reprint, depth: nat, items: seq<Json>)
    requires items != []
    ensures AllReadable(reprint, depth, items)
       <==> Readable(reprint, depth, items[0]) && AllReadable(reprint, depth, items[1..])
    ensures AllReprinted(reprint, items) == [Reprinted(reprint, items[0])] + AllReprinted(reprint, items[1..])
  {
    assert items == [items[0]] + items[1..];
  }

  lemma {:induction false} ItemsRead(reprint: Reprint, depth: nat, items: seq<Json>, rest: string)
    requires items != [] && forall i :: 0 <= i < |items| ==> WellFormed(items[i])
    ensures ReadItems(reprint, depth, ItemsOnto(items, "]" + rest))
         == if AllReadable(reprint, depth, items) then Some((AllReprinted(reprint, items), rest)) else None
    decreases items, 0
  {
    var text, more := ItemsOnto(items, "]" + rest), ItemsOnto(items[1..], "]" + rest);
    ItemsSplit(reprint, depth, items);
    ValueReads(reprint, depth, items[0], if |items| == 1 then "]" + rest else "," + more);
    if |items| == 1 {
      assert AllReprinted(reprint, items) == [Reprinted(reprint, items[0])];
    } else {
      ItemsRead(reprint, depth, items[1..], rest);
    }
    if Readable(reprint, depth, items[0]) {
      if |items| == 1 { LastItem(reprint, depth, text, rest); } else { MoreItems(reprint, depth, text, more); }
    }
  }

  lemma ObjectMembers(reprint: Reprint, depth: nat, fields: seq<Field>)
    requires depth > 0
    ensures Readable(reprint, depth, Obj(fields)) <==> MembersReadable(reprint, depth - 1, fields)
    ensures Reprinted(reprint, Obj(fields)) == Obj(MembersReprinted(reprint, fields))
  {
  }

  lemma ObjectOf(reprint: Reprint, depth: nat, s: string)
    requires s != [] && s[0] != '}'
    ensures ReadObject(reprint, depth, s)
         == match ReadMembers(reprint, depth, s)
            case None => None
            case Some((fields, rest)) => Some((Obj(LastOfEach(fields)), rest))
  {
  }

  lemma {:induction false} ObjectReads(reprint: Reprint, depth: nat, fields: seq<Field>, rest: string)
    requires depth > 0 && DistinctKeys(fields) && forall i :: 0 <= i < |fields| ==> WellFormed(fields[i].value)
    ensures ReadObject(reprint, depth - 1, SkipSpace(FieldsOnto(fields, "}" + rest)))
         == if Readable(reprint, depth, Obj(fields)) then Some((Reprinted(reprint, Obj(fields)), rest)) else None
    decreases fields, 1
  {
    var text := FieldsOnto(fields, "}" + rest);
    ObjectMembers(reprint, depth, fields);
    if fields == [] {
      assert text[1..] == rest && MembersReprinted(reprint, fields) == [];
    } else {
      FieldsHead(fields, "}" + rest);
      MembersRead(reprint, depth - 1, fields, rest);
      DistinctAreLast(MembersReprinted(reprint, fields));
      ObjectOf(reprint, depth - 1, text);
    }
  }

  ghost predicate MembersReadable(reprint: Reprint, depth: nat, fields: seq<Field>) {
    forall i :: 0 <= i < |fields| ==> Readable(reprint, depth, fields[i].value)
  }

  function MembersReprinted(reprint: Reprint, fields: seq<Field>): seq<Field> {
    seq(|fields|, i requires 0 <= i < |fields| => Field(fields[i].key, Reprinted(reprint, fields[i].value)))
  }

  lemma LastMember(reprint: Reprint, depth: nat, s: string, rest: string)
    requires ReadMember(reprint, depth, s).Some? && ReadMember(reprint, depth, s).value.1 == "}" + rest
    ensures ReadMembers(reprint, depth, s) == Some(([ReadMember(reprint, depth, s).value.0], rest))
  {
    assert ("}" + rest)[1..] == rest;
  }

  lemma MoreMembers(reprint: Reprint, depth: nat, s: string, more: string)
    requires ReadMember(reprint, depth, s).Some? && ReadMember(reprint, depth, s).value.1 == "," + more
    ensures ReadMembers(reprint, depth, s)
         == match ReadMembers(reprint, depth, more)
            case None => None
            case Some((fields, after)) => Some(([ReadMember(reprint, depth, s).value.0] + fields, after))
  {
    assert ("," + more)[1..] == more;
  }

  lemma MembersSplit(reprint: Reprint, depth: nat, fields: seq<Field>)
    requires fields != []
    ensures MembersReadable(reprint, depth, fields)
       <==> Readable(reprint, depth, fields[0].value) && MembersReadable(reprint, depth, fields[1..])
    ensures MembersReprinted(reprint, fields)
         == [Field(fields[0].key, Reprinted(reprint, fields[0].value))] + MembersReprinted(reprint, fields[1..])
  {
    assert fields == [fields[0]] + fields[1..];
  }

  lemma MemberReads(reprint: Reprint, depth: nat, f: Field, value: string)
    ensures ReadMember(reprint, depth, StringOnto(f.key, ":" + value))
         == match ReadValue(reprint, depth, value)
            case None => None
            case Some((v, after)) => Some((Field(f.key, v), after))
  {
    StringReads(f.key, ":" + value);
    assert (":" + value)[1..] == value;
  }

  lemma {:induction false} MembersRead(reprint: Reprint, depth: nat, fields: seq<Field>, rest: string)
    requires fields != [] && forall i :: 0 <= i < |fields| ==> WellFormed(fields[i].value)
    ensures ReadMembers(reprint, depth, FieldsOnto(fields, "}" + rest))
         == if MembersReadable(reprint, depth, fields) then Some((MembersReprinted(reprint, fields), rest)) else None
    decreases fields, 0
  {
    var text, more := FieldsOnto(fields, "}" + rest), FieldsOnto(fields[1..], "}" + rest);
    var tail := if |fields| == 1 then "}" + rest else "," + more;
    MembersSplit(reprint, depth, fields);
    ValueReads(reprint, depth, fields[0].value, tail);
    MemberReads(reprint, depth, fields[0], WriteOnto(fields[0].value, tail));
    if |fields| == 1 {
      assert MembersReprinted(reprint, fields) == [Field(fields[0].key, Reprinted(reprint, fields[0].value))];
    } else {
      MembersRead(reprint, depth, fields[1..], rest);
    }
    if Readable(reprint, depth, fields[0].value) {
      if |fields| == 1 { LastMember(reprint, depth, text, rest); } else { MoreMembers(reprint, depth, text, more); }
    }
  }

  /**
   * By the grammar of RFC 8259, the text of a value reads as exactly that value with its numbers as the reader reprints
   * them, if it nests within the reader's limit and the reader accepts its numbers, and as nothing otherwise.
   */
  lemma ReadingUndoesWriting(reprint: Reprint, depth: nat, v: Json)
    requires WellFormed(v)
    ensures ReadText(reprint, depth, Serialize(v))
         == if Readable(reprint, depth, v) then Some(Reprinted(reprint, v)) else None
  {
    ValueReads(reprint, depth, v, "");
  }

  // ---- No two values share their text ----

  lemma {:induction false} IdentityReprints(v: Json)
    requires WellFormed(v)
    ensures StableNumbers(text => Some(text), v)
  {
    match v {
      case Arr(items) => forall i | 0 <= i < |items| { IdentityReprints(items[i]); }
      case Obj(fields) => forall i | 0 <= i < |fields| { IdentityReprints(fields[i].value); }
      case _ =>
    }
  }

  lemma ReadsExactly(v: Json, depth: nat)
    requires WellFormed(v) && Within(v, depth)
    ensures ReadText(text => Some(text), depth, Serialize(v)) == Some(v)
  {
    IdentityReprints(v);
    StableIsReprinted(text => Some(text), v);
    ReadingUndoesWriting(text => Some(text), depth, v);
  }

  /** No two values share their text. */
  lemma SerializeIsInjective(a: Json, b: Json)
    requires WellFormed(a) && WellFormed(b) && Serialize(a) == Serialize(b)
    ensures a == b
  {
    SomeDepth(a);
    SomeDepth(b);
    var m := CommonDepth([a, b]);
    assert Within([a, b][0], m) && Within([a, b][1], m);
    ReadsExactly(a, m);
    ReadsExactly(b, m);
  }

  lemma {:induction false} StableIsReprinted(reprint: Reprint, v: Json)
    requires StableNumbers(reprint, v)
    ensures Accepted(reprint, v) && Reprinted(reprint, v) == v
  {
    match v {
      case Arr(items) =>
        forall i | 0 <= i < |items| ensures Accepted(reprint, items[i]) && Reprinted(reprint, items[i]) == items[i] {
          StableIsReprinted(reprint, items[i]);
        }
        assert Reprinted(reprint, v).items == items;
      case Obj(fields) =>
        forall i | 0 <= i < |fields|
          ensures Accepted(reprint, fields[i].value) && Reprinted(reprint, fields[i].value) == fields[i].value
        {
          StableIsReprinted(reprint, fields[i].value);
        }
        assert Reprinted(reprint, v).fields == fields;
      case _ =>
    }
  }

  // ---- Depth ----

  lemma {:induction false} WithinMonotone(v: Json, m: nat, n: nat)
    requires Within(v, m) && m <= n
    ensures Within(v, n)
    decreases v
  {
    match v {
      case Arr(items) => forall i | 0 <= i < |items| { WithinMonotone(items[i], m - 1, n - 1); }
      case Obj(fields) => forall i | 0 <= i < |fields| { WithinMonotone(fields[i].value, m - 1, n - 1); }
      case _ =>
    }
  }

  ghost predicate HasDepth(v: Json) {
    exists n: nat :: Within(v, n)
  }

  lemma {:induction false} CommonDepth(values: seq<Json>) returns (m: nat)
    requires forall i :: 0 <= i < |values| ==> HasDepth(values[i])
    ensures forall i :: 0 <= i < |values| ==> Within(values[i], m)
    decreases |values|
  {
    m := 0;
    if values != [] {
      assert HasDepth(values[0]);
      var n: nat :| Within(values[0], n);
      assert forall i :: 0 <= i < |values[1..]| ==> values[1..][i] == values[i + 1];
      var rest := CommonDepth(values[1..]);
      m := if n > rest then n else rest;
      forall i | 0 <= i < |values| ensures Within(values[i], m) {
        if i == 0 { WithinMonotone(values[0], n, m); } else { WithinMonotone(values[1..][i - 1], rest, m); }
      }
    }
  }

  lemma {:induction false} SomeDepth(v: Json)
    ensures HasDepth(v)
  {
    match v {
      case Arr(items) =>
        forall i | 0 <= i < |items| ensures HasDepth(items[i]) { SomeDepth(items[i]); }
        var m := CommonDepth(items);
        assert Within(v, m + 1);
      case Obj(fields) =>
        var values := seq(|fields|, i requires 0 <= i < |fields| => fields[i].value);
        forall i | 0 <= i < |values| ensures HasDepth(values[i]) { SomeDepth(fields[i].value); }
        var m := CommonDepth(values);
        forall i | 0 <= i < |fields| ensures Within(fields[i].value, m) { assert Within(values[i], m); }
        assert Within(v, m + 1);
      case _ => assert Within(v, 0);
    }
  }
}
