/** The text is compact: no JSON text that reads as the same value is shorter. */
module JsonCompact {
  import opened Types
  import opened Json
  import opened JsonText
  import opened JsonReader

  // ---- How long texts are ----

  function EscapedLength(s: string): nat {
    |EscapeOnto(s, "")|
  }

  function Length(v: Json): nat {
    |WriteOnto(v, "")|
  }

  function ItemsLength(items: seq<Json>): nat {
    |ItemsOnto(items, "")|
  }

  function FieldsLength(fields: seq<Field>): nat {
    |FieldsOnto(fields, "")|
  }

  lemma {:induction false} EscapeAppends(s: string, rest: string)
    ensures |EscapeOnto(s, rest)| == EscapedLength(s) + |rest|
    decreases |s|
  {
    if s != [] {
      EscapeAppends(s[1..], rest);
    }
  }

  lemma StringAppends(s: string, rest: string)
    ensures |StringOnto(s, rest)| == EscapedLength(s) + 2 + |rest|
  {
    EscapeAppends(s, "\"" + rest);
  }

  lemma {:induction false} WriteAppends(v: Json, rest: string)
    ensures |WriteOnto(v, rest)| == Length(v) + |rest|
    decreases v, 1
  {
    match v {
      case Str(s) =>
        StringAppends(s, rest);
        StringAppends(s, "");
      case Arr(items) =>
        ItemsAppend(items, "]" + rest);
        ItemsAppend(items, "]" + "");
      case Obj(fields) =>
        FieldsAppend(fields, "}" + rest);
        FieldsAppend(fields, "}" + "");
      case _ =>
    }
  }

  lemma {:induction false} ItemsAppend(items: seq<Json>, rest: string)
    ensures |ItemsOnto(items, rest)| == ItemsLength(items) + |rest|
    decreases items, 0
  {
    if items != [] {
      var more, none := ItemsOnto(items[1..], rest), ItemsOnto(items[1..], "");
      WriteAppends(items[0], if |items| == 1 then rest else "," + more);
      WriteAppends(items[0], if |items| == 1 then "" else "," + none);
      ItemsAppend(items[1..], rest);
    }
  }

  lemma {:induction false} FieldsAppend(fields: seq<Field>, rest: string)
    ensures |FieldsOnto(fields, rest)| == FieldsLength(fields) + |rest|
    decreases fields, 0
  {
    if fields != [] {
      var more, none := FieldsOnto(fields[1..], rest), FieldsOnto(fields[1..], "");
      var a, b := if |fields| == 1 then rest else "," + more, if |fields| == 1 then "" else "," + none;
      WriteAppends(fields[0].value, a);
      WriteAppends(fields[0].value, b);
      StringAppends(fields[0].key, ":" + WriteOnto(fields[0].value, a));
      StringAppends(fields[0].key, ":" + WriteOnto(fields[0].value, b));
      FieldsAppend(fields[1..], rest);
    }
  }

  lemma ItemsGrow(v: Json, items: seq<Json>)
    ensures ItemsLength([v] + items) == Length(v) + if items == [] then 0 else 1 + ItemsLength(items)
  {
    var all := [v] + items;
    assert all[1..] == items;
    WriteAppends(v, if |all| == 1 then "" else "," + ItemsOnto(items, ""));
  }

  lemma FieldsGrow(f: Field, fields: seq<Field>)
    ensures FieldsLength([f] + fields)
         == EscapedLength(f.key) + 3 + Length(f.value) + if fields == [] then 0 else 1 + FieldsLength(fields)
  {
    var all := [f] + fields;
    assert all[1..] == fields;
    var tail := if |all| == 1 then "" else "," + FieldsOnto(fields, "");
    WriteAppends(f.value, tail);
    StringAppends(f.key, ":" + WriteOnto(f.value, tail));
  }

  lemma {:induction false} DroppingShortens(fields: seq<Field>)
    ensures FieldsLength(LastOfEach(fields)) <= FieldsLength(fields)
    decreases |fields|
  {
    if fields != [] {
      assert fields == [fields[0]] + fields[1..];
      DroppingShortens(fields[1..]);
      FieldsGrow(fields[0], fields[1..]);
      FieldsGrow(fields[0], LastOfEach(fields[1..]));
      if fields[1..] == [] {
        assert LastOfEach(fields[1..]) == [];
      }
    }
  }

  // ---- What reading takes ----

  lemma EscapeTakes(s: string)
    requires ReadEscape(s).Some?
    ensures |s| + 1 >= |EscapeChar(ReadEscape(s).value.0)| + |ReadEscape(s).value.1|
  {
  }

  lemma {:induction false} CharsTake(s: string)
    requires ReadChars(s).Some?
    ensures |s| >= EscapedLength(ReadChars(s).value.0) + 1 + |ReadChars(s).value.1|
    decreases |s|
  {
    if s[0] == '"' {
    } else if s[0] == '\\' {
      EscapeTakes(s[1..]);
      var (c, rest) := ReadEscape(s[1..]).value;
      CharsTake(rest);
      assert ([c] + ReadChars(rest).value.0)[1..] == ReadChars(rest).value.0;
    } else {
      CharsTake(s[1..]);
      assert ([s[0]] + ReadChars(s[1..]).value.0)[1..] == ReadChars(s[1..]).value.0;
    }
  }

  ghost predicate LeavesNumbers(reprint: Reprint) {
    forall t :: reprint(t) == Some(t)
  }

  lemma {:induction false} ValueTakes(reprint: Reprint, depth: nat, s: string)
    requires LeavesNumbers(reprint) && ReadValue(reprint, depth, s).Some?
    ensures |s| >= Length(ReadValue(reprint, depth, s).value.0) + |ReadValue(reprint, depth, s).value.1|
    decreases |s|, 1
  {
    var t := SkipSpace(s);
    if t[0] == '"' {
      CharsTake(t[1..]);
      StringAppends(ReadChars(t[1..]).value.0, "");
    } else if t[0] == '[' {
      ArrayTakes(reprint, depth - 1, SkipSpace(t[1..]));
    } else if t[0] == '{' {
      ObjectTakes(reprint, depth - 1, SkipSpace(t[1..]));
    } else if "null" <= t || "true" <= t || "false" <= t {
    } else {
      var n := NumberRun(t);
      assert WriteOnto(Num(t[..n]), "") == t[..n];
    }
  }

  lemma {:induction false} ArrayTakes(reprint: Reprint, depth: nat, s: string)
    requires LeavesNumbers(reprint) && ReadArray(reprint, depth, s).Some?
    ensures |s| + 1 >= Length(ReadArray(reprint, depth, s).value.0) + |ReadArray(reprint, depth, s).value.1|
    decreases |s|, 3
  {
    if s[0] != ']' {
      ItemsTake(reprint, depth, s);
    }
    ItemsAppend(ReadArray(reprint, depth, s).value.0.items, "]");
    assert "]" + "" == "]";
  }

  lemma {:induction false} ItemsTake(reprint: Reprint, depth: nat, s: string)
    requires LeavesNumbers(reprint) && ReadItems(reprint, depth, s).Some?
    ensures |s| >= ItemsLength(ReadItems(reprint, depth, s).value.0) + 1 + |ReadItems(reprint, depth, s).value.1|
    decreases |s|, 2
  {
    ValueTakes(reprint, depth, s);
    var (v, rest) := ReadValue(reprint, depth, s).value;
    var t := SkipSpace(rest);
    if t[0] == ']' {
      ItemsGrow(v, []);
      assert [v] + [] == [v];
    } else {
      ItemsTake(reprint, depth, t[1..]);
      ItemsGrow(v, ReadItems(reprint, depth, t[1..]).value.0);
    }
  }

  lemma {:induction false} ObjectTakes(reprint: Reprint, depth: nat, s: string)
    requires LeavesNumbers(reprint) && ReadObject(reprint, depth, s).Some?
    ensures |s| + 1 >= Length(ReadObject(reprint, depth, s).value.0) + |ReadObject(reprint, depth, s).value.1|
    decreases |s|, 3
  {
    if s[0] != '}' {
      MembersTake(reprint, depth, s);
      DroppingShortens(ReadMembers(reprint, depth, s).value.0);
    }
    FieldsAppend(ReadObject(reprint, depth, s).value.0.fields, "}");
    assert "}" + "" == "}";
  }

  lemma {:induction false} MemberTakes(reprint: Reprint, depth: nat, s: string)
    requires LeavesNumbers(reprint) && ReadMember(reprint, depth, s).Some?
    ensures var (f, rest) := ReadMember(reprint, depth, s).value;
      |s| >= EscapedLength(f.key) + 3 + Length(f.value) + |rest|
    decreases |s|, 1
  {
    var t := SkipSpace(s);
    CharsTake(t[1..]);
    var u := SkipSpace(ReadChars(t[1..]).value.1);
    ValueTakes(reprint, depth, u[1..]);
  }

  lemma {:induction false} MembersTake(reprint: Reprint, depth: nat, s: string)
    requires LeavesNumbers(reprint) && ReadMembers(reprint, depth, s).Some?
    ensures |s| >= FieldsLength(ReadMembers(reprint, depth, s).value.0) + 1 + |ReadMembers(reprint, depth, s).value.1|
    decreases |s|, 2
  {
    MemberTakes(reprint, depth, s);
    var (f, rest) := ReadMember(reprint, depth, s).value;
    var t := SkipSpace(rest);
    if t[0] == '}' {
      FieldsGrow(f, []);
      assert [f] + [] == [f];
    } else {
      MembersTake(reprint, depth, t[1..]);
      FieldsGrow(f, ReadMembers(reprint, depth, t[1..]).value.0);
    }
  }

  /** Among all JSON texts of a value, with its numbers as they stand, the serialised one is as short as any. */
  lemma NoTextIsShorter(reprint: Reprint, depth: nat, text: string, v: Json)
    requires LeavesNumbers(reprint) && ReadText(reprint, depth, text) == Some(v)
    ensures |Serialize(v)| <= |text|
  {
    ValueTakes(reprint, depth, text);
  }

  /** Escapes have no upper-case letters: the hexadecimal digits of a control character are the lower-case ones. */
  lemma EscapesAreLowerCase(c: char)
    ensures forall i :: 0 <= i < |EscapeChar(c)| && EscapeChar(c) != [c] ==> !('A' <= EscapeChar(c)[i] <= 'Z')
  {
  }
}
