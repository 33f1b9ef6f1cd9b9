/** Reading JSON text, by the grammar of RFC 8259: white space, literals, strings and their escapes, numbers, nesting. */
module JsonReader {
  import opened Types
  import opened Json

  /** The text a number is printed with once its own text has been parsed, or nothing if the parser rejects it. */
  type Reprint = string -> Option<string>

  // ---- White space (section 2) ----

  function SkipSpace(s: string): (r: string)
    ensures |r| <= |s|
  {
    if s != [] && (s[0] == ' ' || s[0] == '\t' || s[0] == '\n' || s[0] == '\r') then SkipSpace(s[1..]) else s
  }

  // ---- Strings (section 7) ----

  function HexValue(c: char): Option<nat> {
    if '0' <= c <= '9' then Some(c as int - '0' as int)
    else if 'a' <= c <= 'f' then Some(c as int - 'a' as int + 10)
    else if 'A' <= c <= 'F' then Some(c as int - 'A' as int + 10)
    else None
  }

  /** Four hexadecimal digits. */
  function ReadHex(s: string): (r: Option<(nat, string)>)
    ensures r.Some? ==> r.value.0 < 0x1_0000 && |r.value.1| < |s|
  {
    if |s| < 4 then None
    else
      match (HexValue(s[0]), HexValue(s[1]), HexValue(s[2]), HexValue(s[3]))
      case (Some(a), Some(b), Some(c), Some(d)) =>
        if a < 16 && b < 16 && c < 16 && d < 16 then Some((((a * 16 + b) * 16 + c) * 16 + d, s[4..])) else None
      case (_, _, _, _) => None
  }

  /** A code point, or the second half of a surrogate pair after the first. */
  function ReadUnicode(s: string): (r: Option<(char, string)>)
    ensures r.Some? ==> |r.value.1| < |s|
  {
    match ReadHex(s)
    case None => None
    case Some((n, rest)) =>
      if n < 0xD800 || 0xE000 <= n then Some((n as char, rest))
      else if n < 0xDC00 && "\\u" <= rest then
        match ReadHex(rest[2..])
        case Some((low, after)) =>
          if 0xDC00 <= low < 0xE000 then
            Some(((0x1_0000 + (n - 0xD800) * 0x400 + (low - 0xDC00)) as char, after))
          else None
        case None => None
      else None
  }

  /** What follows a backslash. */
  function ReadEscape(s: string): (r: Option<(char, string)>)
    ensures r.Some? ==> |r.value.1| < |s|
  {
    if s == [] then None
    else
      match s[0]
      case '"' => Some(('"', s[1..]))
      case '\\' => Some(('\\', s[1..]))
      case '/' => Some(('/', s[1..]))
      case 'b' => Some((8 as char, s[1..]))
      case 'f' => Some((12 as char, s[1..]))
      case 'n' => Some((10 as char, s[1..]))
      case 'r' => Some((13 as char, s[1..]))
      case 't' => Some((9 as char, s[1..]))
      case 'u' => ReadUnicode(s[1..])
      case _ => None
  }

  /** The characters of a string up to its closing quote, and what comes after it. */
  function ReadChars(s: string): (r: Option<(string, string)>)
    ensures r.Some? ==> |r.value.1| < |s|
    decreases |s|
  {
    if s == [] then None
    else if s[0] == '"' then Some(("", s[1..]))
    else if s[0] == '\\' then
      match ReadEscape(s[1..])
      case None => None
      case Some((c, rest)) => Consed(c, ReadChars(rest))
    else if s[0] as int < 32 then None
    else Consed(s[0], ReadChars(s[1..]))
  }

  function Consed(c: char, r: Option<(string, string)>): Option<(string, string)> {
    match r
    case None => None
    case Some((chars, rest)) => Some(([c] + chars, rest))
  }

  // ---- Numbers (section 6) ----

  function NumberRun(s: string): (n: nat)
    ensures n <= |s|
  {
    if s != [] && IsNumChar(s[0]) then 1 + NumberRun(s[1..]) else 0
  }

  ghost function ReadNumber(reprint: Reprint, s: string): (r: Option<(Json, string)>)
    ensures r.Some? ==> |r.value.1| < |s|
  {
    var n := NumberRun(s);
    if n == 0 || !JsonNumber(s[..n]) then None
    else
      match reprint(s[..n])
      case None => None
      case Some(text) => Some((Num(text), s[n..]))
  }

  // ---- Values (sections 3 to 5) ----

  /** A name that repeats counts where it comes last. */
  function LastOfEach(fields: seq<Field>): seq<Field> {
    if fields == [] then []
    else if fields[0].key in KeySet(fields[1..]) then LastOfEach(fields[1..])
    else [fields[0]] + LastOfEach(fields[1..])
  }

  /** A value nested at most `depth` deep, with each number as it is reprinted, and what comes after it. */
  ghost function ReadValue(reprint: Reprint, depth: nat, s: string): (r: Option<(Json, string)>)
    ensures r.Some? ==> |r.value.1| < |s|
    decreases |s|, 1
  {
    var t := SkipSpace(s);
    if t == [] then None
    else if t[0] == '"' then
      match ReadChars(t[1..])
      case None => None
      case Some((chars, rest)) => Some((Str(chars), rest))
    else if t[0] == '[' then (if depth == 0 then None else ReadArray(reprint, depth - 1, SkipSpace(t[1..])))
    else if t[0] == '{' then (if depth == 0 then None else ReadObject(reprint, depth - 1, SkipSpace(t[1..])))
    else if "null" <= t then Some((Null, t[4..]))
    else if "true" <= t then Some((Bool(true), t[4..]))
    else if "false" <= t then Some((Bool(false), t[5..]))
    else ReadNumber(reprint, t)
  }

  ghost function ReadArray(reprint: Reprint, depth: nat, s: string): (r: Option<(Json, string)>)
    ensures r.Some? ==> |r.value.1| < |s|
    decreases |s|, 3
  {
    if s != [] && s[0] == ']' then Some((Arr([]), s[1..]))
    else
      match ReadItems(reprint, depth, s)
      case None => None
      case Some((items, rest)) => Some((Arr(items), rest))
  }

  ghost function ReadItems(reprint: Reprint, depth: nat, s: string): (r: Option<(seq<Json>, string)>)
    ensures r.Some? ==> |r.value.1| < |s|
    decreases |s|, 2
  {
    match ReadValue(reprint, depth, s)
    case None => None
    case Some((v, rest)) =>
      var t := SkipSpace(rest);
      if t == [] then None
      else if t[0] == ']' then Some(([v], t[1..]))
      else if t[0] != ',' then None
      else
        match ReadItems(reprint, depth, t[1..])
        case None => None
        case Some((items, after)) => Some(([v] + items, after))
  }

  ghost function ReadObject(reprint: Reprint, depth: nat, s: string): (r: Option<(Json, string)>)
    ensures r.Some? ==> |r.value.1| < |s|
    decreases |s|, 3
  {
    if s != [] && s[0] == '}' then Some((Obj([]), s[1..]))
    else
      match ReadMembers(reprint, depth, s)
      case None => None
      case Some((fields, rest)) => Some((Obj(LastOfEach(fields)), rest))
  }

  /** A name, a colon and a value. */
  ghost function ReadMember(reprint: Reprint, depth: nat, s: string): (r: Option<(Field, string)>)
    ensures r.Some? ==> |r.value.1| < |s|
    decreases |s|, 1
  {
    var t := SkipSpace(s);
    if t == [] || t[0] != '"' then None
    else
      match ReadChars(t[1..])
      case None => None
      case Some((key, rest)) =>
        var u := SkipSpace(rest);
        if u == [] || u[0] != ':' then None
        else
          match ReadValue(reprint, depth, u[1..])
          case None => None
          case Some((v, after)) => Some((Field(key, v), after))
  }

  ghost function ReadMembers(reprint: Reprint, depth: nat, s: string): (r: Option<(seq<Field>, string)>)
    ensures r.Some? ==> |r.value.1| < |s|
    decreases |s|, 2
  {
    match ReadMember(reprint, depth, s)
    case None => None
    case Some((f, rest)) =>
      var t := SkipSpace(rest);
      if t == [] then None
      else if t[0] == '}' then Some(([f], t[1..]))
      else if t[0] != ',' then None
      else
        match ReadMembers(reprint, depth, t[1..])
        case None => None
        case Some((fields, after)) => Some(([f] + fields, after))
  }

  /** A whole text: one value, and nothing after it but white space. */
  ghost function ReadText(reprint: Reprint, depth: nat, text: string): Option<Json> {
    match ReadValue(reprint, depth, text)
    case None => None
    case Some((v, rest)) => if SkipSpace(rest) == [] then Some(v) else None
  }

  // ---- What it yields ----

  ghost predicate KeepsNumbers(reprint: Reprint) {
    forall t :: JsonNumber(t) && reprint(t).Some? ==> JsonNumber(reprint(t).value)
  }

  lemma {:induction false} LastOfEachMembers(fields: seq<Field>)
    ensures forall f :: f in LastOfEach(fields) ==> f in fields
    ensures DistinctKeys(LastOfEach(fields))
    decreases |fields|
  {
    if fields != [] {
      LastOfEachMembers(fields[1..]);
      assert fields == [fields[0]] + fields[1..];
      var rest := LastOfEach(fields[1..]);
      forall j | 0 <= j < |rest| ensures rest[j].key in KeySet(fields[1..]) { assert rest[j] in fields[1..]; }
    }
  }

  lemma {:induction false} DistinctAreLast(fields: seq<Field>)
    requires DistinctKeys(fields)
    ensures LastOfEach(fields) == fields
    decreases |fields|
  {
    if fields != [] {
      DistinctAreLast(fields[1..]);
      assert fields == [fields[0]] + fields[1..];
    }
  }

  /** Whatever text is read, the value is well-formed. */
  lemma {:induction false} ReadIsWellFormed(reprint: Reprint, depth: nat, s: string)
    requires KeepsNumbers(reprint) && ReadValue(reprint, depth, s).Some?
    ensures WellFormed(ReadValue(reprint, depth, s).value.0)
    decreases |s|, 1
  {
    var t := SkipSpace(s);
    if t[0] == '[' {
      var u := SkipSpace(t[1..]);
      if u[0] != ']' {
        ItemsWellFormed(reprint, depth - 1, u);
      }
    } else if t[0] == '{' {
      var u := SkipSpace(t[1..]);
      if u[0] != '}' {
        MembersReadWellFormed(reprint, depth - 1, u);
        LastOfEachMembers(ReadMembers(reprint, depth - 1, u).value.0);
      }
    }
  }

  lemma {:induction false} ItemsWellFormed(reprint: Reprint, depth: nat, s: string)
    requires KeepsNumbers(reprint) && ReadItems(reprint, depth, s).Some?
    ensures forall v :: v in ReadItems(reprint, depth, s).value.0 ==> WellFormed(v)
    decreases |s|, 2
  {
    ReadIsWellFormed(reprint, depth, s);
    var t := SkipSpace(ReadValue(reprint, depth, s).value.1);
    if t[0] == ',' {
      ItemsWellFormed(reprint, depth, t[1..]);
    }
  }

  lemma {:induction false} MembersReadWellFormed(reprint: Reprint, depth: nat, s: string)
    requires KeepsNumbers(reprint) && ReadMembers(reprint, depth, s).Some?
    ensures forall f :: f in ReadMembers(reprint, depth, s).value.0 ==> WellFormed(f.value)
    decreases |s|, 2
  {
    var u := SkipSpace(ReadChars(SkipSpace(s)[1..]).value.1);
    ReadIsWellFormed(reprint, depth, u[1..]);
    var t := SkipSpace(ReadMember(reprint, depth, s).value.1);
    if t[0] == ',' {
      MembersReadWellFormed(reprint, depth, t[1..]);
    }
  }

  lemma TextIsWellFormed(reprint: Reprint, depth: nat, text: string)
    requires KeepsNumbers(reprint) && ReadText(reprint, depth, text).Some?
    ensures WellFormed(ReadText(reprint, depth, text).value)
  {
    ReadIsWellFormed(reprint, depth, text);
  }
}
