/** Compact JSON text, written front to back. */
module JsonText {
  import opened Json

  function HexDigit(n: nat): char
    requires n < 16
  {
    "0123456789abcdef"[n]
  }

  /** How one character appears inside a JSON string. */
  function EscapeChar(c: char): (r: string)
    ensures r != [] && r[0] != '"'
  {
    if c == '"' then "\\\""
    else if c == '\\' then "\\\\"
    else if c == '\U{0008}' then "\\b"
    else if c == '\U{000C}' then "\\f"
    else if c == '\n' then "\\n"
    else if c == '\r' then "\\r"
    else if c == '\t' then "\\t"
    else if c < ' ' then "\\u00" + [HexDigit(c as int / 16), HexDigit(c as int % 16)]
    else [c]
  }

  /** The characters of a string, then whatever follows. */
  function EscapeOnto(s: string, rest: string): string {
    if s == [] then rest else EscapeChar(s[0]) + EscapeOnto(s[1..], rest)
  }

  function StringOnto(s: string, rest: string): string {
    "\"" + EscapeOnto(s, "\"" + rest)
  }

  /** The text of a value, then whatever follows. */
  function WriteOnto(v: Json, rest: string): string
    decreases v, 1
  {
    match v
    case Null => "null" + rest
    case Bool(b) => (if b then "true" else "false") + rest
    case Num(text) => text + rest
    case Str(s) => StringOnto(s, rest)
    case Arr(items) => "[" + ItemsOnto(items, "]" + rest)
    case Obj(fields) => "{" + FieldsOnto(fields, "}" + rest)
  }

  function ItemsOnto(items: seq<Json>, rest: string): string
    decreases items, 0
  {
    if items == [] then rest
    else WriteOnto(items[0], if |items| == 1 then rest else "," + ItemsOnto(items[1..], rest))
  }

  function FieldsOnto(fields: seq<Field>, rest: string): string
    decreases fields, 0
  {
    if fields == [] then rest
    else
      StringOnto(fields[0].key,
        ":" + WriteOnto(fields[0].value, if |fields| == 1 then rest else "," + FieldsOnto(fields[1..], rest)))
  }

  function Serialize(v: Json): string {
    WriteOnto(v, "")
  }

  // ---- How it begins ----

  /** What may follow a value: nothing that could extend a number. */
  predicate Delimits(rest: string) {
    rest == [] || !IsNumChar(rest[0])
  }

  /** The first character tells the kind of value, and is never one that closes or separates. */
  lemma FirstChar(v: Json, rest: string)
    requires WellFormed(v)
    ensures var text := WriteOnto(v, rest);
      && text != []
      && (text[0] == 'n' <==> v.Null?)
      && (text[0] == 't' <==> v == Bool(true))
      && (text[0] == 'f' <==> v == Bool(false))
      && (text[0] == '"' <==> v.Str?)
      && (text[0] == '[' <==> v.Arr?)
      && (text[0] == '{' <==> v.Obj?)
      && (IsNumChar(text[0]) <==> v.Num?)
      && text[0] != ']' && text[0] != '}' && text[0] != ','
  {
    match v {
      case Num(text) =>
        NumberChars(text);
        assert (text + rest)[0] == text[0];
      case Bool(b) => assert WriteOnto(v, rest)[0] == if b then 't' else 'f';
      case Null => assert WriteOnto(v, rest)[0] == 'n';
      case _ =>
    }
  }

  lemma ItemsHead(items: seq<Json>, rest: string)
    requires forall i :: 0 <= i < |items| ==> WellFormed(items[i])
    ensures items != [] ==> ItemsOnto(items, rest) != [] && ItemsOnto(items, rest)[0] != ']'
  {
    if items != [] {
      FirstChar(items[0], if |items| == 1 then rest else "," + ItemsOnto(items[1..], rest));
    }
  }

  lemma FieldsHead(fields: seq<Field>, rest: string)
    ensures fields != [] ==> FieldsOnto(fields, rest) != [] && FieldsOnto(fields, rest)[0] == '"'
  {
  }
}
