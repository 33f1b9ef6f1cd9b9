/** Vocabulary shared by every component: results, 64-bit counters and text helpers. */
module Types {

  datatype Option<+T> = None | Some(value: T)

  datatype Result<+T, +E> = Ok(value: T) | Err(error: E)

  const U64_MAX: int := 0xFFFF_FFFF_FFFF_FFFF

  /** An unsigned 64-bit integer; also the model of `usize` on a 64-bit platform. */
  type u64 = x: int | 0 <= x <= U64_MAX

  newtype byte = x: int | 0 <= x < 256
  type Bytes = seq<byte>

  function SaturatingAdd(a: u64, b: u64): u64 {
    if a + b <= U64_MAX then a + b else U64_MAX
  }

  function SaturatingSub(a: u64, b: u64): u64 {
    if b <= a then a - b else 0
  }

  function CheckedAdd(a: u64, b: u64): Option<u64> {
    if a + b <= U64_MAX then Some(a + b) else None
  }

  predicate NoDuplicates<T(==)>(s: seq<T>) {
    forall i, j :: 0 <= i < j < |s| ==> s[i] != s[j]
  }

  /** The Unicode White_Space property, which Rust's `trim` functions use. */
  predicate IsWhitespace(c: char) {
    || '\t' <= c <= '\r'
    || c == ' '
    || c == '\U{0085}'
    || c == '\U{00A0}'
    || c == '\U{1680}'
    || '\U{2000}' <= c <= '\U{200A}'
    || c == '\U{2028}'
    || c == '\U{2029}'
    || c == '\U{202F}'
    || c == '\U{205F}'
    || c == '\U{3000}'
  }

  predicate IsBlank(s: string) {
    forall i :: 0 <= i < |s| ==> IsWhitespace(s[i])
  }
}
