/** JSON values, their canonical form, and when two values differ only in the order of object keys. */
module Json {

  /** Object members keep the order they were written in; numbers are kept as their text. */
  datatype Json =
    | Null
    | Bool(b: bool)
    | Num(text: string)
    | Str(s: string)
    | Arr(items: seq<Json>)
    | Obj(fields: seq<Field>)

  datatype Field = Field(key: string, value: Json)

  // ---- Number text, as in section 6 of RFC 8259 ----

  predicate Digits(s: string) {
    s != [] && forall i :: 0 <= i < |s| ==> '0' <= s[i] <= '9'
  }

  predicate IntPart(s: string) {
    s == "0" || (Digits(s) && s[0] != '0')
  }

  predicate FracPart(s: string) {
    s == "" || (s[0] == '.' && Digits(s[1..]))
  }

  predicate ExpPart(s: string) {
    || s == ""
    || ((s[0] == 'e' || s[0] == 'E')
        && (Digits(s[1..]) || (|s| > 1 && (s[1] == '+' || s[1] == '-') && Digits(s[2..]))))
  }

  predicate NumberParts(text: string, sign: string, int_: string, frac: string, exp: string) {
    && text == sign + int_ + frac + exp
    && (sign == "" || sign == "-") && IntPart(int_) && FracPart(frac) && ExpPart(exp)
  }

  ghost predicate JsonNumber(text: string) {
    exists sign, int_, frac, exp :: NumberParts(text, sign, int_, frac, exp)
  }

  predicate IsNumChar(c: char) {
    '0' <= c <= '9' || c == '-' || c == '+' || c == '.' || c == 'e' || c == 'E'
  }

  predicate NumChars(s: string) {
    forall i :: 0 <= i < |s| ==> IsNumChar(s[i])
  }

  lemma NumberChars(text: string)
    requires JsonNumber(text)
    ensures text != [] && ('0' <= text[0] <= '9' || text[0] == '-') && NumChars(text)
  {
    var sign, int_, frac, exp :| NumberParts(text, sign, int_, frac, exp);
    TailChars(frac);
    TailChars(exp);
    assert NumChars(sign) && NumChars(int_);
    assert text[0] == if sign == "" then int_[0] else '-';
  }

  lemma TailChars(s: string)
    requires FracPart(s) || ExpPart(s)
    ensures NumChars(s)
  {
    forall i | 0 <= i < |s| ensures IsNumChar(s[i]) {
      if i > 1 {
        assert s[i] == s[1..][i - 1] == s[2..][i - 2];
      } else if i == 1 {
        assert s[1] == s[1..][0];
      }
    }
  }

  predicate DistinctKeys(fields: seq<Field>) {
    forall i, j :: 0 <= i < j < |fields| ==> fields[i].key != fields[j].key
  }

  /** What the parser can produce: numbers have the grammar's form, keys do not repeat. */
  ghost predicate WellFormed(v: Json) {
    match v
    case Num(text) => JsonNumber(text)
    case Arr(items) => forall i :: 0 <= i < |items| ==> WellFormed(items[i])
    case Obj(fields) => DistinctKeys(fields) && forall i :: 0 <= i < |fields| ==> WellFormed(fields[i].value)
    case _ => true
  }

  function KeySet(fields: seq<Field>): set<string> {
    set f | f in fields :: f.key
  }

  /** Equal up to the order of object members, at every depth: same keys, and the same values under them. */
  ghost predicate SameUpToOrder(a: Json, b: Json) {
    match (a, b)
    case (Arr(xs), Arr(ys)) => |xs| == |ys| && forall i :: 0 <= i < |xs| ==> SameUpToOrder(xs[i], ys[i])
    case (Obj(fs), Obj(gs)) =>
      && KeySet(fs) == KeySet(gs)
      && forall i, j :: 0 <= i < |fs| && 0 <= j < |gs| && fs[i].key == gs[j].key ==> SameUpToOrder(fs[i].value, gs[j].value)
    case (_, _) => a == b
  }

  // ---- Order on keys ----

  /** Rust's string order: lexicographic by code point. */
  predicate Before(a: string, b: string)
    decreases |a|
  {
    b != [] && (a == [] || a[0] < b[0] || (a[0] == b[0] && Before(a[1..], b[1..])))
  }

  lemma {:induction false} BeforeIrreflexive(a: string)
    ensures !Before(a, a)
    decreases |a|
  {
    if a != [] {
      BeforeIrreflexive(a[1..]);
    }
  }

  lemma {:induction false} BeforeTransitive(a: string, b: string, c: string)
    requires Before(a, b) && Before(b, c)
    ensures Before(a, c)
    decreases |a|
  {
    if a != [] && a[0] == b[0] == c[0] {
      BeforeTransitive(a[1..], b[1..], c[1..]);
    }
  }

  lemma {:induction false} BeforeTotal(a: string, b: string)
    ensures Before(a, b) || a == b || Before(b, a)
    decreases |a|
  {
    if a != [] && b != [] && a[0] == b[0] {
      BeforeTotal(a[1..], b[1..]);
      assert a == [a[0]] + a[1..] && b == [b[0]] + b[1..];
    }
  }

  /** They agree up to `i`, where `a` ends or has the smaller character. */
  predicate FirstDiffers(a: string, b: string, i: nat) {
    i <= |a| && i < |b| && a[..i] == b[..i] && (i == |a| || a[i] < b[i])
  }

  lemma {:induction false} BeforeDiffers(a: string, b: string) returns (i: nat)
    requires Before(a, b)
    ensures FirstDiffers(a, b, i)
    decreases |a|
  {
    if a == [] || a[0] < b[0] {
      i := 0;
    } else {
      var j := BeforeDiffers(a[1..], b[1..]);
      i := j + 1;
      assert a[..i] == [a[0]] + a[1..][..j] && b[..i] == [b[0]] + b[1..][..j];
    }
  }

  lemma {:induction false} DiffersBefore(a: string, b: string, i: nat)
    requires FirstDiffers(a, b, i)
    ensures Before(a, b)
    decreases i
  {
    if i > 0 {
      assert a[..i][0] == b[..i][0] && a[1..][..i - 1] == a[..i][1..] && b[1..][..i - 1] == b[..i][1..];
      DiffersBefore(a[1..], b[1..], i - 1);
    }
  }

  /** The order is the dictionary's. */
  lemma BeforeIsLexicographic(a: string, b: string)
    ensures Before(a, b) <==> exists i: nat :: FirstDiffers(a, b, i)
  {
    if Before(a, b) {
      var i := BeforeDiffers(a, b);
    }
    if i: nat :| FirstDiffers(a, b, i) {
      DiffersBefore(a, b, i);
    }
  }

  // ---- Sorting members ----

  function Insert(f: Field, sorted: seq<Field>): (r: seq<Field>)
    ensures |r| == |sorted| + 1
    ensures multiset(r) == multiset(sorted) + multiset{f}
  {
    if sorted == [] then [f]
    else if Before(f.key, sorted[0].key) then [f] + sorted
    else
      assert sorted == [sorted[0]] + sorted[1..];
      [sorted[0]] + Insert(f, sorted[1..])
  }

  function SortFields(fields: seq<Field>): (r: seq<Field>)
    ensures |r| == |fields|
    ensures multiset(r) == multiset(fields)
  {
    if fields == [] then []
    else
      assert fields == [fields[0]] + fields[1..];
      Insert(fields[0], SortFields(fields[1..]))
  }

  ghost predicate StrictlySorted(fields: seq<Field>) {
    forall i, j :: 0 <= i < j < |fields| ==> Before(fields[i].key, fields[j].key)
  }

  lemma MembersOf(r: seq<Field>, s: seq<Field>, extra: multiset<Field>)
    requires multiset(r) == multiset(s) + extra
    ensures forall f :: f in r <==> f in s || f in extra
  {
    forall f ensures f in r <==> f in s || f in extra {
      assert f in r <==> f in multiset(r);
      assert f in s <==> f in multiset(s);
    }
  }

  lemma {:induction false} InsertSorts(f: Field, sorted: seq<Field>)
    requires StrictlySorted(sorted) && forall g :: g in sorted ==> g.key != f.key
    ensures StrictlySorted(Insert(f, sorted))
    decreases |sorted|
  {
    if sorted != [] {
      if Before(f.key, sorted[0].key) {
        forall j | 0 < j < |sorted| { BeforeTransitive(f.key, sorted[0].key, sorted[j].key); }
      } else {
        var rest := Insert(f, sorted[1..]);
        InsertSorts(f, sorted[1..]);
        MembersOf(rest, sorted[1..], multiset{f});
        BeforeTotal(f.key, sorted[0].key);
        assert sorted[0] in sorted;
        forall j | 0 <= j < |rest| ensures Before(sorted[0].key, rest[j].key) {
          assert rest[j] in rest;
        }
      }
    }
  }

  lemma {:induction false} SortSorts(fields: seq<Field>)
    requires DistinctKeys(fields)
    ensures StrictlySorted(SortFields(fields))
    decreases |fields|
  {
    if fields != [] {
      SortSorts(fields[1..]);
      MembersOf(SortFields(fields[1..]), fields[1..], multiset{});
      InsertSorts(fields[0], SortFields(fields[1..]));
    }
  }

  lemma TailMember(s: seq<Field>, t: seq<Field>, f: Field)
    requires s != [] && t != [] && s[0] == t[0] && StrictlySorted(s) && f in s[1..] && (forall g :: g in s ==> g in t)
    ensures f in t[1..]
  {
    var i :| 0 <= i < |s[1..]| && s[1..][i] == f;
    assert s[i + 1] == f && f in s;
    BeforeIrreflexive(f.key);
    var j :| 0 <= j < |t| && t[j] == f;
    assert t[1..][j - 1] == f;
  }

  /** A set of members with distinct keys has one sorted listing. */
  lemma {:induction false} SortedIsUnique(s: seq<Field>, t: seq<Field>)
    requires StrictlySorted(s) && StrictlySorted(t) && forall f :: f in s <==> f in t
    ensures s == t
    decreases |s|
  {
    if s != [] {
      assert s[0] in s && s[0] in t;
    }
    if t != [] {
      assert t[0] in t && t[0] in s;
    }
    if s != [] && t != [] {
      if s[0] != t[0] {
        BeforeTransitive(s[0].key, t[0].key, s[0].key);
        BeforeIrreflexive(s[0].key);
      }
      forall f | f in s[1..] ensures f in t[1..] { TailMember(s, t, f); }
      forall f | f in t[1..] ensures f in s[1..] { TailMember(t, s, f); }
      SortedIsUnique(s[1..], t[1..]);
      assert s == [s[0]] + s[1..] && t == [t[0]] + t[1..];
    }
  }

  // ---- Canonical form ----

  function Canonicalize(v: Json): Json {
    match v
    case Arr(items) => Arr(seq(|items|, i requires 0 <= i < |items| => Canonicalize(items[i])))
    case Obj(fields) =>
      Obj(SortFields(seq(|fields|, i requires 0 <= i < |fields| => Field(fields[i].key, Canonicalize(fields[i].value)))))
    case _ => v
  }

  /** The members of an object with canonical values, in their original order. */
  function CanonicalFields(fields: seq<Field>): (r: seq<Field>)
    ensures |r| == |fields|
    ensures forall i :: 0 <= i < |fields| ==> r[i] == Field(fields[i].key, Canonicalize(fields[i].value))
    ensures Canonicalize(Obj(fields)) == Obj(SortFields(r))
  {
    var r := seq(|fields|, i requires 0 <= i < |fields| => Field(fields[i].key, Canonicalize(fields[i].value)));
    r
  }

  /** The members of a canonical object, listed in the original order. */
  lemma CanonicalMembers(fields: seq<Field>)
    ensures Canonicalize(Obj(fields)).Obj?
    ensures forall f :: f in Canonicalize(Obj(fields)).fields <==> f in CanonicalFields(fields)
  {
    MembersOf(SortFields(CanonicalFields(fields)), CanonicalFields(fields), multiset{});
  }

  /** Values with the same canonical form differ at most in member order. */
  lemma {:induction false} SameCanonicalIsSame(a: Json, b: Json)
    requires WellFormed(a) && WellFormed(b) && Canonicalize(a) == Canonicalize(b)
    ensures SameUpToOrder(a, b)
    decreases a, 1
  {
    match (a, b) {
      case (Arr(xs), Arr(ys)) => SameCanonicalItems(a, b);
      case (Obj(fs), Obj(gs)) => SameCanonicalFields(a, b);
      case (_, _) =>
    }
  }

  lemma {:induction false} SameCanonicalItems(a: Json, b: Json)
    requires a.Arr? && b.Arr? && WellFormed(a) && WellFormed(b) && Canonicalize(a) == Canonicalize(b)
    ensures SameUpToOrder(a, b)
    decreases a, 0
  {
    var cx, cy := Canonicalize(a).items, Canonicalize(b).items;
    assert |a.items| == |cx| == |cy| == |b.items|;
    forall i | 0 <= i < |a.items| ensures SameUpToOrder(a.items[i], b.items[i]) {
      assert cx[i] == Canonicalize(a.items[i]) && cy[i] == Canonicalize(b.items[i]);
      SameCanonicalIsSame(a.items[i], b.items[i]);
    }
  }

  lemma {:induction false} SameCanonicalFields(a: Json, b: Json)
    requires a.Obj? && b.Obj? && WellFormed(a) && WellFormed(b) && Canonicalize(a) == Canonicalize(b)
    ensures SameUpToOrder(a, b)
    decreases a, 0
  {
    var fs, gs := a.fields, b.fields;
    CanonicalMembers(fs);
    CanonicalMembers(gs);
    AlignedKeys(fs, CanonicalFields(fs));
    AlignedKeys(gs, CanonicalFields(gs));
    assert KeySet(CanonicalFields(fs)) == KeySet(CanonicalFields(gs));
    forall i, j | 0 <= i < |fs| && 0 <= j < |gs| && fs[i].key == gs[j].key
      ensures SameUpToOrder(fs[i].value, gs[j].value)
    {
      MatchingMember(CanonicalFields(fs), CanonicalFields(gs), i, j);
      SameCanonicalIsSame(fs[i].value, gs[j].value);
    }
  }

  lemma MatchingMember(fs: seq<Field>, gs: seq<Field>, i: nat, j: nat)
    requires i < |fs| && j < |gs| && fs[i].key == gs[j].key && DistinctKeys(gs)
    requires forall f :: f in fs ==> f in gs
    ensures gs[j] == fs[i]
  {
    assert fs[i] in fs;
    var p :| 0 <= p < |gs| && gs[p] == fs[i];
  }

  /** Values that differ only in member order have the same canonical form. */
  lemma {:induction false} SameHasSameCanonical(a: Json, b: Json)
    requires WellFormed(a) && WellFormed(b) && SameUpToOrder(a, b)
    ensures Canonicalize(a) == Canonicalize(b)
    decreases a, 1
  {
    match (a, b) {
      case (Arr(xs), Arr(ys)) => SameItemsCanonical(a, b);
      case (Obj(fs), Obj(gs)) => SameFieldsCanonical(a, b);
      case (_, _) =>
    }
  }

  lemma {:induction false} SameItemsCanonical(a: Json, b: Json)
    requires a.Arr? && b.Arr? && WellFormed(a) && WellFormed(b) && SameUpToOrder(a, b)
    ensures Canonicalize(a) == Canonicalize(b)
    decreases a, 0
  {
    forall i | 0 <= i < |a.items| ensures Canonicalize(a.items[i]) == Canonicalize(b.items[i]) {
      SameHasSameCanonical(a.items[i], b.items[i]);
    }
    assert Canonicalize(a).items == Canonicalize(b).items;
  }

  lemma {:induction false} SameFieldsCanonical(a: Json, b: Json)
    requires a.Obj? && b.Obj? && WellFormed(a) && WellFormed(b) && SameUpToOrder(a, b)
    ensures Canonicalize(a) == Canonicalize(b)
    decreases a, 0
  {
    var fs, gs := a.fields, b.fields;
    var cf, cg := CanonicalFields(fs), CanonicalFields(gs);
    forall i | 0 <= i < |fs| ensures cf[i] in cg {
      assert fs[i].key in KeySet(fs);
      var j :| 0 <= j < |gs| && gs[j].key == fs[i].key;
      SameHasSameCanonical(fs[i].value, gs[j].value);
      assert cg[j] == cf[i];
    }
    forall j | 0 <= j < |gs| ensures cg[j] in cf {
      assert gs[j].key in KeySet(gs);
      var i :| 0 <= i < |fs| && fs[i].key == gs[j].key;
      SameHasSameCanonical(fs[i].value, gs[j].value);
      assert cf[i] == cg[j];
    }
    SameMembersSortAlike(cf, cg);
  }

  lemma SameMembersSortAlike(s: seq<Field>, t: seq<Field>)
    requires DistinctKeys(s) && DistinctKeys(t)
    requires (forall i :: 0 <= i < |s| ==> s[i] in t) && (forall j :: 0 <= j < |t| ==> t[j] in s)
    ensures SortFields(s) == SortFields(t)
  {
    SortSorts(s);
    SortSorts(t);
    MembersOf(SortFields(s), s, multiset{});
    MembersOf(SortFields(t), t, multiset{});
    SortedIsUnique(SortFields(s), SortFields(t));
  }

  lemma {:induction false} CanonicalIsWellFormed(v: Json)
    requires WellFormed(v)
    ensures WellFormed(Canonicalize(v))
  {
    match v {
      case Arr(items) =>
        forall i | 0 <= i < |items| { CanonicalIsWellFormed(items[i]); }
      case Obj(fields) =>
        forall i | 0 <= i < |fields| { CanonicalIsWellFormed(fields[i].value); }
        SortedFieldsWellFormed(CanonicalFields(fields));
      case _ =>
    }
  }

  lemma SortedFieldsWellFormed(fields: seq<Field>)
    requires DistinctKeys(fields) && forall i :: 0 <= i < |fields| ==> WellFormed(fields[i].value)
    ensures WellFormed(Obj(SortFields(fields)))
  {
    SortedKeysDistinct(fields);
    MembersWellFormed(SortFields(fields), fields);
  }

  lemma SortedKeysDistinct(fields: seq<Field>)
    requires DistinctKeys(fields)
    ensures DistinctKeys(SortFields(fields))
  {
    var sorted := SortFields(fields);
    SortSorts(fields);
    forall i, j | 0 <= i < j < |sorted| ensures sorted[i].key != sorted[j].key {
      BeforeIrreflexive(sorted[i].key);
    }
  }

  lemma MembersWellFormed(sorted: seq<Field>, fields: seq<Field>)
    requires multiset(sorted) == multiset(fields)
    requires forall i :: 0 <= i < |fields| ==> WellFormed(fields[i].value)
    ensures forall i :: 0 <= i < |sorted| ==> WellFormed(sorted[i].value)
  {
    MembersOf(sorted, fields, multiset{});
    forall i | 0 <= i < |sorted| ensures WellFormed(sorted[i].value) {
      assert sorted[i] in fields;
    }
  }

  /** A canonical form differs from the value only in member order. */
  lemma {:induction false} CanonicalIsSame(v: Json)
    requires WellFormed(v)
    ensures SameUpToOrder(Canonicalize(v), v)
  {
    match v {
      case Arr(items) =>
        forall i | 0 <= i < |items| { CanonicalIsSame(items[i]); }
      case Obj(fields) =>
        forall i | 0 <= i < |fields| { CanonicalIsSame(fields[i].value); }
        SortedFieldsSame(fields, CanonicalFields(fields));
      case _ =>
    }
  }

  lemma SortedFieldsSame(fields: seq<Field>, cf: seq<Field>)
    requires |cf| == |fields| && DistinctKeys(fields)
    requires forall i :: 0 <= i < |fields| ==> cf[i].key == fields[i].key && SameUpToOrder(cf[i].value, fields[i].value)
    ensures SameUpToOrder(Obj(SortFields(cf)), Obj(fields))
  {
    var sorted := SortFields(cf);
    forall i, j | 0 <= i < |sorted| && 0 <= j < |fields| && sorted[i].key == fields[j].key
      ensures SameUpToOrder(sorted[i].value, fields[j].value)
    {
      SortedMember(cf, i, j);
    }
    AlignedKeys(fields, cf);
    SortedKeys(cf);
    MembersSame(sorted, fields);
  }

  lemma MembersSame(fs: seq<Field>, gs: seq<Field>)
    requires KeySet(fs) == KeySet(gs)
    requires forall i, j :: 0 <= i < |fs| && 0 <= j < |gs| && fs[i].key == gs[j].key ==> SameUpToOrder(fs[i].value, gs[j].value)
    ensures SameUpToOrder(Obj(fs), Obj(gs))
  {
  }

  lemma SortedMember(fields: seq<Field>, i: nat, j: nat)
    requires DistinctKeys(fields) && i < |fields| && j < |fields| && SortFields(fields)[i].key == fields[j].key
    ensures SortFields(fields)[i] == fields[j]
  {
    var sorted := SortFields(fields);
    MembersOf(sorted, fields, multiset{});
    assert sorted[i] in fields;
  }

  lemma SortedKeys(fields: seq<Field>)
    ensures KeySet(SortFields(fields)) == KeySet(fields)
  {
    MembersOf(SortFields(fields), fields, multiset{});
  }

  lemma AlignedKeys(fields: seq<Field>, cf: seq<Field>)
    requires |cf| == |fields| && forall i :: 0 <= i < |fields| ==> cf[i].key == fields[i].key
    ensures KeySet(cf) == KeySet(fields)
  {
    forall key | key in KeySet(fields) ensures key in KeySet(cf) {
      var i :| 0 <= i < |fields| && fields[i].key == key;
      assert cf[i] in cf;
    }
    forall key | key in KeySet(cf) ensures key in KeySet(fields) {
      var i :| 0 <= i < |cf| && cf[i].key == key;
      assert fields[i] in fields;
    }
  }

  /** Canonicalising twice is canonicalising once. */
  lemma CanonicalizeIdempotent(v: Json)
    requires WellFormed(v)
    ensures Canonicalize(Canonicalize(v)) == Canonicalize(v)
  {
    CanonicalIsWellFormed(v);
    CanonicalIsSame(v);
    SameHasSameCanonical(Canonicalize(v), v);
  }

  /** Keys ascend in every object, at every depth. */
  ghost predicate DeepSorted(v: Json) {
    match v
    case Arr(items) => forall i :: 0 <= i < |items| ==> DeepSorted(items[i])
    case Obj(fields) => StrictlySorted(fields) && forall i :: 0 <= i < |fields| ==> DeepSorted(fields[i].value)
    case _ => true
  }

  lemma {:induction false} CanonicalIsSorted(v: Json)
    requires WellFormed(v)
    ensures DeepSorted(Canonicalize(v))
  {
    match v {
      case Arr(items) =>
        forall i | 0 <= i < |items| { CanonicalIsSorted(items[i]); }
      case Obj(fields) =>
        forall i | 0 <= i < |fields| { CanonicalIsSorted(fields[i].value); }
        SortedMembersStaySorted(CanonicalFields(fields));
      case _ =>
    }
  }

  lemma ValuesStaySorted(sorted: seq<Field>, fields: seq<Field>)
    requires forall f :: f in sorted ==> f in fields
    requires forall i :: 0 <= i < |fields| ==> DeepSorted(fields[i].value)
    ensures forall i :: 0 <= i < |sorted| ==> DeepSorted(sorted[i].value)
  {
    forall i | 0 <= i < |sorted| ensures DeepSorted(sorted[i].value) {
      assert sorted[i] in fields;
      var j :| 0 <= j < |fields| && fields[j] == sorted[i];
    }
  }

  lemma SortedMembersStaySorted(fields: seq<Field>)
    requires DistinctKeys(fields) && forall i :: 0 <= i < |fields| ==> DeepSorted(fields[i].value)
    ensures DeepSorted(Obj(SortFields(fields)))
  {
    SortSorts(fields);
    MembersOf(SortFields(fields), fields, multiset{});
    ValuesStaySorted(SortFields(fields), fields);
    SortedObject(SortFields(fields));
  }

  lemma SortedObject(fields: seq<Field>)
    requires StrictlySorted(fields) && forall i :: 0 <= i < |fields| ==> DeepSorted(fields[i].value)
    ensures DeepSorted(Obj(fields))
  {
  }

  /** What is sorted at every depth is its own canonical form. */
  lemma {:induction false} SortedIsCanonical(v: Json)
    requires WellFormed(v) && DeepSorted(v)
    ensures Canonicalize(v) == v
  {
    match v {
      case Arr(items) =>
        forall i | 0 <= i < |items| { SortedIsCanonical(items[i]); }
        assert Canonicalize(v).items == items;
      case Obj(fields) =>
        forall i | 0 <= i < |fields| { SortedIsCanonical(fields[i].value); }
        assert CanonicalFields(fields) == fields;
        SortSorts(fields);
        MembersOf(SortFields(fields), fields, multiset{});
        SortedIsUnique(SortFields(fields), fields);
      case _ =>
    }
  }

  /** The canonical form is the one value that differs at most in member order and has its keys ascending at every depth. */
  lemma CanonicalIsTheSortedForm(v: Json, c: Json)
    requires WellFormed(v) && WellFormed(c)
    ensures c == Canonicalize(v) <==> DeepSorted(c) && SameUpToOrder(c, v)
  {
    CanonicalIsSorted(v);
    CanonicalIsSame(v);
    if DeepSorted(c) && SameUpToOrder(c, v) {
      SortedIsCanonical(c);
      SameHasSameCanonical(c, v);
    }
  }

  // ---- The walk that computes it ----

  /** The keys of an object in order. */
  function KeysInOrder(fields: seq<Field>): (keys: seq<string>)
    ensures |keys| == |fields|
  {
    var sorted := SortFields(fields);
    seq(|fields|, i requires 0 <= i < |fields| => sorted[i].key)
  }

  function IndexOf(fields: seq<Field>, key: string): (i: nat)
    requires key in KeySet(fields)
    ensures i < |fields| && fields[i].key == key
  {
    if fields[0].key == key then 0
    else
      assert fields == [fields[0]] + fields[1..];
      1 + IndexOf(fields[1..], key)
  }

  lemma KeysInOrderFacts(fields: seq<Field>)
    requires DistinctKeys(fields)
    ensures forall i :: 0 <= i < |fields| ==> KeysInOrder(fields)[i] in KeySet(fields)
    ensures forall i :: 0 <= i < |fields| ==> fields[i].key in KeysInOrder(fields)
    ensures forall i, j :: 0 <= i < j < |fields| ==> Before(KeysInOrder(fields)[i], KeysInOrder(fields)[j])
  {
    var sorted := SortFields(fields);
    SortSorts(fields);
    MembersOf(sorted, fields, multiset{});
    forall i | 0 <= i < |fields| ensures KeysInOrder(fields)[i] in KeySet(fields) {
      assert sorted[i] in fields;
    }
    forall i | 0 <= i < |fields| ensures fields[i].key in KeysInOrder(fields) {
      assert fields[i] in sorted;
      var j :| 0 <= j < |sorted| && sorted[j] == fields[i];
      assert KeysInOrder(fields)[j] == fields[i].key;
    }
  }

  /** Visiting the keys in order and appending each canonical member builds the canonical object. */
  method CanonicalizeValue(v: Json) returns (r: Json)
    requires WellFormed(v)
    ensures r == Canonicalize(v)
    decreases v, 1
  {
    match v {
      case Arr(items) =>
        r := CanonicalizeItems(v);
      case Obj(fields) =>
        var keys := KeysInOrder(fields);
        KeysInOrderFacts(fields);
        var sorted: seq<Field> := [];
        for i := 0 to |keys|
          invariant |sorted| == i
          invariant forall p :: 0 <= p < i ==> sorted[p].key == keys[p] && sorted[p] in CanonicalFields(fields)
        {
          var at := IndexOf(fields, keys[i]);
          var value := CanonicalizeValue(fields[at].value);
          assert CanonicalFields(fields)[at] == Field(keys[i], value);
          sorted := sorted + [Field(keys[i], value)];
        }
        OrderedMembersAreCanonical(fields, sorted);
        return Obj(sorted);
      case _ =>
        return v;
    }
  }

  method CanonicalizeItems(v: Json) returns (r: Json)
    requires v.Arr? && WellFormed(v)
    ensures r == Canonicalize(v)
    decreases v, 0
  {
    var done: seq<Json> := [];
    for i := 0 to |v.items|
      invariant |done| == i && forall p :: 0 <= p < i ==> done[p] == Canonicalize(v.items[p])
    {
      var item := CanonicalizeValue(v.items[i]);
      done := done + [item];
    }
    assert done == Canonicalize(v).items;
    r := Arr(done);
  }

  lemma OrderedMembersAreCanonical(fields: seq<Field>, sorted: seq<Field>)
    requires DistinctKeys(fields) && |sorted| == |fields|
    requires forall i :: 0 <= i < |sorted| ==>
      sorted[i].key == KeysInOrder(fields)[i] && sorted[i] in CanonicalFields(fields)
    ensures Canonicalize(Obj(fields)) == Obj(sorted)
  {
    var cf := CanonicalFields(fields);
    KeysInOrderFacts(fields);
    SortSorts(cf);
    MembersOf(SortFields(cf), cf, multiset{});
    forall f | f in cf ensures f in sorted {
      OrderedMemberPresent(fields, cf, sorted, f);
    }
    SortedIsUnique(sorted, SortFields(cf));
  }

  lemma OrderedMemberPresent(fields: seq<Field>, cf: seq<Field>, sorted: seq<Field>, f: Field)
    requires DistinctKeys(fields) && |sorted| == |cf| == |fields| && f in cf
    requires forall i :: 0 <= i < |fields| ==> cf[i].key == fields[i].key
    requires forall i :: 0 <= i < |sorted| ==> sorted[i].key == KeysInOrder(fields)[i] && sorted[i] in cf
    ensures f in sorted
  {
    KeysInOrderFacts(fields);
    var i :| 0 <= i < |cf| && cf[i] == f;
    assert fields[i].key in KeysInOrder(fields);
    var j :| 0 <= j < |sorted| && KeysInOrder(fields)[j] == fields[i].key;
    var p :| 0 <= p < |cf| && cf[p] == sorted[j];
    assert fields[p].key == fields[i].key;
  }
}
