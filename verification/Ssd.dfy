/** The SSD tier: where an object's file lives, what is in it, and how it is replaced. */
module Ssd {
  import opened Types
  import opened Objects

  datatype SsdError = InvalidPathSegment | NotFound | MissingMagic | MissingNonce | Decryption | TempExists

  /** Authenticated encryption, as two functions of nonce, associated data and bytes. */
  datatype Aead = Aead(encrypt: (Bytes, string, Bytes) -> Bytes, decrypt: (Bytes, string, Bytes) -> Option<Bytes>)

  ghost predicate Decrypts(aead: Aead) {
    forall nonce: Bytes, aad: string, msg: Bytes ::
      aead.decrypt(nonce, aad, aead.encrypt(nonce, aad, msg)) == Some(msg)
  }

  const FILE_MAGIC: Bytes := [77, 67, 83, 83, 68, 49, 0]
  const NONCE_LEN: nat := 12

  // ---- Paths ----

  predicate SegmentChar(c: char) {
    'a' <= c <= 'z' || 'A' <= c <= 'Z' || '0' <= c <= '9' || c == '-' || c == '_' || c == '.'
  }

  predicate ValidSegment(s: string) {
    s != [] && s != "." && s != ".." && forall i :: 0 <= i < |s| ==> SegmentChar(s[i])
  }

  predicate ValidId(o: ObjKey) {
    ValidSegment(o.tenant) && ValidSegment(o.key)
  }

  function ObjectFile(root: string, o: ObjKey): string {
    root + "/" + o.tenant + "/" + o.key + ".mcobj"
  }

  function TempFile(root: string, o: ObjKey, suffix: string): string {
    root + "/" + o.tenant + "/." + o.key + "." + suffix + ".tmp"
  }

  function ObjectPath(root: string, o: ObjKey): Result<string, SsdError> {
    if ValidId(o) then Ok(ObjectFile(root, o)) else Err(InvalidPathSegment)
  }

  lemma SegmentsSplit(a: string, b: string, x: string, y: string)
    requires a + "/" + x == b + "/" + y
    requires (forall i :: 0 <= i < |a| ==> a[i] != '/') && (forall i :: 0 <= i < |b| ==> b[i] != '/')
    ensures a == b && x == y
  {
    var text := a + "/" + x;
    assert (forall i :: 0 <= i < |a| ==> text[i] == a[i]) && text[|a|] == '/';
    assert (forall i :: 0 <= i < |b| ==> text[i] == b[i]) && text[|b|] == '/';
    assert |a| == |b|;
    assert a == text[..|a|] && b == text[..|b|];
    assert x == text[|a| + 1..] && y == text[|b| + 1..];
  }

  /** Different objects never share a file. */
  lemma ObjectFilesAreDistinct(root: string, o: ObjKey, p: ObjKey)
    requires ValidId(o) && ValidId(p) && ObjectFile(root, o) == ObjectFile(root, p)
    ensures o == p
  {
    var x, y := o.key + ".mcobj", p.key + ".mcobj";
    var head := root + "/";
    assert ObjectFile(root, o) == head + (o.tenant + "/" + x);
    assert ObjectFile(root, p) == head + (p.tenant + "/" + y);
    assert o.tenant + "/" + x == ObjectFile(root, o)[|head|..];
    assert p.tenant + "/" + y == ObjectFile(root, p)[|head|..];
    SegmentsSplit(o.tenant, p.tenant, x, y);
    assert o.key == x[..|x| - 6] && p.key == y[..|y| - 6];
  }

  /** A temporary file is never an object's file. */
  lemma TempIsNotObject(root: string, o: ObjKey, p: ObjKey, suffix: string)
    ensures TempFile(root, o, suffix) != ObjectFile(root, p)
  {
    var t, f := TempFile(root, o, suffix), ObjectFile(root, p);
    assert t[|t| - 1] == 'p' && f[|f| - 1] == 'j';
  }

  // ---- File contents ----

  function AadOf(o: ObjKey): string {
    o.tenant + "\0" + o.key
  }

  function FileBytes(aead: Aead, o: ObjKey, nonce: Bytes, bytes: Bytes): Bytes {
    FILE_MAGIC + nonce + aead.encrypt(nonce, AadOf(o), bytes)
  }

  function DecodeFile(aead: Aead, o: ObjKey, file: Bytes): Result<Bytes, SsdError> {
    if !(FILE_MAGIC <= file) then Err(MissingMagic)
    else
      var encrypted := file[|FILE_MAGIC|..];
      if |encrypted| < NONCE_LEN then Err(MissingNonce)
      else
        match aead.decrypt(encrypted[..NONCE_LEN], AadOf(o), encrypted[NONCE_LEN..])
        case Some(bytes) => Ok(bytes)
        case None => Err(Decryption)
  }

  lemma FileRoundTrips(aead: Aead, o: ObjKey, nonce: Bytes, bytes: Bytes)
    requires Decrypts(aead) && |nonce| == NONCE_LEN
    ensures DecodeFile(aead, o, FileBytes(aead, o, nonce, bytes)) == Ok(bytes)
  {
    var file := FileBytes(aead, o, nonce, bytes);
    var ciphertext := aead.encrypt(nonce, AadOf(o), bytes);
    assert file == FILE_MAGIC + (nonce + ciphertext);
    assert file[|FILE_MAGIC|..] == nonce + ciphertext;
    assert (nonce + ciphertext)[..NONCE_LEN] == nonce && (nonce + ciphertext)[NONCE_LEN..] == ciphertext;
  }

  // ---- The directory ----

  type Files = map<string, Bytes>

  /** Write a fresh temporary file, then rename it over the object's file. */
  function PersistObject(aead: Aead, root: string, files: Files, o: ObjKey, nonce: Bytes, suffix: string, bytes: Bytes)
    : (Files, Result<(), SsdError>)
  {
    match ObjectPath(root, o)
    case Err(e) => (files, Err(e))
    case Ok(path) =>
      var temp := TempFile(root, o, suffix);
      if temp in files then (files - {temp}, Err(TempExists))
      else
        var written := files[temp := FileBytes(aead, o, nonce, bytes)];
        ((written - {temp})[path := written[temp]], Ok(()))
  }

  function ReadObject(aead: Aead, root: string, files: Files, o: ObjKey): Result<Bytes, SsdError> {
    match ObjectPath(root, o)
    case Err(e) => Err(e)
    case Ok(path) => if path !in files then Err(NotFound) else DecodeFile(aead, o, files[path])
  }

  /** Persisting one object makes it readable and leaves every other object's file as it was. */
  lemma PersistThenRead(
    aead: Aead, root: string, files: Files, o: ObjKey, nonce: Bytes, suffix: string, bytes: Bytes, p: ObjKey)
    requires Decrypts(aead) && |nonce| == NONCE_LEN
    requires PersistObject(aead, root, files, o, nonce, suffix, bytes).1.Ok?
    ensures var files' := PersistObject(aead, root, files, o, nonce, suffix, bytes).0;
      && ReadObject(aead, root, files', o) == Ok(bytes)
      && (p != o && ValidId(p) ==>
            (ObjectFile(root, p) in files' <==> ObjectFile(root, p) in files)
            && ReadObject(aead, root, files', p) == ReadObject(aead, root, files, p))
  {
    FileRoundTrips(aead, o, nonce, bytes);
    TempIsNotObject(root, o, p, suffix);
    TempIsNotObject(root, o, o, suffix);
    if ValidId(p) && ObjectFile(root, o) == ObjectFile(root, p) {
      ObjectFilesAreDistinct(root, o, p);
    }
  }

  /** A file decodes to bytes exactly if it is the magic, a nonce, and a ciphertext of them for that very object. */
  lemma DecodesIff(aead: Aead, o: ObjKey, file: Bytes, bytes: Bytes)
    ensures DecodeFile(aead, o, file) == Ok(bytes) <==>
      exists nonce: Bytes, ciphertext: Bytes ::
        && |nonce| == NONCE_LEN && file == FILE_MAGIC + nonce + ciphertext
        && aead.decrypt(nonce, AadOf(o), ciphertext) == Some(bytes)
    ensures DecodeFile(aead, o, file) == Err(MissingMagic) <==> !(FILE_MAGIC <= file)
    ensures DecodeFile(aead, o, file) == Err(MissingNonce) <==> FILE_MAGIC <= file && |file| < |FILE_MAGIC| + NONCE_LEN
  {
    if FILE_MAGIC <= file && |file| >= |FILE_MAGIC| + NONCE_LEN {
      var encrypted := file[|FILE_MAGIC|..];
      assert file == FILE_MAGIC + encrypted[..NONCE_LEN] + encrypted[NONCE_LEN..];
    }
    forall nonce: Bytes, ciphertext: Bytes | |nonce| == NONCE_LEN && file == FILE_MAGIC + nonce + ciphertext
      ensures FILE_MAGIC <= file && |file| >= |FILE_MAGIC| + NONCE_LEN
      ensures file[|FILE_MAGIC|..][..NONCE_LEN] == nonce && file[|FILE_MAGIC|..][NONCE_LEN..] == ciphertext
    {
      assert file == FILE_MAGIC + (nonce + ciphertext);
    }
  }

  /** The associated data names the object. */
  lemma AadNamesObject(o: ObjKey, p: ObjKey)
    requires ValidId(o) && ValidId(p) && AadOf(o) == AadOf(p)
    ensures o == p
  {
    var a, b := AadOf(o), AadOf(p);
    assert a[|o.tenant|] == '\0' && b[|p.tenant|] == '\0';
    assert (forall i :: 0 <= i < |o.tenant| ==> a[i] == o.tenant[i]) && (forall i :: 0 <= i < |p.tenant| ==> b[i] == p.tenant[i]);
    assert |o.tenant| == |p.tenant|;
    assert o.tenant == a[..|o.tenant|] && p.tenant == b[..|p.tenant|];
    assert o.key == a[|o.tenant| + 1..] && p.key == b[|p.tenant| + 1..];
  }

  /** The cipher rejects what was encrypted under other associated data. */
  ghost predicate Authenticates(aead: Aead) {
    forall nonce: Bytes, aad: string, other: string, msg: Bytes ::
      aad != other ==> aead.decrypt(nonce, other, aead.encrypt(nonce, aad, msg)) == None
  }

  /** With such a cipher, one object's file is never read as another's, wherever it is put. */
  lemma FilesAreBoundToTheirObject(aead: Aead, o: ObjKey, p: ObjKey, nonce: Bytes, bytes: Bytes)
    requires Authenticates(aead) && ValidId(o) && ValidId(p) && o != p && |nonce| == NONCE_LEN
    ensures DecodeFile(aead, p, FileBytes(aead, o, nonce, bytes)) == Err(Decryption)
  {
    if AadOf(o) == AadOf(p) {
      AadNamesObject(o, p);
    }
    var file, ciphertext := FileBytes(aead, o, nonce, bytes), aead.encrypt(nonce, AadOf(o), bytes);
    assert file == FILE_MAGIC + (nonce + ciphertext);
    assert file[|FILE_MAGIC|..] == nonce + ciphertext;
    assert (nonce + ciphertext)[..NONCE_LEN] == nonce && (nonce + ciphertext)[NONCE_LEN..] == ciphertext;
  }

  /** Persisting succeeds exactly for a valid name whose temporary file is not there yet, and never leaves one behind. */
  lemma PersistOutcome(aead: Aead, root: string, files: Files, o: ObjKey, nonce: Bytes, suffix: string, bytes: Bytes)
    ensures var (files', r) := PersistObject(aead, root, files, o, nonce, suffix, bytes);
      var (temp, path) := (TempFile(root, o, suffix), ObjectFile(root, o));
      && (r == Err(InvalidPathSegment) <==> !ValidId(o))
      && (r == Err(TempExists) <==> ValidId(o) && temp in files)
      && (r.Ok? <==> ValidId(o) && temp !in files)
      && (!ValidId(o) ==> files' == files)
      && (ValidId(o) ==> temp !in files')
      && (r.Ok? ==> path in files' && files'[path] == FileBytes(aead, o, nonce, bytes))
      && forall f :: f != temp && (f != path || r.Err?) ==> (f in files' <==> f in files) && (f in files ==> files'[f] == files[f])
  {
    TempIsNotObject(root, o, o, suffix);
  }


  /** Writers of one object with different suffixes never meet in a temporary file. */
  lemma TempFilesDiffer(root: string, o: ObjKey, suffix: string, other: string)
    requires TempFile(root, o, suffix) == TempFile(root, o, other)
    ensures suffix == other
  {
    var head := root + "/" + o.tenant + "/." + o.key + ".";
    var a, b := TempFile(root, o, suffix), TempFile(root, o, other);
    assert a == head + suffix + ".tmp" && b == head + other + ".tmp";
    assert suffix == a[|head|..|a| - 4] && other == b[|head|..|b| - 4];
  }
}
