/** User certificates (`cert.rs`; section 2.1 of draft-ietf-sshm-cert). The key
and signature libraries are any functions. */
module Certificates {
  import opened Wire
  import opened Records

  const CERT_BLOB_BOUND: nat := 16 * 1024
  const KEY_ALGO_BOUND: nat := 64
  const SIGNATURE_LEN: nat := 2484
  const MAX_PRINCIPALS: nat := 256
  const MIN_NONCE_LEN: nat := 16
  const ROLE_USER: nat := 1

  function CertAlgorithm(): Bytes { Ascii("ssh-ed25519-cert-v01@openssh.com") }
  function Composite(): (b: Str) ensures |b| == 19 { Ascii("ssh-mldsa44-ed25519") }
  function PermitPty(): Bytes { Ascii("permit-pty") }

  /** Algorithm, nonce, key, serial, role, key id, principals, valid after, valid
      before, critical options, extensions, reserved, signature key. */
  const CERT: seq<Shape> :=
    [Text(KEY_ALGO_BOUND), Text(CERT_BLOB_BOUND), Text(32), Number64, Number32, Text(CERT_BLOB_BOUND),
     Text(CERT_BLOB_BOUND), Number64, Number64, Text(CERT_BLOB_BOUND), Text(CERT_BLOB_BOUND), Text(CERT_BLOB_BOUND),
     Text(CERT_BLOB_BOUND)]

  datatype Head = Head(
    algorithm: Bytes, nonce: Bytes, key: Bytes, serial: nat, role: nat, keyId: Bytes, principals: Bytes,
    validAfter: nat, validBefore: nat, critical: Bytes, extensions: Bytes, caKey: Bytes)

  function HeadOf(d: seq<Datum>): Head
    requires Matches(CERT, d)
  {
    assert |CERT| == 13;
    assert forall i :: i in {0, 1, 2, 5, 6, 9, 10, 11, 12} ==> CERT[i].Text?;
    assert forall i :: i in {3, 4, 7, 8} ==> CERT[i].Number32? || CERT[i].Number64?;
    Head(d[0].text, d[1].text, d[2].text, d[3].n, d[4].n, d[5].text, d[6].text, d[7].n, d[8].n, d[9].text, d[10].text,
         d[12].text)
  }

  datatype Library = Library(
    validKey: Bytes -> bool,                     // decodes and is not weak
    utf8: Bytes -> bool,
    verifies: (Bytes, Bytes, Bytes) -> bool)     // CA key blob, data, signature

  datatype Parsed = Parsed(
    key: Bytes, serial: nat, role: nat, keyId: Bytes, principals: seq<Str>,
    validAfter: nat, validBefore: nat, hasCriticalOptions: bool, permitPty: bool,
    caKey: Bytes, signed: Bytes, signatureAlgorithm: Bytes, signature: Bytes)

  // ---- the nested lists ----

  function PrincipalsFrom(rest: Bytes, bound: nat, taken: nat): Option<seq<Str>>
    decreases |rest|
  {
    if rest == [] then Some([])
    else if taken >= MAX_PRINCIPALS then None
    else
      match GetString(rest, bound)
      case Err(_) => None
      case Ok(g) =>
        var tail := PrincipalsFrom(g.rest, bound, taken + 1);
        if tail.None? then None else Some([g.value] + tail.value)
  }

  function Principals(field: Bytes): Option<seq<Str>> { PrincipalsFrom(field, |field|, 0) }

  /** What was found so far, in front of what the rest gives. */
  function After<T>(found: seq<T>, rest: Option<seq<T>>): Option<seq<T>> {
    if rest.None? then None else Some(found + rest.value)
  }

  lemma AfterNothing<T>(rest: Option<seq<T>>)
    ensures After([], rest) == rest
  {
    assert rest.Some? ==> [] + rest.value == rest.value;
  }

  lemma AfterOne<T>(found: seq<T>, x: T, rest: Option<seq<T>>)
    ensures After(found, After([x], rest)) == After(found + [x], rest)
  {
    assert rest.Some? ==> found + ([x] + rest.value) == (found + [x]) + rest.value;
  }

  lemma AfterAll<T>(found: seq<T>)
    ensures After(found, Some([])) == Some(found)
  {
    assert found + [] == found;
  }

  method ParsePrincipals(field: Bytes) returns (r: Option<seq<Str>>)
    ensures r == Principals(field)
  {
    hide After, GetString;
    var rest, found: seq<Str> := field, [];
    AfterNothing(Principals(field));
    while |rest| > 0
      invariant |found| <= MAX_PRINCIPALS
      invariant Principals(field) == After(found, PrincipalsFrom(rest, |field|, |found|))
      decreases |rest|
    {
      PrincipalsStep(rest, |field|, |found|);
      AfterNone(found);
      if |found| == MAX_PRINCIPALS {
        return None;
      }
      var g := GetString(rest, |field|);
      if g.Err? {
        return None;
      }
      AfterOne(found, g.value.value, PrincipalsFrom(g.value.rest, |field|, |found| + 1));
      rest, found := g.value.rest, found + [g.value.value];
    }
    AfterAll(found);
    return Some(found);
  }

  lemma AfterNone<T>(found: seq<T>)
    ensures After(found, None) == None
  {
  }

  lemma PrincipalsStep(rest: Bytes, bound: nat, taken: nat)
    requires rest != []
    ensures PrincipalsFrom(rest, bound, taken) ==
            if taken >= MAX_PRINCIPALS || GetString(rest, bound).Err? then None
            else After([GetString(rest, bound).value.value],
                       PrincipalsFrom(GetString(rest, bound).value.rest, bound, taken + 1))
  {
  }

  datatype Item = Item(name: Str, data: Str)

  function OptionsFrom(rest: Bytes, bound: nat): Option<seq<Item>>
    decreases |rest|
  {
    if rest == [] then Some([])
    else
      match GetString(rest, bound)
      case Err(_) => None
      case Ok(name) =>
        match GetString(name.rest, bound)
        case Err(_) => None
        case Ok(data) =>
          var tail := OptionsFrom(data.rest, bound);
          if tail.None? then None else Some([Item(name.value, data.value)] + tail.value)
  }

  function Options(field: Bytes): Option<seq<Item>> { OptionsFrom(field, |field|) }

  lemma OptionsStep(rest: Bytes, bound: nat)
    requires rest != []
    ensures var name := GetString(rest, bound);
            OptionsFrom(rest, bound) ==
            if name.Err? || GetString(name.value.rest, bound).Err? then None
            else
              var data := GetString(name.value.rest, bound).value;
              After([Item(name.value.value, data.value)], OptionsFrom(data.rest, bound))
  {
  }

  predicate SaysPty(items: seq<Item>) { exists i :: 0 <= i < |items| && items[i].name == PermitPty() }

  predicate BadPty(items: seq<Item>) {
    exists i :: 0 <= i < |items| && items[i].name == PermitPty() && items[i].data != []
  }

  lemma PtyOneMore(items: seq<Item>, item: Item)
    ensures SaysPty(items + [item]) <==> SaysPty(items) || item.name == PermitPty()
    ensures BadPty(items + [item]) <==> BadPty(items) || (item.name == PermitPty() && item.data != [])
  {
    var more := items + [item];
    assert more[|items|] == item && forall i :: 0 <= i < |items| ==> more[i] == items[i];
  }

  /** `for_each_option` over the extensions, with the two flags its closure
      sets. */
  method ScanExtensions(field: Bytes) returns (ok: bool, permitPty: bool, corrupt: bool)
    ensures ok == Options(field).Some?
    ensures ok ==> permitPty == SaysPty(Options(field).value) && corrupt == BadPty(Options(field).value)
  {
    hide After, GetString, SaysPty, BadPty, PermitPty;
    var rest := field;
    permitPty, corrupt := false, false;
    ghost var seen: seq<Item> := [];
    AfterNothing(Options(field));
    NoPty();
    while |rest| > 0
      invariant Options(field) == After(seen, OptionsFrom(rest, |field|))
      invariant permitPty == SaysPty(seen) && corrupt == BadPty(seen)
      decreases |rest|
    {
      OptionsStep(rest, |field|);
      AfterNone(seen);
      var name := GetString(rest, |field|);
      if name.Err? {
        return false, permitPty, corrupt;
      }
      var data := GetString(name.value.rest, |field|);
      if data.Err? {
        return false, permitPty, corrupt;
      }
      ghost var item := Item(name.value.value, data.value.value);
      AfterOne(seen, item, OptionsFrom(data.value.rest, |field|));
      PtyOneMore(seen, item);
      seen := seen + [item];
      if name.value.value == PermitPty() {
        permitPty := true;
        corrupt := corrupt || data.value.value != [];
      }
      rest := data.value.rest;
    }
    AfterAll(seen);
    return true, permitPty, corrupt;
  }

  lemma NoPty()
    ensures !SaysPty([]) && !BadPty([])
  {
  }

  lemma {:induction false} PrincipalsRead(rest: Bytes, bound: nat, taken: nat)
    requires PrincipalsFrom(rest, bound, taken).Some?
    ensures var ps := PrincipalsFrom(rest, bound, taken).value;
            rest == PutStrings(ps) && (ps != [] ==> taken + |ps| <= MAX_PRINCIPALS)
    decreases |rest|
  {
    if rest != [] {
      PutGetString(rest, bound);
      PrincipalsRead(GetString(rest, bound).value.rest, bound, taken + 1);
      var ps := PrincipalsFrom(rest, bound, taken).value;
      assert ps[1..] == PrincipalsFrom(GetString(rest, bound).value.rest, bound, taken + 1).value;
    }
  }

  lemma {:induction false} PrincipalsWritten(ps: seq<Str>, bound: nat, taken: nat)
    requires taken + |ps| <= MAX_PRINCIPALS && |PutStrings(ps)| <= bound
    ensures PrincipalsFrom(PutStrings(ps), bound, taken) == Some(ps)
    decreases |ps|
  {
    hide GetString, PutString;
    if ps != [] {
      PrincipalsStep(PutStrings(ps), bound, taken);
      GetPutString(ps[0], PutStrings(ps[1..]), bound);
      PrincipalsWritten(ps[1..], bound, taken + 1);
      assert ps == [ps[0]] + ps[1..];
    }
  }

  /** The principals field is accepted exactly when it is a sequence of at most
      256 strings, and those are the principals. */
  lemma PrincipalsExactly(field: Bytes, ps: seq<Str>)
    ensures Principals(field) == Some(ps) <==> field == PutStrings(ps) && |ps| <= MAX_PRINCIPALS
  {
    if Principals(field) == Some(ps) {
      PrincipalsRead(field, |field|, 0);
    }
    if field == PutStrings(ps) && |ps| <= MAX_PRINCIPALS {
      PrincipalsWritten(ps, |field|, 0);
    }
  }

  /** An options field written out. */
  function PutItems(items: seq<Item>): Bytes {
    if items == [] then [] else PutString(items[0].name) + (PutString(items[0].data) + PutItems(items[1..]))
  }

  lemma {:induction false} OptionsRead(rest: Bytes, bound: nat)
    requires OptionsFrom(rest, bound).Some?
    ensures rest == PutItems(OptionsFrom(rest, bound).value)
    decreases |rest|
  {
    hide GetString, PutString;
    if rest != [] {
      OptionsStep(rest, bound);
      var name := GetString(rest, bound).value;
      var data := GetString(name.rest, bound).value;
      PutGetString(rest, bound);
      PutGetString(name.rest, bound);
      OptionsRead(data.rest, bound);
      var items := OptionsFrom(rest, bound).value;
      assert items[1..] == OptionsFrom(data.rest, bound).value;
    }
  }

  lemma {:induction false} OptionsWritten(items: seq<Item>, bound: nat)
    requires |PutItems(items)| <= bound
    ensures OptionsFrom(PutItems(items), bound) == Some(items)
    decreases |items|
  {
    hide GetString, PutString;
    if items != [] {
      var tail := PutItems(items[1..]);
      OptionsStep(PutItems(items), bound);
      GetPutString(items[0].name, PutString(items[0].data) + tail, bound);
      GetPutString(items[0].data, tail, bound);
      OptionsWritten(items[1..], bound);
      assert items == [items[0]] + items[1..];
    }
  }

  /** A critical-options or extensions field is accepted exactly when it is a
      sequence of pairs of strings, and those are the options; so which options
      a certificate carries is determined by its bytes, order included. */
  lemma OptionsExactly(field: Bytes, items: seq<Item>)
    ensures Options(field) == Some(items) <==> field == PutItems(items)
  {
    if Options(field) == Some(items) {
      OptionsRead(field, |field|);
    }
    if field == PutItems(items) {
      OptionsWritten(items, |field|);
    }
  }

  // ---- the certificate ----

  /** The fields, what follows them, and the two parts of the signature. */
  datatype Pieces = Pieces(head: Head, rest: Bytes, algorithm: Bytes, signature: Bytes)

  function Split(blob: Bytes): Result<Pieces> {
    var g :- ReadAll(CERT, blob);
    var outer :- GetString(g.rest, CERT_BLOB_BOUND);
    var _ :- Finish(outer.rest);
    var algorithm :- GetString(outer.value, KEY_ALGO_BOUND);
    var signature :- GetString(algorithm.rest, SIGNATURE_LEN);
    var _ :- Finish(signature.rest);
    Ok(Pieces(HeadOf(g.value), g.rest, algorithm.value, signature.value))
  }

  /** `Parsed::parse`. */
  function Parse(lib: Library, blob: Bytes): Option<Parsed> {
    var s := Split(blob);
    if |blob| > CERT_BLOB_BOUND || s.Err? then None
    else if !Sound(lib, s.value.head) then None
    else
      Some(Assemble(lib, s.value.head, blob[..if |s.value.rest| <= |blob| then |blob| - |s.value.rest| else 0],
                    s.value.algorithm, s.value.signature))
  }

  function Assemble(lib: Library, h: Head, signed: Bytes, algorithm: Bytes, signature: Bytes): Parsed
    requires Sound(lib, h)
  {
    Parsed(h.key, h.serial, h.role, h.keyId, Principals(h.principals).value, h.validAfter, h.validBefore,
           Options(h.critical).value != [], SaysPty(Options(h.extensions).value), h.caKey, signed, algorithm, signature)
  }

  /** The structural rules on the fields. */
  predicate Sound(lib: Library, h: Head) {
    && h.algorithm == CertAlgorithm() && |h.nonce| >= MIN_NONCE_LEN
    && |h.key| == 32 && lib.validKey(h.key) && lib.utf8(h.keyId)
    && Principals(h.principals).Some? && Options(h.critical).Some?
    && Options(h.extensions).Some? && !BadPty(Options(h.extensions).value)
  }

  lemma CertHasNoFlags()
    ensures forall i :: 0 <= i < |CERT| ==> !CERT[i].Flag?
  {
  }

  /** What an accepted blob is made of. */
  lemma SplitBytes(blob: Bytes)
    requires Split(blob).Ok?
    ensures var d, s := ReadAll(CERT, blob).value.value, Split(blob).value;
            && Printable(CERT, d) && s.head == HeadOf(d) && |s.rest| <= |blob|
            && |s.algorithm| <= KEY_ALGO_BOUND && |s.signature| <= SIGNATURE_LEN
            && blob[..|blob| - |s.rest|] == Print(CERT, d)
            && blob == Print(CERT, d) + PutString(PutString(s.algorithm) + PutString(s.signature))
  {
    CertHasNoFlags();
    PrintRead(CERT, blob);
    ReadSuffix(CERT, blob);
    var g := ReadAll(CERT, blob).value;
    PutGetString(g.rest, CERT_BLOB_BOUND);
    var outer := GetString(g.rest, CERT_BLOB_BOUND).value;
    PutGetString(outer.value, KEY_ALGO_BOUND);
    PutGetString(GetString(outer.value, KEY_ALGO_BOUND).value.rest, SIGNATURE_LEN);
    hide ReadAll, Print, GetString, PutString, HeadOf, Printable;
    var s := Split(blob).value;
    assert PutString(s.signature) + [] == PutString(s.signature);
    assert PutString(outer.value) + [] == PutString(outer.value);
    assert blob[..|blob| - |g.rest|] == Print(CERT, g.value);
  }

  /** An accepted certificate is what the CA signed followed by the re-encoded
      signature; what it signed is the re-encoded fields. */
  lemma CertificateIsSignedPart(lib: Library, blob: Bytes)
    requires Parse(lib, blob).Some?
    ensures var p := Parse(lib, blob).value;
            && |p.signatureAlgorithm| <= KEY_ALGO_BOUND && |p.signature| <= SIGNATURE_LEN
            && blob == p.signed + PutString(PutString(p.signatureAlgorithm) + PutString(p.signature))
            && (exists d: seq<Datum> :: Printable(CERT, d) && p.signed == Print(CERT, d))
  {
    SplitBytes(blob);
    hide Split, ReadAll, Print, PutString, Printable, Sound, HeadOf;
  }

  /** No strict prefix of an accepted certificate is accepted. */
  lemma NoPrefixIsACertificate(lib: Library, start: Bytes, tail: Bytes)
    requires Parse(lib, start + tail).Some? && tail != []
    ensures Parse(lib, start).None?
  {
    hide CERT, ReadAll, Sound, GetString, HeadOf, Assemble;
    if ReadAll(CERT, start).Ok? {
      var g := ReadAll(CERT, start).value;
      ReadExtend(CERT, start, tail);
      if GetString(g.rest, CERT_BLOB_BOUND).Ok? {
        GetStringExtend(g.rest, tail, CERT_BLOB_BOUND);
      }
    }
  }

  /** What the CA signed determines every field of the certificate. */
  lemma SignedDeterminesFields(lib: Library, a: Bytes, b: Bytes)
    requires Parse(lib, a).Some? && Parse(lib, b).Some? && Parse(lib, a).value.signed == Parse(lib, b).value.signed
    ensures var p, q := Parse(lib, a).value, Parse(lib, b).value;
            p == q.(signatureAlgorithm := p.signatureAlgorithm, signature := p.signature)
  {
    SplitBytes(a);
    SplitBytes(b);
    var d, e := ReadAll(CERT, a).value.value, ReadAll(CERT, b).value.value;
    ReadPrint(CERT, d, []);
    ReadPrint(CERT, e, []);
    hide ReadAll, Print, Split, Sound, HeadOf, Printable, Principals, Options, SaysPty;
    assert Print(CERT, d) == Print(CERT, e);
  }

  // ---- the checks ----

  datatype Refusal =
    | Malformed | UntrustedCa | BadCaSignature | NotUserCertificate | NotYetValid | Expired | PrincipalMismatch
    | CriticalOption

  datatype Verdict = Accepted(cert: Parsed, principal: Bytes) | Refused(why: Refusal)

  /** `verify`, in the order of its checks. No clock reads as before every
      certificate. */
  function Verify(lib: Library, blob: Bytes, cas: seq<Bytes>, user: Bytes, now: Option<U64>): Verdict {
    var parsed := Parse(lib, blob);
    if parsed.None? then Refused(Malformed)
    else
      var c := parsed.value;
      if c.caKey !in cas then Refused(UntrustedCa)
      else if c.signatureAlgorithm != Composite() || !lib.verifies(c.caKey, c.signed, c.signature) then
        Refused(BadCaSignature)
      else if c.role != ROLE_USER then Refused(NotUserCertificate)
      else if now.None? || now.value < c.validAfter then Refused(NotYetValid)
      else if now.value >= c.validBefore then Refused(Expired)
      else if user !in c.principals then Refused(PrincipalMismatch)
      else if c.hasCriticalOptions then Refused(CriticalOption)
      else Accepted(c, user)
  }

  // ---- the fields by name ----

  /** What a CA writes, in wire order. */
  datatype Fields = Fields(
    nonce: Str, key: Str, serial: U64, role: U32, keyId: Str, principals: seq<Str>, after: U64, before: U64,
    critical: seq<Item>, extensions: seq<Item>, reserved: Str, caKey: Str)

  predicate Fits(c: Fields) {
    && |c.nonce| <= 16384 && |c.key| == 32 && |c.keyId| <= 16384 && |PutStrings(c.principals)| <= 16384
    && |PutItems(c.critical)| <= 16384 && |PutItems(c.extensions)| <= 16384 && |c.reserved| <= 16384
    && |c.caKey| <= 16384
  }

  /** The bytes a CA signs. */
  function SignedPart(c: Fields): Bytes
    requires Fits(c)
  {
    PutString(Ascii("ssh-ed25519-cert-v01@openssh.com")) + PutString(c.nonce) + PutString(c.key) + PutU64(c.serial)
    + PutU32(c.role) + PutString(c.keyId) + PutString(PutStrings(c.principals)) + PutU64(c.after) + PutU64(c.before)
    + PutString(PutItems(c.critical)) + PutString(PutItems(c.extensions)) + PutString(c.reserved) + PutString(c.caKey)
  }

  /** A well-formed certificate: the signed part and the signature, the nonce at
      least 16 bytes, at most 256 principals, permit-pty without data. */
  predicate Encodes(lib: Library, blob: Bytes, c: Fields, algorithm: Str, signature: Str) {
    && Fits(c) && |blob| <= 16384 && |algorithm| <= 64 && |signature| <= 2484
    && blob == SignedPart(c) + PutString(PutString(algorithm) + PutString(signature))
    && |c.nonce| >= 16 && lib.validKey(c.key) && lib.utf8(c.keyId) && |c.principals| <= 256
    && forall i :: 0 <= i < |c.extensions| && c.extensions[i].name == Ascii("permit-pty") ==> c.extensions[i].data == []
  }

  predicate AllowsPty(c: Fields) { exists i :: 0 <= i < |c.extensions| && c.extensions[i].name == Ascii("permit-pty") }

  function DataOf(c: Fields): seq<Datum>
    requires Fits(c)
  {
    [Datum.Str(CertAlgorithm()), Datum.Str(c.nonce), Datum.Str(c.key), Num(c.serial), Num(c.role), Datum.Str(c.keyId),
     Datum.Str(PutStrings(c.principals)), Num(c.after), Num(c.before), Datum.Str(PutItems(c.critical)),
     Datum.Str(PutItems(c.extensions)), Datum.Str(c.reserved), Datum.Str(c.caKey)]
  }

  lemma DataPrintable(c: Fields)
    requires Fits(c)
    ensures Printable(CERT, DataOf(c))
  {
    hide PutStrings, PutItems, Ascii;
  }

  /** The field at `k` comes after those before it. */
  lemma TextField(d: seq<Datum>, k: nat, text: Str)
    requires Printable(CERT, d) && k < |CERT| && CERT[k].Text? && d[k] == Datum.Str(text)
    ensures Printed(CERT, d, k + 1) == Printed(CERT, d, k) + PutString(text)
  {
    hide Printed, CERT, PutString;
    PrintNext(CERT, d, k);
  }

  lemma NumberField(d: seq<Datum>, k: nat, n: nat)
    requires Printable(CERT, d) && k < |CERT| && d[k] == Num(n)
    ensures CERT[k] == Number64 && n < 0x1_0000_0000_0000_0000 ==>
              Printed(CERT, d, k + 1) == Printed(CERT, d, k) + PutU64(n)
    ensures CERT[k] == Number32 && n < 0x1_0000_0000 ==> Printed(CERT, d, k + 1) == Printed(CERT, d, k) + PutU32(n)
  {
    hide Printed, CERT, PutU32, PutU64;
    PrintNext(CERT, d, k);
  }

  /** The first five fields, and the first nine. */
  lemma PrintedFront(c: Fields, d: seq<Datum>)
    requires Fits(c) && d == DataOf(c) && Printable(CERT, d)
    ensures Printed(CERT, d, 5) ==
            PutString(Ascii("ssh-ed25519-cert-v01@openssh.com")) + PutString(c.nonce) + PutString(c.key)
            + PutU64(c.serial) + PutU32(c.role)
  {
    hide Printable, Print, Printed, PutString, PutU32, PutU64, PutStrings, PutItems, Ascii;
    PrintedEnds(CERT, d);
    TextField(d, 0, CertAlgorithm());
    TextField(d, 1, c.nonce);
    TextField(d, 2, c.key);
    NumberField(d, 3, c.serial);
    NumberField(d, 4, c.role);
  }

  lemma PrintedMiddle(c: Fields, d: seq<Datum>)
    requires Fits(c) && d == DataOf(c) && Printable(CERT, d)
    ensures Printed(CERT, d, 9) == Printed(CERT, d, 5) + PutString(c.keyId) + PutString(PutStrings(c.principals))
                                   + PutU64(c.after) + PutU64(c.before)
  {
    hide Printable, Print, Printed, PutString, PutU32, PutU64, PutStrings, PutItems, Ascii;
    TextField(d, 5, c.keyId);
    TextField(d, 6, PutStrings(c.principals));
    NumberField(d, 7, c.after);
    NumberField(d, 8, c.before);
  }

  lemma PrintedBack(c: Fields, d: seq<Datum>)
    requires Fits(c) && d == DataOf(c) && Printable(CERT, d)
    ensures Print(CERT, d) == Printed(CERT, d, 9) + PutString(PutItems(c.critical)) + PutString(PutItems(c.extensions))
                              + PutString(c.reserved) + PutString(c.caKey)
  {
    hide Printable, Print, Printed, PutString, PutU32, PutU64, PutStrings, PutItems, Ascii;
    TextField(d, 9, PutItems(c.critical));
    TextField(d, 10, PutItems(c.extensions));
    TextField(d, 11, c.reserved);
    TextField(d, 12, c.caKey);
    PrintedEnds(CERT, d);
  }

  lemma PrintedIsSigned(c: Fields)
    requires Fits(c)
    ensures Printable(CERT, DataOf(c)) && Print(CERT, DataOf(c)) == SignedPart(c)
  {
    hide CERT, Printable, Print, Printed, PutString, PutU32, PutU64, PutStrings, PutItems, Ascii, DataOf;
    DataPrintable(c);
    PrintedFront(c, DataOf(c));
    PrintedMiddle(c, DataOf(c));
    PrintedBack(c, DataOf(c));
  }

  /** The pieces that the fields written out are read as. */
  lemma HeadOfData(c: Fields)
    requires Fits(c)
    ensures Printable(CERT, DataOf(c))
    ensures HeadOf(DataOf(c)) ==
            Head(CertAlgorithm(), c.nonce, c.key, c.serial, c.role, c.keyId, PutStrings(c.principals), c.after,
                 c.before, PutItems(c.critical), PutItems(c.extensions), c.caKey)
  {
    DataPrintable(c);
    hide PutStrings, PutItems, Ascii;
  }

  /** What `Parsed` holds for such a certificate. */
  function Meaning(c: Fields, algorithm: Str, signature: Str): Parsed
    requires Fits(c)
  {
    Parsed(c.key, c.serial, c.role, c.keyId, c.principals, c.after, c.before, c.critical != [], AllowsPty(c), c.caKey,
           SignedPart(c), algorithm, signature)
  }

  lemma SplitPrinted(blob: Bytes, d: seq<Datum>, algorithm: Str, signature: Str)
    requires Printable(CERT, d) && |algorithm| <= KEY_ALGO_BOUND && |signature| <= SIGNATURE_LEN
    requires blob == Print(CERT, d) + PutString(PutString(algorithm) + PutString(signature))
    ensures Split(blob) == Ok(Pieces(HeadOf(d), PutString(PutString(algorithm) + PutString(signature)), algorithm,
                                     signature))
  {
    var inner := PutString(algorithm) + PutString(signature);
    ReadPrint(CERT, d, PutString(inner));
    GetPutString(inner, [], CERT_BLOB_BOUND);
    GetPutString(algorithm, PutString(signature), KEY_ALGO_BOUND);
    GetPutString(signature, [], SIGNATURE_LEN);
    hide ReadAll, Print, PutString, Printable, HeadOf, GetString;
    assert PutString(inner) + [] == PutString(inner) && PutString(signature) + [] == PutString(signature);
  }

  lemma FrontOf(a: Bytes, b: Bytes)
    ensures (a + b)[..|a + b| - |b|] == a
  {
  }

  lemma NestedLists(c: Fields)
    ensures |c.principals| <= 256 ==> Principals(PutStrings(c.principals)) == Some(c.principals)
    ensures Options(PutItems(c.critical)) == Some(c.critical) && Options(PutItems(c.extensions)) == Some(c.extensions)
  {
    hide Principals, Options;
    PrincipalsExactly(PutStrings(c.principals), c.principals);
    OptionsExactly(PutItems(c.critical), c.critical);
    OptionsExactly(PutItems(c.extensions), c.extensions);
  }

  lemma EncodesFits(lib: Library, blob: Bytes, c: Fields, algorithm: Str, signature: Str)
    requires Encodes(lib, blob, c, algorithm, signature)
    ensures Fits(c)
  {
  }

  lemma EncodedParses(lib: Library, blob: Bytes, c: Fields, algorithm: Str, signature: Str)
    requires Encodes(lib, blob, c, algorithm, signature)
    ensures Parse(lib, blob) == Some(Meaning(c, algorithm, signature))
  {
    hide CERT, Split, Print, PutString, Printable, HeadOf, DataOf, Principals, Options, PutStrings, PutItems, Ascii,
         SignedPart;
    PrintedIsSigned(c);
    HeadOfData(c);
    SplitPrinted(blob, DataOf(c), algorithm, signature);
    FrontOf(SignedPart(c), PutString(PutString(algorithm) + PutString(signature)));
    NestedLists(c);
  }

  /** The fields of data read in. */
  lemma FieldsOf(lib: Library, d: seq<Datum>) returns (c: Fields)
    requires Printable(CERT, d) && Sound(lib, HeadOf(d))
    ensures Fits(c) && d == DataOf(c)
    ensures |c.nonce| >= 16 && lib.validKey(c.key) && lib.utf8(c.keyId) && |c.principals| <= 256
    ensures forall i :: 0 <= i < |c.extensions| && c.extensions[i].name == Ascii("permit-pty") ==>
                          c.extensions[i].data == []
  {
    hide Principals, Options, PutStrings, PutItems, Ascii;
    var h := HeadOf(d);
    var ps, critical, extensions := Principals(h.principals).value, Options(h.critical).value,
                                    Options(h.extensions).value;
    PrincipalsExactly(h.principals, ps);
    OptionsExactly(h.critical, critical);
    OptionsExactly(h.extensions, extensions);
    c := Fields(h.nonce, h.key, h.serial, h.role, h.keyId, ps, h.validAfter, h.validBefore, critical, extensions,
                d[11].text, h.caKey);
  }

  lemma ParsedPieces(lib: Library, blob: Bytes) returns (d: seq<Datum>)
    requires Parse(lib, blob).Some?
    ensures var p := Parse(lib, blob).value;
            && |blob| <= 16384 && |p.signatureAlgorithm| <= 64 && |p.signature| <= 2484
            && Printable(CERT, d) && Sound(lib, HeadOf(d))
            && blob == Print(CERT, d) + PutString(PutString(p.signatureAlgorithm) + PutString(p.signature))
  {
    SplitBytes(blob);
    hide CERT, ReadAll, Print, PutString, Printable, HeadOf, Sound, Principals, Options, SaysPty, GetString;
    d := ReadAll(CERT, blob).value.value;
  }

  lemma ParsedEncodes(lib: Library, blob: Bytes) returns (c: Fields)
    requires Parse(lib, blob).Some?
    ensures var p := Parse(lib, blob).value;
            && |p.signatureAlgorithm| <= 64 && |p.signature| <= 2484
            && Encodes(lib, blob, c, p.signatureAlgorithm, p.signature)
            && p == Meaning(c, p.signatureAlgorithm, p.signature)
  {
    hide CERT, Parse, Print, PutString, Printable, HeadOf, Sound, DataOf, SignedPart, PutStrings, PutItems, Ascii, Fits,
         Meaning;
    var d := ParsedPieces(lib, blob);
    c := FieldsOf(lib, d);
    PrintedIsSigned(c);
    var p := Parse(lib, blob).value;
    EncodedParses(lib, blob, c, p.signatureAlgorithm, p.signature);
  }

  /** A blob is a certificate exactly when it is fields written out in order,
      and they mean what they are called. */
  lemma ParsesExactly(lib: Library, blob: Bytes, p: Parsed)
    ensures Parse(lib, blob) == Some(p) <==>
            exists c: Fields, algorithm: Str, signature: Str ::
              Encodes(lib, blob, c, algorithm, signature) && p == Meaning(c, algorithm, signature)
  {
    hide Parse, Encodes, Fits, SignedPart, AllowsPty, Ascii;
    if Parse(lib, blob) == Some(p) {
      var c := ParsedEncodes(lib, blob);
    }
    forall c: Fields, algorithm: Str, signature: Str | Encodes(lib, blob, c, algorithm, signature)
      ensures Fits(c) && Parse(lib, blob) == Some(Meaning(c, algorithm, signature))
    {
      EncodesFits(lib, blob, c, algorithm, signature);
      EncodedParses(lib, blob, c, algorithm, signature);
    }
  }

  /** The signature is the composite one of a trusted CA over the fields, which
      are for a user, for this one among others, for now, and under no critical
      option. */
  predicate Warrants(lib: Library, blob: Bytes, c: Fields, signature: Str, cas: seq<Bytes>, user: Bytes,
                     now: Option<U64>)
  {
    && Encodes(lib, blob, c, Ascii("ssh-mldsa44-ed25519"), signature)
    && c.caKey in cas && lib.verifies(c.caKey, SignedPart(c), signature)
    && c.role == 1 && now.Some? && c.after <= now.value < c.before && user in c.principals && c.critical == []
  }

  /** A certificate is accepted if and only if it warrants the user, and what is
      accepted is its own fields. */
  lemma AcceptedExactly(lib: Library, blob: Bytes, cas: seq<Bytes>, user: Bytes, now: Option<U64>, p: Parsed)
    ensures Verify(lib, blob, cas, user, now) == Accepted(p, user) <==>
            exists c: Fields, signature: Str ::
              && Warrants(lib, blob, c, signature, cas, user, now)
              && p == Meaning(c, Ascii("ssh-mldsa44-ed25519"), signature)
    ensures Verify(lib, blob, cas, user, now).Accepted? ==> Verify(lib, blob, cas, user, now).principal == user
  {
    hide Parse, Encodes, Fits, SignedPart, AllowsPty, Ascii;
    if Verify(lib, blob, cas, user, now) == Accepted(p, user) {
      var c := ParsedEncodes(lib, blob);
      assert Warrants(lib, blob, c, p.signature, cas, user, now);
    }
    forall c: Fields, signature: Str | Warrants(lib, blob, c, signature, cas, user, now)
      ensures Fits(c)
      ensures Verify(lib, blob, cas, user, now) == Accepted(Meaning(c, Ascii("ssh-mldsa44-ed25519"), signature), user)
    {
      EncodesFits(lib, blob, c, Ascii("ssh-mldsa44-ed25519"), signature);
      EncodedParses(lib, blob, c, Ascii("ssh-mldsa44-ed25519"), signature);
    }
  }

  lemma AcceptedFields(lib: Library, blob: Bytes, cas: seq<Bytes>, user: Bytes, now: Option<U64>)
    returns (c: Fields, signature: Str)
    requires Verify(lib, blob, cas, user, now).Accepted?
    ensures Warrants(lib, blob, c, signature, cas, user, now)
    ensures Verify(lib, blob, cas, user, now).cert.key == c.key
  {
    hide Parse, Encodes, Fits, SignedPart, AllowsPty, Ascii;
    c := ParsedEncodes(lib, blob);
    signature := Verify(lib, blob, cas, user, now).cert.signature;
  }

  lemma WarrantedKey(lib: Library, blob: Bytes, c: Fields, signature: Str, cas: seq<Bytes>, user: Bytes,
                     now: Option<U64>)
    requires Warrants(lib, blob, c, signature, cas, user, now)
    ensures var v := Verify(lib, blob, cas, user, now); v.Accepted? && v.cert.key == c.key
  {
    EncodesFits(lib, blob, c, Ascii("ssh-mldsa44-ed25519"), signature);
    hide Verify, Encodes, Fits, SignedPart, AllowsPty, Ascii, Warrants;
    var p := Meaning(c, Ascii("ssh-mldsa44-ed25519"), signature);
    AcceptedExactly(lib, blob, cas, user, now, p);
  }

  /** Why a well-formed certificate is refused: the first rule it breaks. */
  lemma RefusedExactly(lib: Library, blob: Bytes, c: Fields, algorithm: Str, signature: Str, cas: seq<Bytes>,
                       user: Bytes, now: Option<U64>)
    requires Encodes(lib, blob, c, algorithm, signature)
    ensures var v := Verify(lib, blob, cas, user, now);
            var ours := c.caKey in cas;
            var signed := ours && algorithm == Ascii("ssh-mldsa44-ed25519")
                          && lib.verifies(c.caKey, SignedPart(c), signature);
            var personal := signed && c.role == 1;
            var begun := personal && now.Some? && c.after <= now.value;
            var current := begun && now.value < c.before;
            && (v == Refused(UntrustedCa) <==> !ours) && (v == Refused(BadCaSignature) <==> ours && !signed)
            && (v == Refused(NotUserCertificate) <==> signed && !personal)
            && (v == Refused(NotYetValid) <==> personal && !begun) && (v == Refused(Expired) <==> begun && !current)
            && (v == Refused(PrincipalMismatch) <==> current && user !in c.principals)
            && (v == Refused(CriticalOption) <==> current && user in c.principals && c.critical != [])
            && v != Refused(Malformed)
  {
    hide Parse, Encodes, Fits, SignedPart, AllowsPty, Ascii;
    EncodesFits(lib, blob, c, algorithm, signature);
    EncodedParses(lib, blob, c, algorithm, signature);
  }

  /** And no other blob is anything but malformed. */
  lemma MalformedExactly(lib: Library, blob: Bytes, cas: seq<Bytes>, user: Bytes, now: Option<U64>)
    ensures Verify(lib, blob, cas, user, now) == Refused(Malformed) <==>
            !exists c: Fields, algorithm: Str, signature: Str :: Encodes(lib, blob, c, algorithm, signature)
  {
    hide Parse, Encodes, Fits, Meaning, Ascii;
    if Parse(lib, blob).Some? {
      var c := ParsedEncodes(lib, blob);
    }
    forall c: Fields, algorithm: Str, signature: Str | Encodes(lib, blob, c, algorithm, signature)
      ensures Parse(lib, blob).Some?
    {
      EncodesFits(lib, blob, c, algorithm, signature);
      EncodedParses(lib, blob, c, algorithm, signature);
    }
  }
}
