/** User authentication (`auth.rs`, and `authenticate` of `transport.rs`;
section 7 of RFC 4252). */
module UserAuth {
  import opened Wire
  import opened Records
  import Certificates

  const MSG_USERAUTH_REQUEST: Byte := 50
  const USER_NAME_BOUND: nat := 256
  const SERVICE_NAME_BOUND: nat := 64
  const METHOD_NAME_BOUND: nat := 32
  const KEY_ALGO_BOUND: nat := 64
  const KEY_BLOB_BOUND: nat := 1024
  const SIGNATURE_BOUND: nat := 256
  const MAX_AUTH_ATTEMPTS: nat := 12

  function KeyAlgorithm(): (b: Str) ensures |b| == 11 { Ascii("ssh-ed25519") }
  function Connection(): Bytes { Ascii("ssh-connection") }
  function PublicKeyMethod(): Bytes { Ascii("publickey") }

  datatype RequestError = NotUserauthRequest | Malformed | UnexpectedService

  datatype Signed = Signed(data: Bytes, signature: Bytes)

  datatype Request = Refused(how: Bytes) | PublicKey(user: Bytes, algorithm: Bytes, blob: Bytes, signed: Option<Signed>)

  datatype Reading = Good(request: Request) | Bad(error: RequestError)

  // ---- parsing ----

  /** `utf8_field`. */
  function Field(utf8: Bytes -> bool, input: Bytes, bound: nat): (r: Option<Got<Str>>)
    ensures r.Some? ==> GetString(input, bound) == Ok(r.value)
  {
    match GetString(input, bound)
    case Ok(g) => if utf8(g.value) then Some(g) else None
    case Err(_) => None
  }

  /** The request up to its key blob, or what ends the reading before. */
  datatype Front = Key(user: Bytes, algorithm: Bytes, blob: Bytes, flag: bool, rest: Bytes) | Ends(reading: Reading)

  function BlobBound(algorithm: Bytes): nat {
    if algorithm == Certificates.CertAlgorithm() then Certificates.CERT_BLOB_BOUND else KEY_BLOB_BOUND
  }

  function KeyPart(utf8: Bytes -> bool, user: Bytes, how: Bytes, input: Bytes): (f: Front)
    ensures f.Ends? ==> !IsKeyRequest(f.reading)
  {
    match GetBoolean(input)
    case Err(_) => Ends(Bad(Malformed))
    case Ok(flag) =>
      var algorithm := Field(utf8, flag.rest, KEY_ALGO_BOUND);
      if algorithm.None? then Ends(Bad(Malformed))
      else if algorithm.value.value != KeyAlgorithm() && algorithm.value.value != Certificates.CertAlgorithm() then
        Ends(Good(Refused(how)))
      else
        match GetString(algorithm.value.rest, BlobBound(algorithm.value.value))
        case Err(_) => Ends(Bad(Malformed))
        case Ok(blob) => Key(user, algorithm.value.value, blob.value, flag.value, blob.rest)
  }

  function MethodPart(utf8: Bytes -> bool, user: Bytes, input: Bytes): (f: Front)
    ensures f.Ends? ==> !IsKeyRequest(f.reading)
  {
    var how := Field(utf8, input, METHOD_NAME_BOUND);
    if how.None? then Ends(Bad(Malformed))
    else if how.value.value != PublicKeyMethod() then Ends(Good(Refused(how.value.value)))
    else KeyPart(utf8, user, how.value.value, how.value.rest)
  }

  function ServicePart(utf8: Bytes -> bool, user: Bytes, input: Bytes): (f: Front)
    ensures f.Ends? ==> !IsKeyRequest(f.reading)
  {
    var service := Field(utf8, input, SERVICE_NAME_BOUND);
    if service.None? then Ends(Bad(Malformed))
    else if service.value.value != Connection() then Ends(Bad(UnexpectedService))
    else MethodPart(utf8, user, service.value.rest)
  }

  function ReadFront(utf8: Bytes -> bool, payload: Bytes): (f: Front)
    ensures f.Ends? ==> !IsKeyRequest(f.reading)
  {
    if payload == [] || payload[0] != MSG_USERAUTH_REQUEST then Ends(Bad(NotUserauthRequest))
    else UserPart(utf8, payload[1..])
  }

  function UserPart(utf8: Bytes -> bool, input: Bytes): (f: Front)
    ensures f.Ends? ==> !IsKeyRequest(f.reading)
  {
    var user := Field(utf8, input, USER_NAME_BOUND);
    if user.None? then Ends(Bad(Malformed)) else ServicePart(utf8, user.value.value, user.value.rest)
  }

  /** The signature field: `string (string "ssh-ed25519", string raw)`. */
  function SignatureOf(rest: Bytes): Option<Str> {
    match GetString(rest, SIGNATURE_BOUND)
    case Err(_) => None
    case Ok(outer) =>
      match GetString(outer.value, KEY_ALGO_BOUND)
      case Err(_) => None
      case Ok(algorithm) =>
        match GetString(algorithm.rest, SIGNATURE_BOUND)
        case Err(_) => None
        case Ok(raw) =>
          if outer.rest != [] || algorithm.value != KeyAlgorithm() || raw.rest != [] then None else Some(raw.value)
  }

  /** `parse_userauth_request`. */
  function ParseRequest(utf8: Bytes -> bool, payload: Bytes): Reading {
    match ReadFront(utf8, payload)
    case Ends(reading) => reading
    case Key(user, algorithm, blob, flag, rest) =>
      if flag then
        var raw := SignatureOf(rest);
        if raw.None? then Bad(Malformed)
        else
          var data := payload[..if |rest| <= |payload| then |payload| - |rest| else 0];
          Good(PublicKey(user, algorithm, blob, Some(Signed(data, raw.value))))
      else if rest != [] then Bad(Malformed)
      else Good(PublicKey(user, algorithm, blob, None))
  }

  predicate IsKeyRequest(r: Reading) { r.Good? && r.request.PublicKey? }

  // ---- the bytes of a request ----

  /** A publickey request up to its key blob. */
  function RequestBytes(user: Str, flag: Byte, algorithm: Str, blob: Str): Bytes {
    [50] + PutString(user) + PutString(Ascii("ssh-connection")) + PutString(Ascii("publickey")) + [flag]
    + PutString(algorithm) + PutString(blob)
  }

  predicate GoodName(utf8: Bytes -> bool, user: Str) { |user| <= 256 && utf8(user) && utf8(Ascii("ssh-connection")) }

  /** A plain key of at most 1 KiB, or a certificate of at most 16 KiB. */
  predicate GoodKey(utf8: Bytes -> bool, algorithm: Str, blob: Str) {
    && utf8(Ascii("publickey")) && utf8(algorithm)
    && ((algorithm == Ascii("ssh-ed25519") && |blob| <= 1024) ||
        (algorithm == Ascii("ssh-ed25519-cert-v01@openssh.com") && |blob| <= 16384))
  }

  lemma FieldExactly(utf8: Bytes -> bool, input: Bytes, bound: nat, v: Str, rest: Bytes)
    ensures Field(utf8, input, bound) == Some(Got(v, rest)) <==>
            |v| <= bound && utf8(v) && input == PutString(v) + rest
  {
    if GetString(input, bound).Ok? {
      PutGetString(input, bound);
    }
    GetPutString(v, rest, bound);
    hide GetString, PutString;
  }

  lemma TwoAlgorithms()
    ensures |Ascii("ssh-ed25519")| == 11 && |Ascii("ssh-ed25519-cert-v01@openssh.com")| == 32
    ensures Ascii("ssh-ed25519") != Ascii("ssh-ed25519-cert-v01@openssh.com")
  {
  }

  lemma KeyPartRead(utf8: Bytes -> bool, user: Bytes, how: Bytes, input: Bytes) returns (b: Byte)
    requires KeyPart(utf8, user, how, input).Key? && how == Ascii("publickey") && utf8(how)
    ensures var f := KeyPart(utf8, user, how, input);
            && |f.algorithm| <= 64 && |f.blob| <= 16384 && GoodKey(utf8, f.algorithm, f.blob)
            && f.user == user && f.flag == (b != 0)
            && input == [b] + (PutString(f.algorithm) + (PutString(f.blob) + f.rest))
  {
    hide GetString, PutString, Ascii;
    b := input[0];
    TwoAlgorithms();
    var algorithm := Field(utf8, input[1..], KEY_ALGO_BOUND).value;
    FieldExactly(utf8, input[1..], KEY_ALGO_BOUND, algorithm.value, algorithm.rest);
    PutGetString(algorithm.rest, BlobBound(algorithm.value));
  }

  lemma KeyPartWritten(utf8: Bytes -> bool, user: Bytes, how: Bytes, b: Byte, algorithm: Str, blob: Str, rest: Bytes)
    requires GoodKey(utf8, algorithm, blob)
    ensures KeyPart(utf8, user, how, [b] + (PutString(algorithm) + (PutString(blob) + rest))) ==
            Key(user, algorithm, blob, b != 0, rest)
  {
    hide GetString, PutString, Ascii;
    TwoAlgorithms();
    var after := PutString(algorithm) + (PutString(blob) + rest);
    var input := [b] + after;
    assert input[1..] == after;
    FieldExactly(utf8, after, KEY_ALGO_BOUND, algorithm, PutString(blob) + rest);
    GetPutString(blob, rest, BlobBound(algorithm));
  }

  /** The three names in front of the key. */
  function NameBytes(user: Str, rest: Bytes): Bytes {
    [50] + (PutString(user) + (PutString(Ascii("ssh-connection")) + (PutString(Ascii("publickey")) + rest)))
  }

  lemma NamesInFront(user: Str, flag: Byte, algorithm: Str, blob: Str, rest: Bytes)
    ensures RequestBytes(user, flag, algorithm, blob) + rest ==
            NameBytes(user, [flag] + (PutString(algorithm) + (PutString(blob) + rest)))
  {
    hide PutString, Ascii;
  }

  lemma FrontRead(utf8: Bytes -> bool, payload: Bytes) returns (b: Byte)
    requires ReadFront(utf8, payload).Key?
    ensures var f := ReadFront(utf8, payload);
            && |f.user| <= 256 && |f.algorithm| <= 64 && |f.blob| <= 16384
            && GoodName(utf8, f.user) && GoodKey(utf8, f.algorithm, f.blob) && f.flag == (b != 0)
            && payload == RequestBytes(f.user, b, f.algorithm, f.blob) + f.rest
  {
    hide GetString, PutString, Ascii, KeyPart, GoodKey, RequestBytes, Field;
    var user := Field(utf8, payload[1..], USER_NAME_BOUND).value;
    FieldExactly(utf8, payload[1..], USER_NAME_BOUND, user.value, user.rest);
    var service := Field(utf8, user.rest, SERVICE_NAME_BOUND).value;
    FieldExactly(utf8, user.rest, SERVICE_NAME_BOUND, service.value, service.rest);
    var how := Field(utf8, service.rest, METHOD_NAME_BOUND).value;
    FieldExactly(utf8, service.rest, METHOD_NAME_BOUND, how.value, how.rest);
    b := KeyPartRead(utf8, user.value, how.value, how.rest);
    var f := ReadFront(utf8, payload);
    NamesInFront(f.user, b, f.algorithm, f.blob, f.rest);
  }

  lemma ShortNames()
    ensures |Ascii("ssh-connection")| == 14 && |Ascii("publickey")| == 9
  {
  }

  lemma FrontWritten(utf8: Bytes -> bool, user: Str, b: Byte, algorithm: Str, blob: Str, rest: Bytes)
    requires GoodName(utf8, user) && GoodKey(utf8, algorithm, blob)
    ensures ReadFront(utf8, RequestBytes(user, b, algorithm, blob) + rest) == Key(user, algorithm, blob, b != 0, rest)
  {
    assert utf8(Ascii("publickey"));
    hide GetString, PutString, Ascii, KeyPart, GoodKey, RequestBytes, Field;
    ShortNames();
    NamesInFront(user, b, algorithm, blob, rest);
    var key := [b] + (PutString(algorithm) + (PutString(blob) + rest));
    var how := PutString(Ascii("publickey")) + key;
    var service := PutString(Ascii("ssh-connection")) + how;
    var payload := NameBytes(user, key);
    assert payload[1..] == PutString(user) + service;
    FieldExactly(utf8, payload[1..], USER_NAME_BOUND, user, service);
    FieldExactly(utf8, service, SERVICE_NAME_BOUND, Ascii("ssh-connection"), how);
    FieldExactly(utf8, how, METHOD_NAME_BOUND, Ascii("publickey"), key);
    KeyPartWritten(utf8, user, Ascii("publickey"), b, algorithm, blob, rest);
  }

  /** Reading up to the key blob depends only on the bytes read. */
  lemma FrontExtends(utf8: Bytes -> bool, payload: Bytes, tail: Bytes)
    requires ReadFront(utf8, payload).Key?
    ensures var f := ReadFront(utf8, payload); ReadFront(utf8, payload + tail) == f.(rest := f.rest + tail)
  {
    hide ReadFront, RequestBytes, GoodName, GoodKey;
    var b := FrontRead(utf8, payload);
    var f := ReadFront(utf8, payload);
    FrontWritten(utf8, f.user, b, f.algorithm, f.blob, f.rest + tail);
    assert payload + tail == RequestBytes(f.user, b, f.algorithm, f.blob) + (f.rest + tail);
  }

  /** The signature field a client writes. */
  function SignatureField(raw: Bytes): Bytes
    requires |raw| <= SIGNATURE_BOUND
  {
    PutString(PutString(Ascii("ssh-ed25519")) + PutString(raw))
  }

  /** The field around a signature counts towards its bound of 256. */
  lemma SignatureExactly(rest: Bytes, raw: Str)
    ensures SignatureOf(rest) == Some(raw) <==> |raw| <= 237 && rest == SignatureField(raw)
  {
    if SignatureOf(rest) == Some(raw) {
      PutGetString(rest, SIGNATURE_BOUND);
      var outer := GetString(rest, SIGNATURE_BOUND).value;
      PutGetString(outer.value, KEY_ALGO_BOUND);
      PutGetString(GetString(outer.value, KEY_ALGO_BOUND).value.rest, SIGNATURE_BOUND);
      hide GetString, PutString, Ascii;
      TwoAlgorithms();
      assert PutString(raw) + [] == PutString(raw) && PutString(outer.value) + [] == PutString(outer.value);
    }
    if |raw| <= 237 && rest == SignatureField(raw) {
      hide GetString, PutString, Ascii;
      TwoAlgorithms();
      var inner := PutString(Ascii("ssh-ed25519")) + PutString(raw);
      assert PutString(raw) + [] == PutString(raw) && PutString(inner) + [] == PutString(inner);
      GetPutString(inner, [], SIGNATURE_BOUND);
      GetPutString(Ascii("ssh-ed25519"), PutString(raw), KEY_ALGO_BOUND);
      GetPutString(raw, [], SIGNATURE_BOUND);
    }
  }

  /** A request and what its signature covers, as bytes. */
  predicate Writes(payload: Bytes, user: Str, flag: Byte, algorithm: Str, blob: Str, signed: Option<Signed>) {
    match signed
    case None => flag == 0 && payload == RequestBytes(user, flag, algorithm, blob)
    case Some(s) =>
      && flag != 0 && |s.signature| <= 237 && s.data == RequestBytes(user, flag, algorithm, blob)
      && payload == s.data + SignatureField(s.signature)
  }

  lemma RequestRead(utf8: Bytes -> bool, payload: Bytes, user: Str, algorithm: Str, blob: Str, signed: Option<Signed>)
    returns (flag: Byte)
    requires ParseRequest(utf8, payload) == Good(PublicKey(user, algorithm, blob, signed))
    ensures GoodName(utf8, user) && GoodKey(utf8, algorithm, blob)
    ensures Writes(payload, user, flag, algorithm, blob, signed)
  {
    hide ReadFront, RequestBytes, GoodName, GoodKey, SignatureField, SignatureOf;
    flag := FrontRead(utf8, payload);
    var f := ReadFront(utf8, payload);
    if signed.None? {
      assert RequestBytes(user, flag, algorithm, blob) + [] == RequestBytes(user, flag, algorithm, blob);
    } else {
      SignatureExactly(f.rest, SignatureOf(f.rest).value);
      FrontOf(RequestBytes(user, flag, algorithm, blob), f.rest);
    }
  }

  lemma FrontOf(a: Bytes, b: Bytes)
    ensures |b| <= |a + b| && (a + b)[..|a + b| - |b|] == a
  {
  }

  lemma RequestWritten(utf8: Bytes -> bool, payload: Bytes, user: Str, flag: Byte, algorithm: Str, blob: Str,
                       signed: Option<Signed>)
    requires GoodName(utf8, user) && GoodKey(utf8, algorithm, blob)
    requires Writes(payload, user, flag, algorithm, blob, signed)
    ensures ParseRequest(utf8, payload) == Good(PublicKey(user, algorithm, blob, signed))
  {
    hide ReadFront, RequestBytes, GoodName, GoodKey, SignatureField, SignatureOf;
    var front := RequestBytes(user, flag, algorithm, blob);
    if signed.None? {
      FrontWritten(utf8, user, flag, algorithm, blob, []);
      assert front + [] == front;
    } else {
      var field := SignatureField(signed.value.signature);
      FrontWritten(utf8, user, flag, algorithm, blob, field);
      SignatureExactly(field, signed.value.signature);
      FrontOf(front, field);
    }
  }

  /** A payload is a publickey request exactly when it is its fields written out
      in order, within the bounds; any flag byte but 0 says it is signed, and
      the signature covers what comes before it. */
  lemma RequestExactly(utf8: Bytes -> bool, payload: Bytes, user: Str, algorithm: Str, blob: Str,
                       signed: Option<Signed>)
    ensures ParseRequest(utf8, payload) == Good(PublicKey(user, algorithm, blob, signed)) <==>
            && GoodName(utf8, user) && GoodKey(utf8, algorithm, blob)
            && exists flag :: Writes(payload, user, flag, algorithm, blob, signed)
  {
    hide ParseRequest, GoodName, GoodKey, Writes;
    if ParseRequest(utf8, payload) == Good(PublicKey(user, algorithm, blob, signed)) {
      var flag := RequestRead(utf8, payload, user, algorithm, blob, signed);
    }
    if GoodName(utf8, user) && GoodKey(utf8, algorithm, blob) {
      forall flag | Writes(payload, user, flag, algorithm, blob, signed)
        ensures ParseRequest(utf8, payload) == Good(PublicKey(user, algorithm, blob, signed))
      {
        RequestWritten(utf8, payload, user, flag, algorithm, blob, signed);
      }
    }
  }

  /** A request in front of the method name. */
  function ServiceBytes(user: Str, service: Str): Bytes { [50] + PutString(user) + PutString(service) }

  /** Asked for another service. */
  predicate Elsewhere(utf8: Bytes -> bool, payload: Bytes, user: Str, service: Str, rest: Bytes) {
    && |user| <= 256 && utf8(user) && |service| <= 64 && utf8(service) && service != Ascii("ssh-connection")
    && payload == ServiceBytes(user, service) + rest
  }

  /** A publickey request under an algorithm the server does not know. */
  predicate UnknownAlgorithm(utf8: Bytes -> bool, rest: Bytes, flag: Byte, algorithm: Str, tail: Bytes) {
    && rest == [flag] + PutString(algorithm) + tail && |algorithm| <= 64 && utf8(algorithm)
    && algorithm != Ascii("ssh-ed25519") && algorithm != Ascii("ssh-ed25519-cert-v01@openssh.com")
  }

  /** A request by a method, with what follows its name. */
  ghost predicate ByMethod(utf8: Bytes -> bool, payload: Bytes, how: Str, user: Str, rest: Bytes) {
    && GoodName(utf8, user) && |how| <= 32 && utf8(how)
    && payload == ServiceBytes(user, Ascii("ssh-connection")) + PutString(how) + rest
    && (how == Ascii("publickey") ==>
          exists flag, algorithm, tail :: UnknownAlgorithm(utf8, rest, flag, algorithm, tail))
  }

  lemma ServiceRead(utf8: Bytes -> bool, payload: Bytes, user: Str, service: Str, rest: Bytes)
    requires |user| <= 256 && utf8(user) && |service| <= 64 && utf8(service)
    requires payload == ServiceBytes(user, service) + rest
    ensures ReadFront(utf8, payload) ==
            if service == Ascii("ssh-connection") then MethodPart(utf8, user, rest) else Ends(Bad(UnexpectedService))
  {
    hide PutString, Ascii, Field, MethodPart;
    assert payload[1..] == PutString(user) + (PutString(service) + rest);
    FieldExactly(utf8, payload[1..], USER_NAME_BOUND, user, PutString(service) + rest);
    FieldExactly(utf8, PutString(service) + rest, SERVICE_NAME_BOUND, service, rest);
  }

  /** Read past the service name. */
  predicate Past(f: Front) { f.Key? || f.reading.Good? || f.reading.error == UnexpectedService }

  lemma UserSplit(utf8: Bytes -> bool, payload: Bytes) returns (user: Str, rest: Bytes)
    requires Past(ReadFront(utf8, payload))
    ensures |user| <= 256 && utf8(user) && payload == [50] + (PutString(user) + rest)
    ensures Past(ServicePart(utf8, user, rest))
  {
    hide PutString, Field, ServicePart;
    var u := Field(utf8, payload[1..], USER_NAME_BOUND).value;
    FieldExactly(utf8, payload[1..], USER_NAME_BOUND, u.value, u.rest);
    user, rest := u.value, u.rest;
    assert payload == [50] + payload[1..];
  }

  lemma NameSplit(utf8: Bytes -> bool, user: Bytes, input: Bytes) returns (service: Str, rest: Bytes)
    requires Past(ServicePart(utf8, user, input))
    ensures |service| <= 64 && utf8(service) && input == PutString(service) + rest
  {
    hide PutString, Field, MethodPart, Connection;
    var v := Field(utf8, input, SERVICE_NAME_BOUND).value;
    FieldExactly(utf8, input, SERVICE_NAME_BOUND, v.value, v.rest);
    service, rest := v.value, v.rest;
  }

  lemma ServiceSplit(utf8: Bytes -> bool, payload: Bytes) returns (user: Str, service: Str, rest: Bytes)
    requires Past(ReadFront(utf8, payload))
    ensures |user| <= 256 && utf8(user) && |service| <= 64 && utf8(service)
    ensures payload == ServiceBytes(user, service) + rest
  {
    hide PutString, ReadFront, ServicePart;
    var name, mid := UserSplit(utf8, payload);
    var asked, tail := NameSplit(utf8, name, mid);
    user, service, rest := name, asked, tail;
  }

  /** Another service is asked for exactly when the request names one. */
  lemma ServiceExactly(utf8: Bytes -> bool, payload: Bytes)
    ensures ParseRequest(utf8, payload) == Bad(UnexpectedService) <==>
            exists user, service, rest :: Elsewhere(utf8, payload, user, service, rest)
  {
    hide ReadFront, ServiceBytes, Ascii, SignatureOf, MethodPart;
    if ParseRequest(utf8, payload) == Bad(UnexpectedService) {
      var user, service, rest := ServiceSplit(utf8, payload);
      ServiceRead(utf8, payload, user, service, rest);
      MethodIsExpected(utf8, user, rest);
      assert Elsewhere(utf8, payload, user, service, rest);
    }
    forall user, service, rest | Elsewhere(utf8, payload, user, service, rest)
      ensures ParseRequest(utf8, payload) == Bad(UnexpectedService)
    {
      ServiceRead(utf8, payload, user, service, rest);
    }
  }

  lemma MethodIsExpected(utf8: Bytes -> bool, user: Bytes, input: Bytes)
    ensures MethodPart(utf8, user, input) != Ends(Bad(UnexpectedService))
  {
    hide Ascii, Field;
  }

  lemma KeyRefuses(utf8: Bytes -> bool, user: Bytes, how: Bytes, input: Bytes)
    ensures KeyPart(utf8, user, how, input) == Ends(Good(Refused(how))) <==>
            exists flag, algorithm, tail :: UnknownAlgorithm(utf8, input, flag, algorithm, tail)
  {
    hide PutString, Ascii, Field, BlobBound, GetString;
    if KeyPart(utf8, user, how, input) == Ends(Good(Refused(how))) {
      var a := Field(utf8, input[1..], KEY_ALGO_BOUND).value;
      FieldExactly(utf8, input[1..], KEY_ALGO_BOUND, a.value, a.rest);
      assert input == [input[0]] + PutString(a.value) + a.rest;
      assert UnknownAlgorithm(utf8, input, input[0], a.value, a.rest);
    }
    forall flag, algorithm, tail | UnknownAlgorithm(utf8, input, flag, algorithm, tail)
      ensures KeyPart(utf8, user, how, input) == Ends(Good(Refused(how)))
    {
      UnknownRefuses(utf8, user, how, input, flag, algorithm, tail);
    }
  }

  lemma UnknownRefuses(utf8: Bytes -> bool, user: Bytes, how: Bytes, input: Bytes, flag: Byte, algorithm: Str,
                       tail: Bytes)
    requires UnknownAlgorithm(utf8, input, flag, algorithm, tail)
    ensures KeyPart(utf8, user, how, input) == Ends(Good(Refused(how)))
  {
    hide PutString, Ascii, Field, BlobBound, GetString;
    assert input[1..] == PutString(algorithm) + tail;
    FieldExactly(utf8, input[1..], KEY_ALGO_BOUND, algorithm, tail);
  }

  lemma MethodRead(utf8: Bytes -> bool, user: Bytes, how: Str, rest: Bytes)
    requires |how| <= 32 && utf8(how)
    ensures MethodPart(utf8, user, PutString(how) + rest) ==
            if how == Ascii("publickey") then KeyPart(utf8, user, how, rest) else Ends(Good(Refused(how)))
  {
    hide PutString, Ascii, Field, KeyPart;
    FieldExactly(utf8, PutString(how) + rest, METHOD_NAME_BOUND, how, rest);
  }

  lemma MethodSplit(utf8: Bytes -> bool, user: Bytes, input: Bytes) returns (how: Str, rest: Bytes)
    requires var f := MethodPart(utf8, user, input); f.Ends? && f.reading.Good?
    ensures |how| <= 32 && utf8(how) && input == PutString(how) + rest
  {
    hide PutString, Ascii, Field, KeyPart;
    var g := Field(utf8, input, METHOD_NAME_BOUND).value;
    FieldExactly(utf8, input, METHOD_NAME_BOUND, g.value, g.rest);
    how, rest := g.value, g.rest;
  }

  lemma KeyRefusesOnly(utf8: Bytes -> bool, user: Bytes, how: Bytes, input: Bytes)
    ensures var f := KeyPart(utf8, user, how, input); f.Ends? && f.reading.Good? ==> f.reading.request == Refused(how)
  {
    hide Ascii, Field, BlobBound;
  }

  lemma RefusalRead(utf8: Bytes -> bool, payload: Bytes, how: Str) returns (user: Str, rest: Bytes)
    requires ParseRequest(utf8, payload) == Good(Refused(how))
    ensures ByMethod(utf8, payload, how, user, rest)
  {
    hide ReadFront, PutString, Ascii, MethodPart, KeyPart, UnknownAlgorithm;
    var name, service, after := ServiceSplit(utf8, payload);
    ServiceRead(utf8, payload, name, service, after);
    var asked, tail := MethodSplit(utf8, name, after);
    MethodRead(utf8, name, asked, tail);
    KeyRefusesOnly(utf8, name, asked, tail);
    KeyRefuses(utf8, name, asked, tail);
    user, rest := name, tail;
  }

  lemma RefusalWritten(utf8: Bytes -> bool, payload: Bytes, how: Str, user: Str, rest: Bytes)
    requires ByMethod(utf8, payload, how, user, rest)
    ensures ParseRequest(utf8, payload) == Good(Refused(how))
  {
    hide ReadFront, PutString, Ascii, MethodPart, KeyPart, UnknownAlgorithm, ServiceBytes;
    ShortNames();
    var front := ServiceBytes(user, Ascii("ssh-connection"));
    assert payload == front + (PutString(how) + rest);
    ServiceRead(utf8, payload, user, Ascii("ssh-connection"), PutString(how) + rest);
    MethodRead(utf8, user, how, rest);
    KeyRefuses(utf8, user, how, rest);
  }

  /** A request is refused without a look at any key exactly when it is by
      another method, or names an algorithm the server does not know. */
  lemma RefusedExactly(utf8: Bytes -> bool, payload: Bytes, how: Str)
    ensures ParseRequest(utf8, payload) == Good(Refused(how)) <==>
            exists user, rest :: ByMethod(utf8, payload, how, user, rest)
  {
    hide ParseRequest, ByMethod;
    if ParseRequest(utf8, payload) == Good(Refused(how)) {
      var user, rest := RefusalRead(utf8, payload, how);
    }
    forall user, rest | ByMethod(utf8, payload, how, user, rest)
      ensures ParseRequest(utf8, payload) == Good(Refused(how))
    {
      RefusalWritten(utf8, payload, how, user, rest);
    }
  }

  /** The fields of an accepted publickey request fit their types. */
  lemma RequestFits(utf8: Bytes -> bool, payload: Bytes)
    requires IsKeyRequest(ParseRequest(utf8, payload))
    ensures var r := ParseRequest(utf8, payload).request;
            |r.user| <= 256 && |r.algorithm| <= 64 && |r.blob| <= 16384
    ensures var r := ParseRequest(utf8, payload).request; r.signed.Some? ==> |r.signed.value.signature| <= 237
  {
    hide ReadFront, RequestBytes, GoodName, GoodKey, SignatureField, SignatureOf;
    var flag := FrontRead(utf8, payload);
    var f := ReadFront(utf8, payload);
    if SignatureOf(f.rest).Some? {
      SignatureExactly(f.rest, SignatureOf(f.rest).value);
    }
  }

  /** No strict prefix of an accepted publickey request is accepted as one. */
  lemma NoPrefixIsARequest(utf8: Bytes -> bool, start: Bytes, tail: Bytes)
    requires IsKeyRequest(ParseRequest(utf8, start + tail)) && tail != []
    ensures !IsKeyRequest(ParseRequest(utf8, start))
  {
    hide ReadFront, SignatureOf;
    var f := ReadFront(utf8, start);
    if f.Key? {
      FrontExtends(utf8, start, tail);
      if f.flag && SignatureOf(f.rest).Some? {
        NothingAfterSignature(f.rest, tail);
      }
    }
  }

  lemma NothingAfterSignature(rest: Bytes, tail: Bytes)
    requires SignatureOf(rest).Some? && tail != []
    ensures SignatureOf(rest + tail).None?
  {
    GetStringExtend(rest, tail, SIGNATURE_BOUND);
    hide GetString, KeyAlgorithm;
  }

  // ---- who may sign ----

  datatype World = World(
    utf8: Bytes -> bool,
    authorized: Bytes -> Option<Bytes>,          // key blob to key, for listed keys
    cas: Option<seq<Bytes>>,
    library: Certificates.Library,
    verifies: (Bytes, Bytes, Bytes) -> bool)     // key, data, signature

  /** `resolve`: a listed key, or the key of a certificate a trusted CA signed
      for this user. */
  function Resolve(w: World, algorithm: Bytes, blob: Bytes, user: Bytes, now: Option<U64>): Option<Bytes> {
    if algorithm == KeyAlgorithm() then w.authorized(blob)
    else if w.cas.None? then None
    else
      match Certificates.Verify(w.library, blob, w.cas.value, user, now)
      case Accepted(cert, _) => Some(cert.key)
      case Refused(_) => None
  }

  /** A certificate of a trusted CA, for this user and now, whose key this is. */
  ghost predicate Vouched(w: World, blob: Bytes, user: Bytes, now: Option<U64>, key: Bytes) {
    w.cas.Some? &&
    exists c: Certificates.Fields, signature: Str ::
      Certificates.Warrants(w.library, blob, c, signature, w.cas.value, user, now) && c.key == key
  }

  /** A key resolves if and only if it is listed, or a trusted CA vouches for it
      and this user. */
  lemma ResolvesExactly(w: World, algorithm: Bytes, blob: Bytes, user: Bytes, now: Option<U64>, key: Bytes)
    ensures Resolve(w, algorithm, blob, user, now) == Some(key) <==>
            if algorithm == Ascii("ssh-ed25519") then w.authorized(blob) == Some(key)
            else Vouched(w, blob, user, now, key)
  {
    hide Certificates.Verify, Certificates.Warrants, Ascii;
    if w.cas.Some? {
      CertificateKey(w.library, blob, w.cas.value, user, now, key);
    }
  }

  lemma CertificateKey(lib: Certificates.Library, blob: Bytes, cas: seq<Bytes>, user: Bytes, now: Option<U64>,
                       key: Bytes)
    ensures var v := Certificates.Verify(lib, blob, cas, user, now);
            v.Accepted? && v.cert.key == key <==>
            exists c: Certificates.Fields, signature: Str ::
              Certificates.Warrants(lib, blob, c, signature, cas, user, now) && c.key == key
  {
    hide Certificates.Verify, Certificates.Warrants;
    var v := Certificates.Verify(lib, blob, cas, user, now);
    if v.Accepted? {
      var c, signature := Certificates.AcceptedFields(lib, blob, cas, user, now);
    }
    forall c: Certificates.Fields, signature: Str | Certificates.Warrants(lib, blob, c, signature, cas, user, now)
      ensures v.Accepted? && v.cert.key == c.key
    {
      Certificates.WarrantedKey(lib, blob, c, signature, cas, user, now);
    }
  }

  /** `auth_signed_data`. */
  function SignedData(sessionId: Str, data: Bytes): Bytes { PutString(sessionId) + data }

  /** Session and request are both determined by what is signed. */
  lemma SignedDataIsInjective(id1: Str, data1: Bytes, id2: Str, data2: Bytes)
    requires SignedData(id1, data1) == SignedData(id2, data2)
    ensures id1 == id2 && data1 == data2
  {
    GetPutString(id1, data1, 0xffff_ffff);
    GetPutString(id2, data2, 0xffff_ffff);
  }

  // ---- the loop ----

  /** What one request amounts to. */
  datatype Judgement = Fatal(error: RequestError) | Failing | KnownProbe | Valid(key: Bytes)

  function Judge(w: World, sessionId: Str, payload: Bytes, now: Option<U64>): Judgement {
    match ParseRequest(w.utf8, payload)
    case Bad(error) => Fatal(error)
    case Good(Refused(_)) => Failing
    case Good(PublicKey(user, algorithm, blob, signed)) =>
      var key := Resolve(w, algorithm, blob, user, now);
      if signed.None? then (if key.Some? then KnownProbe else Failing)
      else if key.Some? && w.verifies(key.value, SignedData(sessionId, signed.value.data), signed.value.signature) then
        Valid(key.value)
      else Failing
  }

  /** The disconnect reasons: too many attempts, or a request that ends the
      connection. */
  datatype Ending = Authenticated(key: Bytes) | TooManyAttempts | Rejected(error: RequestError) | Broken

  /** What each request sent amounts to, at the time it is read. */
  function Judged(w: World, id: Str, sent: seq<Bytes>, clock: nat -> Option<U64>): (js: seq<Judgement>)
    ensures |js| == |sent| && forall i :: 0 <= i < |sent| ==> js[i] == Judge(w, id, sent[i], clock(i))
  {
    seq(|sent|, i requires 0 <= i < |sent| => Judge(w, id, sent[i], clock(i)))
  }

  function Failures(js: seq<Judgement>): nat {
    if js == [] then 0 else Failures(js[..|js| - 1]) + (if js[|js| - 1].Failing? then 1 else 0)
  }

  lemma FailuresNext(js: seq<Judgement>, n: nat)
    requires n < |js|
    ensures Failures(js[..n + 1]) == Failures(js[..n]) + (if js[n].Failing? then 1 else 0)
  {
    assert js[..n + 1][..n] == js[..n];
  }

  /** 1, 2, 3, up to `n`. */
  function UpTo(n: nat): seq<nat> { if n == 0 then [] else UpTo(n - 1) + [n] }

  predicate Undecided(j: Judgement) { j.Failing? || j.KnownProbe? }

  /** `authenticate`. At most 12 requests are read; all but the last read were
      failures or known-key probes; the audited counts are 1, 2, 3 and so on,
      one per failing request. It succeeds only on a valid request, ends for
      attempts only at the twelfth, and otherwise only when the peer stops or a
      reply cannot be written. */
  method Authenticate(w: World, id: Str, sent: seq<Bytes>, clock: nat -> Option<U64>, writes: nat)
    returns (end: Ending, read: nat, audited: seq<nat>)
    ensures read <= |sent| && read <= MAX_AUTH_ATTEMPTS
    ensures var js := Judged(w, id, sent, clock);
            && (forall i :: 0 <= i < read - 1 ==> Undecided(js[i]))
            && audited == UpTo(Failures(js[..read]))
            && match end
               case Authenticated(key) => read > 0 && js[read - 1] == Valid(key)
               case TooManyAttempts => read == MAX_AUTH_ATTEMPTS && Undecided(js[read - 1])
               case Rejected(error) => read > 0 && js[read - 1] == Fatal(error)
               case Broken => (read == |sent| && (read > 0 ==> Undecided(js[read - 1]))) || read == writes + 1
  {
    hide Judge, Judged, Failures;
    ghost var js := Judged(w, id, sent, clock);
    var attempts, failures, left := 0, 0, writes;
    read, audited := 0, [];
    NoFailures(js);
    while true
      invariant attempts == read <= |sent| && read < MAX_AUTH_ATTEMPTS && left == writes - read
      invariant forall i :: 0 <= i < read ==> Undecided(js[i])
      invariant failures == Failures(js[..read]) && audited == UpTo(failures)
      decreases MAX_AUTH_ATTEMPTS - read
    {
      if read == |sent| {
        return Broken, read, audited;
      }
      var j := Judge(w, id, sent[read], clock(read));
      FailuresNext(js, read);
      read := read + 1;
      match j {
      case Fatal(error) =>
        return Rejected(error), read, audited;
      case Valid(key) =>
        return if left == 0 then Broken else Authenticated(key), read, audited;
      case Failing =>
        attempts := attempts + 1;
        failures := failures + 1;
        audited := audited + [failures];
      case KnownProbe =>
        attempts := attempts + 1;
      }
      if attempts >= MAX_AUTH_ATTEMPTS {
        return TooManyAttempts, read, audited;
      }
      if left == 0 {
        return Broken, read, audited;
      }
      left := left - 1;
    }
  }

  lemma NoFailures(js: seq<Judgement>)
    ensures Failures(js[..0]) == 0
  {
  }

  /** A signed request for a key that resolves, whose signature covers this
      session's id followed by the request's own bytes before the signature. */
  ghost predicate Proves(w: World, id: Str, payload: Bytes, now: Option<U64>, key: Bytes, user: Str, flag: Byte,
                         algorithm: Str, blob: Str, raw: Str) {
    && GoodName(w.utf8, user) && GoodKey(w.utf8, algorithm, blob) && flag != 0 && |raw| <= 237
    && payload == RequestBytes(user, flag, algorithm, blob) + SignatureField(raw)
    && Resolve(w, algorithm, blob, user, now) == Some(key)
    && w.verifies(key, PutString(id) + RequestBytes(user, flag, algorithm, blob), raw)
  }

  lemma ProvenIsValid(w: World, id: Str, payload: Bytes, now: Option<U64>, key: Bytes, user: Str, flag: Byte,
                      algorithm: Str, blob: Str, raw: Str)
    requires Proves(w, id, payload, now, key, user, flag, algorithm, blob, raw)
    ensures Judge(w, id, payload, now) == Valid(key)
  {
    hide ParseRequest, Resolve, PutString, SignatureField, RequestBytes, GoodName, GoodKey;
    var signed := Some(Signed(RequestBytes(user, flag, algorithm, blob), raw));
    RequestWritten(w.utf8, payload, user, flag, algorithm, blob, signed);
  }

  /** What success means: a request is valid for a key if and only if it is the
      bytes of a request under some user and key blob, the key they resolve to
      is that key, and the signature is of this session's id and those bytes. */
  lemma SuccessIsProven(w: World, id: Str, payload: Bytes, now: Option<U64>, key: Bytes)
    ensures Judge(w, id, payload, now) == Valid(key) <==>
            exists user, flag, algorithm, blob, raw ::
              Proves(w, id, payload, now, key, user, flag, algorithm, blob, raw)
  {
    hide ParseRequest, Resolve, PutString, SignatureField, RequestBytes, GoodName, GoodKey;
    if Judge(w, id, payload, now) == Valid(key) {
      RequestFits(w.utf8, payload);
      var r := ParseRequest(w.utf8, payload).request;
      var flag := RequestRead(w.utf8, payload, r.user, r.algorithm, r.blob, r.signed);
      assert Proves(w, id, payload, now, key, r.user, flag, r.algorithm, r.blob, r.signed.value.signature);
    }
    hide Proves, Judge;
    forall user, flag, algorithm, blob, raw | Proves(w, id, payload, now, key, user, flag, algorithm, blob, raw)
      ensures Judge(w, id, payload, now) == Valid(key)
    {
      ProvenIsValid(w, id, payload, now, key, user, flag, algorithm, blob, raw);
    }
  }

  /** An unsigned request whose key resolves. */
  ghost predicate Probes(w: World, payload: Bytes, now: Option<U64>, user: Str, algorithm: Str, blob: Str) {
    && GoodName(w.utf8, user) && GoodKey(w.utf8, algorithm, blob)
    && payload == RequestBytes(user, 0, algorithm, blob) && Resolve(w, algorithm, blob, user, now).Some?
  }

  /** A request is answered as a probe of a known key, and not audited as a
      failure, if and only if it is one. */
  lemma ProbeExactly(w: World, id: Str, payload: Bytes, now: Option<U64>)
    ensures Judge(w, id, payload, now).KnownProbe? <==>
            exists user, algorithm, blob :: Probes(w, payload, now, user, algorithm, blob)
  {
    hide ParseRequest, Resolve, PutString, RequestBytes, GoodName, GoodKey, SignedData;
    if Judge(w, id, payload, now).KnownProbe? {
      RequestFits(w.utf8, payload);
      var r := ParseRequest(w.utf8, payload).request;
      var flag := RequestRead(w.utf8, payload, r.user, r.algorithm, r.blob, r.signed);
      assert Probes(w, payload, now, r.user, r.algorithm, r.blob);
    }
    forall user, algorithm, blob | Probes(w, payload, now, user, algorithm, blob)
      ensures Judge(w, id, payload, now).KnownProbe?
    {
      RequestWritten(w.utf8, payload, user, 0, algorithm, blob, None);
    }
  }
}
