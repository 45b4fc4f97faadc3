/** The signed attestation envelope (src/vllm_hust_ext/attestation/profile.py): a detached JWS (Appendix F of RFC 7515)
    over a canonical payload.  Canonical JSON (section 3.2 of RFC 8785) and signatures are ideal: functions handed in,
    of which only their defining law is used. */
module Attestation {
  import opened Basics
  import opened Base64Url

  const SCHEMA := "ecpa-attestation-statement/0.1"
  const PROFILE := "ecpa-jcs-jws-eddsa/0.1"
  const TYPE := "application/ecpa-attestation+jws"
  const ALGORITHM := "EdDSA"
  const MAX_SAFE_INTEGER := 9007199254740991
  const CRITICAL := ["ecpa_profile"]

  datatype Code =
    | MalformedJson | NoncanonicalPayload | MalformedJws | WrongAlgorithm | WrongType | WrongProfile
    | UnknownCriticalHeader
    | UnknownCriticalClaim | UnknownKey | KeyMismatch | InvalidSignature | NotYetValid | Expired
    | InvalidStatement | InvalidTime
    | TrustPolicy

  datatype Outcome<+T> = Ok(value: T) | Err(code: Code)

  datatype Process = Process(host: string, role: string, ordinal: int, startIdentity: string, epoch: int)

  /** `claims` are the remaining string fields, each of which must not be empty. */
  datatype Statement = Statement(schema: string, profile: string, issuer: string, kid: string, subject: string,
                                 claims: seq<string>,
                                 process: Process, observedAt: int, issuedAt: int, expiresAt: int,
                                     critical: seq<string>,
                                 artifactDigest: string, evidenceDigest: string)

  /** A protected header with the profile's fields; a key id may be of a wrong type. */
  datatype Header = Header(alg: string, typ: string, crit: seq<string>, profile: string, kid: Option<string>)

  /** What strict parsing yields: nothing, or an object with its canonical bytes and, when it has the right shape, its
      content. */
  datatype Read<+T> = Unreadable | Object(canonical: seq<Byte>, content: Option<T>)

  type Key = string

  datatype Ideal = Ideal(header: Header -> seq<Byte>, readHeader: seq<Byte> -> Read<Header>,
                         payload: Statement -> seq<Byte>, readPayload: seq<Byte> -> Read<Statement>,
                         signature: (Key, string) -> seq<Byte>, verifies: (Key, seq<Byte>, string) -> bool)

  /** Parsing inverts canonicalization. */
  ghost predicate Parses(i: Ideal) {
    && (forall h :: i.readHeader(i.header(h)) == Object(i.header(h), Some(h)))
    && (forall s :: i.readPayload(i.payload(s)) == Object(i.payload(s), Some(s)))
  }

  /** The laws of the ideal: parsing inverts canonicalization, and a key's own signature verifies. */
  ghost predicate Lawful(i: Ideal) { Parses(i) && forall k, m :: i.verifies(k, i.signature(k, m), m) }

  datatype Envelope = Envelope(payload: seq<Byte>, jws: string)

  datatype TrustEntry = TrustEntry(key: Key, subjects: set<string>, notBefore: int, notAfter: int, enabled: bool)

  type TrustStore = map<(string, string), TrustEntry>

  // ---------------------------------------------------------------- statements

  predicate HexDigit(c: char) { '0' <= c <= '9' || 'a' <= c <= 'f' }

  predicate IsDigest(s: string) { |s| == 71 && s[..7] == "sha256:" && forall i :: 7 <= i < 71 ==> HexDigit(s[i]) }

  predicate Safe(n: int) { 0 <= n <= MAX_SAFE_INTEGER }

  predicate Valid(s: Statement) {
    && s.schema != "" && s.profile != "" && s.issuer != "" && s.kid != "" && s.subject != ""
    && (forall c :: c in s.claims ==> c != "")
    && s.process.host != "" && s.process.role != "" && s.process.startIdentity != "" && Safe(s.process.ordinal)
    && Safe(s.process.epoch)
    && Safe(s.observedAt) && Safe(s.issuedAt) && Safe(s.expiresAt)
    && (forall i, j :: 0 <= i < j < |s.critical| ==> s.critical[i] != s.critical[j])
    && IsDigest(s.artifactDigest) && IsDigest(s.evidenceDigest)
  }

  // ---------------------------------------------------------------- splitting at dots

  function Split(s: string): (parts: seq<string>)
    ensures parts != []
  {
    if s == "" then [""]
    else
      var rest := Split(s[1..]);
      if s[0] == '.' then [""] + rest else [[s[0]] + rest[0]] + rest[1..]
  }

  lemma {:induction false} SplitUndotted(s: string)
    requires Undotted(s)
    ensures Split(s) == [s]
  {
    if s != "" { SplitUndotted(s[1..]); assert s == [s[0]] + s[1..]; }
  }

  lemma {:induction false} SplitAtDot(a: string, rest: string)
    requires Undotted(a)
    ensures Split(a + "." + rest) == [a] + Split(rest)
  {
    var s := a + "." + rest;
    if a == "" {
      assert s[1..] == rest;
    } else {
      SplitAtDot(a[1..], rest);
      assert s[1..] == a[1..] + "." + rest;
      assert a == [a[0]] + a[1..];
    }
  }

  /** A detached compact JWS splits into its header, nothing, and its signature. */
  lemma SplitDetached(header: string, signature: string)
    requires Undotted(header) && Undotted(signature)
    ensures Split(header + ".." + signature) == [header, "", signature]
  {
    SplitAtDot(header, "." + signature);
    assert header + "." + ("." + signature) == header + ".." + signature;
    SplitAtDot("", signature);
    assert "" + "." + signature == "." + signature;
    SplitUndotted(signature);
  }

  // ---------------------------------------------------------------- sign and verify

  function Protected(kid: string): Header { Header(ALGORITHM, TYPE, CRITICAL, PROFILE, Some(kid)) }

  function SigningInput(header: string, payload: seq<Byte>): string { header + "." + Encode(payload) }

  function Sign(i: Ideal, s: Statement, key: Key): Outcome<Envelope> {
    if s.schema != SCHEMA || s.profile != PROFILE then Err(WrongProfile)
    else if !Valid(s) then Err(InvalidStatement)
    else
      var header, payload := Encode(i.header(Protected(s.kid))), i.payload(s);
      Ok(Envelope(payload, header + ".." + Encode(i.signature(key, SigningInput(header, payload)))))
  }

  /** The key a statement is to be checked with, if the store trusts it now. */
  function Trusted(store: TrustStore, issuer: string, kid: string, subject: string, now: int): Outcome<Key> {
    if (issuer, kid) !in store then Err(UnknownKey)
    else
      var e := store[(issuer, kid)];
      if !e.enabled || subject !in e.subjects || now < e.notBefore || now > e.notAfter then Err(TrustPolicy)
         else Ok(e.key)
  }

  /** The window checks, first failing first. */
  function Timely(s: Statement, now: int, skew: int, maxTtl: int, maxAge: int): Option<Code> {
    if s.issuedAt > now + skew || s.observedAt > now + skew then Some(NotYetValid)
    else if s.expiresAt < now - skew then Some(Expired)
    else if !(s.observedAt <= s.issuedAt <= s.expiresAt) then Some(InvalidTime)
    else if s.expiresAt - s.issuedAt > maxTtl then Some(InvalidTime)
    else if now - s.observedAt > maxAge + skew then Some(InvalidTime)
    else None
  }

  function CheckHeader(i: Ideal, raw: seq<Byte>): Outcome<string> {
    match i.readHeader(raw)
    case Unreadable => Err(MalformedJson)
    case Object(canonical, content) =>
      match content
      case None => Err(UnknownCriticalHeader)
      case Some(h) =>
        if raw != canonical then Err(MalformedJws)
        else if h.alg != ALGORITHM then Err(WrongAlgorithm)
        else if h.typ != TYPE then Err(WrongType)
        else if h.crit != CRITICAL then Err(UnknownCriticalHeader)
        else if h.profile != PROFILE then Err(WrongProfile)
        else if h.kid == None then Err(UnknownKey)
        else Ok(h.kid.value)
  }

  function CheckPayload(i: Ideal, raw: seq<Byte>, kid: string): Outcome<Statement> {
    match i.readPayload(raw)
    case Unreadable => Err(MalformedJson)
    case Object(canonical, content) =>
      if raw != canonical then Err(NoncanonicalPayload)
      else match content
        case None => Err(InvalidStatement)
        case Some(s) =>
          if !Valid(s) then Err(InvalidStatement)
          else if s.schema != SCHEMA || s.profile != PROFILE then Err(WrongProfile)
          else if s.kid != kid then Err(KeyMismatch)
          else if s.critical != [] then Err(UnknownCriticalClaim)
          else Ok(s)
  }

  function CheckSignature(i: Ideal, store: TrustStore, s: Statement, now: int, signature: string,
                          input: string): Option<Code> {
    match Trusted(store, s.issuer, s.kid, s.subject, now)
    case Err(code) => Some(code)
    case Ok(key) =>
      match Decode(signature)
      case None => Some(MalformedJws)
      case Some(raw) => if i.verifies(key, raw, input) then None else Some(InvalidSignature)
  }

  function Verify(i: Ideal, e: Envelope, store: TrustStore, now: int, skew: int, maxTtl: int,
                  maxAge: int): Outcome<Statement> {
    var parts := Split(e.jws);
    if |parts| != 3 || parts[1] != "" then Err(MalformedJws)
    else match Decode(parts[0])
      case None => Err(MalformedJws)
      case Some(header) =>
        match CheckHeader(i, header)
        case Err(code) => Err(code)
        case Ok(kid) =>
          match CheckPayload(i, e.payload, kid)
          case Err(code) => Err(code)
          case Ok(s) =>
            match CheckSignature(i, store, s, now, parts[2], SigningInput(parts[0], e.payload))
            case Some(code) => Err(code)
            case None =>
              match Timely(s, now, skew, maxTtl, maxAge)
              case Some(code) => Err(code)
              case None => Ok(s)
  }

  // ---------------------------------------------------------------- laws

  /** Verification of what sign produced returns the statement, or the one check it does not pass: critical claims,
      trust, then time. */
  lemma VerifyOfSign(i: Ideal, s: Statement, key: Key, store: TrustStore, now: int, skew: int, maxTtl: int, maxAge: int)
    requires Lawful(i) && Sign(i, s, key).Ok?
    requires (s.issuer, s.kid) in store ==> store[(s.issuer, s.kid)].key == key
    ensures Verify(i, Sign(i, s, key).value, store, now, skew, maxTtl, maxAge) ==
            if s.critical != [] then Err(UnknownCriticalClaim)
            else match Trusted(store, s.issuer, s.kid, s.subject, now)
              case Err(code) => Err(code)
              case Ok(_) => match Timely(s, now, skew, maxTtl, maxAge) case Some(code) => Err(code) case None => Ok(s)
  {
    hide Valid, Encode, Decode, Split, Timely;
    var h := Protected(s.kid);
    var header, payload := Encode(i.header(h)), i.payload(s);
    var input := SigningInput(header, payload);
    var signature := Encode(i.signature(key, input));
    EncodeIsUndotted(i.header(h));
    EncodeIsUndotted(i.signature(key, input));
    SplitDetached(header, signature);
    DecodeInverts(i.header(h));
    DecodeInverts(i.signature(key, input));
    assert CheckHeader(i, i.header(h)) == Ok(s.kid);
  }

  /** What an accepted envelope guarantees: canonical header and payload for one key id, a signature over both by a key
      trusted now for this issuer and subject, no critical claims, and the time window. */
  lemma VerifyIsSound(i: Ideal, e: Envelope, store: TrustStore, now: int, skew: int, maxTtl: int, maxAge: int)
    requires Verify(i, e, store, now, skew, maxTtl, maxAge).Ok?
    ensures var s := Verify(i, e, store, now, skew, maxTtl, maxAge).value;
            && Valid(s) && s.schema == SCHEMA && s.profile == PROFILE && s.critical == []
            && i.readPayload(e.payload) == Object(e.payload, Some(s))
            && Timely(s, now, skew, maxTtl, maxAge) == None
            && exists raw, signature ::
                 && e.jws == Encode(raw) + ".." + Encode(signature)
                 && i.readHeader(raw) == Object(raw, Some(Protected(s.kid)))
                 && Trusted(store, s.issuer, s.kid, s.subject, now).Ok?
                 && i.verifies(Trusted(store, s.issuer, s.kid, s.subject, now).value, signature,
                               SigningInput(Encode(raw), e.payload))
  {
    hide Valid, Encode, Decode, Split, Timely;
    var parts := Split(e.jws);
    JoinSplit(e.jws);
    var s := Verify(i, e, store, now, skew, maxTtl, maxAge).value;
    var raw, signature := Decode(parts[0]).value, Decode(parts[2]).value;
    DecodeAcceptsExactlyEncodings(parts[0], raw);
    DecodeAcceptsExactlyEncodings(parts[2], signature);
    assert i.readHeader(raw) == Object(raw, Some(Protected(s.kid)));
  }

  /** The bytes sign has a key sign for a statement. */
  function InputOf(i: Ideal, s: Statement): string { SigningInput(Encode(i.header(Protected(s.kid))), i.payload(s)) }

  /** The signing input determines the header and the payload it was made of. */
  lemma SigningInputBinds(header: seq<Byte>, payload: seq<Byte>, header': seq<Byte>, payload': seq<Byte>)
    requires SigningInput(Encode(header), payload) == SigningInput(Encode(header'), payload')
    ensures header == header' && payload == payload'
  {
    hide Encode, Split;
    SplitInput(header, payload);
    SplitInput(header', payload');
    EncodeIsInjective(header, header');
    EncodeIsInjective(payload, payload');
  }

  lemma SplitInput(header: seq<Byte>, payload: seq<Byte>)
    ensures Split(SigningInput(Encode(header), payload)) == [Encode(header), Encode(payload)]
  {
    hide Encode;
    EncodeIsUndotted(header);
    EncodeIsUndotted(payload);
    SplitAtDot(Encode(header), Encode(payload));
    SplitUndotted(Encode(payload));
  }

  /** With signatures that verify only for what was signed: whatever envelope is accepted, its statement is one that was
      signed with the key the store trusts for it. */
  lemma AcceptedWasSigned(i: Ideal, e: Envelope, store: TrustStore, now: int, skew: int, maxTtl: int, maxAge: int,
                          signed: set<(Key, Statement)>)
    requires Parses(i) && Verify(i, e, store, now, skew, maxTtl, maxAge).Ok?
    requires forall k, signature, m :: i.verifies(k, signature, m) ==>
             exists s :: (k, s) in signed && m == InputOf(i, s)
    ensures var s := Verify(i, e, store, now, skew, maxTtl, maxAge).value;
            Trusted(store, s.issuer, s.kid, s.subject, now).Ok?
                && (Trusted(store, s.issuer, s.kid, s.subject, now).value, s) in signed
  {
    hide Valid, Verify, SigningInput, Timely, Trusted, Encode;
    VerifyIsSound(i, e, store, now, skew, maxTtl, maxAge);
    var s := Verify(i, e, store, now, skew, maxTtl, maxAge).value;
    var key := Trusted(store, s.issuer, s.kid, s.subject, now).value;
    var raw, signature :| i.verifies(key, signature, SigningInput(Encode(raw), e.payload));
    var s' :| (key, s') in signed && SigningInput(Encode(raw), e.payload) == InputOf(i, s');
    SigningInputBinds(raw, e.payload, i.header(Protected(s'.kid)), i.payload(s'));
    assert i.readPayload(e.payload) == Object(i.payload(s'), Some(s'));
  }

  function Join(parts: seq<string>): string
    requires parts != []
  {
    if |parts| == 1 then parts[0] else parts[0] + "." + Join(parts[1..])
  }

  lemma {:induction false} JoinsBack(s: string)
    ensures Join(Split(s)) == s
  {
    if s != "" {
      var rest := Split(s[1..]);
      JoinsBack(s[1..]);
      if s[0] == '.' { assert ([""] + rest)[1..] == rest; }
      else {
        var parts := [[s[0]] + rest[0]] + rest[1..];
        assert parts[1..] == rest[1..];
        assert Join(parts) == [s[0]] + Join(rest);
      }
    }
  }

  lemma JoinSplit(s: string)
    ensures |Split(s)| == 3 && Split(s)[1] == "" ==> s == Split(s)[0] + ".." + Split(s)[2]
  {
    var p := Split(s);
    JoinsBack(s);
    if |p| == 3 && p[1] == "" {
      assert p[1..][1..] == [p[2]];
      assert Join(p[1..]) == "" + "." + p[2];
      assert Join(p) == p[0] + "." + ("" + "." + p[2]);
    }
  }

  // ---------------------------------------------------------------- the trust store

  datatype Entry = Entry(issuer: string, kid: string, trust: TrustEntry)

  predicate EntryOk(e: Entry) {
    && e.issuer != "" && e.kid != "" && e.trust.subjects != {} && (forall x :: x in e.trust.subjects ==> x != "")
    && 0 <= e.trust.notBefore <= e.trust.notAfter
  }

  /** The store holds exactly the given entries; an invalid entry or a repeated identity is refused. */
  method BuildStore(entries: seq<Entry>) returns (store: Option<TrustStore>)
    ensures store.Some? <==> (forall i :: 0 <= i < |entries| ==> EntryOk(entries[i]))
                             && forall i, j :: 0 <= i < j < |entries| ==>
                                   (entries[i].issuer, entries[i].kid) != (entries[j].issuer, entries[j].kid)
    ensures store.Some? ==> forall i :: 0 <= i < |entries| ==>
              (entries[i].issuer, entries[i].kid) in store.value
                  && store.value[(entries[i].issuer, entries[i].kid)] == entries[i].trust
    ensures store.Some? ==> forall id :: id in store.value ==>
            exists i :: 0 <= i < |entries| && id == (entries[i].issuer, entries[i].kid)
  {
    var result: TrustStore := map[];
    for n := 0 to |entries|
      invariant forall i :: 0 <= i < n ==> EntryOk(entries[i])
      invariant forall i, j :: 0 <= i < j < n ==>
                (entries[i].issuer, entries[i].kid) != (entries[j].issuer, entries[j].kid)
      invariant forall i :: 0 <= i < n ==>
                  (entries[i].issuer, entries[i].kid) in result
                      && result[(entries[i].issuer, entries[i].kid)] == entries[i].trust
      invariant forall id :: id in result ==> exists i :: 0 <= i < n && id == (entries[i].issuer, entries[i].kid)
    {
      var e := entries[n];
      if !EntryOk(e) || (e.issuer, e.kid) in result { return None; }
      result := result[(e.issuer, e.kid) := e.trust];
    }
    return Some(result);
  }
}
