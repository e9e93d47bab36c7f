/** Key derivation from the master secret, and sealing a payload for a machine with given measurements. */
module KeyService {
  import opened Basics
  import opened Vault
  import opened Aes
  import Base64
  import Scalar

  // ---------------------------------------------------------- info strings

  const APP := "APP"
  const VM_BOOT := "VM_BOOT"

  predicate Declared(context: string) {
    context == APP || context == VM_BOOT
  }

  function Prefix(devMode: bool): string {
    if devMode then "dev-" else ""
  }

  function Info(devMode: bool, context: string, id: string): string {
    Prefix(devMode) + "-" + context + "-" + id
  }

  /** The modes never share an info string; within one mode it determines context, dash and id as one text. */
  lemma InfoSame(dev: bool, c: string, id: string, dev': bool, c': string, id': string)
    ensures Info(dev, c, id) == Info(dev', c', id') <==> dev == dev' && c + "-" + id == c' + "-" + id'
  {
    assert Info(dev, c, id) == (Prefix(dev) + "-") + (c + "-" + id);
    assert Info(dev', c', id') == (Prefix(dev') + "-") + (c' + "-" + id');
    assert Info(true, c, id)[0] == 'd' && Info(false, c, id)[0] == '-';
    assert Info(true, c', id')[0] == 'd' && Info(false, c', id')[0] == '-';
    if dev == dev' && Info(dev, c, id) == Info(dev', c', id') {
      Cancel(Prefix(dev) + "-", c + "-" + id, c' + "-" + id');
    }
  }

  lemma Cancel(p: string, a: string, b: string)
    requires p + a == p + b
    ensures a == b
  {
    assert (p + a)[|p|..] == a && (p + b)[|p|..] == b;
  }

  /** One context starts another one, with the dash that ends it. */
  predicate Overlap(c: string, c': string) {
    c + "-" <= c' + "-" || c' + "-" <= c + "-"
  }

  ghost predicate Separated(c: string, c': string) {
    forall id, id' :: c + "-" + id != c' + "-" + id'
  }

  /** For contexts of any spelling: some ids make them collide exactly when one starts the other. */
  lemma SeparatedIffNoOverlap(c: string, c': string)
    ensures Separated(c, c') <==> !Overlap(c, c')
  {
    var a, b := c + "-", c' + "-";
    if a <= b { assert a + b[|a|..] == b + ""; }
    if b <= a { assert a + "" == b + a[|b|..]; }
    forall id: string, id': string | a + id == b + id' ensures Overlap(c, c') { PrefixOfOne(a, id, b, id'); }
  }

  lemma PrefixOfOne(a: string, x: string, b: string, y: string)
    requires a + x == b + y
    ensures a <= b || b <= a
  {
    if |a| <= |b| {
      assert (a + x)[..|a|] == a && (b + y)[..|a|] == b[..|a|];
    } else {
      assert (a + x)[..|b|] == a[..|b|] && (b + y)[..|b|] == b;
    }
  }

  /** Over both modes, the declared contexts and all ids, the info strings are pairwise distinct. */
  lemma InfoInjective(dev: bool, c: string, id: string, dev': bool, c': string, id': string)
    requires Declared(c) && Declared(c') && Info(dev, c, id) == Info(dev', c', id')
    ensures dev == dev' && c == c' && id == id'
  {
    InfoSame(dev, c, id, dev', c', id');
    if c != c' {
      assert (APP + "-")[0] == 'A' && (VM_BOOT + "-")[0] == 'V';
      SeparatedIffNoOverlap(c, c');
      assert false;
    }
    Cancel(c + "-", id, id');
  }

  // -------------------------------------------------------------- derivation

  /** HKDF, section 2 of RFC 5869, returns as many bytes as it is asked for. */
  ghost predicate FullLength(s: Suite) {
    forall k, salt, info :: |s.hkdf(k, salt, info, 32)| == 32
  }

  /** What the service runs on: the member's secret, the mode, and the primitives. */
  datatype Service = Service(suite: Suite, gcm: Gcm, hash: Bytes -> Bytes, vault: Member, devMode: bool)

  function DeriveRaw(v: Service, id: string, data: Bytes, context: string): Result<Bytes> {
    Hkdf(v.suite, v.vault, data, Info(v.devMode, context, id), 32)
  }

  function DeriveHKDF(v: Service, id: string, data: Bytes, context: string): Result<string> {
    match DeriveRaw(v, id, data, context)
    case Err(e) => Err(e)
    case Ok(k) => Ok(Base64.Encode(k))
  }

  function SeedFromMeasurements(v: Service, mrtd: Bytes, cfv: Bytes): Bytes {
    v.hash(mrtd + cfv)
  }

  /**
   * The hash sees one text, so measurements share a seed exactly when their concatenations agree; with
   * `mrtd` of one length that is when both measurements agree.
   */
  lemma SeedsSameIff(v: Service, mrtd: Bytes, cfv: Bytes, mrtd': Bytes, cfv': Bytes)
    requires forall x, y :: v.hash(x) == v.hash(y) ==> x == y
    ensures SeedFromMeasurements(v, mrtd, cfv) == SeedFromMeasurements(v, mrtd', cfv') <==> mrtd + cfv == mrtd' + cfv'
    ensures |mrtd| == |mrtd'| ==>
              (SeedFromMeasurements(v, mrtd, cfv) == SeedFromMeasurements(v, mrtd', cfv') <==>
                  mrtd == mrtd' && cfv == cfv')
  {
    assert (mrtd + cfv)[..|mrtd|] == mrtd && (mrtd + cfv)[|mrtd|..] == cfv;
    assert (mrtd' + cfv')[..|mrtd'|] == mrtd' && (mrtd' + cfv')[|mrtd'|..] == cfv';
  }

  // --------------------------------------------------------------- the APIs

  datatype SealRequest = SealRequest(id: string, mrtd: string, cfv: string, payload: string)

  datatype SealResponse = SealResponse(id: string, sealedPayload: string)

  function TdxSeal(v: Service, req: SealRequest, nonce: Bytes): Result<SealResponse>
    requires |nonce| == NONCE_SIZE
  {
    var mrtd, cfv, payload := Base64.Decode(req.mrtd), Base64.Decode(req.cfv), Base64.Decode(req.payload);
    if mrtd.None? then Err("failed to decode mrtd")
    else if cfv.None? then Err("failed to decode cfv")
    else if payload.None? then Err("failed to decode payload")
    else
      match DeriveRaw(v, req.id, SeedFromMeasurements(v, mrtd.value, cfv.value), VM_BOOT)
      case Err(e) => Err(e)
      case Ok(key) =>
        match Encrypt(v.gcm, key, nonce, payload.value)
        case Err(e) => Err("failed to encrypt payload")
        case Ok(sealed) => Ok(SealResponse(req.id, sealed))
  }

  datatype Key = Symmetric(text: string) | X25519(seed: Bytes) | Ec(curve: Scalar.Curve, d: nat) | Rsa(pair: Bytes)

  function DeriveEcdsa(v: Service, id: string, data: Bytes, context: string, curve: Scalar.Curve): Result<Key> {
    match DeriveRaw(v, id, data, context)
    case Err(e) => Err(e)
    case Ok(k) =>
      var d := Scalar.Reduce(Scalar.Value(k), Scalar.Order(curve));
      if Scalar.Accepted(curve, Scalar.Minimal(d)) then Ok(Ec(curve, d)) else Err("failed to create ECDH private key")
  }

  function OrFailed(r: Result<Key>): Result<Key> {
    if r.Ok? then r else Err("key derivation failed")
  }

  /** The dispatch on the key type; `rsa` is what the RSA store gives for this id. */
  function KeyRequestFinalize(v: Service, id: string, keyType: string, context: string, seed: Bytes,
                              rsa: Result<Bytes>): Result<Key> {
    if keyType == "SYMMETRIC" then
      var t := DeriveHKDF(v, id, seed, context);
      OrFailed(if t.Ok? then Ok(Symmetric(t.value)) else Err(t.error))
    else if keyType == "X25519" then
      var k := DeriveRaw(v, id, seed, context);
      OrFailed(if k.Ok? then Ok(X25519(k.value)) else Err(k.error))
    else if keyType == "P256" then OrFailed(DeriveEcdsa(v, id, seed, context, Scalar.P256))
    else if keyType == "P384" then OrFailed(DeriveEcdsa(v, id, seed, context, Scalar.P384))
    else if keyType == "RSA" then OrFailed(if rsa.Ok? then Ok(Rsa(rsa.value)) else Err(rsa.error))
    else Err("invalid key type")
  }

  /** Sealing succeeds exactly when the three texts are base64 and the master secret is hex. */
  lemma SealSucceedsIff(v: Service, req: SealRequest, nonce: Bytes)
    requires FullLength(v.suite) && |nonce| == NONCE_SIZE
    ensures TdxSeal(v, req, nonce).Ok? <==>
            && Base64.Decode(req.mrtd).Some? && Base64.Decode(req.cfv).Some? && Base64.Decode(req.payload).Some?
            && SecretKey(v.vault).Some?
  {
  }

  /**
   * A payload sealed for an id and measurements opens to itself under the SYMMETRIC key that a machine
   * with those measurements obtains for the same id in the context VM_BOOT.
   */
  lemma SealRoundTrip(v: Service, req: SealRequest, nonce: Bytes, rsa: Result<Bytes>)
    requires FullLength(v.suite) && IdealGcm(v.gcm) && |nonce| == NONCE_SIZE && TdxSeal(v, req, nonce).Ok?
    ensures Base64.Decode(req.mrtd).Some? && Base64.Decode(req.cfv).Some? && Base64.Decode(req.payload).Some?
    ensures var seed := SeedFromMeasurements(v, Base64.Decode(req.mrtd).value, Base64.Decode(req.cfv).value);
            var key := KeyRequestFinalize(v, req.id, "SYMMETRIC", VM_BOOT, seed, rsa);
            && key.Ok? && key.value.Symmetric? && Base64.Decode(key.value.text).Some?
            && Decrypt(v.gcm, Base64.Decode(key.value.text).value, TdxSeal(v, req, nonce).value.sealedPayload)
               == Ok(Base64.Decode(req.payload).value)
            && TdxSeal(v, req, nonce).value.id == req.id
  {
    var seed := SeedFromMeasurements(v, Base64.Decode(req.mrtd).value, Base64.Decode(req.cfv).value);
    var k := DeriveRaw(v, req.id, seed, VM_BOOT).value;
    Base64.RoundTrip(k);
    DecryptIffSameKey(v.gcm, k, k, nonce, Base64.Decode(req.payload).value);
  }

  /** Any other derived key opens it only if the derivation gave the very same bytes. */
  lemma SealOpensOnlyForItsKey(v: Service, req: SealRequest, nonce: Bytes, id: string, context: string, seed: Bytes)
    requires FullLength(v.suite) && IdealGcm(v.gcm) && |nonce| == NONCE_SIZE && TdxSeal(v, req, nonce).Ok?
    ensures var mine := SeedFromMeasurements(v, Base64.Decode(req.mrtd).value, Base64.Decode(req.cfv).value);
            var k := DeriveRaw(v, id, seed, context);
            && k.Ok?
            && (Decrypt(v.gcm, k.value, TdxSeal(v, req, nonce).value.sealedPayload).Ok? <==>
                k == DeriveRaw(v, req.id, mine, VM_BOOT))
  {
    var mine := SeedFromMeasurements(v, Base64.Decode(req.mrtd).value, Base64.Decode(req.cfv).value);
    var k := DeriveRaw(v, req.id, mine, VM_BOOT).value;
    DecryptIffSameKey(v.gcm, k, DeriveRaw(v, id, seed, context).value, nonce, Base64.Decode(req.payload).value);
  }

  /** Every 32-byte derivation is refused on P-384: that request always fails. */
  lemma P384RequestFails(v: Service, id: string, context: string, seed: Bytes, rsa: Result<Bytes>)
    requires FullLength(v.suite)
    ensures KeyRequestFinalize(v, id, "P384", context, seed, rsa) == Err("key derivation failed")
  {
    var r := DeriveRaw(v, id, seed, context);
    if r.Ok? { Scalar.WideCurvesRejectShortSeeds(r.value, Scalar.P384); }
  }
}
