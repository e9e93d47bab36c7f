/** The master secret of a member and the three operations that use it. */
module Vault {
  import opened Basics
  import Hex

  const KEY_SIZE := 32

  /**
   * The authenticated cipher and the key derivation a vault calls. `seal(key, random, data)` is a
   * sealed box, `open(key, box)` its content when the box is genuine for that key.
   */
  datatype Suite = Suite(
    seal: (Bytes, Bytes, Bytes) -> Bytes,
    open: (Bytes, Bytes) -> Option<Bytes>,
    hkdf: (Bytes, Bytes, string, nat) -> Bytes)

  /** An ideal authenticated cipher: a box opens under the sealing key, to the sealed bytes, and under no other. */
  ghost predicate Ideal(s: Suite) {
    forall k, r, d, k' :: s.open(k', s.seal(k, r, d)) == if k' == k then Some(d) else None
  }

  /** The content of a master-key file: the owner's name and the secret in hex. */
  datatype Member = Member(id: Name, secret: string)

  function FileFor(id: Name, key: Bytes): Member {
    Member(id, Hex.Encode(key))
  }

  function SecretKey(m: Member): Option<Bytes> {
    Hex.Decode(m.secret)
  }

  /** AES accepts keys of these lengths only. */
  predicate CipherKey(k: Bytes) {
    |k| == 16 || |k| == 24 || |k| == 32
  }

  function Seal(s: Suite, m: Member, random: Bytes, data: Bytes): Result<Bytes> {
    match SecretKey(m)
    case None => Err("secret is not hex")
    case Some(k) => if CipherKey(k) then Ok(s.seal(k, random, data)) else Err("invalid key size")
  }

  function Unseal(s: Suite, m: Member, box: Bytes): Result<Bytes> {
    match SecretKey(m)
    case None => Err("secret is not hex")
    case Some(k) =>
      if !CipherKey(k) then Err("invalid key size") else
      match s.open(k, box)
      case None => Err("message authentication failed")
      case Some(d) => Ok(d)
  }

  function Hkdf(s: Suite, m: Member, salt: Bytes, info: string, length: nat): Result<Bytes> {
    match SecretKey(m)
    case None => Err("secret is not hex")
    case Some(k) => Ok(s.hkdf(k, salt, info, length))
  }

  /** A member opens another member's box exactly when both hold the same key, and then finds what was sealed. */
  lemma UnsealIffSameKey(s: Suite, id: Name, key: Bytes, id': Name, key': Bytes, random: Bytes, data: Bytes)
    requires Ideal(s) && |key| == KEY_SIZE && |key'| == KEY_SIZE
    ensures Seal(s, FileFor(id, key), random, data).Ok?
    ensures var box := Seal(s, FileFor(id, key), random, data).value;
            && (Unseal(s, FileFor(id', key'), box).Ok? <==> key' == key)
            && (key' == key ==> Unseal(s, FileFor(id', key'), box) == Ok(data))
  {
    Hex.RoundTrip(key);
    Hex.RoundTrip(key');
  }
}
