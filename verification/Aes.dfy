/** AES-256-GCM with the nonce in front and base64 around. */
module Aes {
  import opened Basics
  import Base64

  const NONCE_SIZE := 12

  /** `seal(key, nonce, plaintext)` and `open(key, nonce, ciphertext)`. */
  datatype Gcm = Gcm(seal: (Bytes, Bytes, Bytes) -> Bytes, open: (Bytes, Bytes, Bytes) -> Option<Bytes>)

  /** A ciphertext opens under its own key and nonce, to its plaintext, and under no other. */
  ghost predicate IdealGcm(g: Gcm) {
    forall k, n, p, k', n' :: g.open(k', n', g.seal(k, n, p)) == if k' == k && n' == n then Some(p) else None
  }

  function Encrypt(g: Gcm, key: Bytes, nonce: Bytes, plaintext: Bytes): Result<string>
    requires |nonce| == NONCE_SIZE
  {
    if |key| != 32 then Err("key must be 32 bytes for AES-256")
    else Ok(Base64.Encode(nonce + g.seal(key, nonce, plaintext)))
  }

  function Decrypt(g: Gcm, key: Bytes, encrypted: string): Result<Bytes> {
    if |key| != 32 then Err("key must be 32 bytes for AES-256") else
    match Base64.Decode(encrypted)
    case None => Err("failed to decode base64")
    case Some(data) =>
      if |data| < NONCE_SIZE then Err("ciphertext too short") else
      match g.open(key, data[..NONCE_SIZE], data[NONCE_SIZE..])
      case None => Err("failed to decrypt")
      case Some(p) => Ok(p)
  }

  /** What was encrypted under one key decrypts under a key exactly when it is the same key, and then to itself. */
  lemma DecryptIffSameKey(g: Gcm, key: Bytes, key': Bytes, nonce: Bytes, plaintext: Bytes)
    requires IdealGcm(g) && |key| == 32 && |nonce| == NONCE_SIZE
    ensures Encrypt(g, key, nonce, plaintext).Ok?
    ensures var sealed := Encrypt(g, key, nonce, plaintext).value;
            && (Decrypt(g, key', sealed).Ok? <==> key' == key)
            && Decrypt(g, key, sealed) == Ok(plaintext)
  {
    var data := nonce + g.seal(key, nonce, plaintext);
    Base64.RoundTrip(data);
    assert data[..NONCE_SIZE] == nonce && data[NONCE_SIZE..] == g.seal(key, nonce, plaintext);
  }
}
