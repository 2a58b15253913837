/** keys.ts: the wrapped keypair an employee keeps on the server, and the envelope a client
    seals to its public half. Bytes are shown before their base64 (module Base64). */
module Keys {
  import opened Domain
  import opened Crypto

  const KDF_ITERS := 310_000

  datatype Wrapped = Wrapped(pubkey: Bytes, blob: Bytes, salt: Bytes, iters: nat)

  /** What crypto.getRandomValues and generateKey draw for one keypair or one wrapping. */
  datatype Draw = Draw(secret: nat, salt: Bytes, iv: Bytes)

  predicate Drawn(d: Draw) {
    |d.salt| == 16 && |d.iv| == 12
  }

  function Wrap(c: Suite, password: string, raw: Bytes, pubkey: Bytes, d: Draw): Wrapped {
    Wrapped(pubkey, d.iv + c.encrypt(c.derive(password, d.salt, KDF_ITERS), d.iv, raw), d.salt, KDF_ITERS)
  }

  function CreateKeys(c: Suite, password: string, d: Draw): Wrapped {
    Wrap(c, password, c.exported(d.secret), c.publicOf(d.secret), d)
  }

  /** None where decryption throws; a blob too short for its IV has no tag and throws too. */
  function UnwrapRaw(c: Suite, keys: Wrapped, password: string): Option<Bytes> {
    if |keys.blob| < 12 then None
    else c.decrypt(c.derive(password, keys.salt, keys.iters), keys.blob[..12], keys.blob[12..])
  }

  function Rewrap(c: Suite, keys: Wrapped, old_: string, new_: string, d: Draw): Option<Wrapped> {
    match UnwrapRaw(c, keys, old_)
    case None => None
    case Some(raw) => Some(Wrap(c, new_, raw, keys.pubkey, d))
  }

  predicate OpensWith(c: Suite, keys: Wrapped, password: string) {
    UnwrapRaw(c, keys, password).Some?
  }

  /** The bundle holds the private half of its own public key. */
  ghost predicate Holds(c: Suite, keys: Wrapped, secret: nat, password: string) {
    && keys.pubkey == c.publicOf(secret) && |keys.blob| >= 12
    && keys.blob[12..] == c.encrypt(c.derive(password, keys.salt, keys.iters), keys.blob[..12], c.exported(secret))
  }

  ghost predicate Matching(c: Suite, keys: Wrapped) {
    exists secret, password :: Holds(c, keys, secret, password)
  }

  lemma WrapHolds(c: Suite, secret: nat, password: string, d: Draw)
    requires Drawn(d)
    ensures Holds(c, Wrap(c, password, c.exported(secret), c.publicOf(secret), d), secret, password)
  {
  }

  /** Whatever password opens a matching bundle, it opens to the one private key. */
  lemma UnwrapFinds(c: Suite, keys: Wrapped, secret: nat, password: string, tried: string)
    requires Sound(c) && Holds(c, keys, secret, password)
    ensures UnwrapRaw(c, keys, password) == Some(c.exported(secret))
    ensures UnwrapRaw(c, keys, tried) in [None, Some(c.exported(secret))]
  {
    var k, k' := c.derive(password, keys.salt, keys.iters), c.derive(tried, keys.salt, keys.iters);
    assert c.decrypt(k', keys.blob[..12], c.encrypt(k, keys.blob[..12], c.exported(secret))) in [None, Some(c.exported(secret))];
  }

  lemma CreateMatches(c: Suite, password: string, d: Draw)
    requires Sound(c) && Drawn(d)
    ensures Holds(c, CreateKeys(c, password, d), d.secret, password)
    ensures UnwrapRaw(c, CreateKeys(c, password, d), password) == Some(c.exported(d.secret))
    ensures CreateKeys(c, password, d).salt == d.salt && CreateKeys(c, password, d).iters == 310_000
  {
    WrapHolds(c, d.secret, password, d);
    UnwrapFinds(c, CreateKeys(c, password, d), d.secret, password, password);
  }

  /** Re-wrapping succeeds exactly when the old password opens, keeps the keypair, and the
      new password opens the result. */
  lemma RewrapMoves(c: Suite, keys: Wrapped, secret: nat, password: string, old_: string, new_: string, d: Draw)
    requires Sound(c) && Holds(c, keys, secret, password) && Drawn(d)
    ensures var moved := Rewrap(c, keys, old_, new_, d);
            && (moved.Some? <==> OpensWith(c, keys, old_))
            && (moved.Some? ==> Holds(c, moved.value, secret, new_) && OpensWith(c, moved.value, new_))
  {
    UnwrapFinds(c, keys, secret, password, old_);
    WrapHolds(c, secret, new_, d);
    if OpensWith(c, keys, old_) {
      UnwrapFinds(c, Rewrap(c, keys, old_, new_, d).value, secret, new_, new_);
    }
  }

  // -------------------------------------------------------- messages to a public key

  /** sealTo; None where importing the public key throws. */
  function SealTo(c: Suite, pubkey: Bytes, text: string, d: Draw): Option<Bytes> {
    match c.agree(d.secret, pubkey)
    case None => None
    case Some(k) => Some(c.publicOf(d.secret) + d.iv + c.encrypt(k, d.iv, c.encode(text)))
  }

  /** openWith: the ephemeral point, the IV and the ciphertext are cut at 65 and 77. */
  function OpenWith(c: Suite, priv: nat, blob: Bytes): Option<string> {
    if |blob| < 77 then None
    else
      match c.agree(priv, blob[..65])
      case None => None
      case Some(k) =>
        match c.decrypt(k, blob[65..77], blob[77..])
        case None => None
        case Some(plain) => Some(c.decode(plain))
  }

  /** A text sealed to a public key is what its private half opens. */
  lemma OpenSealed(c: Suite, secret: nat, text: string, d: Draw)
    requires Sound(c) && Drawn(d) && Survives(c, text)
    ensures var blob := SealTo(c, c.publicOf(secret), text, d);
            blob.Some? && OpenWith(c, secret, blob.value) == Some(text)
  {
    var k := c.agree(d.secret, c.publicOf(secret)).value;
    var eph, ct := c.publicOf(d.secret), c.encrypt(k, d.iv, c.encode(text));
    var blob := eph + d.iv + ct;
    assert blob[..65] == eph && blob[65..77] == d.iv && blob[77..] == ct;
    assert c.agree(secret, c.publicOf(d.secret)) == Some(k);
  }

  // --------------------------------------------------------------- filling buffers

  /** Uint8Array.prototype.set */
  method SetAt(out: array<byte>, src: Bytes, at: nat)
    requires at + |src| <= out.Length
    modifies out
    ensures out[..] == old(out[..at]) + src + old(out[at + |src|..])
  {
    for i := 0 to |src|
      invariant out[..] == old(out[..at]) + src[..i] + old(out[at + i..])
    {
      out[at + i] := src[i];
    }
    assert src[..|src|] == src;
  }

  /** The buffer that createKeys and rewrap fill: the IV is prepended to the ciphertext. */
  method FillWrapped(iv: Bytes, wrapped: Bytes) returns (blob: array<byte>)
    ensures fresh(blob) && blob[..] == iv + wrapped
  {
    blob := new byte[|iv| + |wrapped|];
    SetAt(blob, iv, 0);
    SetAt(blob, wrapped, |iv|);
    assert blob[|iv| + |wrapped|..] == [];
  }

  /** The buffer that sealTo fills, read back by OpenWith's cuts. */
  method FillSealed(ephPub: Bytes, iv: Bytes, ct: Bytes) returns (out: array<byte>)
    ensures fresh(out) && out[..] == ephPub + iv + ct
  {
    out := new byte[|ephPub| + |iv| + |ct|];
    SetAt(out, ephPub, 0);
    SetAt(out, iv, |ephPub|);
    SetAt(out, ct, |ephPub| + |iv|);
    assert out[|ephPub| + |iv| + |ct|..] == [];
  }
}
