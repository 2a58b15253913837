/** Web Crypto, as far as the key protocol uses it. A suite is any family of functions that
    meets `Sound`; nothing is said about secrecy, only about what opens what. */
module Crypto {
  import opened Domain

  datatype Suite = Suite(
    publicOf: nat -> Bytes,                       // raw export of the public half of a private key
    exported: nat -> Bytes,                       // PKCS#8 export of a private key
    imported: Bytes -> Option<nat>,
    derive: (string, Bytes, nat) -> Bytes,        // PBKDF2: password, salt, iterations
    agree: (nat, Bytes) -> Option<Bytes>,         // ECDH: private key, imported public point
    encrypt: (Bytes, Bytes, Bytes) -> Bytes,      // AES-GCM: key, IV, plaintext
    decrypt: (Bytes, Bytes, Bytes) -> Option<Bytes>,
    encode: string -> Bytes,                      // TextEncoder
    decode: Bytes -> string)                      // TextDecoder

  /** AES-GCM opens with the key that sealed; any other key is refused or finds the same text. */
  ghost predicate Opens(c: Suite) {
    && (forall k, iv, pt :: c.decrypt(k, iv, c.encrypt(k, iv, pt)) == Some(pt))
    && (forall k, k', iv, pt :: c.decrypt(k', iv, c.encrypt(k, iv, pt)) in [None, Some(pt)])
  }

  /** The two sides of ECDH agree, and a public point is 65 bytes, uncompressed. */
  ghost predicate Agrees(c: Suite) {
    && (forall a: nat :: |c.publicOf(a)| == 65)
    && (forall a: nat, b: nat :: c.agree(a, c.publicOf(b)) == c.agree(b, c.publicOf(a)))
    && (forall a: nat, b: nat :: c.agree(a, c.publicOf(b)).Some?)
  }

  ghost predicate Exports(c: Suite) {
    forall a: nat :: c.imported(c.exported(a)) == Some(a) && c.exported(a) != []
  }

  ghost predicate Sound(c: Suite) {
    Opens(c) && Agrees(c) && Exports(c)
  }

  /** The text coders are lossy on lone surrogates and on a leading byte order mark. */
  predicate Survives(c: Suite, text: string) {
    c.decode(c.encode(text)) == text
  }

  function Unary(n: nat): (b: Bytes)
    ensures |b| == n
  {
    seq(n, _ => 0)
  }

  /** `Sound` asks for nothing impossible. */
  lemma SomeSuite() returns (c: Suite)
    ensures Sound(c)
  {
    c := Suite(_ => Unary(65), a => [1] + Unary(a), b => if b == [] then None else Some(|b| - 1),
               (_, _, _) => [], (_, _) => Some([]), (_, _, pt) => pt, (_, _, ct) => Some(ct), _ => [], _ => "");
    forall a: nat ensures c.imported(c.exported(a)) == Some(a) && c.exported(a) != [] {
      assert |c.exported(a)| == a + 1;
    }
  }
}
