/** crypto.ts: the envelope a sender seals and a holder of the link opens, from the framing of
    its header up to the whole way through the server. */
module Envelope {
  import opened Domain
  import opened Crypto
  import Base64
  import Store
  import Protocol
  import Atomic

  const KDF_ITERS := 310_000

  /** JSON.stringify({text}) in UTF-8, and JSON.parse(...).text; and HKDF: key material, salt,
      info. */
  datatype Browser = Browser(web: Suite, header: string -> Bytes, parse: Bytes -> Option<string>,
                             hkdf: (Bytes, Bytes, string) -> Bytes)

  /** No two passphrases, no two inputs of HKDF and no two keys of AES-GCM are taken for one
      another: what cryptography provides up to a negligible probability. */
  ghost predicate Distinguishes(b: Browser) {
    && (forall p, q, salt, n :: b.web.derive(p, salt, n) == b.web.derive(q, salt, n) ==> p == q)
    && (forall x, y, salt, info :: b.hkdf(x, salt, info) == b.hkdf(y, salt, info) ==> x == y)
    && (forall k, k', iv, pt :: k != k' ==> b.web.decrypt(k', iv, b.web.encrypt(k, iv, pt)) == None)
    && (forall p, salt, n :: b.web.derive(p, salt, n) != [])
    && (forall x, salt, info :: b.hkdf(x, salt, info) != [])
  }

  ghost predicate Faithful(b: Browser) {
    Opens(b.web) && Distinguishes(b)
  }

  /** JSON leaves this text as it was, in a header whose length fits its prefix. */
  predicate Carries(b: Browser, text: string) {
    b.parse(b.header(text)) == Some(text) && |b.header(text)| < 0x1_0000_0000
  }

  // --------------------------------------------------------------------- framing

  function BigEndian(n: int): Bytes
    requires 0 <= n < 0x1_0000_0000
  {
    [n / 0x100_0000, n / 0x1_0000 % 0x100, n / 0x100 % 0x100, n % 0x100]
  }

  function Pack(head: Bytes): Bytes
    requires |head| < 0x1_0000_0000
  {
    BigEndian(|head|) + head
  }

  function LengthOf(buf: Bytes): nat
    requires |buf| >= 4
  {
    (buf[0] as int) * 0x100_0000 + (buf[1] as int) * 0x1_0000 + (buf[2] as int) * 0x100 + buf[3]
  }

  /** The header alone: slice clamps to the buffer, and what follows the header is ignored. */
  function Unpack(buf: Bytes): Option<Bytes> {
    if |buf| < 4 then None
    else Some(buf[4..if 4 + LengthOf(buf) < |buf| then 4 + LengthOf(buf) else |buf|])
  }

  lemma BigEndianBack(n: int)
    requires 0 <= n < 0x1_0000_0000
    ensures LengthOf(BigEndian(n)) == n
  {
    var b := BigEndian(n);
    FourDigits(n);
    assert b[0] == n / 0x100_0000 && b[1] == n / 0x1_0000 % 0x100 && b[2] == n / 0x100 % 0x100 && b[3] == n % 0x100;
  }

  lemma FourDigits(n: int)
    requires 0 <= n
    ensures n == n / 0x100_0000 * 0x100_0000 + n / 0x1_0000 % 0x100 * 0x1_0000 + n / 0x100 % 0x100 * 0x100 + n % 0x100
  {
    var q := n / 0x100;
    var r := q / 0x100;
    assert n == q * 0x100 + n % 0x100 && q == r * 0x100 + q % 0x100 && r == r / 0x100 * 0x100 + r % 0x100;
    assert n / 0x1_0000 == r && n / 0x100_0000 == r / 0x100;
  }

  /** Old envelopes carried an attachment after the header; they still open. */
  lemma UnpackPacked(head: Bytes, trailing: Bytes)
    requires |head| < 0x1_0000_0000
    ensures Unpack(Pack(head) + trailing) == Some(head)
  {
    var buf := Pack(head) + trailing;
    BigEndianBack(|head|);
    assert buf[0] == BigEndian(|head|)[0] && buf[1] == BigEndian(|head|)[1];
    assert buf[2] == BigEndian(|head|)[2] && buf[3] == BigEndian(|head|)[3];
    assert buf[4..4 + |head|] == head;
  }

  /** pack, into one buffer: setUint32, then set. */
  method PackInto(head: Bytes) returns (out: array<byte>)
    requires |head| < 0x1_0000_0000
    ensures fresh(out) && out[..] == Pack(head)
    ensures out.Length == 4 + |head| && out[4..] == head
    ensures (out[0] as int) * 16_777_216 + (out[1] as int) * 65_536 + (out[2] as int) * 256 + out[3] as int == |head|
  {
    BigEndianBack(|head|);
    out := new byte[4 + |head|];
    var n := |head|;
    out[0], out[1], out[2], out[3] := n / 0x100_0000, n / 0x1_0000 % 0x100, n / 0x100 % 0x100, n % 0x100;
    for i := 0 to |head|
      invariant out[..4] == BigEndian(|head|)
      invariant out[4..4 + i] == head[..i]
    {
      out[4 + i] := head[i];
    }
    assert out[..] == out[..4] + out[4..4 + |head|];
  }

  // ------------------------------------------------------------------ seal and open

  datatype Kdf = Kdf(salt: Bytes, iters: nat, verifier: Bytes)
  datatype Sealed = Sealed(blob: Bytes, linkKey: string, kdf: Option<Kdf>)
  datatype Draw = Draw(link: Bytes, salt: Bytes, iv: Bytes)

  predicate Drawn(d: Draw) {
    |d.link| == 32 && |d.salt| == 16 && |d.iv| == 12
  }

  function Material(b: Browser, link: Bytes, salt: Bytes, passphrase: string): Bytes {
    if passphrase == "" then link else link + b.web.derive(passphrase, salt, KDF_ITERS)
  }

  function EncKey(b: Browser, link: Bytes, salt: Bytes, passphrase: string): Bytes {
    b.hkdf(Material(b, link, salt, passphrase), salt, "ss-enc")
  }

  function MakeVerifier(b: Browser, passphrase: string, salt: Bytes, iters: nat): Bytes {
    b.hkdf(b.web.derive(passphrase, salt, iters), salt, "ss-auth")
  }

  function Seal(b: Browser, text: string, passphrase: string, d: Draw): Sealed
    requires |b.header(text)| < 0x1_0000_0000
  {
    Sealed(d.salt + d.iv + b.web.encrypt(EncKey(b, d.link, d.salt, passphrase), d.iv, Pack(b.header(text))),
           Base64.ToB64Url(d.link),
           if passphrase == "" then None else Some(Kdf(d.salt, KDF_ITERS, MakeVerifier(b, passphrase, d.salt, KDF_ITERS))))
  }

  /** None where it throws. */
  function OpenEnvelope(b: Browser, blob: Bytes, linkKey: string, passphrase: string): Option<string> {
    if |blob| < 28 then None
    else
      match Base64.FromB64Url(linkKey)
      case None => None
      case Some(link) =>
        match b.web.decrypt(EncKey(b, link, blob[..16], passphrase), blob[16..28], blob[28..])
        case None => None
        case Some(raw) => match Unpack(raw) case None => None case Some(head) => b.parse(head)
  }

  lemma MaterialDiffers(b: Browser, link: Bytes, salt: Bytes, p: string, q: string)
    requires Distinguishes(b)
    ensures Material(b, link, salt, p) == Material(b, link, salt, q) <==> p == q
  {
    if p != q && p != "" && q != "" {
      var x, y := b.web.derive(p, salt, KDF_ITERS), b.web.derive(q, salt, KDF_ITERS);
      assert (link + x)[|link|..] == x && (link + y)[|link|..] == y;
    }
  }

  lemma KeyDiffers(b: Browser, link: Bytes, salt: Bytes, p: string, q: string)
    requires Distinguishes(b)
    ensures EncKey(b, link, salt, p) == EncKey(b, link, salt, q) <==> p == q
  {
    MaterialDiffers(b, link, salt, p, q);
  }

  /** Where the parts of a sealed blob are. */
  lemma SealedParts(b: Browser, text: string, passphrase: string, d: Draw)
    requires |b.header(text)| < 0x1_0000_0000 && Drawn(d)
    ensures var blob := Seal(b, text, passphrase, d).blob;
            && |blob| >= 28 && blob[..16] == d.salt && blob[16..28] == d.iv
            && blob[28..] == b.web.encrypt(EncKey(b, d.link, d.salt, passphrase), d.iv, Pack(b.header(text)))
  {
  }

  /** With the link, the text comes back exactly for the passphrase it was sealed with, and an
      empty passphrase is one of them. */
  lemma OpenSealed(b: Browser, text: string, passphrase: string, tried: string, d: Draw)
    requires Faithful(b) && Carries(b, text) && Drawn(d)
    ensures var s := Seal(b, text, passphrase, d);
            OpenEnvelope(b, s.blob, s.linkKey, tried) == if tried == passphrase then Some(text) else None
  {
    SealedParts(b, text, passphrase, d);
    Base64.UrlRoundTrip(d.link);
    KeyDiffers(b, d.link, d.salt, passphrase, tried);
    UnpackPacked(b.header(text), []);
    assert Pack(b.header(text)) + [] == Pack(b.header(text));
  }

  lemma LinksDiffer(b: Browser, link: Bytes, other: Bytes, salt: Bytes, p: string, q: string)
    requires Distinguishes(b) && |link| == |other| && link != other
    ensures Material(b, link, salt, p) != Material(b, other, salt, q)
  {
    var x, y := Material(b, link, salt, p), Material(b, other, salt, q);
    assert x[..|link|] == link && y[..|link|] == other;
  }

  lemma OtherKey(b: Browser, link: Bytes, other: Bytes, salt: Bytes, iv: Bytes, p: string, q: string, plain: Bytes)
    requires Faithful(b) && |link| == |other| && link != other
    ensures b.web.decrypt(EncKey(b, other, salt, q), iv, b.web.encrypt(EncKey(b, link, salt, p), iv, plain)) == None
  {
    LinksDiffer(b, other, link, salt, q, p);
  }

  /** The fragment is needed: with any other key of a link's length, no passphrase opens. */
  lemma OpensOnlyWithLink(b: Browser, text: string, passphrase: string, tried: string, d: Draw, other: Bytes)
    requires Faithful(b) && Carries(b, text) && Drawn(d) && |other| == 32 && other != d.link
    ensures OpenEnvelope(b, Seal(b, text, passphrase, d).blob, Base64.ToB64Url(other), tried) == None
  {
    SealedParts(b, text, passphrase, d);
    Base64.UrlRoundTrip(other);
    OtherKey(b, d.link, other, d.salt, d.iv, passphrase, tried, Pack(b.header(text)));
  }

  // --------------------------------------------------------- all the way through

  /** What create_secret stores of the passphrase. */
  function Stored(s: Sealed): Option<Digest> {
    if s.kdf.Some? then Some(Sha256(s.kdf.value.verifier)) else None
  }

  /** What the reveal page sends: nothing, or a verifier made with the salt that meta returns. */
  function Sent(b: Browser, s: Sealed, tried: string): Option<Bytes> {
    if s.kdf.Some? then Some(MakeVerifier(b, tried, s.kdf.value.salt, s.kdf.value.iters)) else None
  }

  /** The server's check lets through exactly the passphrase that opens the envelope; without a
      passphrase, everyone who has the link. */
  lemma CheckIsExact(b: Browser, text: string, passphrase: string, tried: string, d: Draw)
    requires Distinguishes(b) && |b.header(text)| < 0x1_0000_0000
    ensures var s := Seal(b, text, passphrase, d);
            Protocol.VerifierOk(Sent(b, s, tried), Stored(s)) <==> passphrase == "" || tried == passphrase
  {
    if passphrase != "" && MakeVerifier(b, tried, d.salt, KDF_ITERS) == MakeVerifier(b, passphrase, d.salt, KDF_ITERS) {
      assert b.web.derive(tried, d.salt, KDF_ITERS) == b.web.derive(passphrase, d.salt, KDF_ITERS);
    }
  }

  /** A secret's life on the server when nothing comes between: created, looked up, revealed. */
  function Life(s: Protocol.State, user: User, blob: Bytes, want: int, verifier: Option<Bytes>, maxAttempts: int,
                token: nat, ticket: Ticket, sent: Option<Bytes>): Atomic.Answer {
    var s1 := Atomic.Create(s, user, blob, want, verifier, maxAttempts, token).0;
    var s2 := Atomic.Meta(s1, OfToken(token), ticket).0;
    Atomic.Reveal(s2, OfToken(token), ticket, sent).1
  }

  lemma LifeAnswers(s: Protocol.State, user: User, blob: Bytes, want: int, verifier: Option<Bytes>, maxAttempts: int,
                    token: nat, ticket: Ticket, sent: Option<Bytes>)
    requires Protocol.Fits(blob) && 1 <= maxAttempts <= 20
    ensures var answer := Life(s, user, blob, want, verifier, maxAttempts, token, ticket, sent);
            if Protocol.VerifierOk(sent, if verifier.Some? then Some(Sha256(verifier.value)) else None)
            then answer == Atomic.Bytes_(blob)
            else answer.WrongPassphrase? || answer.DestroyedNow?
  {
    var tid := OfToken(token);
    var s1 := Atomic.Create(s, user, blob, want, verifier, maxAttempts, token).0;
    assert s1.redis.blobs[tid].data == blob && s1.rows[tid].status == Protocol.Active && s1.redis.now < s1.rows[tid].expires;
    var s2 := Atomic.Meta(s1, tid, ticket).0;
    assert s2 == Protocol.Issue(s1, ticket, tid);
    assert Store.TicketTid(s2.redis, ticket) == Some(tid);
  }

  /** Sealed in one browser, stored, looked up and revealed to another: the right passphrase
      gets the text back, and a wrong one gets no bytes at all. */
  lemma OutboundRoundTrip(b: Browser, s: Protocol.State, user: User, text: string, passphrase: string, tried: string, d: Draw,
                          want: int, maxAttempts: int, token: nat, ticket: Ticket)
    requires Faithful(b) && Carries(b, text) && Drawn(d) && 1 <= maxAttempts <= 20
    requires Protocol.Fits(Seal(b, text, passphrase, d).blob)
    requires passphrase == "" ==> tried == ""
    ensures var e := Seal(b, text, passphrase, d);
            var verifier := if e.kdf.Some? then Some(e.kdf.value.verifier) else None;
            var answer := Life(s, user, e.blob, want, verifier, maxAttempts, token, ticket, Sent(b, e, tried));
            if tried == passphrase
            then answer.Bytes_? && OpenEnvelope(b, answer.data, e.linkKey, tried) == Some(text)
            else answer.WrongPassphrase? || answer.DestroyedNow?
  {
    var e := Seal(b, text, passphrase, d);
    var verifier := if e.kdf.Some? then Some(e.kdf.value.verifier) else None;
    CheckIsExact(b, text, passphrase, tried, d);
    LifeAnswers(s, user, e.blob, want, verifier, maxAttempts, token, ticket, Sent(b, e, tried));
    OpenSealed(b, text, passphrase, tried, d);
  }

  // ------------------------------------------------- what is assumed is possible

  function Flat(p: string): (b: Bytes)
    ensures |b| == 3 * |p| + 1
  {
    if p == "" then [0]
    else
      var c := p[0] as int;
      [c / 0x1_0000 % 0x100, c / 0x100 % 0x100, c % 0x100] + Flat(p[1..])
  }

  lemma {:induction false} FlatInjective(p: string, q: string)
    requires Flat(p) == Flat(q)
    ensures p == q
  {
    assert |p| == |q|;
    if p != "" {
      assert Flat(p)[3..] == Flat(p[1..]) && Flat(q)[3..] == Flat(q[1..]);
      FlatInjective(p[1..], q[1..]);
      var c, e := p[0] as int, q[0] as int;
      assert Flat(p)[0] == Flat(q)[0] && Flat(p)[1] == Flat(q)[1] && Flat(p)[2] == Flat(q)[2];
      CodePoint(c, e);
      assert p == [p[0]] + p[1..] && q == [q[0]] + q[1..];
    }
  }

  lemma CodePoint(c: int, e: int)
    requires 0 <= c < 0x11_0000 && 0 <= e < 0x11_0000
    requires c / 0x1_0000 % 0x100 == e / 0x1_0000 % 0x100 && c / 0x100 % 0x100 == e / 0x100 % 0x100 && c % 0x100 == e % 0x100
    ensures c == e
  {
  }

  function Mark(k: Bytes): Bytes {
    if k == [] then [0] else [1, k[0]] + Mark(k[1..])
  }

  function Unmark(x: Bytes): Option<(Bytes, Bytes)> {
    if x == [] then None
    else if x[0] == 0 then Some(([], x[1..]))
    else if |x| < 2 then None
    else
      match Unmark(x[2..])
      case None => None
      case Some((k, rest)) => Some(([x[1]] + k, rest))
  }

  lemma {:induction false} UnmarkMarked(k: Bytes, rest: Bytes)
    ensures Unmark(Mark(k) + rest) == Some((k, rest))
  {
    if k == [] {
      assert ([0] + rest)[1..] == rest;
    } else {
      UnmarkMarked(k[1..], rest);
      assert (Mark(k) + rest)[2..] == Mark(k[1..]) + rest;
      assert [k[0]] + k[1..] == k;
    }
  }

  /** `Faithful` asks for nothing impossible. */
  lemma SomeBrowser() returns (b: Browser)
    ensures Faithful(b)
  {
    var web := Suite(_ => [], _ => [], _ => None, (p, _, _) => Flat(p), (_, _) => None, (k, _, pt) => Mark(k) + pt,
                     (k, _, x) => match Unmark(x) case None => None case Some((k2, pt)) => if k2 == k then Some(pt) else None,
                     _ => [], _ => "");
    b := Browser(web, _ => [], _ => None, (x, _, _) => [0] + x);
    forall k, k', iv, pt ensures web.decrypt(k', iv, web.encrypt(k, iv, pt)) == if k' == k then Some(pt) else None {
      UnmarkMarked(k, pt);
    }
    forall p, q, salt, n: nat | web.derive(p, salt, n) == web.derive(q, salt, n) ensures p == q {
      FlatInjective(p, q);
    }
    forall x, y, salt, info | b.hkdf(x, salt, info) == b.hkdf(y, salt, info) ensures x == y {
      assert ([0] + x)[1..] == x && ([0] + y)[1..] == y;
    }
  }
}
