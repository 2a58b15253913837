/** Base64 as the browser and the two servers use it: sections 4 and 5 of RFC 4648, the
    forgiving decoder behind atob, and the wrapped lines that PostgreSQL's encode() prints. */
module Base64 {
  import opened Domain

  type Digit = d: int | 0 <= d < 64

  predicate Letter(ch: char) {
    'A' <= ch <= 'Z' || 'a' <= ch <= 'z' || '0' <= ch <= '9'
  }

  function Char(d: Digit): (ch: char)
    ensures Letter(ch) || ch == '+' || ch == '/'
  {
    if d < 26 then ('A' as int + d) as char
    else if d < 52 then ('a' as int + (d - 26)) as char
    else if d < 62 then ('0' as int + (d - 52)) as char
    else if d == 62 then '+' else '/'
  }

  function Value(ch: char): Option<Digit> {
    if 'A' <= ch <= 'Z' then Some(ch as int - 'A' as int)
    else if 'a' <= ch <= 'z' then Some(ch as int - 'a' as int + 26)
    else if '0' <= ch <= '9' then Some(ch as int - '0' as int + 52)
    else if ch == '+' then Some(62) else if ch == '/' then Some(63) else None
  }

  lemma CharValue(d: Digit)
    ensures Value(Char(d)) == Some(d)
  {
  }

  // --------------------------------------------------------- bytes to six-bit digits

  function Digit0(a: int): Digit
    requires 0 <= a < 256
  {
    a / 4
  }

  function Digit1(a: int, b: int): Digit
    requires 0 <= a < 256 && 0 <= b < 256
  {
    a % 4 * 16 + b / 16
  }

  function Digit2(b: int, c: int): Digit
    requires 0 <= b < 256 && 0 <= c < 256
  {
    b % 16 * 4 + c / 64
  }

  function Digits(b: Bytes): seq<Digit> {
    if b == [] then []
    else if |b| == 1 then [Digit0(b[0]), Digit1(b[0], 0)]
    else if |b| == 2 then [Digit0(b[0]), Digit1(b[0], b[1]), Digit2(b[1], 0)]
    else [Digit0(b[0]), Digit1(b[0], b[1]), Digit2(b[1], b[2]), b[2] % 64] + Digits(b[3..])
  }

  function Byte0(p: int, q: int): byte
    requires 0 <= p < 64 && 0 <= q < 64
  {
    p * 4 + q / 16
  }

  function Byte1(q: int, r: int): byte
    requires 0 <= q < 64 && 0 <= r < 64
  {
    q % 16 * 16 + r / 4
  }

  function Byte2(r: int, t: int): byte
    requires 0 <= r < 64 && 0 <= t < 64
  {
    r % 4 * 64 + t
  }

  /** Left-over bits are dropped; a single left-over digit is an error. */
  function Undigits(d: seq<Digit>): Option<Bytes> {
    if d == [] then Some([])
    else if |d| == 1 then None
    else if |d| == 2 then Some([Byte0(d[0], d[1])])
    else if |d| == 3 then Some([Byte0(d[0], d[1]), Byte1(d[1], d[2])])
    else
      match Undigits(d[4..])
      case None => None
      case Some(rest) => Some([Byte0(d[0], d[1]), Byte1(d[1], d[2]), Byte2(d[2], d[3])] + rest)
  }

  lemma ThreeBack(a: byte, b: byte, c: byte)
    ensures Byte0(Digit0(a), Digit1(a, b)) == a
    ensures Byte1(Digit1(a, b), Digit2(b, c)) == b
    ensures Byte2(Digit2(b, c), c % 64) == c
  {
  }

  lemma UndigitsTwo(p: Digit, q: Digit)
    ensures Undigits([p, q]) == Some([Byte0(p, q)])
  {
  }

  lemma UndigitsThree(p: Digit, q: Digit, r: Digit)
    ensures Undigits([p, q, r]) == Some([Byte0(p, q), Byte1(q, r)])
  {
  }

  lemma OneBack(a: byte)
    ensures Undigits(Digits([a])) == Some([a])
  {
    ThreeBack(a, 0, 0);
    UndigitsTwo(Digit0(a), Digit1(a, 0));
  }

  lemma TwoBack(a: byte, b: byte)
    ensures Undigits(Digits([a, b])) == Some([a, b])
  {
    ThreeBack(a, b, 0);
    UndigitsThree(Digit0(a), Digit1(a, b), Digit2(b, 0));
  }

  lemma {:induction false} DigitsBack(b: Bytes)
    ensures Undigits(Digits(b)) == Some(b)
  {
    if |b| > 2 {
      ThreeBack(b[0], b[1], b[2]);
      DigitsBack(b[3..]);
      assert Digits(b)[4..] == Digits(b[3..]);
      assert [b[0], b[1], b[2]] + b[3..] == b;
    } else if |b| == 2 {
      TwoBack(b[0], b[1]);
      assert b == [b[0], b[1]];
    } else if |b| == 1 {
      OneBack(b[0]);
      assert b == [b[0]];
    }
  }

  lemma {:induction false} DigitsLength(b: Bytes)
    ensures |Digits(b)| % 4 == (if |b| % 3 == 0 then 0 else |b| % 3 + 1)
  {
    if |b| > 2 {
      DigitsLength(b[3..]);
      DigitsStep(b);
    }
  }

  lemma DigitsStep(b: Bytes)
    requires |b| > 2
    ensures |Digits(b)| == 4 + |Digits(b[3..])|
  {
  }

  // ------------------------------------------------------------------- characters

  function Chars(d: seq<Digit>): (s: string)
    ensures |s| == |d|
  {
    if d == [] then "" else [Char(d[0])] + Chars(d[1..])
  }

  function Values(s: string): Option<seq<Digit>> {
    if s == "" then Some([])
    else if Value(s[0]).None? then None
    else
      match Values(s[1..])
      case None => None
      case Some(rest) => Some([Value(s[0]).value] + rest)
  }

  lemma {:induction false} CharsBack(d: seq<Digit>)
    ensures Values(Chars(d)) == Some(d)
  {
    if d != [] {
      CharValue(d[0]);
      CharsBack(d[1..]);
      assert [d[0]] + d[1..] == d;
    }
  }

  lemma {:induction false} CharsPlain(d: seq<Digit>)
    ensures forall ch :: ch in Chars(d) ==> Letter(ch) || ch == '+' || ch == '/'
  {
    if d != [] { CharsPlain(d[1..]); }
  }

  function Pads(n: nat): string {
    if n % 4 == 2 then "==" else if n % 4 == 3 then "=" else ""
  }

  /** btoa, and b64encode on the server. */
  function ToB64(b: Bytes): string {
    Chars(Digits(b)) + Pads(|Digits(b)|)
  }

  predicate Space(ch: char) {
    ch == ' ' || ch == '\t' || ch == '\n' || ch == '\r' || ch == '\U{000C}'
  }

  function StripSpace(s: string): string {
    if s == "" then "" else (if Space(s[0]) then "" else [s[0]]) + StripSpace(s[1..])
  }

  /** Up to two '=' at the end, and only when the length is a multiple of four. */
  function Unpad(s: string): string {
    if |s| % 4 != 0 || s == "" || s[|s| - 1] != '=' then s
    else if s[|s| - 2] != '=' then s[..|s| - 1] else s[..|s| - 2]
  }

  /** atob: None where it throws. */
  function FromB64(s: string): Option<Bytes> {
    match Values(Unpad(StripSpace(s)))
    case None => None
    case Some(d) => Undigits(d)
  }

  lemma {:induction false} NothingToStrip(s: string)
    requires forall ch :: ch in s ==> !Space(ch)
    ensures StripSpace(s) == s
  {
    if s != "" {
      NothingToStrip(s[1..]);
      assert [s[0]] + s[1..] == s;
    }
  }

  lemma UnpadPads(s: string)
    requires forall ch :: ch in s ==> ch != '='
    requires |s| % 4 != 1
    ensures Unpad(s + Pads(|s|)) == s && Unpad(s) == s
  {
    var t := s + Pads(|s|);
    if |s| % 4 == 2 {
      assert t[|t| - 1] == '=' && t[|t| - 2] == '=' && t[..|t| - 2] == s;
    } else if |s| % 4 == 3 {
      assert t[|t| - 1] == '=' && t[|t| - 2] == s[|s| - 1] && s[|s| - 1] in s && t[..|t| - 1] == s;
    } else {
      assert t == s;
      if s != "" { assert s[|s| - 1] in s; }
    }
  }

  lemma Decodes(text: string, s: string, d: seq<Digit>, b: Bytes)
    requires StripSpace(text) == text && Unpad(text) == s && Values(s) == Some(d) && Undigits(d) == Some(b)
    ensures FromB64(text) == Some(b)
  {
  }

  lemma TextOf(b: Bytes)
    ensures var s := Chars(Digits(b));
            && Values(s) == Some(Digits(b)) && |s| % 4 != 1
            && forall ch :: ch in s ==> ch != '=' && !Space(ch)
  {
    CharsBack(Digits(b));
    CharsPlain(Digits(b));
    DigitsLength(b);
  }

  /** Whatever the bytes, they come back: with the padding, and without it. */
  lemma RoundTrip(b: Bytes)
    ensures FromB64(ToB64(b)) == Some(b)
    ensures FromB64(Chars(Digits(b))) == Some(b)
  {
    var s := Chars(Digits(b));
    TextOf(b);
    DigitsBack(b);
    UnpadPads(s);
    NothingToStrip(s);
    NothingToStrip(s + Pads(|s|));
    Decodes(s, s, Digits(b), b);
    Decodes(s + Pads(|s|), s, Digits(b), b);
  }

  predicate Foreign(ch: char) {
    !Letter(ch) && ch != '+' && ch != '/' && ch != '=' && !Space(ch)
  }

  lemma {:induction false} ForeignStays(s: string, k: nat)
    requires k < |s| && Foreign(s[k])
    ensures exists i :: 0 <= i < |StripSpace(s)| && Foreign(StripSpace(s)[i])
  {
    var rest := StripSpace(s[1..]);
    if k == 0 {
      assert StripSpace(s)[0] == s[0];
    } else {
      ForeignStays(s[1..], k - 1);
      var i :| 0 <= i < |rest| && Foreign(rest[i]);
      assert StripSpace(s)[if Space(s[0]) then i else i + 1] == rest[i];
    }
  }

  lemma {:induction false} ForeignFails(s: string, k: nat)
    requires k < |s| && Value(s[k]).None?
    ensures Values(s).None?
  {
    if k > 0 { ForeignFails(s[1..], k - 1); }
  }

  /** A text with any character that is not base64, padding or white space is refused. */
  lemma Refuses(s: string, k: nat)
    requires k < |s| && Foreign(s[k])
    ensures FromB64(s) == None
  {
    ForeignStays(s, k);
    var t := StripSpace(s);
    var i :| 0 <= i < |t| && Foreign(t[i]);
    assert Unpad(t) <= t && i < |Unpad(t)|;
    ForeignFails(Unpad(t), i);
  }

  // ------------------------------------------------- what the texts look like

  /** The alphabet: A to Z, a to z, 0 to 9, plus and slash, in this order. */
  lemma CharRuns(d: Digit)
    ensures Char(0) == 'A' && Char(26) == 'a' && Char(52) == '0' && Char(62) == '+' && Char(63) == '/'
    ensures d < 61 && d != 25 && d != 51 ==> Char(d + 1) as int == Char(d) as int + 1
  {
  }

  /** Three bytes and their four digits are one number, most significant first. */
  lemma GroupIsNumber(a: byte, b: byte, c: byte)
    ensures var d := Digits([a, b, c]);
            && |d| == 4
            && (d[0] as int) * 262144 + (d[1] as int) * 4096 + (d[2] as int) * 64 + d[3] as int
               == (a as int) * 65536 + (b as int) * 256 + c as int
  {
    assert [a, b, c][3..] == [];
    assert Digits([a, b, c]) == [Digit0(a), Digit1(a, b), Digit2(b, c), c % 64];
  }

  /** From the test vectors of RFC 4648, section 10. */
  lemma Vectors()
    ensures ToB64([0x66]) == "Zg==" && ToB64([0x66, 0x6f]) == "Zm8=" && ToB64([0x66, 0x6f, 0x6f]) == "Zm9v"
  {
    assert [0x66, 0x6f, 0x6f][3..] == [];
    CharsOf(25, 32, 0, 0);
    CharsOf(25, 38, 60, 0);
    CharsOf(25, 38, 61, 47);
  }

  lemma CharsOf(p: Digit, q: Digit, r: Digit, t: Digit)
    ensures Chars([p, q]) == [Char(p), Char(q)] && Chars([p, q, r]) == [Char(p), Char(q), Char(r)]
    ensures Chars([p, q, r, t]) == [Char(p), Char(q), Char(r), Char(t)]
  {
    CharsCons(q, []);
    CharsCons(p, [q]);
    CharsCons(r, []);
    CharsCons(q, [r]);
    CharsCons(p, [q, r]);
    CharsCons(t, []);
    CharsCons(r, [t]);
    CharsCons(q, [r, t]);
    CharsCons(p, [q, r, t]);
    assert [p] + [q] == [p, q] && [q] + [r] == [q, r] && [p] + [q, r] == [p, q, r];
    assert [r] + [t] == [r, t] && [q] + [r, t] == [q, r, t] && [p] + [q, r, t] == [p, q, r, t];
  }

  lemma CharsCons(p: Digit, rest: seq<Digit>)
    ensures Chars([p] + rest) == [Char(p)] + Chars(rest)
  {
    assert ([p] + rest)[1..] == rest;
  }

  lemma ToB64Injective(a: Bytes, b: Bytes)
    requires ToB64(a) == ToB64(b)
    ensures a == b
  {
    RoundTrip(a);
    RoundTrip(b);
  }

  // -------------------------------------------------------- the URL-safe alphabet

  function Replace(s: string, from: char, to: char): string {
    if s == "" then "" else [if s[0] == from then to else s[0]] + Replace(s[1..], from, to)
  }

  /** .replace(/=+$/, '') */
  function Trim(s: string): string {
    if s != "" && s[|s| - 1] == '=' then Trim(s[..|s| - 1]) else s
  }

  function ToB64Url(b: Bytes): string {
    Trim(Replace(Replace(ToB64(b), '+', '-'), '/', '_'))
  }

  function FromB64Url(s: string): Option<Bytes> {
    FromB64(Replace(Replace(s, '-', '+'), '_', '/'))
  }

  lemma {:induction false} ReplaceAppends(s: string, t: string, from: char, to: char)
    ensures Replace(s + t, from, to) == Replace(s, from, to) + Replace(t, from, to)
  {
    if s == "" {
      assert s + t == t;
    } else {
      ReplaceAppends(s[1..], t, from, to);
      assert (s + t)[1..] == s[1..] + t;
    }
  }

  lemma {:induction false} ReplaceFree(s: string, from: char, to: char)
    requires from !in s
    ensures Replace(s, from, to) == s
  {
    if s != "" {
      ReplaceFree(s[1..], from, to);
      assert [s[0]] + s[1..] == s;
    }
  }

  function ToUrl(s: string): string {
    Replace(Replace(s, '+', '-'), '/', '_')
  }

  function FromUrl(s: string): string {
    Replace(Replace(s, '-', '+'), '_', '/')
  }

  lemma {:induction false} UrlBack(s: string)
    requires forall ch :: ch in s ==> Letter(ch) || ch == '+' || ch == '/'
    ensures FromUrl(ToUrl(s)) == s
    ensures forall ch :: ch in ToUrl(s) ==> Letter(ch) || ch == '-' || ch == '_'
  {
    if s != "" {
      UrlBack(s[1..]);
      assert [s[0]] + s[1..] == s;
      var u := if s[0] == '+' then '-' else if s[0] == '/' then '_' else s[0];
      ToUrlStep(s[0], s[1..]);
      assert ToUrl(s) == [u] + ToUrl(s[1..]);
      assert s[0] in s;
      FromUrlStep(u, ToUrl(s[1..]));
    }
  }

  lemma ToUrlStep(ch: char, s: string)
    ensures ToUrl([ch] + s) == [if ch == '+' then '-' else if ch == '/' then '_' else ch] + ToUrl(s)
  {
    assert ([ch] + s)[1..] == s;
    assert Replace([ch] + s, '+', '-') == [if ch == '+' then '-' else ch] + Replace(s, '+', '-');
    assert ([if ch == '+' then '-' else ch] + Replace(s, '+', '-'))[1..] == Replace(s, '+', '-');
  }

  lemma FromUrlStep(ch: char, s: string)
    ensures FromUrl([ch] + s) == [if ch == '-' then '+' else if ch == '_' then '/' else ch] + FromUrl(s)
  {
    assert ([ch] + s)[1..] == s;
    assert Replace([ch] + s, '-', '+') == [if ch == '-' then '+' else ch] + Replace(s, '-', '+');
    assert ([if ch == '-' then '+' else ch] + Replace(s, '-', '+'))[1..] == Replace(s, '-', '+');
  }

  lemma {:induction false} TrimPads(s: string, pads: string)
    requires forall ch :: ch in s ==> ch != '='
    requires forall ch :: ch in pads ==> ch == '='
    ensures Trim(s + pads) == s
  {
    if pads == "" {
      assert s + pads == s;
      if s != "" { assert s[|s| - 1] in s; }
    } else {
      var t := s + pads;
      var fewer := pads[..|pads| - 1];
      assert t[|t| - 1] == pads[|pads| - 1] && pads[|pads| - 1] in pads;
      assert t[..|t| - 1] == s + fewer;
      assert forall ch :: ch in fewer ==> ch in pads;
      TrimPads(s, fewer);
    }
  }

  lemma PadsAreUrl(n: nat)
    ensures ToUrl(Pads(n)) == Pads(n)
  {
    ReplaceFree(Pads(n), '+', '-');
    ReplaceFree(Pads(n), '/', '_');
  }

  /** The key in a link's fragment: letters, digits, '-' and '_' only, and the bytes come back. */
  lemma UrlRoundTrip(b: Bytes)
    ensures FromB64Url(ToB64Url(b)) == Some(b)
    ensures forall ch :: ch in ToB64Url(b) ==> Letter(ch) || ch == '-' || ch == '_'
  {
    var s, pads := Chars(Digits(b)), Pads(|Digits(b)|);
    CharsPlain(Digits(b));
    UrlBack(s);
    PadsAreUrl(|Digits(b)|);
    ReplaceAppends(s, pads, '+', '-');
    ReplaceAppends(Replace(s, '+', '-'), Replace(pads, '+', '-'), '/', '_');
    TrimPads(ToUrl(s), pads);
    RoundTrip(b);
  }

  // ------------------------------------- the pinned key as the requests page compares it

  /** PostgreSQL's encode(..., 'base64') breaks its text every 76 characters. */
  function Wrapped(s: string): string {
    if |s| <= 76 then s else s[..76] + "\n" + Wrapped(s[76..])
  }

  lemma {:induction false} StripAppends(s: string, t: string)
    ensures StripSpace(s + t) == StripSpace(s) + StripSpace(t)
  {
    if s == "" {
      assert s + t == t;
    } else {
      StripAppends(s[1..], t);
      assert (s + t)[1..] == s[1..] + t;
    }
  }

  lemma StripBreak(line: string, rest: string)
    ensures StripSpace(line + ("\n" + rest)) == StripSpace(line) + StripSpace(rest)
  {
    StripAppends(line, "\n" + rest);
    assert ("\n" + rest)[1..] == rest;
    assert "" + StripSpace(rest) == StripSpace(rest);
  }

  lemma WrappedStep(s: string)
    requires |s| > 76
    ensures Wrapped(s) == s[..76] + ("\n" + Wrapped(s[76..]))
  {
  }

  lemma {:induction false} StripWrapped(s: string)
    requires forall ch :: ch in s ==> !Space(ch)
    ensures StripSpace(Wrapped(s)) == s
  {
    if |s| <= 76 {
      NothingToStrip(s);
    } else {
      StripWrapped(s[76..]);
      NothingToStrip(s[..76]);
      StripBreak(s[..76], Wrapped(s[76..]));
      WrappedStep(s);
      assert s[..76] + s[76..] == s;
    }
  }

  /** The page compares two texts: the pinned key as PostgreSQL prints it, with its white space
      removed, and its own key. The texts are equal exactly when the keys are; without the
      removal no key of a P-256 point's length would ever match. */
  lemma SameKeyText(pinned: Bytes, mine: Bytes)
    ensures StripSpace(Wrapped(ToB64(pinned))) == ToB64(mine) <==> pinned == mine
    ensures |pinned| == 65 ==> Wrapped(ToB64(pinned)) != ToB64(mine)
  {
    NoSpace(pinned);
    NoSpace(mine);
    StripWrapped(ToB64(pinned));
    if StripSpace(Wrapped(ToB64(pinned))) == ToB64(mine) { ToB64Injective(pinned, mine); }
    if |pinned| == 65 {
      DigitsCount(pinned);
      var w := Wrapped(ToB64(pinned));
      assert w[76] == '\n' && w[76] in w;
    }
  }

  lemma NoSpace(b: Bytes)
    ensures forall ch :: ch in ToB64(b) ==> !Space(ch)
  {
    CharsPlain(Digits(b));
  }

  lemma {:induction false} DigitsCount(b: Bytes)
    ensures |Digits(b)| * 3 >= |b| * 4
  {
    if |b| > 2 { DigitsCount(b[3..]); }
  }

  // --------------------------------------------------------------------- the loops

  /** The binary string that toB64 hands to btoa. */
  function Binary(b: Bytes): string {
    if b == [] then "" else Binary(b[..|b| - 1]) + [b[|b| - 1] as char]
  }

  method ToBinary(bytes: Bytes) returns (s: string)
    ensures s == Binary(bytes)
  {
    s := "";
    for i := 0 to |bytes|
      invariant s == Binary(bytes[..i])
    {
      assert bytes[..i + 1][..i] == bytes[..i];
      s := s + [bytes[i] as char];
    }
    assert bytes[..|bytes|] == bytes;
  }

  /** The loop of fromB64, over the binary string that atob returns. */
  method FromBinary(s: string) returns (out: array<byte>)
    requires forall i :: 0 <= i < |s| ==> s[i] as int < 256
    ensures fresh(out) && out.Length == |s|
    ensures Binary(out[..]) == s
  {
    out := new byte[|s|];
    for i := 0 to |s|
      invariant Binary(out[..i]) == s[..i]
    {
      out[i] := s[i] as int;
      assert out[..i + 1][..i] == out[..i];
      assert s[..i + 1] == s[..i] + [s[i]];
    }
    assert out[..|s|] == out[..] && s[..|s|] == s;
  }

  /** So the two loops undo each other: equal binary strings are equal bytes. */
  lemma {:induction false} BinaryInjective(a: Bytes, b: Bytes)
    requires Binary(a) == Binary(b)
    ensures a == b
  {
    BinaryLength(a);
    BinaryLength(b);
    if a != [] {
      var x, y := Binary(a), Binary(b);
      var x0, y0 := Binary(a[..|a| - 1]), Binary(b[..|b| - 1]);
      BinaryLength(a[..|a| - 1]);
      BinaryLength(b[..|b| - 1]);
      assert x[..|a| - 1] == x0 && y[..|b| - 1] == y0 && x[|a| - 1] == y[|b| - 1];
      BinaryInjective(a[..|a| - 1], b[..|b| - 1]);
      assert a == a[..|a| - 1] + [a[|a| - 1]] && b == b[..|b| - 1] + [b[|b| - 1]];
    }
  }

  lemma {:induction false} BinaryLength(b: Bytes)
    ensures |Binary(b)| == |b|
  {
    if b != [] { BinaryLength(b[..|b| - 1]); }
  }
}
