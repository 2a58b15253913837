/** The scanner that turns the addresses in a decrypted secret into links. */
module Linkify {
  import opened Domain

  /** \s in a JavaScript regular expression. */
  predicate Space(ch: char) {
    || '\t' <= ch <= '\r' || ch == ' ' || ch == '\U{00A0}' || ch == '\U{1680}' || '\U{2000}' <= ch <= '\U{200A}'
    || ch == '\U{2028}' || ch == '\U{2029}' || ch == '\U{202F}' || ch == '\U{205F}' || ch == '\U{3000}' || ch == '\U{FEFF}'
  }

  predicate UrlChar(ch: char) {
    !Space(ch) && ch != '<' && ch != '>' && ch != '"' && ch != '\'' && ch != '`'
  }

  /** Punctuation that ends a sentence rather than an address. */
  predicate Trailing(ch: char) {
    || ch == '.' || ch == ',' || ch == ';' || ch == ':' || ch == '!' || ch == '?'
    || ch == ')' || ch == ']' || ch == '}' || ch == '\'' || ch == '"'
  }

  predicate Is(ch: char, lower: char)
    requires 'a' <= lower <= 'z'
  {
    ch == lower || ch as int + 32 == lower as int
  }

  predicate Http(text: string, i: nat) {
    i + 4 <= |text| && Is(text[i], 'h') && Is(text[i + 1], 't') && Is(text[i + 2], 't') && Is(text[i + 3], 'p')
  }

  predicate Slashes(text: string, i: nat) {
    i + 3 <= |text| && text[i] == ':' && text[i + 1] == '/' && text[i + 2] == '/'
  }

  /** https?:\/\/ at position i, in any letter case: its length, or zero. */
  function Scheme(text: string, i: nat): (n: nat)
    ensures n in {0, 7, 8} && (n > 0 ==> i + n <= |text|)
  {
    if !Http(text, i) then 0
    else if Slashes(text, i + 4) then 7
    else if i + 4 < |text| && Is(text[i + 4], 's') && Slashes(text, i + 5) then 8
    else 0
  }

  /** The longest run of address characters from i on. */
  function RunEnd(text: string, i: nat): (e: nat)
    requires i <= |text|
    ensures i <= e <= |text|
    ensures forall k :: i <= k < e ==> UrlChar(text[k])
    ensures e < |text| ==> !UrlChar(text[e])
    decreases |text| - i
  {
    if i < |text| && UrlChar(text[i]) then RunEnd(text, i + 1) else i
  }

  /** Where a match that starts at i ends, if one does. */
  function MatchEnd(text: string, i: nat): (r: Option<nat>)
    requires i <= |text|
    ensures r.Some? ==> i + 7 < r.value <= |text|
  {
    var n := Scheme(text, i);
    if n == 0 then None
    else
      var e := RunEnd(text, i + n);
      if e == i + n then None else Some(e)
  }

  /** The leftmost match at or after i. */
  function NextMatch(text: string, i: nat): (r: Option<(nat, nat)>)
    requires i <= |text|
    ensures r.Some? ==> i <= r.value.0 < r.value.1 <= |text|
    decreases |text| - i
  {
    if MatchEnd(text, i).Some? then Some((i, MatchEnd(text, i).value))
    else if i == |text| then None
    else NextMatch(text, i + 1)
  }

  /** It is a match, and there is none before it. */
  lemma {:induction false} NextIsLeftmost(text: string, i: nat)
    requires i <= |text|
    ensures var r := NextMatch(text, i);
            && (r.Some? ==> MatchEnd(text, r.value.0) == Some(r.value.1))
            && (forall k :: i <= k <= |text| && (r.Some? ==> k < r.value.0) ==> MatchEnd(text, k) == None)
    decreases |text| - i
  {
    if MatchEnd(text, i).None? && i < |text| { NextIsLeftmost(text, i + 1); }
  }

  /** raw.replace(/[.,;:!?)\]}'"]+$/, '') */
  function Strip(raw: string): (url: string)
    ensures url <= raw
    ensures url != "" ==> !Trailing(url[|url| - 1])
    ensures forall k :: |url| <= k < |raw| ==> Trailing(raw[k])
  {
    if raw != "" && Trailing(raw[|raw| - 1]) then Strip(raw[..|raw| - 1]) else raw
  }

  datatype Piece = Plain(text: string) | Link(url: string)

  function Shown(p: Piece): string {
    if p.Plain? then p.text else p.url
  }

  function Joined(out: seq<Piece>): string {
    if out == [] then "" else Joined(out[..|out| - 1]) + Shown(out[|out| - 1])
  }

  predicate SafeLink(url: string) {
    && Scheme(url, 0) > 0
    && !Trailing(url[|url| - 1])
    && forall ch :: ch in url ==> UrlChar(ch)
  }

  /** These letters start at position i, in either case. */
  predicate Reads(text: string, i: nat, word: string) {
    i + |word| <= |text|
    && forall k :: 0 <= k < |word| ==>
         text[i + k] == word[k] || ('a' <= word[k] <= 'z' && text[i + k] as int + 32 == word[k] as int)
  }

  /** A scheme is http:// or https:// and nothing else. */
  lemma SchemeIs(text: string, i: nat)
    ensures Scheme(text, i) == if Reads(text, i, "http://") then 7 else if Reads(text, i, "https://") then 8 else 0
  {
    var seven, eight := "http://", "https://";
    assert seven[0] == 'h' && seven[1] == 't' && seven[2] == 't' && seven[3] == 'p' && seven[4] == ':' && seven[5] == '/' && seven[6] == '/';
    assert eight[0] == 'h' && eight[1] == 't' && eight[2] == 't' && eight[3] == 'p' && eight[4] == 's' && eight[5] == ':' && eight[6] == '/' && eight[7] == '/';
    if Reads(text, i, seven) {
      assert text[i + 0] == text[i];
    }
  }

  lemma SchemeChars(text: string, i: nat, k: nat)
    requires Scheme(text, i) > 0 && i <= k < i + Scheme(text, i)
    ensures UrlChar(text[k])
  {
  }

  lemma RawChars(text: string, i: nat, e: nat)
    requires i <= |text| && MatchEnd(text, i) == Some(e)
    ensures forall k :: i <= k < e ==> UrlChar(text[k])
  {
    forall k | i <= k < e ensures UrlChar(text[k]) {
      if k < i + Scheme(text, i) { SchemeChars(text, i, k); }
    }
  }

  /** The slashes of the scheme are never stripped, so what is left is still an address. */
  lemma StripStops(raw: string, n: nat)
    requires 0 < n <= |raw| && raw[n - 1] == '/'
    ensures |Strip(raw)| >= n && Strip(raw)[..n] == raw[..n]
  {
  }

  lemma StillAddress(text: string, i: nat, url: string)
    requires var n := Scheme(text, i); n > 0 && |url| >= n && forall k :: 0 <= k < n ==> url[k] == text[i + k]
    ensures Scheme(url, 0) > 0
  {
  }

  lemma StripKeepsScheme(text: string, i: nat, e: nat)
    requires i <= |text| && MatchEnd(text, i) == Some(e)
    ensures SafeLink(Strip(text[i..e]))
  {
    var raw, n := text[i..e], Scheme(text, i);
    assert raw[n - 1] == text[i + n - 1] == '/';
    StripStops(raw, n);
    var url := Strip(raw);
    forall k | 0 <= k < n ensures url[k] == text[i + k] {
      assert url[..n][k] == raw[..n][k];
    }
    StillAddress(text, i, url);
    RawChars(text, i, e);
    forall k | 0 <= k < |url| ensures UrlChar(url[k]) {
      assert url[k] == raw[k] == text[i + k];
    }
  }

  /** All that was shown, in order, is the text; and every link is an http or https address
      that ends in no stripped punctuation and holds no space, quote or angle bracket. */
  ghost predicate Renders(out: seq<Piece>, text: string) {
    && Joined(out) == text
    && forall p :: p in out && p.Link? ==> SafeLink(p.url)
  }

  lemma Push(out: seq<Piece>, text: string, p: Piece)
    requires Renders(out, text) && (p.Link? ==> SafeLink(p.url))
    ensures Renders(out + [p], text + Shown(p))
  {
    assert (out + [p])[..|out|] == out;
  }

  /** The links a text gets: one for each match, found from left to right, stripped. */
  function Matches(text: string, i: nat): seq<string>
    requires i <= |text|
    decreases |text| - i
  {
    match NextMatch(text, i)
    case None => []
    case Some((start, e)) => [Strip(text[start..e])] + Matches(text, e)
  }

  function Links(out: seq<Piece>): seq<string> {
    if out == [] then [] else Links(out[..|out| - 1]) + if out[|out| - 1].Link? then [out[|out| - 1].url] else []
  }

  lemma LinksPush(out: seq<Piece>, p: Piece)
    ensures Links(out + [p]) == Links(out) + if p.Link? then [p.url] else []
  {
    assert (out + [p])[..|out|] == out;
  }

  lemma NextIsSafe(text: string, i: nat)
    requires i <= |text| && NextMatch(text, i).Some?
    ensures var (start, end) := NextMatch(text, i).value; SafeLink(Strip(text[start..end]))
  {
    NextIsLeftmost(text, i);
    StripKeepsScheme(text, NextMatch(text, i).value.0, NextMatch(text, i).value.1);
  }

  lemma MatchesNext(text: string, i: nat)
    requires i <= |text|
    ensures Matches(text, i) == match NextMatch(text, i)
                                case None => []
                                case Some((start, e)) => [Strip(text[start..e])] + Matches(text, e)
  {
  }

  /** The next value of text.matchAll(URL_RE). */
  method FindNext(text: string, last: nat) returns (next: Option<(nat, nat)>)
    requires last <= |text|
    ensures next.None? ==> Matches(text, last) == []
    ensures next.Some? ==>
              var (start, end) := next.value;
              && last <= start < end <= |text| && SafeLink(Strip(text[start..end]))
              && Matches(text, last) == [Strip(text[start..end])] + Matches(text, end)
  {
    next := NextMatch(text, last);
    MatchesNext(text, last);
    if next.Some? { NextIsSafe(text, last); }
  }

  lemma Whole(done: seq<string>, text: string, last: nat)
    requires last <= |text|
    ensures done + [] == done && text[..last] + text[last..] == text
  {
  }

  lemma Shift(done: seq<string>, url: string, left: seq<string>)
    ensures done + ([url] + left) == (done + [url]) + left
  {
  }

  method Render(text: string) returns (out: seq<Piece>)
    ensures Renders(out, text)
    ensures Links(out) == Matches(text, 0)
  {
    out := [];
    var last := 0;
    var next := FindNext(text, 0);
    while next.Some?
      invariant last <= |text| && Renders(out, text[..last])
      invariant Links(out) + Matches(text, last) == Matches(text, 0)
      invariant next.None? ==> Matches(text, last) == []
      invariant next.Some? ==>
                  var (start, end) := next.value;
                  && last <= start < end <= |text| && SafeLink(Strip(text[start..end]))
                  && Matches(text, last) == [Strip(text[start..end])] + Matches(text, end)
      decreases |text| - last
    {
      var (start, end) := next.value;
      Shift(Links(out), Strip(text[start..end]), Matches(text, end));
      out := AddMatch(out, text, last, start, end);
      last := end;
      next := FindNext(text, last);
    }
    Whole(Links(out), text, last);
    out := AddPlain(out, text[..last], text[last..]);
  }

  /** out.push(text.slice(last, start)), if there is anything to push. */
  method AddPlain(out0: seq<Piece>, before: string, text: string) returns (out: seq<Piece>)
    requires Renders(out0, before)
    ensures Renders(out, before + text) && Links(out) == Links(out0)
  {
    out := out0;
    if |text| > 0 {
      Push(out, before, Plain(text));
      LinksPush(out, Plain(text));
      out := out + [Plain(text)];
    } else {
      assert before + text == before;
    }
  }

  /** The link, and after it what was stripped. */
  method AddLink(out0: seq<Piece>, before: string, url: string, rest: string) returns (out: seq<Piece>)
    requires Renders(out0, before) && SafeLink(url)
    ensures Renders(out, before + url + rest) && Links(out) == Links(out0) + [url]
  {
    Push(out0, before, Link(url));
    LinksPush(out0, Link(url));
    out := AddPlain(out0 + [Link(url)], before + url, rest);
  }

  /** The body of the loop. */
  method AddMatch(out0: seq<Piece>, text: string, last: nat, start: nat, end: nat) returns (out: seq<Piece>)
    requires last <= start < end <= |text| && SafeLink(Strip(text[start..end]))
    requires Renders(out0, text[..last])
    ensures Renders(out, text[..end])
    ensures Links(out) == Links(out0) + [Strip(text[start..end])]
  {
    out := AddPlain(out0, text[..last], text[last..start]);
    var raw := text[start..end];
    var url := Strip(raw);
    out := AddLink(out, text[..last] + text[last..start], url, raw[|url|..]);
    Regroup(text, last, start, end, |url|);
  }

  lemma Regroup(text: string, last: nat, start: nat, end: nat, n: nat)
    requires last <= start <= end <= |text| && n <= end - start
    ensures text[..last] + text[last..start] + text[start..end][..n] + text[start..end][n..] == text[..end]
  {
  }
}
