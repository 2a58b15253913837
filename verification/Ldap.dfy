/** The directory search of a sign-in: the filter that is printed from what was typed, read
    back by the grammar of RFC 4515, and the choice among what the directory returns. */
module Ldap {
  import opened Domain

  const BIT_AND := "1.2.840.113556.1.4.803"
  const IN_CHAIN := "1.2.840.113556.1.4.1941"
  const UAC_DISABLED := "2"

  // -------------------------------------------------------------------- escaping

  predicate Special(ch: char) {
    ch == '\\' || ch == '*' || ch == '(' || ch == ')' || ch == '\0' || ch == '/'
  }

  function HexDigit(n: nat): char
    requires n < 16
  {
    if n < 10 then ('0' as nat + n) as char else ('a' as nat + (n - 10)) as char
  }

  function HexValue(ch: char): Option<nat> {
    if '0' <= ch <= '9' then Some(ch as nat - '0' as nat)
    else if 'a' <= ch <= 'f' then Some(ch as nat - 'a' as nat + 10)
    else if 'A' <= ch <= 'F' then Some(ch as nat - 'A' as nat + 10)
    else None
  }

  /** A backslash and two hexadecimal digits for a special character, all of which are ASCII. */
  function EscChar(ch: char): string {
    if Special(ch) then ['\\', HexDigit(ch as nat % 256 / 16), HexDigit(ch as nat % 16)] else [ch]
  }

  function Esc(value: string): string {
    if value == "" then "" else EscChar(value[0]) + Esc(value[1..])
  }

  /** Six characters are escaped, by these codes, and no other. */
  lemma EscSpelled(ch: char)
    ensures EscChar(ch) == if ch == '\\' then "\\5c" else if ch == '*' then "\\2a" else if ch == '(' then "\\28"
                           else if ch == ')' then "\\29" else if ch == '\0' then "\\00" else if ch == '/' then "\\2f" else [ch]
  {
  }

  lemma Grouped(x: string, y: string, z: string)
    ensures x + (y + z) == (x + y) + z
  {
  }

  lemma {:induction false} EscAppends(value: string, ch: char)
    ensures Esc(value + [ch]) == Esc(value) + EscChar(ch)
  {
    if value == "" {
      assert "" + [ch] == [ch] && Esc([ch]) == EscChar(ch) + Esc("");
    } else {
      EscAppends(value[1..], ch);
      assert (value + [ch])[1..] == value[1..] + [ch];
      Grouped(EscChar(value[0]), Esc(value[1..]), EscChar(ch));
    }
  }

  method EscLoop(value: string) returns (out: string)
    ensures out == Esc(value)
  {
    out := "";
    for i := 0 to |value|
      invariant out == Esc(value[..i])
    {
      EscAppends(value[..i], value[i]);
      assert value[..i + 1] == value[..i] + [value[i]];
      out := out + EscChar(value[i]);
    }
    assert value[..|value|] == value;
  }

  // ------------------------------------- filters, printed and read (RFC 4515, section 3)

  datatype Filter =
    | And(parts: seq<Filter>)
    | Or(parts: seq<Filter>)
    | Not(part: Filter)
    | Equals(attr: string, value: string)
    | Extended(attr: string, rule: string, value: string)

  function Print(f: Filter): string {
    match f
    case And(parts) => "(&" + PrintAll(parts) + ")"
    case Or(parts) => "(|" + PrintAll(parts) + ")"
    case Not(part) => "(!" + Print(part) + ")"
    case Equals(attr, value) => Simple(attr, Esc(value))
    case Extended(attr, rule, value) => Extensible(attr, rule, Esc(value))
  }

  /** Two kinds of item, around a value that is escaped already. */
  function Simple(attr: string, text: string): string {
    "(" + attr + "=" + text + ")"
  }

  function Extensible(attr: string, rule: string, text: string): string {
    "(" + attr + ":" + rule + ":=" + text + ")"
  }

  function PrintAll(parts: seq<Filter>): string {
    if parts == [] then "" else Print(parts[0]) + PrintAll(parts[1..])
  }

  predicate NameChar(ch: char) {
    'a' <= ch <= 'z' || 'A' <= ch <= 'Z' || '0' <= ch <= '9' || ch == '-' || ch == '.' || ch == ';'
  }

  /** The longest name at the front. */
  function ReadName(s: string): (r: (string, string))
    ensures r.0 + r.1 == s
  {
    if s != "" && NameChar(s[0]) then
      var (name, rest) := ReadName(s[1..]);
      ([s[0]] + name, rest)
    else ("", s)
  }

  /** An assertion value up to the closing parenthesis: ordinary characters stand for
      themselves, an escape for its octet. NUL, '(' and '*' must be escaped; an octet that
      is not ASCII is not part of this model. */
  function ReadValue(s: string): (r: Option<(string, string)>)
    ensures r.Some? ==> |r.value.1| <= |s|
  {
    if s == "" || s[0] == '(' || s[0] == '*' || s[0] == '\0' then None
    else if s[0] == ')' then Some(("", s))
    else if s[0] == '\\' then
      if |s| < 3 || HexValue(s[1]).None? || HexValue(s[2]).None? || HexValue(s[1]).value >= 8 then None
      else
        match ReadValue(s[3..])
        case None => None
        case Some((value, rest)) => Some(([(HexValue(s[1]).value * 16 + HexValue(s[2]).value) as char] + value, rest))
    else
      match ReadValue(s[1..])
      case None => None
      case Some((value, rest)) => Some(([s[0]] + value, rest))
  }

  /** One filter at the front, and what follows it. */
  function ReadFilter(s: string): (r: Option<(Filter, string)>)
    ensures r.Some? ==> |r.value.1| < |s|
    decreases |s|, 0
  {
    if |s| < 2 || s[0] != '(' then None
    else if s[1] == '&' || s[1] == '|' then
      match ReadList(s[2..])
      case None => None
      case Some((parts, rest)) =>
        if parts != [] && rest != "" && rest[0] == ')'
        then Some((if s[1] == '&' then And(parts) else Or(parts), rest[1..])) else None
    else if s[1] == '!' then
      match ReadFilter(s[2..])
      case None => None
      case Some((part, rest)) => if rest != "" && rest[0] == ')' then Some((Not(part), rest[1..])) else None
    else ReadItem(s)
  }

  function ReadList(s: string): (r: Option<(seq<Filter>, string)>)
    ensures r.Some? ==> |r.value.1| <= |s|
    decreases |s|, 1
  {
    if s == "" || s[0] != '(' then Some(([], s))
    else
      match ReadFilter(s)
      case None => None
      case Some((part, rest)) =>
        match ReadList(rest)
        case None => None
        case Some((parts, after)) => Some(([part] + parts, after))
  }

  function ReadItem(s: string): (r: Option<(Filter, string)>)
    requires s != ""
    ensures r.Some? ==> |r.value.1| < |s|
  {
    var (attr, rest) := ReadName(s[1..]);
    assert |rest| < |s|;
    if attr == "" || rest == "" then None
    else if rest[0] == '=' then ReadSimple(attr, rest[1..])
    else if rest[0] == ':' then ReadRule(attr, rest[1..])
    else None
  }

  /** The value of an equality match. */
  function ReadSimple(attr: string, s: string): (r: Option<(Filter, string)>)
    ensures r.Some? ==> |r.value.1| <= |s|
  {
    match ReadValue(s)
    case None => None
    case Some((value, after)) => if after != "" then Some((Equals(attr, value), after[1..])) else None
  }

  /** The matching rule and the value of an extensible match. */
  function ReadRule(attr: string, s: string): (r: Option<(Filter, string)>)
    ensures r.Some? ==> |r.value.1| < |s|
  {
    var (rule, tail) := ReadName(s);
    assert |tail| <= |s|;
    if rule == "" || |tail| < 2 || tail[..2] != ":=" then None
    else
      match ReadValue(tail[2..])
      case None => None
      case Some((value, after)) => if after != "" then Some((Extended(attr, rule, value), after[1..])) else None
  }

  // -------------------------------------------------------------- the round trip

  predicate Name(s: string) {
    s != "" && forall ch :: ch in s ==> NameChar(ch)
  }

  predicate Formed(f: Filter) {
    match f
    case And(parts) => parts != [] && forall p :: p in parts ==> Formed(p)
    case Or(parts) => parts != [] && forall p :: p in parts ==> Formed(p)
    case Not(part) => Formed(part)
    case Equals(attr, _) => Name(attr)
    case Extended(attr, rule, _) => Name(attr) && Name(rule)
  }

  lemma HexBack(n: nat)
    requires n < 16
    ensures HexValue(HexDigit(n)) == Some(n)
  {
  }

  lemma EscapeReads(h: char, l: char, s: string)
    requires HexValue(h).Some? && HexValue(h).value < 8 && HexValue(l).Some? && ReadValue(s).Some?
    ensures ReadValue(['\\', h, l] + s)
         == Some(([(HexValue(h).value * 16 + HexValue(l).value) as char] + ReadValue(s).value.0, ReadValue(s).value.1))
  {
    assert (['\\', h, l] + s)[3..] == s;
  }

  lemma CodeBack(ch: char)
    requires Special(ch)
    ensures ch as nat % 256 / 16 == ch as nat / 16 < 8
    ensures (ch as nat / 16 * 16 + ch as nat % 16) as char == ch
  {
  }

  lemma SpecialReads(ch: char, s: string)
    requires Special(ch) && ReadValue(s).Some?
    ensures ReadValue(EscChar(ch) + s) == Some(([ch] + ReadValue(s).value.0, ReadValue(s).value.1))
  {
    CodeBack(ch);
    HexBack(ch as nat / 16);
    HexBack(ch as nat % 16);
    EscapeReads(HexDigit(ch as nat / 16), HexDigit(ch as nat % 16), s);
  }

  lemma PlainReads(ch: char, s: string)
    requires !Special(ch) && ReadValue(s).Some?
    ensures ReadValue([ch] + s) == Some(([ch] + ReadValue(s).value.0, ReadValue(s).value.1))
  {
    assert ([ch] + s)[1..] == s;
  }

  lemma EscCharReads(ch: char, s: string)
    requires ReadValue(s).Some?
    ensures ReadValue(EscChar(ch) + s) == Some(([ch] + ReadValue(s).value.0, ReadValue(s).value.1))
  {
    if Special(ch) { SpecialReads(ch, s); } else { PlainReads(ch, s); }
  }

  /** Whatever is typed reads back as one value, up to its own closing parenthesis. */
  lemma {:induction false} EscReads(value: string, rest: string)
    requires rest != "" && rest[0] == ')'
    ensures ReadValue(Esc(value) + rest) == Some((value, rest))
  {
    if value == "" {
      assert "" + rest == rest;
    } else {
      EscReads(value[1..], rest);
      EscCharReads(value[0], Esc(value[1..]) + rest);
      assert EscChar(value[0]) + (Esc(value[1..]) + rest) == Esc(value) + rest;
      assert [value[0]] + value[1..] == value;
    }
  }

  lemma EscInjective(a: string, b: string)
    requires Esc(a) == Esc(b)
    ensures a == b
  {
    EscReads(a, ")");
    EscReads(b, ")");
  }

  lemma {:induction false} NameReads(name: string, rest: string)
    requires forall ch :: ch in name ==> NameChar(ch)
    requires rest != "" && !NameChar(rest[0])
    ensures ReadName(name + rest) == (name, rest)
  {
    if name == "" {
      assert "" + rest == rest;
    } else {
      NameReads(name[1..], rest);
      assert (name + rest)[1..] == name[1..] + rest;
      assert [name[0]] + name[1..] == name;
    }
  }

  lemma SimpleText(attr: string, text: string, rest: string)
    ensures Simple(attr, text) + rest == "(" + (attr + ("=" + (text + (")" + rest))))
  {
  }

  lemma ExtendedText(attr: string, rule: string, text: string, rest: string)
    ensures Extensible(attr, rule, text) + rest == "(" + (attr + (":" + (rule + (":=" + text + ")" + rest))))
  {
  }

  lemma SimpleReads(attr: string, value: string, rest: string)
    ensures ReadSimple(attr, Esc(value) + (")" + rest)) == Some((Equals(attr, value), rest))
  {
    EscReads(value, ")" + rest);
    assert (")" + rest)[1..] == rest;
  }

  lemma EqualsReads(attr: string, value: string, rest: string)
    requires Name(attr)
    ensures ReadFilter(Print(Equals(attr, value)) + rest) == Some((Equals(attr, value), rest))
  {
    var tail := Esc(value) + (")" + rest);
    var s := "(" + (attr + ("=" + tail));
    SimpleText(attr, Esc(value), rest);
    assert s[1..] == attr + ("=" + tail) && NameChar(s[1]);
    NameReads(attr, "=" + tail);
    assert ("=" + tail)[1..] == tail;
    SimpleReads(attr, value, rest);
  }

  lemma RuleReads(attr: string, rule: string, value: string, rest: string)
    requires Name(rule)
    ensures ReadRule(attr, rule + (":=" + Esc(value) + ")" + rest)) == Some((Extended(attr, rule, value), rest))
  {
    var tail := ":=" + Esc(value) + ")" + rest;
    NameReads(rule, tail);
    assert tail[..2] == ":=" && tail[2..] == Esc(value) + (")" + rest);
    EscReads(value, ")" + rest);
    assert (")" + rest)[1..] == rest;
  }

  lemma ExtendedReads(attr: string, rule: string, value: string, rest: string)
    requires Name(attr) && Name(rule)
    ensures ReadFilter(Print(Extended(attr, rule, value)) + rest) == Some((Extended(attr, rule, value), rest))
  {
    var tail := rule + (":=" + Esc(value) + ")" + rest);
    var s := "(" + (attr + (":" + tail));
    ExtendedText(attr, rule, Esc(value), rest);
    assert s[1..] == attr + (":" + tail) && NameChar(s[1]);
    NameReads(attr, ":" + tail);
    assert (":" + tail)[1..] == tail;
    RuleReads(attr, rule, value, rest);
  }

  lemma ListReads(parts: seq<Filter>, mark: char, rest: string)
    requires parts != [] && (mark == '&' || mark == '|')
    requires ReadList(PrintAll(parts) + (")" + rest)) == Some((parts, ")" + rest))
    ensures ReadFilter(['(', mark] + PrintAll(parts) + ")" + rest) == Some((if mark == '&' then And(parts) else Or(parts), rest))
  {
    var s := ['(', mark] + PrintAll(parts) + ")" + rest;
    assert s[2..] == PrintAll(parts) + (")" + rest);
    assert (")" + rest)[1..] == rest;
  }

  lemma NotReads(part: Filter, rest: string)
    requires ReadFilter(Print(part) + (")" + rest)) == Some((part, ")" + rest))
    ensures ReadFilter("(!" + Print(part) + ")" + rest) == Some((Not(part), rest))
  {
    var s := "(!" + Print(part) + ")" + rest;
    assert s[2..] == Print(part) + (")" + rest);
    assert (")" + rest)[1..] == rest;
  }

  /** Every filter that can be printed is read back as itself, whatever follows it. */
  lemma {:induction false} PrintReads(f: Filter, rest: string)
    requires Formed(f)
    ensures ReadFilter(Print(f) + rest) == Some((f, rest))
    decreases f, 0
  {
    match f
    case And(parts) =>
      PrintAllReads(parts, ")" + rest);
      ListReads(parts, '&', rest);
      assert Print(f) + rest == ['(', '&'] + PrintAll(parts) + ")" + rest;
    case Or(parts) =>
      PrintAllReads(parts, ")" + rest);
      ListReads(parts, '|', rest);
      assert Print(f) + rest == ['(', '|'] + PrintAll(parts) + ")" + rest;
    case Not(part) =>
      PrintReads(part, ")" + rest);
      NotReads(part, rest);
      assert Print(f) + rest == "(!" + Print(part) + ")" + rest;
    case Equals(attr, value) => EqualsReads(attr, value, rest);
    case Extended(attr, rule, value) => ExtendedReads(attr, rule, value, rest);
  }

  lemma PrintOpens(f: Filter)
    ensures Print(f) != "" && Print(f)[0] == '('
  {
  }

  lemma ConsReads(f: Filter, parts: seq<Filter>, s: string, tail: string, rest: string)
    requires s != "" && s[0] == '(' && ReadFilter(s) == Some((f, tail)) && ReadList(tail) == Some((parts, rest))
    ensures ReadList(s) == Some(([f] + parts, rest))
  {
  }

  lemma {:induction false} PrintAllReads(parts: seq<Filter>, rest: string)
    requires forall p :: p in parts ==> Formed(p)
    requires rest != "" && rest[0] == ')'
    ensures ReadList(PrintAll(parts) + rest) == Some((parts, rest))
    decreases parts, 1
  {
    if parts == [] {
      assert "" + rest == rest;
    } else {
      var f, tail := parts[0], PrintAll(parts[1..]) + rest;
      PrintAllStep(parts);
      Grouped(Print(f), PrintAll(parts[1..]), rest);
      PrintReads(f, tail);
      PrintAllReads(parts[1..], rest);
      PrintOpens(f);
      assert (Print(f) + tail)[0] == '(';
      ConsReads(f, parts[1..], Print(f) + tail, tail, rest);
      assert [f] + parts[1..] == parts;
    }
  }

  // ---------------------------------------------------------- the filter of a sign-in

  /** typed.split("@")[0] */
  function BeforeAt(typed: string): string {
    if typed == "" || typed[0] == '@' then "" else [typed[0]] + BeforeAt(typed[1..])
  }

  /** The first '@' is here. */
  predicate FirstAt(typed: string, k: nat) {
    k < |typed| && typed[k] == '@' && '@' !in typed[..k]
  }

  lemma NoneBefore(typed: string, k: nat)
    requires FirstAt(typed, k)
    ensures k > 0 ==> typed[0] != '@'
  {
    if k > 0 { assert typed[0] in typed[..k]; }
  }

  lemma {:induction false} BeforeAtCuts(typed: string)
    ensures '@' in typed ==> exists k: nat :: FirstAt(typed, k) && typed[..k] == BeforeAt(typed)
    ensures forall k: nat :: FirstAt(typed, k) ==> '@' in typed && typed[..k] == BeforeAt(typed)
  {
    if typed != "" && typed[0] == '@' {
      assert FirstAt(typed, 0);
      forall k: nat | FirstAt(typed, k) ensures k == 0 {
        NoneBefore(typed, k);
      }
    } else if typed != "" {
      BeforeAtCuts(typed[1..]);
      assert typed == [typed[0]] + typed[1..];
      if '@' in typed {
        var k: nat :| FirstAt(typed[1..], k) && typed[1..][..k] == BeforeAt(typed[1..]);
        AtShifts(typed, k + 1);
      }
      forall k: nat | FirstAt(typed, k) ensures typed[..k] == BeforeAt(typed) {
        AtShifts(typed, k);
      }
    }
  }

  lemma AtShifts(typed: string, k: nat)
    requires typed != "" && typed[0] != '@' && 0 < k <= |typed|
    ensures typed[..k] == [typed[0]] + typed[1..][..k - 1]
    ensures FirstAt(typed, k) <==> FirstAt(typed[1..], k - 1)
  {
    assert typed[..k] == [typed[0]] + typed[1..][..k - 1];
    InCons(typed[0], typed[1..][..k - 1]);
    if k < |typed| { assert typed[k] == typed[1..][k - 1]; }
  }

  lemma InCons(ch: char, s: string)
    ensures '@' in [ch] + s <==> ch == '@' || '@' in s
  {
  }

  lemma {:induction false} BeforeAtSame(typed: string)
    ensures BeforeAt(typed) == typed <==> '@' !in typed
  {
    if typed != "" {
      BeforeAtSame(typed[1..]);
      assert typed == [typed[0]] + typed[1..];
    }
  }

  /** The names under which the identifier may be on record. */
  function Forms(typed: string): seq<Filter> {
    [Equals("userPrincipalName", typed), Equals("mail", typed), Equals("sAMAccountName", typed)]
    + if '@' in typed then [Equals("sAMAccountName", BeforeAt(typed))] else []
  }

  function Gate(group: string): seq<Filter> {
    if group == "" then [] else [Extended("memberOf", IN_CHAIN, group)]
  }

  /** What the search means: a person, a user, not disabled, a member of the required group,
      and known by what was typed. */
  function Intended(typed: string, group: string): Filter {
    And(Fixed() + Gate(group) + [Or(Forms(typed))])
  }

  lemma NameOf(s: string)
    requires s in {"userPrincipalName", "mail", "sAMAccountName", "objectCategory", "objectClass", "userAccountControl", "memberOf", BIT_AND, IN_CHAIN}
    ensures Name(s)
  {
  }

  lemma IntendedFormed(typed: string, group: string)
    ensures Formed(Intended(typed, group))
  {
    forall f | f in Forms(typed) ensures Formed(f) {
      NameOf(f.attr);
    }
    NameOf("memberOf");
    NameOf(IN_CHAIN);
    NameOf(BIT_AND);
    NameOf("objectCategory");
    NameOf("objectClass");
    NameOf("userAccountControl");
  }

  lemma {:induction false} Plain(s: string)
    requires forall ch :: ch in s ==> !Special(ch)
    ensures Esc(s) == s
  {
    if s != "" {
      Plain(s[1..]);
      assert [s[0]] + s[1..] == s;
    }
  }

  lemma PrintAllStep(parts: seq<Filter>)
    requires parts != []
    ensures PrintAll(parts) == Print(parts[0]) + PrintAll(parts[1..])
  {
  }

  lemma {:induction false} PrintAllAppends(a: seq<Filter>, b: seq<Filter>)
    ensures PrintAll(a + b) == PrintAll(a) + PrintAll(b)
  {
    if a == [] {
      assert a + b == b;
    } else {
      PrintAllAppends(a[1..], b);
      PrintAllStep(a);
      PrintAllStep(a + b);
      assert (a + b)[1..] == a[1..] + b;
      Grouped(Print(a[0]), PrintAll(a[1..]), PrintAll(b));
    }
  }

  lemma PrintOne(f: Filter)
    ensures PrintAll([f]) == Print(f)
  {
    assert [f][1..] == [];
  }

  lemma PrintMore(parts: seq<Filter>, f: Filter)
    ensures PrintAll(parts + [f]) == PrintAll(parts) + Print(f)
  {
    PrintAllAppends(parts, [f]);
    PrintOne(f);
  }

  lemma PrintThree(f: Filter, g: Filter, h: Filter)
    ensures PrintAll([f, g, h]) == Print(f) + Print(g) + Print(h)
  {
    PrintOne(f);
    PrintMore([f], g);
    PrintMore([f, g], h);
    assert [f] + [g] == [f, g] && [f, g] + [h] == [f, g, h];
  }

  function Fixed(): seq<Filter> {
    [Equals("objectCategory", "person"), Equals("objectClass", "user"), Not(Extended("userAccountControl", BIT_AND, UAC_DISABLED))]
  }

  function FixedText(): string {
    Simple("objectCategory", "person") + Simple("objectClass", "user")
    + ("(!" + Extensible("userAccountControl", BIT_AND, UAC_DISABLED) + ")")
  }

  lemma FixedPrints()
    ensures PrintAll(Fixed()) == FixedText()
  {
    PersonPrints();
    UserPrints();
    PlainRule();
    PrintThree(Equals("objectCategory", "person"), Equals("objectClass", "user"), Not(Extended("userAccountControl", BIT_AND, UAC_DISABLED)));
  }

  lemma PersonPrints()
    ensures Print(Equals("objectCategory", "person")) == Simple("objectCategory", "person")
  {
    Plain("person");
  }

  lemma UserPrints()
    ensures Print(Equals("objectClass", "user")) == Simple("objectClass", "user")
  {
    Plain("user");
  }

  lemma PlainRule()
    ensures Print(Not(Extended("userAccountControl", BIT_AND, UAC_DISABLED)))
         == "(!" + Extensible("userAccountControl", BIT_AND, UAC_DISABLED) + ")"
  {
    Plain(UAC_DISABLED);
  }

  method FormsText(typed: string) returns (forms: string)
    ensures forms == PrintAll(Forms(typed))
  {
    var ident := EscLoop(typed);
    var local := EscLoop(BeforeAt(typed));
    forms := Simple("userPrincipalName", ident) + Simple("mail", ident) + Simple("sAMAccountName", ident);
    ghost var three := Forms(typed)[..3];
    PrintThree(three[0], three[1], three[2]);
    assert three == [three[0], three[1], three[2]];
    LocalForm(typed);
    if local != ident {
      forms := forms + Simple("sAMAccountName", local);
      PrintMore(three, Forms(typed)[3]);
      assert Forms(typed) == three + [Forms(typed)[3]];
    } else {
      assert Forms(typed) == three;
    }
  }

  method GateText(group: string) returns (gate: string)
    ensures gate == PrintAll(Gate(group))
  {
    gate := "";
    if group != "" {
      var escaped := EscLoop(group);
      gate := Extensible("memberOf", IN_CHAIN, escaped);
      PrintOne(Extended("memberOf", IN_CHAIN, group));
    }
  }

  /** What _resolve prints: it reads back as exactly the intended filter, for every identifier
      and every group name, whatever characters they hold. */
  method SearchFilter(typed: string, group: string) returns (flt: string)
    ensures flt == Print(Intended(typed, group))
    ensures ReadFilter(flt) == Some((Intended(typed, group), ""))
  {
    var forms := FormsText(typed);
    var gate := GateText(group);
    flt := "(&" + (FixedText() + gate + ("(|" + forms + ")")) + ")";
    IntendedPrints(typed, group);
    IntendedReads(typed, group);
  }

  /** The code compares the escaped forms; that is to compare what was typed. */
  lemma LocalForm(typed: string)
    ensures Esc(BeforeAt(typed)) != Esc(typed) <==> '@' in typed
  {
    BeforeAtSame(typed);
    if Esc(BeforeAt(typed)) == Esc(typed) { EscInjective(BeforeAt(typed), typed); }
  }

  lemma IntendedPrints(typed: string, group: string)
    ensures PrintAll(Intended(typed, group).parts)
         == FixedText() + PrintAll(Gate(group)) + ("(|" + PrintAll(Forms(typed)) + ")")
  {
    FixedPrints();
    PrintAllAppends(Fixed(), Gate(group));
    PrintMore(Fixed() + Gate(group), Or(Forms(typed)));
  }

  lemma IntendedReads(typed: string, group: string)
    ensures ReadFilter(Print(Intended(typed, group))) == Some((Intended(typed, group), ""))
  {
    IntendedFormed(typed, group);
    PrintReads(Intended(typed, group), "");
    assert Print(Intended(typed, group)) + "" == Print(Intended(typed, group));
  }

  // ------------------------------------------------------ what the directory answers

  /** One directory object, by how it answers the two kinds of assertion. */
  datatype Record = Record(equal: (string, string) -> bool, extended: (string, string, string) -> bool)

  predicate Matches(f: Filter, e: Record) {
    match f
    case And(parts) => forall p :: p in parts ==> Matches(p, e)
    case Or(parts) => exists p :: p in parts && Matches(p, e)
    case Not(part) => !Matches(part, e)
    case Equals(attr, value) => e.equal(attr, value)
    case Extended(attr, rule, value) => e.extended(attr, rule, value)
  }

  lemma FormsMatch(typed: string, e: Record)
    ensures Matches(Or(Forms(typed)), e) <==>
              || e.equal("userPrincipalName", typed) || e.equal("mail", typed) || e.equal("sAMAccountName", typed)
              || ('@' in typed && e.equal("sAMAccountName", BeforeAt(typed)))
  {
    var fs := Forms(typed);
    assert fs[0] in fs && fs[1] in fs && fs[2] in fs;
    if '@' in typed { assert fs[3] in fs; }
  }

  lemma AllMatch(a: seq<Filter>, b: seq<Filter>, e: Record)
    ensures Matches(And(a + b), e) <==> Matches(And(a), e) && Matches(And(b), e)
  {
  }

  lemma OneMatches(f: Filter, e: Record)
    ensures Matches(And([f]), e) <==> Matches(f, e)
  {
    assert f in [f];
  }

  lemma FixedMatches(e: Record)
    ensures Matches(And(Fixed()), e) <==>
              && e.equal("objectCategory", "person") && e.equal("objectClass", "user")
              && !e.extended("userAccountControl", BIT_AND, UAC_DISABLED)
  {
    var p, u, n := Fixed()[0], Fixed()[1], Fixed()[2];
    OneMatches(p, e);
    OneMatches(u, e);
    OneMatches(n, e);
    AllMatch([p], [u], e);
    AllMatch([p] + [u], [n], e);
    assert Fixed() == [p] + [u] + [n];
    assert n == Not(n.part) && Matches(n.part, e) == e.extended("userAccountControl", BIT_AND, UAC_DISABLED);
  }

  lemma GateMatches(group: string, e: Record)
    ensures Matches(And(Gate(group)), e) <==> (group != "" ==> e.extended("memberOf", IN_CHAIN, group))
  {
    if group != "" { OneMatches(Extended("memberOf", IN_CHAIN, group), e); }
  }

  /** No identifier, however crafted, gets past the gate: what the printed filter matches is
      an enabled person in the required group, known by what was typed. */
  lemma GateHolds(typed: string, group: string, e: Record)
    ensures ReadFilter(Print(Intended(typed, group))).Some?
    ensures Matches(ReadFilter(Print(Intended(typed, group))).value.0, e) <==>
              && e.equal("objectCategory", "person") && e.equal("objectClass", "user")
              && !e.extended("userAccountControl", "1.2.840.113556.1.4.803", "2")
              && (group != "" ==> e.extended("memberOf", "1.2.840.113556.1.4.1941", group))
              && (e.equal("userPrincipalName", typed) || e.equal("mail", typed) || e.equal("sAMAccountName", typed)
                  || exists k: nat :: FirstAt(typed, k) && e.equal("sAMAccountName", typed[..k]))
  {
    BeforeAtCuts(typed);
    IntendedReads(typed, group);
    FixedMatches(e);
    GateMatches(group, e);
    OneMatches(Or(Forms(typed)), e);
    FormsMatch(typed, e);
    AllMatch(Fixed(), Gate(group), e);
    AllMatch(Fixed() + Gate(group), [Or(Forms(typed))], e);
  }

  // ------------------------------------------------------------------- the ranking

  datatype Entry = Entry(sam: string, upn: string, mail: string, id: nat)

  datatype Rank = BySam | ByUpn | ByMail

  const RANKS := [BySam, ByUpn, ByMail]

  function Attr(e: Entry, rank: Rank): string {
    match rank case BySam => e.sam case ByUpn => e.upn case ByMail => e.mail
  }

  /** str.lower, which is not spelled out here. */
  type Lower = string -> string

  predicate Exact(lower: Lower, typed: string, rank: Rank, e: Entry) {
    lower(Attr(e, rank)) == lower(typed)
  }

  function Keep(entries: seq<Entry>, lower: Lower, typed: string, rank: Rank): (r: seq<Entry>)
    ensures forall e :: e in r <==> e in entries && Exact(lower, typed, rank, e)
  {
    if entries == [] then []
    else
      Keep(entries[..|entries| - 1], lower, typed, rank)
      + if Exact(lower, typed, rank, entries[|entries| - 1]) then [entries[|entries| - 1]] else []
  }

  /** The first rank at which anything matches exactly decides: by one match, or not at all. */
  function Choose(entries: seq<Entry>, lower: Lower, typed: string, ranks: seq<Rank>): Option<Entry> {
    if ranks == [] then None
    else
      var exact := Keep(entries, lower, typed, ranks[0]);
      if |exact| == 1 then Some(exact[0]) else if |exact| > 1 then None else Choose(entries, lower, typed, ranks[1..])
  }

  function Resolve(entries: seq<Entry>, lower: Lower, typed: string): Option<Entry> {
    if |entries| == 0 then None else if |entries| == 1 then Some(entries[0]) else Choose(entries, lower, typed, RANKS)
  }

  method FindExact(entries: seq<Entry>, lower: Lower, typed: string, rank: Rank) returns (exact: seq<Entry>)
    ensures exact == Keep(entries, lower, typed, rank)
  {
    exact := [];
    for i := 0 to |entries|
      invariant exact == Keep(entries[..i], lower, typed, rank)
    {
      assert entries[..i + 1][..i] == entries[..i];
      if Exact(lower, typed, rank, entries[i]) {
        exact := exact + [entries[i]];
      }
    }
    assert entries[..|entries|] == entries;
  }

  /** How many entries match exactly at a rank. */
  function Hits(entries: seq<Entry>, lower: Lower, typed: string, rank: Rank): nat {
    |Keep(entries, lower, typed, rank)|
  }

  lemma {:induction false} KeepCounts(entries: seq<Entry>, lower: Lower, typed: string, rank: Rank, e: Entry)
    ensures multiset(Keep(entries, lower, typed, rank))[e] == if Exact(lower, typed, rank, e) then multiset(entries)[e] else 0
  {
    if entries != [] {
      var init, last := entries[..|entries| - 1], entries[|entries| - 1];
      assert entries == init + [last];
      KeepCounts(init, lower, typed, rank, e);
    }
  }

  lemma KeepPermuted(a: seq<Entry>, b: seq<Entry>, lower: Lower, typed: string, rank: Rank)
    requires multiset(a) == multiset(b)
    ensures multiset(Keep(a, lower, typed, rank)) == multiset(Keep(b, lower, typed, rank))
    ensures Hits(a, lower, typed, rank) == Hits(b, lower, typed, rank)
  {
    var ka, kb := Keep(a, lower, typed, rank), Keep(b, lower, typed, rank);
    forall e ensures multiset(ka)[e] == multiset(kb)[e] {
      KeepCounts(a, lower, typed, rank, e);
      KeepCounts(b, lower, typed, rank, e);
    }
    assert multiset(ka) == multiset(kb);
    assert |ka| == |multiset(ka)| && |kb| == |multiset(kb)|;
  }

  lemma {:induction false} ChoosePermuted(a: seq<Entry>, b: seq<Entry>, lower: Lower, typed: string, ranks: seq<Rank>)
    requires multiset(a) == multiset(b)
    ensures Choose(a, lower, typed, ranks) == Choose(b, lower, typed, ranks)
  {
    if ranks != [] {
      KeepPermuted(a, b, lower, typed, ranks[0]);
      var ka, kb := Keep(a, lower, typed, ranks[0]), Keep(b, lower, typed, ranks[0]);
      if |ka| == 1 {
        assert ka[0] in multiset(kb);
        assert kb == [kb[0]];
      }
      ChoosePermuted(a, b, lower, typed, ranks[1..]);
    }
  }

  /** The order in which the directory returns its objects never matters. */
  lemma OrderNeverMatters(a: seq<Entry>, b: seq<Entry>, lower: Lower, typed: string)
    requires multiset(a) == multiset(b)
    ensures Resolve(a, lower, typed) == Resolve(b, lower, typed)
  {
    assert |a| == |multiset(a)| && |b| == |multiset(b)|;
    if |a| == 1 {
      assert a[0] in multiset(b);
      assert b == [b[0]];
    }
    ChoosePermuted(a, b, lower, typed, RANKS);
  }

  lemma ChooseNext(entries: seq<Entry>, lower: Lower, typed: string, rank: Rank, ranks: seq<Rank>)
    ensures Choose(entries, lower, typed, [rank] + ranks)
         == if Hits(entries, lower, typed, rank) == 1 then Some(Keep(entries, lower, typed, rank)[0])
            else if Hits(entries, lower, typed, rank) > 1 then None else Choose(entries, lower, typed, ranks)
  {
    assert ([rank] + ranks)[1..] == ranks;
  }

  function Sole(entries: seq<Entry>, lower: Lower, typed: string, rank: Rank): Option<Entry> {
    if Hits(entries, lower, typed, rank) == 1 then Some(Keep(entries, lower, typed, rank)[0]) else None
  }

  lemma ChooseThree(entries: seq<Entry>, lower: Lower, typed: string)
    ensures Choose(entries, lower, typed, RANKS) ==
              if Hits(entries, lower, typed, BySam) > 0 then Sole(entries, lower, typed, BySam)
              else if Hits(entries, lower, typed, ByUpn) > 0 then Sole(entries, lower, typed, ByUpn)
              else Sole(entries, lower, typed, ByMail)
  {
    ChooseNext(entries, lower, typed, ByMail, []);
    ChooseNext(entries, lower, typed, ByUpn, [ByMail] + []);
    ChooseNext(entries, lower, typed, BySam, [ByUpn] + ([ByMail] + []));
    assert RANKS == [BySam] + ([ByUpn] + ([ByMail] + []));
  }

  /** With several candidates, an entry is chosen exactly when at some rank it is the only exact
      match and at every better rank there is none. */
  lemma ChosenIsUniqueBest(entries: seq<Entry>, lower: Lower, typed: string, e: Entry)
    requires |entries| > 1
    ensures Resolve(entries, lower, typed) == Some(e) <==>
              exists k :: 0 <= k < 3 && Keep(entries, lower, typed, RANKS[k]) == [e]
                          && forall j :: 0 <= j < k ==> Hits(entries, lower, typed, RANKS[j]) == 0
  {
    ChooseThree(entries, lower, typed);
    if Resolve(entries, lower, typed) == Some(e) {
      var k := if Hits(entries, lower, typed, BySam) == 1 then 0 else if Hits(entries, lower, typed, ByUpn) == 1 then 1 else 2;
      assert Keep(entries, lower, typed, RANKS[k]) == [e];
    }
  }

  // ------------------------------------------------------- the ranking, spelled out

  predicate NoneIs(entries: seq<Entry>, lower: Lower, typed: string, attr: Entry -> string) {
    forall i :: 0 <= i < |entries| ==> lower(attr(entries[i])) != lower(typed)
  }

  /** Entry `i` is the only one whose attribute is what was typed, but for its case. */
  predicate OnlyIs(entries: seq<Entry>, lower: Lower, typed: string, attr: Entry -> string, i: nat) {
    && i < |entries| && lower(attr(entries[i])) == lower(typed)
    && forall j :: 0 <= j < |entries| && j != i ==> lower(attr(entries[j])) != lower(typed)
  }

  /** Entry `i` is the only one with that account name; or no entry has it and it is the only one
      with that principal name; or no entry has either and it is the only one with that mail. */
  predicate Best(entries: seq<Entry>, lower: Lower, typed: string, i: nat) {
    var sam, upn, mail := (e: Entry) => e.sam, (e: Entry) => e.upn, (e: Entry) => e.mail;
    || OnlyIs(entries, lower, typed, sam, i)
    || (NoneIs(entries, lower, typed, sam) && OnlyIs(entries, lower, typed, upn, i))
    || (NoneIs(entries, lower, typed, sam) && NoneIs(entries, lower, typed, upn) && OnlyIs(entries, lower, typed, mail, i))
  }

  /** What the number of exact matches at a rank says. */
  ghost predicate Ranked(entries: seq<Entry>, lower: Lower, typed: string, rank: Rank, attr: Entry -> string) {
    var n := Hits(entries, lower, typed, rank);
    && (n == 0 <==> NoneIs(entries, lower, typed, attr))
    && (n == 1 ==> exists i: nat :: OnlyIs(entries, lower, typed, attr, i) && entries[i] == Keep(entries, lower, typed, rank)[0])
    && (n != 1 ==> forall i: nat :: !OnlyIs(entries, lower, typed, attr, i))
  }

  lemma OnlyStill(entries: seq<Entry>, lower: Lower, typed: string, attr: Entry -> string, last: Entry, i: nat)
    ensures OnlyIs(entries + [last], lower, typed, attr, i) <==>
              if i == |entries| then lower(attr(last)) == lower(typed) && NoneIs(entries, lower, typed, attr)
              else lower(attr(last)) != lower(typed) && OnlyIs(entries, lower, typed, attr, i)
  {
    var all := entries + [last];
    assert all[|entries|] == last && forall j :: 0 <= j < |entries| ==> all[j] == entries[j];
  }

  lemma {:induction false} RankCounts(entries: seq<Entry>, lower: Lower, typed: string, rank: Rank, attr: Entry -> string)
    requires forall e :: attr(e) == Attr(e, rank)
    ensures Ranked(entries, lower, typed, rank, attr)
  {
    if entries != [] {
      var init, last := entries[..|entries| - 1], entries[|entries| - 1];
      assert entries == init + [last];
      RankCounts(init, lower, typed, rank, attr);
      forall i: nat ensures OnlyIs(entries, lower, typed, attr, i) <==>
                              if i == |init| then lower(attr(last)) == lower(typed) && NoneIs(init, lower, typed, attr)
                              else lower(attr(last)) != lower(typed) && OnlyIs(init, lower, typed, attr, i) {
        OnlyStill(init, lower, typed, attr, last, i);
      }
      if Exact(lower, typed, rank, last) {
        assert OnlyIs(entries, lower, typed, attr, |init|) <==> NoneIs(init, lower, typed, attr);
        assert !NoneIs(entries, lower, typed, attr);
      }
    }
  }

  /** The ranking chooses the best entry, and where there is none it chooses nobody. */
  lemma ChooseIsBest(entries: seq<Entry>, lower: Lower, typed: string)
    ensures var r := Choose(entries, lower, typed, RANKS);
            && (r.Some? ==> exists i: nat :: Best(entries, lower, typed, i) && entries[i] == r.value)
            && (r.None? ==> forall i: nat :: !Best(entries, lower, typed, i))
  {
    var sam, upn, mail := (e: Entry) => e.sam, (e: Entry) => e.upn, (e: Entry) => e.mail;
    RankCounts(entries, lower, typed, BySam, sam);
    RankCounts(entries, lower, typed, ByUpn, upn);
    RankCounts(entries, lower, typed, ByMail, mail);
    ChooseThree(entries, lower, typed);
    forall i: nat ensures Best(entries, lower, typed, i) <==>
                            || OnlyIs(entries, lower, typed, sam, i)
                            || (NoneIs(entries, lower, typed, sam) && OnlyIs(entries, lower, typed, upn, i))
                            || (NoneIs(entries, lower, typed, sam) && NoneIs(entries, lower, typed, upn) && OnlyIs(entries, lower, typed, mail, i)) {
    }
    var r := Choose(entries, lower, typed, RANKS);
    if r.Some? {
      var attr := if Hits(entries, lower, typed, BySam) > 0 then sam else if Hits(entries, lower, typed, ByUpn) > 0 then upn else mail;
      var i: nat :| OnlyIs(entries, lower, typed, attr, i) && entries[i] == r.value;
      assert Best(entries, lower, typed, i) && entries[i] == r.value;
    }
  }

  method ResolveEntries(entries: seq<Entry>, lower: Lower, typed: string) returns (r: Option<Entry>)
    ensures r == Resolve(entries, lower, typed)
    ensures |entries| == 0 ==> r == None
    ensures |entries| == 1 ==> r == Some(entries[0])
    ensures |entries| > 1 && r.Some? ==> exists i: nat :: Best(entries, lower, typed, i) && entries[i] == r.value
    ensures |entries| > 1 && r.None? ==> forall i: nat :: !Best(entries, lower, typed, i)
  {
    if |entries| > 1 { ChooseIsBest(entries, lower, typed); }
    if |entries| == 0 {
      return None;
    }
    if |entries| == 1 {
      return Some(entries[0]);
    }
    for i := 0 to |RANKS|
      invariant Choose(entries, lower, typed, RANKS) == Choose(entries, lower, typed, RANKS[i..])
    {
      var exact := FindExact(entries, lower, typed, RANKS[i]);
      assert RANKS[i..][1..] == RANKS[i + 1..];
      if |exact| == 1 {
        return Some(exact[0]);
      }
      if |exact| > 1 {
        return None;
      }
    }
    r := None;
  }
}
