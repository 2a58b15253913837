/** The fixed-window rate limiter: one counter per scope, caller and window, whose key is made
    to expire after it was first counted. Reading the clock, INCR and EXPIRE are three steps, and
    anything may happen between them: a call can count in a window that is already over. */
module Limiter {
  import opened Domain
  import opened Store

  datatype Rule = Rule(limit: nat, window: nat)

  const RATE_LIMITS: map<string, Rule> := map[
    "create" := Rule(10, 60),
    "meta" := Rule(30, 60),
    "reveal_ip" := Rule(5, 60),
    "reveal_tid" := Rule(10, 3600),
    "login_ip" := Rule(10, 300),
    "login_email" := Rule(5, 900),
    "pwchange" := Rule(5, 900),
    "request_view" := Rule(30, 60),
    "request_submit_ip" := Rule(5, 60),
    "request_submit_rid" := Rule(3, 3600)]

  predicate Usable(rules: map<string, Rule>) {
    forall scope :: scope in rules ==> rules[scope].window > 0
  }

  datatype Key = Key(scope: string, who: string, bucket: nat)

  /** One answered call, and the counter it was counted in. */
  datatype Call = Call(key: Key, time: nat, prompt: bool, ok: bool)

  /** `log` is history. */
  datatype State = State(now: nat, counters: map<Key, Counter>, log: seq<Call>)

  datatype Event =
    | Counts(key: Key)    // INCR of a call that read its bucket earlier, and the answer
    | Expires(key: Key)   // the EXPIRE of the call that counted first
    | Second

  function Count(s: State, k: Key): nat {
    if k in s.counters then s.counters[k].n else 0
  }

  /** A call counts in the bucket of a moment that has been. */
  predicate HasBeen(rules: map<string, Rule>, s: State, k: Key)
    requires Usable(rules)
  {
    k.scope in rules && k.bucket <= s.now / rules[k.scope].window
  }

  function Ask(rules: map<string, Rule>, s: State, k: Key): State
    requires Usable(rules) && k.scope in rules
  {
    var n := Count(s, k) + 1;
    s.(counters := s.counters[k := if k in s.counters then s.counters[k].(n := n) else Counter(n, None)],
       log := s.log + [Call(k, s.now, k.bucket == s.now / rules[k.scope].window, n <= rules[k.scope].limit)])
  }

  function Step(rules: map<string, Rule>, s: State, e: Event): State
    requires Usable(rules)
  {
    match e
    case Counts(k) => if HasBeen(rules, s, k) then Ask(rules, s, k) else s
    case Expires(k) =>
      if k in s.counters && k.scope in rules
      then s.(counters := s.counters[k := s.counters[k].(death := Some(s.now + rules[k.scope].window))]) else s
    case Second =>
      s.(now := s.now + 1,
         counters := map k | k in s.counters && Outlives(s.counters[k].death, s.now + 1) :: s.counters[k])
  }

  function Run(rules: map<string, Rule>, events: seq<Event>): State
    requires Usable(rules)
  {
    if events == [] then State(0, map[], [])
    else Step(rules, Run(rules, events[..|events| - 1]), events[|events| - 1])
  }

  // ------------------------------------------------- what the log says, on its own

  /** A caller's calls that were counted in the bucket of their moment, or all the calls of one
      counter. */
  datatype Kind = Prompt(scope: string, who: string) | Under(key: Key)

  predicate Is(c: Call, kind: Kind) {
    match kind
    case Prompt(scope, who) => c.key.scope == scope && c.key.who == who && c.prompt
    case Under(key) => c.key == key
  }

  /** Such calls answered in [from, to), and those among them that were let through. */
  function Asked(log: seq<Call>, kind: Kind, from: int, to: int): nat {
    if log == [] then 0
    else
      var c := log[|log| - 1];
      Asked(log[..|log| - 1], kind, from, to) + if Is(c, kind) && from <= c.time < to then 1 else 0
  }

  function Admitted(log: seq<Call>, kind: Kind, from: int, to: int): nat {
    if log == [] then 0
    else
      var c := log[|log| - 1];
      Admitted(log[..|log| - 1], kind, from, to) + if Is(c, kind) && from <= c.time < to && c.ok then 1 else 0
  }

  lemma {:induction false} AdmittedSplits(log: seq<Call>, kind: Kind, from: int, mid: int, to: int)
    requires from <= mid <= to
    ensures Admitted(log, kind, from, to) == Admitted(log, kind, from, mid) + Admitted(log, kind, mid, to)
  {
    if log != [] { AdmittedSplits(log[..|log| - 1], kind, from, mid, to); }
  }

  lemma {:induction false} AdmittedGrows(log: seq<Call>, kind: Kind, from: int, to: int, from': int, to': int)
    requires from' <= from && to <= to'
    ensures Admitted(log, kind, from, to) <= Admitted(log, kind, from', to')
  {
    if log != [] { AdmittedGrows(log[..|log| - 1], kind, from, to, from', to'); }
  }

  lemma {:induction false} NothingYet(log: seq<Call>, kind: Kind, from: int, to: int)
    requires forall i :: 0 <= i < |log| ==> log[i].time < from
    ensures Asked(log, kind, from, to) == 0
  {
    if log != [] { NothingYet(log[..|log| - 1], kind, from, to); }
  }

  // ------------------------------------------------------------- the invariant

  function Least(a: nat, b: nat): nat { if a < b then a else b }

  /** Counters of buckets still to come are not there; the current one counts every call of its
      window, and cannot die before the window ends. */
  ghost predicate CounterOk(rules: map<string, Rule>, s: State, k: Key)
    requires Usable(rules)
  {
    k.scope in rules ==>
      var w := rules[k.scope].window;
      && (k in s.counters ==> k.bucket * w <= s.now)
      && (k in s.counters && s.counters[k].death.Some? ==> (k.bucket + 1) * w <= s.counters[k].death.value)
      && (s.now < (k.bucket + 1) * w ==> Count(s, k) == Asked(s.log, Prompt(k.scope, k.who), k.bucket * w, (k.bucket + 1) * w))
      && Admitted(s.log, Prompt(k.scope, k.who), k.bucket * w, (k.bucket + 1) * w)
         == Least(Asked(s.log, Prompt(k.scope, k.who), k.bucket * w, (k.bucket + 1) * w), rules[k.scope].limit)
  }

  ghost predicate Good(rules: map<string, Rule>, s: State)
    requires Usable(rules)
  {
    && (forall k :: CounterOk(rules, s, k))
    && (forall i :: 0 <= i < |s.log| ==> s.log[i].time <= s.now)
  }

  lemma BucketOf(time: nat, w: nat, b: nat)
    requires w > 0
    ensures b * w <= time < (b + 1) * w <==> b == time / w
  {
    var q := time / w;
    assert q * w <= time < q * w + w;
    if b < q { assert (b + 1) * w <= q * w; }
    if b > q { assert (q + 1) * w <= b * w; }
  }

  lemma AskKeeps(rules: map<string, Rule>, s: State, key: Key)
    requires Usable(rules) && HasBeen(rules, s, key) && Good(rules, s)
    ensures Good(rules, Ask(rules, s, key))
  {
    var s' := Ask(rules, s, key);
    forall k ensures CounterOk(rules, s', k) {
      AskKeepsAt(rules, s, key, k);
    }
  }

  lemma AskKeepsAt(rules: map<string, Rule>, s: State, key: Key, k: Key)
    requires Usable(rules) && HasBeen(rules, s, key) && CounterOk(rules, s, k)
    ensures CounterOk(rules, Ask(rules, s, key), k)
  {
    var s' := Ask(rules, s, key);
    assert s'.log[..|s'.log| - 1] == s.log;
    BucketOf(s.now, rules[key.scope].window, k.bucket);
    BucketOf(s.now, rules[key.scope].window, key.bucket);
    if k == key && k.bucket < s.now / rules[k.scope].window { Past(s.now, rules[k.scope].window, k.bucket); }
  }

  lemma Past(time: nat, w: nat, b: nat)
    requires w > 0 && b <= time / w
    ensures b * w <= time && (b < time / w ==> (b + 1) * w <= time)
  {
    assert time / w * w <= time;
    Times(b, time / w, w);
    if b < time / w { Times(b + 1, time / w, w); }
  }

  lemma Times(a: int, b: int, w: nat)
    requires a <= b
    ensures a * w <= b * w
  {
    assert b * w == a * w + (b - a) * w;
  }

  lemma PromptAnswer(rules: map<string, Rule>, s: State, k: Key)
    requires Usable(rules) && k.scope in rules && k.bucket == s.now / rules[k.scope].window && CounterOk(rules, s, k)
    ensures var w := rules[k.scope].window;
            Count(s, k) == Asked(s.log, Prompt(k.scope, k.who), k.bucket * w, (k.bucket + 1) * w)
  {
    BucketOf(s.now, rules[k.scope].window, k.bucket);
  }

  lemma TickKeeps(rules: map<string, Rule>, s: State)
    requires Usable(rules) && Good(rules, s)
    ensures Good(rules, Step(rules, s, Second))
  {
    var s' := Step(rules, s, Second);
    forall k ensures CounterOk(rules, s', k) {
      assert CounterOk(rules, s, k);
    }
  }

  lemma ExpireKeeps(rules: map<string, Rule>, s: State, key: Key)
    requires Usable(rules) && Good(rules, s)
    ensures Good(rules, Step(rules, s, Expires(key)))
  {
    var s' := Step(rules, s, Expires(key));
    forall k ensures CounterOk(rules, s', k) {
      assert CounterOk(rules, s, k);
    }
  }

  lemma {:induction false} RunKeeps(rules: map<string, Rule>, events: seq<Event>)
    requires Usable(rules)
    ensures Good(rules, Run(rules, events))
  {
    if events == [] {
      forall k ensures CounterOk(rules, Run(rules, []), k) {}
    } else {
      var s, e := Run(rules, events[..|events| - 1]), events[|events| - 1];
      RunKeeps(rules, events[..|events| - 1]);
      match e
      case Counts(key) => if HasBeen(rules, s, key) { AskKeeps(rules, s, key); }
      case Expires(key) => ExpireKeeps(rules, s, key);
      case Second => TickKeeps(rules, s);
    }
  }

  // ------------------------------------------------------------------ the bounds

  /** However calls, EXPIREs, seconds and calls that come late for their bucket interleave, of the
      calls counted in the bucket of their moment exactly the first `limit` are let through: the
      counter never dies early, and a late call neither helps nor harms a prompt one. */
  lemma BucketAdmits(rules: map<string, Rule>, events: seq<Event>, scope: string, who: string, bucket: nat)
    requires Usable(rules) && scope in rules
    ensures var log, w := Run(rules, events).log, rules[scope].window;
            Admitted(log, Prompt(scope, who), bucket * w, (bucket + 1) * w)
            == Least(Asked(log, Prompt(scope, who), bucket * w, (bucket + 1) * w), rules[scope].limit)
  {
    RunKeeps(rules, events);
    assert CounterOk(rules, Run(rules, events), Key(scope, who, bucket));
  }

  /** In any stretch of `window` seconds, at most twice the limit of prompt calls. */
  lemma WindowAdmits(rules: map<string, Rule>, events: seq<Event>, scope: string, who: string, from: nat)
    requires Usable(rules) && scope in rules
    ensures Admitted(Run(rules, events).log, Prompt(scope, who), from, from + rules[scope].window) <= 2 * rules[scope].limit
  {
    var log, w := Run(rules, events).log, rules[scope].window;
    var b := from / w;
    BucketOf(from, w, b);
    assert (b + 1 + 1) * w == (b + 1) * w + w && b * w + w == (b + 1) * w;
    BucketAdmits(rules, events, scope, who, b);
    BucketAdmits(rules, events, scope, who, b + 1);
    AdmittedGrows(log, Prompt(scope, who), from, from + w, b * w, (b + 2) * w);
    AdmittedSplits(log, Prompt(scope, who), b * w, (b + 1) * w, (b + 2) * w);
  }

  function Again(e: Event, n: nat): seq<Event> {
    seq(n, _ => e)
  }

  lemma RunStep(rules: map<string, Rule>, events: seq<Event>, e: Event, n: nat)
    requires Usable(rules) && n > 0
    ensures Run(rules, events + Again(e, n)) == Step(rules, Run(rules, events + Again(e, n - 1)), e)
  {
    assert (events + Again(e, n))[..|events| + n - 1] == events + Again(e, n - 1);
  }

  lemma AskIsAsked(rules: map<string, Rule>, s: State, k: Key, from: int, to: int)
    requires Usable(rules) && k.scope in rules && k.bucket == s.now / rules[k.scope].window
    ensures var s' := Step(rules, s, Counts(k));
            && s'.now == s.now
            && Asked(s'.log, Prompt(k.scope, k.who), from, to) == Asked(s.log, Prompt(k.scope, k.who), from, to) + if from <= s.now < to then 1 else 0
  {
    assert Ask(rules, s, k).log[..|s.log|] == s.log;
  }

  /** The same event `n` times over. */
  function Steps(rules: map<string, Rule>, s: State, e: Event, n: nat): State
    requires Usable(rules)
  {
    if n == 0 then s else Step(rules, Steps(rules, s, e, n - 1), e)
  }

  lemma {:induction false} RunAgain(rules: map<string, Rule>, events: seq<Event>, e: Event, n: nat)
    requires Usable(rules)
    ensures Run(rules, events + Again(e, n)) == Steps(rules, Run(rules, events), e, n)
  {
    if n == 0 {
      assert events + Again(e, 0) == events;
    } else {
      RunAgain(rules, events, e, n - 1);
      RunStep(rules, events, e, n);
    }
  }

  lemma {:induction false} StepsSeconds(rules: map<string, Rule>, s: State, n: nat)
    requires Usable(rules)
    ensures Steps(rules, s, Second, n).now == s.now + n && Steps(rules, s, Second, n).log == s.log
  {
    if n > 0 { StepsSeconds(rules, s, n - 1); }
  }

  lemma SecondsPass(rules: map<string, Rule>, events: seq<Event>, n: nat)
    requires Usable(rules)
    ensures var s, s' := Run(rules, events), Run(rules, events + Again(Second, n));
            s'.now == s.now + n && s'.log == s.log
  {
    RunAgain(rules, events, Second, n);
    StepsSeconds(rules, Run(rules, events), n);
  }

  lemma {:induction false} StepsAsk(rules: map<string, Rule>, s: State, k: Key, n: nat, from: int, to: int)
    requires Usable(rules) && k.scope in rules && k.bucket == s.now / rules[k.scope].window
    ensures var s' := Steps(rules, s, Counts(k), n);
            && s'.now == s.now
            && Asked(s'.log, Prompt(k.scope, k.who), from, to) == Asked(s.log, Prompt(k.scope, k.who), from, to) + if from <= s.now < to then n else 0
  {
    if n > 0 {
      StepsAsk(rules, s, k, n - 1, from, to);
      AskIsAsked(rules, Steps(rules, s, Counts(k), n - 1), k, from, to);
    }
  }

  /** `n` calls at once. */
  lemma BurstIsAsked(rules: map<string, Rule>, events: seq<Event>, k: Key, n: nat, from: int, to: int)
    requires Usable(rules) && k.scope in rules && k.bucket == Run(rules, events).now / rules[k.scope].window
    ensures var s, s' := Run(rules, events), Run(rules, events + Again(Counts(k), n));
            && s'.now == s.now
            && Asked(s'.log, Prompt(k.scope, k.who), from, to) == Asked(s.log, Prompt(k.scope, k.who), from, to) + if from <= s.now < to then n else 0
  {
    RunAgain(rules, events, Counts(k), n);
    StepsAsk(rules, Run(rules, events), k, n, from, to);
  }

  lemma {:induction false} AdmittedWereAsked(log: seq<Call>, kind: Kind, from: int, to: int)
    ensures Admitted(log, kind, from, to) <= Asked(log, kind, from, to)
  {
    if log != [] { AdmittedWereAsked(log[..|log| - 1], kind, from, to); }
  }

  function Burst(rules: map<string, Rule>, scope: string, who: string, bucket: nat): seq<Event>
    requires scope in rules
  {
    Again(Counts(Key(scope, who, bucket)), rules[scope].limit)
  }

  /** `limit` calls in the last second of the first window, and as many in the second after. */
  function AcrossTheEdge(rules: map<string, Rule>, scope: string, who: string): seq<Event>
    requires scope in rules && rules[scope].window > 0
  {
    Again(Second, rules[scope].window - 1) + Burst(rules, scope, who, 0) + [Second] + Burst(rules, scope, who, 1)
  }

  lemma FirstBurst(rules: map<string, Rule>, scope: string, who: string, from: int, to: int)
    requires Usable(rules) && scope in rules
    ensures var w, l := rules[scope].window, rules[scope].limit;
            var s := Run(rules, Again(Second, w - 1) + Burst(rules, scope, who, 0));
            s.now == w - 1 && Asked(s.log, Prompt(scope, who), from, to) == if from <= w - 1 < to then l else 0
  {
    var w := rules[scope].window;
    SecondsPass(rules, [], w - 1);
    assert [] + Again(Second, w - 1) == Again(Second, w - 1);
    BucketOf(w - 1, w, 0);
    BurstIsAsked(rules, Again(Second, w - 1), Key(scope, who, 0), rules[scope].limit, from, to);
  }

  lemma OneSecond(rules: map<string, Rule>, events: seq<Event>)
    requires Usable(rules)
    ensures var s, s' := Run(rules, events), Run(rules, events + [Second]); s'.now == s.now + 1 && s'.log == s.log
  {
    SecondsPass(rules, events, 1);
    assert Again(Second, 1) == [Second];
  }

  lemma EdgeIsAsked(rules: map<string, Rule>, scope: string, who: string, from: int, to: int)
    requires Usable(rules) && scope in rules
    ensures var w, l := rules[scope].window, rules[scope].limit;
            Asked(Run(rules, AcrossTheEdge(rules, scope, who)).log, Prompt(scope, who), from, to)
            == (if from <= w - 1 < to then l else 0) + (if from <= w < to then l else 0)
  {
    var w := rules[scope].window;
    var first := Again(Second, w - 1) + Burst(rules, scope, who, 0);
    FirstBurst(rules, scope, who, from, to);
    OneSecond(rules, first);
    BucketOf(w, w, 1);
    BurstIsAsked(rules, first + [Second], Key(scope, who, 1), rules[scope].limit, from, to);
  }

  /** The bound is met: a window that starts one second before a bucket ends lets through twice
      the limit. */
  lemma WindowBoundIsMet(rules: map<string, Rule>, scope: string, who: string)
    requires Usable(rules) && scope in rules && rules[scope].window >= 2
    ensures var w := rules[scope].window;
            Admitted(Run(rules, AcrossTheEdge(rules, scope, who)).log, Prompt(scope, who), w - 1, 2 * w - 1) == 2 * rules[scope].limit
  {
    var w, run := rules[scope].window, AcrossTheEdge(rules, scope, who);
    var log := Run(rules, run).log;
    BucketAdmits(rules, run, scope, who, 0);
    BucketAdmits(rules, run, scope, who, 1);
    EdgeIsAsked(rules, scope, who, 0, w);
    EdgeIsAsked(rules, scope, who, w, 2 * w);
    EdgeIsAsked(rules, scope, who, 0, w - 1);
    EdgeIsAsked(rules, scope, who, 2 * w - 1, 2 * w);
    AdmittedWereAsked(log, Prompt(scope, who), 0, w - 1);
    AdmittedWereAsked(log, Prompt(scope, who), 2 * w - 1, 2 * w);
    AdmittedSplits(log, Prompt(scope, who), 0, w - 1, w);
    AdmittedSplits(log, Prompt(scope, who), w, 2 * w - 1, 2 * w);
    AdmittedSplits(log, Prompt(scope, who), w - 1, w, 2 * w - 1);
  }

  // ----------------------------------------------------- late calls, and any others

  function Before(limit: nat): nat { if limit == 0 then 0 else limit - 1 }

  /** The counter under `k` counts since `r`. Of the window before `r`, all but its first second,
      fewer than `limit` calls were let through: they belong to the counter before this one, and
      that one's first call is longer ago. */
  ghost predicate Since(rules: map<string, Rule>, s: State, k: Key, r: nat)
    requires Usable(rules) && k.scope in rules
  {
    var w, l := rules[k.scope].window, rules[k.scope].limit;
    && r <= s.now && k in s.counters
    && (s.counters[k].death.Some? ==> r + w <= s.counters[k].death.value)
    && Admitted(s.log, Under(k), r, s.now + 1) == Least(s.counters[k].n, l)
    && (l > 0 ==> Admitted(s.log, Under(k), r, r + 1) >= 1)
    && Admitted(s.log, Under(k), r - w + 1, r) <= Before(l)
  }

  /** There is no counter under `k`, and its last one died by now. */
  ghost predicate Idle(rules: map<string, Rule>, s: State, k: Key)
    requires Usable(rules) && k.scope in rules
  {
    && k !in s.counters
    && Admitted(s.log, Under(k), s.now - rules[k.scope].window + 1, s.now) <= Before(rules[k.scope].limit)
    && Admitted(s.log, Under(k), s.now, s.now + 1) == 0
  }

  predicate StretchOk(rules: map<string, Rule>, log: seq<Call>, k: Key, from: int)
    requires Usable(rules) && k.scope in rules
  {
    Admitted(log, Under(k), from, from + rules[k.scope].window) <= rules[k.scope].limit + Before(rules[k.scope].limit)
  }

  ghost predicate KeyOk(rules: map<string, Rule>, s: State, k: Key)
    requires Usable(rules) && k.scope in rules
  {
    && (Idle(rules, s, k) || exists r: nat :: Since(rules, s, k, r))
    && forall from :: StretchOk(rules, s.log, k, from)
  }

  ghost predicate InPast(s: State) {
    forall i :: 0 <= i < |s.log| ==> s.log[i].time <= s.now
  }

  lemma NoneToCome(s: State, kind: Kind, to: int)
    requires InPast(s)
    ensures Admitted(s.log, kind, s.now + 1, to) == 0
  {
    NothingYet(s.log, kind, s.now + 1, to);
    AdmittedWereAsked(s.log, kind, s.now + 1, to);
  }

  /** Nothing beyond now counts. */
  lemma UpToNow(s: State, kind: Kind, from: int, to: int)
    requires InPast(s) && from <= s.now + 1 <= to
    ensures Admitted(s.log, kind, from, to) == Admitted(s.log, kind, from, s.now + 1)
  {
    AdmittedSplits(s.log, kind, from, s.now + 1, to);
    NoneToCome(s, kind, to);
  }

  lemma TickSince(rules: map<string, Rule>, s: State, k: Key, r: nat)
    requires Usable(rules) && k.scope in rules && Since(rules, s, k, r) && InPast(s)
    ensures var s' := Step(rules, s, Second); k in s'.counters ==> Since(rules, s', k, r)
    ensures var s' := Step(rules, s, Second); k !in s'.counters ==> Idle(rules, s', k)
  {
    var l, w, kind := rules[k.scope].limit, rules[k.scope].window, Under(k);
    UpToNow(s, kind, r, s.now + 2);
    NoneToCome(s, kind, s.now + 2);
    if r + w <= s.now + 1 {
      AdmittedSplits(s.log, kind, r, r + 1, s.now + 1);
      AdmittedGrows(s.log, kind, s.now + 1 - w + 1, s.now + 1, r + 1, s.now + 1);
    }
  }

  lemma TickIdle(rules: map<string, Rule>, s: State, k: Key)
    requires Usable(rules) && k.scope in rules && Idle(rules, s, k) && InPast(s)
    ensures Idle(rules, Step(rules, s, Second), k)
  {
    var w, kind := rules[k.scope].window, Under(k);
    NoneToCome(s, kind, s.now + 2);
    AdmittedSplits(s.log, kind, s.now - w + 1, s.now, s.now + 1);
    AdmittedGrows(s.log, kind, s.now + 1 - w + 1, s.now + 1, s.now - w + 1, s.now + 1);
  }

  lemma OneMoreCall(s: State, c: Call, kind: Kind, from: int, to: int)
    ensures Admitted(s.log + [c], kind, from, to)
            == Admitted(s.log, kind, from, to) + if Is(c, kind) && from <= c.time < to && c.ok then 1 else 0
  {
    assert (s.log + [c])[..|s.log|] == s.log;
  }

  /** Another call under the counter: since when it counts now. */
  lemma AskSince(rules: map<string, Rule>, s: State, k: Key, r: nat)
    requires Usable(rules) && k.scope in rules && Since(rules, s, k, r)
    ensures Since(rules, Ask(rules, s, k), k, r)
  {
    var s', kind, w := Ask(rules, s, k), Under(k), rules[k.scope].window;
    var c := s'.log[|s.log|];
    assert s'.log == s.log + [c];
    OneMoreCall(s, c, kind, r, s.now + 1);
    OneMoreCall(s, c, kind, r, r + 1);
    OneMoreCall(s, c, kind, r - w + 1, r);
  }

  lemma AskIdle(rules: map<string, Rule>, s: State, k: Key)
    requires Usable(rules) && k.scope in rules && Idle(rules, s, k)
    ensures Since(rules, Ask(rules, s, k), k, s.now)
  {
    var s', kind, w := Ask(rules, s, k), Under(k), rules[k.scope].window;
    var c := s'.log[|s.log|];
    assert s'.log == s.log + [c];
    OneMoreCall(s, c, kind, s.now, s.now + 1);
    OneMoreCall(s, c, kind, s.now - w + 1, s.now);
  }

  /** A stretch that reaches now holds what this counter let through and at most what the
      counter before it did. */
  lemma StretchSince(rules: map<string, Rule>, s: State, k: Key, r: nat, from: int)
    requires Usable(rules) && k.scope in rules && Since(rules, s, k, r) && InPast(s)
    requires from <= s.now < from + rules[k.scope].window
    ensures StretchOk(rules, s.log, k, from)
  {
    var w, kind := rules[k.scope].window, Under(k);
    UpToNow(s, kind, from, from + w);
    AdmittedGrows(s.log, kind, from, s.now + 1, r - w + 1, s.now + 1);
    AdmittedSplits(s.log, kind, r - w + 1, r, s.now + 1);
  }

  lemma AskKeepsKey(rules: map<string, Rule>, s: State, k: Key)
    requires Usable(rules) && k.scope in rules && KeyOk(rules, s, k) && InPast(s)
    ensures KeyOk(rules, Ask(rules, s, k), k)
  {
    var s', w := Ask(rules, s, k), rules[k.scope].window;
    var r: nat;
    if Idle(rules, s, k) {
      AskIdle(rules, s, k);
      r := s.now;
    } else {
      r :| Since(rules, s, k, r);
      AskSince(rules, s, k, r);
    }
    forall from ensures StretchOk(rules, s'.log, k, from) {
      assert StretchOk(rules, s.log, k, from);
      if from <= s.now < from + w { StretchSince(rules, s', k, r, from); }
      else { OneMoreCall(s, s'.log[|s.log|], Under(k), from, from + w); }
    }
  }

  lemma AskKeepsOther(rules: map<string, Rule>, s: State, key: Key, k: Key)
    requires Usable(rules) && k.scope in rules && key.scope in rules && k != key && KeyOk(rules, s, k)
    ensures KeyOk(rules, Ask(rules, s, key), k)
  {
    var s' := Ask(rules, s, key);
    var c := s'.log[|s.log|];
    assert s'.log == s.log + [c];
    forall from: int, to: int ensures Admitted(s'.log, Under(k), from, to) == Admitted(s.log, Under(k), from, to) {
      OneMoreCall(s, c, Under(k), from, to);
    }
    forall from ensures StretchOk(rules, s'.log, k, from) {
      assert StretchOk(rules, s.log, k, from);
    }
    if !Idle(rules, s, k) {
      var r: nat :| Since(rules, s, k, r);
      assert Since(rules, s', k, r);
    }
  }

  lemma ExpireKeepsKey(rules: map<string, Rule>, s: State, key: Key, k: Key)
    requires Usable(rules) && k.scope in rules && KeyOk(rules, s, k)
    ensures KeyOk(rules, Step(rules, s, Expires(key)), k)
  {
    if !Idle(rules, s, k) {
      var r: nat :| Since(rules, s, k, r);
      assert Since(rules, Step(rules, s, Expires(key)), k, r);
    }
  }

  lemma TickKeepsKey(rules: map<string, Rule>, s: State, k: Key)
    requires Usable(rules) && k.scope in rules && KeyOk(rules, s, k) && InPast(s)
    ensures KeyOk(rules, Step(rules, s, Second), k)
  {
    if Idle(rules, s, k) {
      TickIdle(rules, s, k);
    } else {
      var r: nat :| Since(rules, s, k, r);
      TickSince(rules, s, k, r);
    }
  }

  lemma {:induction false} RunKeepsKey(rules: map<string, Rule>, events: seq<Event>, k: Key)
    requires Usable(rules) && k.scope in rules
    ensures KeyOk(rules, Run(rules, events), k)
  {
    if events != [] {
      var s, e := Run(rules, events[..|events| - 1]), events[|events| - 1];
      RunKeepsKey(rules, events[..|events| - 1], k);
      RunKeeps(rules, events[..|events| - 1]);
      match e
      case Counts(key) =>
        if HasBeen(rules, s, key) {
          if key == k { AskKeepsKey(rules, s, k); } else { AskKeepsOther(rules, s, key, k); }
        }
      case Expires(key) => ExpireKeepsKey(rules, s, key, k);
      case Second => TickKeepsKey(rules, s, k);
    }
  }

  /** A call that comes late can find its counter dead and start it again. Still, whatever calls
      come late, one counter lets through fewer than twice the limit in any `window` seconds. */
  lemma LateAdmits(rules: map<string, Rule>, events: seq<Event>, key: Key, from: int)
    requires Usable(rules) && key.scope in rules && rules[key.scope].limit > 0
    ensures Admitted(Run(rules, events).log, Under(key), from, from + rules[key.scope].window) < 2 * rules[key.scope].limit
  {
    RunKeepsKey(rules, events, key);
    assert StretchOk(rules, Run(rules, events).log, key, from);
  }

  /** Any `window` seconds let through at most `bound` prompt calls of any one caller's. */
  ghost predicate AtMost(scope: string, bound: nat, window: nat) {
    forall events, who, from: nat :: LetThrough(events, scope, who, from, window) <= bound
  }

  ghost function LetThrough(events: seq<Event>, scope: string, who: string, from: nat, window: nat): nat {
    if Usable(RATE_LIMITS) then Admitted(Run(RATE_LIMITS, events).log, Prompt(scope, who), from, from + window) else 0
  }

  lemma Configured(scope: string)
    requires Usable(RATE_LIMITS) && scope in RATE_LIMITS
    ensures AtMost(scope, 2 * RATE_LIMITS[scope].limit, RATE_LIMITS[scope].window)
  {
    forall events, who, from: nat ensures LetThrough(events, scope, who, from, RATE_LIMITS[scope].window) <= 2 * RATE_LIMITS[scope].limit {
      WindowAdmits(RATE_LIMITS, events, scope, who, from);
    }
  }

  /** What the configuration promises, not counting calls delayed past the end of their window:
      of guessing one secret's passphrase, twenty reveals an hour; of guessing one account's
      password, ten sign-ins a quarter of an hour; of flooding one request, six submissions an
      hour; and of one address, so much a minute. */
  lemma ConfiguredBounds()
    ensures Usable(RATE_LIMITS)
    ensures AtMost("reveal_tid", 20, 3600) && AtMost("login_email", 10, 900) && AtMost("request_submit_rid", 6, 3600)
    ensures AtMost("reveal_ip", 10, 60) && AtMost("login_ip", 20, 300) && AtMost("request_submit_ip", 10, 60)
    ensures AtMost("create", 20, 60) && AtMost("meta", 60, 60) && AtMost("request_view", 60, 60) && AtMost("pwchange", 10, 900)
  {
    Configured("reveal_tid");
    Configured("login_email");
    Configured("request_submit_rid");
    Configured("reveal_ip");
    Configured("login_ip");
    Configured("request_submit_ip");
    Configured("create");
    Configured("meta");
    Configured("request_view");
    Configured("pwchange");
  }

  // --------------------------------------------------------------------- in place

  class Gate {
    const rules: map<string, Rule>
    var now: nat
    var counters: map<Key, Counter>
    ghost var log: seq<Call>

    ghost function Value(): State
      reads this
    {
      State(now, counters, log)
    }

    ghost predicate Valid()
      reads this
    {
      Usable(rules) && Good(rules, Value())
    }

    constructor (rules: map<string, Rule>)
      requires Usable(rules)
      ensures Valid() && Value() == State(0, map[], []) && this.rules == rules
    {
      this.rules, now, counters, log := rules, 0, map[], [];
      new;
      RunKeeps(rules, []);
    }

    /** rate_ok, with no other call in between its two commands: it says yes exactly while
        fewer than `limit` calls have been answered in the current bucket. */
    method RateOk(scope: string, who: string) returns (ok: bool)
      requires Valid() && scope in rules
      modifies this
      ensures Valid()
      ensures log == old(log) + [Call(Key(scope, who, now / rules[scope].window), now, true, ok)] && now == old(now)
      ensures var w := rules[scope].window; var b := now / w;
              ok <==> Asked(old(log), Prompt(scope, who), b * w, (b + 1) * w) < rules[scope].limit
      ensures var k := Key(scope, who, now / rules[scope].window);
              && k in counters && counters == old(counters)[k := counters[k]]
              && counters[k].n == Count(old(Value()), k) + 1
              && (counters[k].n == 1 ==> counters[k].death == Some(now + rules[scope].window))
              && (counters[k].n > 1 ==> counters[k].death == old(counters)[k].death)
    {
      ghost var s := Value();
      var k := Key(scope, who, now / rules[scope].window);
      PromptAnswer(rules, s, k);
      var n := Increment(k);
      ok := n <= rules[scope].limit;
      if n == 1 {
        ExpireKeeps(rules, Value(), k);
        counters := counters[k := counters[k].(death := Some(now + rules[scope].window))];
      }
    }

    /** INCR, and with it the answer. */
    method Increment(k: Key) returns (n: nat)
      requires Valid() && HasBeen(rules, Value(), k)
      modifies this`counters, this`log
      ensures Value() == Ask(rules, old(Value()), k) && Good(rules, Value())
      ensures n == Count(old(Value()), k) + 1 == Count(Value(), k)
    {
      AskKeeps(rules, Value(), k);
      n := (if k in counters then counters[k].n else 0) + 1;
      log := log + [Call(k, now, k.bucket == now / rules[k.scope].window, n <= rules[k.scope].limit)];
      counters := counters[k := if k in counters then counters[k].(n := n) else Counter(n, None)];
    }

    method Wait()
      requires Valid()
      modifies this
      ensures Valid() && Value() == Step(rules, old(Value()), Second)
    {
      TickKeeps(rules, Value());
      now := now + 1;
      counters := map k | k in counters && Outlives(counters[k].death, now) :: counters[k];
    }
  }
}
