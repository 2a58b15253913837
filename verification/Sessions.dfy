/** Staff sessions in Redis: one hash per session with a sliding time to live, and one set per
    user so that all of a user's sessions can be killed without a scan. */
module Sessions {
  import opened Domain

  type Token = nat

  /** `slack` is how far the idle window may drift before it is slid: 300 in auth.py. The
      configuration leaves the two lengths open. */
  datatype Config = Config(idle: int, absolute: int, slack: int)

  predicate Sane(g: Config) {
    g.idle > 0 && g.absolute > 0 && g.slack >= 0
  }

  datatype Session = Session(uid: User, created: int, death: int)
  datatype Index = Index(keys: set<Token>, death: int)

  /** `drawn` is history: every token ever issued. The key of a session is the hash of its token. */
  datatype State = State(now: int, sess: map<Token, Session>, index: map<User, Index>, drawn: set<Token>)

  function Start(): State {
    State(0, map[], map[], {})
  }

  function KeysOf(s: State, uid: User): set<Token> {
    if uid in s.index then s.index[uid].keys else {}
  }

  function Create(g: Config, s: State, uid: User, token: Token): State {
    s.(sess := s.sess[token := Session(uid, s.now, s.now + g.idle)],
       index := s.index[uid := Index(KeysOf(s, uid) + {token}, s.now + g.absolute)],
       drawn := s.drawn + {token})
  }

  /** DEL of the session and SREM of it from its user's set. */
  function Remove(s: State, token: Token): State {
    if token !in s.sess then s
    else
      var uid := s.sess[token].uid;
      s.(sess := s.sess - {token},
         index := if uid in s.index then s.index[uid := s.index[uid].(keys := s.index[uid].keys - {token})] else s.index)
  }

  predicate Accepts(g: Config, s: State, token: Token) {
    token in s.sess && s.now - s.sess[token].created <= g.absolute
  }

  function Load(g: Config, s: State, token: Token): State {
    if token !in s.sess then s
    else if s.now - s.sess[token].created > g.absolute then Remove(s, token)
    else if s.sess[token].death - s.now < g.idle - g.slack
    then s.(sess := s.sess[token := s.sess[token].(death := s.now + g.idle)])
    else s
  }

  function DestroyAll(s: State, uid: User): State {
    s.(sess := s.sess - KeysOf(s, uid), index := s.index - {uid})
  }

  function Tick(s: State): State {
    s.(now := s.now + 1,
       sess := map t | t in s.sess && s.now + 1 < s.sess[t].death :: s.sess[t],
       index := map u | u in s.index && s.now + 1 < s.index[u].death :: s.index[u])
  }

  datatype Event =
    | SignIn(uid: User, token: Token)
    | Request(token: Token)
    | SignOut(token: Token)
    | SignOutAll(uid: User)
    | NewPassword(uid: User, token: Token)   // change_password: every session goes, then one is issued
    | Second

  /** Tokens are drawn at random and are new. */
  function Step(g: Config, s: State, e: Event): State {
    match e
    case SignIn(uid, token) => if token in s.drawn then s else Create(g, s, uid, token)
    case Request(token) => Load(g, s, token)
    case SignOut(token) => Remove(s, token)
    case SignOutAll(uid) => DestroyAll(s, uid)
    case NewPassword(uid, token) => if token in s.drawn then s else Create(g, DestroyAll(s, uid), uid, token)
    case Second => Tick(s)
  }

  function Run(g: Config, events: seq<Event>): State {
    if events == [] then Start() else Step(g, Run(g, events[..|events| - 1]), events[|events| - 1])
  }

  // ------------------------------------------------------------------ the index

  /** Every session below the absolute cap is in its user's set, and the set outlives it. */
  ghost predicate Indexed(g: Config, s: State, t: Token) {
    t in s.sess ==>
      && t in s.drawn
      && s.sess[t].created <= s.now < s.sess[t].death
      && (s.now - s.sess[t].created < g.absolute ==>
            && s.sess[t].uid in s.index && t in s.index[s.sess[t].uid].keys
            && s.sess[t].created + g.absolute <= s.index[s.sess[t].uid].death)
      && (forall u :: u in s.index && t in s.index[u].keys ==> s.sess[t].uid == u)
  }

  ghost predicate AllIndexed(g: Config, s: State) {
    && (forall t :: Indexed(g, s, t))
    && (forall u :: u in s.index ==> s.index[u].keys <= s.drawn && s.index[u].death <= s.now + g.absolute)
  }

  lemma CreateIndexed(g: Config, s: State, uid: User, token: Token)
    requires Sane(g) && AllIndexed(g, s) && token !in s.drawn
    ensures AllIndexed(g, Create(g, s, uid, token))
  {
    forall t ensures Indexed(g, Create(g, s, uid, token), t) {
      assert Indexed(g, s, t);
    }
  }

  lemma RemoveIndexed(g: Config, s: State, token: Token)
    requires AllIndexed(g, s)
    ensures AllIndexed(g, Remove(s, token))
  {
    forall t ensures Indexed(g, Remove(s, token), t) {
      assert Indexed(g, s, t);
    }
  }

  lemma DestroyAllIndexed(g: Config, s: State, uid: User)
    requires AllIndexed(g, s)
    ensures AllIndexed(g, DestroyAll(s, uid))
  {
    forall t ensures Indexed(g, DestroyAll(s, uid), t) {
      assert Indexed(g, s, t);
    }
  }

  lemma LoadIndexed(g: Config, s: State, token: Token)
    requires Sane(g) && AllIndexed(g, s)
    ensures AllIndexed(g, Load(g, s, token))
  {
    RemoveIndexed(g, s, token);
    forall t ensures Indexed(g, Load(g, s, token), t) {
      assert Indexed(g, s, t);
    }
  }

  lemma TickIndexed(g: Config, s: State)
    requires AllIndexed(g, s)
    ensures AllIndexed(g, Tick(s))
  {
    forall t ensures Indexed(g, Tick(s), t) {
      assert Indexed(g, s, t);
    }
  }

  /** On every run, the set of a user holds every session of theirs below the cap. */
  lemma {:induction false} IndexHolds(g: Config, events: seq<Event>)
    requires Sane(g)
    ensures AllIndexed(g, Run(g, events))
  {
    if events != [] {
      IndexHolds(g, events[..|events| - 1]);
      var s, e := Run(g, events[..|events| - 1]), events[|events| - 1];
      match e
      case SignIn(uid, token) => if token !in s.drawn { CreateIndexed(g, s, uid, token); }
      case Request(token) => LoadIndexed(g, s, token);
      case SignOut(token) => RemoveIndexed(g, s, token);
      case SignOutAll(uid) => DestroyAllIndexed(g, s, uid);
      case NewPassword(uid, token) =>
        DestroyAllIndexed(g, s, uid);
        if token !in s.drawn { CreateIndexed(g, DestroyAll(s, uid), uid, token); }
      case Second => TickIndexed(g, s);
    }
  }

  // ----------------------------------------------------------------- revocation

  /** A token once drawn only ever names the session it was drawn for. */
  ghost predicate Older(s: State, s': State, t: Token) {
    t in s.drawn ==> t in s'.drawn && (t in s'.sess ==> t in s.sess && s'.sess[t].uid == s.sess[t].uid && s'.sess[t].created == s.sess[t].created)
  }

  lemma StepOlder(g: Config, s: State, e: Event, t: Token)
    ensures Older(s, Step(g, s, e), t) && s.now <= Step(g, s, e).now
  {
  }

  lemma RunStep(g: Config, events: seq<Event>, more: seq<Event>)
    requires more != []
    ensures Run(g, events + more) == Step(g, Run(g, events + more[..|more| - 1]), more[|more| - 1])
  {
    assert (events + more)[..|events + more| - 1] == events + more[..|more| - 1];
  }

  lemma {:induction false} RunOlder(g: Config, events: seq<Event>, more: seq<Event>, t: Token)
    ensures Older(Run(g, events), Run(g, events + more), t) && Run(g, events).now <= Run(g, events + more).now
  {
    if more == [] {
      assert events + more == events;
    } else {
      RunOlder(g, events, more[..|more| - 1], t);
      RunStep(g, events, more);
      StepOlder(g, Run(g, events + more[..|more| - 1]), more[|more| - 1], t);
    }
  }

  /** What escapes "sign out everywhere": a session exactly as old as the absolute cap whose
      user's set is gone already, or no longer holds it. */
  ghost predicate Escapes(g: Config, s: State, uid: User, t: Token) {
    && t in s.sess && s.sess[t].uid == uid
    && s.now == s.sess[t].created + g.absolute && t !in KeysOf(s, uid)
  }

  lemma DestroyLeaves(g: Config, s: State, uid: User, t: Token)
    requires AllIndexed(g, s)
    ensures var s' := DestroyAll(s, uid);
            Accepts(g, s', t) && s'.sess[t].uid == uid <==> Escapes(g, s, uid, t)
  {
    assert Indexed(g, s, t);
  }

  /** Which older tokens are accepted for that user right after "sign out everywhere" or a
      password change: exactly those that escape. */
  lemma RevokedExactly(g: Config, events: seq<Event>, e: Event, t: Token)
    requires Sane(g) && (e.SignOutAll? || (e.NewPassword? && e.token !in Run(g, events).drawn && t != e.token))
    ensures var s, s' := Run(g, events), Run(g, events + [e]);
            Accepts(g, s', t) && s'.sess[t].uid == e.uid <==> Escapes(g, s, e.uid, t)
  {
    IndexHolds(g, events);
    assert (events + [e])[..|events|] == events;
    DestroyLeaves(g, Run(g, events), e.uid, t);
  }

  /** However the run goes on, no token drawn before is ever accepted for that user again, but
      for one that escapes, and that one only for what is left of the second. */
  lemma RevokedForEver(g: Config, events: seq<Event>, e: Event, more: seq<Event>, t: Token)
    requires Sane(g) && (e.SignOutAll? || (e.NewPassword? && e.token !in Run(g, events).drawn))
    requires t in Run(g, events).drawn
    requires var s' := Run(g, events + ([e] + more)); Accepts(g, s', t) && s'.sess[t].uid == e.uid
    ensures Run(g, events + ([e] + more)).now == Run(g, events).now && Escapes(g, Run(g, events), e.uid, t)
  {
    var s := Run(g, events);
    assert events + ([e] + more) == (events + [e]) + more;
    assert (events + [e])[..|events + [e]| - 1] == events;
    StepOlder(g, s, e, t);
    RunOlder(g, events + [e], more, t);
    RevokedExactly(g, events, e, t);
  }

  /** The token that a password change issues is accepted. */
  lemma NewTokenWorks(g: Config, events: seq<Event>, uid: User, token: Token)
    requires Sane(g) && token !in Run(g, events).drawn
    ensures Accepts(g, Run(g, events + [NewPassword(uid, token)]), token)
  {
    assert (events + [NewPassword(uid, token)])[..|events|] == events;
  }

  /** A session of user 1 that makes a request every second. */
  function Polled(n: nat): seq<Event> {
    if n == 0 then [SignIn(1, 7)] else Polled(n - 1) + [Second] + [Request(7)]
  }

  /** `n` seconds old, with `death` still to come and, up to the cap, in its user's set. */
  ghost predicate AliveAt(g: Config, s: State, n: nat) {
    && s.now == n && s.sess.Keys == {7} && s.sess[7].uid == 1 && s.sess[7].created == 0
    && n + 1 < s.sess[7].death
    && s.index == if n < g.absolute then map[1 := Index({7}, g.absolute)] else map[]
  }

  lemma SecondAlive(g: Config, s: State, n: nat)
    requires AliveAt(g, s, n) && n < g.absolute
    ensures var s' := Tick(s);
            && s'.now == n + 1 && s'.sess == s.sess && n + 1 < s'.sess[7].death
            && s'.index == if n + 1 < g.absolute then map[1 := Index({7}, g.absolute)] else map[]
  {
    assert Tick(s).sess == s.sess;
  }

  lemma RequestAlive(g: Config, s: State, n: nat)
    requires s.now == n <= g.absolute && s.sess.Keys == {7} && s.sess[7].uid == 1 && s.sess[7].created == 0
    requires s.index == if n < g.absolute then map[1 := Index({7}, g.absolute)] else map[]
    requires g.slack >= 0 && n < s.sess[7].death && g.idle - g.slack >= 2
    ensures AliveAt(g, Load(g, s, 7), n)
  {
  }

  lemma TwoMore(g: Config, events: seq<Event>, e: Event, f: Event)
    ensures Run(g, events + [e] + [f]) == Step(g, Step(g, Run(g, events), e), f)
  {
    assert (events + [e])[..|events|] == events;
    assert (events + [e] + [f])[..|events| + 1] == events + [e];
  }

  lemma RunOne(g: Config, e: Event)
    ensures Run(g, [e]) == Step(g, Start(), e)
  {
    assert [e][..0] == [];
  }

  lemma {:induction false} PolledAlive(g: Config, n: nat)
    requires Sane(g) && g.idle - g.slack >= 2 && n <= g.absolute
    ensures AliveAt(g, Run(g, Polled(n)), n)
  {
    if n == 0 {
      RunOne(g, SignIn(1, 7));
      assert {} + {7} == {7};
      assert AliveAt(g, Create(g, Start(), 1, 7), 0);
    } else {
      PolledAlive(g, n - 1);
      var s := Run(g, Polled(n - 1));
      TwoMore(g, Polled(n - 1), Second, Request(7));
      SecondAlive(g, s, n - 1);
      RequestAlive(g, Tick(s), n);
    }
  }

  /** The exception is real, in the shipped configuration too: a session kept in use until it is
      exactly as old as the cap, whose user has not signed in since, survives "sign out everywhere". */
  lemma CapSecondSurvives(g: Config)
    requires Sane(g) && g.idle - g.slack >= 2
    ensures Escapes(g, Run(g, Polled(g.absolute)), 1, 7)
    ensures Accepts(g, Run(g, Polled(g.absolute) + [SignOutAll(1)]), 7)
  {
    PolledAlive(g, g.absolute);
    RevokedExactly(g, Polled(g.absolute), SignOutAll(1), 7);
  }

  /** So does one that is simply left alone, where the idle window is longer than the cap. */
  function Seconds(n: nat): seq<Event> {
    seq(n, _ => Second)
  }

  /** A single session that nobody uses, `n` seconds old. */
  function Waiting(g: Config, n: int): State {
    State(n, map[7 := Session(1, 0, g.idle)], map[1 := Index({7}, g.absolute)], {7})
  }

  lemma WaitOn(g: Config, n: int)
    requires 0 <= n && n + 1 < g.absolute && n + 1 < g.idle
    ensures Tick(Waiting(g, n)) == Waiting(g, n + 1)
  {
    assert Tick(Waiting(g, n)).sess == Waiting(g, n + 1).sess;
    assert Tick(Waiting(g, n)).index == Waiting(g, n + 1).index;
  }

  lemma {:induction false} WaitAlone(g: Config, n: nat)
    requires n < g.absolute < g.idle
    ensures Run(g, [SignIn(1, 7)] + Seconds(n)) == Waiting(g, n)
  {
    if n == 0 {
      assert [SignIn(1, 7)] + Seconds(0) == [SignIn(1, 7)];
      FirstSecond(g);
    } else {
      WaitAlone(g, n - 1);
      WaitStep(g, n);
      WaitOn(g, n - 1);
    }
  }

  lemma FirstSecond(g: Config)
    ensures Run(g, [SignIn(1, 7)]) == Waiting(g, 0)
  {
    RunOne(g, SignIn(1, 7));
    FirstCreate(g);
  }

  lemma FirstCreate(g: Config)
    ensures Create(g, Start(), 1, 7) == Waiting(g, 0)
  {
    var s := Create(g, Start(), 1, 7);
    assert {} + {7} == {7};
    assert s.sess == Waiting(g, 0).sess;
    assert s.index == Waiting(g, 0).index;
  }

  lemma WaitStep(g: Config, n: nat)
    requires n > 0
    ensures Run(g, [SignIn(1, 7)] + Seconds(n)) == Tick(Run(g, [SignIn(1, 7)] + Seconds(n - 1)))
  {
    assert Seconds(n)[..n - 1] == Seconds(n - 1);
    RunStep(g, [SignIn(1, 7)], Seconds(n));
  }

  lemma AtTheCap(g: Config)
    requires 0 < g.absolute < g.idle
    ensures Escapes(g, Tick(Waiting(g, g.absolute - 1)), 1, 7)
  {
  }

  lemma UnusedSurvives(g: Config)
    requires Sane(g) && g.absolute < g.idle
    ensures Escapes(g, Run(g, [SignIn(1, 7)] + Seconds(g.absolute)), 1, 7)
  {
    WaitAlone(g, g.absolute - 1);
    WaitStep(g, g.absolute);
    AtTheCap(g);
  }

  lemma {:induction false} LeftAlone(g: Config, events: seq<Event>, uid: User, token: Token, n: nat)
    requires Sane(g) && token !in Run(g, events).drawn
    ensures var s, s' := Run(g, events), Run(g, events + [SignIn(uid, token)] + Seconds(n));
            && s'.now == s.now + n && (token in s'.sess <==> n < g.idle)
            && (token in s'.sess ==> s'.sess[token] == Session(uid, s.now, s.now + g.idle))
  {
    var first := events + [SignIn(uid, token)];
    if n == 0 {
      assert first + Seconds(0) == first && first[..|events|] == events;
    } else {
      LeftAlone(g, events, uid, token, n - 1);
      assert Seconds(n)[..n - 1] == Seconds(n - 1);
      RunStep(g, first, Seconds(n));
    }
  }

  /** A session that nobody uses lives for exactly the idle window, and is accepted up to the cap. */
  lemma UnusedLives(g: Config, events: seq<Event>, uid: User, token: Token, n: nat)
    requires Sane(g) && token !in Run(g, events).drawn
    ensures Accepts(g, Run(g, events + [SignIn(uid, token)] + Seconds(n)), token) <==> n < g.idle && n <= g.absolute
  {
    LeftAlone(g, events, uid, token, n);
  }

  /** Where the window is so short that it never slides, a session dies when it is one window old. */
  lemma {:induction false} NeverSlides(g: Config, events: seq<Event>, t: Token)
    requires Sane(g) && g.idle - g.slack < 2 && t in Run(g, events).sess
    ensures Run(g, events).sess[t].death == Run(g, events).sess[t].created + g.idle
  {
    if events != [] {
      var init, e := events[..|events| - 1], events[|events| - 1];
      IndexHolds(g, init);
      assert Indexed(g, Run(g, init), t);
      if t in Run(g, init).sess { NeverSlides(g, init, t); }
    }
  }

  lemma SomeEscape(g: Config, run: seq<Event>, user: User, token: Token)
    requires Escapes(g, Run(g, run), user, token)
    ensures exists events, uid, t :: Escapes(g, Run(g, events), uid, t)
  {
  }

  /** In which configurations anything can escape: exactly those of the two runs above. */
  lemma EscapeNeeds(g: Config)
    requires Sane(g)
    ensures (exists events, uid, t :: Escapes(g, Run(g, events), uid, t)) <==> g.idle - g.slack >= 2 || g.absolute < g.idle
  {
    if g.idle - g.slack >= 2 {
      CapSecondSurvives(g);
      SomeEscape(g, Polled(g.absolute), 1, 7);
    } else if g.absolute < g.idle {
      UnusedSurvives(g);
      SomeEscape(g, [SignIn(1, 7)] + Seconds(g.absolute), 1, 7);
    } else {
      forall events, uid, t ensures !Escapes(g, Run(g, events), uid, t) {
        IndexHolds(g, events);
        assert Indexed(g, Run(g, events), t);
        if t in Run(g, events).sess { NeverSlides(g, events, t); }
      }
    }
  }

  // ------------------------------------------------------ lazy and eager sliding

  /** `a` has no session that `b` has not, and each dies in `b` no sooner, and at most `gap` later. */
  ghost predicate Within(ga: Config, a: State, gb: Config, b: State, gap: int) {
    && a.now == b.now && a.drawn == b.drawn
    && (forall t :: t in a.sess ==> Follows(ga, a, gb, b, gap, t))
    && (forall u :: (u in a.index <==> u in b.index) && (u in a.index ==> a.index[u].death == b.index[u].death))
  }

  ghost predicate Follows(ga: Config, a: State, gb: Config, b: State, gap: int, t: Token)
    requires t in a.sess
  {
    && t in b.sess && a.sess[t].uid == b.sess[t].uid && a.sess[t].created == b.sess[t].created
    && a.sess[t].death <= b.sess[t].death <= a.sess[t].death + gap
    && a.sess[t].death <= a.now + ga.idle && b.sess[t].death <= b.now + gb.idle
    && (forall u :: u in a.index && u in b.index ==> (t in a.index[u].keys <==> t in b.index[u].keys))
  }

  /** Two ways of sliding the same window: one that lets it drift, and one that never does,
      either with the whole window or with the drift taken off it. */
  predicate Compares(ga: Config, gb: Config, gap: int) {
    && Sane(ga) && Sane(gb) && ga.absolute == gb.absolute
    && ((gap == ga.slack && gb == ga.(slack := 0)) || (gap == gb.slack && ga == gb.(idle := gb.idle - gap, slack := 0)))
  }

  lemma CreateWithin(ga: Config, a: State, gb: Config, b: State, gap: int, uid: User, token: Token)
    requires Compares(ga, gb, gap) && Within(ga, a, gb, b, gap) && AllIndexed(ga, a) && AllIndexed(gb, b) && token !in a.drawn
    ensures Within(ga, Create(ga, a, uid, token), gb, Create(gb, b, uid, token), gap)
  {
    var a', b' := Create(ga, a, uid, token), Create(gb, b, uid, token);
    forall t | t in a'.sess ensures Follows(ga, a', gb, b', gap, t) {
      if t != token { assert Follows(ga, a, gb, b, gap, t); }
    }
  }

  lemma RemoveWithin(ga: Config, a: State, gb: Config, b: State, gap: int, token: Token)
    requires Within(ga, a, gb, b, gap) && AllIndexed(ga, a) && AllIndexed(gb, b)
    ensures Within(ga, Remove(a, token), gb, Remove(b, token), gap)
  {
    var a', b' := Remove(a, token), Remove(b, token);
    forall t | t in a'.sess ensures Follows(ga, a', gb, b', gap, t) {
      assert Follows(ga, a, gb, b, gap, t);
    }
  }

  lemma LoadWithin(ga: Config, a: State, gb: Config, b: State, gap: int, token: Token)
    requires Compares(ga, gb, gap) && Within(ga, a, gb, b, gap) && AllIndexed(ga, a) && AllIndexed(gb, b)
    ensures Within(ga, Load(ga, a, token), gb, Load(gb, b, token), gap)
  {
    RemoveWithin(ga, a, gb, b, gap, token);
    var a', b' := Load(ga, a, token), Load(gb, b, token);
    forall t | t in a'.sess ensures Follows(ga, a', gb, b', gap, t) {
      assert Follows(ga, a, gb, b, gap, t);
    }
  }

  lemma DestroyAllWithin(ga: Config, a: State, gb: Config, b: State, gap: int, uid: User)
    requires Within(ga, a, gb, b, gap)
    ensures Within(ga, DestroyAll(a, uid), gb, DestroyAll(b, uid), gap)
  {
    var a', b' := DestroyAll(a, uid), DestroyAll(b, uid);
    forall t | t in a'.sess ensures Follows(ga, a', gb, b', gap, t) {
      assert Follows(ga, a, gb, b, gap, t);
    }
  }

  lemma TickWithin(ga: Config, a: State, gb: Config, b: State, gap: int)
    requires Within(ga, a, gb, b, gap)
    ensures Within(ga, Tick(a), gb, Tick(b), gap)
  {
    var a', b' := Tick(a), Tick(b);
    forall t | t in a'.sess ensures Follows(ga, a', gb, b', gap, t) {
      assert Follows(ga, a, gb, b, gap, t);
    }
  }

  lemma {:induction false} RunsWithin(ga: Config, gb: Config, gap: int, events: seq<Event>)
    requires Compares(ga, gb, gap)
    ensures Within(ga, Run(ga, events), gb, Run(gb, events), gap)
  {
    if events != [] {
      var init, e := events[..|events| - 1], events[|events| - 1];
      RunsWithin(ga, gb, gap, init);
      IndexHolds(ga, init);
      IndexHolds(gb, init);
      var a, b := Run(ga, init), Run(gb, init);
      match e
      case SignIn(uid, token) => if token !in a.drawn { CreateWithin(ga, a, gb, b, gap, uid, token); }
      case Request(token) => LoadWithin(ga, a, gb, b, gap, token);
      case SignOut(token) => RemoveWithin(ga, a, gb, b, gap, token);
      case SignOutAll(uid) => DestroyAllWithin(ga, a, gb, b, gap, uid);
      case NewPassword(uid, token) =>
        if token !in a.drawn {
          DestroyAllWithin(ga, a, gb, b, gap, uid);
          DestroyAllIndexed(ga, a, uid);
          DestroyAllIndexed(gb, b, uid);
          CreateWithin(ga, DestroyAll(a, uid), gb, DestroyAll(b, uid), gap, uid, token);
        }
      case Second => TickWithin(ga, a, gb, b, gap);
    }
  }

  /** Sliding only after a drift of 300 seconds, against sliding on every request: over any
      run, every session that the lazy store keeps the eager one keeps, and their expiries are
      never more than 300 seconds apart; and every session kept by an eager store whose window
      is 300 seconds shorter is kept by the lazy one, so that a session used often enough
      never dies before its cap. */
  lemma LazySliding(idle: int, absolute: int, events: seq<Event>, t: Token)
    requires 300 < idle && 0 < absolute
    ensures var lazy, eager, short := Run(Config(idle, absolute, 300), events), Run(Config(idle, absolute, 0), events),
                                      Run(Config(idle - 300, absolute, 0), events);
            && (t in lazy.sess ==> t in eager.sess && eager.sess[t].death - 300 <= lazy.sess[t].death <= eager.sess[t].death)
            && (t in short.sess ==> t in lazy.sess && short.sess[t].death <= lazy.sess[t].death)
  {
    var lazy, eager, short := Config(idle, absolute, 300), Config(idle, absolute, 0), Config(idle - 300, absolute, 0);
    RunsWithin(lazy, eager, 300, events);
    RunsWithin(short, lazy, 300, events);
    if t in Run(lazy, events).sess { assert Follows(lazy, Run(lazy, events), eager, Run(eager, events), 300, t); }
    if t in Run(short, events).sess { assert Follows(short, Run(short, events), lazy, Run(lazy, events), 300, t); }
  }

  // --------------------------------------------------------------- in regular use

  /** This event, in state `s`, issues the token or is a request made with it. */
  predicate Uses(s: State, e: Event, t: Token) {
    || e == Request(t)
    || ((e.SignIn? || e.NewPassword?) && e.token == t && t !in s.drawn)
  }

  /** When the token was last issued or used. */
  function LastUse(g: Config, events: seq<Event>, t: Token): int {
    if events == [] then 0
    else
      var init, e := events[..|events| - 1], events[|events| - 1];
      if Uses(Run(g, init), e, t) then Run(g, init).now else LastUse(g, init, t)
  }

  /** Neither signed out nor revoked by this event. */
  predicate Spares(e: Event, uid: User, t: Token) {
    e != SignOut(t) && e != SignOutAll(uid) && !(e.NewPassword? && e.uid == uid)
  }

  /** The session that event `c` issued is spared by every later event, and at every moment
      since then the last use is less than the lazy window ago. */
  ghost predicate InUse(g: Config, events: seq<Event>, c: nat, uid: User, t: Token)
    requires c < |events|
  {
    && (events[c] == SignIn(uid, t) || events[c] == NewPassword(uid, t)) && t !in Run(g, events[..c]).drawn
    && (forall i :: c < i < |events| ==> Spares(events[i], uid, t))
    && (forall n :: c < n <= |events| ==> Recent(g, events[..n], t))
  }

  predicate Recent(g: Config, events: seq<Event>, t: Token) {
    Run(g, events).now - LastUse(g, events, t) < g.idle - g.slack
  }

  ghost predicate Lives(g: Config, events: seq<Event>, uid: User, t: Token, created: int) {
    var s := Run(g, events);
    && t in s.sess && s.sess[t].uid == uid && s.sess[t].created == created
    && LastUse(g, events, t) + g.idle - g.slack <= s.sess[t].death
  }

  lemma LivesOn(g: Config, events: seq<Event>, e: Event, uid: User, t: Token, created: int)
    requires Sane(g) && Lives(g, events, uid, t, created) && AllIndexed(g, Run(g, events))
    requires Spares(e, uid, t) && Recent(g, events + [e], t) && Run(g, events + [e]).now - created <= g.absolute
    ensures Lives(g, events + [e], uid, t, created)
  {
    var s := Run(g, events);
    assert (events + [e])[..|events|] == events;
    assert Indexed(g, s, t);
  }

  /** A token used more often than every idle window less its drift, 300 seconds, never signed
      out and not older than the cap is never lost, whatever anyone else does. */
  lemma {:induction false} RegularUseLives(g: Config, events: seq<Event>, c: nat, uid: User, t: Token)
    requires Sane(g) && c < |events| && InUse(g, events, c, uid, t)
    requires Run(g, events).now - Run(g, events[..c]).now <= g.absolute
    ensures Lives(g, events, uid, t, Run(g, events[..c]).now) && Accepts(g, Run(g, events), t)
  {
    var n := |events| - 1;
    var init := events[..n];
    assert init + [events[n]] == events;
    IndexHolds(g, init);
    if n > c {
      assert init[..c] == events[..c];
      forall k | c < k <= n ensures Recent(g, init[..k], t) {
        assert init[..k] == events[..k];
        assert Recent(g, events[..k], t);
      }
      assert forall i :: c < i < n ==> Spares(init[i], uid, t);
      RunOlder(g, init, [events[n]], t);
      RegularUseLives(g, init, c, uid, t);
      assert events[..n + 1] == events;
      LivesOn(g, init, events[n], uid, t, Run(g, events[..c]).now);
    }
  }

  /** Where nothing drifts, what counts is the last use: an accepted request puts the expiry at
      a full window from now. */
  lemma EagerResets(g: Config, events: seq<Event>, t: Token)
    requires Sane(g) && g.slack == 0 && Accepts(g, Run(g, events), t)
    ensures var s := Run(g, events + [Request(t)]);
            t in s.sess && s.sess[t].death == s.now + g.idle
  {
    RunsWithin(g, g, 0, events);
    assert Follows(g, Run(g, events), g, Run(g, events), 0, t);
    assert (events + [Request(t)])[..|events|] == events;
  }

  // ------------------------------------------------------------------- in place

  /** auth.py over the module-level client. */
  class Keeper {
    const g: Config
    var now: int
    var sess: map<Token, Session>
    var index: map<User, Index>
    ghost var drawn: set<Token>

    ghost function Value(): State
      reads this
    {
      State(now, sess, index, drawn)
    }

    constructor (g: Config)
      ensures Value() == Start() && this.g == g
    {
      this.g, now, sess, index, drawn := g, 0, map[], map[], {};
    }

    method CreateSession(uid: User, token: Token)
      requires token !in drawn
      modifies this
      ensures Value() == Step(g, old(Value()), SignIn(uid, token))
      ensures 0 <= g.absolute ==> Accepts(g, Value(), token)
      ensures sess == old(sess)[token := Session(uid, now, now + g.idle)]
      ensures uid in index && token in index[uid].keys && index[uid].death == now + g.absolute
      ensures forall u :: u != uid ==> (u in index <==> u in old(index)) && (u in index ==> index[u] == old(index)[u])
    {
      sess := sess[token := Session(uid, now, now + g.idle)];
      var keys := if uid in index then index[uid].keys else {};
      index := index[uid := Index(keys + {token}, now + g.absolute)];
      drawn := drawn + {token};
    }

    method LoadSession(token: Token) returns (user: Option<User>)
      modifies this
      ensures Value() == Step(g, old(Value()), Request(token))
      ensures user == if Accepts(g, old(Value()), token) then Some(old(sess[token].uid)) else None
      ensures user.Some? ==>
                && sess == old(sess)[token := sess[token]] && index == old(index)
                && sess[token] == old(sess)[token].(death := if old(sess)[token].death - now < g.idle - g.slack
                                                             then now + g.idle else old(sess)[token].death)
      ensures user.None? ==> sess == old(sess) - {token}
    {
      if token !in sess {
        return None;
      }
      var d := sess[token];
      if now - d.created > g.absolute {
        Discard(token);
        return None;
      }
      if d.death - now < g.idle - g.slack {
        sess := sess[token := d.(death := now + g.idle)];
      }
      user := Some(d.uid);
    }

    method Discard(token: Token)
      requires token in sess
      modifies this
      ensures Value() == Remove(old(Value()), token)
    {
      var uid := sess[token].uid;
      sess := sess - {token};
      if uid in index {
        index := index[uid := index[uid].(keys := index[uid].keys - {token})];
      }
    }

    method DestroySession(token: Token)
      modifies this
      ensures Value() == Step(g, old(Value()), SignOut(token))
      ensures sess == old(sess) - {token}
      ensures forall u :: u in index ==> u in old(index) && index[u].keys <= old(index)[u].keys <= index[u].keys + {token}
    {
      if token in sess {
        Discard(token);
      }
    }

    /** SMEMBERS, then one DEL a key, then DEL of the set. */
    method DestroyAllSessions(uid: User)
      modifies this
      ensures Value() == Step(g, old(Value()), SignOutAll(uid))
      ensures forall t :: t in sess <==> t in old(sess) && !(uid in old(index) && t in old(index)[uid].keys)
      ensures forall t :: t in sess ==> sess[t] == old(sess)[t]
      ensures index == old(index) - {uid}
    {
      var keys := if uid in index then index[uid].keys else {};
      var left := keys;
      assert sess - {} == sess;
      while left != {}
        invariant left <= keys && sess == old(sess) - (keys - left)
        invariant index == old(index) && now == old(now) && drawn == old(drawn)
        decreases |left|
      {
        var k :| k in left;
        sess := sess - {k};
        assert keys - (left - {k}) == (keys - left) + {k};
        left := left - {k};
      }
      assert keys - {} == keys;
      index := index - {uid};
    }

    /** The end of change_password. */
    method ChangePassword(uid: User, token: Token)
      requires token !in drawn
      modifies this
      ensures Value() == Step(g, old(Value()), NewPassword(uid, token))
      ensures token in sess && sess[token] == Session(uid, now, now + g.idle)
      ensures forall t :: t != token ==> (t in sess <==> t in old(sess) && !(uid in old(index) && t in old(index)[uid].keys))
    {
      DestroyAllSessions(uid);
      CreateSession(uid, token);
    }

    method Wait()
      modifies this
      ensures Value() == Step(g, old(Value()), Second)
    {
      now := now + 1;
      sess := map t | t in sess && now < sess[t].death :: sess[t];
      index := map u | u in index && now < index[u].death :: index[u];
    }
  }
}
