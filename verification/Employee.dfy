/** One employee's keypair over any interleaving of that employee's tabs, of administrators
    resetting the password and of the domain changing it. */
module Employee {
  import opened Domain
  import opened Crypto
  import opened Keys
  import opened Vault

  datatype Event =
    | OpenTab(t: nat, storage: bool)
    | OpensBeside(t: nat, from: nat)                    // a new tab of the same browser: its cookie, empty slots
    | Copies(t: nat, from: nat)                         // a duplicated tab: its cookie, the same slots
    | Reloads(t: nat, from: nat)                        // slots stay, memory goes, the cookie is that of `from`
    | CloseTab(t: nat)
    | SignsIn(t: nat, password: string, d: Draws)
    | SignsOut(t: nat)
    | Types(t: nat, typed: string, d: Draws)            // the unlock prompt
    | Moves(t: nat, old_: string, d: Draws)             // "move my key"
    | StartsOver(t: nat, d: Draws)                      // "issue a new key"
    | Changes(t: nat, current: string, next: string, d: Draws)
    | ResetPw(temp: string)                             // manage.py resetpw; refused for a domain account
    | DomainChange(next: string)

  /** `reset` is history: a resetpw that no sign-in has followed yet. */
  datatype Office = Office(account: Account, tabs: map<nat, Tab>, reset: bool)

  function Opening(password: string, ad: bool): Office {
    Office(Account(None, password, ad), map[], false)
  }

  function With(w: Office, t: nat, r: (Account, Tab)): Office {
    w.(account := r.0, tabs := w.tabs[t := r.1])
  }

  predicate InTab(e: Event) {
    !e.ResetPw? && !e.DomainChange? && !e.OpenTab? && !e.OpensBeside? && !e.Copies?
  }

  function After(c: Suite, w: Office, e: Event): Office {
    if InTab(e) && e.t !in w.tabs then w
    else
      match e
      case OpenTab(t, storage) =>
        if t in w.tabs then w else w.(tabs := w.tabs[t := Tab(storage, None, None, None, false)])
      case OpensBeside(t, from) =>
        if t in w.tabs || from !in w.tabs then w
        else w.(tabs := w.tabs[t := Tab(w.tabs[from].storage, None, None, None, w.tabs[from].signedIn)])
      case Copies(t, from) =>
        if t in w.tabs || from !in w.tabs then w else w.(tabs := w.tabs[t := w.tabs[from].(password := None)])
      case Reloads(t, from) =>
        if from !in w.tabs then w
        else w.(tabs := w.tabs[t := w.tabs[t].(password := None, signedIn := w.tabs[from].signedIn)])
      case CloseTab(t) => w.(tabs := w.tabs - {t})
      case SignsIn(t, password, d) =>
        With(w, t, Login(c, w.account, w.tabs[t], password, d)).(reset := w.reset && password != w.account.password)
      case SignsOut(t) => w.(tabs := w.tabs[t := Logout(w.tabs[t])])
      case Types(t, typed, d) => With(w, t, Prompt(c, w.account, w.tabs[t], typed, d))
      case Moves(t, old_, d) => With(w, t, Migrate(c, w.account, w.tabs[t], old_, d))
      case StartsOver(t, d) => With(w, t, StartOver(c, w.account, w.tabs[t], d))
      case Changes(t, current, next, d) => With(w, t, Change(c, w.account, w.tabs[t], current, next, d))
      case ResetPw(temp) =>
        // every session is killed; what the tabs have stored stays
        if w.account.ad then w
        else w.(account := w.account.(password := temp), reset := true,
                tabs := map t | t in w.tabs :: w.tabs[t].(signedIn := false))
      case DomainChange(next) =>
        if w.account.ad then w.(account := w.account.(password := next)) else w
  }

  predicate Proper(e: Event) {
    match e
    case SignsIn(_, _, d) => AllDrawn(d)
    case Types(_, _, d) => AllDrawn(d)
    case Moves(_, _, d) => AllDrawn(d)
    case StartsOver(_, d) => AllDrawn(d)
    case Changes(_, _, _, d) => AllDrawn(d)
    case _ => true
  }

  predicate AllProper(events: seq<Event>) {
    forall e :: e in events ==> Proper(e)
  }

  function Day(c: Suite, w: Office, events: seq<Event>): Office {
    if events == [] then w else After(c, Day(c, w, events[..|events| - 1]), events[|events| - 1])
  }

  // --------------------------------------------------------------- the invariant

  ghost predicate TabFits(c: Suite, w: Office, tab: Tab) {
    && TabOk(c, tab)
    && (tab.signedIn ==> w.account.keys.Some? && !w.reset)
    && (tab.password.Some? ==> w.account.ad)
  }

  /** A local account's password opens its key, unless it was reset since. */
  ghost predicate AccountFits(c: Suite, a: Account, reset: bool) {
    && KeysOk(c, a.keys)
    && (reset ==> !a.ad)
    && (!a.ad && !reset && a.keys.Some? ==> Readable(c, a.keys, a.password))
  }

  ghost predicate Fits(c: Suite, w: Office) {
    && AccountFits(c, w.account, w.reset)
    && (forall t :: t in w.tabs ==> TabFits(c, w, w.tabs[t]))
  }

  /** The keypair before is the keypair after. */
  predicate SameKey(a: Account, a': Account) {
    a.keys.Some? ==> a'.keys.Some? && a'.keys.value.pubkey == a.keys.value.pubkey
  }

  lemma LoginFits(c: Suite, w: Office, tab: Tab, password: string, d: Draws)
    requires Sound(c) && AccountFits(c, w.account, w.reset) && TabFits(c, w, tab) && AllDrawn(d)
    ensures var (a', tab') := Login(c, w.account, tab, password, d);
            var reset' := w.reset && password != w.account.password;
            && AccountFits(c, a', reset') && TabFits(c, Office(a', map[], reset'), tab')
            && a'.ad == w.account.ad && a'.password == w.account.password && (w.account.keys.Some? ==> a'.keys.Some?)
            && (w.account.ad || !w.reset || Readable(c, w.account.keys, password) ==> SameKey(w.account, a'))
            && (a' != w.account ==> password == w.account.password)
  {
    UnlockDoes(c, w.account.keys, tab, password, !w.account.ad, d.first, d.second);
  }

  lemma PromptFits(c: Suite, w: Office, tab: Tab, typed: string, d: Draws)
    requires Sound(c) && AccountFits(c, w.account, w.reset) && TabFits(c, w, tab) && AllDrawn(d)
    ensures var (a', tab') := Prompt(c, w.account, tab, typed, d);
            a' == w.account && TabFits(c, w, tab')
  {
    UnlockDoes(c, w.account.keys, tab, typed, false, d.first, d.second);
  }

  lemma MigrateFits(c: Suite, w: Office, tab: Tab, old_: string, d: Draws)
    requires Sound(c) && AccountFits(c, w.account, w.reset) && TabFits(c, w, tab) && AllDrawn(d)
    ensures var (a', tab') := Migrate(c, w.account, tab, old_, d);
            && AccountFits(c, a', w.reset) && TabFits(c, Office(a', map[], w.reset), tab')
            && a'.ad == w.account.ad && SameKey(w.account, a')
  {
    if tab.password.Some? { MigrateDoes(c, w.account.keys, tab, old_, tab.password.value, d); }
  }

  lemma StartOverFits(c: Suite, w: Office, tab: Tab, d: Draws)
    requires Sound(c) && AccountFits(c, w.account, w.reset) && TabFits(c, w, tab) && AllDrawn(d)
    ensures var (a', tab') := StartOver(c, w.account, tab, d);
            && AccountFits(c, a', w.reset) && TabFits(c, Office(a', map[], w.reset), tab')
            && a'.ad == w.account.ad && (w.account.keys.Some? ==> a'.keys.Some?)
            && (!w.account.ad ==> a' == w.account)
  {
    if tab.password.Some? {
      var current := tab.password.value;
      CreateMatches(c, current, d.first);
      assert Holds(c, CreateKeys(c, current, d.first), d.first.secret, current);
      UnlockDoes(c, Some(CreateKeys(c, current, d.first)), tab, current, false, d.second, d.third);
    }
  }

  lemma ChangeFits(c: Suite, w: Office, tab: Tab, current: string, next: string, d: Draws)
    requires Sound(c) && AccountFits(c, w.account, w.reset) && TabFits(c, w, tab) && AllDrawn(d)
    ensures var (a', tab') := Change(c, w.account, tab, current, next, d);
            && AccountFits(c, a', w.reset) && TabFits(c, Office(a', map[], w.reset), tab')
            && a'.ad == w.account.ad && SameKey(w.account, a')
  {
    if tab.signedIn && !w.account.ad && current == w.account.password {
      var keys := w.account.keys.value;
      var s, p :| Holds(c, keys, s, p);
      RewrapMoves(c, keys, s, p, current, next, d.third);
      UnlockDoes(c, Rewrap(c, keys, current, next, d.third), tab, next, false, d.first, d.second);
    }
  }

  /** What is written for one tab, the others keep. */
  lemma OthersFit(c: Suite, w: Office, t: nat, r: (Account, Tab), reset': bool)
    requires Fits(c, w) && (reset' ==> w.reset)
    requires AccountFits(c, r.0, reset') && TabFits(c, Office(r.0, map[], reset'), r.1)
    requires r.0.ad == w.account.ad && (w.account.keys.Some? ==> r.0.keys.Some?)
    ensures Fits(c, With(w, t, r).(reset := reset'))
  {
    var w' := With(w, t, r).(reset := reset');
    forall u | u in w'.tabs ensures TabFits(c, w', w'.tabs[u]) {
      if u != t { assert TabFits(c, w, w.tabs[u]); }
    }
  }

  lemma TabEventFits(c: Suite, w: Office, e: Event)
    requires Sound(c) && Fits(c, w) && Proper(e) && InTab(e) && e.t in w.tabs && !e.CloseTab? && !e.SignsOut? && !e.Reloads?
    ensures Fits(c, After(c, w, e))
  {
    var tab := w.tabs[e.t];
    assert TabFits(c, w, tab);
    match e
    case SignsIn(t, password, d) =>
      LoginFits(c, w, tab, password, d);
      OthersFit(c, w, t, Login(c, w.account, tab, password, d), w.reset && password != w.account.password);
    case Types(t, typed, d) =>
      PromptFits(c, w, tab, typed, d);
      OthersFit(c, w, t, Prompt(c, w.account, tab, typed, d), w.reset);
    case Moves(t, old_, d) =>
      MigrateFits(c, w, tab, old_, d);
      OthersFit(c, w, t, Migrate(c, w.account, tab, old_, d), w.reset);
    case StartsOver(t, d) =>
      StartOverFits(c, w, tab, d);
      OthersFit(c, w, t, StartOver(c, w.account, tab, d), w.reset);
    case Changes(t, current, next, d) =>
      ChangeFits(c, w, tab, current, next, d);
      OthersFit(c, w, t, Change(c, w.account, tab, current, next, d), w.reset);
  }

  lemma AfterFits(c: Suite, w: Office, e: Event)
    requires Sound(c) && Fits(c, w) && Proper(e)
    ensures Fits(c, After(c, w, e))
  {
    if InTab(e) && e.t in w.tabs && !e.CloseTab? && !e.SignsOut? && !e.Reloads? {
      TabEventFits(c, w, e);
    } else {
      var w' := After(c, w, e);
      forall u | u in w'.tabs ensures TabFits(c, w', w'.tabs[u]) {
        if u in w.tabs { assert TabFits(c, w, w.tabs[u]); }
        if (e.OpensBeside? || e.Copies? || e.Reloads?) && e.from in w.tabs { assert TabFits(c, w, w.tabs[e.from]); }
      }
    }
  }

  // --------------------------------------------------------------- over every day

  /** However the tabs interleave: the bundle on the server and the two slots of every tab
      are always the two halves of one keypair, and a local account's password opens its key
      unless it has been reset since the last sign-in. */
  lemma {:induction false} AlwaysFits(c: Suite, password: string, ad: bool, events: seq<Event>)
    requires Sound(c) && AllProper(events)
    ensures Fits(c, Day(c, Opening(password, ad), events))
  {
    if events != [] {
      AlwaysFits(c, password, ad, events[..|events| - 1]);
      AfterFits(c, Day(c, Opening(password, ad), events[..|events| - 1]), events[|events| - 1]);
    }
  }

  /** What may replace a keypair: the button that says so, on a domain account; or, on a local
      one, the first sign-in after a resetpw whose password does not open the key. */
  predicate Replaces(c: Suite, w: Office, e: Event) {
    || (e.StartsOver? && w.account.ad)
    || (e.SignsIn? && !w.account.ad && w.reset && e.password == w.account.password && !Readable(c, w.account.keys, e.password))
  }

  lemma OnlyReplacedBy(c: Suite, w: Office, e: Event)
    requires Sound(c) && Fits(c, w) && Proper(e)
    ensures !Replaces(c, w, e) ==> SameKey(w.account, After(c, w, e).account)
  {
    if InTab(e) && e.t in w.tabs {
      var tab := w.tabs[e.t];
      assert TabFits(c, w, tab);
      match e
      case SignsIn(t, password, d) => LoginFits(c, w, tab, password, d);
      case Types(t, typed, d) => PromptFits(c, w, tab, typed, d);
      case Moves(t, old_, d) => MigrateFits(c, w, tab, old_, d);
      case StartsOver(t, d) => StartOverFits(c, w, tab, d);
      case Changes(t, current, next, d) => ChangeFits(c, w, tab, current, next, d);
      case _ =>
    }
  }

  lemma DayOnly(c: Suite, w: Office, events: seq<Event>, more: seq<Event>)
    requires more != []
    ensures Day(c, w, events + more) == After(c, Day(c, w, events + more[..|more| - 1]), more[|more| - 1])
  {
    assert (events + more)[..|events + more| - 1] == events + more[..|more| - 1];
  }

  /** An administrator's resetpw changes a local account's password and signs every tab out; the
      next sign-in, with the temporary password, ends with a key that it opens, the old one if it
      opened that. */
  lemma ResetThenSignIn(c: Suite, w: Office, temp: string, t: nat, d: Draws)
    requires Sound(c) && Fits(c, w) && AllDrawn(d) && !w.account.ad && t in w.tabs
    ensures var w1 := After(c, w, ResetPw(temp)); var w2 := After(c, w1, SignsIn(t, temp, d));
            && w1.account == w.account.(password := temp) && w1.tabs.Keys == w.tabs.Keys
            && (forall u :: u in w1.tabs ==> !w1.tabs[u].signedIn)
            && t in w2.tabs && w2.tabs[t].signedIn && !w2.reset
            && w2.account.password == temp && Readable(c, w2.account.keys, temp)
            && (Readable(c, w.account.keys, temp) ==> w2.account.keys == w.account.keys)
  {
    assert TabFits(c, w, w.tabs[t]);
    LoginDoes(c, w.account.(password := temp), w.tabs[t].(signedIn := false), temp, d);
  }

  /** A local account's day: sign in, change the password, sign out, sign in with the new one. The
      key is the same, the new password opens it, and the tab holds it at the end and nothing
      while it was signed out. */
  lemma LocalDay(c: Suite, w: Office, t: nat, next: string, d1: Draws, d2: Draws, d3: Draws)
    requires Sound(c) && Fits(c, w) && AllDrawn(d1) && AllDrawn(d2) && AllDrawn(d3)
    requires !w.account.ad && !w.reset && w.account.keys.Some? && t in w.tabs && w.tabs[t].storage
    ensures var w1 := After(c, w, SignsIn(t, w.account.password, d1));
            var w2 := After(c, w1, Changes(t, w.account.password, next, d2));
            var w3 := After(c, w2, SignsOut(t));
            var w4 := After(c, w3, SignsIn(t, next, d3));
            && t in w1.tabs && HoldsKey(w1.tabs[t], w.account.keys)
            && w2.account.password == next && Readable(c, w2.account.keys, next) && SameKey(w.account, w2.account)
            && w3.account == w2.account && t in w3.tabs && NeedsPassword(w3.tabs[t]) && !w3.tabs[t].signedIn
            && w4.account == w2.account && t in w4.tabs && HoldsKey(w4.tabs[t], w.account.keys)
  {
    var w1 := After(c, w, SignsIn(t, w.account.password, d1));
    var w2 := After(c, w1, Changes(t, w.account.password, next, d2));
    var w3 := After(c, w2, SignsOut(t));
    assert TabFits(c, w, w.tabs[t]);
    LoginDoes(c, w.account, w.tabs[t], w.account.password, d1);
    ChangeDoes(c, w1.account, w1.tabs[t], w.account.password, next, d2);
    LoginDoes(c, w3.account, w3.tabs[t], next, d3);
  }

  /** A domain account whose password the domain has changed: the sign-in keeps the shut key. */
  lemma DomainSignIn(c: Suite, w: Office, t: nat, next: string, d: Draws)
    requires Sound(c) && Fits(c, w) && AllDrawn(d) && w.account.ad && t in w.tabs
    requires Readable(c, w.account.keys, w.account.password) && !Readable(c, w.account.keys, next)
    ensures var w1 := After(c, w, DomainChange(next)); var w2 := After(c, w1, SignsIn(t, next, d));
            && w1.account == w.account.(password := next)
            && t in w2.tabs && w2.account == w1.account && w2.tabs[t].signedIn && w2.tabs[t].storage == w.tabs[t].storage
            && TabOk(c, w2.tabs[t]) && NeedsPassword(w2.tabs[t]) && w2.tabs[t].password == Some(next)
  {
    assert TabFits(c, w, w.tabs[t]);
    LoginDoes(c, w.account.(password := next), w.tabs[t], next, d);
    UnlockDoes(c, w.account.keys, w.tabs[t], next, false, d.first, d.second);
  }

  /** From there, moving the key across with the previous password gives the same key back,
      wrapped under the new one; starting over publishes a new key; and the prompt, given the
      previous password, opens the old one without touching it. */
  lemma DomainRecovers(c: Suite, w: Office, t: nat, previous: string, d: Draws)
    requires Sound(c) && KeysOk(c, w.account.keys) && AllDrawn(d) && t in w.tabs && TabOk(c, w.tabs[t]) && w.tabs[t].storage
    requires w.tabs[t].signedIn && w.tabs[t].password == Some(w.account.password) && Readable(c, w.account.keys, previous)
    ensures var m := After(c, w, Moves(t, previous, d));
            t in m.tabs && SameKey(w.account, m.account) && Readable(c, m.account.keys, w.account.password) && HoldsKey(m.tabs[t], w.account.keys)
    ensures var n := After(c, w, StartsOver(t, d));
            && t in n.tabs && Readable(c, n.account.keys, w.account.password) && HoldsKey(n.tabs[t], n.account.keys)
            && n.account.keys.value.pubkey == c.publicOf(d.first.secret)
    ensures var u := After(c, w, Types(t, previous, d));
            t in u.tabs && u.account == w.account && HoldsKey(u.tabs[t], w.account.keys)
  {
    MoveDoes(c, w.account, w.tabs[t], previous, d);
    StartOverDoes(c, w.account, w.tabs[t], d);
    PromptDoes(c, w.account, w.tabs[t], previous, d);
  }

  /** No reset is pending, and none comes. */
  lemma {:induction false} NoReset(c: Suite, w: Office, events: seq<Event>, more: seq<Event>)
    requires !Day(c, w, events).reset && forall e :: e in more ==> !e.ResetPw?
    ensures !Day(c, w, events + more).reset
  {
    if more == [] {
      assert events + more == events;
    } else {
      NoReset(c, w, events, more[..|more| - 1]);
      DayOnly(c, w, events, more);
    }
  }

  /** While nobody resets the password and nobody starts over, the published key is the same
      for ever, whatever is typed in whichever tab: no reply is ever orphaned by a typo, by a
      password change, or by the domain. */
  lemma {:induction false} KeyIsKept(c: Suite, password: string, ad: bool, events: seq<Event>, more: seq<Event>)
    requires Sound(c) && AllProper(events + more)
    requires var w := Day(c, Opening(password, ad), events); !w.reset
    requires forall e :: e in more ==> !e.ResetPw? && !e.StartsOver?
    ensures var w := Opening(password, ad);
            SameKey(Day(c, w, events).account, Day(c, w, events + more).account)
  {
    var w := Opening(password, ad);
    if more == [] {
      assert events + more == events;
    } else {
      var init := more[..|more| - 1];
      assert forall e :: e in events + init ==> e in events + more;
      KeyIsKept(c, password, ad, events, init);
      NoReset(c, w, events, init);
      AlwaysFits(c, password, ad, events + init);
      OnlyReplacedBy(c, Day(c, w, events + init), more[|more| - 1]);
      DayOnly(c, w, events, more);
    }
  }

  /** The common case under a domain: the password has changed, the sign-in cannot open the
      key and keeps it, and the previous password moves it across, back to the same key. */
  lemma DomainChangeRecovers(c: Suite, a: Account, tab: Tab, previous: string, d: Draws, d2: Draws)
    requires Sound(c) && a.ad && KeysOk(c, a.keys) && TabOk(c, tab) && AllDrawn(d) && AllDrawn(d2) && tab.storage
    requires Readable(c, a.keys, previous) && !Readable(c, a.keys, a.password)
    ensures var (a1, tab1) := Login(c, a, tab, a.password, d);
            var (a2, tab2) := Migrate(c, a1, tab1, previous, d2);
            && a1 == a && NeedsPassword(tab1) && tab1.password == Some(a.password)
            && SameKey(a, a2) && Readable(c, a2.keys, a2.password) && tab2.pub == Some(a.keys.value.pubkey) && tab2.password == None
  {
    UnlockDoes(c, a.keys, tab, a.password, false, d.first, d.second);
    var (a1, tab1) := Login(c, a, tab, a.password, d);
    MigrateDoes(c, a1.keys, tab1, previous, a.password, d2);
  }
}
