/** vault.ts and the pages that call it: one employee's keypair, as the server keeps it and
    as each browser tab holds it. First as functions on the account's record and one tab,
    then as classes whose fields are updated in place. */
module Vault {
  import opened Domain
  import opened Crypto
  import opened Keys

  /** The user's row: the wrapped keypair, the password that signs in, where it lives. */
  datatype Account = Account(keys: Option<Wrapped>, password: string, ad: bool)

  /** sessionStorage of one tab, which either works or refuses every write; and the password
      kept from a sign-in whose key would not open. */
  datatype Tab = Tab(storage: bool, priv: Option<Bytes>, pub: Option<Bytes>, password: Option<string>, signedIn: bool)

  /** What one action draws: at most three keypairs or wrappings. */
  datatype Draws = Draws(first: Draw, second: Draw, third: Draw)

  predicate AllDrawn(d: Draws) {
    Drawn(d.first) && Drawn(d.second) && Drawn(d.third)
  }

  function Stash(tab: Tab, priv: Bytes, pub: Bytes): Tab {
    if tab.storage then tab.(priv := Some(priv), pub := Some(pub)) else tab
  }

  function Forget(tab: Tab): Tab {
    tab.(priv := None, pub := None)
  }

  predicate NeedsPassword(tab: Tab) {
    tab.priv.None? || tab.priv.value == []
  }

  // ------------------------------------------------------------------- vault.ts

  /** The wrapped keys an unlock ends with, and the tab. */
  function Unlock(c: Suite, keys: Option<Wrapped>, tab: Tab, password: string, rotate: bool, first: Draw, second: Draw): (Wrapped, Tab) {
    var mine := if keys.Some? then keys.value else CreateKeys(c, password, first);
    match UnwrapRaw(c, mine, password)
    case Some(raw) => (mine, Stash(tab, raw, mine.pubkey))
    case None =>
      if rotate then
        var new_ := CreateKeys(c, password, second);
        match UnwrapRaw(c, new_, password)
        case Some(raw) => (new_, Stash(Forget(tab), raw, new_.pubkey))
        case None => (new_, Forget(tab))
      else
        (mine, Forget(tab))
  }

  function MigrateKey(c: Suite, keys: Option<Wrapped>, tab: Tab, old_: string, current: string, d: Draws): (Option<Wrapped>, Tab, bool) {
    if keys.None? then (None, tab, false)
    else
      match Rewrap(c, keys.value, old_, current, d.first)
      case None => (keys, tab, false)
      case Some(moved) =>
        var (after, tab') := Unlock(c, Some(moved), tab, current, false, d.second, d.third);
        (Some(after), tab', !NeedsPassword(tab'))
  }

  function AbandonKey(c: Suite, tab: Tab, current: string, d: Draws): (Wrapped, Tab) {
    Unlock(c, Some(CreateKeys(c, current, d.first)), tab, current, false, d.second, d.third)
  }

  // -------------------------------------------------------------------- the pages

  /** auth.tsx login: the server has checked the password before any of this runs. */
  function Login(c: Suite, a: Account, tab: Tab, password: string, d: Draws): (Account, Tab) {
    if password != a.password then (a, tab)
    else
      var (keys, tab') := Unlock(c, a.keys, tab, password, !a.ad, d.first, d.second);
      (a.(keys := Some(keys)),
       tab'.(signedIn := true, password := if a.ad && NeedsPassword(tab') then Some(password) else None))
  }

  /** The unlock prompt of the requests page: the password is whatever was typed. */
  function Prompt(c: Suite, a: Account, tab: Tab, typed: string, d: Draws): (Account, Tab) {
    if !tab.signedIn then (a, tab)
    else
      var (keys, tab') := Unlock(c, a.keys, tab, typed, false, d.first, d.second);
      (a.(keys := Some(keys)), tab')
  }

  /** KeyMigration: shown only while a sign-in's password is kept. */
  function Migrate(c: Suite, a: Account, tab: Tab, old_: string, d: Draws): (Account, Tab) {
    if !tab.signedIn || tab.password.None? then (a, tab)
    else
      var (keys, tab', ok) := MigrateKey(c, a.keys, tab, old_, tab.password.value, d);
      (a.(keys := keys), if ok then tab'.(password := None) else tab')
  }

  function StartOver(c: Suite, a: Account, tab: Tab, d: Draws): (Account, Tab) {
    if !tab.signedIn || tab.password.None? then (a, tab)
    else
      var (keys, tab') := AbandonKey(c, tab, tab.password.value, d);
      (a.(keys := Some(keys)), tab'.(password := None))
  }

  /** ChangePassword submit: the server's change first, then the re-wrap, then the unlock;
      a re-wrap that throws leaves the rest undone. */
  function Change(c: Suite, a: Account, tab: Tab, current: string, next: string, d: Draws): (Account, Tab) {
    if !tab.signedIn || a.ad || current != a.password then (a, tab)
    else
      var a1 := a.(password := next);
      if a.keys.None? then Unlocked(c, a1, tab, next, d)
      else
        match Rewrap(c, a.keys.value, current, next, d.third)
        case None => (a1, tab)
        case Some(moved) => Unlocked(c, a1.(keys := Some(moved)), tab, next, d)
  }

  function Unlocked(c: Suite, a: Account, tab: Tab, password: string, d: Draws): (Account, Tab) {
    var (keys, tab') := Unlock(c, a.keys, tab, password, false, d.first, d.second);
    (a.(keys := Some(keys)), tab')
  }

  function Logout(tab: Tab): Tab {
    Forget(tab).(password := None, signedIn := false)
  }

  // ------------------------------------------------------ reading a client's reply

  /** Requests.tsx reveal, up to the destructive call: does it go on to take the reply?
      `pinned` is the key in the row the page listed, with its white space removed. */
  predicate MayTake(c: Suite, tab: Tab, pinned: Option<Bytes>) {
    && tab.priv.Some? && tab.priv.value != [] && c.imported(tab.priv.value).Some?
    && !(pinned.Some? && pinned.value != [] && tab.pub.Some? && tab.pub.value != [] && pinned.value != tab.pub.value)
  }

  function Read(c: Suite, tab: Tab, blob: Bytes): Option<string>
    requires tab.priv.Some? && c.imported(tab.priv.value).Some?
  {
    OpenWith(c, c.imported(tab.priv.value).value, blob)
  }

  // ------------------------------------------------------------- what always holds

  /** A tab holds both halves of one keypair, or neither. */
  ghost predicate TabOk(c: Suite, tab: Tab) {
    SlotsOk(c, tab.storage, tab.priv, tab.pub)
  }

  ghost predicate SlotsOk(c: Suite, storage: bool, priv: Option<Bytes>, pub: Option<Bytes>) {
    if priv.None? then pub.None?
    else storage && exists s :: PairOf(c, priv, pub, s)
  }

  ghost predicate PairOf(c: Suite, priv: Option<Bytes>, pub: Option<Bytes>, s: nat) {
    priv == Some(c.exported(s)) && pub == Some(c.publicOf(s))
  }

  ghost predicate KeysOk(c: Suite, keys: Option<Wrapped>) {
    keys.Some? ==> Matching(c, keys.value)
  }

  predicate Readable(c: Suite, keys: Option<Wrapped>, password: string) {
    keys.Some? && OpensWith(c, keys.value, password)
  }

  /** An unlock in full: the keys it ends with are a matching pair; the tab holds that pair
      exactly when its password opens and its storage works, and otherwise nothing; and an
      existing keypair is replaced only by a rotating unlock that could not open it. */
  lemma UnlockDoes(c: Suite, keys: Option<Wrapped>, tab: Tab, password: string, rotate: bool, first: Draw, second: Draw)
    requires Sound(c) && KeysOk(c, keys) && TabOk(c, tab) && Drawn(first) && Drawn(second)
    ensures var (keys', tab') := Unlock(c, keys, tab, password, rotate, first, second);
            var opens := keys.None? || OpensWith(c, keys.value, password);
            && Matching(c, keys') && TabOk(c, tab') && tab'.storage == tab.storage
            && (keys.Some? && (opens || !rotate) ==> keys' == keys.value)
            && (OpensWith(c, keys', password) <==> opens || rotate)
            && (tab.storage && (opens || rotate) ==> tab'.priv.Some? && tab'.pub == Some(keys'.pubkey))
            && (!opens && !rotate ==> tab' == Forget(tab))
            && (!NeedsPassword(tab') <==> tab.storage && (opens || rotate))
  {
    var mine := if keys.Some? then keys.value else CreateKeys(c, password, first);
    CreateMatches(c, password, first);
    CreateMatches(c, password, second);
    assert Holds(c, CreateKeys(c, password, first), first.secret, password);
    var s, p :| Holds(c, mine, s, p);
    UnwrapFinds(c, mine, s, p, password);
    if UnwrapRaw(c, mine, password).Some? {
      assert PairOf(c, Some(c.exported(s)), Some(mine.pubkey), s);
    } else if rotate {
      var new_ := CreateKeys(c, password, second);
      assert Holds(c, new_, second.secret, password);
      assert PairOf(c, Some(c.exported(second.secret)), Some(new_.pubkey), second.secret);
    }
  }

  /** migrateKey answers true exactly when there is a key, the old password opens it and the
      tab can store it. Whenever the old password opens, the keypair is kept and the current
      password opens it from now on; when it does not, nothing is written anywhere. */
  lemma MigrateDoes(c: Suite, keys: Option<Wrapped>, tab: Tab, old_: string, current: string, d: Draws)
    requires Sound(c) && KeysOk(c, keys) && TabOk(c, tab) && AllDrawn(d)
    ensures var (keys', tab', ok) := MigrateKey(c, keys, tab, old_, current, d);
            && (ok <==> Readable(c, keys, old_) && tab.storage)
            && (Readable(c, keys, old_) ==> Readable(c, keys', current) && keys'.value.pubkey == keys.value.pubkey)
            && (!Readable(c, keys, old_) ==> keys' == keys && tab' == tab)
            && (ok ==> tab'.pub == Some(keys.value.pubkey))
            && KeysOk(c, keys') && TabOk(c, tab') && tab'.signedIn == tab.signedIn && tab'.password == tab.password
  {
    if Readable(c, keys, old_) {
      var s, p :| Holds(c, keys.value, s, p);
      RewrapMoves(c, keys.value, s, p, old_, current, d.first);
      UnlockDoes(c, Rewrap(c, keys.value, old_, current, d.first), tab, current, false, d.second, d.third);
    }
  }

  /** The tab holds the private half of this keypair. */
  predicate HoldsKey(tab: Tab, keys: Option<Wrapped>) {
    !NeedsPassword(tab) && keys.Some? && tab.pub == Some(keys.value.pubkey)
  }

  /** Signing in with a wrong password does nothing. With the right one it always ends with a
      keypair: the old one if the password opens it, or if the account is the domain's; and the
      password is kept exactly when a domain account's key stays shut to this tab. */
  lemma LoginDoes(c: Suite, a: Account, tab: Tab, password: string, d: Draws)
    requires Sound(c) && KeysOk(c, a.keys) && TabOk(c, tab) && AllDrawn(d)
    ensures var (a', tab') := Login(c, a, tab, password, d);
            var opens := a.keys.None? || OpensWith(c, a.keys.value, password);
            && (password != a.password ==> a' == a && tab' == tab)
            && (password == a.password ==>
                  && tab'.signedIn && a'.password == a.password && a'.ad == a.ad && a'.keys.Some? && KeysOk(c, a'.keys) && TabOk(c, tab')
                  && (a.keys.Some? && (opens || a.ad) ==> a'.keys == a.keys)
                  && (opens || !a.ad ==> Readable(c, a'.keys, password))
                  && (HoldsKey(tab', a'.keys) <==> tab.storage && (opens || !a.ad))
                  && (NeedsPassword(tab') <==> !HoldsKey(tab', a'.keys))
                  && tab'.password == if a.ad && !(opens && tab.storage) then Some(password) else None)
  {
    UnlockDoes(c, a.keys, tab, password, !a.ad, d.first, d.second);
  }

  /** The prompt never touches a key that is there, and opens it exactly with its password; where
      there is none it makes one that what was typed opens. */
  lemma PromptDoes(c: Suite, a: Account, tab: Tab, typed: string, d: Draws)
    requires Sound(c) && KeysOk(c, a.keys) && TabOk(c, tab) && AllDrawn(d)
    ensures var (a', tab') := Prompt(c, a, tab, typed, d);
            var opens := a.keys.None? || OpensWith(c, a.keys.value, typed);
            && (!tab.signedIn || a.keys.Some? ==> a' == a)
            && (!tab.signedIn ==> tab' == tab)
            && (tab.signedIn ==>
                  && a' == a.(keys := a'.keys) && (opens ==> Readable(c, a'.keys, typed)) && TabOk(c, tab')
                  && (HoldsKey(tab', a'.keys) <==> tab.storage && opens) && (NeedsPassword(tab') <==> !HoldsKey(tab', a'.keys))
                  && tab'.signedIn && tab'.password == tab.password)
  {
    UnlockDoes(c, a.keys, tab, typed, false, d.first, d.second);
  }

  /** Starting over always ends with the new keypair, wrapped under the password of this sign-in
      and held by the tab if it can hold anything; and the password is forgotten. */
  lemma StartOverDoes(c: Suite, a: Account, tab: Tab, d: Draws)
    requires Sound(c) && TabOk(c, tab) && AllDrawn(d)
    ensures var (a', tab') := StartOver(c, a, tab, d);
            if tab.signedIn && tab.password.Some? then
              && a' == a.(keys := a'.keys) && a'.keys.Some? && KeysOk(c, a'.keys)
              && a'.keys.value.pubkey == c.publicOf(d.first.secret) && Readable(c, a'.keys, tab.password.value)
              && (HoldsKey(tab', a'.keys) <==> tab.storage) && TabOk(c, tab') && tab'.signedIn && tab'.password == None
            else a' == a && tab' == tab
  {
    if tab.signedIn && tab.password.Some? {
      var current := tab.password.value;
      CreateMatches(c, current, d.first);
      assert Holds(c, CreateKeys(c, current, d.first), d.first.secret, current);
      UnlockDoes(c, Some(CreateKeys(c, current, d.first)), tab, current, false, d.second, d.third);
    }
  }

  /** Moving a key across forgets the password exactly when it works, and then the same keypair
      opens with the password of this sign-in and the tab holds it. */
  lemma MoveDoes(c: Suite, a: Account, tab: Tab, old_: string, d: Draws)
    requires Sound(c) && KeysOk(c, a.keys) && TabOk(c, tab) && AllDrawn(d)
    ensures var (a', tab') := Migrate(c, a, tab, old_, d);
            if tab.signedIn && tab.password.Some? then
              && a' == a.(keys := a'.keys)
              && (Readable(c, a.keys, old_) ==> Readable(c, a'.keys, tab.password.value) && a'.keys.value.pubkey == a.keys.value.pubkey)
              && (!Readable(c, a.keys, old_) ==> a' == a && tab' == tab)
              && (Readable(c, a.keys, old_) && tab.storage <==> tab'.password == None)
              && (tab'.password == None ==> HoldsKey(tab', a'.keys))
            else a' == a && tab' == tab
  {
    if tab.password.Some? { MigrateDoes(c, a.keys, tab, old_, tab.password.value, d); }
  }

  /** Changing a local account's password with the right current one changes it, and the key with
      it: what the current password opened the next one opens, the same keypair, and the tab holds
      it if it can hold anything; where there was no key there is one; and a key that the current
      password does not open is left as it was. Otherwise nothing changes. */
  lemma ChangeDoes(c: Suite, a: Account, tab: Tab, current: string, next: string, d: Draws)
    requires Sound(c) && KeysOk(c, a.keys) && TabOk(c, tab) && AllDrawn(d)
    ensures var (a', tab') := Change(c, a, tab, current, next, d);
            var opens := a.keys.None? || OpensWith(c, a.keys.value, current);
            if tab.signedIn && !a.ad && current == a.password then
              && a'.password == next && a'.ad == a.ad
              && (opens ==>
                    && Readable(c, a'.keys, next) && KeysOk(c, a'.keys) && TabOk(c, tab')
                    && (a.keys.Some? ==> a'.keys.value.pubkey == a.keys.value.pubkey)
                    && (HoldsKey(tab', a'.keys) <==> tab.storage)
                    && tab'.signedIn && tab'.password == tab.password)
              && (!opens ==> a'.keys == a.keys && tab' == tab)
            else a' == a && tab' == tab
  {
    if tab.signedIn && !a.ad && current == a.password {
      if a.keys.None? {
        UnlockDoes(c, None, tab, next, false, d.first, d.second);
      } else {
        var s, p :| Holds(c, a.keys.value, s, p);
        RewrapMoves(c, a.keys.value, s, p, current, next, d.third);
        if OpensWith(c, a.keys.value, current) {
          UnlockDoes(c, Rewrap(c, a.keys.value, current, next, d.third), tab, next, false, d.first, d.second);
        }
      }
    }
  }

  /** A reply sealed to the key that the row shows is either left alone or read. */
  lemma TakenIsRead(c: Suite, tab: Tab, pinned: Bytes, text: string, d: Draw)
    requires Sound(c) && TabOk(c, tab) && Drawn(d) && Survives(c, text)
    requires MayTake(c, tab, Some(pinned)) && pinned != []
    ensures var blob := SealTo(c, pinned, text, d);
            blob.Some? && Read(c, tab, blob.value) == Some(text)
  {
    var s :| PairOf(c, tab.priv, tab.pub, s);
    assert |c.publicOf(s)| == 65;
    OpenSealed(c, s, text, d);
  }

  // ----------------------------------------------------------------- in place

  /** The user's row on the server. */
  class Server {
    var keys: Option<Wrapped>
    var password: string
    const ad: bool

    function Value(): Account
      reads this
    {
      Account(keys, password, ad)
    }

    constructor (password: string, ad: bool)
      ensures Value() == Account(None, password, ad)
    {
      this.keys, this.password, this.ad := None, password, ad;
    }
  }

  /** One tab: its two slots and what the sign-in provider remembers. */
  class Browser {
    const c: Suite
    const server: Server
    const storage: bool
    var slot: Option<Bytes>
    var pubSlot: Option<Bytes>
    var sessionPassword: Option<string>
    var signedIn: bool

    function Value(): Tab
      reads this
    {
      Tab(storage, slot, pubSlot, sessionPassword, signedIn)
    }

    constructor (c: Suite, server: Server, storage: bool)
      ensures this.c == c && this.server == server && this.storage == storage
      ensures Value() == Tab(storage, None, None, None, false)
    {
      this.c, this.server, this.storage := c, server, storage;
      slot, pubSlot, sessionPassword, signedIn := None, None, None, false;
    }

    method StashPair(priv: Bytes, pub: Bytes)
      modifies this`slot, this`pubSlot
      ensures Value() == Stash(old(Value()), priv, pub)
      ensures storage && priv != [] ==> !NeedsPassword(Value()) && pubSlot == Some(pub)
      ensures forall s :: storage && PairOf(c, Some(priv), Some(pub), s) ==> TabOk(c, Value())
      ensures !storage ==> Value() == old(Value())
    {
      if storage {
        slot := Some(priv);
        pubSlot := Some(pub);
      }
    }

    method ForgetPair()
      modifies this`slot, this`pubSlot
      ensures Value() == Forget(old(Value()))
      ensures NeedsPassword(Value()) && TabOk(c, Value())
      ensures forall pinned :: !MayTake(c, Value(), pinned)
    {
      slot := None;
      pubSlot := None;
    }

    method UnlockVault(password: string, allowRotate: bool, first: Draw, second: Draw)
      modifies this`slot, this`pubSlot, server`keys
      ensures var (keys, tab) := Unlock(c, old(server.keys), old(Value()), password, allowRotate, first, second);
              server.keys == Some(keys) && Value() == tab
      ensures old(server.keys).Some? && !allowRotate ==> server.keys == old(server.keys)
    {
      var keys := server.keys;
      if keys.None? {
        keys := Some(CreateKeys(c, password, first));
        server.keys := keys;
      }
      var raw := UnwrapRaw(c, keys.value, password);
      if raw.Some? {
        StashPair(raw.value, keys.value.pubkey);
        return;
      }
      ForgetPair();
      if allowRotate {
        var new_ := CreateKeys(c, password, second);
        server.keys := Some(new_);
        raw := UnwrapRaw(c, new_, password);
        if raw.Some? {
          StashPair(raw.value, new_.pubkey);
        }
      }
    }

    method Move(oldPassword: string, currentPassword: string, d: Draws) returns (ok: bool)
      modifies this`slot, this`pubSlot, server`keys
      ensures (server.keys, Value(), ok) == MigrateKey(c, old(server.keys), old(Value()), oldPassword, currentPassword, d)
    {
      var keys := server.keys;
      if keys.None? {
        return false;
      }
      var moved := Rewrap(c, keys.value, oldPassword, currentPassword, d.first);
      if moved.None? {
        return false;
      }
      server.keys := moved;
      UnlockVault(currentPassword, false, d.second, d.third);
      ok := !NeedsPassword(Value());
    }

    method Abandon(currentPassword: string, d: Draws)
      modifies this`slot, this`pubSlot, server`keys
      ensures var (keys, tab) := AbandonKey(c, old(Value()), currentPassword, d);
              server.keys == Some(keys) && Value() == tab
    {
      server.keys := Some(CreateKeys(c, currentPassword, d.first));
      UnlockVault(currentPassword, false, d.second, d.third);
    }

    method SignIn(password: string, d: Draws)
      modifies this, server`keys
      ensures (server.Value(), Value()) == Login(c, old(server.Value()), old(Value()), password, d)
      ensures password == server.password ==> signedIn && server.keys.Some?
    {
      if password != server.password {
        return;
      }
      UnlockVault(password, !server.ad, d.first, d.second);
      sessionPassword := if server.ad && NeedsPassword(Value()) then Some(password) else None;
      signedIn := true;
    }

    method UnlockWithPassword(typed: string, d: Draws) returns (ok: bool)
      requires signedIn
      modifies this`slot, this`pubSlot, server`keys
      ensures (server.Value(), Value()) == Prompt(c, old(server.Value()), old(Value()), typed, d)
      ensures ok <==> !NeedsPassword(Value())
    {
      UnlockVault(typed, false, d.first, d.second);
      ok := !NeedsPassword(Value());
    }

    method MigrateForm(oldPassword: string, d: Draws) returns (ok: bool)
      requires signedIn && sessionPassword.Some?
      modifies this, server`keys
      ensures (server.Value(), Value()) == Migrate(c, old(server.Value()), old(Value()), oldPassword, d)
      ensures ok <==> MigrateKey(c, old(server.keys), old(Value()), oldPassword, old(sessionPassword.value), d).2
      ensures ok <==> sessionPassword.None?
      ensures ok ==> !NeedsPassword(Value())
    {
      ok := Move(oldPassword, sessionPassword.value, d);
      if ok {
        sessionPassword := None;
      }
    }

    method StartOverForm(d: Draws)
      requires signedIn && sessionPassword.Some?
      modifies this, server`keys
      ensures (server.Value(), Value()) == StartOver(c, old(server.Value()), old(Value()), d)
    {
      Abandon(sessionPassword.value, d);
      sessionPassword := None;
    }

    /** ChangePassword submit; `warned` is the page's warning that the key was left behind. */
    method ChangeForm(current: string, next: string, d: Draws) returns (warned: bool)
      requires signedIn
      modifies this`slot, this`pubSlot, server
      ensures (server.Value(), Value()) == Change(c, old(server.Value()), old(Value()), current, next, d)
      ensures server.password == if old(!server.ad && current == server.password) then next else old(server.password)
      ensures warned <==> old(!server.ad && current == server.password && server.keys.Some?
                              && !OpensWith(c, server.keys.value, current))
    {
      if server.ad || current != server.password {
        return false;
      }
      server.password := next;
      var keys := server.keys;
      if keys.Some? {
        var moved := Rewrap(c, keys.value, current, next, d.third);
        if moved.None? {
          return true;
        }
        server.keys := moved;
      }
      UnlockVault(next, false, d.first, d.second);
      warned := false;
    }

    method SignOut()
      modifies this
      ensures Value() == Logout(old(Value()))
      ensures NeedsPassword(Value()) && TabOk(c, Value())
      ensures forall pinned :: !MayTake(c, Value(), pinned)
      ensures !signedIn && sessionPassword.None? && server.Value() == old(server.Value())
    {
      ForgetPair();
      sessionPassword := None;
      signedIn := false;
    }
  }
}
