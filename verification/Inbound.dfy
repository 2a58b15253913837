/** The inbound half from end to end: the two stores, the pinned key, the client's page, the
    employee's tabs and the check the requests page makes before the destructive call. */
module Inbound {
  import opened Domain
  import opened Protocol
  import opened Invariants
  import opened Crypto
  import opened Keys
  import Steps
  import Theorems
  import Vault
  import Employee
  import Origins

  /** `data` is what RequestSubmit posts for `text` when view_request shows it `pubkey`. */
  ghost predicate Wrote(c: Suite, pubkey: Bytes, text: string, data: Bytes) {
    Survives(c, text) && exists d :: Drawn(d) && SealTo(c, pubkey, text, d) == Some(data)
  }

  ghost predicate Sealed(c: Suite, pubkey: Bytes, data: Bytes) {
    exists text :: Wrote(c, pubkey, text, data)
  }

  /** Every submission to `rid` in the run comes from the client page: it was sealed to the key
      that the open request showed at that moment. */
  ghost predicate FromThePage(c: Suite, acts: seq<Action>, rid: Tid) {
    forall i, data :: 0 <= i < |acts| && Theorems.Submits(acts[i], rid, data) ==>
      rid in Theorems.After(acts[..i]).reqs && Sealed(c, Theorems.After(acts[..i]).reqs[rid].pubkey, data)
  }

  /** One request, one key: what the row showed at any two moments of a run is the same. */
  lemma SameKeyThroughout(acts: seq<Action>, i: nat, j: nat, rid: Tid)
    requires i <= j <= |acts| && rid in Theorems.After(acts[..i]).reqs
    ensures rid in Theorems.After(acts[..j]).reqs
    ensures Theorems.After(acts[..i]).reqs[rid].pubkey == Theorems.After(acts[..j]).reqs[rid].pubkey
  {
    assert acts[..i] + acts[i..j] == acts[..j];
    Theorems.RequestPinned(acts[..i], acts[i..j], rid);
  }

  /** All that is ever handed out as the reply to `rid` was sealed to its pinned key. */
  lemma ReplyIsSealed(c: Suite, acts: seq<Action>, j: nat, rid: Tid, v: Serving)
    requires FromThePage(c, acts, rid) && j <= |acts| && rid in Theorems.After(acts[..j]).reqs
    requires v in Theorems.After(acts).served && v.tid == OfReply(rid)
    ensures Sealed(c, Theorems.After(acts[..j]).reqs[rid].pubkey, v.data)
  {
    assert v == Serving(OfReply(rid), v.data, v.who);
    Theorems.RepliesAreSubmissions(acts, rid, v.data);
    var i :| 0 <= i < |acts| && Theorems.Submits(acts[i], rid, v.data);
    if i <= j { SameKeyThroughout(acts, i, j, rid); } else { SameKeyThroughout(acts, j, i, rid); }
  }

  lemma OpensSealed(c: Suite, tab: Vault.Tab, pinned: Bytes, data: Bytes)
    requires Sound(c) && Vault.TabOk(c, tab) && Sealed(c, pinned, data) && pinned != []
    requires Vault.MayTake(c, tab, Some(pinned))
    ensures exists text :: Wrote(c, pinned, text, data) && Vault.Read(c, tab, data) == Some(text)
  {
    var text :| Wrote(c, pinned, text, data);
    var d :| Drawn(d) && SealTo(c, pinned, text, d) == Some(data);
    Vault.TakenIsRead(c, tab, pinned, text, d);
  }

  /** The key in a row of the requests page is the one that its owner's create_request carried. */
  lemma PinnedWasAsked(acts: seq<Action>, j: nat, rid: Tid)
    requires j <= |acts| && rid in Theorems.After(acts[..j]).reqs
    ensures Origins.Asked(acts, Theorems.After(acts[..j]).reqs[rid])
  {
    Origins.RequestsAreAsked(acts[..j], rid);
    Origins.AskedLater(acts, j, Theorems.After(acts[..j]).reqs[rid]);
  }

  /** What the bytes open to: a text that some client sealed to the key which the employee's call
      for that request carried. */
  ghost predicate OpensTo(c: Suite, acts: seq<Action>, req: Request, tab: Vault.Tab, data: Bytes, i: nat, text: string) {
    && Origins.AskedAt(acts, i, req) && Wrote(c, acts[i].call.pubkey, text, data)
    && tab.priv.Some? && c.imported(tab.priv.value).Some? && Vault.Read(c, tab, data) == Some(text)
  }

  /** Nothing is destroyed that cannot be read. Take any run of the two stores, any day of the
      employee's tabs, any tab, and a row of the requests page listed at any earlier moment:
      when the page's check lets `reveal` go on, whatever bytes the server hands out for that
      request open in that tab, to a text that some client sealed to the key which the employee
      asked with. */
  lemma TakenRepliesOpen(c: Suite, acts: seq<Action>, j: nat, rid: Tid, v: Serving,
                         password: string, ad: bool, day: seq<Employee.Event>, t: nat)
    requires Sound(c) && Employee.AllProper(day) && FromThePage(c, acts, rid)
    requires j <= |acts| && rid in Theorems.After(acts[..j]).reqs
    requires v in Theorems.After(acts).served && v.tid == OfReply(rid)
    requires t in Employee.Day(c, Employee.Opening(password, ad), day).tabs
    requires Vault.MayTake(c, Employee.Day(c, Employee.Opening(password, ad), day).tabs[t],
                           Some(Theorems.After(acts[..j]).reqs[rid].pubkey))
    ensures var tab := Employee.Day(c, Employee.Opening(password, ad), day).tabs[t];
            exists i: nat, text :: OpensTo(c, acts, Theorems.After(acts[..j]).reqs[rid], tab, v.data, i, text)
  {
    var w, req := Employee.Day(c, Employee.Opening(password, ad), day), Theorems.After(acts[..j]).reqs[rid];
    Employee.AlwaysFits(c, password, ad, day);
    assert Employee.TabFits(c, w, w.tabs[t]);
    PinnedWasAsked(acts, j, rid);
    var i: nat :| Origins.AskedAt(acts, i, req);
    ReplyIsSealed(c, acts, j, rid, v);
    OpensSealed(c, w.tabs[t], req.pubkey, v.data);
    var text :| Wrote(c, req.pubkey, text, v.data) && Vault.Read(c, w.tabs[t], v.data) == Some(text);
    assert OpensTo(c, acts, req, w.tabs[t], v.data, i, text);
  }

  /** And the check refuses no reply that could be read: it goes on exactly when the tab
      holds the pinned keypair. */
  lemma TakesExactly(c: Suite, tab: Vault.Tab, pinned: Bytes)
    requires Sound(c) && Vault.TabOk(c, tab) && pinned != []
    ensures Vault.MayTake(c, tab, Some(pinned)) <==> tab.pub == Some(pinned)
  {
    if tab.priv.Some? {
      var s: nat :| Vault.PairOf(c, tab.priv, tab.pub, s);
      assert c.imported(c.exported(s)) == Some(s);
      assert |c.publicOf(s)| == 65;
    }
  }

  /** And what was asked for can be read: when a request was made with the key that was published
      at some moment of the day, and nobody has reset the password or started over since, then
      any signed-in tab that can hold a key, and is given a password that opens the published
      one, passes the check and opens every reply that was sealed for the request. */
  lemma KeptKeyReads(c: Suite, password: string, ad: bool, events: seq<Employee.Event>, more: seq<Employee.Event>,
                     t: nat, typed: string, d: Vault.Draws, data: Bytes)
    requires Sound(c) && Employee.AllProper(events + more) && Vault.AllDrawn(d)
    requires var w := Employee.Day(c, Employee.Opening(password, ad), events);
             w.account.keys.Some? && !w.reset && Sealed(c, w.account.keys.value.pubkey, data)
    requires forall e :: e in more ==> !e.ResetPw? && !e.StartsOver?
    requires var w' := Employee.Day(c, Employee.Opening(password, ad), events + more);
             t in w'.tabs && w'.tabs[t].signedIn && w'.tabs[t].storage && Vault.Readable(c, w'.account.keys, typed)
    ensures var w, w' := Employee.Day(c, Employee.Opening(password, ad), events), Employee.Day(c, Employee.Opening(password, ad), events + more);
            var pinned, tab := w.account.keys.value.pubkey, Vault.Prompt(c, w'.account, w'.tabs[t], typed, d).1;
            && Vault.MayTake(c, tab, Some(pinned))
            && exists text :: Wrote(c, pinned, text, data) && Vault.Read(c, tab, data) == Some(text)
  {
    var w, w' := Employee.Day(c, Employee.Opening(password, ad), events), Employee.Day(c, Employee.Opening(password, ad), events + more);
    var pinned, tab := w.account.keys.value.pubkey, Vault.Prompt(c, w'.account, w'.tabs[t], typed, d).1;
    Employee.AlwaysFits(c, password, ad, events + more);
    Employee.KeyIsKept(c, password, ad, events, more);
    assert Employee.TabFits(c, w', w'.tabs[t]);
    Vault.PromptDoes(c, w'.account, w'.tabs[t], typed, d);
    PublishedIsLong(c, w'.account.keys.value);
    TakesExactly(c, tab, pinned);
    OpensSealed(c, tab, pinned, data);
  }

  lemma PublishedIsLong(c: Suite, keys: Wrapped)
    requires Sound(c) && Matching(c, keys)
    ensures |keys.pubkey| == 65
  {
    var s: nat, p :| Holds(c, keys, s, p);
    assert |c.publicOf(s)| == 65;
  }
}
