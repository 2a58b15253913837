/** What more holds when every handler runs alone: nothing is ever owed between the stores,
    so the row tells the whole story of its secret. */
module Serial {
  import opened Domain
  import opened Store
  import opened Protocol
  import opened Invariants
  import opened Effects
  import opened Steps
  import opened Atomic
  import opened Uninterrupted

  /** The row's counter is the number of wrong verifiers, the last allowed one destroys,
      'viewed' means delivered, and a live row has its bytes; a key is written once. A reply
      may also be delivered with its row already 'expired', since take_reply asks for the
      bytes without looking at the row. */
  ghost predicate Settled(s: State, tid: Tid) {
    var a := Acc(s, tid);
    && a.puts <= 1
    && (tid in s.rows ==>
          var row := s.rows[tid];
          && row.failed == a.wrong <= row.maxAttempts
          && (a.wrong == row.maxAttempts <==> row.status == Destroyed)
          && (row.status == Viewed ==> a.takes >= 1)
          && (a.takes >= 1 ==> row.status == Viewed || (tid.OfReply? && row.status == Expired))
          && (row.status in {Viewed, Revoked, Destroyed} ==> !Stored(s, tid))
          && (row.status == Active && s.redis.now < row.expires ==> Stored(s, tid)))
    && (tid !in s.rows ==> a.puts == 0)
    && (tid.OfReply? ==> (tid in s.rows <==> tid.rid in s.reqs && s.reqs[tid.rid].status == Fulfilled))
    && (tid.OfReply? ==> a.puts == a.accepted == if tid in s.rows then 1 else 0)
  }

  ghost predicate AllSettled(s: State) {
    forall tid :: Settled(s, tid)
  }

  lemma OthersSettled(s: State, s': State, tid: Tid)
    requires AllSettled(s) && SameElsewhere(s, s')
    requires forall t :: t != tid ==> Untouched(s, s', t)
    requires Settled(s', tid)
    ensures AllSettled(s')
  {
    forall t ensures Settled(s', t) {
      assert Settled(s, t);
      if t != tid { assert Untouched(s, s', t); }
    }
  }

  lemma MarkSettled(s: State, tid: Tid)
    requires AllSettled(s) && tid in s.rows && s.rows[tid].status == Active
    ensures AllSettled(Mark(s, tid, Expired))
  {
    assert Settled(s, tid);
    OthersSettled(s, Mark(s, tid, Expired), tid);
  }

  lemma ConsumeSettled(s: State, ticket: Ticket, tid: Tid)
    requires AllSettled(s)
    ensures AllSettled(Consume(s, ticket, tid))
  {
    var s' := Consume(s, ticket, tid);
    forall t ensures Settled(s', t) {
      assert Settled(s, t);
      ConsumeFields(s, ticket, tid);
      ConsumeAccount(s, ticket, tid, t);
    }
  }

  lemma IssueSettled(s: State, ticket: Ticket, tid: Tid)
    requires AllSettled(s)
    ensures AllSettled(Issue(s, ticket, tid))
  {
    forall t ensures Settled(Issue(s, ticket, tid), t) {
      assert Settled(s, t);
    }
  }

  lemma OpenSettled(s: State, tid: Tid, who: Recipient)
    requires AllSettled(s) && tid in s.rows && Stored(s, tid)
    requires s.rows[tid].status == Active || tid.OfReply?
    ensures AllSettled(Atomic.Open(s, tid, who).0)
  {
    var s1 := Mark(Take(s, tid), tid, Viewed);
    assert Settled(s, tid);
    OthersSettled(s, s1, tid);
    forall t ensures Settled(WithServed(s1, Serving(tid, s.redis.blobs[tid].data, who)), t) {
      assert Settled(s1, t);
    }
  }

  lemma CountSettled(s: State, tid: Tid)
    requires CellOk(s, tid) && Settled(s, tid)
    requires tid in s.rows && s.rows[tid].status == Active && s.redis.now < s.rows[tid].expires
    ensures FailsOf(s.redis, tid) == Acc(s, tid).wrong < s.rows[tid].maxAttempts
  {
  }

  lemma WrongLeaves(s: State, tid: Tid, t: Tid)
    requires t != tid
    ensures Untouched(s, Wrong(s, tid), t)
  {
  }

  lemma ExpireLeaves(s: State, tid: Tid, ttl: int, t: Tid)
    requires t != tid
    ensures Untouched(s, Expire(s, tid, ttl), t)
  {
  }

  lemma BumpLeaves(s: State, tid: Tid, row: Row, t: Tid)
    requires t != tid
    ensures Untouched(s, Bumped(s, tid, row), t)
  {
    WrongLeaves(s, tid, t);
    ExpireLeaves(Wrong(s, tid), tid, Max(row.expires - s.redis.now, 60), t);
  }

  lemma StoreLeaves(s: State, tid: Tid, n: nat, t: Tid)
    requires t != tid
    ensures Untouched(s, StoreFails(s, tid, n), t)
  {
  }

  lemma CountLeaves(s: State, tid: Tid, row: Row, t: Tid)
    requires t != tid
    ensures Untouched(s, Counted(s, tid, row), t)
  {
    BumpLeaves(s, tid, row, t);
    StoreLeaves(Bumped(s, tid, row), tid, FailsOf(s.redis, tid) + 1, t);
  }

  lemma DropLeaves(s: State, tid: Tid, t: Tid)
    requires t != tid
    ensures Untouched(s, Mark(Drop(s, tid), tid, Destroyed), t)
  {
  }

  lemma WrongElsewhere(s: State, tid: Tid)
    ensures var s' := Wrong(s, tid);
            s' == s.(redis := s.redis.(fails := s'.redis.fails), accounts := s'.accounts)
  {
  }

  lemma ExpireElsewhere(s: State, tid: Tid, ttl: int)
    ensures var s' := Expire(s, tid, ttl);
            s' == s.(redis := s.redis.(fails := s'.redis.fails))
  {
  }

  lemma BumpElsewhere(s: State, tid: Tid, row: Row)
    ensures var s' := Bumped(s, tid, row);
            s' == s.(redis := s.redis.(fails := s'.redis.fails), accounts := s'.accounts)
  {
    WrongElsewhere(s, tid);
    ExpireElsewhere(Wrong(s, tid), tid, Max(row.expires - s.redis.now, 60));
  }

  lemma CountElsewhere(s: State, tid: Tid, row: Row)
    ensures SameElsewhere(s, Counted(s, tid, row))
  {
    BumpElsewhere(s, tid, row);
  }

  lemma FailElsewhere(s: State, tid: Tid, row: Row)
    ensures SameElsewhere(s, Fail(s, tid, row).0)
    ensures forall t :: t != tid ==> Untouched(s, Fail(s, tid, row).0, t)
  {
    CountElsewhere(s, tid, row);
    forall t | t != tid ensures Untouched(s, Fail(s, tid, row).0, t) {
      CountLeaves(s, tid, row, t);
      DropLeaves(Counted(s, tid, row), tid, t);
    }
  }

  lemma BumpCell(s: State, tid: Tid, row: Row)
    ensures Acc(Bumped(s, tid, row), tid) == Acc(s, tid).(wrong := Acc(s, tid).wrong + 1)
  {
  }

  lemma CountCell(s: State, tid: Tid)
    requires tid in s.rows
    ensures var s' := Counted(s, tid, s.rows[tid]);
            && tid in s'.rows && s'.rows[tid] == s.rows[tid].(failed := FailsOf(s.redis, tid) + 1)
            && s'.redis == s.redis.(fails := s'.redis.fails)
            && Acc(s', tid) == Acc(s, tid).(wrong := Acc(s, tid).wrong + 1)
  {
    BumpElsewhere(s, tid, s.rows[tid]);
    BumpCell(s, tid, s.rows[tid]);
  }

  lemma WrongCell(s: State, tid: Tid)
    requires Settled(s, tid) && FailsOf(s.redis, tid) == Acc(s, tid).wrong
    requires tid in s.rows && s.rows[tid].status == Active && Acc(s, tid).wrong + 1 < s.rows[tid].maxAttempts
    ensures Settled(Fail(s, tid, s.rows[tid]).0, tid)
  {
    CountCell(s, tid);
    CountElsewhere(s, tid, s.rows[tid]);
  }

  lemma LastWrongCell(s: State, tid: Tid)
    requires Settled(s, tid) && FailsOf(s.redis, tid) == Acc(s, tid).wrong
    requires tid in s.rows && s.rows[tid].status == Active && Acc(s, tid).wrong + 1 >= s.rows[tid].maxAttempts
    ensures Settled(Fail(s, tid, s.rows[tid]).0, tid)
  {
    CountCell(s, tid);
    CountElsewhere(s, tid, s.rows[tid]);
  }

  lemma FailCell(s: State, tid: Tid)
    requires Settled(s, tid) && FailsOf(s.redis, tid) == Acc(s, tid).wrong
    requires tid in s.rows && s.rows[tid].status == Active && s.redis.now < s.rows[tid].expires
    ensures Settled(Fail(s, tid, s.rows[tid]).0, tid)
  {
    if Acc(s, tid).wrong + 1 < s.rows[tid].maxAttempts { WrongCell(s, tid); } else { LastWrongCell(s, tid); }
  }

  /** Exactly the last allowed wrong verifier destroys. */
  lemma FailSettled(s: State, tid: Tid)
    requires AllSettled(s) && CellOk(s, tid)
    requires tid in s.rows && s.rows[tid].status == Active && s.redis.now < s.rows[tid].expires
    ensures AllSettled(Fail(s, tid, s.rows[tid]).0)
    ensures Fail(s, tid, s.rows[tid]).1 == DestroyedNow <==> Acc(s, tid).wrong + 1 == s.rows[tid].maxAttempts
  {
    assert Settled(s, tid);
    CountSettled(s, tid);
    FailCell(s, tid);
    FailElsewhere(s, tid, s.rows[tid]);
    OthersSettled(s, Fail(s, tid, s.rows[tid]).0, tid);
  }

  lemma RevealSettled(s: State, tid: Tid, ticket: Ticket, sent: Option<Bytes>)
    requires Shared(s) && AllSettled(s)
    ensures AllSettled(Reveal(s, tid, ticket, sent).0)
  {
    if tid in s.rows && s.rows[tid].status == Active {
      if s.rows[tid].expires <= s.redis.now {
        MarkSettled(s, tid);
      } else {
        var s1 := Consume(s, ticket, tid);
        ConsumeSettled(s, ticket, tid);
        if TicketTid(s.redis, ticket) == Some(tid) { VerifySettled(s, s1, tid, sent); }
      }
    }
  }

  lemma VerifySettled(s: State, s1: State, tid: Tid, sent: Option<Bytes>)
    requires Shared(s) && AllSettled(s) && AllSettled(s1)
    requires tid in s.rows && s.rows[tid].status == Active && s.redis.now < s.rows[tid].expires
    requires exists ticket :: s1 == Consume(s, ticket, tid)
    ensures AllSettled(Atomic.Open(s1, tid, Holder(sent)).0) && AllSettled(Fail(s1, tid, s.rows[tid]).0)
  {
    var ticket :| s1 == Consume(s, ticket, tid);
    assert CellOk(s, tid) && Settled(s, tid);
    ConsumeFields(s, ticket, tid);
    ConsumeCell(s, ticket, tid, tid);
    OpenSettled(s1, tid, Holder(sent));
    FailSettled(s1, tid);
  }

  lemma CreateSettled(s: State, call: Call, token: nat)
    requires Shared(s) && AllSettled(s) && token !in s.minted && call.CallCreate?
    ensures AllSettled(Create(s, call.user, call.data, call.want, call.verifier, call.maxAttempts, token).0)
  {
    var tid := OfToken(token);
    var s' := Create(s, call.user, call.data, call.want, call.verifier, call.maxAttempts, token).0;
    if s' != s {
      assert CellOk(s, tid) && Settled(s, tid);
      OthersSettled(s, s', tid);
    }
  }

  lemma RevokeSettled(s: State, tid: Tid)
    requires AllSettled(s) && tid in s.rows && s.rows[tid].status == Active
    ensures AllSettled(Revoke(Drop(s, tid), tid))
  {
    assert Settled(s, tid);
    OthersSettled(s, Revoke(Drop(s, tid), tid), tid);
  }

  /** A request that stays or becomes anything but fulfilled has no reply. */
  lemma TableSettled(s: State, s': State, rid: Tid)
    requires Shared(s) && AllSettled(s)
    requires rid in s'.reqs && s'.reqs == s.reqs[rid := s'.reqs[rid]] && s' == s.(reqs := s'.reqs, minted := s'.minted)
    requires s'.reqs[rid].status != Fulfilled && (rid in s.reqs ==> s.reqs[rid].status != Fulfilled)
    ensures AllSettled(s')
  {
    forall t ensures Settled(s', t) {
      assert Settled(s, t) && CellOk(s, t);
    }
  }

  lemma AskSettled(s: State, user: User, expiresIn: Option<int>, pubkey: Bytes, token: nat)
    requires Shared(s) && AllSettled(s) && token !in s.minted
    ensures AllSettled(Ask(s, user, expiresIn, pubkey, token).0)
  {
    assert RequestOk(s, OfToken(token));
    if pubkey == [] { return; }
    TableSettled(s, Ask(s, user, expiresIn, pubkey, token).0, OfToken(token));
  }

  lemma LoadSettled(s: State, rid: Tid)
    requires Shared(s) && AllSettled(s)
    ensures AllSettled(Load(s, rid).0)
  {
    if Load(s, rid).0 != s { TableSettled(s, Load(s, rid).0, rid); }
  }

  lemma AnswerSettled(s: State, rid: Tid, data: Bytes, ttl: int)
    requires AllSettled(s) && rid in s.reqs && s.reqs[rid].status == RequestStatus.Open
    requires CellOk(s, OfReply(rid)) && s.redis.now < s.reqs[rid].expires
    ensures OfReply(rid) !in s.rows && AllSettled(Answered(Put(s, OfReply(rid), data, ttl), rid, s.reqs[rid]))
  {
    var tid := OfReply(rid);
    var s' := Answered(Put(s, tid, data, ttl), rid, s.reqs[rid]);
    assert Settled(s, tid);
    forall t ensures Settled(s', t) {
      assert Settled(s, t);
      if t != tid { AnswerLeaves(s, rid, data, ttl, t); }
    }
  }

  lemma AnswerLeaves(s: State, rid: Tid, data: Bytes, ttl: int, t: Tid)
    requires rid in s.reqs && t != OfReply(rid)
    ensures Untouched(s, Answered(Put(s, OfReply(rid), data, ttl), rid, s.reqs[rid]), t)
  {
  }

  lemma SubmitSettled(s: State, rid: Tid, data: Bytes, throttled: bool)
    requires Shared(s) && AllSettled(s)
    ensures AllSettled(Submit(s, rid, data, throttled).0) && Submit(s, rid, data, throttled).1 != Crashed
  {
    LoadSettled(s, rid);
    if Load(s, rid).1.None? {
      assert CellOk(s, OfReply(rid));
      AnswerSettled(s, rid, data, Max(60, s.reqs[rid].expires - s.redis.now));
    }
  }

  lemma ReplySettled(s: State, rid: Tid, user: User, admin: bool)
    requires Shared(s) && AllSettled(s)
    ensures AllSettled(TakeReply(s, rid, user, admin).0)
  {
    if rid in s.reqs && s.reqs[rid].status == Fulfilled && s.reqs[rid].reply.Some? && Stored(s, s.reqs[rid].reply.value) {
      var tid := OfReply(rid);
      assert RequestOk(s, rid) && Settled(s, tid) && CellOk(s, tid);
      OpenSettled(s, tid, Staff(user, admin));
    }
  }

  lemma WithdrawSettled(s: State, rid: Tid, user: User, admin: bool)
    requires Shared(s) && AllSettled(s)
    ensures AllSettled(WithdrawRequest(s, rid, user, admin).0)
  {
    if WithdrawRequest(s, rid, user, admin).0 != s { TableSettled(s, WithdrawRequest(s, rid, user, admin).0, rid); }
  }

  lemma MetaSettled(s: State, tid: Tid, ticket: Ticket)
    requires AllSettled(s)
    ensures AllSettled(Meta(s, tid, ticket).0)
  {
    if tid in s.rows && s.rows[tid].status == Active {
      assert Settled(s, tid);
      MarkSettled(s, tid);
      IssueSettled(s, ticket, tid);
    }
  }

  lemma EnterSettled(s: State, call: Call)
    requires AllSettled(s)
    ensures AllSettled(Enter(s, call))
  {
    forall t ensures Settled(Enter(s, call), t) {
      assert Settled(s, t);
    }
  }

  /** No handler, run alone, leaves a debt or meets a primary key violation. */
  lemma HandleSettled(s: State, call: Call, env: Env)
    requires Shared(s) && AllSettled(s) && Draws(s, env)
    ensures AllSettled(Handle(s, call, env).0)
  {
    match call
    case CallCreate(_, _, _, _, _) => CreateSettled(s, call, env.token);
    case CallMeta(tid) => MetaSettled(s, tid, env.ticket);
    case CallReveal(tid, ticket, sent) => RevealSettled(s, tid, ticket, sent);
    case CallRevoke(tid, user, admin) =>
      if RevokeSecret(s, tid, user, admin).0 != s { RevokeSettled(s, tid); }
    case CallAsk(user, expiresIn, pubkey) => AskSettled(s, user, expiresIn, pubkey, env.token);
    case CallView(rid) => LoadSettled(s, rid);
    case CallSubmit(rid, data) =>
      EnterKeeps(s, call);
      EnterSettled(s, call);
      SubmitSettled(Enter(s, call), rid, data, env.throttled);
    case CallTakeReply(rid, user, admin) => ReplySettled(s, rid, user, admin);
    case CallWithdraw(rid, user, admin) => WithdrawSettled(s, rid, user, admin);
  }

  lemma SweepSettled(s: State)
    requires AllSettled(s)
    ensures AllSettled(SweepRows(s))
  {
    forall t ensures Settled(SweepRows(s), t) {
      assert Settled(s, t);
    }
  }

  lemma PassSettled(s: State)
    requires Shared(s) && AllSettled(s)
    ensures AllSettled(Pass(s))
  {
    forall t ensures Settled(Pass(s), t) {
      assert Settled(s, t) && CellOk(s, t);
      if t in s.redis.blobs { assert t in s.accounts.Keys + s.redis.blobs.Keys; }
    }
  }

  // ------------------------------------------------------- runs of whole handlers

  datatype Deed = Serve(call: Call, env: Env) | SweepOnce | Second

  function Done(s: State, d: Deed): State {
    match d
    case Serve(call, env) => if Draws(s, env) then Handle(s, call, env).0 else s
    case SweepOnce => SweepRows(s)
    case Second => Pass(s)
  }

  /** The state after handlers, sweeps and seconds one after another, last one last. */
  function Serially(deeds: seq<Deed>): State {
    if deeds == [] then Init().state else Done(Serially(deeds[..|deeds| - 1]), deeds[|deeds| - 1])
  }

  lemma DoneKeeps(s: State, d: Deed)
    requires Shared(s) && AllSettled(s)
    ensures Shared(Done(s, d)) && AllSettled(Done(s, d))
  {
    match d
    case Serve(call, env) => if Draws(s, env) { HandleKeeps(s, call, env); HandleSettled(s, call, env); }
    case SweepOnce => SweepKeeps(s); SweepSettled(s);
    case Second => PassKeeps(s); PassSettled(s);
  }

  lemma {:induction false} SeriallyKeeps(deeds: seq<Deed>)
    ensures Shared(Serially(deeds)) && AllSettled(Serially(deeds))
  {
    if deeds == [] {
      InitOk();
    } else {
      SeriallyKeeps(deeds[..|deeds| - 1]);
      DoneKeeps(Serially(deeds[..|deeds| - 1]), deeds[|deeds| - 1]);
    }
  }

  /** One handler at a time, a secret that can still be revealed has its bytes, and its row,
      its Redis counter and the number of wrong verifiers agree, all below the limit. */
  lemma LiveSecretCounts(deeds: seq<Deed>, tid: Tid)
    requires var s := Serially(deeds); tid in s.rows && s.rows[tid].status == Active && s.redis.now < s.rows[tid].expires
    ensures var s := Serially(deeds);
            Stored(s, tid) && s.rows[tid].failed == FailsOf(s.redis, tid) == Acc(s, tid).wrong < s.rows[tid].maxAttempts
  {
    SeriallyKeeps(deeds);
    assert Settled(Serially(deeds), tid) && CellOk(Serially(deeds), tid);
  }

  /** The metadata of a live secret is always shown, with exactly what is left of the budget. */
  lemma MetaShows(deeds: seq<Deed>, tid: Tid, ticket: Ticket)
    requires var s := Serially(deeds); tid in s.rows && s.rows[tid].status == Active && s.redis.now < s.rows[tid].expires
    ensures var s := Serially(deeds); var left := s.rows[tid].maxAttempts - Acc(s, tid).wrong;
            Meta(s, tid, ticket).1 == Ticket_(ticket, left) && left > 0
  {
    LiveSecretCounts(deeds, tid);
  }

  /** A wrong verifier is answered with what is left of the budget, and destroys the secret
      exactly when it is the last one allowed. */
  lemma WrongVerifierCosts(deeds: seq<Deed>, tid: Tid, ticket: Ticket, sent: Option<Bytes>)
    requires var s := Serially(deeds);
             && tid in s.rows && s.rows[tid].status == Active && s.redis.now < s.rows[tid].expires
             && TicketTid(s.redis, ticket) == Some(tid) && !VerifierOk(sent, s.rows[tid].stored)
    ensures var s := Serially(deeds); var (s', answer) := Reveal(s, tid, ticket, sent);
            var left := s.rows[tid].maxAttempts - Acc(s, tid).wrong - 1;
            answer == (if left == 0 then DestroyedNow else WrongPassphrase(left))
            && (left == 0 <==> tid in s'.rows && s'.rows[tid].status == Destroyed)
  {
    SeriallyKeeps(deeds);
    var s, s1 := Serially(deeds), Consume(Serially(deeds), ticket, tid);
    assert Settled(s, tid) && CellOk(s, tid);
    ConsumeFields(s, ticket, tid);
    LiveSecretCounts(deeds, tid);
    FailStatus(s1, tid);
  }

  lemma FailStatus(s: State, tid: Tid)
    requires tid in s.rows && s.rows[tid].status == Active
    ensures var (s', answer) := Fail(s, tid, s.rows[tid]); var left := s.rows[tid].maxAttempts - FailsOf(s.redis, tid) - 1;
            && answer == (if left <= 0 then DestroyedNow else WrongPassphrase(left))
            && (left <= 0 <==> tid in s'.rows && s'.rows[tid].status == Destroyed)
  {
  }

  /** One handler at a time, 'viewed' means delivered, for every link. */
  lemma ViewedIffDelivered(deeds: seq<Deed>, tid: Tid)
    requires tid.OfToken? && tid in Serially(deeds).rows
    ensures Serially(deeds).rows[tid].status == Viewed <==> Acc(Serially(deeds), tid).takes >= 1
  {
    SeriallyKeeps(deeds);
    assert Settled(Serially(deeds), tid);
  }

  /** One handler at a time, a reply too is stored at most once and delivered at most once, and
      it is stored exactly when it was accepted and its request fulfilled. */
  lemma ReplyOnce(deeds: seq<Deed>, rid: Tid)
    ensures var s, a := Serially(deeds), Acc(Serially(deeds), OfReply(rid));
            && a.takes + a.drops + a.expiries + a.overwrites <= a.puts == a.accepted <= 1
            && (a.accepted == 1 <==> rid in s.reqs && s.reqs[rid].status == Fulfilled)
  {
    SeriallyKeeps(deeds);
    assert Settled(Serially(deeds), OfReply(rid)) && CellOk(Serially(deeds), OfReply(rid));
  }

  /** take_reply never looks at the reply's row, so a reply read after its row was marked
      expired is delivered and stays 'expired'. It is marked viewed exactly when the row was
      still active. */
  lemma ReplyMarkedIffActive(deeds: seq<Deed>, rid: Tid, user: User, admin: bool)
    requires TakeReply(Serially(deeds), rid, user, admin).1.Bytes_?
    ensures var s, s', tid := Serially(deeds), TakeReply(Serially(deeds), rid, user, admin).0, OfReply(rid);
            && tid in s.rows && tid in s'.rows
            && (s'.rows[tid].status == Viewed <==> s.rows[tid].status == Active)
            && (s.rows[tid].status != Active ==> s.rows[tid].status == Expired)
  {
    SeriallyKeeps(deeds);
    var s := Serially(deeds);
    assert RequestOk(s, rid) && Settled(s, OfReply(rid)) && CellOk(s, OfReply(rid));
  }

  ghost predicate Kept(s: State, s': State, tid: Tid) {
    tid in s.rows ==> tid in s'.rows && s'.rows[tid].status == s.rows[tid].status
  }

  lemma OpenLeaves(s: State, tid: Tid, who: Recipient, t: Tid)
    requires t != tid
    ensures Kept(s, Atomic.Open(s, tid, who).0, t)
  {
  }

  lemma FailLeaves(s: State, tid: Tid, row: Row, t: Tid)
    requires t != tid
    ensures Kept(s, Fail(s, tid, row).0, t)
  {
    FailElsewhere(s, tid, row);
    assert Untouched(s, Fail(s, tid, row).0, t);
  }

  lemma RevealKeepsClosed(s: State, tid: Tid, ticket: Ticket, sent: Option<Bytes>, t: Tid)
    requires tid in s.rows ==> (s.rows[tid].status == Active ==> t != tid)
    ensures Kept(s, Reveal(s, tid, ticket, sent).0, t)
  {
    if tid in s.rows && s.rows[tid].status == Active {
      var s1 := Consume(s, ticket, tid);
      ConsumeFields(s, ticket, tid);
      OpenLeaves(s1, tid, Holder(sent), t);
      FailLeaves(s1, tid, s.rows[tid], t);
    }
  }

  lemma SecretNeverReopens(s: State, call: Call, env: Env, tid: Tid)
    requires call.CallCreate? || call.CallMeta? || call.CallReveal? || call.CallRevoke?
    requires CellOk(s, tid) && Draws(s, env) && tid in s.rows && s.rows[tid].status != Active
    ensures Kept(s, Handle(s, call, env).0, tid)
  {
    if call.CallReveal? { RevealKeepsClosed(s, call.tid, call.ticket, call.sent, tid); }
  }

  lemma RequestNeverReopens(s: State, call: Call, env: Env, tid: Tid)
    requires call.CallAsk? || call.CallView? || call.CallTakeReply? || call.CallWithdraw?
    requires tid in s.rows && s.rows[tid].status != Active
    ensures Kept(s, Handle(s, call, env).0, tid)
  {
  }

  lemma SubmitNeverReopens(s: State, rid: Tid, data: Bytes, throttled: bool, tid: Tid)
    requires Settled(s, OfReply(rid)) && tid in s.rows
    ensures Kept(s, Submit(s, rid, data, throttled).0, tid)
  {
  }

  lemma HandleNeverReopens(s: State, call: Call, env: Env, tid: Tid)
    requires Shared(s) && AllSettled(s) && Draws(s, env) && tid in s.rows && s.rows[tid].status != Active
    ensures Kept(s, Handle(s, call, env).0, tid)
  {
    assert CellOk(s, tid);
    if call.CallSubmit? {
      EnterSettled(s, call);
      assert Settled(Enter(s, call), OfReply(call.rid));
      SubmitNeverReopens(Enter(s, call), call.rid, call.data, env.throttled, tid);
    } else if call.CallCreate? || call.CallMeta? || call.CallReveal? || call.CallRevoke? {
      SecretNeverReopens(s, call, env, tid);
    } else {
      RequestNeverReopens(s, call, env, tid);
    }
  }

  lemma DoneKeepsClosed(deeds: seq<Deed>, d: Deed, tid: Tid)
    requires tid in Serially(deeds).rows && Serially(deeds).rows[tid].status != Active
    ensures Kept(Serially(deeds), Done(Serially(deeds), d), tid)
  {
    SeriallyKeeps(deeds);
    if d.Serve? && Draws(Serially(deeds), d.env) { HandleNeverReopens(Serially(deeds), d.call, d.env, tid); }
  }

  lemma LastDone(deeds: seq<Deed>)
    requires deeds != []
    ensures Serially(deeds) == Done(Serially(deeds[..|deeds| - 1]), deeds[|deeds| - 1])
  {
  }

  lemma OneMore(deeds: seq<Deed>, more: seq<Deed>)
    requires more != []
    ensures Serially(deeds + more) == Done(Serially(deeds + more[..|more| - 1]), more[|more| - 1])
  {
    LastDone(deeds + more);
    assert (deeds + more)[..|deeds + more| - 1] == deeds + more[..|more| - 1];
  }

  lemma KeptOn(s: State, s1: State, s2: State, tid: Tid)
    requires Kept(s, s1, tid) && Kept(s1, s2, tid)
    ensures Kept(s, s2, tid)
  {
  }

  /** One handler at a time, a closed secret keeps its status for ever. */
  lemma {:induction false} ClosedForEver(deeds: seq<Deed>, more: seq<Deed>, tid: Tid)
    requires tid in Serially(deeds).rows && Serially(deeds).rows[tid].status != Active
    ensures Kept(Serially(deeds), Serially(deeds + more), tid)
  {
    if more == [] {
      assert deeds + more == deeds;
    } else {
      var before := deeds + more[..|more| - 1];
      ClosedForEver(deeds, more[..|more| - 1], tid);
      DoneKeepsClosed(before, more[|more| - 1], tid);
      OneMore(deeds, more);
      KeptOn(Serially(deeds), Serially(before), Serially(deeds + more), tid);
    }
  }
}
