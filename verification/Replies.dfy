/** Whose bytes are handed out for a key: for a link always those its creation stored; for a
    reply the accepted ones exactly as far as no other submission stores its own afterwards. */
module Replies {
  import opened Domain
  import opened Store
  import opened Protocol
  import opened Invariants
  import Effects
  import opened Steps
  import opened Theorems
  import Atomic
  import opened Continuations
  import opened Delivery
  import opened Requests

  // ---------------------------------------------------- what one step does to a key

  /** This step stores bytes under the key. */
  predicate Writes(s: State, th: Thread, env: Env, tid: Tid) {
    || (th.SubmitPut? && tid == OfReply(th.rid))
    || (th.CreatePut? && tid == OfToken(env.token) && env.token !in s.minted)
  }

  predicate Takes(th: Thread, tid: Tid) {
    (th.RevealTake? || th.ReplyTake?) && th.tid == tid
  }

  predicate OnCounter(th: Thread) {
    th.MetaIssue? || th.RevealTicket? || th.RevealIncr? || th.RevealExpire?
  }

  lemma CounterKey(s: State, th: Thread, env: Env, tid: Tid)
    requires OnCounter(th)
    ensures RedisCommand(s, th, env).redis.blobs == s.redis.blobs && !Takes(th, tid)
  {
  }

  lemma CounterTakes(s: State, th: Thread, env: Env, tid: Tid)
    requires OnCounter(th)
    ensures Acc(RedisCommand(s, th, env), tid).takes == Acc(s, tid).takes
  {
    if th.RevealTicket? { Effects.ConsumeAccount(s, th.ticket, th.tid, tid); }
  }

  lemma BlobTakes(s: State, th: Thread, env: Env, tid: Tid)
    requires OnRedis(th) && !OnCounter(th)
    ensures Acc(RedisCommand(s, th, env), tid).takes == Acc(s, tid).takes + if Takes(th, tid) && Stored(s, tid) then 1 else 0
  {
  }

  lemma BlobKey(s: State, th: Thread, env: Env, tid: Tid)
    requires OnRedis(th) && !OnCounter(th) && !Writes(s, th, env, tid)
    ensures var s' := RedisCommand(s, th, env);
            Stored(s', tid) ==> Stored(s, tid) && s'.redis.blobs[tid] == s.redis.blobs[tid] && !Takes(th, tid)
  {
  }

  lemma RedisKey(s: State, th: Thread, env: Env, tid: Tid)
    requires OnRedis(th) && !Writes(s, th, env, tid)
    ensures var s' := RedisCommand(s, th, env);
            Stored(s', tid) ==> Stored(s, tid) && s'.redis.blobs[tid] == s.redis.blobs[tid] && !Takes(th, tid)
  {
    if OnCounter(th) { CounterKey(s, th, env, tid); } else { BlobKey(s, th, env, tid); }
  }

  lemma RedisTakes(s: State, th: Thread, env: Env, tid: Tid)
    requires OnRedis(th)
    ensures Acc(RedisCommand(s, th, env), tid).takes == Acc(s, tid).takes + if Takes(th, tid) && Stored(s, tid) then 1 else 0
  {
    if OnCounter(th) { CounterTakes(s, th, env, tid); } else { BlobTakes(s, th, env, tid); }
  }

  lemma SqlTakes(s: State, th: Thread, env: Env, tid: Tid)
    requires OnPostgres(th)
    ensures Acc(SqlCommand(s, th, env), tid).takes == Acc(s, tid).takes && SqlCommand(s, th, env).redis == s.redis
  {
  }

  /** Bytes stay as they are until they are taken, dropped or overwritten. */
  lemma KeyStep(s: State, th: Thread, env: Env, tid: Tid)
    requires !Writes(s, th, env, tid)
    ensures var s' := Effect(s, th, env);
            && (Stored(s', tid) ==> Stored(s, tid) && s'.redis.blobs[tid] == s.redis.blobs[tid] && !Takes(th, tid))
            && Acc(s', tid).takes == Acc(s, tid).takes + if Takes(th, tid) && Stored(s, tid) then 1 else 0
  {
    if OnRedis(th) {
      RedisKey(s, th, env, tid);
      RedisTakes(s, th, env, tid);
    } else if OnPostgres(th) {
      SqlTakes(s, th, env, tid);
    }
  }

  lemma RedisServes(s: State, th: Thread, env: Env)
    requires OnRedis(th)
    ensures RedisCommand(s, th, env).served == s.served
  {
  }

  lemma ServesStep(s: State, th: Thread, env: Env)
    ensures Effect(s, th, env).served == s.served + if th.Deliver? then {Serving(th.tid, th.data, th.who)} else {}
  {
    if OnRedis(th) { RedisServes(s, th, env); }
  }

  lemma NextDelivers(s: State, th: Thread, env: Env, tid: Tid)
    requires Next(s, th, env).Go? && Delivers(Next(s, th, env).th, tid)
    ensures Takes(th, tid) && Stored(s, tid) && Next(s, th, env).th.data == s.redis.blobs[tid].data
  {
  }

  // --------------------------------------------------------------- a link's bytes

  ghost predicate OneOffer(s: State) {
    && (forall t, d :: (OfToken(t), d) in s.offered ==> t in s.minted)
    && (forall t, d, d' :: (OfToken(t), d) in s.offered && (OfToken(t), d') in s.offered ==> d == d')
  }

  lemma OfferStep(s: State, th: Thread, env: Env)
    requires OneOffer(s)
    ensures OneOffer(Effect(s, th, env))
  {
    if OnRedis(th) { OfferRedis(s, th, env); } else if OnPostgres(th) { OfferSql(s, th, env); }
  }

  lemma OfferRedis(s: State, th: Thread, env: Env)
    requires OneOffer(s) && OnRedis(th)
    ensures OneOffer(RedisCommand(s, th, env))
  {
    if !th.CreatePut? { RedisOffersNone(s, th, env); }
  }

  lemma RedisOffersNone(s: State, th: Thread, env: Env)
    requires OnRedis(th) && !th.CreatePut?
    ensures RedisCommand(s, th, env).offered == s.offered && RedisCommand(s, th, env).minted == s.minted
  {
  }

  lemma OfferSql(s: State, th: Thread, env: Env)
    requires OnPostgres(th)
    ensures SqlCommand(s, th, env).offered == s.offered && s.minted <= SqlCommand(s, th, env).minted
  {
  }

  lemma OfferAction(w: World, a: Action)
    requires OneOffer(w.state)
    ensures OneOffer(Apply(w, a).state)
  {
    if a.Do? && a.pid in w.threads { OfferStep(w.state, w.threads[a.pid], a.env); }
  }

  lemma {:induction false} OfferedOnce(acts: seq<Action>)
    ensures OneOffer(After(acts))
  {
    if acts != [] {
      OfferedOnce(acts[..|acts| - 1]);
      OfferAction(At(acts[..|acts| - 1]), acts[|acts| - 1]);
    }
  }

  lemma {:induction false} OffersStay(acts: seq<Action>, more: seq<Action>)
    ensures After(acts).offered <= After(acts + more).offered
  {
    if more == [] {
      assert acts + more == acts;
    } else {
      var init := more[..|more| - 1];
      OffersStay(acts, init);
      RunKeeps(acts + init);
      ActionKeeps(At(acts + init), more[|more| - 1]);
      OneMore(acts + init, more[|more| - 1]);
      assert acts + init + [more[|more| - 1]] == acts + more;
    }
  }

  /** What is served for a link, at any time, is what was stored for it, at any time. */
  lemma LinkServesItsBytes(acts: seq<Action>, more: seq<Action>, tid: Tid, data: Bytes, v: Serving)
    requires tid.OfToken? && Seen(After(acts), tid, data)
    requires v in After(acts + more).served && v.tid == tid
    ensures v.data == data
  {
    RunKeeps(acts);
    RunKeeps(acts + more);
    assert CellOk(After(acts), tid) && ServingOk(After(acts + more), v);
    if who :| Serving(tid, data, who) in After(acts).served { assert ServingOk(After(acts), Serving(tid, data, who)); }
    OffersStay(acts, more);
    OfferedOnce(acts + more);
    assert tid == OfToken(tid.token);
  }

  // ------------------------------------------------------------ a reply's bytes

  /** Action `k` of the run is the put of submission `p`, with these bytes. */
  ghost predicate PutAt(acts: seq<Action>, k: nat, p: nat, rid: Tid, data: Bytes) {
    && k < |acts| && acts[k].Do? && acts[k].pid == p && p in At(acts[..k]).threads
    && At(acts[..k]).threads[p].SubmitPut? && At(acts[..k]).threads[p].rid == rid && At(acts[..k]).threads[p].data == data
  }

  /** Action `j` is the insert of submission `p`, and it goes through: this is the one that is accepted. */
  ghost predicate InsertAt(acts: seq<Action>, j: nat, p: nat, rid: Tid) {
    && j < |acts| && acts[j].Do? && acts[j].pid == p && p in At(acts[..j]).threads
    && At(acts[..j]).threads[p].SubmitInsert? && At(acts[..j]).threads[p].rid == rid
    && OfReply(rid) !in After(acts[..j]).rows
  }

  /** The accepted submission put its bytes at `i`, its last step before its insert at `j`. */
  ghost predicate Accepted(acts: seq<Action>, i: nat, j: nat, p: nat, rid: Tid, data: Bytes) {
    && i < j && PutAt(acts, i, p, rid, data) && InsertAt(acts, j, p, rid)
    && forall k :: i < k < j ==> !(acts[k].Do? && acts[k].pid == p)
  }

  ghost predicate NoPutAfter(acts: seq<Action>, i: nat, rid: Tid) {
    forall k, p, data :: i < k < |acts| ==> !PutAt(acts, k, p, rid, data)
  }

  /** Whatever is there, in hand or served for the key is `data`, and it was taken at most once. */
  ghost predicate Only(w: World, tid: Tid, data: Bytes) {
    && Acc(w.state, tid).takes <= 1
    && (Stored(w.state, tid) ==> w.state.redis.blobs[tid].data == data && Acc(w.state, tid).takes == 0)
    && (forall q :: q in w.threads && Delivers(w.threads[q], tid) ==> w.threads[q].data == data)
    && (forall v :: v in w.state.served && v.tid == tid ==> v.data == data)
  }

  /** Before there is a row nothing has been taken, so a put makes its bytes the only ones. */
  lemma OnlyAfterPut(w: World, p: nat, env: Env)
    requires Inv(w) && p in w.threads && w.threads[p].SubmitPut? && OfReply(w.threads[p].rid) !in w.state.rows
    ensures Only(Step(w, p, w.threads[p], env), OfReply(w.threads[p].rid), w.threads[p].data)
  {
    var s, th, tid := w.state, w.threads[p], OfReply(w.threads[p].rid);
    var w' := Step(w, p, th, env);
    assert CellOk(s, tid);
    forall q | q in w'.threads ensures !Delivers(w'.threads[q], tid) {
      if q != p { assert ThreadOk(s, w.threads[q]); }
    }
    forall v | v in w'.state.served ensures v.tid != tid {
      assert ServingOk(s, v);
    }
  }

  lemma OnlyStep(w: World, p: nat, env: Env, tid: Tid, data: Bytes)
    requires p in w.threads && Only(w, tid, data) && !Writes(w.state, w.threads[p], env, tid)
    ensures Only(Step(w, p, w.threads[p], env), tid, data)
  {
    var s, th := w.state, w.threads[p];
    var w' := Step(w, p, th, env);
    KeyStep(s, th, env, tid);
    ServesStep(s, th, env);
    forall q | q in w'.threads && Delivers(w'.threads[q], tid) ensures w'.threads[q].data == data {
      if q == p && Next(s, th, env).Go? { NextDelivers(s, th, env, tid); } else { assert q in w.threads; }
    }
  }

  lemma OnlyPass(w: World, tid: Tid, data: Bytes)
    requires Only(w, tid, data)
    ensures Only(w.(state := Pass(w.state)), tid, data)
  {
    PassTakes(w.state, tid);
  }

  lemma PassTakes(s: State, tid: Tid)
    ensures Acc(Pass(s), tid).takes == Acc(s, tid).takes
  {
    if tid in s.redis.blobs {
      assert tid in s.accounts.Keys + s.redis.blobs.Keys;
    }
  }

  lemma OnlyBegin(w: World, p: nat, call: Call, tid: Tid, data: Bytes)
    requires Only(w, tid, data)
    ensures Only(Begin(w, p, call), tid, data)
  {
    var w' := Begin(w, p, call);
    forall q | q in w'.threads && Delivers(w'.threads[q], tid) ensures w'.threads[q].data == data {
      if q != p { assert q in w.threads; }
    }
  }

  lemma OnlyKeeps(w: World, a: Action, tid: Tid, data: Bytes)
    requires Only(w, tid, data)
    requires a.Do? && a.pid in w.threads ==> !Writes(w.state, w.threads[a.pid], a.env, tid)
    ensures Only(Apply(w, a), tid, data)
  {
    match a
    case Start(p, call) => if p !in w.threads { OnlyBegin(w, p, call, tid, data); }
    case Do(p, env) => if p in w.threads { OnlyStep(w, p, env, tid, data); }
    case Sweep =>
    case Tock => OnlyPass(w, tid, data);
  }

  lemma NotPutIsNotWrite(acts: seq<Action>, k: nat, rid: Tid)
    requires k < |acts| && acts[k].Do? && acts[k].pid in At(acts[..k]).threads
    requires forall p, data :: !PutAt(acts, k, p, rid, data)
    ensures !Writes(After(acts[..k]), At(acts[..k]).threads[acts[k].pid], acts[k].env, OfReply(rid))
  {
    var p := acts[k].pid;
    var th := At(acts[..k]).threads[p];
    if th.SubmitPut? && th.rid == rid { assert PutAt(acts, k, p, rid, th.data); }
  }

  lemma NthStep(acts: seq<Action>, n: nat)
    requires n < |acts|
    ensures At(acts[..n + 1]) == Apply(At(acts[..n]), acts[n])
  {
    assert acts[..n + 1][..n] == acts[..n];
  }

  lemma OnlyNext(acts: seq<Action>, n: nat, rid: Tid, data: Bytes)
    requires n < |acts| && Only(At(acts[..n]), OfReply(rid), data)
    requires forall p, d :: !PutAt(acts, n, p, rid, d)
    ensures Only(At(acts[..n + 1]), OfReply(rid), data)
  {
    NthStep(acts, n);
    if acts[n].Do? && acts[n].pid in At(acts[..n]).threads { NotPutIsNotWrite(acts, n, rid); }
    OnlyKeeps(At(acts[..n]), acts[n], OfReply(rid), data);
  }

  lemma {:induction false} OnlyThrough(acts: seq<Action>, i: nat, n: nat, rid: Tid, data: Bytes)
    requires i < n <= |acts| && NoPutAfter(acts, i, rid) && Only(At(acts[..i + 1]), OfReply(rid), data)
    ensures Only(At(acts[..n]), OfReply(rid), data)
  {
    if n > i + 1 {
      var m := n - 1;
      OnlyThrough(acts, i, m, rid, data);
      OnlyNext(acts, m, rid, data);
    }
  }

  /** A put while there is no row yet, and none after it: these bytes are the reply, taken at
      most once. */
  lemma LastPutIsRead(acts: seq<Action>, i: nat, p: nat, rid: Tid, data: Bytes)
    requires PutAt(acts, i, p, rid, data) && OfReply(rid) !in After(acts[..i]).rows && NoPutAfter(acts, i, rid)
    ensures Only(At(acts), OfReply(rid), data)
  {
    RunKeeps(acts[..i]);
    OnlyAfterPut(At(acts[..i]), p, acts[i].env);
    NthStep(acts, i);
    OnlyThrough(acts, i, |acts|, rid, data);
    assert acts[..|acts|] == acts;
  }

  lemma RowStays(acts: seq<Action>, i: nat, j: nat, tid: Tid)
    requires i <= j <= |acts| && tid in After(acts[..i]).rows
    ensures tid in After(acts[..j]).rows
  {
    assert acts[..i] + acts[i..j] == acts[..j];
    NeverReopened(acts[..i], acts[i..j], tid);
  }

  /** "A reply is delivered once, and it is the accepted one", on every run: it holds for ever as
      long as nobody stores bytes for the request after the accepted submission stored its own. */
  lemma AcceptedIsRead(acts: seq<Action>, i: nat, j: nat, p: nat, rid: Tid, data: Bytes)
    requires Accepted(acts, i, j, p, rid, data) && NoPutAfter(acts, i, rid)
    ensures var s := After(acts);
            && Acc(s, OfReply(rid)).takes <= 1
            && forall d :: Seen(s, OfReply(rid), d) ==> d == data
  {
    if OfReply(rid) in After(acts[..i]).rows { RowStays(acts, i, j, OfReply(rid)); }
    LastPutIsRead(acts, i, p, rid, data);
  }

  // ------------------------------------------------------------ a put too late

  /** What is stored for the reply, if anything, is `data`. */
  ghost predicate Holds(s: State, rid: Tid, data: Bytes) {
    Stored(s, OfReply(rid)) ==> s.redis.blobs[OfReply(rid)].data == data
  }

  lemma HoldsNext(acts: seq<Action>, n: nat, rid: Tid, data: Bytes)
    requires n < |acts| && Holds(After(acts[..n]), rid, data)
    requires forall p, d :: !PutAt(acts, n, p, rid, d)
    ensures Holds(After(acts[..n + 1]), rid, data)
  {
    NthStep(acts, n);
    var w, a := At(acts[..n]), acts[n];
    if a.Do? && a.pid in w.threads {
      NotPutIsNotWrite(acts, n, rid);
      KeyStep(w.state, w.threads[a.pid], a.env, OfReply(rid));
    }
  }

  lemma {:induction false} HoldsThrough(acts: seq<Action>, k: nat, n: nat, rid: Tid, data: Bytes)
    requires k < n <= |acts| && NoPutAfter(acts, k, rid) && Holds(After(acts[..k + 1]), rid, data)
    ensures Holds(After(acts[..n]), rid, data)
  {
    if n > k + 1 {
      HoldsThrough(acts, k, n - 1, rid, data);
      HoldsNext(acts, n - 1, rid, data);
    }
  }

  /** Until someone overwrites them, the bytes put last are the ones that are there. */
  lemma LastPutHolds(acts: seq<Action>, k: nat, p: nat, rid: Tid, data: Bytes)
    requires PutAt(acts, k, p, rid, data) && NoPutAfter(acts, k, rid)
    ensures Holds(After(acts), rid, data)
  {
    NthStep(acts, k);
    assert Holds(After(acts[..k + 1]), rid, data);
    HoldsThrough(acts, k, |acts|, rid, data);
    assert acts[..|acts|] == acts;
  }

  lemma TakeDelivers(s: State, th: Thread, env: Env, tid: Tid)
    requires Takes(th, tid) && Stored(s, tid)
    ensures var m := Next(s, th, env); m.Go? && Delivers(m.th, tid) && m.th.data == s.redis.blobs[tid].data
  {
  }

  /** Conversely, a submission that stores its bytes when there is a row already is refused: its
      insert, or anybody's, never goes through again; and until someone overwrites them, whoever
      takes the reply takes the refused bytes. */
  lemma LateIsRead(acts: seq<Action>, k: nat, p: nat, rid: Tid, data: Bytes, q: nat, env: Env)
    requires PutAt(acts, k, p, rid, data) && OfReply(rid) in After(acts[..k]).rows && NoPutAfter(acts, k, rid)
    requires q in At(acts).threads && Takes(At(acts).threads[q], OfReply(rid)) && Stored(After(acts), OfReply(rid))
    ensures forall j, r :: k <= j < |acts| ==> !InsertAt(acts, j, r, rid)
    ensures var m := Next(After(acts), At(acts).threads[q], env);
            m.Go? && Delivers(m.th, OfReply(rid)) && m.th.data == data
  {
    LastPutHolds(acts, k, p, rid, data);
    TakeDelivers(After(acts), At(acts).threads[q], env, OfReply(rid));
    forall j, r | k <= j < |acts| ensures !InsertAt(acts, j, r, rid) {
      RowStays(acts, k, j, OfReply(rid));
    }
  }

  lemma OwnerIsServed(s: State, rid: Tid)
    requires rid in s.reqs && s.reqs[rid].status == Fulfilled && s.reqs[rid].reply == Some(OfReply(rid)) && Stored(s, OfReply(rid))
    ensures Serving(OfReply(rid), s.redis.blobs[OfReply(rid)].data, Staff(s.reqs[rid].owner, false))
         in Atomic.TakeReply(s, rid, s.reqs[rid].owner, false).0.served
  {
  }

  /** Once the request is fulfilled its owner can take them at once. */
  lemma LateIsHandedOut(acts: seq<Action>, rid: Tid) returns (more: seq<Action>)
    requires rid in After(acts).reqs && After(acts).reqs[rid].status == Fulfilled && Stored(After(acts), OfReply(rid))
    ensures Serving(OfReply(rid), After(acts).redis.blobs[OfReply(rid)].data, Staff(After(acts).reqs[rid].owner, false)) in After(acts + more).served
  {
    var s := After(acts);
    RunKeeps(acts);
    assert RequestOk(s, rid);
    OwnerIsServed(s, rid);
    more := HandleNow(acts, CallTakeReply(rid, s.reqs[rid].owner, false), Atomic.AnyEnv(s));
  }

  // -------------------------------------------------------------- once and for all

  /** This submission has found the request open and will store its bytes. */
  predicate Late(s: State, th: Thread, rid: Tid) {
    || (th.SubmitPut? && th.rid == rid)
    || (th.SubmitLimit? && th.rid == rid && Fits(th.data))
    || (th.LoadCheck? && th.rid == rid && th.payload.Some? && Fits(th.payload.value) && s.redis.now < th.req.expires)
  }

  ghost predicate LatePending(w: World, rid: Tid) {
    exists p :: p in w.threads && Late(w.state, w.threads[p], rid)
  }

  /** Never open again, and nobody who found it open is left. */
  ghost predicate Closed(w: World, rid: Tid) {
    Shut(w.state, rid) && !LatePending(w, rid)
  }

  lemma OthersLateNot(s: State, th: Thread, env: Env)
    requires !InLoad(th) && !InSubmit(th) && Next(s, th, env).Go?
    ensures !InLoad(Next(s, th, env).th) && !InSubmit(Next(s, th, env).th)
  {
  }

  lemma NewLate(s: State, th: Thread, env: Env, rid: Tid)
    requires Next(s, th, env).Go? && Late(s, Next(s, th, env).th, rid)
    ensures Late(s, th, rid) || (rid in s.reqs && s.reqs[rid].status == RequestStatus.Open)
  {
    if InSubmit(th) || InLoad(th) { LateFromLate(s, th, env, rid); } else { OthersLateNot(s, th, env); }
  }

  lemma LateFromLate(s: State, th: Thread, env: Env, rid: Tid)
    requires (InLoad(th) || InSubmit(th)) && Next(s, th, env).Go? && Late(s, Next(s, th, env).th, rid)
    ensures Late(s, th, rid) || (rid in s.reqs && s.reqs[rid].status == RequestStatus.Open)
  {
  }

  lemma LateOnlyFades(s: State, s': State, th: Thread, rid: Tid)
    requires s.redis.now <= s'.redis.now
    ensures Late(s', th, rid) ==> Late(s, th, rid)
  {
  }

  lemma ClosedMoves(w: World, s': State, p: nat, m: Move, rid: Tid)
    requires Closed(w, rid) && Shut(s', rid) && w.state.redis.now <= s'.redis.now
    requires m.Go? ==> !Late(w.state, m.th, rid)
    ensures Closed(Place(World(s', w.threads), p, m), rid)
  {
    var w' := Place(World(s', w.threads), p, m);
    forall q | q in w'.threads ensures !Late(s', w'.threads[q], rid) {
      LateOnlyFades(w.state, s', w'.threads[q], rid);
    }
  }

  lemma ClosedKeeps(w: World, a: Action, rid: Tid)
    requires Inv(w) && Closed(w, rid)
    ensures Closed(Apply(w, a), rid)
  {
    var s, s' := w.state, Apply(w, a).state;
    ActionKeeps(w, a);
    ShutAction(w, a, rid);
    match a
    case Start(p, call) => if p !in w.threads { ClosedMoves(w, s', p, First(s, call), rid); }
    case Do(p, env) =>
      if p in w.threads {
        var m := Next(s, w.threads[p], env);
        if m.Go? && Late(s, m.th, rid) { NewLate(s, w.threads[p], env, rid); }
        ClosedMoves(w, s', p, m, rid);
      }
    case Sweep => ClosedMoves(w, s', 0, Wait, rid);
    case Tock => ClosedMoves(w, s', 0, Wait, rid);
  }

  lemma {:induction false} OnlyForGood(acts: seq<Action>, more: seq<Action>, rid: Tid, data: Bytes)
    requires Closed(At(acts), rid) && Only(At(acts), OfReply(rid), data)
    ensures Closed(At(acts + more), rid) && Only(At(acts + more), OfReply(rid), data)
  {
    if more == [] {
      assert acts + more == acts;
    } else {
      var init, a := more[..|more| - 1], more[|more| - 1];
      OnlyForGood(acts, init, rid, data);
      RunKeeps(acts + init);
      OneMore(acts + init, a);
      assert acts + init + [a] == acts + more;
      ClosedKeeps(At(acts + init), a, rid);
      if a.Do? && a.pid in At(acts + init).threads { ClosedWritesNone(At(acts + init), a, rid); }
      OnlyKeeps(At(acts + init), a, OfReply(rid), data);
    }
  }

  lemma ClosedWritesNone(w: World, a: Action, rid: Tid)
    requires Closed(w, rid) && a.Do? && a.pid in w.threads
    ensures !Writes(w.state, w.threads[a.pid], a.env, OfReply(rid))
  {
    assert !Late(w.state, w.threads[a.pid], rid);
  }

  // ------------------------------------------ and otherwise it can be read twice

  lemma LimitedLate(s: State, rid: Tid, req: Request, data: Bytes, env: Env)
    requires Fits(data) && OfReply(rid) in s.rows && !env.throttled
    ensures Atomic.Alone(s, SubmitLimit(rid, req, data), env) == Put(s, OfReply(rid), data, Max(60, req.expires - s.redis.now))
  {
    Atomic.LimitedAlone(s, rid, req, data, env);
  }

  lemma LoadedLate(s: State, rid: Tid, req: Request, data: Bytes, env: Env)
    requires Fits(data) && OfReply(rid) in s.rows && !env.throttled && s.redis.now < req.expires
    ensures Atomic.Alone(s, LoadCheck(rid, req, Some(data)), env) == Put(s, OfReply(rid), data, Max(60, req.expires - s.redis.now))
  {
    Atomic.LoadAlone(s, rid, req, Some(data), env);
    LimitedLate(s, rid, req, data, env);
  }

  /** A late submission left alone stores its bytes, and is refused. */
  lemma LateAlone(s: State, th: Thread, rid: Tid, env: Env) returns (data: Bytes, ttl: int)
    requires Late(s, th, rid) && OfReply(rid) in s.rows && !env.throttled
    ensures Atomic.Alone(s, th, env) == Put(s, OfReply(rid), data, ttl)
  {
    match th
    case SubmitPut(_, req, bytes, time) =>
      data, ttl := bytes, time;
      Atomic.PutAlone(s, rid, req, bytes, time, env);
    case SubmitLimit(_, req, bytes) =>
      data, ttl := bytes, Max(60, req.expires - s.redis.now);
      LimitedLate(s, rid, req, bytes, env);
    case LoadCheck(_, req, payload) =>
      data, ttl := payload.value, Max(60, req.expires - s.redis.now);
      LoadedLate(s, rid, req, payload.value, env);
  }

  /** The request is fulfilled and its reply's row is there. */
  ghost predicate Answered(s: State, rid: Tid) {
    && rid in s.reqs && s.reqs[rid].status == Fulfilled && s.reqs[rid].reply == Some(OfReply(rid))
    && OfReply(rid) in s.rows
  }

  lemma OwnerTakes(s: State, rid: Tid)
    requires Answered(s, rid) && Stored(s, OfReply(rid))
    ensures var s' := Atomic.TakeReply(s, rid, s.reqs[rid].owner, false).0;
            && Answered(s', rid) && s'.reqs == s.reqs && s'.redis.now == s.redis.now
            && Acc(s', OfReply(rid)).takes == Acc(s, OfReply(rid)).takes + 1
  {
  }

  lemma TakeNow(acts: seq<Action>, rid: Tid) returns (more: seq<Action>)
    requires Answered(After(acts), rid) && Stored(After(acts), OfReply(rid))
    ensures At(acts + more).threads == At(acts).threads && After(acts + more).redis.now == After(acts).redis.now
    ensures Answered(After(acts + more), rid)
    ensures Acc(After(acts + more), OfReply(rid)).takes == Acc(After(acts), OfReply(rid)).takes + 1
  {
    var s := After(acts);
    more := HandleNow(acts, CallTakeReply(rid, s.reqs[rid].owner, false), Atomic.AnyEnv(s));
    OwnerTakes(s, rid);
  }

  lemma LatePuts(acts: seq<Action>, p: nat, rid: Tid) returns (more: seq<Action>)
    requires Answered(After(acts), rid) && p in At(acts).threads && Late(After(acts), At(acts).threads[p], rid)
    ensures Answered(After(acts + more), rid) && Stored(After(acts + more), OfReply(rid))
    ensures Acc(After(acts + more), OfReply(rid)).takes == Acc(After(acts), OfReply(rid)).takes
  {
    var env;
    more, env := FinishNow(acts, p);
    var data, ttl := LateAlone(After(acts), At(acts).threads[p], rid, env);
  }

  lemma TwiceFrom(acts: seq<Action>, p: nat, rid: Tid) returns (more: seq<Action>)
    requires Answered(After(acts), rid) && p in At(acts).threads && Late(After(acts), At(acts).threads[p], rid)
    requires Acc(After(acts), OfReply(rid)).takes >= 1
    ensures Acc(After(acts + more), OfReply(rid)).takes >= 2
  {
    var late := LatePuts(acts, p, rid);
    var again := TakeNow(acts + late, rid);
    Joined(acts, late, again);
    more := late + again;
  }

  lemma LateReadsTwice(acts: seq<Action>, p: nat, rid: Tid) returns (more: seq<Action>)
    requires Answered(After(acts), rid) && p in At(acts).threads && Late(After(acts), At(acts).threads[p], rid)
    requires Stored(After(acts), OfReply(rid)) || Acc(After(acts), OfReply(rid)).takes >= 1
    ensures Acc(After(acts + more), OfReply(rid)).takes >= 2
  {
    if Acc(After(acts), OfReply(rid)).takes >= 1 {
      more := TwiceFrom(acts, p, rid);
    } else {
      var first := TakeNow(acts, rid);
      var rest := TwiceFrom(acts + first, p, rid);
      Joined(acts, first, rest);
      more := first + rest;
    }
  }

  /** Taken at most once, and handed out only as these bytes. */
  ghost predicate OnceAs(s: State, tid: Tid, data: Bytes) {
    Acc(s, tid).takes <= 1 && forall v :: v in s.served && v.tid == tid ==> v.data == data
  }

  /** "A reply is delivered once, and it is the accepted one": from the moment its request is
      fulfilled and its bytes are there or have been taken, this holds however the run goes on
      if and only if no submission that found the request open, with bytes it may store, is
      still in flight. */
  lemma OnceForGood(acts: seq<Action>, rid: Tid, data: Bytes)
    requires rid in After(acts).reqs && After(acts).reqs[rid].status == Fulfilled && Only(At(acts), OfReply(rid), data)
    requires Stored(After(acts), OfReply(rid)) || Acc(After(acts), OfReply(rid)).takes >= 1
    ensures (forall more :: OnceAs(After(acts + more), OfReply(rid), data)) <==> !LatePending(At(acts), rid)
  {
    RunKeeps(acts);
    assert RequestOk(After(acts), rid);
    if LatePending(At(acts), rid) {
      var p :| p in At(acts).threads && Late(After(acts), At(acts).threads[p], rid);
      var more := LateReadsTwice(acts, p, rid);
      assert !OnceAs(After(acts + more), OfReply(rid), data);
    } else {
      forall more ensures OnceAs(After(acts + more), OfReply(rid), data) {
        OnlyForGood(acts, more, rid, data);
      }
    }
  }

  // ------------------------------------------------------------------ read twice

  function TakesAt(acts: seq<Action>, n: nat, rid: Tid): nat
    requires n <= |acts|
  {
    Acc(After(acts[..n]), OfReply(rid)).takes
  }

  /** A submission stored its bytes after the reply had been taken, when there was a row already,
      and the reply was taken at least `again` times since. */
  ghost predicate Refilled(acts: seq<Action>, n: nat, rid: Tid, again: nat)
    requires n <= |acts|
  {
    exists k: nat, p: nat, data :: k < n && PutAt(acts, k, p, rid, data) && OfReply(rid) in After(acts[..k]).rows
                                   && 1 <= TakesAt(acts, k, rid) <= TakesAt(acts, n, rid) - again
  }

  lemma TakesAction(acts: seq<Action>, n: nat, rid: Tid)
    requires n < |acts|
    ensures var s, s' := After(acts[..n]), After(acts[..n + 1]);
            var t, t' := TakesAt(acts, n, rid), TakesAt(acts, n + 1, rid);
            && t <= t' <= t + 1 && (t' == t + 1 ==> Stored(s, OfReply(rid)) && !Stored(s', OfReply(rid)))
            && (Stored(s', OfReply(rid)) && !Stored(s, OfReply(rid)) ==> t' == t && exists p: nat, data :: PutAt(acts, n, p, rid, data))
  {
    NthStep(acts, n);
    var w, a := At(acts[..n]), acts[n];
    if a.Do? && a.pid in w.threads {
      var th := w.threads[a.pid];
      if Writes(w.state, th, a.env, OfReply(rid)) {
        assert PutAt(acts, n, a.pid, rid, th.data);
      } else {
        KeyStep(w.state, th, a.env, OfReply(rid));
      }
    } else if a.Tock? {
      PassTakes(w.state, OfReply(rid));
    }
  }

  lemma RefillLasts(acts: seq<Action>, n: nat, rid: Tid, again: nat, more: nat)
    requires n < |acts| && Refilled(acts, n, rid, again) && TakesAt(acts, n, rid) + more <= TakesAt(acts, n + 1, rid)
    ensures Refilled(acts, n + 1, rid, again + more)
  {
    var k: nat, p: nat, data :| k < n && PutAt(acts, k, p, rid, data) && OfReply(rid) in After(acts[..k]).rows
                                && 1 <= TakesAt(acts, k, rid) <= TakesAt(acts, n, rid) - again;
    assert k < n + 1 && PutAt(acts, k, p, rid, data);
  }

  lemma RefillNow(acts: seq<Action>, n: nat, rid: Tid)
    requires n < |acts| && TakesAt(acts, n, rid) == TakesAt(acts, n + 1, rid) >= 1
    requires exists p: nat, data :: PutAt(acts, n, p, rid, data)
    ensures Refilled(acts, n + 1, rid, 0)
  {
    var p: nat, data :| PutAt(acts, n, p, rid, data);
    RunKeeps(acts[..n]);
    assert CellOk(After(acts[..n]), OfReply(rid));
    assert n < n + 1 && PutAt(acts, n, p, rid, data);
  }

  ghost predicate RefillOk(acts: seq<Action>, n: nat, rid: Tid)
    requires n <= |acts|
  {
    && (Stored(After(acts[..n]), OfReply(rid)) && TakesAt(acts, n, rid) >= 1 ==> Refilled(acts, n, rid, 0))
    && (TakesAt(acts, n, rid) >= 2 ==> Refilled(acts, n, rid, 1))
  }

  lemma RefillTwice(acts: seq<Action>, n: nat, rid: Tid)
    requires n < |acts| && RefillOk(acts, n, rid) && TakesAt(acts, n + 1, rid) >= 2
    ensures Refilled(acts, n + 1, rid, 1)
  {
    TakesAction(acts, n, rid);
    if TakesAt(acts, n, rid) == TakesAt(acts, n + 1, rid) { RefillLasts(acts, n, rid, 1, 0); } else { RefillLasts(acts, n, rid, 0, 1); }
  }

  lemma RefillStored(acts: seq<Action>, n: nat, rid: Tid)
    requires n < |acts| && RefillOk(acts, n, rid) && Stored(After(acts[..n + 1]), OfReply(rid)) && TakesAt(acts, n + 1, rid) >= 1
    ensures Refilled(acts, n + 1, rid, 0)
  {
    TakesAction(acts, n, rid);
    if Stored(After(acts[..n]), OfReply(rid)) { RefillLasts(acts, n, rid, 0, 0); } else { RefillNow(acts, n, rid); }
  }

  lemma {:induction false} RefillAlways(acts: seq<Action>, n: nat, rid: Tid)
    requires n <= |acts|
    ensures RefillOk(acts, n, rid)
  {
    if n > 0 {
      RefillAlways(acts, n - 1, rid);
      if TakesAt(acts, n, rid) >= 2 { RefillTwice(acts, n - 1, rid); }
      if Stored(After(acts[..n]), OfReply(rid)) && TakesAt(acts, n, rid) >= 1 { RefillStored(acts, n - 1, rid); }
    }
  }

  /** A reply is taken more than once only where a submission stored its bytes between two
      takes, when the row was there and its insert could no longer go through. */
  lemma TwiceNeedsRefused(acts: seq<Action>, rid: Tid)
    requires Acc(After(acts), OfReply(rid)).takes >= 2
    ensures Refilled(acts, |acts|, rid, 1)
  {
    RefillAlways(acts, |acts|, rid);
    assert acts[..|acts|] == acts;
  }
}
