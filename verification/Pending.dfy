/** Debts between the two stores: when a key and its row disagree, some handler in flight
    is about to settle it. */
module Pending {
  import opened Domain
  import opened Store
  import opened Protocol
  import opened Invariants
  import opened Effects
  import opened Steps

  // ------------------------------------- commands that matter to none of this

  /** Commands that neither write nor remove a key, add a row, count a failure nor accept. */
  predicate Quiet(th: Thread) {
    !(th.CreatePut? || th.CreateInsert? || th.SubmitPut? || th.SubmitInsert? || th.SubmitFulfil? || th.RevealIncr?
      || th.RevealTake? || th.ReplyTake? || th.RevealDrop? || th.RevokeDrop?)
  }

  ghost predicate QuietAt(s: State, s': State, tid: Tid) {
    && s'.redis.now == s.redis.now && (Stored(s', tid) <==> Stored(s, tid))
    && Acc(s', tid).takes == Acc(s, tid).takes && Acc(s', tid).wrong == Acc(s, tid).wrong
    && Acc(s', tid).accepted == Acc(s, tid).accepted
    && (tid in s'.rows <==> tid in s.rows)
    && (tid in s.rows ==>
          && s'.rows[tid].expires == s.rows[tid].expires && s'.rows[tid].maxAttempts == s.rows[tid].maxAttempts
          && (s'.rows[tid].status == Active ==> s.rows[tid].status == Active))
  }

  lemma QuietMark(s: State, t: Tid, to: Status, tid: Tid)
    requires to != Active
    ensures QuietAt(s, Mark(s, t, to), tid)
  {
  }

  lemma QuietRevoke(s: State, t: Tid, tid: Tid)
    ensures QuietAt(s, Revoke(s, t), tid)
  {
  }

  lemma QuietStoreFails(s: State, t: Tid, n: nat, tid: Tid)
    ensures QuietAt(s, StoreFails(s, t, n), tid)
  {
  }

  lemma QuietIssue(s: State, ticket: Ticket, t: Tid, tid: Tid)
    ensures QuietAt(s, Issue(s, ticket, t), tid)
  {
  }

  lemma QuietShape(s: State, s': State, tid: Tid)
    requires s' == s.(redis := s.redis.(tickets := s'.redis.tickets), spent := s'.spent, accounts := s'.accounts)
    requires Acc(s', tid) == Acc(s, tid).(checks := Acc(s', tid).checks)
    ensures QuietAt(s, s', tid)
  {
  }

  lemma QuietConsume(s: State, ticket: Ticket, t: Tid, tid: Tid)
    ensures QuietAt(s, Consume(s, ticket, t), tid)
  {
    ConsumeFields(s, ticket, t);
    ConsumeAccount(s, ticket, t, tid);
    QuietShape(s, Consume(s, ticket, t), tid);
  }

  lemma QuietExpire(s: State, t: Tid, ttl: int, tid: Tid)
    ensures QuietAt(s, Expire(s, t, ttl), tid)
  {
  }

  lemma QuietTable(s: State, reqs: map<Tid, Request>, minted: set<nat>, tid: Tid)
    ensures QuietAt(s, s.(reqs := reqs, minted := minted), tid)
  {
  }

  lemma QuietRequests(s: State, th: Thread, env: Env, tid: Tid)
    requires th.AskInsert? || th.LoadExpire? || th.WithdrawWrite?
    ensures QuietAt(s, SqlCommand(s, th, env), tid)
  {
    var s' := SqlCommand(s, th, env);
    QuietTable(s, s'.reqs, s'.minted, tid);
  }

  lemma QuietSql(s: State, th: Thread, env: Env, tid: Tid)
    requires (th.Close? && th.to != Active) || th.Deliver? || th.RevokeWrite? || th.RevealStore?
    ensures QuietAt(s, SqlCommand(s, th, env), tid)
  {
    match th
    case Close(t, to) => QuietMark(s, t, to, tid);
    case Deliver(t, _, _) => QuietMark(s, t, Viewed, tid);
    case RevokeWrite(t, _, _) => QuietRevoke(s, t, tid);
    case RevealStore(t, _, n) => QuietStoreFails(s, t, n, tid);
  }

  lemma QuietRedis(s: State, th: Thread, env: Env, tid: Tid)
    requires th.RevealExpire? || th.RevealTicket? || th.MetaIssue?
    ensures QuietAt(s, RedisCommand(s, th, env), tid)
  {
    match th
    case RevealExpire(t, _, ttl, _) => QuietExpire(s, t, ttl, tid);
    case RevealTicket(t, ticket, _, _) => QuietConsume(s, ticket, t, tid);
    case MetaIssue(t) => QuietIssue(s, env.ticket, t, tid);
  }

  lemma QuietEffect(s: State, th: Thread, env: Env, tid: Tid)
    requires Quiet(th) && (th.Close? ==> th.to != Active)
    ensures QuietAt(s, Effect(s, th, env), tid)
  {
    if th.AskInsert? || th.LoadExpire? || th.WithdrawWrite? { QuietRequests(s, th, env, tid); }
    else if OnRedis(th) { QuietRedis(s, th, env, tid); }
    else if OnPostgres(th) { QuietSql(s, th, env, tid); }
  }

  /** Thread `q` is where it was, unless it is the one that moved. */
  lemma Bystander(w: World, s': State, p: nat, m: Move, q: nat)
    requires q in w.threads && q != p
    ensures var w' := Place(World(s', w.threads), p, m); q in w'.threads && w'.threads[q] == w.threads[q]
  {
  }

  // -------------------------------------- an open row whose bytes have left early

  ghost predicate Astray(s: State, tid: Tid) {
    && tid in s.rows && s.rows[tid].status == Active
    && (Acc(s, tid).takes >= 1 || (s.redis.now < s.rows[tid].expires && !Stored(s, tid)))
  }

  /** The next step of this handler takes the row out of 'active'. */
  predicate Closes(th: Thread, tid: Tid) {
    (th.Close? || th.Deliver? || th.RevokeWrite?) && th.tid == tid
  }

  ghost predicate HasCloser(w: World, tid: Tid) {
    exists p :: p in w.threads && Closes(w.threads[p], tid)
  }

  ghost predicate ClosingOk(w: World, tid: Tid) {
    Astray(w.state, tid) ==> HasCloser(w, tid)
  }

  lemma CloserSettles(s: State, th: Thread, env: Env, tid: Tid)
    requires ThreadOk(s, th) && Closes(th, tid)
    ensures !Astray(Effect(s, th, env), tid)
  {
  }

  lemma StrayPut(s: State, th: Thread, env: Env, tid: Tid)
    requires CellOk(s, tid) && !Astray(s, tid) && (th.CreatePut? || th.SubmitPut?)
    ensures !Astray(Effect(s, th, env), tid)
  {
  }

  lemma StrayAdd(s: State, th: Thread, env: Env, tid: Tid)
    requires CellOk(s, tid) && ThreadOk(s, th) && !Astray(s, tid)
    requires th.CreateInsert? || th.SubmitInsert?
    ensures !Astray(Effect(s, th, env), tid)
  {
  }

  lemma StrayCount(s: State, th: Thread, env: Env, tid: Tid)
    requires !Astray(s, tid) && (th.RevealIncr? || th.SubmitFulfil?)
    ensures !Astray(Effect(s, th, env), tid)
  {
  }

  lemma StrayRemove(s: State, th: Thread, env: Env, tid: Tid)
    requires !Astray(s, tid) && (th.RevealTake? || th.ReplyTake? || th.RevealDrop? || th.RevokeDrop?)
    ensures Astray(Effect(s, th, env), tid) ==> Next(s, th, env).Go? && Closes(Next(s, th, env).th, tid)
  {
  }

  /** Only a GETDEL or a DEL can take the bytes away early, and it leaves a closer behind. */
  lemma StrayOwed(s: State, th: Thread, env: Env, tid: Tid)
    requires CellOk(s, tid) && ThreadOk(s, th) && !Astray(s, tid)
    ensures Astray(Effect(s, th, env), tid) ==> Next(s, th, env).Go? && Closes(Next(s, th, env).th, tid)
  {
    if Quiet(th) { QuietEffect(s, th, env, tid); }
    else if th.RevealTake? || th.ReplyTake? || th.RevealDrop? || th.RevokeDrop? { StrayRemove(s, th, env, tid); }
    else if th.CreatePut? || th.SubmitPut? { StrayPut(s, th, env, tid); }
    else if th.RevealIncr? || th.SubmitFulfil? { StrayCount(s, th, env, tid); }
    else { StrayAdd(s, th, env, tid); }
  }

  lemma ClosingStep(w: World, p: nat, env: Env, tid: Tid)
    requires Inv(w) && p in w.threads && ClosingOk(w, tid)
    ensures ClosingOk(Step(w, p, w.threads[p], env), tid)
  {
    var s, th := w.state, w.threads[p];
    var w' := Step(w, p, th, env);
    assert ThreadOk(s, th) && CellOk(s, tid);
    if Astray(w'.state, tid) {
      if Astray(s, tid) {
        var q :| q in w.threads && Closes(w.threads[q], tid);
        if q == p { CloserSettles(s, th, env, tid); } else { Bystander(w, w'.state, p, Next(s, th, env), q); }
        assert q in w'.threads && Closes(w'.threads[q], tid);
      } else {
        StrayOwed(s, th, env, tid);
        assert p in w'.threads && Closes(w'.threads[p], tid);
      }
    }
  }

  lemma CloserStays(w: World, s': State, p: nat, m: Move, tid: Tid)
    requires HasCloser(w, tid) && (p in w.threads ==> m.Wait?)
    ensures HasCloser(Place(World(s', w.threads), p, m), tid)
  {
    var q :| q in w.threads && Closes(w.threads[q], tid);
    var w' := Place(World(s', w.threads), p, m);
    if q != p { Bystander(w, s', p, m, q); }
    assert q in w'.threads && Closes(w'.threads[q], tid);
  }

  lemma TimeStraysNone(s: State, tid: Tid)
    requires CellOk(s, tid) && Astray(Pass(s), tid)
    ensures Astray(s, tid)
  {
    PassCell(s, tid);
  }

  lemma ClosingKeeps(w: World, a: Action, tid: Tid)
    requires Inv(w) && ClosingOk(w, tid)
    ensures ClosingOk(Apply(w, a), tid)
  {
    var s, w' := w.state, Apply(w, a);
    assert CellOk(s, tid);
    match a
    case Start(p, call) =>
      if p !in w.threads && Astray(s, tid) { CloserStays(w, Enter(s, call), p, First(s, call), tid); }
    case Do(p, env) => if p in w.threads { ClosingStep(w, p, env, tid); }
    case Sweep => if Astray(w'.state, tid) { CloserStays(w, w'.state, 0, Wait, tid); }
    case Tock => if Astray(w'.state, tid) { TimeStraysNone(s, tid); CloserStays(w, w'.state, 0, Wait, tid); }
  }

  // ------------------------------------------------- a passphrase budget used up

  /** The bytes can still be taken: neither gone nor past the deadline. */
  ghost predicate Takeable(s: State, tid: Tid) {
    tid in s.rows && Stored(s, tid) && s.redis.now < s.rows[tid].expires
  }

  /** How many wrong verifiers beyond the last harmless one have been counted. */
  ghost function Excess(s: State, tid: Tid): nat {
    if Takeable(s, tid) && Acc(s, tid).wrong >= s.rows[tid].maxAttempts
    then Acc(s, tid).wrong - s.rows[tid].maxAttempts + 1 else 0
  }

  /** This handler counted a failure at or past the limit, and has yet to drop the key. */
  predicate Destroys(th: Thread, tid: Tid) {
    || (th.RevealExpire? && th.tid == tid && th.n >= th.row.maxAttempts)
    || (th.RevealStore? && th.tid == tid && th.n >= th.row.maxAttempts)
    || (th.RevealDrop? && th.tid == tid)
  }

  ghost function Destroyers(w: World, tid: Tid): set<nat> {
    set p | p in w.threads && Destroys(w.threads[p], tid)
  }

  /** While a link's bytes can still be taken, the failures past its budget are exactly the
      handlers that are about to drop the key. */
  ghost predicate BudgetOk(w: World, tid: Tid) {
    tid.OfToken? && Takeable(w.state, tid) ==> Excess(w.state, tid) == |Destroyers(w, tid)|
  }

  /** Does the thread that moved destroy afterwards? */
  predicate StillDestroys(m: Move, th: Thread, tid: Tid) {
    if m.Go? then Destroys(m.th, tid) else m.Wait? && Destroys(th, tid)
  }

  ghost predicate ExcessMoves(s: State, s': State, was: bool, is_: bool, tid: Tid) {
    Takeable(s', tid) ==>
      && Takeable(s, tid)
      && Excess(s', tid) + (if was then 1 else 0) == Excess(s, tid) + if is_ then 1 else 0
  }

  lemma ExcessFulfil(s: State, th: Thread, env: Env, tid: Tid)
    requires th.SubmitFulfil?
    ensures Takeable(Effect(s, th, env), tid) ==> Takeable(s, tid) && Excess(Effect(s, th, env), tid) == Excess(s, tid)
  {
  }

  lemma ExcessTake(s: State, th: Thread, env: Env, tid: Tid)
    requires th.RevealTake? || th.ReplyTake?
    ensures Takeable(Effect(s, th, env), tid) ==> Takeable(s, tid) && Excess(Effect(s, th, env), tid) == Excess(s, tid)
  {
  }

  lemma ExcessDrop(s: State, th: Thread, env: Env, tid: Tid)
    requires th.RevealDrop? || th.RevokeDrop?
    ensures Takeable(Effect(s, th, env), tid) ==>
              !Destroys(th, tid) && Takeable(s, tid) && Excess(Effect(s, th, env), tid) == Excess(s, tid)
  {
  }

  lemma ExcessRemove(s: State, th: Thread, env: Env, tid: Tid)
    requires th.RevealTake? || th.ReplyTake? || th.RevealDrop? || th.RevokeDrop? || th.SubmitFulfil?
    ensures Takeable(Effect(s, th, env), tid) ==>
              !Destroys(th, tid) && Takeable(s, tid) && Excess(Effect(s, th, env), tid) == Excess(s, tid)
  {
    if th.RevealDrop? || th.RevokeDrop? { ExcessDrop(s, th, env, tid); }
    else if th.SubmitFulfil? { ExcessFulfil(s, th, env, tid); }
    else { ExcessTake(s, th, env, tid); }
  }

  lemma ExcessAdd(s: State, th: Thread, env: Env, tid: Tid)
    requires CellOk(s, tid) && ThreadOk(s, th) && tid.OfToken? && tid in s.rows
    requires th.CreatePut? || th.CreateInsert? || th.SubmitPut? || th.SubmitInsert?
    ensures Takeable(Effect(s, th, env), tid) ==> Takeable(s, tid) && Excess(Effect(s, th, env), tid) == Excess(s, tid)
  {
  }

  lemma ExcessQuiet(s: State, s': State, tid: Tid)
    requires QuietAt(s, s', tid)
    ensures Takeable(s', tid) ==> Takeable(s, tid) && Excess(s', tid) == Excess(s, tid)
  {
  }

  lemma ExcessCount(s: State, th: Thread, env: Env, tid: Tid)
    requires CellOk(s, tid) && ThreadOk(s, th) && th.RevealIncr?
    ensures ExcessMoves(s, Effect(s, th, env), false, StillDestroys(Next(s, th, env), th, tid), tid)
  {
  }

  /** Which threads come to destroy, and that those that do stay at it until the key is gone. */
  lemma DestroyerMoves(s: State, th: Thread, env: Env, tid: Tid)
    ensures StillDestroys(Next(s, th, env), th, tid) ==> Destroys(th, tid) || (th.RevealIncr? && th.tid == tid)
    ensures Destroys(th, tid) ==> StillDestroys(Next(s, th, env), th, tid) || th.RevealDrop?
  {
  }

  lemma ExcessStep(s: State, th: Thread, env: Env, tid: Tid)
    requires CellOk(s, tid) && ThreadOk(s, th) && tid.OfToken? && tid in s.rows
    ensures ExcessMoves(s, Effect(s, th, env), Destroys(th, tid), StillDestroys(Next(s, th, env), th, tid), tid)
  {
    DestroyerMoves(s, th, env, tid);
    if Quiet(th) {
      QuietEffect(s, th, env, tid);
      ExcessQuiet(s, Effect(s, th, env), tid);
    } else if th.RevealIncr? {
      ExcessCount(s, th, env, tid);
    } else if th.CreatePut? || th.CreateInsert? || th.SubmitPut? || th.SubmitInsert? {
      ExcessAdd(s, th, env, tid);
    } else {
      ExcessRemove(s, th, env, tid);
    }
  }

  /** Nobody destroys what has no row, and a new row starts with its whole budget. */
  lemma NobodyDestroys(w: World, tid: Tid)
    requires ThreadsOk(w) && tid !in w.state.rows
    ensures Destroyers(w, tid) == {}
  {
    forall p | p in w.threads ensures !Destroys(w.threads[p], tid) {
      assert ThreadOk(w.state, w.threads[p]);
    }
  }

  lemma RowAdded(s: State, th: Thread, env: Env, tid: Tid)
    requires CellOk(s, tid) && ThreadOk(s, th) && tid.OfToken? && tid !in s.rows
    ensures Takeable(Effect(s, th, env), tid) ==> Excess(Effect(s, th, env), tid) == 0
    ensures !StillDestroys(Next(s, th, env), th, tid)
  {
    DestroyerMoves(s, th, env, tid);
    if Quiet(th) { QuietEffect(s, th, env, tid); } else { RowAddedLoud(s, th, env, tid); }
  }

  lemma RowAddedLoud(s: State, th: Thread, env: Env, tid: Tid)
    requires CellOk(s, tid) && ThreadOk(s, th) && tid.OfToken? && tid !in s.rows && !Quiet(th)
    ensures Takeable(Effect(s, th, env), tid) ==> Excess(Effect(s, th, env), tid) == 0
  {
  }

  /** The set of destroyers after one thread has moved. */
  lemma DestroyersMove(w: World, s': State, p: nat, th: Thread, m: Move, tid: Tid)
    requires p in w.threads && w.threads[p] == th
    ensures var w' := Place(World(s', w.threads), p, m);
            Destroyers(w', tid) == Destroyers(w, tid) - {p} + if StillDestroys(m, th, tid) then {p} else {}
  {
  }

  lemma TurnOf(d: set<nat>, p: nat, stays: bool)
    ensures |d - {p} + if stays then {p} else {}| + (if p in d then 1 else 0) == |d| + if stays then 1 else 0
  {
    if p in d { assert d == (d - {p}) + {p}; } else { assert d - {p} == d; }
  }

  lemma BudgetMoves(w: World, s': State, p: nat, th: Thread, m: Move, tid: Tid)
    requires p in w.threads && w.threads[p] == th && BudgetOk(w, tid)
    requires ExcessMoves(w.state, s', Destroys(th, tid), StillDestroys(m, th, tid), tid)
    ensures BudgetOk(Place(World(s', w.threads), p, m), tid)
  {
    DestroyersMove(w, s', p, th, m, tid);
    TurnOf(Destroyers(w, tid), p, StillDestroys(m, th, tid));
    assert p in Destroyers(w, tid) <==> Destroys(th, tid);
  }

  lemma BudgetStep(w: World, p: nat, env: Env, tid: Tid)
    requires Inv(w) && p in w.threads && BudgetOk(w, tid) && tid.OfToken?
    ensures BudgetOk(Step(w, p, w.threads[p], env), tid)
  {
    var s, th := w.state, w.threads[p];
    assert ThreadOk(s, th) && CellOk(s, tid);
    if tid in s.rows {
      ExcessStep(s, th, env, tid);
      BudgetMoves(w, Effect(s, th, env), p, th, Next(s, th, env), tid);
    } else {
      NobodyDestroys(w, tid);
      RowAdded(s, th, env, tid);
      DestroyersMove(w, Effect(s, th, env), p, th, Next(s, th, env), tid);
    }
  }

  lemma SameDestroyers(w: World, s': State, tid: Tid)
    requires BudgetOk(w, tid) && ExcessMoves(w.state, s', false, false, tid)
    ensures BudgetOk(w.(state := s'), tid)
  {
    assert Destroyers(w.(state := s'), tid) == Destroyers(w, tid);
  }

  lemma BeginDestroysNone(w: World, p: nat, call: Call, tid: Tid)
    requires p !in w.threads && BudgetOk(w, tid)
    ensures BudgetOk(Begin(w, p, call), tid)
  {
    assert First(w.state, call).Go? ==> !Destroys(First(w.state, call).th, tid);
    assert Destroyers(Begin(w, p, call), tid) == Destroyers(w, tid);
    assert Excess(Enter(w.state, call), tid) == Excess(w.state, tid);
  }

  lemma TimeExceedsNone(s: State, tid: Tid)
    ensures ExcessMoves(s, Pass(s), false, false, tid) && ExcessMoves(s, SweepRows(s), false, false, tid)
  {
  }

  lemma BudgetKeeps(w: World, a: Action, tid: Tid)
    requires Inv(w) && BudgetOk(w, tid)
    ensures BudgetOk(Apply(w, a), tid)
  {
    if !tid.OfToken? { return; }
    match a
    case Start(p, call) => if p !in w.threads { BeginDestroysNone(w, p, call, tid); }
    case Do(p, env) => if p in w.threads { BudgetStep(w, p, env, tid); }
    case Sweep => TimeExceedsNone(w.state, tid); SameDestroyers(w, SweepRows(w.state), tid);
    case Tock => TimeExceedsNone(w.state, tid); SameDestroyers(w, Pass(w.state), tid);
  }

  // ------------------------------------------------------- one answer per request

  predicate Fulfils(th: Thread, rid: Tid) {
    th.SubmitFulfil? && th.rid == rid
  }

  /** A submission is accepted by the one handler whose INSERT went through. */
  ghost predicate AcceptanceOk(w: World, rid: Tid) {
    && Acc(w.state, OfReply(rid)).accepted <= 1
    && (forall p, q :: p in w.threads && q in w.threads && Fulfils(w.threads[p], rid) && Fulfils(w.threads[q], rid) ==> p == q)
    && (forall p :: p in w.threads && Fulfils(w.threads[p], rid) ==> Acc(w.state, OfReply(rid)).accepted == 0)
  }

  lemma AcceptNot(s: State, th: Thread, env: Env, tid: Tid)
    requires th.CreatePut? || th.SubmitPut? || th.RevealIncr? || th.RevealTake? || th.ReplyTake? || th.RevealDrop? || th.RevokeDrop?
    ensures Acc(RedisCommand(s, th, env), tid).accepted == Acc(s, tid).accepted
  {
  }

  lemma AcceptOnce(s: State, th: Thread, env: Env, rid: Tid)
    requires th.CreateInsert? || th.SubmitInsert? || th.SubmitFulfil?
    ensures Acc(SqlCommand(s, th, env), OfReply(rid)).accepted == Acc(s, OfReply(rid)).accepted + if Fulfils(th, rid) then 1 else 0
  {
  }

  lemma AcceptLoud(s: State, th: Thread, env: Env, rid: Tid)
    requires !Quiet(th)
    ensures Acc(Effect(s, th, env), OfReply(rid)).accepted == Acc(s, OfReply(rid)).accepted + if Fulfils(th, rid) then 1 else 0
  {
    if OnRedis(th) { AcceptNot(s, th, env, OfReply(rid)); } else { AcceptOnce(s, th, env, rid); }
  }

  lemma AcceptCount(s: State, th: Thread, env: Env, rid: Tid)
    requires ThreadOk(s, th)
    ensures Acc(Effect(s, th, env), OfReply(rid)).accepted == Acc(s, OfReply(rid)).accepted + if Fulfils(th, rid) then 1 else 0
  {
    if Quiet(th) { QuietEffect(s, th, env, OfReply(rid)); } else { AcceptLoud(s, th, env, rid); }
  }

  lemma FulfilsAfterInsert(s: State, th: Thread, env: Env, rid: Tid)
    ensures Next(s, th, env).Go? && Fulfils(Next(s, th, env).th, rid) ==> th.SubmitInsert? && OfReply(rid) !in s.rows
    ensures Fulfils(th, rid) ==> Next(s, th, env).End?
  {
  }

  /** The one thread that moves may fulfil only if nobody did or was about to. */
  lemma AcceptanceMoves(w: World, s': State, p: nat, m: Move, rid: Tid)
    requires AcceptanceOk(w, rid)
    requires m.Go? && Fulfils(m.th, rid) ==>
               Acc(w.state, OfReply(rid)).accepted == 0 && forall q :: q in w.threads ==> !Fulfils(w.threads[q], rid)
    requires var one := if p in w.threads && Fulfils(w.threads[p], rid) && m.End? then 1 else 0;
             Acc(s', OfReply(rid)).accepted == Acc(w.state, OfReply(rid)).accepted + one
    ensures AcceptanceOk(Place(World(s', w.threads), p, m), rid)
  {
  }

  lemma NoFulfiller(w: World, rid: Tid)
    requires ThreadsOk(w) && OfReply(rid) !in w.state.rows
    ensures forall q :: q in w.threads ==> !Fulfils(w.threads[q], rid)
  {
    forall q | q in w.threads ensures !Fulfils(w.threads[q], rid) {
      assert ThreadOk(w.state, w.threads[q]);
    }
  }

  lemma AcceptanceStep(w: World, p: nat, env: Env, rid: Tid)
    requires Inv(w) && p in w.threads && AcceptanceOk(w, rid)
    ensures AcceptanceOk(Step(w, p, w.threads[p], env), rid)
  {
    var s, th := w.state, w.threads[p];
    assert ThreadOk(s, th) && CellOk(s, OfReply(rid));
    AcceptCount(s, th, env, rid);
    FulfilsAfterInsert(s, th, env, rid);
    if OfReply(rid) !in s.rows { NoFulfiller(w, rid); }
    AcceptanceMoves(w, Effect(s, th, env), p, Next(s, th, env), rid);
  }

  lemma PassAccepted(s: State, tid: Tid)
    ensures Acc(Pass(s), tid).accepted == Acc(s, tid).accepted
  {
    if tid in s.redis.blobs {
      assert tid in s.accounts.Keys + s.redis.blobs.Keys;
    }
  }

  lemma AcceptanceKeeps(w: World, a: Action, rid: Tid)
    requires Inv(w) && AcceptanceOk(w, rid)
    ensures AcceptanceOk(Apply(w, a), rid)
  {
    var s := w.state;
    match a
    case Start(p, call) => if p !in w.threads { AcceptanceMoves(w, Enter(s, call), p, First(s, call), rid); }
    case Do(p, env) => if p in w.threads { AcceptanceStep(w, p, env, rid); }
    case Sweep => AcceptanceMoves(w, SweepRows(s), 0, Wait, rid);
    case Tock => PassAccepted(s, OfReply(rid)); AcceptanceMoves(w, Pass(s), 0, Wait, rid);
  }
}
