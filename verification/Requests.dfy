/** What becomes of a request once it is no longer open. */
module Requests {
  import opened Domain
  import opened Protocol
  import opened Invariants
  import opened Steps
  import opened Theorems
  import Atomic
  import opened Continuations

  ghost predicate Shut(s: State, rid: Tid) {
    rid in s.reqs && s.reqs[rid].status != RequestStatus.Open
  }

  /** This handler has found the request open and is going to withdraw it. */
  predicate Withdraws(th: Thread, rid: Tid) {
    th.WithdrawWrite? && th.rid == rid
  }

  ghost predicate WithdrawPending(w: World, rid: Tid) {
    exists p :: p in w.threads && Withdraws(w.threads[p], rid)
  }

  lemma RedisLeavesRequests(s: State, th: Thread, env: Env)
    requires OnRedis(th)
    ensures RedisCommand(s, th, env).reqs == s.reqs
  {
  }

  lemma SqlShuts(s: State, th: Thread, env: Env, rid: Tid)
    requires OnPostgres(th) && RequestOk(s, rid) && Shut(s, rid)
    ensures var s' := SqlCommand(s, th, env);
            && Shut(s', rid)
            && (s'.reqs[rid].status != s.reqs[rid].status ==> Withdraws(th, rid) && s'.reqs[rid].status == Withdrawn)
  {
  }

  lemma ShutStep(s: State, th: Thread, env: Env, rid: Tid)
    requires RequestOk(s, rid) && Shut(s, rid)
    ensures var s' := Effect(s, th, env);
            && Shut(s', rid)
            && (s'.reqs[rid].status != s.reqs[rid].status ==> Withdraws(th, rid) && s'.reqs[rid].status == Withdrawn)
  {
    if OnRedis(th) { RedisLeavesRequests(s, th, env); } else if OnPostgres(th) { SqlShuts(s, th, env, rid); }
  }

  /** One action never opens a request again, and changes it only by withdrawing it. */
  lemma ShutAction(w: World, a: Action, rid: Tid)
    requires Inv(w) && Shut(w.state, rid)
    ensures var s' := Apply(w, a).state;
            && Shut(s', rid)
            && (s'.reqs[rid].status != w.state.reqs[rid].status ==>
                  s'.reqs[rid].status == Withdrawn && a.Do? && a.pid in w.threads && Withdraws(w.threads[a.pid], rid))
  {
    assert RequestOk(w.state, rid);
    if a.Do? && a.pid in w.threads { ShutStep(w.state, w.threads[a.pid], a.env, rid); }
  }

  /** No request is ever open again. */
  lemma {:induction false} NeverOpenAgain(acts: seq<Action>, more: seq<Action>, rid: Tid)
    requires Shut(After(acts), rid)
    ensures Shut(After(acts + more), rid)
  {
    if more == [] {
      assert acts + more == acts;
    } else {
      var init, a := more[..|more| - 1], more[|more| - 1];
      NeverOpenAgain(acts, init, rid);
      RunKeeps(acts + init);
      ShutAction(At(acts + init), a, rid);
      OneMore(acts + init, a);
      assert acts + init + [a] == acts + more;
    }
  }

  /** The last statement of a withdrawal by the request's owner or an administrator. */
  ghost predicate Withdrawing(w: World, a: Action, rid: Tid) {
    && a.Do? && a.pid in w.threads && Withdraws(w.threads[a.pid], rid)
    && rid in w.state.reqs && (w.threads[a.pid].user == w.state.reqs[rid].owner || w.threads[a.pid].admin)
  }

  /** Each change of a request's status, and the statement that makes it. */
  ghost predicate RequestChanged(w: World, a: Action, rid: Tid, was: RequestStatus, is_: RequestStatus) {
    || was == is_
    || (is_ == Withdrawn && Withdrawing(w, a, rid))
    || (was == RequestStatus.Open && is_ == Fulfilled && a.Do? && a.pid in w.threads && w.threads[a.pid] == SubmitFulfil(rid))
    || (was == RequestStatus.Open && is_ == Lapsed && a.Do? && a.pid in w.threads && w.threads[a.pid] == LoadExpire(rid)
        && rid in w.state.reqs && w.state.reqs[rid].expires <= w.state.redis.now)
  }

  lemma SqlChanges(s: State, th: Thread, env: Env, rid: Tid)
    requires OnPostgres(th) && RequestOk(s, rid) && rid in s.reqs
    ensures var s' := SqlCommand(s, th, env);
            && rid in s'.reqs
            && var was, is_ := s.reqs[rid].status, s'.reqs[rid].status;
            || was == is_ || (Withdraws(th, rid) && is_ == Withdrawn)
            || (was == RequestStatus.Open && ((th == SubmitFulfil(rid) && is_ == Fulfilled) || (th == LoadExpire(rid) && is_ == Lapsed)))
  {
  }

  lemma EffectChanges(s: State, th: Thread, env: Env, rid: Tid)
    requires RequestOk(s, rid) && rid in s.reqs
    ensures var s' := Effect(s, th, env);
            && rid in s'.reqs
            && var was, is_ := s.reqs[rid].status, s'.reqs[rid].status;
            || was == is_ || (Withdraws(th, rid) && is_ == Withdrawn)
            || (was == RequestStatus.Open && ((th == SubmitFulfil(rid) && is_ == Fulfilled) || (th == LoadExpire(rid) && is_ == Lapsed)))
  {
    if OnRedis(th) { RedisLeavesRequests(s, th, env); } else if OnPostgres(th) { SqlChanges(s, th, env, rid); }
  }

  lemma ChangeStep(w: World, p: nat, env: Env, rid: Tid)
    requires Inv(w) && rid in w.state.reqs && p in w.threads
    ensures var s' := Effect(w.state, w.threads[p], env);
            rid in s'.reqs && RequestChanged(w, Do(p, env), rid, w.state.reqs[rid].status, s'.reqs[rid].status)
  {
    assert RequestOk(w.state, rid) && ThreadOk(w.state, w.threads[p]);
    EffectChanges(w.state, w.threads[p], env, rid);
  }

  lemma ChangeAction(w: World, a: Action, rid: Tid)
    requires Inv(w) && rid in w.state.reqs
    ensures var s' := Apply(w, a).state;
            rid in s'.reqs && RequestChanged(w, a, rid, w.state.reqs[rid].status, s'.reqs[rid].status)
  {
    if a.Do? && a.pid in w.threads { ChangeStep(w, a.pid, a.env, rid); }
  }

  /** A request leaves a status only in these ways: it is withdrawn only by the last statement of
      a withdrawal by its owner or an administrator, it is fulfilled and lapses only while open,
      and it lapses only after its deadline. */
  lemma RequestChanges(acts: seq<Action>, a: Action, rid: Tid)
    requires rid in After(acts).reqs
    ensures var s' := Apply(At(acts), a).state;
            rid in s'.reqs && RequestChanged(At(acts), a, rid, After(acts).reqs[rid].status, s'.reqs[rid].status)
  {
    RunKeeps(acts);
    ChangeAction(At(acts), a, rid);
  }

  lemma OthersNeverWithdraw(s: State, th: Thread, env: Env)
    requires !th.WithdrawSelect? && Next(s, th, env).Go?
    ensures !Next(s, th, env).th.WithdrawWrite?
  {
  }

  lemma NewWithdrawer(s: State, th: Thread, env: Env, rid: Tid)
    requires Next(s, th, env).Go? && Withdraws(Next(s, th, env).th, rid)
    ensures rid in s.reqs && s.reqs[rid].status == RequestStatus.Open
  {
    if !th.WithdrawSelect? { OthersNeverWithdraw(s, th, env); }
  }

  /** In this status, and nobody is on the way to withdraw it. */
  ghost predicate Final(w: World, rid: Tid, status: RequestStatus) {
    Shut(w.state, rid) && w.state.reqs[rid].status == status && !WithdrawPending(w, rid)
  }

  lemma FinalMoves(w: World, s': State, p: nat, m: Move, rid: Tid)
    requires !WithdrawPending(w, rid) && (m.Go? ==> !Withdraws(m.th, rid))
    ensures !WithdrawPending(Place(World(s', w.threads), p, m), rid)
  {
    var w' := Place(World(s', w.threads), p, m);
    forall q | q in w'.threads ensures !Withdraws(w'.threads[q], rid) {
      if q != p { assert q in w.threads; }
    }
  }

  lemma FinalKeeps(w: World, a: Action, rid: Tid, status: RequestStatus)
    requires Inv(w) && Final(w, rid, status)
    ensures Final(Apply(w, a), rid, status)
  {
    ShutAction(w, a, rid);
    match a
    case Start(p, call) => if p !in w.threads { FinalMoves(w, Enter(w.state, call), p, First(w.state, call), rid); }
    case Do(p, env) =>
      if p in w.threads {
        var m := Next(w.state, w.threads[p], env);
        if m.Go? && Withdraws(m.th, rid) { NewWithdrawer(w.state, w.threads[p], env, rid); }
        FinalMoves(w, Effect(w.state, w.threads[p], env), p, m, rid);
      }
    case Sweep =>
    case Tock =>
  }

  lemma {:induction false} FinalStays(acts: seq<Action>, more: seq<Action>, rid: Tid, status: RequestStatus)
    requires Final(At(acts), rid, status)
    ensures Final(At(acts + more), rid, status)
  {
    if more == [] {
      assert acts + more == acts;
    } else {
      var init, a := more[..|more| - 1], more[|more| - 1];
      FinalStays(acts, init, rid, status);
      RunKeeps(acts + init);
      FinalKeeps(At(acts + init), a, rid, status);
      OneMore(acts + init, a);
      assert acts + init + [a] == acts + more;
    }
  }

  lemma WithdrawnNow(acts: seq<Action>, rid: Tid) returns (more: seq<Action>)
    requires rid in After(acts).reqs && WithdrawPending(At(acts), rid)
    ensures rid in After(acts + more).reqs && After(acts + more).reqs[rid].status == Withdrawn
  {
    var p :| p in At(acts).threads && Withdraws(At(acts).threads[p], rid);
    var env;
    more, env := FinishNow(acts, p);
    var th := At(acts).threads[p];
    Atomic.WithdrawWriteAlone(After(acts), rid, th.user, th.admin, env);
  }

  ghost predicate Is(s: State, rid: Tid, status: RequestStatus) {
    rid in s.reqs && s.reqs[rid].status == status
  }

  /** A fulfilled request, and likewise an expired one, stays so however the run goes on if and
      only if no handler that found it open is about to withdraw it: that UPDATE looks at no
      status, and it turns an accepted reply into one that its owner is refused. */
  lemma StatusForGood(acts: seq<Action>, rid: Tid, status: RequestStatus)
    requires Is(After(acts), rid, status) && (status == Fulfilled || status == Lapsed)
    ensures (forall more :: Is(After(acts + more), rid, status)) <==> !WithdrawPending(At(acts), rid)
  {
    if WithdrawPending(At(acts), rid) {
      var more := WithdrawnNow(acts, rid);
      assert !Is(After(acts + more), rid, status);
    } else {
      forall more ensures Is(After(acts + more), rid, status) {
        FinalStays(acts, more, rid, status);
      }
    }
  }
}
