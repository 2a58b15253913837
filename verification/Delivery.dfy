/** When a link that was delivered ends as viewed. */
module Delivery {
  import opened Domain
  import opened Store
  import opened Protocol
  import opened Invariants
  import opened Steps
  import opened Theorems
  import Atomic
  import opened Continuations

  /** This handler has the bytes in hand and has yet to mark the row. */
  predicate Delivers(th: Thread, tid: Tid) {
    th.Deliver? && th.tid == tid
  }

  /** This handler has found the row active and is going to revoke it. */
  predicate Revokes(th: Thread, tid: Tid) {
    (th.RevokeDrop? || th.RevokeWrite?) && th.tid == tid
  }

  ghost predicate RevokePending(w: World, tid: Tid) {
    exists p :: p in w.threads && Revokes(w.threads[p], tid)
  }

  // ------------------------------------------------- one link, one deliverer

  /** At most one handler has a link's bytes in hand, and until it is done the row is not viewed. */
  ghost predicate Sole(w: World, tid: Tid) {
    && (forall p, q :: p in w.threads && q in w.threads && Delivers(w.threads[p], tid) && Delivers(w.threads[q], tid) ==> p == q)
    && (forall p :: p in w.threads && Delivers(w.threads[p], tid) ==> tid in w.state.rows && w.state.rows[tid].status != Viewed)
  }

  lemma NewDeliverer(s: State, th: Thread, env: Env, tid: Tid)
    requires Next(s, th, env).Go? && Delivers(Next(s, th, env).th, tid)
    ensures (th.RevealTake? || th.ReplyTake?) && th.tid == tid && Stored(s, tid) && Effect(s, th, env).rows == s.rows
  {
  }

  /** Bytes that are there have not been taken, so nobody has them in hand and the row is not viewed. */
  lemma NobodyYet(w: World, tid: Tid)
    requires Inv(w) && tid.OfToken? && Stored(w.state, tid)
    ensures forall p :: p in w.threads ==> !Delivers(w.threads[p], tid)
    ensures tid in w.state.rows ==> w.state.rows[tid].status != Viewed
  {
    assert CellOk(w.state, tid);
    forall p | p in w.threads ensures !Delivers(w.threads[p], tid) {
      assert ThreadOk(w.state, w.threads[p]);
    }
  }

  lemma SqlViewsNone(s: State, th: Thread, env: Env, tid: Tid)
    requires OnPostgres(th) && ThreadOk(s, th) && !Delivers(th, tid)
    requires tid in s.rows && s.rows[tid].status != Viewed
    ensures var s' := SqlCommand(s, th, env); tid in s'.rows && s'.rows[tid].status != Viewed
  {
  }

  /** Only a delivery marks a row viewed. */
  lemma ViewsNone(s: State, th: Thread, env: Env, tid: Tid)
    requires ThreadOk(s, th) && !Delivers(th, tid)
    requires tid in s.rows && s.rows[tid].status != Viewed
    ensures var s' := Effect(s, th, env); tid in s'.rows && s'.rows[tid].status != Viewed
  {
    if OnRedis(th) { RedisLeavesRows(s, th, env); } else if OnPostgres(th) { SqlViewsNone(s, th, env, tid); }
  }

  lemma DeliverEnds(s: State, th: Thread, env: Env, tid: Tid)
    requires Delivers(th, tid)
    ensures Next(s, th, env).End? && Effect(s, th, env).rows == Mark(s, tid, Viewed).rows
  {
  }

  lemma SoleMoves(w: World, s': State, p: nat, m: Move, tid: Tid)
    requires Sole(w, tid)
    requires m.Go? && Delivers(m.th, tid) ==> forall q :: q in w.threads ==> !Delivers(w.threads[q], tid)
    requires (m.Go? && Delivers(m.th, tid)) || (exists q :: q in w.threads && q != p && Delivers(w.threads[q], tid))
             || (p in w.threads && m.Wait? && Delivers(w.threads[p], tid))
             ==> tid in s'.rows && s'.rows[tid].status != Viewed
    ensures Sole(Place(World(s', w.threads), p, m), tid)
  {
  }

  lemma SoleStep(w: World, p: nat, env: Env, tid: Tid)
    requires Inv(w) && p in w.threads && Sole(w, tid) && tid.OfToken?
    ensures Sole(Step(w, p, w.threads[p], env), tid)
  {
    var s, th := w.state, w.threads[p];
    var m := Next(s, th, env);
    assert ThreadOk(s, th);
    if Delivers(th, tid) {
      DeliverEnds(s, th, env, tid);
    } else if m.Go? && Delivers(m.th, tid) {
      NewDeliverer(s, th, env, tid);
      NobodyYet(w, tid);
    } else if exists q :: q in w.threads && q != p && Delivers(w.threads[q], tid) {
      ViewsNone(s, th, env, tid);
    }
    SoleMoves(w, Effect(s, th, env), p, m, tid);
  }

  lemma SoleKeeps(w: World, a: Action, tid: Tid)
    requires Inv(w) && Sole(w, tid) && tid.OfToken?
    ensures Sole(Apply(w, a), tid)
  {
    match a
    case Start(p, call) => if p !in w.threads { SoleMoves(w, Enter(w.state, call), p, First(w.state, call), tid); }
    case Do(p, env) => if p in w.threads { SoleStep(w, p, env, tid); }
    case Sweep =>
    case Tock =>
  }

  lemma {:induction false} AlwaysSole(acts: seq<Action>, tid: Tid)
    requires tid.OfToken?
    ensures Sole(At(acts), tid)
  {
    if acts != [] {
      AlwaysSole(acts[..|acts| - 1], tid);
      RunKeeps(acts[..|acts| - 1]);
      SoleKeeps(At(acts[..|acts| - 1]), acts[|acts| - 1], tid);
    }
  }

  // ----------------------------------------------------------- viewed for good

  /** Viewed, and nobody is on the way to revoke it. */
  ghost predicate Sealed(w: World, tid: Tid) {
    tid in w.state.rows && w.state.rows[tid].status == Viewed && !RevokePending(w, tid)
  }

  lemma OthersRevokeNot(s: State, th: Thread, env: Env, tid: Tid)
    requires !InRevoke(th) && Next(s, th, env).Go?
    ensures !InRevoke(Next(s, th, env).th)
  {
  }

  lemma NewRevoker(s: State, th: Thread, env: Env, tid: Tid)
    requires Next(s, th, env).Go? && Revokes(Next(s, th, env).th, tid) && !Revokes(th, tid)
    ensures tid in s.rows && s.rows[tid].status == Active
  {
    if !InRevoke(th) { OthersRevokeNot(s, th, env, tid); }
  }

  lemma SealedStep(w: World, p: nat, env: Env, tid: Tid)
    requires p in w.threads && Sealed(w, tid)
    ensures Sealed(Step(w, p, w.threads[p], env), tid)
  {
    var s, th := w.state, w.threads[p];
    var w' := Step(w, p, th, env);
    OnlyRevokeRewrites(s, th, env, tid);
    assert !Revokes(th, tid);
    if Next(s, th, env).Go? && Revokes(Next(s, th, env).th, tid) { NewRevoker(s, th, env, tid); }
    forall q | q in w'.threads ensures !Revokes(w'.threads[q], tid) {
      if q != p { assert q in w.threads; }
    }
  }

  lemma SealedKeeps(w: World, a: Action, tid: Tid)
    requires Sealed(w, tid)
    ensures Sealed(Apply(w, a), tid)
  {
    match a
    case Start(p, call) =>
      if p !in w.threads {
        var w' := Begin(w, p, call);
        forall q | q in w'.threads ensures !Revokes(w'.threads[q], tid) {
          if q != p { assert q in w.threads; }
        }
      }
    case Do(p, env) => if p in w.threads { SealedStep(w, p, env, tid); }
    case Sweep =>
    case Tock =>
  }

  lemma {:induction false} SealedStays(acts: seq<Action>, more: seq<Action>, tid: Tid)
    requires Sealed(At(acts), tid)
    ensures Sealed(At(acts + more), tid)
  {
    if more == [] {
      assert acts + more == acts;
    } else {
      var init := more[..|more| - 1];
      SealedStays(acts, init, tid);
      SealedKeeps(At(acts + init), more[|more| - 1], tid);
      OneMore(acts + init, more[|more| - 1]);
      assert acts + init + [more[|more| - 1]] == acts + more;
    }
  }

  /** Closed, and not as viewed. */
  ghost predicate Missed(s: State, tid: Tid) {
    tid in s.rows && s.rows[tid].status != Active && s.rows[tid].status != Viewed
  }

  lemma {:induction false} MissedStays(acts: seq<Action>, more: seq<Action>, tid: Tid)
    requires Missed(After(acts), tid)
    ensures Missed(After(acts + more), tid)
  {
    if more == [] {
      assert acts + more == acts;
    } else {
      var init := more[..|more| - 1];
      MissedStays(acts, init, tid);
      ClosedOnlyRevoked(acts + init, more[|more| - 1], tid);
      OneMore(acts + init, more[|more| - 1]);
      assert acts + init + [more[|more| - 1]] == acts + more;
    }
  }

  lemma RevokerEnds(s: State, th: Thread, env: Env, tid: Tid)
    requires Revokes(th, tid) && tid in s.rows
    ensures Missed(Atomic.Alone(s, th, env), tid)
  {
    if th.RevokeDrop? {
      Atomic.RevokeDropAlone(s, tid, th.user, th.admin, env);
    } else {
      RevokeWriteEnds(s, th, env);
    }
  }

  lemma RevokeWriteEnds(s: State, th: Thread, env: Env)
    requires th.RevokeWrite?
    ensures Atomic.Alone(s, th, env) == Revoke(s, th.tid)
  {
  }

  /** A handler on its way to revoke can always be the last word. */
  lemma RevokedAtRest(acts: seq<Action>, tid: Tid) returns (more: seq<Action>)
    requires RevokePending(At(acts), tid)
    ensures Quiescent(acts + more) && Missed(After(acts + more), tid)
  {
    var q :| q in At(acts).threads && Revokes(At(acts).threads[q], tid);
    RunKeeps(acts);
    assert ThreadOk(After(acts), At(acts).threads[q]);
    var first, env := FinishNow(acts, q);
    RevokerEnds(After(acts), At(acts).threads[q], env, tid);
    var rest := RestNow(acts + first);
    MissedStays(acts + first, rest, tid);
    Joined(acts, first, rest);
    more := first + rest;
  }

  lemma MissedAtRest(acts: seq<Action>, tid: Tid) returns (more: seq<Action>)
    requires Missed(After(acts), tid)
    ensures Quiescent(acts + more) && Missed(After(acts + more), tid)
  {
    more := RestNow(acts);
    MissedStays(acts, more, tid);
  }

  ghost predicate EndsViewed(acts: seq<Action>, tid: Tid) {
    forall more :: Quiescent(acts + more) ==> tid in After(acts + more).rows && After(acts + more).rows[tid].status == Viewed
  }

  /** The step that delivers a link, and the world after it. */
  lemma DeliverStep(acts: seq<Action>, p: nat, env: Env, tid: Tid)
    requires tid.OfToken? && p in At(acts).threads && Delivers(At(acts).threads[p], tid)
    ensures var w, w' := At(acts), At(acts + [Do(p, env)]);
            && tid in w.state.rows && w.state.rows[tid].status != Viewed
            && w'.state.rows == Mark(w.state, tid, Viewed).rows && w'.threads == w.threads - {p}
            && (RevokePending(w', tid) <==> RevokePending(w, tid))
  {
    var w, w' := At(acts), At(acts + [Do(p, env)]);
    AlwaysSole(acts, tid);
    OneMore(acts, Do(p, env));
    DeliverEnds(w.state, w.threads[p], env, tid);
    if q :| q in w.threads && Revokes(w.threads[q], tid) {
      assert q in w'.threads && Revokes(w'.threads[q], tid);
    }
    if q :| q in w'.threads && Revokes(w'.threads[q], tid) {
      assert q in w.threads && Revokes(w.threads[q], tid);
    }
  }

  /** A delivered link is viewed at every later rest exactly when, at the statement that marks
      it, its row was still active and no handler that had found it active was about to revoke
      it. The two guards that fail otherwise: a losing reveal has marked it expired, or an
      unguarded revocation comes last. */
  lemma ViewedForGood(acts: seq<Action>, p: nat, env: Env, tid: Tid)
    requires tid.OfToken? && p in At(acts).threads && Delivers(At(acts).threads[p], tid)
    ensures EndsViewed(acts + [Do(p, env)], tid) <==>
              tid in After(acts).rows && After(acts).rows[tid].status == Active && !RevokePending(At(acts), tid)
  {
    var next := acts + [Do(p, env)];
    DeliverStep(acts, p, env, tid);
    if After(acts).rows[tid].status != Active {
      var more := MissedAtRest(next, tid);
    } else if RevokePending(At(acts), tid) {
      var more := RevokedAtRest(next, tid);
    } else {
      forall more | Quiescent(next + more) ensures tid in After(next + more).rows && After(next + more).rows[tid].status == Viewed {
        SealedStays(next, more, tid);
      }
    }
  }
}
