/** A secret is destroyed by nothing but its whole budget of wrong verifiers. */
module Destroyed {
  import opened Domain
  import opened Store
  import opened Protocol
  import opened Invariants
  import opened Steps
  import opened Pending
  import opened Theorems

  /** Every attempt that the row allows has been used up. */
  ghost predicate UsedUp(s: State, tid: Tid) {
    tid in s.rows && Acc(s, tid).wrong >= s.rows[tid].maxAttempts
  }

  /** What this handler has counted was counted, and it destroys only what is used up. */
  ghost predicate Honest(s: State, th: Thread, tid: Tid) {
    && (th.RevealExpire? && th.tid == tid ==> th.n <= Acc(s, tid).wrong)
    && (th.RevealStore? && th.tid == tid ==> th.n <= Acc(s, tid).wrong)
    && (th.RevealDrop? && th.tid == tid ==> UsedUp(s, tid))
    && (th == Close(tid, Status.Destroyed) ==> UsedUp(s, tid))
  }

  ghost predicate Fair(s: State, tid: Tid) {
    && FailsOf(s.redis, tid) <= Acc(s, tid).wrong
    && (tid in s.rows && s.rows[tid].status == Status.Destroyed ==> UsedUp(s, tid))
  }

  ghost predicate AllFair(w: World, tid: Tid) {
    Fair(w.state, tid) && forall p :: p in w.threads ==> Honest(w.state, w.threads[p], tid)
  }

  /** Counts only grow, and a row keeps its maximum. */
  ghost predicate Grows(s: State, s': State, tid: Tid) {
    && Acc(s, tid).wrong <= Acc(s', tid).wrong
    && (tid in s.rows ==> tid in s'.rows && s'.rows[tid].maxAttempts == s.rows[tid].maxAttempts)
  }

  lemma RedisGrows(s: State, th: Thread, env: Env, tid: Tid)
    requires OnRedis(th) && Quiet(th)
    ensures Acc(RedisCommand(s, th, env), tid).wrong == Acc(s, tid).wrong
    ensures FailsOf(RedisCommand(s, th, env).redis, tid) == FailsOf(s.redis, tid)
  {
    QuietRedis(s, th, env, tid);
  }

  lemma RedisCounts(s: State, th: Thread, env: Env, tid: Tid)
    requires OnRedis(th) && !Quiet(th)
    ensures var s' := RedisCommand(s, th, env); var one := if th.RevealIncr? && th.tid == tid then 1 else 0;
            && Acc(s', tid).wrong == Acc(s, tid).wrong + one
            && (FailsOf(s'.redis, tid) == FailsOf(s.redis, tid) + one || FailsOf(s'.redis, tid) == 0)
  {
  }

  lemma SqlCounts(s: State, th: Thread, env: Env, tid: Tid)
    requires OnPostgres(th)
    ensures SqlCommand(s, th, env).redis == s.redis && Acc(SqlCommand(s, th, env), tid).wrong == Acc(s, tid).wrong
  {
  }

  lemma EffectCounts(s: State, th: Thread, env: Env, tid: Tid)
    ensures var s' := Effect(s, th, env); var one := if th.RevealIncr? && th.tid == tid then 1 else 0;
            && Acc(s', tid).wrong == Acc(s, tid).wrong + one
            && (FailsOf(s'.redis, tid) == FailsOf(s.redis, tid) + one || FailsOf(s'.redis, tid) == 0)
  {
    if OnRedis(th) {
      if Quiet(th) { RedisGrows(s, th, env, tid); } else { RedisCounts(s, th, env, tid); }
    } else if OnPostgres(th) {
      SqlCounts(s, th, env, tid);
    }
  }

  lemma StaysHonest(s: State, s': State, th: Thread, tid: Tid)
    requires Honest(s, th, tid) && Grows(s, s', tid)
    ensures Honest(s', th, tid)
  {
  }

  lemma EffectFair(s: State, th: Thread, env: Env, tid: Tid)
    requires Fair(s, tid) && ThreadOk(s, th) && Honest(s, th, tid) && CellEvolves(s, Effect(s, th, env), tid)
    ensures Grows(s, Effect(s, th, env), tid) && Fair(Effect(s, th, env), tid)
  {
    EffectCounts(s, th, env, tid);
    if tid in s.rows { EffectChanges(s, th, env, tid); } else { NewRowActive(s, th, env, tid); }
  }

  lemma NewRowActive(s: State, th: Thread, env: Env, tid: Tid)
    requires ThreadOk(s, th) && tid !in s.rows
    ensures tid in Effect(s, th, env).rows ==> Effect(s, th, env).rows[tid].status == Active
  {
    if OnRedis(th) { RedisLeavesRows(s, th, env); } else if OnPostgres(th) { SqlNewRow(s, th, env, tid); }
  }

  lemma SqlNewRow(s: State, th: Thread, env: Env, tid: Tid)
    requires OnPostgres(th) && ThreadOk(s, th) && tid !in s.rows
    ensures tid in SqlCommand(s, th, env).rows ==> SqlCommand(s, th, env).rows[tid].status == Active
  {
  }

  lemma NextHonest(s: State, th: Thread, env: Env, tid: Tid)
    requires Fair(s, tid) && ThreadOk(s, th) && Honest(s, th, tid) && Grows(s, Effect(s, th, env), tid)
    requires Next(s, th, env).Go?
    ensures Honest(Effect(s, th, env), Next(s, th, env).th, tid)
  {
    EffectCounts(s, th, env, tid);
    if InFail(th) { FailHonest(s, Effect(s, th, env), th, tid); } else { OthersHonest(s, th, env, tid); }
  }

  lemma FailHonest(s: State, s': State, th: Thread, tid: Tid)
    requires InFail(th) && Fair(s, tid) && ThreadOk(s, th) && Honest(s, th, tid) && Grows(s, s', tid)
    requires th.RevealIncr? && th.tid == tid ==> Acc(s', tid).wrong == Acc(s, tid).wrong + 1
    requires NextFail(s, th).Go?
    ensures Honest(s', NextFail(s, th).th, tid)
  {
  }

  /** On the way to no destruction. */
  predicate Harmless(th: Thread) {
    !th.RevealExpire? && !th.RevealStore? && !th.RevealDrop? && (th.Close? ==> th.to != Status.Destroyed)
  }

  lemma SecretHarmless(s: State, th: Thread, env: Env)
    requires (InMeta(th) || InReveal(th) || InTake(th)) && Next(s, th, env).Go?
    ensures Harmless(Next(s, th, env).th)
  {
  }

  lemma OtherHarmless(s: State, th: Thread, env: Env)
    requires !InMeta(th) && !InReveal(th) && !InFail(th) && !InTake(th) && Next(s, th, env).Go?
    ensures Harmless(Next(s, th, env).th)
  {
  }

  lemma OthersHonest(s: State, th: Thread, env: Env, tid: Tid)
    requires !InFail(th) && Next(s, th, env).Go?
    ensures Honest(Effect(s, th, env), Next(s, th, env).th, tid)
  {
    if InMeta(th) || InReveal(th) || InTake(th) { SecretHarmless(s, th, env); } else { OtherHarmless(s, th, env); }
  }

  lemma FairStep(w: World, p: nat, env: Env, tid: Tid)
    requires Inv(w) && AllFair(w, tid) && p in w.threads
    ensures AllFair(Step(w, p, w.threads[p], env), tid)
  {
    var s, th := w.state, w.threads[p];
    var w' := Step(w, p, th, env);
    assert ThreadOk(s, th);
    StepKeeps(w, p, env);
    assert CellEvolves(s, Effect(s, th, env), tid);
    EffectFair(s, th, env, tid);
    forall q | q in w'.threads ensures Honest(w'.state, w'.threads[q], tid) {
      if q == p && Next(s, th, env).Go? { NextHonest(s, th, env, tid); } else { StaysHonest(s, w'.state, w.threads[q], tid); }
    }
  }

  lemma FairIdle(w: World, s': State, tid: Tid)
    requires AllFair(w, tid) && Grows(w.state, s', tid) && Fair(s', tid)
    ensures AllFair(w.(state := s'), tid)
  {
    forall q | q in w.threads ensures Honest(s', w.threads[q], tid) {
      StaysHonest(w.state, s', w.threads[q], tid);
    }
  }

  lemma PassWrong(s: State, tid: Tid)
    ensures Acc(Pass(s), tid).wrong == Acc(s, tid).wrong && FailsOf(Pass(s).redis, tid) in {0, FailsOf(s.redis, tid)}
  {
    if tid in s.redis.blobs { assert tid in s.accounts.Keys + s.redis.blobs.Keys; }
  }

  lemma FairBegin(w: World, p: nat, call: Call, tid: Tid)
    requires AllFair(w, tid)
    ensures AllFair(Begin(w, p, call), tid)
  {
    var w' := Begin(w, p, call);
    forall q | q in w'.threads ensures Honest(w'.state, w'.threads[q], tid) {
      if q != p { assert q in w.threads; }
    }
  }

  lemma FairAction(w: World, a: Action, tid: Tid)
    requires Inv(w) && AllFair(w, tid)
    ensures AllFair(Apply(w, a), tid)
  {
    match a
    case Start(p, call) => if p !in w.threads { FairBegin(w, p, call, tid); }
    case Do(p, env) => if p in w.threads { FairStep(w, p, env, tid); }
    case Sweep => FairIdle(w, SweepRows(w.state), tid);
    case Tock => PassWrong(w.state, tid); FairIdle(w, Pass(w.state), tid);
  }

  lemma {:induction false} AlwaysFair(acts: seq<Action>, tid: Tid)
    ensures AllFair(At(acts), tid)
  {
    if acts != [] {
      var before := acts[..|acts| - 1];
      AlwaysFair(before, tid);
      RunKeeps(before);
      FairAction(At(before), acts[|acts| - 1], tid);
    }
  }

  /** However reveals race, a secret is destroyed only when as many wrong verifiers have been
      checked as its row allows, and none is destroyed that was never tried. */
  lemma DestroyedIsUsedUp(acts: seq<Action>, tid: Tid)
    requires tid in After(acts).rows && After(acts).rows[tid].status == Status.Destroyed
    ensures Acc(After(acts), tid).wrong >= After(acts).rows[tid].maxAttempts >= 1
  {
    AlwaysFair(acts, tid);
    RunKeeps(acts);
    assert CellOk(After(acts), tid);
  }
}
