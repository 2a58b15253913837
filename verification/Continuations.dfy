/** How any run can go on: a handler called now and left alone, a handler in flight given its
    turns, and every handler brought to its end. */
module Continuations {
  import opened Domain
  import opened Store
  import opened Protocol
  import opened Invariants
  import opened Steps
  import opened Theorems
  import opened Atomic
  import opened Uninterrupted

  lemma OneMore(acts: seq<Action>, a: Action)
    ensures At(acts + [a]) == Apply(At(acts), a)
  {
    assert (acts + [a])[..|acts|] == acts;
  }

  lemma {:induction false} DriveOn(acts: seq<Action>, p: nat, env: Env, n: nat) returns (more: seq<Action>)
    ensures At(acts + more) == Drive(At(acts), p, env, n)
  {
    if n == 0 {
      more := [];
      assert acts + more == acts;
    } else {
      var most := DriveOn(acts, p, env, n - 1);
      more := most + [Do(p, env)];
      OneMore(acts + most, Do(p, env));
      assert acts + more == acts + most + [Do(p, env)];
    }
  }

  lemma TokenIsFree(acts: seq<Action>, env: Env)
    requires Draws(After(acts), env)
    ensures OfToken(env.token) !in After(acts).rows
  {
    RunKeeps(acts);
    assert CellOk(After(acts), OfToken(env.token));
  }

  /** A call comes in now and is answered before any other step is taken. */
  lemma HandleNow(acts: seq<Action>, call: Call, env: Env) returns (more: seq<Action>)
    requires Draws(After(acts), env)
    ensures At(acts + more) == World(Handle(After(acts), call, env).0, At(acts).threads)
  {
    var p := Unused(At(acts).threads.Keys);
    TokenIsFree(acts, env);
    var n := HandleIsRun(At(acts), p, call, env);
    OneMore(acts, Start(p, call));
    var rest := DriveOn(acts + [Start(p, call)], p, env, n);
    more := [Start(p, call)] + rest;
    assert acts + more == acts + [Start(p, call)] + rest;
  }

  /** Handler `p` is given its turns until it ends. */
  lemma FinishNow(acts: seq<Action>, p: nat) returns (more: seq<Action>, env: Env)
    requires p in At(acts).threads
    ensures At(acts + more) == World(Alone(After(acts), At(acts).threads[p], env), At(acts).threads - {p})
    ensures !env.throttled
  {
    var w := At(acts);
    var others := w.threads - {p};
    env := AnyEnv(w.state);
    assert w.threads == others[p := w.threads[p]];
    var n := AloneIsDrive(w.state, others, p, w.threads[p], env);
    more := DriveOn(acts, p, env, n);
  }

  lemma Fewer(ths: map<nat, Thread>, p: nat)
    requires p in ths
    ensures |ths - {p}| < |ths|
  {
    assert ths.Keys == (ths - {p}).Keys + {p};
  }

  lemma FinishOne(acts: seq<Action>) returns (more: seq<Action>)
    requires At(acts).threads != map[]
    ensures |At(acts + more).threads| < |At(acts).threads|
  {
    var p :| p in At(acts).threads;
    Fewer(At(acts).threads, p);
    var first, env := FinishNow(acts, p);
    more := first;
  }

  lemma Joined(acts: seq<Action>, first: seq<Action>, rest: seq<Action>)
    ensures acts + (first + rest) == (acts + first) + rest
  {
  }

  /** From every state of every run, rest can be reached. */
  lemma {:induction false} RestNow(acts: seq<Action>) returns (more: seq<Action>)
    ensures Quiescent(acts + more)
    decreases |At(acts).threads|
  {
    if At(acts).threads == map[] {
      more := [];
      assert acts + more == acts;
    } else {
      var first := FinishOne(acts);
      var rest := RestNow(acts + first);
      Joined(acts, first, rest);
      more := first + rest;
    }
  }
}
