/** A handler alone, and the same handler as one thread among others: given its turns in a
    row it ends where its big step says, so that every big step is a run of the protocol and
    keeps what every run keeps. */
module Uninterrupted {
  import opened Domain
  import opened Store
  import opened Protocol
  import opened Invariants
  import opened Effects
  import opened Steps
  import opened Atomic

  /** `n` steps of thread `p` in a row. */
  function Drive(w: World, p: nat, env: Env, n: nat): World {
    if n == 0 then w else Apply(Drive(w, p, env, n - 1), Do(p, env))
  }

  lemma {:induction false} DriveFirst(w: World, p: nat, env: Env, n: nat)
    ensures Drive(w, p, env, n + 1) == Drive(Apply(w, Do(p, env)), p, env, n)
  {
    if n > 0 { DriveFirst(w, p, env, n - 1); }
  }

  lemma DriveOne(w: World, p: nat, env: Env)
    ensures Drive(w, p, env, 1) == Apply(w, Do(p, env))
  {
    assert Drive(w, p, env, 0) == w;
  }

  /** A thread that has still to draw a token or a ticket, or has drawn it. */
  ghost predicate Ready(s: State, th: Thread, env: Env) {
    Draws(s, env) || th.CreateInsert?
  }

  lemma ReadyNeverWaits(s: State, th: Thread, env: Env)
    requires Ready(s, th, env)
    ensures !Next(s, th, env).Wait?
  {
  }

  lemma ReadyStays(s: State, th: Thread, env: Env)
    requires Ready(s, th, env) && Next(s, th, env).Go?
    ensures Ready(Effect(s, th, env), Next(s, th, env).th, env)
  {
    if OnRedis(th) { RedisDraws(s, th, env); } else if OnPostgres(th) { SqlDraws(s, th, env); }
  }

  lemma RedisDraws(s: State, th: Thread, env: Env)
    requires OnRedis(th) && Next(s, th, env).Go?
    ensures th.CreatePut? || (RedisCommand(s, th, env).minted == s.minted && RedisCommand(s, th, env).issued == s.issued)
    ensures th.CreatePut? ==> Next(s, th, env).th.CreateInsert?
  {
  }

  lemma SqlDraws(s: State, th: Thread, env: Env)
    requires OnPostgres(th) && Next(s, th, env).Go?
    ensures SqlCommand(s, th, env).minted == s.minted && SqlCommand(s, th, env).issued == s.issued && !th.CreateInsert?
  {
  }

  /** The step of a thread that sits beside others. */
  lemma StepBeside(s: State, ths: map<nat, Thread>, p: nat, th: Thread, env: Env)
    requires p !in ths && !Next(s, th, env).Wait?
    ensures var s1, m := Effect(s, th, env), Next(s, th, env);
            Apply(World(s, ths[p := th]), Do(p, env)) == World(s1, if m.Go? then ths[p := m.th] else ths)
  {
    assert ths[p := th] - {p} == ths;
    if Next(s, th, env).Go? {
      assert ths[p := th][p := Next(s, th, env).th] == ths[p := Next(s, th, env).th];
    }
  }

  lemma LastTurn(s: State, ths: map<nat, Thread>, p: nat, th: Thread, env: Env)
    requires p !in ths && Next(s, th, env).End?
    ensures Drive(World(s, ths[p := th]), p, env, 1) == World(Alone(s, th, env), ths)
  {
    StepBeside(s, ths, p, th, env);
    DriveOne(World(s, ths[p := th]), p, env);
  }

  lemma OneMoreTurn(s: State, ths: map<nat, Thread>, p: nat, th: Thread, env: Env, t: Thread, n: nat)
    requires p !in ths && Next(s, th, env) == Go(t)
    requires Drive(World(Effect(s, th, env), ths[p := t]), p, env, n) == World(Alone(Effect(s, th, env), t, env), ths)
    ensures Drive(World(s, ths[p := th]), p, env, n + 1) == World(Alone(s, th, env), ths)
  {
    StepBeside(s, ths, p, th, env);
    Hop(s, th, env, t);
    DriveFirst(World(s, ths[p := th]), p, env, n);
  }

  /** Given the turns, a thread comes to its end, and where it ends is `Alone`. */
  lemma {:induction false} AloneIsDrive(s: State, ths: map<nat, Thread>, p: nat, th: Thread, env: Env) returns (n: nat)
    requires p !in ths && Ready(s, th, env)
    ensures Drive(World(s, ths[p := th]), p, env, n) == World(Alone(s, th, env), ths)
    decreases Rank(th)
  {
    ReadyNeverWaits(s, th, env);
    var m := Next(s, th, env);
    if m.Go? {
      ReadyStays(s, th, env);
      NextDescends(s, th, env);
      n := AloneIsDrive(Effect(s, th, env), ths, p, m.th, env);
      OneMoreTurn(s, ths, p, th, env, m.th, n);
      n := n + 1;
    } else {
      n := 1;
      LastTurn(s, ths, p, th, env);
    }
  }

  lemma FirstOfSecret(s: State, call: Call, env: Env)
    requires Draws(s, env) && OfToken(env.token) !in s.rows
    requires (call.CallCreate? && Fits(call.data) && 1 <= call.maxAttempts <= 20) || call.CallMeta? || call.CallReveal? || call.CallRevoke?
    ensures Alone(s, First(s, call).th, env) == Handle(s, call, env).0
  {
    match call
    case CallCreate(user, data, want, verifier, maxAttempts) =>
      CreateAlone(s, data, Clamp(60, want), First(s, call).th.row, env);
    case CallMeta(tid) => MetaAlone(s, tid, env);
    case CallReveal(tid, ticket, sent) => RevealAlone(s, tid, ticket, sent, env);
    case CallRevoke(tid, user, admin) => RevokeAlone(s, tid, user, admin, env);
  }

  lemma FirstOfRequest(s: State, call: Call, env: Env)
    requires Draws(s, env)
    requires (call.CallAsk? && call.pubkey != []) || call.CallView? || call.CallTakeReply? || call.CallWithdraw?
    ensures Alone(s, First(s, call).th, env) == Handle(s, call, env).0
  {
    match call
    case CallAsk(user, expiresIn, pubkey) =>
    case CallView(rid) => ViewAlone(s, rid, env);
    case CallTakeReply(rid, user, admin) => ReplyAlone(s, rid, user, admin, env);
    case CallWithdraw(rid, user, admin) => WithdrawAlone(s, rid, user, admin, env);
  }

  lemma FirstAlone(s: State, call: Call, env: Env)
    requires Draws(s, env) && OfToken(env.token) !in s.rows && First(s, call).Go?
    ensures Alone(Enter(s, call), First(s, call).th, env) == Handle(s, call, env).0
  {
    if call.CallSubmit? { SubmitAlone(Enter(s, call), call.rid, call.data, env); }
    else if call.CallAsk? || call.CallView? || call.CallTakeReply? || call.CallWithdraw? { FirstOfRequest(s, call, env); }
    else { FirstOfSecret(s, call, env); }
  }

  /** Every handler, run on its own from its first statement, does what `Handle` says: each
      big step is a run of the protocol that starts one thread and lets it finish. */
  lemma HandleIsRun(w: World, p: nat, call: Call, env: Env) returns (n: nat)
    requires p !in w.threads && Draws(w.state, env) && OfToken(env.token) !in w.state.rows
    ensures Drive(Apply(w, Start(p, call)), p, env, n) == World(Handle(w.state, call, env).0, w.threads)
  {
    var m := First(w.state, call);
    if m.Go? {
      FirstAlone(w.state, call, env);
      n := AloneIsDrive(Enter(w.state, call), w.threads, p, m.th, env);
    } else {
      assert w.threads - {p} == w.threads;
      n := 0;
    }
  }

  lemma {:induction false} DriveKeeps(w: World, p: nat, env: Env, n: nat)
    requires Inv(w)
    ensures Inv(Drive(w, p, env, n))
  {
    if n > 0 {
      DriveKeeps(w, p, env, n - 1);
      ActionKeeps(Drive(w, p, env, n - 1), Do(p, env));
    }
  }

  lemma HandleKeeps(s: State, call: Call, env: Env)
    requires Shared(s) && Draws(s, env)
    ensures Shared(Handle(s, call, env).0)
  {
    assert CellOk(s, OfToken(env.token));
    var w := World(s, map[]);
    var n := HandleIsRun(w, 0, call, env);
    ActionKeeps(w, Start(0, call));
    DriveKeeps(Apply(w, Start(0, call)), 0, env, n);
  }
}
