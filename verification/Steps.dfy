/** Every step of every handler keeps the guarantee and leaves its own thread in order,
    so every run keeps the invariant. */
module Steps {
  import opened Domain
  import opened Store
  import opened Protocol
  import opened Invariants
  import opened Effects

  ghost predicate ThreadsOk(w: World) {
    forall p :: p in w.threads ==> ThreadOk(w.state, w.threads[p])
  }

  ghost predicate Inv(w: World) {
    Shared(w.state) && ThreadsOk(w)
  }

  lemma Still(s: State)
    ensures Evolves(s, s)
  {
  }

  // ------------------------------------------------ what each command keeps

  lemma KeyEffects(s: State, th: Thread, env: Env)
    requires Shared(s) && ThreadOk(s, th)
    requires th.CreatePut? || th.SubmitPut? || th.RevealDrop? || th.RevokeDrop? || th.RevealTake? || th.ReplyTake?
    ensures Shared(RedisCommand(s, th, env)) && Evolves(s, RedisCommand(s, th, env))
  {
    Still(s);
    match th
    case CreatePut(data, ttl, row) => if env.token !in s.minted { PutNew(s, env.token, data, ttl); }
    case SubmitPut(rid, req, data, ttl) => PutReply(s, rid, data, ttl);
    case RevealDrop(tid) => DropKeeps(s, tid);
    case RevokeDrop(tid, _, _) => DropKeeps(s, tid);
    case RevealTake(tid, _) => TakeKeeps(s, tid);
    case ReplyTake(tid, _, _) => TakeKeeps(s, tid);
  }

  lemma CounterEffects(s: State, th: Thread, env: Env)
    requires Shared(s) && ThreadOk(s, th)
    requires th.MetaIssue? || th.RevealTicket? || th.RevealIncr? || th.RevealExpire?
    ensures Shared(RedisCommand(s, th, env)) && Evolves(s, RedisCommand(s, th, env))
  {
    Still(s);
    match th
    case MetaIssue(tid) => if env.ticket !in s.issued { IssueKeeps(s, env.ticket, tid); }
    case RevealTicket(tid, ticket, _, _) => ConsumeKeeps(s, ticket, tid);
    case RevealIncr(tid, _, _) => WrongKeeps(s, tid);
    case RevealExpire(tid, _, ttl, _) => ExpireKeeps(s, tid, ttl);
  }

  lemma RowEffects(s: State, th: Thread, env: Env)
    requires Shared(s) && ThreadOk(s, th)
    requires th.CreateInsert? || th.SubmitInsert? || th.Close? || th.RevokeWrite? || th.RevealStore?
    ensures Shared(SqlCommand(s, th, env)) && Evolves(s, SqlCommand(s, th, env))
  {
    Still(s);
    match th
    case CreateInsert(tid, row) => if tid !in s.rows { InsertKeeps(s, tid, row); }
    case SubmitInsert(rid, req) =>
      assert CellOk(s, OfReply(rid));
      if OfReply(rid) !in s.rows { InsertKeeps(s, OfReply(rid), Row(req.owner, req.expires, Active, None, 5, 0)); }
    case Close(tid, to) => MarkKeeps(s, tid, to);
    case RevokeWrite(tid, _, _) => RevokeKeeps(s, tid);
    case RevealStore(tid, _, n) => StoreFailsKeeps(s, tid, n);
  }

  lemma DeliverEffect(s: State, th: Thread, env: Env)
    requires Shared(s) && ThreadOk(s, th) && th.Deliver?
    ensures Shared(Effect(s, th, env)) && Evolves(s, Effect(s, th, env))
  {
    var Deliver(tid, data, who) := th;
    MarkKeeps(s, tid, Viewed);
    var s1 := Mark(s, tid, Viewed);
    var s2 := Effect(s, th, env);
    assert CellEvolves(s, s1, tid);
    forall t ensures CellOk(s2, t) && CellEvolves(s, s2, t) {
      assert CellOk(s1, t) && CellEvolves(s, s1, t);
    }
    forall r ensures RequestOk(s2, r) {
      assert RequestOk(s1, r);
    }
    TicketsKeep(s1, s2);
    SpentKeep(s1, s2);
    forall v | v in s2.served ensures ServingOk(s2, v) {
      if v in s.served { assert ServingOk(s1, v); }
    }
  }

  lemma AskEffects(s: State, th: Thread, env: Env)
    requires Shared(s) && ThreadOk(s, th) && (th.AskInsert? || th.LoadExpire? || th.WithdrawWrite?)
    ensures Shared(Effect(s, th, env)) && Evolves(s, Effect(s, th, env))
  {
    Still(s);
    var s1 := Effect(s, th, env);
    if s1 != s {
      var rid := if th.AskInsert? then OfToken(env.token) else th.rid;
      assert RequestOk(s, rid);
      RequestKeeps(s, s1, rid, s1.reqs[rid]);
    }
  }

  lemma AcceptEffect(s: State, th: Thread, env: Env)
    requires Shared(s) && ThreadOk(s, th) && th.SubmitFulfil?
    ensures Shared(Effect(s, th, env)) && Evolves(s, Effect(s, th, env))
  {
    Still(s);
    var rid, tid := th.rid, OfReply(th.rid);
    var s1 := FulfilRequest(s, rid);
    if s.reqs[rid].status == Open {
      assert RequestOk(s, rid);
      RequestKeeps(s, s1, rid, s1.reqs[rid]);
    }
    AcceptKeeps(s1, tid);
    Chain(s, s1, Accept(s1, tid));
  }

  lemma EffectKeeps(s: State, th: Thread, env: Env)
    requires Shared(s) && ThreadOk(s, th)
    ensures Shared(Effect(s, th, env)) && Evolves(s, Effect(s, th, env))
  {
    Still(s);
    if th.CreatePut? || th.SubmitPut? || th.RevealDrop? || th.RevokeDrop? || th.RevealTake? || th.ReplyTake? { KeyEffects(s, th, env); }
    else if OnRedis(th) { CounterEffects(s, th, env); }
    else if th.CreateInsert? || th.SubmitInsert? || th.Close? || th.RevokeWrite? || th.RevealStore? { RowEffects(s, th, env); }
    else if th.Deliver? { DeliverEffect(s, th, env); }
    else if th.AskInsert? || th.LoadExpire? || th.WithdrawWrite? { AskEffects(s, th, env); }
    else if th.SubmitFulfil? { AcceptEffect(s, th, env); }
  }

  // ------------------------------------------------ what each move brings along

  ghost predicate MoveOk(s: State, th: Thread, env: Env) {
    Next(s, th, env).Go? ==> ThreadOk(Effect(s, th, env), Next(s, th, env).th)
  }

  lemma CreateMoves(s: State, th: Thread, env: Env)
    requires Shared(s) && ThreadOk(s, th) && InCreate(th)
    ensures MoveOk(s, th, env)
  {
    if th.CreatePut? && env.token !in s.minted {
      PutNew(s, env.token, th.data, th.ttl);
    }
  }

  lemma MetaMoves(s: State, th: Thread, env: Env)
    requires ThreadOk(s, th) && InMeta(th)
    ensures MoveOk(s, th, env)
  {
  }

  lemma RevealMoves(s: State, th: Thread, env: Env)
    requires ThreadOk(s, th) && InReveal(th)
    ensures MoveOk(s, th, env)
  {
  }

  lemma FailMoves(s: State, th: Thread, env: Env)
    requires Shared(s) && ThreadOk(s, th) && InFail(th)
    ensures MoveOk(s, th, env)
  {
    match th
    case RevealIncr(tid, row, ttl) =>
    case RevealExpire(tid, row, _, n) =>
    case RevealStore(tid, row, n) =>
    case RevealDrop(tid) => DropKeeps(s, tid);
  }

  lemma TakeMoves(s: State, th: Thread, env: Env)
    requires Shared(s) && ThreadOk(s, th) && InTake(th)
    ensures MoveOk(s, th, env)
  {
    match th
    case RevealTake(tid, sent) => assert CellOk(s, tid);
    case ReplyTake(tid, user, admin) => assert CellOk(s, tid);
    case Close(_, _) =>
    case Deliver(_, _, _) =>
  }

  lemma RevokeMoves(s: State, th: Thread, env: Env)
    requires ThreadOk(s, th) && InRevoke(th)
    ensures MoveOk(s, th, env)
  {
  }

  lemma LoadMoves(s: State, th: Thread, env: Env)
    requires ThreadOk(s, th) && InLoad(th)
    ensures MoveOk(s, th, env)
  {
  }

  lemma SubmitMoves(s: State, th: Thread, env: Env)
    requires ThreadOk(s, th) && InSubmit(th)
    ensures MoveOk(s, th, env)
  {
    if th.SubmitPut? { PutMoves(s, th, env); } else if th.SubmitInsert? { AddMoves(s, th, env); }
  }

  lemma PutMoves(s: State, th: Thread, env: Env)
    requires ThreadOk(s, th) && th.SubmitPut?
    ensures MoveOk(s, th, env)
  {
  }

  lemma AddMoves(s: State, th: Thread, env: Env)
    requires ThreadOk(s, th) && th.SubmitInsert?
    ensures MoveOk(s, th, env)
  {
  }

  lemma StaffMoves(s: State, th: Thread, env: Env)
    requires Shared(s) && ThreadOk(s, th) && InStaff(th)
    ensures MoveOk(s, th, env)
  {
    match th
    case AskInsert(req) =>
    case ReplySelect(rid, user, admin) => assert RequestOk(s, rid) && CellOk(s, OfReply(rid));
    case WithdrawSelect(rid, user, admin) =>
    case WithdrawWrite(_, _, _) =>
  }

  lemma MoveKeeps(s: State, th: Thread, env: Env)
    requires Shared(s) && ThreadOk(s, th)
    ensures MoveOk(s, th, env)
  {
    if InCreate(th) { CreateMoves(s, th, env); }
    else if InMeta(th) { MetaMoves(s, th, env); }
    else if InReveal(th) { RevealMoves(s, th, env); }
    else if InFail(th) { FailMoves(s, th, env); }
    else if InTake(th) { TakeMoves(s, th, env); }
    else if InRevoke(th) { RevokeMoves(s, th, env); }
    else if InLoad(th) { LoadMoves(s, th, env); }
    else if InSubmit(th) { SubmitMoves(s, th, env); }
    else { StaffMoves(s, th, env); }
  }

  // ------------------------------------------------ rely and guarantee together

  /** The others rely on the guarantee; the thread that moved is in order by itself. */
  lemma Others(w: World, s': State, p: nat, m: Move)
    requires Inv(w) && Shared(s') && Evolves(w.state, s')
    requires m.Go? ==> ThreadOk(s', m.th)
    ensures Inv(Place(World(s', w.threads), p, m))
    ensures Inv(World(s', w.threads))
  {
    forall q | q in w.threads ensures ThreadOk(s', w.threads[q]) {
      assert ThreadOk(w.state, w.threads[q]);
      Stable(w.state, s', w.threads[q]);
    }
  }

  lemma StepKeeps(w: World, p: nat, env: Env)
    requires Inv(w) && p in w.threads
    ensures Inv(Step(w, p, w.threads[p], env)) && Evolves(w.state, Effect(w.state, w.threads[p], env))
  {
    var s, th := w.state, w.threads[p];
    assert ThreadOk(s, th);
    EffectKeeps(s, th, env);
    MoveKeeps(s, th, env);
    Others(w, Effect(s, th, env), p, Next(s, th, env));
  }

  lemma EnterKeeps(s: State, call: Call)
    requires Shared(s)
    ensures Shared(Enter(s, call)) && Evolves(s, Enter(s, call))
  {
    var s1 := Enter(s, call);
    forall t ensures CellOk(s1, t) && CellEvolves(s, s1, t) {
      assert CellOk(s, t);
    }
    RequestsKeep(s, s1);
    TicketsKeep(s, s1);
    SpentKeep(s, s1);
    ServingsKeep(s, s1);
  }

  lemma FirstOk(s: State, call: Call)
    ensures First(s, call).Go? ==> ThreadOk(Enter(s, call), First(s, call).th)
  {
  }

  lemma BeginKeeps(w: World, p: nat, call: Call)
    requires Inv(w)
    ensures Inv(Begin(w, p, call)) && Evolves(w.state, Enter(w.state, call))
  {
    EnterKeeps(w.state, call);
    FirstOk(w.state, call);
    Others(w, Enter(w.state, call), p, First(w.state, call));
  }

  /** Every action of every handler, the sweeper and the clock keeps the invariant. */
  lemma ActionKeeps(w: World, a: Action)
    requires Inv(w)
    ensures Inv(Apply(w, a)) && Evolves(w.state, Apply(w, a).state)
  {
    Still(w.state);
    match a
    case Start(p, call) => if p !in w.threads { BeginKeeps(w, p, call); }
    case Do(p, env) => if p in w.threads { StepKeeps(w, p, env); }
    case Sweep => SweepKeeps(w.state); Others(w, SweepRows(w.state), 0, Wait);
    case Tock => PassKeeps(w.state); Others(w, Pass(w.state), 0, Wait);
  }

  lemma InitOk()
    ensures Inv(Init())
  {
    var s := Init().state;
    forall t ensures CellOk(s, t) {}
    forall tid ensures Acc(s, tid).checks == |SpentOn(s, tid)| {
      assert SpentOn(s, tid) == {};
    }
  }

  lemma {:induction false} RunKeeps(acts: seq<Action>)
    ensures Inv(Run(Init(), acts))
  {
    InitOk();
    if acts != [] {
      RunKeeps(acts[..|acts| - 1]);
      ActionKeeps(Run(Init(), acts[..|acts| - 1]), acts[|acts| - 1]);
    }
  }
}
