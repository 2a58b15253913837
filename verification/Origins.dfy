/** Where rows come from: every request and every link that a run leaves in the tables is, field
    by field, what one call of that run asked for. */
module Origins {
  import opened Domain
  import opened Store
  import opened Protocol
  import opened Invariants
  import opened Steps
  import opened Theorems
  import opened Continuations
  import opened Replies
  import Requests
  import Promises

  // -------------------------------------------------------------------- requests

  /** Call `i` of the run is the create_request of this row: its caller owns it, the caller's
      whole key is pinned, and the deadline is the nearest allowed to what was asked. */
  ghost predicate AskedAt(acts: seq<Action>, i: nat, req: Request) {
    && i < |acts| && acts[i].Start? && acts[i].call.CallAsk?
    && var call := acts[i].call;
    && req.owner == call.user && req.pubkey == call.pubkey != []
    && Promises.Nearest(req.expires - After(acts[..i]).redis.now,
                        if call.expiresIn.Some? && call.expiresIn.value != 0 then call.expiresIn.value else 604_800,
                        3600, 2_592_000)
  }

  ghost predicate Asked(acts: seq<Action>, req: Request) {
    exists i: nat :: AskedAt(acts, i, req)
  }

  ghost predicate AllAsked(acts: seq<Action>) {
    && (forall p :: p in At(acts).threads && At(acts).threads[p].AskInsert? ==> Asked(acts, At(acts).threads[p].req))
    && (forall rid :: rid in After(acts).reqs ==> Asked(acts, After(acts).reqs[rid]))
  }

  lemma AskedStill(acts: seq<Action>, a: Action, req: Request, req': Request)
    requires Asked(acts, req) && SameRequest(req, req')
    ensures Asked(acts + [a], req')
  {
    var i: nat :| AskedAt(acts, i, req);
    assert (acts + [a])[..i] == acts[..i];
    assert AskedAt(acts + [a], i, req');
  }

  lemma FirstAsks(acts: seq<Action>, p: nat, call: Call)
    requires var m := First(After(acts), call); m.Go? && m.th.AskInsert?
    ensures Asked(acts + [Start(p, call)], First(After(acts), call).th.req)
  {
    assert (acts + [Start(p, call)])[..|acts|] == acts;
    assert AskedAt(acts + [Start(p, call)], |acts|, First(After(acts), call).th.req);
  }

  lemma NeverAsksAgain(s: State, th: Thread, env: Env)
    requires Next(s, th, env).Go?
    ensures !Next(s, th, env).th.AskInsert?
  {
  }

  lemma SqlRequests(s: State, th: Thread, env: Env, rid: Tid)
    requires OnPostgres(th) && rid in SqlCommand(s, th, env).reqs
    ensures var s' := SqlCommand(s, th, env);
            || (rid in s.reqs && SameRequest(s.reqs[rid], s'.reqs[rid]))
            || (th.AskInsert? && s'.reqs[rid] == th.req)
  {
  }

  lemma NewRequests(w: World, a: Action, rid: Tid)
    requires rid in Apply(w, a).state.reqs
    ensures var s' := Apply(w, a).state;
            || (rid in w.state.reqs && SameRequest(w.state.reqs[rid], s'.reqs[rid]))
            || (a.Do? && a.pid in w.threads && w.threads[a.pid].AskInsert? && s'.reqs[rid] == w.threads[a.pid].req)
  {
    if a.Do? && a.pid in w.threads {
      var th := w.threads[a.pid];
      if OnRedis(th) { Requests.RedisLeavesRequests(w.state, th, a.env); }
      else if OnPostgres(th) { SqlRequests(w.state, th, a.env, rid); }
    }
  }

  lemma AskersStay(acts: seq<Action>, a: Action, p: nat)
    requires AllAsked(acts) && p in Apply(At(acts), a).threads && Apply(At(acts), a).threads[p].AskInsert?
    ensures Asked(acts + [a], Apply(At(acts), a).threads[p].req)
  {
    var w := At(acts);
    if a.Start? && a.pid == p && p !in w.threads {
      FirstAsks(acts, p, a.call);
    } else {
      if a.Do? && a.pid == p && Next(w.state, w.threads[p], a.env).Go? { NeverAsksAgain(w.state, w.threads[p], a.env); }
      AskedStill(acts, a, w.threads[p].req, w.threads[p].req);
    }
  }

  lemma AllAskedOn(acts: seq<Action>, a: Action)
    requires AllAsked(acts)
    ensures AllAsked(acts + [a])
  {
    var w' := At(acts + [a]);
    OneMore(acts, a);
    forall p | p in w'.threads && w'.threads[p].AskInsert? ensures Asked(acts + [a], w'.threads[p].req) {
      AskersStay(acts, a, p);
    }
    forall rid | rid in w'.state.reqs ensures Asked(acts + [a], w'.state.reqs[rid]) {
      NewRequests(At(acts), a, rid);
      AskedStill(acts, a, if rid in After(acts).reqs && SameRequest(After(acts).reqs[rid], w'.state.reqs[rid])
                          then After(acts).reqs[rid] else At(acts).threads[a.pid].req, w'.state.reqs[rid]);
    }
  }

  lemma AskedLater(acts: seq<Action>, j: nat, req: Request)
    requires j <= |acts| && Asked(acts[..j], req)
    ensures Asked(acts, req)
  {
    var i: nat :| AskedAt(acts[..j], i, req);
    assert acts[..j][..i] == acts[..i];
    assert AskedAt(acts, i, req);
  }

  lemma {:induction false} RunAsks(acts: seq<Action>)
    ensures AllAsked(acts)
  {
    if acts != [] {
      RunAsks(acts[..|acts| - 1]);
      AllAskedOn(acts[..|acts| - 1], acts[|acts| - 1]);
      assert acts[..|acts| - 1] + [acts[|acts| - 1]] == acts;
    }
  }

  /** On every run, every request is one that some employee's call asked for, with that
      employee's own key. */
  lemma RequestsAreAsked(acts: seq<Action>, rid: Tid)
    requires rid in After(acts).reqs
    ensures Asked(acts, After(acts).reqs[rid])
  {
    RunAsks(acts);
  }

  // ----------------------------------------------------------------------- links

  /** Call `i` of the run is the create_secret of this row and of these bytes. */
  ghost predicate CreatedAt(acts: seq<Action>, i: nat, row: Row, data: Bytes) {
    && i < |acts| && acts[i].Start? && acts[i].call.CallCreate?
    && var call := acts[i].call;
    && data == call.data && row.owner == call.user && row.maxAttempts == call.maxAttempts
    && row.stored == (match call.verifier case None => None case Some(v) => Some(Sha256(v)))
    && 0 < |data| <= 5_242_880 && 1 <= row.maxAttempts <= 20
    && Promises.Nearest(row.expires - After(acts[..i]).redis.now, call.want, 60, 2_592_000)
  }

  ghost predicate Created(acts: seq<Action>, row: Row, data: Bytes) {
    exists i: nat :: CreatedAt(acts, i, row, data)
  }

  /** Its row and its bytes are those of one call. */
  ghost predicate CreatedAs(acts: seq<Action>, tid: Tid, row: Row) {
    exists data :: (tid, data) in After(acts).offered && Created(acts, row, data)
  }

  ghost predicate ThreadCreates(acts: seq<Action>, th: Thread) {
    && (th.CreatePut? ==> Created(acts, th.row, th.data))
    && (th.CreateInsert? ==> CreatedAs(acts, th.tid, th.row))
  }

  ghost predicate AllCreated(acts: seq<Action>) {
    && (forall p :: p in At(acts).threads ==> ThreadCreates(acts, At(acts).threads[p]))
    && (forall tid :: tid in After(acts).rows && tid.OfToken? ==> CreatedAs(acts, tid, After(acts).rows[tid]))
  }

  lemma CreatedStill(acts: seq<Action>, a: Action, row: Row, row': Row, data: Bytes)
    requires Created(acts, row, data) && SameRow(row, row')
    ensures Created(acts + [a], row', data)
  {
    var i: nat :| CreatedAt(acts, i, row, data);
    assert (acts + [a])[..i] == acts[..i];
    assert CreatedAt(acts + [a], i, row', data);
  }

  lemma CreatedAsStill(acts: seq<Action>, a: Action, tid: Tid, row: Row, row': Row)
    requires CreatedAs(acts, tid, row) && SameRow(row, row') && After(acts).offered <= After(acts + [a]).offered
    ensures CreatedAs(acts + [a], tid, row')
  {
    var data :| (tid, data) in After(acts).offered && Created(acts, row, data);
    CreatedStill(acts, a, row, row', data);
  }

  lemma FirstCreates(acts: seq<Action>, p: nat, call: Call)
    requires First(After(acts), call).Go?
    ensures ThreadCreates(acts + [Start(p, call)], First(After(acts), call).th)
  {
    var th := First(After(acts), call).th;
    assert (acts + [Start(p, call)])[..|acts|] == acts;
    if th.CreatePut? { assert CreatedAt(acts + [Start(p, call)], |acts|, th.row, th.data); }
  }

  lemma OthersNeverCreate(s: State, th: Thread, env: Env)
    requires !th.CreatePut? && Next(s, th, env).Go?
    ensures !Next(s, th, env).th.CreatePut? && !Next(s, th, env).th.CreateInsert?
  {
  }

  lemma NextInserts(s: State, th: Thread, env: Env)
    requires Next(s, th, env).Go?
    ensures var t := Next(s, th, env).th;
            && !t.CreatePut?
            && (t.CreateInsert? ==> th.CreatePut? && t.row == th.row && (t.tid, th.data) in Effect(s, th, env).offered)
  {
    if !th.CreatePut? { OthersNeverCreate(s, th, env); }
  }

  lemma NextCreates(acts: seq<Action>, p: nat, env: Env)
    requires p in At(acts).threads && ThreadCreates(acts, At(acts).threads[p])
    requires Next(After(acts), At(acts).threads[p], env).Go?
    ensures ThreadCreates(acts + [Do(p, env)], Next(After(acts), At(acts).threads[p], env).th)
  {
    var s, th := After(acts), At(acts).threads[p];
    NextInserts(s, th, env);
    OneMore(acts, Do(p, env));
    if Next(s, th, env).th.CreateInsert? { CreatedStill(acts, Do(p, env), th.row, th.row, th.data); }
  }

  lemma OthersCreate(acts: seq<Action>, a: Action, th: Thread)
    requires ThreadCreates(acts, th) && After(acts).offered <= After(acts + [a]).offered
    ensures ThreadCreates(acts + [a], th)
  {
    if th.CreatePut? { CreatedStill(acts, a, th.row, th.row, th.data); }
    if th.CreateInsert? { CreatedAsStill(acts, a, th.tid, th.row, th.row); }
  }

  lemma CreatorsStay(acts: seq<Action>, a: Action, p: nat)
    requires AllCreated(acts) && After(acts).offered <= After(acts + [a]).offered && p in Apply(At(acts), a).threads
    ensures ThreadCreates(acts + [a], Apply(At(acts), a).threads[p])
  {
    var w := At(acts);
    if a.Start? && a.pid == p && p !in w.threads {
      FirstCreates(acts, p, a.call);
    } else if a.Do? && a.pid == p && Next(w.state, w.threads[p], a.env).Go? {
      NextCreates(acts, p, a.env);
    } else {
      OthersCreate(acts, a, w.threads[p]);
    }
  }

  lemma SqlRows(s: State, th: Thread, env: Env, tid: Tid)
    requires OnPostgres(th) && tid.OfToken? && tid in SqlCommand(s, th, env).rows
    ensures tid in s.rows || (th.CreateInsert? && th.tid == tid && SqlCommand(s, th, env).rows[tid] == th.row)
  {
  }

  lemma NewRows(w: World, a: Action, tid: Tid)
    requires tid.OfToken? && tid in Apply(w, a).state.rows
    ensures || tid in w.state.rows
            || (a.Do? && a.pid in w.threads && w.threads[a.pid].CreateInsert? && w.threads[a.pid].tid == tid
                && Apply(w, a).state.rows[tid] == w.threads[a.pid].row)
  {
    if a.Do? && a.pid in w.threads {
      var th := w.threads[a.pid];
      if OnRedis(th) { RedisLeavesRows(w.state, th, a.env); }
      else if OnPostgres(th) { SqlRows(w.state, th, a.env, tid); }
    }
  }

  lemma RowCreated(acts: seq<Action>, a: Action, tid: Tid)
    requires AllCreated(acts) && tid in After(acts + [a]).rows && tid.OfToken?
    requires Evolves(After(acts), After(acts + [a]))
    ensures CreatedAs(acts + [a], tid, After(acts + [a]).rows[tid])
  {
    var s, s' := After(acts), After(acts + [a]);
    OneMore(acts, a);
    NewRows(At(acts), a, tid);
    assert CellEvolves(s, s', tid);
    if tid in s.rows {
      CreatedAsStill(acts, a, tid, s.rows[tid], s'.rows[tid]);
    } else {
      var th := At(acts).threads[a.pid];
      assert ThreadCreates(acts, th);
      CreatedAsStill(acts, a, tid, th.row, th.row);
    }
  }

  lemma AllCreatedOn(acts: seq<Action>, a: Action)
    requires AllCreated(acts)
    ensures AllCreated(acts + [a])
  {
    OneMore(acts, a);
    RunKeeps(acts);
    ActionKeeps(At(acts), a);
    forall p | p in At(acts + [a]).threads ensures ThreadCreates(acts + [a], At(acts + [a]).threads[p]) {
      CreatorsStay(acts, a, p);
    }
    forall tid | tid in After(acts + [a]).rows && tid.OfToken? ensures CreatedAs(acts + [a], tid, After(acts + [a]).rows[tid]) {
      RowCreated(acts, a, tid);
    }
  }

  lemma {:induction false} RunCreates(acts: seq<Action>)
    ensures AllCreated(acts)
  {
    if acts != [] {
      RunCreates(acts[..|acts| - 1]);
      AllCreatedOn(acts[..|acts| - 1], acts[|acts| - 1]);
      assert acts[..|acts| - 1] + [acts[|acts| - 1]] == acts;
    }
  }

  /** On every run, a link's row and whatever is stored or served for it come from one and the
      same call: its caller owns it, its verifier is the preimage of the digest, its bytes are
      the bytes. */
  lemma LinksAreCreated(acts: seq<Action>, tid: Tid, data: Bytes)
    requires tid.OfToken? && tid in After(acts).rows && Seen(After(acts), tid, data)
    ensures Created(acts, After(acts).rows[tid], data)
  {
    RunKeeps(acts);
    RunCreates(acts);
    OfferedOnce(acts);
    var s := After(acts);
    assert CellOk(s, tid);
    if who :| Serving(tid, data, who) in s.served { assert ServingOk(s, Serving(tid, data, who)); }
    assert CreatedAs(acts, tid, s.rows[tid]);
    assert tid == OfToken(tid.token);
  }
}
