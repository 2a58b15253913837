/** What the protocol guarantees on every run, however the handlers interleave. */
module Theorems {
  import opened Domain
  import opened Store
  import opened Protocol
  import opened Invariants
  import opened Effects
  import opened Steps
  import opened Pending

  function At(acts: seq<Action>): World {
    Run(Init(), acts)
  }

  function After(acts: seq<Action>): State {
    At(acts).state
  }

  /** No handler is in flight. */
  ghost predicate Quiescent(acts: seq<Action>) {
    At(acts).threads == map[]
  }

  lemma {:induction false} RunsWell(acts: seq<Action>, tid: Tid, rid: Tid)
    ensures Inv(At(acts)) && ClosingOk(At(acts), tid) && BudgetOk(At(acts), tid) && AcceptanceOk(At(acts), rid)
  {
    RunKeeps(acts);
    if acts != [] {
      var before, a := acts[..|acts| - 1], acts[|acts| - 1];
      RunsWell(before, tid, rid);
      ClosingKeeps(At(before), a, tid);
      BudgetKeeps(At(before), a, tid);
      AcceptanceKeeps(At(before), a, rid);
    }
  }

  // ----------------------------------------------------------- one-time delivery

  /** Nothing is lost and nothing is made: what was put under a key was taken, dropped,
      overwritten or timed out, or is still there. */
  lemma BlobsConserved(acts: seq<Action>, tid: Tid)
    ensures var s, a := After(acts), Acc(After(acts), tid);
            a.puts == a.takes + a.drops + a.expiries + a.overwrites + if Stored(s, tid) then 1 else 0
  {
    RunKeeps(acts);
    assert CellOk(After(acts), tid);
  }

  /** However many reveals race, a link's bytes are stored at most once and leave the store at
      most once: either delivered or destroyed or timed out, never two of these. */
  lemma OutboundOnce(acts: seq<Action>, tid: Tid)
    requires tid.OfToken?
    ensures var a := Acc(After(acts), tid); a.takes + a.drops + a.expiries + a.overwrites <= a.puts <= 1
  {
    RunKeeps(acts);
    assert CellOk(After(acts), tid);
  }

  /** Only a GETDEL that finds bytes counts as a delivery. */
  lemma TakeNeedsBytes(w: World, a: Action, tid: Tid)
    requires ThreadsOk(w) && !Stored(w.state, tid)
    ensures Acc(Apply(w, a).state, tid).takes == Acc(w.state, tid).takes
  {
    if a.Do? && a.pid in w.threads { EffectTakesBytes(w.state, w.threads[a.pid], a.env, tid); }
  }

  lemma EffectTakesBytes(s: State, th: Thread, env: Env, tid: Tid)
    requires ThreadOk(s, th) && !Stored(s, tid)
    ensures Acc(Effect(s, th, env), tid).takes == Acc(s, tid).takes
  {
    if Quiet(th) { QuietEffect(s, th, env, tid); } else { TakeLoud(s, th, env, tid); }
  }

  lemma TakeLoud(s: State, th: Thread, env: Env, tid: Tid)
    requires !Quiet(th) && !Stored(s, tid)
    ensures Acc(Effect(s, th, env), tid).takes == Acc(s, tid).takes
  {
    if OnRedis(th) { TakeLoudRedis(s, th, env, tid); } else { TakeLoudSql(s, th, env, tid); }
  }

  lemma TakeLoudRedis(s: State, th: Thread, env: Env, tid: Tid)
    requires !Quiet(th) && OnRedis(th) && !Stored(s, tid)
    ensures Acc(RedisCommand(s, th, env), tid).takes == Acc(s, tid).takes
  {
  }

  lemma TakeLoudSql(s: State, th: Thread, env: Env, tid: Tid)
    requires !Quiet(th) && OnPostgres(th)
    ensures Acc(SqlCommand(s, th, env), tid).takes == Acc(s, tid).takes
  {
  }

  /** One more action at the end of a run. */
  lemma LastStep(acts: seq<Action>, more: seq<Action>, tid: Tid)
    requires more != []
    ensures var s, s' := After(acts + more[..|more| - 1]), After(acts + more);
            && CellEvolves(s, s', tid)
            && (!Stored(s, tid) ==> Acc(s', tid).takes == Acc(s, tid).takes)
  {
    var n := |more| - 1;
    var w := At(acts + more[..n]);
    assert (acts + more)[..|acts| + n] == acts + more[..n];
    assert At(acts + more) == Apply(w, more[n]);
    RunKeeps(acts + more[..n]);
    ActionKeeps(w, more[n]);
    if !Stored(w.state, tid) { TakeNeedsBytes(w, more[n], tid); }
  }

  lemma {:induction false} GoneStaysGone(acts: seq<Action>, more: seq<Action>, tid: Tid)
    requires tid.OfToken? && Acc(After(acts), tid).puts >= 1 && !Stored(After(acts), tid)
    ensures var s, s' := After(acts), After(acts + more);
            !Stored(s', tid) && Acc(s', tid).takes == Acc(s, tid).takes && Acc(s', tid).puts >= 1
  {
    if more == [] {
      assert acts + more == acts;
    } else {
      GoneStaysGone(acts, more[..|more| - 1], tid);
      LastStep(acts, more, tid);
    }
  }

  /** Once a link's bytes were dropped, by a revocation or by too many wrong passphrases,
      no later run delivers them. */
  lemma NoDeliveryAfterDrop(acts: seq<Action>, more: seq<Action>, tid: Tid)
    requires tid.OfToken? && Acc(After(acts), tid).drops >= 1
    ensures Acc(After(acts + more), tid).takes == 0
  {
    RunKeeps(acts);
    assert CellOk(After(acts), tid);
    GoneStaysGone(acts, more, tid);
  }

  // ------------------------------------------------------------- who was answered

  /** What a recipient has shown to be handed the bytes: where the row has a verifier, its
      preimage; as staff, being the row's owner or an administrator. A row without a verifier
      asks nothing of a holder, and no reply's row has one. */
  ghost predicate Showed(s: State, tid: Tid, who: Recipient)
    requires tid in s.rows
  {
    match who
    case Holder(sent) => s.rows[tid].stored.Some? ==> sent.Some? && s.rows[tid].stored == Some(Sha256(sent.value))
    case Staff(user, admin) => tid.OfReply? && (user == s.rows[tid].owner || admin)
  }

  /** Bytes go out only as bytes that were put under that key, to someone who showed what the
      row asks for. */
  lemma ServedToTheRight(acts: seq<Action>, v: Serving)
    requires v in After(acts).served
    ensures v.tid in After(acts).rows && (v.tid, v.data) in After(acts).offered && Showed(After(acts), v.tid, v.who)
    ensures v.tid.OfReply? ==> After(acts).rows[v.tid].stored == None
  {
    RunKeeps(acts);
    assert ServingOk(After(acts), v) && CellOk(After(acts), v.tid);
  }

  predicate Submits(a: Action, rid: Tid, data: Bytes) {
    a.Start? && a.call == CallSubmit(rid, data)
  }

  lemma EffectOffers(s: State, th: Thread, env: Env, rid: Tid, data: Bytes)
    requires (OfReply(rid), data) !in s.offered
    ensures (OfReply(rid), data) !in Effect(s, th, env).offered
  {
    if OnRedis(th) { RedisOffers(s, th, env, rid, data); }
  }

  lemma RedisOffers(s: State, th: Thread, env: Env, rid: Tid, data: Bytes)
    requires OnRedis(th) && (OfReply(rid), data) !in s.offered
    ensures (OfReply(rid), data) !in RedisCommand(s, th, env).offered
  {
  }

  lemma OfferedReplyStep(w: World, a: Action, rid: Tid, data: Bytes)
    requires (OfReply(rid), data) !in w.state.offered
    ensures (OfReply(rid), data) in Apply(w, a).state.offered ==> Submits(a, rid, data)
  {
    if a.Do? {
      if a.pid in w.threads { EffectOffers(w.state, w.threads[a.pid], a.env, rid, data); }
    }
  }

  lemma {:induction false} OfferedAreSubmissions(acts: seq<Action>, rid: Tid, data: Bytes)
    requires (OfReply(rid), data) in After(acts).offered
    ensures exists i :: 0 <= i < |acts| && Submits(acts[i], rid, data)
  {
    if acts != [] {
      var n := |acts| - 1;
      if (OfReply(rid), data) in After(acts[..n]).offered {
        OfferedAreSubmissions(acts[..n], rid, data);
        var i :| 0 <= i < n && Submits(acts[..n][i], rid, data);
        assert Submits(acts[i], rid, data);
      } else {
        OfferedReplyStep(At(acts[..n]), acts[n], rid, data);
        assert Submits(acts[n], rid, data);
      }
    }
  }

  /** These bytes are stored under the key, or have been handed out for it. */
  ghost predicate Seen(s: State, tid: Tid, data: Bytes) {
    || (Stored(s, tid) && s.redis.blobs[tid].data == data)
    || (exists who :: Serving(tid, data, who) in s.served)
  }

  /** Whatever is ever stored or served as the reply to `rid` is some client's submission to it. */
  lemma RepliesAreSubmissions(acts: seq<Action>, rid: Tid, data: Bytes)
    requires Seen(After(acts), OfReply(rid), data)
    ensures exists i :: 0 <= i < |acts| && Submits(acts[i], rid, data)
  {
    var s := After(acts);
    RunKeeps(acts);
    assert CellOk(s, OfReply(rid));
    if who :| Serving(OfReply(rid), data, who) in s.served { assert ServingOk(s, Serving(OfReply(rid), data, who)); }
    OfferedAreSubmissions(acts, rid, data);
  }

  // ------------------------------------------------------ the stores and the rows

  /** At rest, a live row has its bytes. In every state, a closed link has none, and a link
      marked expired keeps bytes only past its deadline. */
  lemma StoreAndRowAgree(acts: seq<Action>, tid: Tid)
    ensures var s := After(acts);
            tid in s.rows ==>
              && (Quiescent(acts) && s.rows[tid].status == Active && s.redis.now < s.rows[tid].expires ==> Stored(s, tid))
              && (tid.OfToken? && s.rows[tid].status in {Viewed, Revoked, Destroyed} ==> !Stored(s, tid))
              && (tid.OfToken? && s.rows[tid].status == Expired && Stored(s, tid) ==> s.rows[tid].expires <= s.redis.now)
  {
    RunsWell(acts, tid, tid);
    assert CellOk(After(acts), tid);
  }

  /** A secret that was handed out is not still shown as active once handlers are done. */
  lemma DeliveredIsClosed(acts: seq<Action>, tid: Tid)
    requires Quiescent(acts) && Acc(After(acts), tid).takes >= 1
    ensures tid in After(acts).rows && After(acts).rows[tid].status != Active
  {
    RunsWell(acts, tid, tid);
    assert CellOk(After(acts), tid);
  }

  lemma ViewedWasDelivered(acts: seq<Action>, tid: Tid)
    requires tid in After(acts).rows && After(acts).rows[tid].status == Viewed
    ensures Acc(After(acts), tid).takes >= 1
  {
    RunKeeps(acts);
    assert CellOk(After(acts), tid);
  }

  // ----------------------------------------------------------------- status history

  /** Rows stay, with their owner, deadline and verifier, and none becomes active again. */
  lemma {:induction false} NeverReopened(acts: seq<Action>, more: seq<Action>, tid: Tid)
    requires tid in After(acts).rows
    ensures tid in After(acts + more).rows && SameRow(After(acts).rows[tid], After(acts + more).rows[tid])
  {
    if more == [] {
      assert acts + more == acts;
    } else {
      NeverReopened(acts, more[..|more| - 1], tid);
      LastStep(acts, more, tid);
    }
  }

  lemma SqlRewrites(s: State, th: Thread, env: Env, tid: Tid)
    requires OnPostgres(th) && tid in s.rows && s.rows[tid].status != Active
    ensures var s' := SqlCommand(s, th, env);
            tid in s'.rows && (s'.rows[tid].status == s.rows[tid].status
                               || (th.RevokeWrite? && th.tid == tid && s'.rows[tid].status == Revoked))
  {
  }

  lemma RedisLeavesRows(s: State, th: Thread, env: Env)
    requires OnRedis(th)
    ensures RedisCommand(s, th, env).rows == s.rows
  {
  }

  lemma OnlyRevokeRewrites(s: State, th: Thread, env: Env, tid: Tid)
    requires tid in s.rows && s.rows[tid].status != Active
    ensures var s' := Effect(s, th, env);
            tid in s'.rows && (s'.rows[tid].status == s.rows[tid].status
                               || (th.RevokeWrite? && th.tid == tid && s'.rows[tid].status == Revoked))
  {
    if OnRedis(th) { RedisLeavesRows(s, th, env); } else if OnPostgres(th) { SqlRewrites(s, th, env, tid); }
  }

  /** The last statement of a revocation by someone who may. */
  ghost predicate Revoking(w: World, a: Action, tid: Tid) {
    && a.Do? && a.pid in w.threads && w.threads[a.pid].RevokeWrite? && w.threads[a.pid].tid == tid
    && tid in w.state.rows && MayTouch(w.threads[a.pid].user, w.threads[a.pid].admin, w.state.rows[tid].owner)
  }

  /** A closed row changes its status only to 'revoked', and only by the last statement of a
      revocation by its owner or an administrator. */
  lemma ClosedOnlyRevoked(acts: seq<Action>, a: Action, tid: Tid)
    requires tid in After(acts).rows && After(acts).rows[tid].status != Active
    ensures var s' := Apply(At(acts), a).state;
            tid in s'.rows && (s'.rows[tid].status != After(acts).rows[tid].status ==>
                                 s'.rows[tid].status == Revoked && Revoking(At(acts), a, tid))
  {
    RunKeeps(acts);
    ClosedStep(At(acts), a, tid);
  }

  lemma ClosedStep(w: World, a: Action, tid: Tid)
    requires Inv(w) && tid in w.state.rows && w.state.rows[tid].status != Active
    ensures var s' := Apply(w, a).state;
            tid in s'.rows && (s'.rows[tid].status != w.state.rows[tid].status ==> s'.rows[tid].status == Revoked && Revoking(w, a, tid))
  {
    if a.Do? && a.pid in w.threads {
      OnlyRevokeRewrites(w.state, w.threads[a.pid], a.env, tid);
      assert ThreadOk(w.state, w.threads[a.pid]);
    }
  }

  /** Each change of a row's status, and what makes it. */
  ghost predicate RowChanged(w: World, a: Action, tid: Tid, was: Status, is_: Status) {
    || was == is_
    || (is_ == Revoked && a.Do? && a.pid in w.threads && w.threads[a.pid].RevokeWrite? && w.threads[a.pid].tid == tid
        && tid in w.state.rows && (w.threads[a.pid].user == w.state.rows[tid].owner || w.threads[a.pid].admin))
    || (was == Active && a.Do? && a.pid in w.threads
        && ((is_ == Viewed && w.threads[a.pid].Deliver? && w.threads[a.pid].tid == tid)
            || (is_ in {Expired, Destroyed} && w.threads[a.pid] == Close(tid, is_))))
    || (was == Active && is_ == Expired && a.Sweep? && tid in w.state.rows && w.state.rows[tid].expires <= w.state.redis.now)
  }

  lemma SqlChanges(s: State, th: Thread, env: Env, tid: Tid)
    requires OnPostgres(th) && ThreadOk(s, th) && tid in s.rows
    ensures var s' := SqlCommand(s, th, env);
            && tid in s'.rows
            && var was, is_ := s.rows[tid].status, s'.rows[tid].status;
            || was == is_ || (is_ == Revoked && th.RevokeWrite? && th.tid == tid)
            || (was == Active && ((is_ == Viewed && th.Deliver? && th.tid == tid) || (is_ in {Expired, Destroyed} && th == Close(tid, is_))))
  {
  }

  lemma EffectChanges(s: State, th: Thread, env: Env, tid: Tid)
    requires ThreadOk(s, th) && tid in s.rows
    ensures var s' := Effect(s, th, env);
            && tid in s'.rows
            && var was, is_ := s.rows[tid].status, s'.rows[tid].status;
            || was == is_ || (is_ == Revoked && th.RevokeWrite? && th.tid == tid)
            || (was == Active && ((is_ == Viewed && th.Deliver? && th.tid == tid) || (is_ in {Expired, Destroyed} && th == Close(tid, is_))))
  {
    if OnRedis(th) { RedisLeavesRows(s, th, env); } else if OnPostgres(th) { SqlChanges(s, th, env, tid); }
  }

  lemma ChangeAction(w: World, a: Action, tid: Tid)
    requires Inv(w) && tid in w.state.rows
    ensures var s' := Apply(w, a).state;
            tid in s'.rows && RowChanged(w, a, tid, w.state.rows[tid].status, s'.rows[tid].status)
  {
    if a.Do? && a.pid in w.threads {
      assert ThreadOk(w.state, w.threads[a.pid]);
      EffectChanges(w.state, w.threads[a.pid], a.env, tid);
    }
  }

  /** A row leaves a status only in these ways: it is revoked only by the last statement of a
      revocation by its owner or an administrator; while active it is viewed by the handler that
      has the bytes in hand, closed by a handler that found it expired or counted the last
      failure, or swept after its deadline. */
  lemma RowChanges(acts: seq<Action>, a: Action, tid: Tid)
    requires tid in After(acts).rows
    ensures var s' := Apply(At(acts), a).state;
            tid in s'.rows && RowChanged(At(acts), a, tid, After(acts).rows[tid].status, s'.rows[tid].status)
  {
    RunKeeps(acts);
    ChangeAction(At(acts), a, tid);
  }

  /** The sweeper does its work: right after a pass every active row whose deadline has passed
      is expired and every other row is as it was, and what it closed is never active again. */
  lemma SweptClean(acts: seq<Action>, more: seq<Action>, tid: Tid)
    requires tid in After(acts).rows
    ensures var s, s' := After(acts), After(acts + [Sweep]);
            && s'.rows.Keys == s.rows.Keys
            && s'.rows[tid] == (if s.rows[tid].status == Active && s.rows[tid].expires <= s.redis.now
                                then s.rows[tid].(status := Expired) else s.rows[tid])
            && !(s'.rows[tid].status == Active && s'.rows[tid].expires <= s'.redis.now)
    ensures After(acts).rows[tid].expires <= After(acts).redis.now ==>
              tid in After(acts + [Sweep] + more).rows && After(acts + [Sweep] + more).rows[tid].status != Active
  {
    assert (acts + [Sweep])[..|acts|] == acts;
    NeverReopened(acts + [Sweep], more, tid);
  }

  // ------------------------------------------------------------- passphrase budget

  /** While a secret can still be revealed, its counter holds every wrong verifier ever
      counted, so the counter key has not died first. */
  lemma CounterCountsAll(acts: seq<Action>, tid: Tid)
    requires var s := After(acts); tid in s.rows && Stored(s, tid) && s.redis.now < s.rows[tid].expires
    ensures FailsOf(After(acts).redis, tid) == Acc(After(acts), tid).wrong
  {
    RunKeeps(acts);
    assert CellOk(After(acts), tid);
  }

  /** However many reveals race past the check, while a link's bytes can still be taken its
      wrong verifiers number fewer than max_attempts, or else exactly max_attempts - 1 and one
      for each handler that has counted a last failure and is about to drop the key: more than
      max_attempts have been checked if and only if two such handlers are in flight at once. */
  lemma GuessesExactly(acts: seq<Action>, tid: Tid)
    requires tid.OfToken? && Takeable(After(acts), tid)
    ensures var wrong, most, n := Acc(After(acts), tid).wrong, After(acts).rows[tid].maxAttempts, |Destroyers(At(acts), tid)|;
            && (n == 0 <==> wrong < most)
            && (n > 0 ==> wrong == most - 1 + n)
            && (n >= 2 <==> wrong > most)
  {
    RunsWell(acts, tid, tid);
    assert CellOk(After(acts), tid);
  }

  /** At rest, a secret that can still be revealed has been tried wrongly fewer than
      max_attempts times, over all handlers and all interleavings; a reply is never tried. */
  lemma BudgetHolds(acts: seq<Action>, tid: Tid)
    requires Quiescent(acts) && Takeable(After(acts), tid)
    ensures Acc(After(acts), tid).wrong < After(acts).rows[tid].maxAttempts
  {
    RunKeeps(acts);
    assert CellOk(After(acts), tid);
    if tid.OfToken? {
      GuessesExactly(acts, tid);
      assert Destroyers(At(acts), tid) == {};
    }
  }

  // ------------------------------------------------------------------------ tickets

  ghost function IssuedFor(s: State, tid: Tid): set<Ticket> {
    set t | t in s.issued && s.issued[t] == tid
  }

  lemma SubsetSize(a: set<Ticket>, b: set<Ticket>)
    requires a <= b
    ensures |a| <= |b|
  {
    if a != {} {
      var x :| x in a;
      SubsetSize(a - {x}, b - {x});
    }
  }

  /** Reveals of a secret that get as far as the verifier check never outnumber the tickets
      issued for it, and each of them spent a ticket of its own that is gone for good. */
  lemma TicketsBoundChecks(acts: seq<Action>, tid: Tid)
    ensures var s := After(acts);
            && Acc(s, tid).checks == |SpentOn(s, tid)| <= |IssuedFor(s, tid)|
            && (forall t :: t in SpentOn(s, tid) ==> t !in s.redis.tickets)
  {
    RunKeeps(acts);
    var s := After(acts);
    forall t | t in SpentOn(s, tid) ensures t in IssuedFor(s, tid) && t !in s.redis.tickets {
      assert TicketOk(s, t);
    }
    SubsetSize(SpentOn(s, tid), IssuedFor(s, tid));
  }

  // ----------------------------------------------------------------------- requests

  /** A fulfilled request names its own reply, whose row has the request's owner and deadline. */
  lemma FulfilledHasReply(acts: seq<Action>, rid: Tid)
    requires var s := After(acts); rid in s.reqs && s.reqs[rid].status == Fulfilled
    ensures var s, tid := After(acts), OfReply(rid);
            && s.reqs[rid].reply == Some(tid) && tid in s.rows
            && s.rows[tid].owner == s.reqs[rid].owner && s.rows[tid].expires == s.reqs[rid].expires
            && s.rows[tid].stored == None
  {
    RunKeeps(acts);
    assert RequestOk(After(acts), rid) && CellOk(After(acts), OfReply(rid));
  }

  /** However many clients submit at once, at most one of them is told that it was accepted. */
  lemma AcceptedAtMostOnce(acts: seq<Action>, rid: Tid)
    ensures Acc(After(acts), OfReply(rid)).accepted <= 1
  {
    RunsWell(acts, rid, rid);
  }

  /** A request keeps its owner, its deadline and its pinned key. */
  lemma {:induction false} RequestPinned(acts: seq<Action>, more: seq<Action>, rid: Tid)
    requires rid in After(acts).reqs
    ensures rid in After(acts + more).reqs && SameRequest(After(acts).reqs[rid], After(acts + more).reqs[rid])
  {
    if more == [] {
      assert acts + more == acts;
    } else {
      RequestPinned(acts, more[..|more| - 1], rid);
      LastStep(acts, more, rid);
    }
  }
}
