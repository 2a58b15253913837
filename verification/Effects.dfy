/** Each command on the stores keeps `Shared` and the promise `Evolves`. */
module Effects {
  import opened Domain
  import opened Store
  import opened Protocol
  import opened Invariants

  /** Nothing that concerns `t` has changed, though time may not have stood still. */
  ghost predicate Untouched(s: State, s': State, t: Tid) {
    && (t in s.redis.blobs <==> t in s'.redis.blobs) && (t in s.redis.blobs ==> s.redis.blobs[t] == s'.redis.blobs[t])
    && (t in s.redis.fails <==> t in s'.redis.fails) && (t in s.redis.fails ==> s.redis.fails[t] == s'.redis.fails[t])
    && (t in s.rows <==> t in s'.rows) && (t in s.rows ==> s.rows[t] == s'.rows[t])
    && Acc(s, t) == Acc(s', t)
  }

  /** What a command on keys and rows leaves alone. */
  ghost predicate SameElsewhere(s: State, s': State) {
    && s.redis.now == s'.redis.now && s.redis.tickets == s'.redis.tickets && s.reqs == s'.reqs
    && s.issued == s'.issued && s.spent == s'.spent && s.served == s'.served
    && s.offered <= s'.offered && s.minted <= s'.minted
  }

  lemma UntouchedCell(s: State, s': State, t: Tid)
    requires CellOk(s, t) && Untouched(s, s', t) && SameElsewhere(s, s')
    ensures CellOk(s', t) && CellEvolves(s, s', t)
  {
  }

  /** A command that changes only the cell of `tid` keeps everything if it keeps that cell. */
  lemma OneCell(s: State, s': State, tid: Tid)
    requires Shared(s) && SameElsewhere(s, s')
    requires forall t :: t != tid ==> Untouched(s, s', t)
    requires CellOk(s', tid) && CellEvolves(s, s', tid)
    requires Acc(s, tid).checks == Acc(s', tid).checks
    ensures Shared(s') && Evolves(s, s')
  {
    forall t ensures CellOk(s', t) && CellEvolves(s, s', t) {
      assert CellOk(s, t);
      if t != tid {
        assert Untouched(s, s', t);
        UntouchedCell(s, s', t);
      }
    }
    RequestsKeep(s, s');
    TicketsKeep(s, s');
    forall t ensures Acc(s', t).checks == Acc(s, t).checks {
      if t != tid { assert Untouched(s, s', t); }
    }
    SpentKeep(s, s');
    ServingsKeep(s, s');
  }

  lemma RequestsKeep(s: State, s': State)
    requires forall rid :: RequestOk(s, rid)
    requires s.reqs == s'.reqs && s.minted <= s'.minted
    requires forall tid :: CellEvolves(s, s', tid)
    ensures forall rid :: RequestOk(s', rid)
  {
    forall rid ensures RequestOk(s', rid) {
      assert RequestOk(s, rid) && CellEvolves(s, s', OfReply(rid));
    }
  }

  lemma TicketsKeep(s: State, s': State)
    requires forall t :: TicketOk(s, t)
    requires s.redis.tickets == s'.redis.tickets && s.issued == s'.issued && s.spent == s'.spent
    ensures forall t :: TicketOk(s', t)
  {
    forall t ensures TicketOk(s', t) {
      assert TicketOk(s, t);
    }
  }

  lemma SpentKeep(s: State, s': State)
    requires forall t :: Acc(s, t).checks == |SpentOn(s, t)|
    requires s.spent == s'.spent && forall t :: Acc(s', t).checks == Acc(s, t).checks
    ensures forall t :: Acc(s', t).checks == |SpentOn(s', t)|
  {
    forall t ensures Acc(s', t).checks == |SpentOn(s', t)| {
      assert Acc(s, t).checks == |SpentOn(s, t)| && SpentOn(s, t) == SpentOn(s', t);
    }
  }

  lemma ServingsKeep(s: State, s': State)
    requires forall v :: v in s.served ==> ServingOk(s, v)
    requires s.offered <= s'.offered
    requires forall tid :: CellEvolves(s, s', tid)
    ensures forall v :: v in s.served ==> ServingOk(s', v)
  {
    forall v | v in s.served ensures ServingOk(s', v) {
      assert ServingOk(s, v) && CellEvolves(s, s', v.tid);
    }
  }

  // ------------------------------------------------------------ keys

  lemma PutNew(s: State, token: nat, data: Bytes, ttl: int)
    requires Shared(s) && token !in s.minted && ttl > 0
    ensures
      var tid := OfToken(token);
      var s' := Put(s, tid, data, ttl).(minted := s.minted + {token}, offered := s.offered + {(tid, data)});
      Shared(s') && Evolves(s, s') && tid !in s'.rows && Stored(s', tid) && Acc(s', tid).puts == 1
  {
    var tid := OfToken(token);
    var s' := Put(s, tid, data, ttl).(minted := s.minted + {token}, offered := s.offered + {(tid, data)});
    assert CellOk(s, tid);
    OneCell(s, s', tid);
  }

  lemma PutReply(s: State, rid: Tid, data: Bytes, ttl: int)
    requires Shared(s) && rid in s.reqs && (OfReply(rid), data) in s.offered && s.reqs[rid].expires <= s.redis.now + ttl
    ensures Shared(Put(s, OfReply(rid), data, ttl)) && Evolves(s, Put(s, OfReply(rid), data, ttl))
  {
    var tid := OfReply(rid);
    assert CellOk(s, tid);
    OneCell(s, Put(s, tid, data, ttl), tid);
  }

  lemma TakeKeeps(s: State, tid: Tid)
    requires Shared(s) && tid in s.rows
    ensures Shared(Take(s, tid)) && Evolves(s, Take(s, tid)) && !Stored(Take(s, tid), tid)
  {
    assert CellOk(s, tid);
    OneCell(s, Take(s, tid), tid);
  }

  lemma DropKeeps(s: State, tid: Tid)
    requires Shared(s) && tid in s.rows
    ensures Shared(Drop(s, tid)) && Evolves(s, Drop(s, tid)) && !Stored(Drop(s, tid), tid)
  {
    assert CellOk(s, tid);
    OneCell(s, Drop(s, tid), tid);
  }

  lemma WrongKeeps(s: State, tid: Tid)
    requires Shared(s) && tid in s.rows && s.rows[tid].stored.Some?
    ensures Shared(Wrong(s, tid)) && Evolves(s, Wrong(s, tid))
  {
    assert CellOk(s, tid);
    OneCell(s, Wrong(s, tid), tid);
  }

  lemma ExpireKeeps(s: State, tid: Tid, ttl: int)
    requires Shared(s) && tid in s.rows && s.rows[tid].expires <= s.redis.now + ttl
    ensures Shared(Expire(s, tid, ttl)) && Evolves(s, Expire(s, tid, ttl))
  {
    assert CellOk(s, tid);
    OneCell(s, Expire(s, tid, ttl), tid);
  }

  // ------------------------------------------------------------ rows

  lemma MarkKeeps(s: State, tid: Tid, to: Status)
    requires Shared(s) && to != Active && (tid in s.rows && to == Viewed ==> Acc(s, tid).takes >= 1)
    requires tid in s.rows && to in {Viewed, Revoked, Destroyed} ==> Gone(s, tid)
    requires tid in s.rows && to == Expired ==> Gone(s, tid) || s.rows[tid].expires <= s.redis.now
    ensures Shared(Mark(s, tid, to)) && Evolves(s, Mark(s, tid, to))
    ensures tid in s.rows ==> Mark(s, tid, to).rows[tid].status != Active
  {
    assert CellOk(s, tid);
    OneCell(s, Mark(s, tid, to), tid);
  }

  lemma RevokeKeeps(s: State, tid: Tid)
    requires Shared(s) && tid in s.rows && Gone(s, tid)
    ensures Shared(Revoke(s, tid)) && Evolves(s, Revoke(s, tid))
  {
    assert CellOk(s, tid);
    OneCell(s, Revoke(s, tid), tid);
  }

  lemma StoreFailsKeeps(s: State, tid: Tid, n: nat)
    requires Shared(s)
    ensures Shared(StoreFails(s, tid, n)) && Evolves(s, StoreFails(s, tid, n))
  {
    assert CellOk(s, tid);
    OneCell(s, StoreFails(s, tid, n), tid);
  }

  lemma InsertKeeps(s: State, tid: Tid, row: Row)
    requires Shared(s) && tid !in s.rows && NewRow(row)
    requires Stored(s, tid) ==> row.expires <= s.redis.blobs[tid].death
    requires Stored(s, tid) || row.expires <= s.redis.now
    requires tid.OfToken? ==> Acc(s, tid).puts >= 1
    requires tid.OfReply? ==>
               tid.rid in s.reqs && row.owner == s.reqs[tid.rid].owner && row.expires == s.reqs[tid.rid].expires && row.stored == None
    ensures Shared(InsertRow(s, tid, row)) && Evolves(s, InsertRow(s, tid, row))
  {
    assert CellOk(s, tid);
    OneCell(s, InsertRow(s, tid, row), tid);
  }

  lemma SweepKeeps(s: State)
    requires Shared(s)
    ensures Shared(SweepRows(s)) && Evolves(s, SweepRows(s))
  {
    var s' := SweepRows(s);
    forall t ensures CellOk(s', t) && CellEvolves(s, s', t) {
      assert CellOk(s, t);
    }
    RequestsKeep(s, s');
    TicketsKeep(s, s');
    SpentKeep(s, s');
    ServingsKeep(s, s');
  }

  // ------------------------------------------------------------ requests

  /** A change to one request that keeps its owner and deadline, or a new request. */
  lemma RequestKeeps(s: State, s': State, rid: Tid, req: Request)
    requires Shared(s) && s.minted <= s'.minted && s' == s.(reqs := s.reqs[rid := req], minted := s'.minted)
    requires rid in s.reqs ==> SameRequest(s.reqs[rid], req)
    requires RequestOk(s', rid)
    ensures Shared(s') && Evolves(s, s')
  {
    forall t ensures CellOk(s', t) && CellEvolves(s, s', t) {
      assert CellOk(s, t);
    }
    forall r ensures RequestOk(s', r) {
      assert RequestOk(s, r);
    }
    TicketsKeep(s, s');
    SpentKeep(s, s');
    ServingsKeep(s, s');
  }

  lemma AcceptKeeps(s: State, tid: Tid)
    requires Shared(s) && tid in s.rows
    ensures Shared(Accept(s, tid)) && Evolves(s, Accept(s, tid))
  {
    assert CellOk(s, tid);
    OneCell(s, Accept(s, tid), tid);
  }

  lemma Chain(s: State, s1: State, s2: State)
    requires s1.redis == s.redis && s1.rows == s.rows && s1.accounts == s.accounts
    requires Evolves(s, s1) && Evolves(s1, s2)
    ensures Evolves(s, s2)
  {
    forall t ensures CellEvolves(s, s2, t) {
      assert CellEvolves(s, s1, t) && CellEvolves(s1, s2, t);
    }
  }

  // ------------------------------------------------------------ tickets and time

  lemma IssueKeeps(s: State, ticket: Ticket, tid: Tid)
    requires Shared(s) && ticket !in s.issued
    ensures Shared(Issue(s, ticket, tid)) && Evolves(s, Issue(s, ticket, tid))
  {
    var s' := Issue(s, ticket, tid);
    forall t ensures CellOk(s', t) && CellEvolves(s, s', t) {
      assert CellOk(s, t);
    }
    RequestsKeep(s, s');
    forall t ensures TicketOk(s', t) {
      assert TicketOk(s, t);
    }
    SpentKeep(s, s');
    ServingsKeep(s, s');
  }

  lemma ConsumeCounts(s: State, ticket: Ticket, tid: Tid, t: Tid)
    requires Acc(s, t).checks == |SpentOn(s, t)| && TicketOk(s, ticket)
    ensures var s' := Consume(s, ticket, tid); Acc(s', t).checks == |SpentOn(s', t)|
  {
    var s' := Consume(s, ticket, tid);
    if TicketTid(s.redis, ticket) == Some(tid) && t == tid {
      assert ticket !in SpentOn(s, t);
      assert SpentOn(s', t) == SpentOn(s, t) + {ticket};
    } else {
      assert SpentOn(s', t) == SpentOn(s, t);
    }
  }

  lemma ConsumeTickets(s: State, ticket: Ticket, tid: Tid, t: Ticket)
    requires TicketOk(s, t) && TicketOk(s, ticket)
    ensures TicketOk(Consume(s, ticket, tid), t)
  {
  }

  lemma OnlyChecks(s: State, s': State, t: Tid)
    requires CellOk(s, t) && s'.redis == s.redis.(tickets := s'.redis.tickets) && s'.rows == s.rows && s'.reqs == s.reqs
    requires s'.minted == s.minted && s'.offered == s.offered
    requires Acc(s', t) == Acc(s, t).(checks := Acc(s', t).checks)
    ensures CellOk(s', t) && CellEvolves(s, s', t)
  {
  }

  lemma ConsumeFields(s: State, ticket: Ticket, tid: Tid)
    ensures var s' := Consume(s, ticket, tid);
            s' == s.(redis := s.redis.(tickets := s'.redis.tickets), spent := s'.spent, accounts := s'.accounts)
  {
  }

  lemma ConsumeAccount(s: State, ticket: Ticket, tid: Tid, t: Tid)
    ensures var s' := Consume(s, ticket, tid); Acc(s', t) == Acc(s, t).(checks := Acc(s', t).checks)
  {
  }

  lemma ConsumeCell(s: State, ticket: Ticket, tid: Tid, t: Tid)
    requires CellOk(s, t)
    ensures CellOk(Consume(s, ticket, tid), t) && CellEvolves(s, Consume(s, ticket, tid), t)
  {
    ConsumeFields(s, ticket, tid);
    ConsumeAccount(s, ticket, tid, t);
    OnlyChecks(s, Consume(s, ticket, tid), t);
  }

  lemma ConsumeKeeps(s: State, ticket: Ticket, tid: Tid)
    requires Shared(s) && tid in s.rows
    ensures Shared(Consume(s, ticket, tid)) && Evolves(s, Consume(s, ticket, tid))
  {
    var s' := Consume(s, ticket, tid);
    forall t ensures CellOk(s', t) && CellEvolves(s, s', t) && Acc(s', t).checks == |SpentOn(s', t)| {
      assert CellOk(s, t) && Acc(s, t).checks == |SpentOn(s, t)| && TicketOk(s, ticket);
      ConsumeCell(s, ticket, tid, t);
      ConsumeCounts(s, ticket, tid, t);
    }
    RequestsKeep(s, s');
    forall t ensures TicketOk(s', t) {
      assert TicketOk(s, t) && TicketOk(s, ticket);
      ConsumeTickets(s, ticket, tid, t);
    }
    ServingsKeep(s, s');
  }

  lemma PassCell(s: State, t: Tid)
    requires CellOk(s, t)
    ensures CellOk(Pass(s), t) && CellEvolves(s, Pass(s), t) && Acc(Pass(s), t).checks == Acc(s, t).checks
  {
    if t in s.redis.blobs {
      assert t in s.accounts.Keys + s.redis.blobs.Keys;
    }
  }

  lemma PassKeeps(s: State)
    requires Shared(s)
    ensures Shared(Pass(s)) && Evolves(s, Pass(s))
  {
    var s' := Pass(s);
    forall t ensures CellOk(s', t) && CellEvolves(s, s', t) && Acc(s', t).checks == |SpentOn(s', t)| {
      assert CellOk(s, t) && Acc(s, t).checks == |SpentOn(s, t)| && SpentOn(s, t) == SpentOn(s', t);
      PassCell(s, t);
    }
    RequestsKeep(s, s');
    forall t ensures TicketOk(s', t) {
      assert TicketOk(s, t);
    }
    ServingsKeep(s, s');
  }
}
