/** The Redis side: every command the back end issues on secrets, counters and tickets,
    first as a function on the store's value, then as a class that is updated in place. */
module Store {
  import opened Domain

  const REVEAL_TICKET_TTL := 300

  datatype Blob = Blob(data: Bytes, death: int)
  /** A counter made by INCR has no time to live until EXPIRE gives it one. */
  datatype Counter = Counter(n: nat, death: Option<int>)
  datatype Slot = Slot(tid: Tid, death: int)

  datatype Redis = Redis(now: int, blobs: map<Tid, Blob>, fails: map<Tid, Counter>, tickets: map<Ticket, Slot>)

  function FailsOf(r: Redis, tid: Tid): nat {
    if tid in r.fails then r.fails[tid].n else 0
  }

  function PutBlob(r: Redis, tid: Tid, data: Bytes, ttl: int): Redis {
    r.(blobs := r.blobs[tid := Blob(data, r.now + ttl)])
  }

  function Peek(r: Redis, tid: Tid): Option<Bytes> {
    if tid in r.blobs then Some(r.blobs[tid].data) else None
  }

  function Forget(r: Redis, tid: Tid): Redis {
    r.(blobs := r.blobs - {tid})
  }

  function DropBlob(r: Redis, tid: Tid): Redis {
    r.(blobs := r.blobs - {tid}, fails := r.fails - {tid})
  }

  function Incr(r: Redis, tid: Tid): Redis {
    r.(fails := r.fails[tid := if tid in r.fails then r.fails[tid].(n := r.fails[tid].n + 1) else Counter(1, None)])
  }

  /** EXPIRE: does nothing to a key that is not there. */
  function ExpireFails(r: Redis, tid: Tid, ttl: int): Redis {
    if tid in r.fails then r.(fails := r.fails[tid := r.fails[tid].(death := Some(r.now + ttl))]) else r
  }

  function BumpFails(r: Redis, tid: Tid, ttl: int): Redis {
    var r1 := Incr(r, tid);
    if FailsOf(r1, tid) == 1 then ExpireFails(r1, tid, ttl) else r1
  }

  function IssueTicket(r: Redis, ticket: Ticket, tid: Tid): Redis {
    r.(tickets := r.tickets[ticket := Slot(tid, r.now + REVEAL_TICKET_TTL)])
  }

  function TicketTid(r: Redis, ticket: Ticket): Option<Tid> {
    if ticket in r.tickets then Some(r.tickets[ticket].tid) else None
  }

  function ConsumeTicket(r: Redis, ticket: Ticket): Redis {
    r.(tickets := r.tickets - {ticket})
  }

  predicate Outlives(death: Option<int>, now: int) {
    death.None? || now < death.value
  }

  /** One second passes, and every key whose time has come is gone. */
  function Tick(r: Redis): Redis {
    var t := r.now + 1;
    Redis(t,
          map k | k in r.blobs && t < r.blobs[k].death :: r.blobs[k],
          map k | k in r.fails && Outlives(r.fails[k].death, t) :: r.fails[k],
          map k | k in r.tickets && t < r.tickets[k].death :: r.tickets[k])
  }

  /** The store after `n` seconds in which nobody uses it. */
  function Later(r: Redis, n: nat): Redis {
    if n == 0 then r else Tick(Later(r, n - 1))
  }

  /** What is left of it: exactly the keys whose time has not come, as they were. */
  lemma {:induction false} LaterHas(r: Redis, n: nat)
    ensures var r' := Later(r, n);
            && r'.now == r.now + n
            && (forall t :: t in r'.blobs <==> t in r.blobs && (n == 0 || r.now + n < r.blobs[t].death))
            && (forall t :: t in r'.blobs ==> r'.blobs[t] == r.blobs[t])
            && (forall t :: t in r'.tickets <==> t in r.tickets && (n == 0 || r.now + n < r.tickets[t].death))
            && (forall t :: t in r'.tickets ==> r'.tickets[t] == r.tickets[t])
  {
    if n > 0 { LaterHas(r, n - 1); }
  }

  lemma {:induction false} LaterCounts(r: Redis, n: nat)
    ensures var r' := Later(r, n);
            && r'.now == r.now + n
            && (forall t :: t in r'.fails <==> t in r.fails && (n == 0 || Outlives(r.fails[t].death, r.now + n)))
            && (forall t :: t in r'.fails ==> r'.fails[t] == r.fails[t])
  {
    if n > 0 { LaterCounts(r, n - 1); }
  }

  /** Bytes can be read for exactly their time to live, and a put touches no other key. */
  lemma PutLasts(r: Redis, tid: Tid, data: Bytes, ttl: int, n: nat, t: Tid)
    ensures Peek(Later(PutBlob(r, tid, data, ttl), n), t)
         == if t != tid then Peek(Later(r, n), t) else if n == 0 || n < ttl then Some(data) else None
  {
    LaterHas(r, n);
    LaterHas(PutBlob(r, tid, data, ttl), n);
  }

  /** A ticket is good for five minutes. */
  lemma IssueLasts(r: Redis, ticket: Ticket, tid: Tid, n: nat, t: Ticket)
    ensures TicketTid(Later(IssueTicket(r, ticket, tid), n), t)
         == if t != ticket then TicketTid(Later(r, n), t) else if n < 300 then Some(tid) else None
  {
    LaterHas(r, n);
    LaterHas(IssueTicket(r, ticket, tid), n);
  }

  /** The first failure starts the counter's time, and no later one extends it. */
  lemma BumpLasts(r: Redis, tid: Tid, ttl: int, n: nat, t: Tid)
    ensures FailsOf(Later(BumpFails(r, tid, ttl), n), t)
         == if t != tid then FailsOf(Later(r, n), t)
            else if FailsOf(r, tid) == 0 then (if n == 0 || n < ttl then 1 else 0)
            else if FailsOf(Later(r, n), tid) == 0 then 0 else FailsOf(r, tid) + 1
  {
    LaterCounts(r, n);
    LaterCounts(BumpFails(r, tid, ttl), n);
  }

  /** store.py's functions over the module-level client. */
  class Client {
    var now: int
    var blobs: map<Tid, Blob>
    var fails: map<Tid, Counter>
    var tickets: map<Ticket, Slot>

    function Value(): Redis
      reads this
    {
      Redis(now, blobs, fails, tickets)
    }

    constructor (start: int)
      ensures Value() == Redis(start, map[], map[], map[])
    {
      now, blobs, fails, tickets := start, map[], map[], map[];
    }

    method Put(tid: Tid, data: Bytes, ttl: int)
      modifies this
      ensures Value() == PutBlob(old(Value()), tid, data, ttl)
      ensures forall n: nat :: Peek(Later(Value(), n), tid) == if n == 0 || n < ttl then Some(data) else None
      ensures forall n: nat, t :: t != tid ==> Peek(Later(Value(), n), t) == Peek(Later(old(Value()), n), t)
    {
      forall n: nat, t ensures Peek(Later(PutBlob(Value(), tid, data, ttl), n), t)
                            == if t != tid then Peek(Later(Value(), n), t) else if n == 0 || n < ttl then Some(data) else None {
        PutLasts(Value(), tid, data, ttl, n, t);
      }
      blobs := blobs[tid := Blob(data, now + ttl)];
    }

    /** GETDEL: the bytes go to one caller and the key is gone. */
    method Take(tid: Tid) returns (data: Option<Bytes>)
      modifies this
      ensures data == Peek(old(Value()), tid)
      ensures Value() == Forget(old(Value()), tid)
      ensures Peek(Value(), tid) == None
      ensures data.None? ==> Value() == old(Value())
      ensures forall t :: t != tid ==> Peek(Value(), t) == Peek(old(Value()), t)
    {
      if tid in blobs {
        data := Some(blobs[tid].data);
        blobs := blobs - {tid};
      } else {
        data := None;
        assert blobs - {tid} == blobs;
      }
    }

    method Drop(tid: Tid)
      modifies this
      ensures Value() == DropBlob(old(Value()), tid)
      ensures Peek(Value(), tid) == None && FailsOf(Value(), tid) == 0
      ensures forall t :: t != tid ==> Peek(Value(), t) == Peek(old(Value()), t) && FailsOf(Value(), t) == FailsOf(old(Value()), t)
    {
      blobs := blobs - {tid};
      fails := fails - {tid};
    }

    method Exists(tid: Tid) returns (there: bool)
      ensures there <==> Peek(Value(), tid) != None
    {
      there := tid in blobs;
    }

    /** INCR, then EXPIRE on the first failure only. */
    method Bump(tid: Tid, ttl: int) returns (n: nat)
      modifies this
      ensures Value() == BumpFails(old(Value()), tid, ttl)
      ensures n == FailsOf(old(Value()), tid) + 1 == FailsOf(Value(), tid)
      ensures forall t :: t != tid ==> FailsOf(Value(), t) == FailsOf(old(Value()), t)
      ensures n == 1 ==> forall k: nat :: FailsOf(Later(Value(), k), tid) == if k == 0 || k < ttl then 1 else 0
      ensures n > 1 ==> forall k: nat :: FailsOf(Later(Value(), k), tid) == if FailsOf(Later(old(Value()), k), tid) == 0 then 0 else n
    {
      forall k: nat ensures FailsOf(Later(BumpFails(Value(), tid, ttl), k), tid)
                         == if FailsOf(Value(), tid) == 0 then (if k == 0 || k < ttl then 1 else 0)
                            else if FailsOf(Later(Value(), k), tid) == 0 then 0 else FailsOf(Value(), tid) + 1 {
        BumpLasts(Value(), tid, ttl, k, tid);
      }
      fails := Incr(Value(), tid).fails;
      n := fails[tid].n;
      if n == 1 {
        fails := fails[tid := fails[tid].(death := Some(now + ttl))];
      }
    }

    method Issue(ticket: Ticket, tid: Tid)
      modifies this
      ensures Value() == IssueTicket(old(Value()), ticket, tid)
      ensures forall n: nat :: TicketTid(Later(Value(), n), ticket) == if n < 300 then Some(tid) else None
      ensures forall n: nat, t :: t != ticket ==> TicketTid(Later(Value(), n), t) == TicketTid(Later(old(Value()), n), t)
    {
      forall n: nat, t ensures TicketTid(Later(IssueTicket(Value(), ticket, tid), n), t)
                            == if t != ticket then TicketTid(Later(Value(), n), t) else if n < 300 then Some(tid) else None {
        IssueLasts(Value(), ticket, tid, n, t);
      }
      tickets := tickets[ticket := Slot(tid, now + REVEAL_TICKET_TTL)];
    }

    method Consume(ticket: Ticket) returns (tid: Option<Tid>)
      modifies this
      ensures tid == TicketTid(old(Value()), ticket)
      ensures Value() == ConsumeTicket(old(Value()), ticket)
      ensures TicketTid(Value(), ticket) == None
      ensures forall t :: t != ticket ==> TicketTid(Value(), t) == TicketTid(old(Value()), t)
    {
      tid := if ticket in tickets then Some(tickets[ticket].tid) else None;
      tickets := tickets - {ticket};
    }

    method Wait()
      modifies this
      ensures Value() == Tick(old(Value()))
    {
      var r := Tick(Value());
      now, blobs, fails, tickets := r.now, r.blobs, r.fails, r.tickets;
    }
  }
}
