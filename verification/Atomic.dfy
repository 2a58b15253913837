/** Each handler run from its first statement to its last with nothing in between, as one
    function of the state: what it leaves behind and what it answers. Every such function
    is a run of the protocol, and it keeps more than an interleaved run can. */
module Atomic {
  import opened Domain
  import opened Store
  import opened Protocol

  datatype Answer =
    | NotFound                                  // 404
    | GoneAlready(status: Status)               // 410, already in that status
    | GoneExpired                               // 410 expired, or already viewed or expired
    | BadTicket                                 // 400
    | WrongPassphrase(remaining: int)           // 401
    | DestroyedNow                              // 403
    | Conflict                                  // 409
    | GoneRequest(was: RequestStatus)           // 410, for a request
    | Throttled                                 // 429
    | Crashed                                   // 500, a primary key violation
    | Refused                                   // 400 or 422 before the handler starts
    | Bytes_(data: Bytes)                       // 200, the payload
    | Ticket_(ticket: Ticket, remaining: int)   // 200, the metadata and a ticket
    | Created(tid: Tid)                         // 201
    | Accepted                                  // 201
    | Shown(pubkey: Bytes)                      // 200, the key to seal to
    | NoContent                                 // 204

  function WithServed(s: State, v: Serving): State {
    s.(served := s.served + {v})
  }

  /** bump_fails */
  function Bumped(s: State, tid: Tid, row: Row): State {
    if FailsOf(s.redis, tid) == 0 then Expire(Wrong(s, tid), tid, Max(row.expires - s.redis.now, 60)) else Wrong(s, tid)
  }

  /** bump_fails and the UPDATE that copies its result into the row. */
  function Counted(s: State, tid: Tid, row: Row): State {
    StoreFails(Bumped(s, tid, row), tid, FailsOf(s.redis, tid) + 1)
  }

  function Fail(s: State, tid: Tid, row: Row): (State, Answer) {
    var left := row.maxAttempts - (FailsOf(s.redis, tid) + 1);
    if left <= 0
    then (Mark(Drop(Counted(s, tid, row), tid), tid, Destroyed), DestroyedNow)
    else (Counted(s, tid, row), WrongPassphrase(left))
  }

  function Open(s: State, tid: Tid, who: Recipient): (State, Answer) {
    if Stored(s, tid) then
      var data := s.redis.blobs[tid].data;
      (WithServed(Mark(Take(s, tid), tid, Viewed), Serving(tid, data, who)), Bytes_(data))
    else
      (Mark(s, tid, Expired), GoneExpired)
  }

  function Reveal(s: State, tid: Tid, ticket: Ticket, sent: Option<Bytes>): (State, Answer) {
    if tid !in s.rows then (s, NotFound)
    else
      var row := s.rows[tid];
      if row.status != Active then (s, GoneAlready(row.status))
      else if row.expires <= s.redis.now then (Mark(s, tid, Expired), GoneExpired)
      else
        var s1 := Consume(s, ticket, tid);
        if TicketTid(s.redis, ticket) != Some(tid) then (s1, BadTicket)
        else if VerifierOk(sent, row.stored) then Open(s1, tid, Holder(sent))
        else Fail(s1, tid, row)
  }

  function Meta(s: State, tid: Tid, ticket: Ticket): (State, Answer) {
    if tid !in s.rows then (s, NotFound)
    else
      var row := s.rows[tid];
      if row.status != Active then (s, GoneAlready(row.status))
      else if row.expires <= s.redis.now || !Stored(s, tid) then (Mark(s, tid, Expired), GoneExpired)
      else (Issue(s, ticket, tid), Ticket_(ticket, row.maxAttempts - row.failed))
  }

  function Create(s: State, user: User, data: Bytes, want: int, verifier: Option<Bytes>, maxAttempts: int, token: nat): (State, Answer) {
    if !Fits(data) || !(1 <= maxAttempts <= 20) then (s, Refused)
    else
      var tid, ttl := OfToken(token), Clamp(60, want);
      var stored := if verifier.Some? then Some(Sha256(verifier.value)) else None;
      var s1 := Put(s, tid, data, ttl).(minted := s.minted + {token}, offered := s.offered + {(tid, data)});
      (InsertRow(s1, tid, Row(user, s.redis.now + ttl, Active, stored, maxAttempts, 0)), Created(tid))
  }

  function RevokeSecret(s: State, tid: Tid, user: User, admin: bool): (State, Answer) {
    if tid !in s.rows || !MayTouch(user, admin, s.rows[tid].owner) then (s, NotFound)
    else if s.rows[tid].status != Active then (s, Conflict)
    else (Revoke(Drop(s, tid), tid), NoContent)
  }

  function Ask(s: State, user: User, expiresIn: Option<int>, pubkey: Bytes, token: nat): (State, Answer) {
    if pubkey == [] then (s, Conflict)
    else
      (InsertRequest(s, OfToken(token), Request(user, s.redis.now + Clamp(3600, Wanted(expiresIn)), RequestStatus.Open, None, pubkey))
       .(minted := s.minted + {token}), Created(OfToken(token)))
  }

  /** _load_open_request: the request, or the state and answer its caller ends with. */
  function Load(s: State, rid: Tid): (State, Option<Answer>) {
    if rid !in s.reqs then (s, Some(NotFound))
    else if s.reqs[rid].status != RequestStatus.Open then (s, Some(GoneRequest(s.reqs[rid].status)))
    else if s.reqs[rid].expires <= s.redis.now then (LapseRequest(s, rid), Some(GoneExpired))
    else (s, None)
  }

  function View(s: State, rid: Tid): (State, Answer) {
    var (s1, stop) := Load(s, rid);
    (s1, if stop.Some? then stop.value else Shown(s.reqs[rid].pubkey))
  }

  function Answered(s: State, rid: Tid, req: Request): State {
    var tid := OfReply(rid);
    Accept(FulfilRequest(InsertRow(s, tid, Row(req.owner, req.expires, Active, None, 5, 0)), rid), tid)
  }

  function Submit(s: State, rid: Tid, data: Bytes, throttled: bool): (State, Answer) {
    var (s1, stop) := Load(s, rid);
    if stop.Some? then (s1, stop.value)
    else if throttled then (s, Throttled)
    else if !Fits(data) then (s, Refused)
    else
      var s2 := Put(s, OfReply(rid), data, Max(60, s.reqs[rid].expires - s.redis.now));
      if OfReply(rid) in s.rows then (s2, Crashed) else (Answered(s2, rid, s.reqs[rid]), Accepted)
  }

  function TakeReply(s: State, rid: Tid, user: User, admin: bool): (State, Answer) {
    if rid !in s.reqs || !MayTouch(user, admin, s.reqs[rid].owner) then (s, NotFound)
    else if s.reqs[rid].status != Fulfilled || s.reqs[rid].reply.None? then (s, Conflict)
    else
      var tid := s.reqs[rid].reply.value;
      if Stored(s, tid) then Open(s, tid, Staff(user, admin)) else (s, GoneExpired)
  }

  function WithdrawRequest(s: State, rid: Tid, user: User, admin: bool): (State, Answer) {
    if rid !in s.reqs || !MayTouch(user, admin, s.reqs[rid].owner) then (s, NotFound)
    else if s.reqs[rid].status != RequestStatus.Open then (s, Conflict)
    else (Withdraw(s, rid), NoContent)
  }

  /** One call and everything it draws from outside, run alone. */
  function Handle(s: State, call: Call, env: Env): (State, Answer) {
    match call
    case CallCreate(user, data, want, verifier, maxAttempts) => Create(s, user, data, want, verifier, maxAttempts, env.token)
    case CallMeta(tid) => Meta(s, tid, env.ticket)
    case CallReveal(tid, ticket, sent) => Reveal(s, tid, ticket, sent)
    case CallRevoke(tid, user, admin) => RevokeSecret(s, tid, user, admin)
    case CallAsk(user, expiresIn, pubkey) => Ask(s, user, expiresIn, pubkey, env.token)
    case CallView(rid) => View(s, rid)
    case CallSubmit(rid, data) => Submit(Enter(s, call), rid, data, env.throttled)
    case CallTakeReply(rid, user, admin) => TakeReply(s, rid, user, admin)
    case CallWithdraw(rid, user, admin) => WithdrawRequest(s, rid, user, admin)
  }

  /** Tokens and tickets are drawn at random and are new. */
  predicate Draws(s: State, env: Env) {
    env.token !in s.minted && env.ticket !in s.issued
  }

  /** Some number outside a finite set. */
  ghost function Unused(s: set<nat>): (n: nat)
    ensures n !in s
  {
    SomeUnused(s);
    var n: nat :| n !in s;
    n
  }

  lemma SomeUnused(s: set<nat>)
    ensures exists n: nat :: n !in s
  {
    var n := Above(s);
  }

  lemma Above(s: set<nat>) returns (n: nat)
    ensures forall x :: x in s ==> x < n
    ensures n !in s
  {
    if s == {} {
      n := 0;
    } else {
      var x :| x in s;
      var m := Above(s - {x});
      n := if x < m then m else x + 1;
      assert forall y :: y in s ==> y == x || y in s - {x};
    }
  }

  ghost function FreshEnv(s: State, token: nat): (env: Env)
    requires token !in s.minted
    ensures Draws(s, env) && env.token == token
  {
    Env(token, Unused(s.issued.Keys), false)
  }

  ghost function EnvFor(s: State, ticket: Ticket): (env: Env)
    requires ticket !in s.issued
    ensures Draws(s, env) && env.ticket == ticket
  {
    Env(Unused(s.minted), ticket, false)
  }

  ghost function AnyEnv(s: State): (env: Env)
    ensures Draws(s, env) && !env.throttled
  {
    Env(Unused(s.minted), Unused(s.issued.Keys), false)
  }

  // -------------------------------------------------- a handler alone is a run

  /** How many steps a thread can still take. */
  function Rank(th: Thread): nat {
    match th
    case CreatePut(_, _, _) => 2
    case CreateInsert(_, _) => 1
    case MetaSelect(_) => 4
    case MetaCheck(_, _) => 3
    case MetaExists(_, _) => 2
    case MetaIssue(_) => 1
    case RevealSelect(_, _, _) => 9
    case RevealCheck(_, _, _, _) => 8
    case RevealTicket(_, _, _, _) => 7
    case RevealVerify(_, _, _) => 6
    case RevealIncr(_, _, _) => 5
    case RevealExpire(_, _, _, _) => 4
    case RevealStore(_, _, _) => 3
    case RevealDrop(_) => 2
    case RevealTake(_, _) => 2
    case Close(_, _) => 1
    case Deliver(_, _, _) => 1
    case RevokeSelect(_, _, _) => 3
    case RevokeDrop(_, _, _) => 2
    case RevokeWrite(_, _, _) => 1
    case AskInsert(_) => 1
    case LoadSelect(_, _) => 6
    case LoadCheck(_, _, _) => 5
    case LoadExpire(_) => 1
    case SubmitLimit(_, _, _) => 4
    case SubmitPut(_, _, _, _) => 3
    case SubmitInsert(_, _) => 2
    case SubmitFulfil(_) => 1
    case ReplySelect(_, _, _) => 3
    case ReplyTake(_, _, _) => 2
    case WithdrawSelect(_, _, _) => 2
    case WithdrawWrite(_, _, _) => 1
  }

  lemma NextDescends(s: State, th: Thread, env: Env)
    ensures Next(s, th, env).Go? ==> Rank(Next(s, th, env).th) < Rank(th)
  {
  }

  /** Thread `th`, from where it is to its end, with nothing in between. */
  function Alone(s: State, th: Thread, env: Env): State
    decreases Rank(th)
  {
    NextDescends(s, th, env);
    match Next(s, th, env)
    case Wait => s
    case Go(t) => Alone(Effect(s, th, env), t, env)
    case End => Effect(s, th, env)
  }

  lemma Hop(s: State, th: Thread, env: Env, t: Thread)
    requires Next(s, th, env) == Go(t)
    ensures Alone(s, th, env) == Alone(Effect(s, th, env), t, env)
  {
  }

  lemma CloseAlone(s: State, tid: Tid, to: Status, env: Env)
    ensures Alone(s, Close(tid, to), env) == Mark(s, tid, to)
  {
  }

  lemma DeliverAlone(s: State, th: Thread, env: Env)
    requires th.Deliver?
    ensures Alone(s, th, env) == WithServed(Mark(s, th.tid, Viewed), Serving(th.tid, th.data, th.who))
  {
  }

  lemma TakeAlone(s: State, tid: Tid, sent: Option<Bytes>, env: Env)
    ensures Alone(s, RevealTake(tid, sent), env) == Open(s, tid, Holder(sent)).0
  {
    if Stored(s, tid) {
      var th := Deliver(tid, s.redis.blobs[tid].data, Holder(sent));
      Hop(s, RevealTake(tid, sent), env, th);
      DeliverAlone(Take(s, tid), th, env);
    } else {
      Hop(s, RevealTake(tid, sent), env, Close(tid, Expired));
      CloseAlone(s, tid, Expired, env);
    }
  }

  lemma DropAlone(s: State, tid: Tid, env: Env)
    ensures Alone(s, RevealDrop(tid), env) == Mark(Drop(s, tid), tid, Destroyed)
  {
    Hop(s, RevealDrop(tid), env, Close(tid, Destroyed));
    CloseAlone(Drop(s, tid), tid, Destroyed, env);
  }

  /** The UPDATE of the counter, and destruction when nothing is left. */
  function Judged(s: State, tid: Tid, row: Row, n: nat): State {
    var s1 := StoreFails(s, tid, n);
    if row.maxAttempts - n <= 0 then Mark(Drop(s1, tid), tid, Destroyed) else s1
  }

  lemma StoreAlone(s: State, tid: Tid, row: Row, n: nat, env: Env)
    ensures Alone(s, RevealStore(tid, row, n), env) == Judged(s, tid, row, n)
  {
    if row.maxAttempts - n <= 0 {
      Hop(s, RevealStore(tid, row, n), env, RevealDrop(tid));
      DropAlone(StoreFails(s, tid, n), tid, env);
    }
  }

  lemma ExpireAlone(s: State, tid: Tid, row: Row, ttl: int, n: nat, env: Env)
    ensures Alone(s, RevealExpire(tid, row, ttl, n), env) == Judged(Expire(s, tid, ttl), tid, row, n)
  {
    Hop(s, RevealExpire(tid, row, ttl, n), env, RevealStore(tid, row, n));
    StoreAlone(Expire(s, tid, ttl), tid, row, n, env);
  }

  lemma FirstFailAlone(s: State, tid: Tid, row: Row, ttl: int, env: Env)
    requires FailsOf(s.redis, tid) == 0
    ensures Alone(s, RevealIncr(tid, row, ttl), env) == Judged(Expire(Wrong(s, tid), tid, ttl), tid, row, 1)
  {
    Hop(s, RevealIncr(tid, row, ttl), env, RevealExpire(tid, row, ttl, 1));
    ExpireAlone(Wrong(s, tid), tid, row, ttl, 1, env);
  }

  lemma LaterFailAlone(s: State, tid: Tid, row: Row, ttl: int, env: Env)
    requires FailsOf(s.redis, tid) > 0
    ensures Alone(s, RevealIncr(tid, row, ttl), env) == Judged(Wrong(s, tid), tid, row, FailsOf(s.redis, tid) + 1)
  {
    Hop(s, RevealIncr(tid, row, ttl), env, RevealStore(tid, row, FailsOf(s.redis, tid) + 1));
    StoreAlone(Wrong(s, tid), tid, row, FailsOf(s.redis, tid) + 1, env);
  }

  lemma FailIsJudged(s: State, tid: Tid, row: Row)
    ensures Fail(s, tid, row).0 == Judged(Bumped(s, tid, row), tid, row, FailsOf(s.redis, tid) + 1)
  {
  }

  lemma FailAlone(s: State, tid: Tid, row: Row, env: Env)
    ensures Alone(s, RevealIncr(tid, row, Max(row.expires - s.redis.now, 60)), env) == Fail(s, tid, row).0
  {
    var ttl := Max(row.expires - s.redis.now, 60);
    FailIsJudged(s, tid, row);
    if FailsOf(s.redis, tid) == 0 { FirstFailAlone(s, tid, row, ttl, env); } else { LaterFailAlone(s, tid, row, ttl, env); }
  }

  lemma RightAlone(s: State, tid: Tid, sent: Option<Bytes>, row: Row, env: Env)
    requires VerifierOk(sent, row.stored)
    ensures Alone(s, RevealVerify(tid, sent, row), env) == Open(s, tid, Holder(sent)).0
  {
    Hop(s, RevealVerify(tid, sent, row), env, RevealTake(tid, sent));
    TakeAlone(s, tid, sent, env);
  }

  lemma WrongAlone(s: State, tid: Tid, sent: Option<Bytes>, row: Row, env: Env)
    requires !VerifierOk(sent, row.stored)
    ensures Alone(s, RevealVerify(tid, sent, row), env) == Fail(s, tid, row).0
  {
    Hop(s, RevealVerify(tid, sent, row), env, RevealIncr(tid, row, Max(row.expires - s.redis.now, 60)));
    FailAlone(s, tid, row, env);
  }

  lemma TicketAlone(s: State, tid: Tid, ticket: Ticket, sent: Option<Bytes>, row: Row, env: Env)
    ensures var s1 := Consume(s, ticket, tid);
            Alone(s, RevealTicket(tid, ticket, sent, row), env)
            == if TicketTid(s.redis, ticket) == Some(tid) then Alone(s1, RevealVerify(tid, sent, row), env) else s1
  {
    if TicketTid(s.redis, ticket) == Some(tid) {
      Hop(s, RevealTicket(tid, ticket, sent, row), env, RevealVerify(tid, sent, row));
    }
  }

  lemma CheckAlone(s: State, tid: Tid, ticket: Ticket, sent: Option<Bytes>, row: Row, env: Env)
    ensures Alone(s, RevealCheck(tid, ticket, sent, row), env)
         == if row.expires <= s.redis.now then Mark(s, tid, Expired) else Alone(s, RevealTicket(tid, ticket, sent, row), env)
  {
    if row.expires <= s.redis.now {
      Hop(s, RevealCheck(tid, ticket, sent, row), env, Close(tid, Expired));
      CloseAlone(s, tid, Expired, env);
    } else {
      Hop(s, RevealCheck(tid, ticket, sent, row), env, RevealTicket(tid, ticket, sent, row));
    }
  }

  lemma VerifyAlone(s: State, tid: Tid, sent: Option<Bytes>, row: Row, env: Env)
    ensures Alone(s, RevealVerify(tid, sent, row), env)
         == if VerifierOk(sent, row.stored) then Open(s, tid, Holder(sent)).0 else Fail(s, tid, row).0
  {
    if VerifierOk(sent, row.stored) { RightAlone(s, tid, sent, row, env); } else { WrongAlone(s, tid, sent, row, env); }
  }

  lemma ShutAlone(s: State, tid: Tid, ticket: Ticket, sent: Option<Bytes>, env: Env)
    requires tid !in s.rows || s.rows[tid].status != Active
    ensures Alone(s, RevealSelect(tid, ticket, sent), env) == s
  {
  }

  lemma RevealAlone(s: State, tid: Tid, ticket: Ticket, sent: Option<Bytes>, env: Env)
    ensures Alone(s, RevealSelect(tid, ticket, sent), env) == Reveal(s, tid, ticket, sent).0
  {
    if tid in s.rows && s.rows[tid].status == Active {
      var row := s.rows[tid];
      Hop(s, RevealSelect(tid, ticket, sent), env, RevealCheck(tid, ticket, sent, row));
      CheckAlone(s, tid, ticket, sent, row, env);
      TicketAlone(s, tid, ticket, sent, row, env);
      VerifyAlone(Consume(s, ticket, tid), tid, sent, row, env);
    } else {
      ShutAlone(s, tid, ticket, sent, env);
    }
  }

  lemma ExistsAlone(s: State, tid: Tid, row: Row, env: Env)
    requires env.ticket !in s.issued
    ensures Alone(s, MetaExists(tid, row), env) == if Stored(s, tid) then Issue(s, env.ticket, tid) else Mark(s, tid, Expired)
  {
    if Stored(s, tid) {
      Hop(s, MetaExists(tid, row), env, MetaIssue(tid));
    } else {
      Hop(s, MetaExists(tid, row), env, Close(tid, Expired));
      CloseAlone(s, tid, Expired, env);
    }
  }

  lemma MetaCheckAlone(s: State, tid: Tid, row: Row, env: Env)
    ensures Alone(s, MetaCheck(tid, row), env)
         == if row.expires <= s.redis.now then Mark(s, tid, Expired) else Alone(s, MetaExists(tid, row), env)
  {
    if row.expires <= s.redis.now {
      Hop(s, MetaCheck(tid, row), env, Close(tid, Expired));
      CloseAlone(s, tid, Expired, env);
    } else {
      Hop(s, MetaCheck(tid, row), env, MetaExists(tid, row));
    }
  }

  lemma MetaAlone(s: State, tid: Tid, env: Env)
    requires env.ticket !in s.issued
    ensures Alone(s, MetaSelect(tid), env) == Meta(s, tid, env.ticket).0
  {
    if tid in s.rows && s.rows[tid].status == Active {
      var row := s.rows[tid];
      Hop(s, MetaSelect(tid), env, MetaCheck(tid, row));
      MetaCheckAlone(s, tid, row, env);
      ExistsAlone(s, tid, row, env);
    }
  }

  lemma InsertAlone(s: State, tid: Tid, row: Row, env: Env)
    requires tid !in s.rows
    ensures Alone(s, CreateInsert(tid, row), env) == InsertRow(s, tid, row)
  {
  }

  lemma CreateAlone(s: State, data: Bytes, ttl: int, row: Row, env: Env)
    requires env.token !in s.minted && OfToken(env.token) !in s.rows
    ensures var tid := OfToken(env.token);
            Alone(s, CreatePut(data, ttl, row), env)
            == InsertRow(Put(s, tid, data, ttl).(minted := s.minted + {env.token}, offered := s.offered + {(tid, data)}), tid, row)
  {
    var tid := OfToken(env.token);
    Hop(s, CreatePut(data, ttl, row), env, CreateInsert(tid, row));
    InsertAlone(Effect(s, CreatePut(data, ttl, row), env), tid, row, env);
  }

  lemma RevokeAlone(s: State, tid: Tid, user: User, admin: bool, env: Env)
    ensures Alone(s, RevokeSelect(tid, user, admin), env) == RevokeSecret(s, tid, user, admin).0
  {
    if tid in s.rows && MayTouch(user, admin, s.rows[tid].owner) && s.rows[tid].status == Active {
      Hop(s, RevokeSelect(tid, user, admin), env, RevokeDrop(tid, user, admin));
      RevokeDropAlone(s, tid, user, admin, env);
    }
  }

  lemma RevokeDropAlone(s: State, tid: Tid, user: User, admin: bool, env: Env)
    ensures Alone(s, RevokeDrop(tid, user, admin), env) == Revoke(Drop(s, tid), tid)
  {
    Hop(s, RevokeDrop(tid, user, admin), env, RevokeWrite(tid, user, admin));
  }

  lemma LoadAlone(s: State, rid: Tid, req: Request, payload: Option<Bytes>, env: Env)
    ensures Alone(s, LoadCheck(rid, req, payload), env)
         == if req.expires <= s.redis.now then LapseRequest(s, rid)
            else if payload.Some? then Alone(s, SubmitLimit(rid, req, payload.value), env) else s
  {
    if req.expires <= s.redis.now {
      Hop(s, LoadCheck(rid, req, payload), env, LoadExpire(rid));
    } else if payload.Some? {
      Hop(s, LoadCheck(rid, req, payload), env, SubmitLimit(rid, req, payload.value));
    }
  }

  lemma ViewAlone(s: State, rid: Tid, env: Env)
    ensures Alone(s, LoadSelect(rid, None), env) == View(s, rid).0
  {
    if rid in s.reqs && s.reqs[rid].status == RequestStatus.Open {
      Hop(s, LoadSelect(rid, None), env, LoadCheck(rid, s.reqs[rid], None));
      LoadAlone(s, rid, s.reqs[rid], None, env);
    }
  }

  lemma AnswerAlone(s: State, rid: Tid, req: Request, env: Env)
    ensures Alone(s, SubmitInsert(rid, req), env) == if OfReply(rid) in s.rows then s else Answered(s, rid, req)
  {
    if OfReply(rid) !in s.rows {
      Hop(s, SubmitInsert(rid, req), env, SubmitFulfil(rid));
      FulfilAlone(Effect(s, SubmitInsert(rid, req), env), rid, env);
    }
  }

  lemma FulfilAlone(s: State, rid: Tid, env: Env)
    ensures Alone(s, SubmitFulfil(rid), env) == Accept(FulfilRequest(s, rid), OfReply(rid))
  {
  }

  lemma PutNext(s: State, rid: Tid, req: Request, data: Bytes, ttl: int, env: Env)
    ensures Next(s, SubmitPut(rid, req, data, ttl), env) == Go(SubmitInsert(rid, req))
    ensures Effect(s, SubmitPut(rid, req, data, ttl), env) == Put(s, OfReply(rid), data, ttl)
  {
  }

  lemma PutAlone(s: State, rid: Tid, req: Request, data: Bytes, ttl: int, env: Env)
    ensures var s2 := Put(s, OfReply(rid), data, ttl);
            Alone(s, SubmitPut(rid, req, data, ttl), env) == if OfReply(rid) in s.rows then s2 else Answered(s2, rid, req)
  {
    PutNext(s, rid, req, data, ttl, env);
    Hop(s, SubmitPut(rid, req, data, ttl), env, SubmitInsert(rid, req));
    AnswerAlone(Put(s, OfReply(rid), data, ttl), rid, req, env);
  }

  lemma LimitNext(s: State, rid: Tid, req: Request, data: Bytes, ttl: int, env: Env)
    requires !env.throttled && Fits(data) && ttl == Max(60, req.expires - s.redis.now)
    ensures Next(s, SubmitLimit(rid, req, data), env) == Go(SubmitPut(rid, req, data, ttl))
    ensures Effect(s, SubmitLimit(rid, req, data), env) == s
  {
  }

  lemma LimitAlone(s: State, rid: Tid, req: Request, data: Bytes, env: Env)
    requires !env.throttled && Fits(data)
    ensures Alone(s, SubmitLimit(rid, req, data), env) == Alone(s, SubmitPut(rid, req, data, Max(60, req.expires - s.redis.now)), env)
  {
    var ttl := Max(60, req.expires - s.redis.now);
    LimitNext(s, rid, req, data, ttl, env);
    Hop(s, SubmitLimit(rid, req, data), env, SubmitPut(rid, req, data, ttl));
  }

  lemma TurnedAway(s: State, rid: Tid, req: Request, data: Bytes, env: Env)
    requires env.throttled || !Fits(data)
    ensures Alone(s, SubmitLimit(rid, req, data), env) == s
  {
  }

  lemma SubmitOpen(s: State, rid: Tid, data: Bytes, env: Env)
    requires rid in s.reqs && s.reqs[rid].status == RequestStatus.Open
    ensures var req := s.reqs[rid];
            Alone(s, LoadSelect(rid, Some(data)), env)
            == if req.expires <= s.redis.now then LapseRequest(s, rid) else Alone(s, SubmitLimit(rid, req, data), env)
  {
    Hop(s, LoadSelect(rid, Some(data)), env, LoadCheck(rid, s.reqs[rid], Some(data)));
    LoadAlone(s, rid, s.reqs[rid], Some(data), env);
  }

  lemma SubmitShut(s: State, rid: Tid, payload: Option<Bytes>, env: Env)
    requires rid !in s.reqs || s.reqs[rid].status != RequestStatus.Open
    ensures Alone(s, LoadSelect(rid, payload), env) == s
  {
  }

  lemma LimitedAlone(s: State, rid: Tid, req: Request, data: Bytes, env: Env)
    ensures var s2 := Put(s, OfReply(rid), data, Max(60, req.expires - s.redis.now));
            Alone(s, SubmitLimit(rid, req, data), env)
            == if env.throttled || !Fits(data) then s else if OfReply(rid) in s.rows then s2 else Answered(s2, rid, req)
  {
    if env.throttled || !Fits(data) {
      TurnedAway(s, rid, req, data, env);
    } else {
      LimitAlone(s, rid, req, data, env);
      PutAlone(s, rid, req, data, Max(60, req.expires - s.redis.now), env);
    }
  }

  lemma SubmitLive(s: State, rid: Tid, data: Bytes, throttled: bool)
    requires rid in s.reqs && s.reqs[rid].status == RequestStatus.Open && s.redis.now < s.reqs[rid].expires
    ensures var s2 := Put(s, OfReply(rid), data, Max(60, s.reqs[rid].expires - s.redis.now));
            Submit(s, rid, data, throttled).0
            == if throttled || !Fits(data) then s else if OfReply(rid) in s.rows then s2 else Answered(s2, rid, s.reqs[rid])
  {
  }

  lemma SubmitLate(s: State, rid: Tid, data: Bytes, throttled: bool)
    requires rid in s.reqs && s.reqs[rid].status == RequestStatus.Open && s.reqs[rid].expires <= s.redis.now
    ensures Submit(s, rid, data, throttled).0 == LapseRequest(s, rid)
  {
  }

  lemma SubmitLiveAlone(s: State, rid: Tid, data: Bytes, env: Env)
    requires rid in s.reqs && s.reqs[rid].status == RequestStatus.Open && s.redis.now < s.reqs[rid].expires
    ensures Alone(s, LoadSelect(rid, Some(data)), env) == Submit(s, rid, data, env.throttled).0
  {
    SubmitOpen(s, rid, data, env);
    SubmitLive(s, rid, data, env.throttled);
    LimitedAlone(s, rid, s.reqs[rid], data, env);
  }

  lemma SubmitLateAlone(s: State, rid: Tid, data: Bytes, env: Env)
    requires rid in s.reqs && s.reqs[rid].status == RequestStatus.Open && s.reqs[rid].expires <= s.redis.now
    ensures Alone(s, LoadSelect(rid, Some(data)), env) == Submit(s, rid, data, env.throttled).0
  {
    SubmitOpen(s, rid, data, env);
    SubmitLate(s, rid, data, env.throttled);
  }

  lemma SubmitAlone(s: State, rid: Tid, data: Bytes, env: Env)
    ensures Alone(s, LoadSelect(rid, Some(data)), env) == Submit(s, rid, data, env.throttled).0
  {
    if rid !in s.reqs || s.reqs[rid].status != RequestStatus.Open { SubmitShut(s, rid, Some(data), env); }
    else if s.reqs[rid].expires <= s.redis.now { SubmitLateAlone(s, rid, data, env); }
    else { SubmitLiveAlone(s, rid, data, env); }
  }

  lemma ReplyTakeAlone(s: State, tid: Tid, user: User, admin: bool, env: Env)
    ensures Alone(s, ReplyTake(tid, user, admin), env) == if Stored(s, tid) then Open(s, tid, Staff(user, admin)).0 else s
  {
    if Stored(s, tid) {
      var th := Deliver(tid, s.redis.blobs[tid].data, Staff(user, admin));
      Hop(s, ReplyTake(tid, user, admin), env, th);
      DeliverAlone(Take(s, tid), th, env);
    }
  }

  lemma ReplyAlone(s: State, rid: Tid, user: User, admin: bool, env: Env)
    ensures Alone(s, ReplySelect(rid, user, admin), env) == TakeReply(s, rid, user, admin).0
  {
    if rid in s.reqs && MayTouch(user, admin, s.reqs[rid].owner) && s.reqs[rid].status == Fulfilled && s.reqs[rid].reply.Some? {
      var tid := s.reqs[rid].reply.value;
      Hop(s, ReplySelect(rid, user, admin), env, ReplyTake(tid, user, admin));
      ReplyTakeAlone(s, tid, user, admin, env);
    }
  }

  lemma WithdrawAlone(s: State, rid: Tid, user: User, admin: bool, env: Env)
    ensures Alone(s, WithdrawSelect(rid, user, admin), env) == WithdrawRequest(s, rid, user, admin).0
  {
    if rid in s.reqs && MayTouch(user, admin, s.reqs[rid].owner) && s.reqs[rid].status == RequestStatus.Open {
      Hop(s, WithdrawSelect(rid, user, admin), env, WithdrawWrite(rid, user, admin));
      WithdrawWriteAlone(s, rid, user, admin, env);
    }
  }

  lemma WithdrawWriteAlone(s: State, rid: Tid, user: User, admin: bool, env: Env)
    ensures Alone(s, WithdrawWrite(rid, user, admin), env) == Withdraw(s, rid)
  {
  }
}
