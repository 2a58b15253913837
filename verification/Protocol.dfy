/** The back end as a concurrent protocol over two stores.
    Every Redis command and every SQL statement of every handler is one step of one
    thread; clock ticks and the sweeper are steps of their own. A run is any sequence of
    actions; an action whose guard does not hold does nothing. The fields of the state after
    the two tables are history: no step reads them, except to draw tokens and tickets that
    are new. */
module Protocol {
  import opened Domain
  import opened Store

  const MAX_TTL_SECONDS := 30 * 24 * 3600
  const REQUEST_TTL_SECONDS := 7 * 24 * 3600
  const MAX_BLOB_BYTES := 5 * 1024 * 1024

  /** What _read_capped lets through. */
  predicate Fits(data: Bytes) {
    0 < |data| <= MAX_BLOB_BYTES
  }

  function Min(a: int, b: int): int { if a < b then a else b }

  function Max(a: int, b: int): int { if a < b then b else a }

  // ------------------------------------------------------------- Postgres rows

  datatype Status = Active | Viewed | Expired | Revoked | Destroyed
  datatype Row = Row(owner: User, expires: int, status: Status, stored: Option<Digest>, maxAttempts: int, failed: nat)

  /** open | fulfilled | expired | revoked */
  datatype RequestStatus = Open | Fulfilled | Lapsed | Withdrawn
  datatype Request = Request(owner: User, expires: int, status: RequestStatus, reply: Option<Tid>, pubkey: Bytes)

  // ------------------------------------------------------------------- handlers

  datatype Recipient = Holder(sent: Option<Bytes>) | Staff(user: User, admin: bool)

  /** One handler in flight: where it is, and the locals it still needs. */
  datatype Thread =
    // create_secret
    | CreatePut(data: Bytes, ttl: int, row: Row)
    | CreateInsert(tid: Tid, row: Row)
    // secret_meta
    | MetaSelect(tid: Tid)
    | MetaCheck(tid: Tid, row: Row)
    | MetaExists(tid: Tid, row: Row)
    | MetaIssue(tid: Tid)
    // reveal_secret
    | RevealSelect(tid: Tid, ticket: Ticket, sent: Option<Bytes>)
    | RevealCheck(tid: Tid, ticket: Ticket, sent: Option<Bytes>, row: Row)
    | RevealTicket(tid: Tid, ticket: Ticket, sent: Option<Bytes>, row: Row)
    | RevealVerify(tid: Tid, sent: Option<Bytes>, row: Row)
    | RevealIncr(tid: Tid, row: Row, ttl: int)
    | RevealExpire(tid: Tid, row: Row, ttl: int, n: nat)
    | RevealStore(tid: Tid, row: Row, n: nat)
    | RevealDrop(tid: Tid)
    | RevealTake(tid: Tid, sent: Option<Bytes>)
    // _mark, as the last statement of a handler that returns no bytes
    | Close(tid: Tid, to: Status)
    // _mark viewed, with the bytes in hand
    | Deliver(tid: Tid, data: Bytes, who: Recipient)
    // revoke_secret
    | RevokeSelect(tid: Tid, user: User, admin: bool)
    | RevokeDrop(tid: Tid, user: User, admin: bool)
    | RevokeWrite(tid: Tid, user: User, admin: bool)
    // create_request
    | AskInsert(req: Request)
    // _load_open_request, for view_request (no payload) and submit_request
    | LoadSelect(rid: Tid, payload: Option<Bytes>)
    | LoadCheck(rid: Tid, req: Request, payload: Option<Bytes>)
    | LoadExpire(rid: Tid)
    // submit_request
    | SubmitLimit(rid: Tid, req: Request, data: Bytes)
    | SubmitPut(rid: Tid, req: Request, data: Bytes, ttl: int)
    | SubmitInsert(rid: Tid, req: Request)
    | SubmitFulfil(rid: Tid)
    // take_reply
    | ReplySelect(rid: Tid, user: User, admin: bool)
    | ReplyTake(tid: Tid, user: User, admin: bool)
    // revoke_request
    | WithdrawSelect(rid: Tid, user: User, admin: bool)
    | WithdrawWrite(rid: Tid, user: User, admin: bool)

  datatype Call =
    | CallCreate(user: User, data: Bytes, want: int, verifier: Option<Bytes>, maxAttempts: int)
    | CallMeta(tid: Tid)
    | CallReveal(tid: Tid, ticket: Ticket, sent: Option<Bytes>)
    | CallRevoke(tid: Tid, user: User, admin: bool)
    | CallAsk(user: User, expiresIn: Option<int>, pubkey: Bytes)
    | CallView(rid: Tid)
    | CallSubmit(rid: Tid, data: Bytes)
    | CallTakeReply(rid: Tid, user: User, admin: bool)
    | CallWithdraw(rid: Tid, user: User, admin: bool)

  /** What a step draws from outside: a random token or ticket, a rate limiter's answer. */
  datatype Env = Env(token: nat, ticket: Ticket, throttled: bool)

  datatype Action = Start(pid: nat, call: Call) | Do(pid: nat, env: Env) | Sweep | Tock

  // ---------------------------------------------------------------------- state

  /** What has happened to one secret's key so far. */
  datatype Account = Account(puts: nat, overwrites: nat, takes: nat, drops: nat, expiries: nat,
                             wrong: nat, checks: nat, accepted: nat)

  const Fresh := Account(0, 0, 0, 0, 0, 0, 0, 0)

  datatype Serving = Serving(tid: Tid, data: Bytes, who: Recipient)

  /** The two stores, and after them the history. */
  datatype State = State(redis: Redis, rows: map<Tid, Row>, reqs: map<Tid, Request>,
                         accounts: map<Tid, Account>, minted: set<nat>, issued: map<Ticket, Tid>,
                         spent: map<Ticket, Tid>, offered: set<(Tid, Bytes)>, served: set<Serving>)

  datatype World = World(state: State, threads: map<nat, Thread>)

  function Init(): World {
    World(State(Redis(0, map[], map[], map[]), map[], map[], map[], {}, map[], map[], {}, {}), map[])
  }

  function Acc(s: State, tid: Tid): Account {
    if tid in s.accounts then s.accounts[tid] else Fresh
  }

  predicate Stored(s: State, tid: Tid) {
    tid in s.redis.blobs
  }

  // ------------------------------------------- single commands on the two stores

  function Put(s: State, tid: Tid, data: Bytes, ttl: int): State {
    var a := Acc(s, tid);
    s.(redis := PutBlob(s.redis, tid, data, ttl),
       accounts := s.accounts[tid := a.(puts := a.puts + 1, overwrites := a.overwrites + if Stored(s, tid) then 1 else 0)])
  }

  function Take(s: State, tid: Tid): State {
    var a := Acc(s, tid);
    if Stored(s, tid)
    then s.(redis := Forget(s.redis, tid), accounts := s.accounts[tid := a.(takes := a.takes + 1)])
    else s
  }

  function Drop(s: State, tid: Tid): State {
    var a := Acc(s, tid);
    s.(redis := DropBlob(s.redis, tid),
       accounts := s.accounts[tid := a.(drops := a.drops + if Stored(s, tid) then 1 else 0)])
  }

  function Wrong(s: State, tid: Tid): State {
    var a := Acc(s, tid);
    s.(redis := Incr(s.redis, tid), accounts := s.accounts[tid := a.(wrong := a.wrong + 1)])
  }

  function Expire(s: State, tid: Tid, ttl: int): State {
    s.(redis := ExpireFails(s.redis, tid, ttl))
  }

  function Issue(s: State, ticket: Ticket, tid: Tid): State {
    s.(redis := IssueTicket(s.redis, ticket, tid), issued := s.issued[ticket := tid])
  }

  /** GETDEL of a ticket by a reveal of `tid`; it counts as spent when it was for `tid`. */
  function Consume(s: State, ticket: Ticket, tid: Tid): State {
    var a := Acc(s, tid);
    if TicketTid(s.redis, ticket) == Some(tid)
    then s.(redis := ConsumeTicket(s.redis, ticket), spent := s.spent[ticket := tid],
            accounts := s.accounts[tid := a.(checks := a.checks + 1)])
    else s.(redis := ConsumeTicket(s.redis, ticket))
  }

  /** UPDATE secrets SET status=... WHERE tid=... AND status='active' */
  function Mark(s: State, tid: Tid, to: Status): State {
    if tid in s.rows && s.rows[tid].status == Active
    then s.(rows := s.rows[tid := s.rows[tid].(status := to)])
    else s
  }

  /** UPDATE secrets SET status='revoked' WHERE tid=... with no guard on the status */
  function Revoke(s: State, tid: Tid): State {
    if tid in s.rows then s.(rows := s.rows[tid := s.rows[tid].(status := Revoked)]) else s
  }

  function StoreFails(s: State, tid: Tid, n: nat): State {
    if tid in s.rows then s.(rows := s.rows[tid := s.rows[tid].(failed := n)]) else s
  }

  function InsertRow(s: State, tid: Tid, row: Row): State {
    s.(rows := s.rows[tid := row])
  }

  function InsertRequest(s: State, rid: Tid, req: Request): State {
    s.(reqs := s.reqs[rid := req])
  }

  /** UPDATE secret_requests SET status='expired' WHERE rid=... AND status='open' */
  function LapseRequest(s: State, rid: Tid): State {
    if rid in s.reqs && s.reqs[rid].status == Open then s.(reqs := s.reqs[rid := s.reqs[rid].(status := Lapsed)]) else s
  }

  /** UPDATE secret_requests SET status='fulfilled', fulfilled_tid=... WHERE rid=... AND status='open' */
  function FulfilRequest(s: State, rid: Tid): State {
    if rid in s.reqs && s.reqs[rid].status == Open
    then s.(reqs := s.reqs[rid := s.reqs[rid].(status := Fulfilled, reply := Some(OfReply(rid)))])
    else s
  }

  /** The submission is answered with success. */
  function Accept(s: State, tid: Tid): State {
    var a := Acc(s, tid);
    s.(accounts := s.accounts[tid := a.(accepted := a.accepted + 1)])
  }

  /** UPDATE secret_requests SET status='revoked' WHERE rid=... with no guard on the status */
  function Withdraw(s: State, rid: Tid): State {
    if rid in s.reqs then s.(reqs := s.reqs[rid := s.reqs[rid].(status := Withdrawn)]) else s
  }

  /** One pass of the sweeper's single UPDATE. */
  function SweepRows(s: State): State {
    s.(rows := map t | t in s.rows ::
         if s.rows[t].status == Active && s.rows[t].expires <= s.redis.now
         then s.rows[t].(status := Expired) else s.rows[t])
  }

  function Pass(s: State): State {
    s.(redis := Tick(s.redis),
       accounts := map t | t in s.accounts.Keys + s.redis.blobs.Keys ::
         if t in s.redis.blobs && t !in Tick(s.redis).blobs
         then Acc(s, t).(expiries := Acc(s, t).expiries + 1) else Acc(s, t))
  }

  // ------------------------------------------------------------- pure pieces

  /** max(60, min(want, MAX_TTL_SECONDS)): _ttl_seconds after the preset is looked up. */
  function Clamp(low: int, want: int): int {
    Max(low, Min(want, MAX_TTL_SECONDS))
  }

  /** An absent or zero expires_in means the default. */
  function Wanted(expiresIn: Option<int>): int {
    if expiresIn.Some? && expiresIn.value != 0 then expiresIn.value else REQUEST_TTL_SECONDS
  }

  predicate VerifierOk(sent: Option<Bytes>, stored: Option<Digest>) {
    stored.None? || (sent.Some? && sent.value != [] && stored.value == Sha256(sent.value))
  }

  predicate MayTouch(user: User, admin: bool, owner: User) {
    user == owner || admin
  }

  // ------------------------------------------------- which handler a thread is in

  predicate InCreate(th: Thread) {
    th.CreatePut? || th.CreateInsert?
  }

  predicate InMeta(th: Thread) {
    th.MetaSelect? || th.MetaCheck? || th.MetaExists? || th.MetaIssue?
  }

  predicate InReveal(th: Thread) {
    th.RevealSelect? || th.RevealCheck? || th.RevealTicket? || th.RevealVerify?
  }

  predicate InFail(th: Thread) {
    th.RevealIncr? || th.RevealExpire? || th.RevealStore? || th.RevealDrop?
  }

  predicate InTake(th: Thread) {
    th.RevealTake? || th.ReplyTake? || th.Close? || th.Deliver?
  }

  predicate InRevoke(th: Thread) {
    th.RevokeSelect? || th.RevokeDrop? || th.RevokeWrite?
  }

  predicate InLoad(th: Thread) {
    th.LoadSelect? || th.LoadCheck? || th.LoadExpire?
  }

  predicate InSubmit(th: Thread) {
    th.SubmitLimit? || th.SubmitPut? || th.SubmitInsert? || th.SubmitFulfil?
  }

  predicate InStaff(th: Thread) {
    th.AskInsert? || th.ReplySelect? || th.WithdrawSelect? || th.WithdrawWrite?
  }

  // ---------------------------------------------------------------- the steps

  /** Where a thread goes next: on, to its end, or nowhere yet because the token or ticket it
      drew is not new. */
  datatype Move = Wait | Go(th: Thread) | End

  function Place(w: World, p: nat, m: Move): World {
    match m
    case Wait => w
    case Go(th) => w.(threads := w.threads[p := th])
    case End => w.(threads := w.threads - {p})
  }

  /** What a call leaves in the history as it comes in. */
  function Enter(s: State, call: Call): State {
    if call.CallSubmit? then s.(offered := s.offered + {(OfReply(call.rid), call.data)}) else s
  }

  /** The first thread of a call; a request that does not validate has none. */
  function First(s: State, call: Call): Move {
    match call
    case CallCreate(user, data, want, verifier, maxAttempts) =>
      var ttl := Clamp(60, want);
      var stored := if verifier.Some? then Some(Sha256(verifier.value)) else None;
      if Fits(data) && 1 <= maxAttempts <= 20
      then Go(CreatePut(data, ttl, Row(user, s.redis.now + ttl, Active, stored, maxAttempts, 0)))
      else End
    case CallMeta(tid) => Go(MetaSelect(tid))
    case CallReveal(tid, ticket, sent) => Go(RevealSelect(tid, ticket, sent))
    case CallRevoke(tid, user, admin) => Go(RevokeSelect(tid, user, admin))
    case CallAsk(user, expiresIn, pubkey) =>
      // 409 when the user has published no key
      if pubkey == [] then End
      else Go(AskInsert(Request(user, s.redis.now + Clamp(3600, Wanted(expiresIn)), Open, None, pubkey)))
    case CallView(rid) => Go(LoadSelect(rid, None))
    case CallSubmit(rid, data) => Go(LoadSelect(rid, Some(data)))
    case CallTakeReply(rid, user, admin) => Go(ReplySelect(rid, user, admin))
    case CallWithdraw(rid, user, admin) => Go(WithdrawSelect(rid, user, admin))
  }

  predicate OnRedis(th: Thread) {
    th.CreatePut? || th.SubmitPut? || th.RevealTake? || th.ReplyTake? || th.RevealDrop? || th.RevokeDrop?
    || th.MetaIssue? || th.RevealTicket? || th.RevealIncr? || th.RevealExpire?
  }

  function RedisCommand(s: State, th: Thread, env: Env): State
    requires OnRedis(th)
  {
    match th
    case CreatePut(data, ttl, row) =>
      var tid := OfToken(env.token);
      if env.token in s.minted then s
      else Put(s, tid, data, ttl).(minted := s.minted + {env.token}, offered := s.offered + {(tid, data)})
    case SubmitPut(rid, _, data, ttl) => Put(s, OfReply(rid), data, ttl)
    case RevealTake(tid, _) => Take(s, tid)
    case ReplyTake(tid, _, _) => Take(s, tid)
    case RevealDrop(tid) => Drop(s, tid)
    case RevokeDrop(tid, _, _) => Drop(s, tid)
    case MetaIssue(tid) => if env.ticket in s.issued then s else Issue(s, env.ticket, tid)
    case RevealTicket(tid, ticket, _, _) => Consume(s, ticket, tid)
    case RevealIncr(tid, _, _) => Wrong(s, tid)
    case RevealExpire(tid, _, ttl, _) => Expire(s, tid, ttl)
  }

  predicate OnPostgres(th: Thread) {
    th.CreateInsert? || th.SubmitInsert? || th.RevealStore? || th.Close? || th.Deliver? || th.RevokeWrite?
    || th.AskInsert? || th.LoadExpire? || th.SubmitFulfil? || th.WithdrawWrite?
  }

  /** A primary key refuses a second row. */
  function SqlCommand(s: State, th: Thread, env: Env): State
    requires OnPostgres(th)
  {
    match th
    case CreateInsert(tid, row) => if tid in s.rows then s else InsertRow(s, tid, row)
    case SubmitInsert(rid, req) =>
      if OfReply(rid) in s.rows then s else InsertRow(s, OfReply(rid), Row(req.owner, req.expires, Active, None, 5, 0))
    case RevealStore(tid, _, n) => StoreFails(s, tid, n)
    case Close(tid, to) => Mark(s, tid, to)
    case Deliver(tid, data, who) => Mark(s, tid, Viewed).(served := s.served + {Serving(tid, data, who)})
    case RevokeWrite(tid, _, _) => Revoke(s, tid)
    case AskInsert(req) =>
      if env.token in s.minted then s
      else InsertRequest(s, OfToken(env.token), req).(minted := s.minted + {env.token})
    case LoadExpire(rid) => LapseRequest(s, rid)
    case SubmitFulfil(rid) => Accept(FulfilRequest(s, rid), OfReply(rid))
    case WithdrawWrite(rid, _, _) => Withdraw(s, rid)
  }

  /** The command a thread issues next; a thread that only computes or only reads issues none. */
  function Effect(s: State, th: Thread, env: Env): State {
    if OnRedis(th) then RedisCommand(s, th, env) else if OnPostgres(th) then SqlCommand(s, th, env) else s
  }

  function NextCreate(s: State, th: Thread, env: Env): Move
    requires InCreate(th)
  {
    match th
    case CreatePut(_, _, row) => if env.token in s.minted then Wait else Go(CreateInsert(OfToken(env.token), row))
    case CreateInsert(_, _) => End
  }

  function NextMeta(s: State, th: Thread, env: Env): Move
    requires InMeta(th)
  {
    match th
    case MetaSelect(tid) =>
      if tid in s.rows && s.rows[tid].status == Active then Go(MetaCheck(tid, s.rows[tid])) else End
    case MetaCheck(tid, row) => if row.expires <= s.redis.now then Go(Close(tid, Expired)) else Go(MetaExists(tid, row))
    case MetaExists(tid, _) => if Stored(s, tid) then Go(MetaIssue(tid)) else Go(Close(tid, Expired))
    case MetaIssue(_) => if env.ticket in s.issued then Wait else End
  }

  /** reveal_secret up to the verifier check. */
  function NextReveal(s: State, th: Thread): Move
    requires InReveal(th)
  {
    match th
    case RevealSelect(tid, ticket, sent) =>
      if tid in s.rows && s.rows[tid].status == Active then Go(RevealCheck(tid, ticket, sent, s.rows[tid])) else End
    case RevealCheck(tid, ticket, sent, row) =>
      if row.expires <= s.redis.now then Go(Close(tid, Expired)) else Go(RevealTicket(tid, ticket, sent, row))
    case RevealTicket(tid, ticket, sent, row) =>
      if TicketTid(s.redis, ticket) == Some(tid) then Go(RevealVerify(tid, sent, row)) else End
    case RevealVerify(tid, sent, row) =>
      if VerifierOk(sent, row.stored)
      then Go(RevealTake(tid, sent))
      else Go(RevealIncr(tid, row, Max(row.expires - s.redis.now, 60)))
  }

  /** reveal_secret after a wrong verifier. */
  function NextFail(s: State, th: Thread): Move
    requires InFail(th)
  {
    match th
    case RevealIncr(tid, row, ttl) =>
      var n := FailsOf(s.redis, tid) + 1;
      if n == 1 then Go(RevealExpire(tid, row, ttl, n)) else Go(RevealStore(tid, row, n))
    case RevealExpire(tid, row, _, n) => Go(RevealStore(tid, row, n))
    case RevealStore(tid, row, n) => if row.maxAttempts - n <= 0 then Go(RevealDrop(tid)) else End
    case RevealDrop(tid) => Go(Close(tid, Destroyed))
  }

  /** After the two GETDELs: with bytes in hand, or without. */
  function NextTake(s: State, th: Thread): Move
    requires InTake(th)
  {
    match th
    case RevealTake(tid, sent) =>
      if Stored(s, tid) then Go(Deliver(tid, s.redis.blobs[tid].data, Holder(sent))) else Go(Close(tid, Expired))
    case ReplyTake(tid, user, admin) =>
      if Stored(s, tid) then Go(Deliver(tid, s.redis.blobs[tid].data, Staff(user, admin))) else End
    case Close(_, _) => End
    case Deliver(_, _, _) => End
  }

  function NextRevoke(s: State, th: Thread): Move
    requires InRevoke(th)
  {
    match th
    case RevokeSelect(tid, user, admin) =>
      if tid in s.rows && MayTouch(user, admin, s.rows[tid].owner) && s.rows[tid].status == Active
      then Go(RevokeDrop(tid, user, admin)) else End
    case RevokeDrop(tid, user, admin) => Go(RevokeWrite(tid, user, admin))
    case RevokeWrite(_, _, _) => End
  }

  function NextLoad(s: State, th: Thread): Move
    requires InLoad(th)
  {
    match th
    case LoadSelect(rid, payload) =>
      if rid in s.reqs && s.reqs[rid].status == Open then Go(LoadCheck(rid, s.reqs[rid], payload)) else End
    case LoadCheck(rid, req, payload) =>
      if req.expires <= s.redis.now then Go(LoadExpire(rid))
      else if payload.Some? then Go(SubmitLimit(rid, req, payload.value))
      else End
    case LoadExpire(_) => End
  }

  function NextSubmit(s: State, th: Thread, env: Env): Move
    requires InSubmit(th)
  {
    match th
    case SubmitLimit(rid, req, data) =>
      if env.throttled || !Fits(data) then End else Go(SubmitPut(rid, req, data, Max(60, req.expires - s.redis.now)))
    case SubmitPut(rid, req, _, _) => Go(SubmitInsert(rid, req))
    case SubmitInsert(rid, _) => if OfReply(rid) in s.rows then End else Go(SubmitFulfil(rid))
    case SubmitFulfil(_) => End
  }

  function NextStaff(s: State, th: Thread, env: Env): Move
    requires InStaff(th)
  {
    match th
    case AskInsert(_) => if env.token in s.minted then Wait else End
    case ReplySelect(rid, user, admin) =>
      if rid in s.reqs && MayTouch(user, admin, s.reqs[rid].owner)
         && s.reqs[rid].status == Fulfilled && s.reqs[rid].reply.Some?
      then Go(ReplyTake(s.reqs[rid].reply.value, user, admin)) else End
    case WithdrawSelect(rid, user, admin) =>
      if rid in s.reqs && MayTouch(user, admin, s.reqs[rid].owner) && s.reqs[rid].status == Open
      then Go(WithdrawWrite(rid, user, admin)) else End
    case WithdrawWrite(_, _, _) => End
  }

  function Next(s: State, th: Thread, env: Env): Move {
    if InCreate(th) then NextCreate(s, th, env)
    else if InMeta(th) then NextMeta(s, th, env)
    else if InReveal(th) then NextReveal(s, th)
    else if InFail(th) then NextFail(s, th)
    else if InTake(th) then NextTake(s, th)
    else if InRevoke(th) then NextRevoke(s, th)
    else if InLoad(th) then NextLoad(s, th)
    else if InSubmit(th) then NextSubmit(s, th, env)
    else NextStaff(s, th, env)
  }

  /** One step of thread `p`: its command and its move, both judged in the state before. */
  function Step(w: World, p: nat, th: Thread, env: Env): World {
    Place(w.(state := Effect(w.state, th, env)), p, Next(w.state, th, env))
  }

  function Begin(w: World, p: nat, call: Call): World {
    Place(w.(state := Enter(w.state, call)), p, First(w.state, call))
  }

  function Apply(w: World, a: Action): World {
    match a
    case Start(p, call) => if p in w.threads then w else Begin(w, p, call)
    case Do(p, env) => if p in w.threads then Step(w, p, w.threads[p], env) else w
    case Sweep => w.(state := SweepRows(w.state))
    case Tock => w.(state := Pass(w.state))
  }

  /** The world after a run, last action last. */
  function Run(w: World, acts: seq<Action>): World {
    if acts == [] then w else Apply(Run(w, acts[..|acts| - 1]), acts[|acts| - 1])
  }
}
