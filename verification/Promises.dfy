/** What each handler promises its caller when nothing comes between its statements: every
    answer with exactly when it is given, and everything it leaves behind. Written out on the
    two stores, with the numbers of the configuration, so that neither the big steps nor the
    steps of the protocol are needed to read it. */
module Promises {
  import opened Domain
  import opened Store
  import opened Protocol
  import opened Atomic

  ghost predicate Same(s: State, s': State) {
    s'.redis == s.redis && s'.rows == s.rows && s'.reqs == s.reqs
  }

  /** The row may be shown and revealed, as far as the row goes. */
  predicate Live(s: State, tid: Tid) {
    tid in s.rows && s.rows[tid].status == Active && s.redis.now < s.rows[tid].expires
  }

  predicate Overdue(s: State, tid: Tid) {
    tid in s.rows && s.rows[tid].status == Active && s.rows[tid].expires <= s.redis.now
  }

  /** The row's status is now `to`, and that is all. */
  ghost predicate OnlyStatus(s: State, s': State, tid: Tid, to: Status)
    requires tid in s.rows
  {
    s'.redis == s.redis && s'.reqs == s.reqs && s'.rows == s.rows[tid := s.rows[tid].(status := to)]
  }

  /** The number nearest to `want` between `low` and `high`. */
  predicate Nearest(n: int, want: int, low: int, high: int) {
    low <= n <= high && (low <= want <= high ==> n == want) && (want < low ==> n == low) && (want > high ==> n == high)
  }

  // --------------------------------------------------------------- create_secret

  ghost predicate CreateDone(s: State, s': State, answer: Answer, user: User, data: Bytes, want: int,
                             verifier: Option<Bytes>, maxAttempts: int, token: nat)
  {
    var tid := OfToken(token);
    if 0 < |data| <= 5_242_880 && 1 <= maxAttempts <= 20 then
      && answer == Created(tid) && tid in s'.rows
      && var row := s'.rows[tid];
      && row.owner == user && row.status == Active && row.maxAttempts == maxAttempts && row.failed == 0
      && row.stored == (match verifier case None => None case Some(v) => Some(Sha256(v)))
      && Nearest(row.expires - s.redis.now, want, 60, 2_592_000)
      && s'.rows == s.rows[tid := row] && s'.reqs == s.reqs
      && s'.redis == s.redis.(blobs := s.redis.blobs[tid := Blob(data, row.expires)])
    else
      answer == Refused && Same(s, s')
  }

  /** A link's row is its creator's, its deadline the nearest allowed to what was asked, and its
      bytes live exactly as long. */
  lemma CreateDoes(s: State, user: User, data: Bytes, want: int, verifier: Option<Bytes>, maxAttempts: int, token: nat)
    ensures var (s', answer) := Create(s, user, data, want, verifier, maxAttempts, token);
            CreateDone(s, s', answer, user, data, want, verifier, maxAttempts, token)
  {
  }

  // ----------------------------------------------------------------- secret_meta

  ghost predicate MetaDone(s: State, s': State, answer: Answer, tid: Tid, ticket: Ticket) {
    if tid !in s.rows then answer == NotFound && Same(s, s')
    else if s.rows[tid].status != Active then answer == GoneAlready(s.rows[tid].status) && Same(s, s')
    else if Live(s, tid) && Stored(s, tid) then
      && answer == Ticket_(ticket, s.rows[tid].maxAttempts - s.rows[tid].failed)
      && s'.rows == s.rows && s'.reqs == s.reqs
      && s'.redis == s.redis.(tickets := s.redis.tickets[ticket := Slot(tid, s.redis.now + 300)])
    else answer == GoneExpired && OnlyStatus(s, s', tid, Expired)
  }

  lemma MetaDoes(s: State, tid: Tid, ticket: Ticket)
    ensures var (s', answer) := Meta(s, tid, ticket); MetaDone(s, s', answer, tid, ticket)
  {
  }

  // --------------------------------------------------------------- reveal_secret

  /** The verifier that was sent is the preimage of the stored digest, if there is one. */
  predicate Right(sent: Option<Bytes>, stored: Option<Digest>) {
    stored.Some? ==> sent.Some? && sent.value != [] && Sha256(sent.value) == stored.value
  }

  ghost predicate RevealDone(s: State, s': State, answer: Answer, tid: Tid, ticket: Ticket, sent: Option<Bytes>) {
    if tid !in s.rows then answer == NotFound && Same(s, s')
    else if s.rows[tid].status != Active then answer == GoneAlready(s.rows[tid].status) && Same(s, s')
    else if Overdue(s, tid) then answer == GoneExpired && OnlyStatus(s, s', tid, Expired)
    else
      // whatever comes of it, the ticket is spent
      && s'.reqs == s.reqs && s'.redis.now == s.redis.now && s'.redis.tickets == s.redis.tickets - {ticket}
      && if !(ticket in s.redis.tickets && s.redis.tickets[ticket].tid == tid) then
           answer == BadTicket && s'.rows == s.rows && s'.redis.blobs == s.redis.blobs && s'.redis.fails == s.redis.fails
         else if Right(sent, s.rows[tid].stored) then OpenDone(s, s', answer, tid)
         else FailDone(s, s', answer, tid)
  }

  ghost predicate OpenDone(s: State, s': State, answer: Answer, tid: Tid)
    requires tid in s.rows
  {
    && s'.redis.fails == s.redis.fails
    && if Stored(s, tid) then
         && answer == Bytes_(s.redis.blobs[tid].data) && s'.redis.blobs == s.redis.blobs - {tid}
         && s'.rows == s.rows[tid := s.rows[tid].(status := Viewed)]
       else
         answer == GoneExpired && s'.redis.blobs == s.redis.blobs && s'.rows == s.rows[tid := s.rows[tid].(status := Expired)]
  }

  /** The counters after one more failure. */
  ghost predicate OneMoreFail(r: Redis, fails: map<Tid, Counter>, tid: Tid, expires: int) {
    var n := FailsOf(r, tid) + 1;
    && tid in fails && fails == r.fails[tid := fails[tid]] && fails[tid].n == n
    && fails[tid].death == if n > 1 then r.fails[tid].death
                           else if expires - r.now > 60 then Some(expires) else Some(r.now + 60)
  }

  /** One more failure is counted, in Redis and in the row; the first gives the counter the
      time that is left, the last allowed one destroys. */
  ghost predicate FailDone(s: State, s': State, answer: Answer, tid: Tid)
    requires tid in s.rows
  {
    var row, n := s.rows[tid], FailsOf(s.redis, tid) + 1;
    if n < row.maxAttempts then
      && answer == WrongPassphrase(row.maxAttempts - n)
      && s'.rows == s.rows[tid := row.(failed := n)] && s'.redis.blobs == s.redis.blobs
      && OneMoreFail(s.redis, s'.redis.fails, tid, row.expires)
    else
      && answer == DestroyedNow
      && s'.rows == s.rows[tid := row.(failed := n, status := Destroyed)]
      && s'.redis.blobs == s.redis.blobs - {tid} && s'.redis.fails == s.redis.fails - {tid}
  }

  lemma OpenDoes(s: State, tid: Tid, who: Recipient)
    requires tid in s.rows && s.rows[tid].status == Active
    ensures var (s', answer) := Atomic.Open(s, tid, who);
            OpenDone(s, s', answer, tid) && s'.reqs == s.reqs && s'.redis.now == s.redis.now && s'.redis.tickets == s.redis.tickets
  {
  }

  lemma FirstBump(s: State, tid: Tid, row: Row)
    requires FailsOf(s.redis, tid) == 0
    ensures var s' := Bumped(s, tid, row);
            && OneMoreFail(s.redis, s'.redis.fails, tid, row.expires)
            && s'.redis == s.redis.(fails := s'.redis.fails) && s'.rows == s.rows && s'.reqs == s.reqs
  {
    var s1 := Wrong(s, tid);
    assert tid in s1.redis.fails && s1.redis.fails[tid].n == 1;
    assert s1.redis == s.redis.(fails := s1.redis.fails) && s1.rows == s.rows && s1.reqs == s.reqs;
  }

  lemma BumpDoes(s: State, tid: Tid, row: Row)
    ensures var s' := Bumped(s, tid, row);
            && OneMoreFail(s.redis, s'.redis.fails, tid, row.expires)
            && s'.redis == s.redis.(fails := s'.redis.fails) && s'.rows == s.rows && s'.reqs == s.reqs
  {
    if FailsOf(s.redis, tid) == 0 { FirstBump(s, tid, row); }
  }

  lemma CountDoes(s: State, tid: Tid)
    requires tid in s.rows
    ensures var s', row := Counted(s, tid, s.rows[tid]), s.rows[tid];
            && s'.rows == s.rows[tid := row.(failed := FailsOf(s.redis, tid) + 1)] && s'.reqs == s.reqs
            && OneMoreFail(s.redis, s'.redis.fails, tid, row.expires) && s'.redis == s.redis.(fails := s'.redis.fails)
  {
    BumpDoes(s, tid, s.rows[tid]);
  }

  lemma WrongDoes(s: State, tid: Tid)
    requires tid in s.rows && s.rows[tid].status == Active && FailsOf(s.redis, tid) + 1 < s.rows[tid].maxAttempts
    ensures var (s', answer) := Fail(s, tid, s.rows[tid]);
            FailDone(s, s', answer, tid) && s'.reqs == s.reqs && s'.redis.now == s.redis.now && s'.redis.tickets == s.redis.tickets
  {
    CountDoes(s, tid);
  }

  lemma DestroyDoes(s: State, tid: Tid)
    requires tid in s.rows && s.rows[tid].status == Active
    ensures var s' := Mark(Drop(s, tid), tid, Destroyed);
            && s'.rows == s.rows[tid := s.rows[tid].(status := Destroyed)] && s'.reqs == s.reqs
            && s'.redis == s.redis.(blobs := s.redis.blobs - {tid}, fails := s.redis.fails - {tid})
  {
  }

  lemma LastWrongDoes(s: State, tid: Tid)
    requires tid in s.rows && s.rows[tid].status == Active && FailsOf(s.redis, tid) + 1 >= s.rows[tid].maxAttempts
    ensures var (s', answer) := Fail(s, tid, s.rows[tid]);
            FailDone(s, s', answer, tid) && s'.reqs == s.reqs && s'.redis.now == s.redis.now && s'.redis.tickets == s.redis.tickets
  {
    CountDoes(s, tid);
    DestroyDoes(Counted(s, tid, s.rows[tid]), tid);
    assert Counted(s, tid, s.rows[tid]).redis.fails - {tid} == s.redis.fails - {tid};
  }

  lemma FailDoes(s: State, tid: Tid)
    requires tid in s.rows && s.rows[tid].status == Active
    ensures var (s', answer) := Fail(s, tid, s.rows[tid]);
            FailDone(s, s', answer, tid) && s'.reqs == s.reqs && s'.redis.now == s.redis.now && s'.redis.tickets == s.redis.tickets
  {
    if FailsOf(s.redis, tid) + 1 < s.rows[tid].maxAttempts { WrongDoes(s, tid); } else { LastWrongDoes(s, tid); }
  }

  lemma RevealShut(s: State, tid: Tid, ticket: Ticket, sent: Option<Bytes>)
    requires !Live(s, tid)
    ensures var (s', answer) := Reveal(s, tid, ticket, sent); RevealDone(s, s', answer, tid, ticket, sent)
  {
  }

  lemma RevealStray(s: State, tid: Tid, ticket: Ticket, sent: Option<Bytes>)
    requires Live(s, tid) && TicketTid(s.redis, ticket) != Some(tid)
    ensures var (s', answer) := Reveal(s, tid, ticket, sent); RevealDone(s, s', answer, tid, ticket, sent)
  {
  }

  lemma SpendDoes(s: State, ticket: Ticket, tid: Tid)
    ensures var s1 := Consume(s, ticket, tid);
            s1.rows == s.rows && s1.reqs == s.reqs && s1.redis == s.redis.(tickets := s.redis.tickets - {ticket})
  {
  }

  lemma RevealOpens(s: State, tid: Tid, ticket: Ticket, sent: Option<Bytes>)
    requires Live(s, tid) && TicketTid(s.redis, ticket) == Some(tid) && Right(sent, s.rows[tid].stored)
    ensures var (s', answer) := Reveal(s, tid, ticket, sent); RevealDone(s, s', answer, tid, ticket, sent)
  {
    SpendDoes(s, ticket, tid);
    OpenDoes(Consume(s, ticket, tid), tid, Holder(sent));
    assert Reveal(s, tid, ticket, sent) == Atomic.Open(Consume(s, ticket, tid), tid, Holder(sent));
  }

  lemma RevealFails(s: State, tid: Tid, ticket: Ticket, sent: Option<Bytes>)
    requires Live(s, tid) && TicketTid(s.redis, ticket) == Some(tid) && !Right(sent, s.rows[tid].stored)
    ensures var (s', answer) := Reveal(s, tid, ticket, sent); RevealDone(s, s', answer, tid, ticket, sent)
  {
    SpendDoes(s, ticket, tid);
    FailDoes(Consume(s, ticket, tid), tid);
    assert Reveal(s, tid, ticket, sent) == Fail(Consume(s, ticket, tid), tid, s.rows[tid]);
  }

  lemma RevealDoes(s: State, tid: Tid, ticket: Ticket, sent: Option<Bytes>)
    ensures var (s', answer) := Reveal(s, tid, ticket, sent); RevealDone(s, s', answer, tid, ticket, sent)
  {
    if !Live(s, tid) { RevealShut(s, tid, ticket, sent); }
    else if TicketTid(s.redis, ticket) != Some(tid) { RevealStray(s, tid, ticket, sent); }
    else if Right(sent, s.rows[tid].stored) { RevealOpens(s, tid, ticket, sent); }
    else { RevealFails(s, tid, ticket, sent); }
  }

  // --------------------------------------------------------------- revoke_secret

  ghost predicate RevokeDone(s: State, s': State, answer: Answer, tid: Tid, user: User, admin: bool) {
    if tid !in s.rows || !(user == s.rows[tid].owner || admin) then answer == NotFound && Same(s, s')
    else if s.rows[tid].status != Active then answer == Conflict && Same(s, s')
    else
      && answer == NoContent && s'.reqs == s.reqs
      && s'.rows == s.rows[tid := s.rows[tid].(status := Revoked)]
      && s'.redis == s.redis.(blobs := s.redis.blobs - {tid}, fails := s.redis.fails - {tid})
  }

  lemma RevokeDoes(s: State, tid: Tid, user: User, admin: bool)
    ensures var (s', answer) := Atomic.RevokeSecret(s, tid, user, admin); RevokeDone(s, s', answer, tid, user, admin)
  {
  }

  // -------------------------------------------------------------- create_request

  ghost predicate AskDone(s: State, s': State, answer: Answer, user: User, expiresIn: Option<int>, pubkey: Bytes, token: nat) {
    var rid := OfToken(token);
    if pubkey == [] then answer == Conflict && Same(s, s')
    else
      && answer == Created(rid) && rid in s'.reqs
      && var req := s'.reqs[rid];
      && req.pubkey == pubkey && req.owner == user && req.status == RequestStatus.Open && req.reply == None
      && Nearest(req.expires - s.redis.now, if expiresIn.Some? && expiresIn.value != 0 then expiresIn.value else 604_800, 3600, 2_592_000)
      && s'.redis == s.redis && s'.rows == s.rows && s'.reqs == s.reqs[rid := req]
  }

  /** The caller's whole key is pinned. */
  lemma AskDoes(s: State, user: User, expiresIn: Option<int>, pubkey: Bytes, token: nat)
    ensures var (s', answer) := Ask(s, user, expiresIn, pubkey, token); AskDone(s, s', answer, user, expiresIn, pubkey, token)
  {
  }

  // -------------------------------------------- _load_open_request and its callers

  predicate Answerable(s: State, rid: Tid) {
    rid in s.reqs && s.reqs[rid].status == RequestStatus.Open && s.redis.now < s.reqs[rid].expires
  }

  /** What a caller ends with when the request cannot be answered. */
  ghost predicate LoadStops(s: State, s': State, answer: Answer, rid: Tid) {
    if rid !in s.reqs then answer == NotFound && Same(s, s')
    else if s.reqs[rid].status != RequestStatus.Open then answer == GoneRequest(s.reqs[rid].status) && Same(s, s')
    else
      && answer == GoneExpired && s'.redis == s.redis && s'.rows == s.rows
      && s'.reqs == s.reqs[rid := s.reqs[rid].(status := Lapsed)]
  }

  ghost predicate LoadDone(s: State, s': State, stop: Option<Answer>, rid: Tid) {
    if Answerable(s, rid) then stop == None && Same(s, s') else stop.Some? && LoadStops(s, s', stop.value, rid)
  }

  lemma LoadDoes(s: State, rid: Tid)
    ensures var (s', stop) := Load(s, rid); LoadDone(s, s', stop, rid)
  {
  }

  ghost predicate ViewDone(s: State, s': State, answer: Answer, rid: Tid) {
    if Answerable(s, rid) then answer == Shown(s.reqs[rid].pubkey) && Same(s, s') else LoadStops(s, s', answer, rid)
  }

  /** The client's page is given the pinned key. */
  lemma ViewDoes(s: State, rid: Tid)
    ensures var (s', answer) := View(s, rid); ViewDone(s, s', answer, rid)
  {
  }

  ghost predicate SubmitDone(s: State, s': State, answer: Answer, rid: Tid, data: Bytes, throttled: bool) {
    if !Answerable(s, rid) then LoadStops(s, s', answer, rid)
    else if throttled then answer == Throttled && Same(s, s')
    else if !(0 < |data| <= 5_242_880) then answer == Refused && Same(s, s')
    else
      var req, tid := s.reqs[rid], OfReply(rid);
      && s'.redis == s.redis.(blobs := s.redis.blobs[tid := Blob(data, if req.expires - s.redis.now > 60 then req.expires else s.redis.now + 60)])
      && if tid in s.rows then answer == Crashed && s'.rows == s.rows && s'.reqs == s.reqs
         else
           && answer == Accepted
           && s'.rows == s.rows[tid := Row(req.owner, req.expires, Active, None, 5, 0)]
           && s'.reqs == s.reqs[rid := req.(status := Fulfilled, reply := Some(tid))]
  }

  /** An accepted submission is stored for the request's owner, up to the request's deadline. */
  lemma SubmitDoes(s: State, rid: Tid, data: Bytes, throttled: bool)
    ensures var (s', answer) := Submit(s, rid, data, throttled); SubmitDone(s, s', answer, rid, data, throttled)
  {
  }

  // ------------------------------------------------------------------- take_reply

  ghost predicate TakeReplyDone(s: State, s': State, answer: Answer, rid: Tid, user: User, admin: bool) {
    if rid !in s.reqs || !(user == s.reqs[rid].owner || admin) then answer == NotFound && Same(s, s')
    else if s.reqs[rid].status != Fulfilled || s.reqs[rid].reply == None then answer == Conflict && Same(s, s')
    else
      var tid := s.reqs[rid].reply.value;
      if !Stored(s, tid) then answer == GoneExpired && Same(s, s')
      else
        && answer == Bytes_(s.redis.blobs[tid].data)
        && s'.redis == s.redis.(blobs := s.redis.blobs - {tid}) && s'.reqs == s.reqs
        && s'.rows == if tid in s.rows && s.rows[tid].status == Active then s.rows[tid := s.rows[tid].(status := Viewed)] else s.rows
  }

  /** Only the request's owner or an administrator is given the bytes, exactly while they are there. */
  lemma TakeReplyDoes(s: State, rid: Tid, user: User, admin: bool)
    ensures var (s', answer) := Atomic.TakeReply(s, rid, user, admin); TakeReplyDone(s, s', answer, rid, user, admin)
  {
  }

  // --------------------------------------------------------------- revoke_request

  ghost predicate WithdrawDone(s: State, s': State, answer: Answer, rid: Tid, user: User, admin: bool) {
    if rid !in s.reqs || !(user == s.reqs[rid].owner || admin) then answer == NotFound && Same(s, s')
    else if s.reqs[rid].status != RequestStatus.Open then answer == Conflict && Same(s, s')
    else
      && answer == NoContent && s'.redis == s.redis && s'.rows == s.rows
      && s'.reqs == s.reqs[rid := s.reqs[rid].(status := Withdrawn)]
  }

  lemma WithdrawDoes(s: State, rid: Tid, user: User, admin: bool)
    ensures var (s', answer) := WithdrawRequest(s, rid, user, admin); WithdrawDone(s, s', answer, rid, user, admin)
  {
  }

  // ------------------------------------------------------- the sweeper, and a second

  ghost predicate SweepDone(s: State, s': State) {
    && s'.redis == s.redis && s'.reqs == s.reqs && s'.rows.Keys == s.rows.Keys
    && forall t :: t in s.rows ==>
         s'.rows[t] == if s.rows[t].status == Active && s.rows[t].expires <= s.redis.now then s.rows[t].(status := Expired) else s.rows[t]
  }

  lemma SweepDoes(s: State)
    ensures SweepDone(s, SweepRows(s))
  {
  }

  /** A second later the clock is one second on, a key is there exactly if it was and its time
      has not come, and nothing in Postgres has changed. */
  ghost predicate SecondDone(s: State, s': State) {
    && s'.rows == s.rows && s'.reqs == s.reqs && s'.redis.now == s.redis.now + 1
    && (forall t :: t in s'.redis.blobs <==> t in s.redis.blobs && s.redis.blobs[t].death > s.redis.now + 1)
    && (forall t :: t in s'.redis.blobs ==> s'.redis.blobs[t] == s.redis.blobs[t])
    && (forall t :: t in s'.redis.fails <==> t in s.redis.fails && (s.redis.fails[t].death == None || s.redis.fails[t].death.value > s.redis.now + 1))
    && (forall t :: t in s'.redis.fails ==> s'.redis.fails[t] == s.redis.fails[t])
    && (forall t :: t in s'.redis.tickets <==> t in s.redis.tickets && s.redis.tickets[t].death > s.redis.now + 1)
    && (forall t :: t in s'.redis.tickets ==> s'.redis.tickets[t] == s.redis.tickets[t])
  }

  lemma SecondDoes(s: State)
    ensures SecondDone(s, Pass(s))
  {
  }
}
