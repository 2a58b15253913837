/** What an interleaved run does not keep, each with a run that shows it. One handler at a time
    the same claims hold (ViewedIffDelivered, WrongVerifierCosts, ReplyOnce); of interleaved runs
    Delivery, Theorems.GuessesExactly and Replies say when they hold, or how far they fail. The
    last run needs no interleaving at all: a reply handed to a caller who shows nothing. */
module Races {
  import opened Domain
  import opened Store
  import opened Protocol
  import opened Atomic
  import opened Uninterrupted

  /** A world that some run from the start comes to. */
  ghost predicate Reaches(w: World) {
    exists acts :: Run(Init(), acts) == w
  }

  lemma Further(w: World, a: Action)
    requires Reaches(w)
    ensures Reaches(Apply(w, a))
  {
    var acts :| Run(Init(), acts) == w;
    assert (acts + [a])[..|acts + [a]| - 1] == acts;
    assert Run(Init(), acts + [a]) == Apply(w, a);
  }

  lemma {:induction false} DriveReaches(w: World, p: nat, env: Env, n: nat)
    requires Reaches(w)
    ensures Reaches(Drive(w, p, env, n))
  {
    if n > 0 {
      DriveReaches(w, p, env, n - 1);
      Further(Drive(w, p, env, n - 1), Do(p, env));
    }
  }

  /** A handler that starts and ends with no step of another in between. */
  lemma HandleReaches(s: State, ths: map<nat, Thread>, p: nat, call: Call, env: Env)
    requires Reaches(World(s, ths)) && p !in ths && Draws(s, env) && OfToken(env.token) !in s.rows
    ensures Reaches(World(Handle(s, call, env).0, ths))
  {
    var w := World(s, ths);
    var n := HandleIsRun(w, p, call, env);
    Further(w, Start(p, call));
    DriveReaches(Apply(w, Start(p, call)), p, env, n);
  }

  // ------------------------------------------- two reveals that both pass the check

  const DATA: Bytes := [7]
  const SECRET := OfToken(0)
  const ANY := Env(9, 9, false)

  ghost predicate Live(s: State) {
    && SECRET in s.rows && s.rows[SECRET].status == Active
    && s.redis.now < s.rows[SECRET].expires
  }

  /** The bytes are there, the row is live, and two tickets are out. */
  ghost predicate TwoTickets(s: State) {
    && Stored(s, SECRET) && s.redis.blobs[SECRET].data == DATA && Live(s)
    && TicketTid(s.redis, 0) == Some(SECRET) && TicketTid(s.redis, 1) == Some(SECRET)
  }

  lemma SomeTwoTickets(verifier: Option<Bytes>, maxAttempts: nat) returns (s: State)
    requires 1 <= maxAttempts <= 20
    ensures Reaches(World(s, map[])) && TwoTickets(s) && Acc(s, SECRET).wrong == 0 && SECRET !in s.redis.fails
    ensures s.redis.now == 0 && s.rows[SECRET].expires == 3600 && s.rows[SECRET].maxAttempts == maxAttempts
    ensures s.rows[SECRET].stored == if verifier.Some? then Some(Sha256(verifier.value)) else None
  {
    var s0 := Init().state;
    assert Run(Init(), []) == World(s0, map[]);
    var create := CallCreate(1, DATA, 3600, verifier, maxAttempts);
    HandleReaches(s0, map[], 0, create, Env(0, 0, false));
    var s1 := Handle(s0, create, Env(0, 0, false)).0;
    HandleReaches(s1, map[], 0, CallMeta(SECRET), Env(1, 0, false));
    var s2 := Handle(s1, CallMeta(SECRET), Env(1, 0, false)).0;
    HandleReaches(s2, map[], 0, CallMeta(SECRET), Env(1, 1, false));
    s := Handle(s2, CallMeta(SECRET), Env(1, 1, false)).0;
  }

  /** One step of thread `p`, which goes on. */
  lemma OneStep(w: World, p: nat, w': World)
    requires Reaches(w) && p in w.threads
    requires w'.state == Effect(w.state, w.threads[p], ANY)
    requires Next(w.state, w.threads[p], ANY).Go?
    requires w'.threads == w.threads[p := Next(w.state, w.threads[p], ANY).th]
    ensures Reaches(w')
  {
    Further(w, Do(p, ANY));
  }

  /** The last step of thread `p`. */
  lemma LastStep(w: World, p: nat, w': World)
    requires Reaches(w) && p in w.threads
    requires w'.state == Effect(w.state, w.threads[p], ANY)
    requires Next(w.state, w.threads[p], ANY).End?
    requires w'.threads == w.threads - {p}
    ensures Reaches(w')
  {
    Further(w, Do(p, ANY));
  }

  lemma Enters(s: State, ths: map<nat, Thread>, p: nat, ticket: Ticket)
    requires Reaches(World(s, ths)) && p !in ths
    ensures Reaches(World(s, ths[p := RevealSelect(SECRET, ticket, None)]))
  {
    Further(World(s, ths), Start(p, CallReveal(SECRET, ticket, None)));
  }

  lemma Selects(s: State, ths: map<nat, Thread>, p: nat, ticket: Ticket)
    requires Live(s) && Reaches(World(s, ths[p := RevealSelect(SECRET, ticket, None)]))
    ensures Reaches(World(s, ths[p := RevealCheck(SECRET, ticket, None, s.rows[SECRET])]))
  {
    OneStep(World(s, ths[p := RevealSelect(SECRET, ticket, None)]), p,
            World(s, ths[p := RevealCheck(SECRET, ticket, None, s.rows[SECRET])]));
  }

  lemma Checks(s: State, ths: map<nat, Thread>, p: nat, ticket: Ticket, row: Row)
    requires s.redis.now < row.expires && Reaches(World(s, ths[p := RevealCheck(SECRET, ticket, None, row)]))
    ensures Reaches(World(s, ths[p := RevealTicket(SECRET, ticket, None, row)]))
  {
    OneStep(World(s, ths[p := RevealCheck(SECRET, ticket, None, row)]), p,
            World(s, ths[p := RevealTicket(SECRET, ticket, None, row)]));
  }

  lemma Consumes(s: State, ths: map<nat, Thread>, p: nat, ticket: Ticket, row: Row)
    requires TicketTid(s.redis, ticket) == Some(SECRET) && Reaches(World(s, ths[p := RevealTicket(SECRET, ticket, None, row)]))
    ensures Reaches(World(Consume(s, ticket, SECRET), ths[p := RevealVerify(SECRET, None, row)]))
  {
    OneStep(World(s, ths[p := RevealTicket(SECRET, ticket, None, row)]), p,
            World(Consume(s, ticket, SECRET), ths[p := RevealVerify(SECRET, None, row)]));
  }

  /** A reveal with a good ticket, up to the check of its verifier. */
  lemma Approach(s: State, ths: map<nat, Thread>, p: nat, ticket: Ticket)
    requires Reaches(World(s, ths)) && p !in ths && Live(s) && TicketTid(s.redis, ticket) == Some(SECRET)
    ensures Reaches(World(Consume(s, ticket, SECRET), ths[p := RevealVerify(SECRET, None, s.rows[SECRET])]))
  {
    var row := s.rows[SECRET];
    Enters(s, ths, p, ticket);
    Selects(s, ths, p, ticket);
    Checks(s, ths, p, ticket, row);
    Consumes(s, ths, p, ticket, row);
  }

  lemma Verifies(s: State, ths: map<nat, Thread>, p: nat, row: Row)
    requires row.stored == None && Reaches(World(s, ths[p := RevealVerify(SECRET, None, row)]))
    ensures Reaches(World(s, ths[p := RevealTake(SECRET, None)]))
  {
    OneStep(World(s, ths[p := RevealVerify(SECRET, None, row)]), p, World(s, ths[p := RevealTake(SECRET, None)]));
  }

  lemma Passes(s: State, ths: map<nat, Thread>, p: nat, ticket: Ticket)
    requires Reaches(World(s, ths)) && p !in ths && Live(s) && TicketTid(s.redis, ticket) == Some(SECRET)
    requires s.rows[SECRET].stored == None
    ensures Reaches(World(Consume(s, ticket, SECRET), ths[p := RevealTake(SECRET, None)]))
  {
    Approach(s, ths, p, ticket);
    Verifies(Consume(s, ticket, SECRET), ths, p, s.rows[SECRET]);
  }

  lemma WinnerTakes(s: State, ths: map<nat, Thread>, p: nat)
    requires Reaches(World(s, ths[p := RevealTake(SECRET, None)]))
    requires Stored(s, SECRET) && s.redis.blobs[SECRET].data == DATA
    ensures Reaches(World(Take(s, SECRET), ths[p := Deliver(SECRET, DATA, Holder(None))]))
  {
    OneStep(World(s, ths[p := RevealTake(SECRET, None)]), p,
            World(Take(s, SECRET), ths[p := Deliver(SECRET, DATA, Holder(None))]));
  }

  lemma LoserTakes(s: State, ths: map<nat, Thread>, p: nat)
    requires Reaches(World(s, ths[p := RevealTake(SECRET, None)])) && !Stored(s, SECRET)
    ensures Reaches(World(s, ths[p := Close(SECRET, Expired)]))
  {
    OneStep(World(s, ths[p := RevealTake(SECRET, None)]), p, World(s, ths[p := Close(SECRET, Expired)]));
  }

  lemma LoserMarks(s: State, ths: map<nat, Thread>, p: nat)
    requires Reaches(World(s, ths[p := Close(SECRET, Expired)])) && p !in ths
    ensures Reaches(World(Mark(s, SECRET, Expired), ths))
  {
    LastStep(World(s, ths[p := Close(SECRET, Expired)]), p, World(Mark(s, SECRET, Expired), ths));
  }

  lemma WinnerMarks(s: State, ths: map<nat, Thread>, p: nat)
    requires Reaches(World(s, ths[p := Deliver(SECRET, DATA, Holder(None))])) && p !in ths
    ensures Reaches(World(WithServed(Mark(s, SECRET, Viewed), Serving(SECRET, DATA, Holder(None))), ths))
  {
    LastStep(World(s, ths[p := Deliver(SECRET, DATA, Holder(None))]), p,
             World(WithServed(Mark(s, SECRET, Viewed), Serving(SECRET, DATA, Holder(None))), ths));
  }

  lemma BothPass(s: State)
    requires Reaches(World(s, map[])) && TwoTickets(s) && s.rows[SECRET].stored == None
    ensures Reaches(World(Consume(Consume(s, 0, SECRET), 1, SECRET), map[1 := RevealTake(SECRET, None)][0 := RevealTake(SECRET, None)]))
  {
    Passes(s, map[], 0, 0);
    Passes(Consume(s, 0, SECRET), map[][0 := RevealTake(SECRET, None)], 1, 1);
    assert map[][0 := RevealTake(SECRET, None)][1 := RevealTake(SECRET, None)]
        == map[1 := RevealTake(SECRET, None)][0 := RevealTake(SECRET, None)];
  }

  lemma BothTake(s: State)
    requires Reaches(World(s, map[1 := RevealTake(SECRET, None)][0 := RevealTake(SECRET, None)]))
    requires Stored(s, SECRET) && s.redis.blobs[SECRET].data == DATA
    ensures Reaches(World(Ended(s), map[]))
  {
    var s1, take, done := Take(s, SECRET), RevealTake(SECRET, None), Deliver(SECRET, DATA, Holder(None));
    WinnerTakes(s, map[1 := take], 0);
    assert map[1 := take][0 := done] == map[0 := done][1 := take];
    LoserTakes(s1, map[0 := done], 1);
    LoserMarks(s1, map[0 := done], 1);
    WinnerMarks(Mark(s1, SECRET, Expired), map[], 0);
  }

  /** "Delivered implies viewed" fails: the loser of two reveals finds no bytes and marks
      the row expired before the winner has marked it viewed. */
  lemma DeliveredYetExpired() returns (s: State)
    ensures Reaches(World(s, map[]))
    ensures Acc(s, SECRET).takes >= 1 && Serving(SECRET, DATA, Holder(None)) in s.served
    ensures SECRET in s.rows && s.rows[SECRET].status == Expired && s.redis.now < s.rows[SECRET].expires
  {
    var s0 := SomeTwoTickets(None, 5);
    BothPass(s0);
    var s1 := Consume(Consume(s0, 0, SECRET), 1, SECRET);
    BothTake(s1);
    s := Ended(s1);
    EndsExpired(s1);
  }

  function Ended(s: State): State {
    WithServed(Mark(Mark(Take(s, SECRET), SECRET, Expired), SECRET, Viewed), Serving(SECRET, DATA, Holder(None)))
  }

  lemma EndsExpired(s: State)
    requires Stored(s, SECRET) && Live(s)
    ensures Acc(Ended(s), SECRET).takes >= 1 && Serving(SECRET, DATA, Holder(None)) in Ended(s).served
    ensures SECRET in Ended(s).rows && Ended(s).rows[SECRET].status == Expired && s.redis.now < Ended(s).rows[SECRET].expires
  {
  }

  // ------------------------------------------- two guesses on a budget of one

  lemma Misses(s: State, ths: map<nat, Thread>, p: nat, row: Row)
    requires row.stored.Some? && row.expires == 3600 && s.redis.now == 0
    requires Reaches(World(s, ths[p := RevealVerify(SECRET, None, row)]))
    ensures Reaches(World(s, ths[p := RevealIncr(SECRET, row, 3600)]))
  {
    OneStep(World(s, ths[p := RevealVerify(SECRET, None, row)]), p, World(s, ths[p := RevealIncr(SECRET, row, 3600)]));
  }

  lemma Guesses(s: State, ths: map<nat, Thread>, p: nat, ticket: Ticket)
    requires Reaches(World(s, ths)) && p !in ths && Live(s) && TicketTid(s.redis, ticket) == Some(SECRET)
    requires s.rows[SECRET].stored.Some? && s.rows[SECRET].expires == 3600 && s.redis.now == 0
    ensures Reaches(World(Consume(s, ticket, SECRET), ths[p := RevealIncr(SECRET, s.rows[SECRET], 3600)]))
  {
    Approach(s, ths, p, ticket);
    Misses(Consume(s, ticket, SECRET), ths, p, s.rows[SECRET]);
  }

  lemma CountsFirst(s: State, ths: map<nat, Thread>, p: nat, row: Row)
    requires Reaches(World(s, ths[p := RevealIncr(SECRET, row, 3600)])) && FailsOf(s.redis, SECRET) == 0
    ensures Reaches(World(Wrong(s, SECRET), ths[p := RevealExpire(SECRET, row, 3600, 1)]))
  {
    OneStep(World(s, ths[p := RevealIncr(SECRET, row, 3600)]), p,
            World(Wrong(s, SECRET), ths[p := RevealExpire(SECRET, row, 3600, 1)]));
  }

  lemma CountsNext(s: State, ths: map<nat, Thread>, p: nat, row: Row)
    requires Reaches(World(s, ths[p := RevealIncr(SECRET, row, 3600)])) && FailsOf(s.redis, SECRET) == 1
    ensures Reaches(World(Wrong(s, SECRET), ths[p := RevealStore(SECRET, row, 2)]))
  {
    OneStep(World(s, ths[p := RevealIncr(SECRET, row, 3600)]), p,
            World(Wrong(s, SECRET), ths[p := RevealStore(SECRET, row, 2)]));
  }

  lemma BothGuess(s: State) returns (w: World)
    requires Reaches(World(s, map[])) && TwoTickets(s) && SECRET !in s.redis.fails && Acc(s, SECRET).wrong == 0
    requires s.rows[SECRET].stored.Some? && s.rows[SECRET].expires == 3600 && s.redis.now == 0
    ensures Reaches(w) && w.state == Wrong(Wrong(Consume(Consume(s, 0, SECRET), 1, SECRET), SECRET), SECRET)
  {
    var row, s1, s2 := s.rows[SECRET], Consume(s, 0, SECRET), Consume(Consume(s, 0, SECRET), 1, SECRET);
    var incr, next := RevealIncr(SECRET, row, 3600), RevealExpire(SECRET, row, 3600, 1);
    Guesses(s, map[], 0, 0);
    Guesses(s1, map[][0 := incr], 1, 1);
    assert map[][0 := incr][1 := incr] == map[1 := incr][0 := incr];
    CountsFirst(s2, map[1 := incr], 0, row);
    assert map[1 := incr][0 := next] == map[0 := next][1 := incr];
    CountsNext(Wrong(s2, SECRET), map[0 := next], 1, row);
    w := World(Wrong(Wrong(s2, SECRET), SECRET), map[0 := next][1 := RevealStore(SECRET, row, 2)]);
  }

  /** "At most max_attempts wrong passphrases are ever checked" fails: two reveals that have
      both read the row are both checked on a budget of one, while the bytes are still there. */
  lemma GuessedPastTheLimit() returns (w: World)
    ensures Reaches(w) && Stored(w.state, SECRET)
    ensures SECRET in w.state.rows && w.state.rows[SECRET].maxAttempts == 1 && w.state.redis.now < w.state.rows[SECRET].expires
    ensures Acc(w.state, SECRET).wrong == 2
  {
    var s := SomeTwoTickets(Some([3]), 1);
    w := BothGuess(s);
  }

  // ---------------------------------------------- two submissions to one request

  const RID := OfToken(0)
  const PUBKEY: Bytes := [4]
  const EARLY: Bytes := [1]
  const LATE: Bytes := [2]

  lemma Asked() returns (s: State)
    ensures Reaches(World(s, map[])) && RID in s.reqs && s.reqs[RID] == Request(1, 3600, RequestStatus.Open, None, PUBKEY)
    ensures s.redis.now == 0 && s.rows == map[] && s.minted == {0} && s.issued == map[] && Acc(s, OfReply(RID)) == Fresh
  {
    assert Run(Init(), []) == Init();
    HandleReaches(Init().state, map[], 0, CallAsk(1, Some(3600), PUBKEY), Env(0, 0, false));
    s := Handle(Init().state, CallAsk(1, Some(3600), PUBKEY), Env(0, 0, false)).0;
  }

  lemma Offers(s: State, p: nat)
    requires Reaches(World(s, map[]))
    ensures Reaches(World(Enter(s, CallSubmit(RID, LATE)), map[p := LoadSelect(RID, Some(LATE))]))
  {
    Further(World(s, map[]), Start(p, CallSubmit(RID, LATE)));
    assert map[][p := LoadSelect(RID, Some(LATE))] == map[p := LoadSelect(RID, Some(LATE))];
  }

  lemma Loads(s: State, p: nat)
    requires Reaches(World(s, map[p := LoadSelect(RID, Some(LATE))]))
    requires RID in s.reqs && s.reqs[RID].status == RequestStatus.Open
    ensures Reaches(World(s, map[p := LoadCheck(RID, s.reqs[RID], Some(LATE))]))
  {
    OneStep(World(s, map[p := LoadSelect(RID, Some(LATE))]), p, World(s, map[p := LoadCheck(RID, s.reqs[RID], Some(LATE))]));
  }

  lemma Limits(s: State, p: nat, req: Request)
    requires Reaches(World(s, map[p := LoadCheck(RID, req, Some(LATE))])) && s.redis.now < req.expires
    ensures Reaches(World(s, map[p := SubmitLimit(RID, req, LATE)]))
  {
    OneStep(World(s, map[p := LoadCheck(RID, req, Some(LATE))]), p, World(s, map[p := SubmitLimit(RID, req, LATE)]));
  }

  lemma Uploads(s: State, p: nat, req: Request, ttl: int)
    requires Reaches(World(s, map[p := SubmitLimit(RID, req, LATE)])) && ttl == Max(60, req.expires - s.redis.now)
    ensures Reaches(World(s, map[p := SubmitPut(RID, req, LATE, ttl)]))
  {
    OneStep(World(s, map[p := SubmitLimit(RID, req, LATE)]), p, World(s, map[p := SubmitPut(RID, req, LATE, ttl)]));
  }

  lemma Puts(s: State, p: nat, req: Request, ttl: int)
    requires Reaches(World(s, map[p := SubmitPut(RID, req, LATE, ttl)]))
    ensures Reaches(World(Put(s, OfReply(RID), LATE, ttl), map[p := SubmitInsert(RID, req)]))
  {
    OneStep(World(s, map[p := SubmitPut(RID, req, LATE, ttl)]), p,
            World(Put(s, OfReply(RID), LATE, ttl), map[p := SubmitInsert(RID, req)]));
  }

  lemma InsertFails(s: State, p: nat, req: Request)
    requires Reaches(World(s, map[p := SubmitInsert(RID, req)])) && OfReply(RID) in s.rows
    ensures Reaches(World(s, map[]))
  {
    assert map[p := SubmitInsert(RID, req)] - {p} == map[];
    LastStep(World(s, map[p := SubmitInsert(RID, req)]), p, World(s, map[]));
  }

  lemma LateLoads(s: State, p: nat)
    requires Reaches(World(s, map[])) && RID in s.reqs && s.reqs[RID].status == RequestStatus.Open
    ensures Reaches(World(Enter(s, CallSubmit(RID, LATE)), map[p := LoadCheck(RID, s.reqs[RID], Some(LATE))]))
  {
    Offers(s, p);
    Loads(Enter(s, CallSubmit(RID, LATE)), p);
  }

  lemma LateChecks(s: State, p: nat)
    requires Reaches(World(s, map[])) && RID in s.reqs && s.reqs[RID].status == RequestStatus.Open
    requires s.redis.now < s.reqs[RID].expires
    ensures Reaches(World(Enter(s, CallSubmit(RID, LATE)), map[p := SubmitLimit(RID, s.reqs[RID], LATE)]))
  {
    LateLoads(s, p);
    Limits(Enter(s, CallSubmit(RID, LATE)), p, s.reqs[RID]);
  }

  /** The late submission, up to the point where it will store its bytes. */
  lemma LateArrives(s: State, p: nat, ttl: int)
    requires Reaches(World(s, map[])) && RID in s.reqs && s.reqs[RID].status == RequestStatus.Open
    requires s.redis.now < s.reqs[RID].expires && ttl == Max(60, s.reqs[RID].expires - s.redis.now)
    ensures Reaches(World(Enter(s, CallSubmit(RID, LATE)), map[p := SubmitPut(RID, s.reqs[RID], LATE, ttl)]))
  {
    LateChecks(s, p);
    Uploads(Enter(s, CallSubmit(RID, LATE)), p, s.reqs[RID], ttl);
  }

  /** The early submission, stored and accepted while the late one waits. */
  lemma EarlyIsAccepted(s: State, ths: map<nat, Thread>, p: nat) returns (s': State)
    requires Reaches(World(s, ths)) && p !in ths
    requires RID in s.reqs && s.reqs[RID] == Request(1, 3600, RequestStatus.Open, None, PUBKEY) && s.redis.now == 0
    requires s.rows == map[] && s.minted == {0} && s.issued == map[] && Acc(s, OfReply(RID)) == Fresh
    ensures Reaches(World(s', ths)) && Answerable(s', EARLY) && s'.redis.now == 0
    ensures Acc(s', OfReply(RID)).takes == 0 && Acc(s', OfReply(RID)).accepted == 1
    ensures s'.rows[OfReply(RID)] == Row(1, 3600, Active, None, 5, 0)
  {
    HandleReaches(s, ths, p, CallSubmit(RID, EARLY), Env(1, 0, false));
    s' := Handle(s, CallSubmit(RID, EARLY), Env(1, 0, false)).0;
  }

  ghost predicate Fulfils(s: State) {
    && s.minted == {0} && s.issued == map[] && s.rows.Keys == {OfReply(RID)}
    && RID in s.reqs && s.reqs[RID] == Request(1, 3600, Fulfilled, Some(OfReply(RID)), PUBKEY)
  }

  ghost predicate Answerable(s: State, data: Bytes) {
    Fulfils(s) && Stored(s, OfReply(RID)) && s.redis.blobs[OfReply(RID)].data == data
  }

  /** The late submission stores its bytes, and its row is refused. */
  lemma LateFails(s: State, req: Request) returns (s': State)
    requires Reaches(World(s, map[0 := SubmitPut(RID, req, LATE, 3600)])) && Fulfils(s)
    ensures Reaches(World(s', map[])) && Answerable(s', LATE) && s'.served == s.served
    ensures Acc(s', OfReply(RID)).takes == Acc(s, OfReply(RID)).takes
    ensures Acc(s', OfReply(RID)).accepted == Acc(s, OfReply(RID)).accepted
  {
    Puts(s, 0, req, 3600);
    s' := Put(s, OfReply(RID), LATE, 3600);
    InsertFails(s', 0, req);
  }

  function Read(s: State, data: Bytes): State {
    WithServed(Mark(Take(s, OfReply(RID)), OfReply(RID), Viewed), Serving(OfReply(RID), data, Staff(1, false)))
  }

  lemma ReadIsTakeReply(s: State, data: Bytes, env: Env)
    requires Answerable(s, data)
    ensures Handle(s, CallTakeReply(RID, 1, false), env).0 == Read(s, data)
  {
  }

  lemma ReadLeaves(s: State, data: Bytes)
    requires Answerable(s, data)
    ensures Fulfils(Read(s, data)) && Read(s, data).redis.now == s.redis.now
  {
  }

  lemma ReadCounts(s: State, data: Bytes)
    requires Answerable(s, data)
    ensures var a := Acc(s, OfReply(RID)); Acc(Read(s, data), OfReply(RID)) == a.(takes := a.takes + 1)
    ensures Read(s, data).served == s.served + {Serving(OfReply(RID), data, Staff(1, false))}
  {
  }

  /** The owner asks, and gets what is there. */
  lemma OwnerReads(s: State, ths: map<nat, Thread>, p: nat, data: Bytes)
    requires Reaches(World(s, ths)) && p !in ths && Answerable(s, data)
    ensures Reaches(World(Read(s, data), ths))
  {
    ReadIsTakeReply(s, data, Env(1, 0, false));
    HandleReaches(s, ths, p, CallTakeReply(RID, 1, false), Env(1, 0, false));
  }

  /** "A reply is delivered at most once" and "what is delivered was accepted" fail: a second
      submission that loaded the open request stores its bytes after the first has been read,
      then fails on the primary key; take_reply hands its bytes out all the same. */
  lemma ReplyReadTwice() returns (s: State)
    ensures Reaches(World(s, map[]))
    ensures Acc(s, OfReply(RID)).takes == 2 && Acc(s, OfReply(RID)).accepted == 1
    ensures Serving(OfReply(RID), EARLY, Staff(1, false)) in s.served
    ensures Serving(OfReply(RID), LATE, Staff(1, false)) in s.served
  {
    var s0 := Asked();
    LateArrives(s0, 0, 3600);
    var s1, req := Enter(s0, CallSubmit(RID, LATE)), s0.reqs[RID];
    var late := map[0 := SubmitPut(RID, req, LATE, 3600)];
    var s2 := EarlyIsAccepted(s1, late, 1);
    OwnerReads(s2, late, 1, EARLY);
    var s3 := Read(s2, EARLY);
    ReadLeaves(s2, EARLY);
    ReadCounts(s2, EARLY);
    var s4 := LateFails(s3, req);
    OwnerReads(s4, map[], 0, LATE);
    ReadCounts(s4, LATE);
    s := Read(s4, LATE);
  }

  // -------------------------------------------------- a reply read by a stranger

  ghost predicate Waiting(s: State) {
    && Answerable(s, EARLY) && s.redis.now == 0 && s.rows[OfReply(RID)] == Row(1, 3600, Active, None, 5, 0)
  }

  lemma StrangerAsks(s: State, env: Env)
    requires Waiting(s)
    ensures Handle(s, CallMeta(OfReply(RID)), env).0 == Issue(s, env.ticket, OfReply(RID))
  {
  }

  lemma StrangerOpens(s: State, ticket: Ticket, env: Env)
    requires Waiting(s.(issued := map[])) && TicketTid(s.redis, ticket) == Some(OfReply(RID))
    ensures Serving(OfReply(RID), EARLY, Holder(None)) in Handle(s, CallReveal(OfReply(RID), ticket, None), env).0.served
  {
  }

  lemma Issued(s: State)
    requires Waiting(s)
    ensures var s' := Issue(s, 0, OfReply(RID));
            Waiting(s'.(issued := map[])) && s'.minted == {0} && s'.issued == map[0 := OfReply(RID)]
            && TicketTid(s'.redis, 0) == Some(OfReply(RID)) && s'.rows == s.rows
  {
  }

  /** "A reply is readable only by its owner" fails with nobody racing: whoever knows the request
      token names the reply with the path segment "reply:" + rid, asks for a ticket, and is given
      the bytes, since the reply's row has no verifier. */
  lemma ReplyToStranger() returns (s: State)
    ensures Reaches(World(s, map[])) && Serving(OfReply(RID), EARLY, Holder(None)) in s.served
  {
    var s0 := Asked();
    var s1 := EarlyIsAccepted(s0, map[], 0);
    s := StrangerReads(s1);
  }

  lemma StrangerReads(s1: State) returns (s: State)
    requires Reaches(World(s1, map[])) && Waiting(s1)
    ensures Reaches(World(s, map[])) && Serving(OfReply(RID), EARLY, Holder(None)) in s.served
  {
    StrangerAsks(s1, Env(1, 0, false));
    HandleReaches(s1, map[], 0, CallMeta(OfReply(RID)), Env(1, 0, false));
    Issued(s1);
    s := StrangerEnds(Issue(s1, 0, OfReply(RID)));
  }

  lemma StrangerEnds(s2: State) returns (s: State)
    requires Reaches(World(s2, map[])) && Waiting(s2.(issued := map[])) && TicketTid(s2.redis, 0) == Some(OfReply(RID))
    requires s2.issued == map[0 := OfReply(RID)]
    ensures Reaches(World(s, map[])) && Serving(OfReply(RID), EARLY, Holder(None)) in s.served
  {
    StrangerOpens(s2, 0, Env(1, 1, false));
    HandleReaches(s2, map[], 0, CallReveal(OfReply(RID), 0, None), Env(1, 1, false));
    s := Handle(s2, CallReveal(OfReply(RID), 0, None), Env(1, 1, false)).0;
  }
}
