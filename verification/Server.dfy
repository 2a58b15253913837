/** The handlers as they are written: statement after statement, updating Redis through the
    client and Postgres through its two tables. Each is proved to do what its big step in
    Atomic says, and so to be a run of the protocol. */
module Server {
  import opened Domain
  import opened Store
  import opened Protocol
  import opened Invariants
  import Effects
  import Atomic
  import Uninterrupted
  import Promises
  import opened Serial

  datatype Upload = Payload(data: Bytes) | TooLarge | Empty

  function Concat(chunks: seq<Bytes>): Bytes {
    if chunks == [] then [] else Concat(chunks[..|chunks| - 1]) + chunks[|chunks| - 1]
  }

  lemma {:induction false} PrefixNoLonger(chunks: seq<Bytes>, n: nat)
    requires n <= |chunks|
    ensures |Concat(chunks[..n])| <= |Concat(chunks)|
  {
    if n < |chunks| {
      var init := chunks[..|chunks| - 1];
      assert init[..n] == chunks[..n];
      PrefixNoLonger(init, n);
    } else {
      assert chunks[..n] == chunks;
    }
  }

  /** _read_capped: a running total, so that an upload is cut off as soon as it is too large.
      The chunks are what the successive reads return before the empty one. */
  method ReadCapped(chunks: seq<Bytes>) returns (r: Upload)
    ensures r == if |Concat(chunks)| > 5_242_880 then TooLarge
                 else if Concat(chunks) == [] then Empty else Payload(Concat(chunks))
  {
    var out: Bytes, total := [], 0;
    for i := 0 to |chunks|
      invariant out == Concat(chunks[..i]) && total == |out| <= MAX_BLOB_BYTES
    {
      assert chunks[..i + 1][..i] == chunks[..i];
      total := total + |chunks[i]|;
      if total > MAX_BLOB_BYTES {
        PrefixNoLonger(chunks, i + 1);
        return TooLarge;
      }
      out := out + chunks[i];
    }
    assert chunks[..|chunks|] == chunks;
    if total == 0 {
      return Empty;
    }
    return Payload(out);
  }

  /** Everything that holds between two handlers of a server that runs them one by one. */
  ghost predicate Sound(s: State) {
    Shared(s) && AllSettled(s)
  }

  lemma CallKeeps(s: State, call: Call, env: Env)
    requires Sound(s) && Atomic.Draws(s, env)
    ensures Sound(Atomic.Handle(s, call, env).0)
  {
    Uninterrupted.HandleKeeps(s, call, env);
    HandleSettled(s, call, env);
  }

  class Backend {
    const store: Client
    var secrets: map<Tid, Row>
    var requests: map<Tid, Request>
    /** Its history fields are the record of what has happened; its stores are not used. */
    ghost var past: State

    ghost function Now(): State
      reads this, store
    {
      past.(redis := store.Value(), rows := secrets, reqs := requests)
    }

    ghost predicate Valid()
      reads this, store
    {
      Sound(Now())
    }

    constructor ()
      ensures Valid() && fresh(store) && Now() == Init().state
    {
      store := new Client(0);
      secrets, requests := map[], map[];
      past := Init().state;
      new;
      SeriallyKeeps([]);
    }

    /** UPDATE secrets ... WHERE tid=... AND status='active' */
    method MarkRow(tid: Tid, to: Status)
      modifies this`secrets
      ensures Now() == Mark(old(Now()), tid, to)
    {
      if tid in secrets && secrets[tid].status == Active {
        secrets := secrets[tid := secrets[tid].(status := to)];
      }
    }

    method CreateSecret(user: User, data: Bytes, want: int, verifier: Option<Bytes>, maxAttempts: int, token: nat)
      returns (answer: Atomic.Answer)
      requires Valid() && token !in Now().minted
      modifies this, store
      ensures Valid()
      ensures (Now(), answer) == Atomic.Create(old(Now()), user, data, want, verifier, maxAttempts, token)
      ensures Promises.CreateDone(old(Now()), Now(), answer, user, data, want, verifier, maxAttempts, token)
      ensures answer.Created? ==> Peek(store.Value(), OfToken(token)) == Some(data)
    {
      ghost var s := Now();
      CallKeeps(s, CallCreate(user, data, want, verifier, maxAttempts), Atomic.FreshEnv(s, token));
      Promises.CreateDoes(s, user, data, want, verifier, maxAttempts, token);
      answer := Create(user, data, want, verifier, maxAttempts, token);
    }

    /** The checks and the writes of create_secret. */
    method Create(user: User, data: Bytes, want: int, verifier: Option<Bytes>, maxAttempts: int, token: nat)
      returns (answer: Atomic.Answer)
      modifies this, store
      ensures (Now(), answer) == Atomic.Create(old(Now()), user, data, want, verifier, maxAttempts, token)
    {
      if !Fits(data) || !(1 <= maxAttempts <= 20) {
        return Atomic.Refused;
      }
      StoreSecret(user, data, Clamp(60, want), if verifier.Some? then Some(Sha256(verifier.value)) else None, maxAttempts, token);
      answer := Atomic.Created(OfToken(token));
    }

    /** create_secret's two writes: Redis first, so that a failed insert leaves only a key
        that times out by itself. */
    method StoreSecret(user: User, data: Bytes, ttl: int, verifier: Option<Digest>, maxAttempts: int, token: nat)
      modifies this, store
      ensures var s, tid := old(Now()), OfToken(token);
              Now() == InsertRow(Put(s, tid, data, ttl).(minted := s.minted + {token}, offered := s.offered + {(tid, data)}),
                                 tid, Row(user, s.redis.now + ttl, Active, verifier, maxAttempts, 0))
    {
      ghost var s := Now();
      var tid := OfToken(token);
      store.Put(tid, data, ttl);
      past := Put(s, tid, data, ttl).(minted := s.minted + {token}, offered := s.offered + {(tid, data)});
      secrets := secrets[tid := Row(user, store.now + ttl, Active, verifier, maxAttempts, 0)];
    }

    method SecretMeta(tid: Tid, ticket: Ticket) returns (answer: Atomic.Answer)
      requires Valid() && ticket !in Now().issued
      modifies this, store
      ensures Valid()
      ensures (Now(), answer) == Atomic.Meta(old(Now()), tid, ticket)
      ensures Promises.MetaDone(old(Now()), Now(), answer, tid, ticket)
      ensures store.Value().blobs == old(store.Value().blobs)
      ensures answer.Ticket_? <==> Promises.Live(old(Now()), tid)
      ensures answer.Ticket_? ==> answer.remaining == old(secrets[tid].maxAttempts) - Acc(old(Now()), tid).wrong > 0
    {
      ghost var s := Now();
      ghost var env := Atomic.EnvFor(s, ticket);
      CallKeeps(s, CallMeta(tid), env);
      Promises.MetaDoes(s, tid, ticket);
      assert Settled(s, tid);
      if tid !in secrets {
        return Atomic.NotFound;
      }
      var row := secrets[tid];
      if row.status != Active {
        return Atomic.GoneAlready(row.status);
      }
      var there := store.Exists(tid);
      if row.expires <= store.now || !there {
        MarkRow(tid, Expired);
        return Atomic.GoneExpired;
      }
      store.Issue(ticket, tid);
      past := Issue(s, ticket, tid);
      answer := Atomic.Ticket_(ticket, row.maxAttempts - row.failed);
    }

    method RevealSecret(tid: Tid, ticket: Ticket, sent: Option<Bytes>) returns (answer: Atomic.Answer)
      requires Valid()
      modifies this, store
      ensures Valid()
      ensures (Now(), answer) == Atomic.Reveal(old(Now()), tid, ticket, sent)
      ensures Promises.RevealDone(old(Now()), Now(), answer, tid, ticket, sent)
      ensures answer.Bytes_? <==>
                && tid in old(secrets) && old(secrets[tid]).status == Active && old(store.now) < old(secrets[tid]).expires
                && TicketTid(old(store.Value()), ticket) == Some(tid) && VerifierOk(sent, old(secrets[tid]).stored)
      ensures answer.Bytes_? ==>
                && Some(answer.data) == Peek(old(store.Value()), tid) && Peek(store.Value(), tid) == None
                && tid in secrets && secrets[tid].status == Viewed
    {
      ghost var s := Now();
      ghost var env := Atomic.AnyEnv(s);
      CallKeeps(s, CallReveal(tid, ticket, sent), env);
      Promises.RevealDoes(s, tid, ticket, sent);
      assert Settled(s, tid);
      if tid !in secrets {
        return Atomic.NotFound;
      }
      var row := secrets[tid];
      if row.status != Active {
        return Atomic.GoneAlready(row.status);
      }
      if row.expires <= store.now {
        MarkRow(tid, Expired);
        return Atomic.GoneExpired;
      }
      var whose := store.Consume(ticket);
      past := Consume(s, ticket, tid);
      if whose != Some(tid) {
        return Atomic.BadTicket;
      }
      if !VerifierOk(sent, row.stored) {
        answer := WrongVerifier(tid, row);
        return;
      }
      answer := TakeAndMark(tid, Holder(sent));
    }

    /** The branch of reveal_secret that a right verifier takes. */
    method TakeAndMark(tid: Tid, who: Recipient) returns (answer: Atomic.Answer)
      modifies this, store
      ensures (Now(), answer) == Atomic.Open(old(Now()), tid, who)
    {
      ghost var s := Now();
      var payload := store.Take(tid);
      if payload.None? {
        MarkRow(tid, Expired);
        return Atomic.GoneExpired;
      }
      past := Take(s, tid);
      MarkRow(tid, Viewed);
      past := Atomic.WithServed(past, Serving(tid, payload.value, who));
      answer := Atomic.Bytes_(payload.value);
    }

    /** The branch of reveal_secret that a wrong verifier takes. */
    method WrongVerifier(tid: Tid, row: Row) returns (answer: Atomic.Answer)
      requires tid in secrets && secrets[tid] == row
      modifies this, store
      ensures (Now(), answer) == Atomic.Fail(old(Now()), tid, row)
    {
      ghost var s := Now();
      var ttl := Max(row.expires - store.now, 60);
      var fails := store.Bump(tid, ttl);
      past := Wrong(s, tid);
      secrets := secrets[tid := secrets[tid].(failed := fails)];
      var remaining := row.maxAttempts - fails;
      assert Now() == Atomic.Counted(s, tid, row);
      if remaining <= 0 {
        past := Drop(Now(), tid);
        store.Drop(tid);
        MarkRow(tid, Destroyed);
        return Atomic.DestroyedNow;
      }
      answer := Atomic.WrongPassphrase(remaining);
    }

    method RevokeSecret(tid: Tid, user: User, admin: bool) returns (answer: Atomic.Answer)
      requires Valid()
      modifies this, store
      ensures Valid()
      ensures (Now(), answer) == Atomic.RevokeSecret(old(Now()), tid, user, admin)
      ensures Promises.RevokeDone(old(Now()), Now(), answer, tid, user, admin)
      ensures answer.NoContent? <==>
                tid in old(secrets) && old(secrets)[tid].status == Active && (user == old(secrets)[tid].owner || admin)
      ensures answer.NoContent? ==> Peek(store.Value(), tid) == None && tid in secrets && secrets[tid].status == Revoked
    {
      ghost var s := Now();
      ghost var env := Atomic.AnyEnv(s);
      CallKeeps(s, CallRevoke(tid, user, admin), env);
      Promises.RevokeDoes(s, tid, user, admin);
      if tid !in secrets || !MayTouch(user, admin, secrets[tid].owner) {
        return Atomic.NotFound;
      }
      if secrets[tid].status != Active {
        return Atomic.Conflict;
      }
      past := Drop(s, tid);
      store.Drop(tid);
      secrets := secrets[tid := secrets[tid].(status := Revoked)];
      answer := Atomic.NoContent;
    }

    method CreateRequest(user: User, expiresIn: Option<int>, pubkey: Bytes, token: nat) returns (answer: Atomic.Answer)
      requires Valid() && token !in Now().minted
      modifies this
      ensures Valid()
      ensures (Now(), answer) == Atomic.Ask(old(Now()), user, expiresIn, pubkey, token)
      ensures Promises.AskDone(old(Now()), Now(), answer, user, expiresIn, pubkey, token)
      ensures answer.Created? <==> pubkey != []
      ensures answer.Created? ==> OfToken(token) in requests && requests[OfToken(token)].pubkey == pubkey
    {
      ghost var s := Now();
      ghost var env := Atomic.FreshEnv(s, token);
      CallKeeps(s, CallAsk(user, expiresIn, pubkey), env);
      Promises.AskDoes(s, user, expiresIn, pubkey, token);
      if pubkey == [] {
        return Atomic.Conflict;
      }
      var rid := OfToken(token);
      var expires := store.now + Clamp(3600, Wanted(expiresIn));
      requests := requests[rid := Request(user, expires, RequestStatus.Open, None, pubkey)];
      past := past.(minted := s.minted + {token});
      answer := Atomic.Created(rid);
    }

    /** _load_open_request */
    method LoadOpenRequest(rid: Tid) returns (stop: Option<Atomic.Answer>)
      modifies this`requests
      ensures (Now(), stop) == Atomic.Load(old(Now()), rid)
      ensures Promises.LoadDone(old(Now()), Now(), stop, rid)
      ensures stop.None? ==> rid in requests && requests == old(requests) && requests[rid].status == RequestStatus.Open
    {
      Promises.LoadDoes(Now(), rid);
      if rid !in requests {
        return Some(Atomic.NotFound);
      }
      if requests[rid].status != RequestStatus.Open {
        return Some(Atomic.GoneRequest(requests[rid].status));
      }
      if requests[rid].expires <= store.now {
        requests := requests[rid := requests[rid].(status := Lapsed)];
        return Some(Atomic.GoneExpired);
      }
      stop := None;
    }

    /** view_request: the client's page is shown the pinned key. */
    method ViewRequest(rid: Tid) returns (answer: Atomic.Answer)
      requires Valid()
      modifies this`requests
      ensures Valid()
      ensures (Now(), answer) == Atomic.View(old(Now()), rid)
      ensures Promises.ViewDone(old(Now()), Now(), answer, rid)
    {
      ghost var s := Now();
      CallKeeps(s, CallView(rid), Atomic.AnyEnv(s));
      Promises.ViewDoes(s, rid);
      var stop := LoadOpenRequest(rid);
      if stop.Some? {
        return stop.value;
      }
      answer := Atomic.Shown(requests[rid].pubkey);
    }

    method SubmitRequest(rid: Tid, data: Bytes, throttled: bool) returns (answer: Atomic.Answer)
      requires Valid()
      modifies this, store
      ensures Valid()
      ensures (Now(), answer) == Atomic.Submit(Enter(old(Now()), CallSubmit(rid, data)), rid, data, throttled)
      ensures Promises.SubmitDone(old(Now()), Now(), answer, rid, data, throttled)
      ensures answer.Accepted? <==> Promises.Answerable(old(Now()), rid) && !throttled && 0 < |data| <= 5_242_880
      ensures !answer.Crashed?
    {
      ghost var s := Now();
      CallKeeps(s, CallSubmit(rid, data), Atomic.AnyEnv(s).(throttled := throttled));
      Promises.SubmitDoes(Enter(s, CallSubmit(rid, data)), rid, data, throttled);
      assert Settled(s, OfReply(rid));
      past := Enter(s, CallSubmit(rid, data));
      answer := Submit(rid, data, throttled);
    }

    /** The statements of submit_request. */
    method Submit(rid: Tid, data: Bytes, throttled: bool) returns (answer: Atomic.Answer)
      modifies this, store
      ensures (Now(), answer) == Atomic.Submit(old(Now()), rid, data, throttled)
      ensures answer.Accepted? ==>
                && rid in requests && requests[rid].status == Fulfilled && requests[rid].reply == Some(OfReply(rid))
                && Peek(store.Value(), OfReply(rid)) == Some(data)
    {
      var stop := LoadOpenRequest(rid);
      if stop.Some? {
        return stop.value;
      }
      if throttled {
        return Atomic.Throttled;
      }
      if !Fits(data) {
        return Atomic.Refused;
      }
      answer := StoreReply(rid, data);
    }

    /** submit_request once the request is known to be open and the payload to fit. */
    method StoreReply(rid: Tid, data: Bytes) returns (answer: Atomic.Answer)
      requires rid in requests && requests[rid].status == RequestStatus.Open
      modifies this, store
      ensures answer == if OfReply(rid) in old(secrets) then Atomic.Crashed else Atomic.Accepted
      ensures answer.Accepted? ==>
                && rid in requests && requests[rid].status == Fulfilled && requests[rid].reply == Some(OfReply(rid))
                && Peek(store.Value(), OfReply(rid)) == Some(data)
      ensures var s, req := old(Now()), old(requests[rid]);
              var s2 := Put(s, OfReply(rid), data, Max(60, req.expires - s.redis.now));
              Now() == if answer.Crashed? then s2 else Atomic.Answered(s2, rid, req)
    {
      var req := requests[rid];
      var tid := OfReply(rid);
      var ttl := Max(60, req.expires - store.now);
      past := Put(Now(), tid, data, ttl);
      store.Put(tid, data, ttl);
      // the primary key refuses a second row
      if tid in secrets {
        return Atomic.Crashed;
      }
      secrets := secrets[tid := Row(req.owner, req.expires, Active, None, 5, 0)];
      requests := requests[rid := req.(status := Fulfilled, reply := Some(tid))];
      past := Accept(past, tid);
      answer := Atomic.Accepted;
    }

    method TakeReply(rid: Tid, user: User, admin: bool) returns (answer: Atomic.Answer)
      requires Valid()
      modifies this, store
      ensures Valid()
      ensures (Now(), answer) == Atomic.TakeReply(old(Now()), rid, user, admin)
      ensures Promises.TakeReplyDone(old(Now()), Now(), answer, rid, user, admin)
      ensures answer.Bytes_? <==>
                && rid in old(requests) && (user == old(requests)[rid].owner || admin)
                && old(requests)[rid].status == Fulfilled && Peek(old(store.Value()), OfReply(rid)) != None
      ensures answer.Bytes_? ==>
                && Some(answer.data) == Peek(old(store.Value()), OfReply(rid)) && Peek(store.Value(), OfReply(rid)) == None
    {
      ghost var s := Now();
      ghost var env := Atomic.AnyEnv(s);
      CallKeeps(s, CallTakeReply(rid, user, admin), env);
      Promises.TakeReplyDoes(s, rid, user, admin);
      assert RequestOk(s, rid);
      if rid !in requests || !MayTouch(user, admin, requests[rid].owner) {
        return Atomic.NotFound;
      }
      if requests[rid].status != Fulfilled || requests[rid].reply.None? {
        return Atomic.Conflict;
      }
      answer := HandOut(requests[rid].reply.value, Staff(user, admin));
    }

    /** take_reply once it is known whose reply it is: a reply that is gone leaves its row alone. */
    method HandOut(tid: Tid, who: Recipient) returns (answer: Atomic.Answer)
      modifies this, store
      ensures (Now(), answer) == if Stored(old(Now()), tid) then Atomic.Open(old(Now()), tid, who) else (old(Now()), Atomic.GoneExpired)
    {
      ghost var s := Now();
      var payload := store.Take(tid);
      if payload.None? {
        return Atomic.GoneExpired;
      }
      past := Take(s, tid);
      MarkRow(tid, Viewed);
      past := Atomic.WithServed(past, Serving(tid, payload.value, who));
      answer := Atomic.Bytes_(payload.value);
    }

    method RevokeRequest(rid: Tid, user: User, admin: bool) returns (answer: Atomic.Answer)
      requires Valid()
      modifies this`requests
      ensures Valid()
      ensures (Now(), answer) == Atomic.WithdrawRequest(old(Now()), rid, user, admin)
      ensures Promises.WithdrawDone(old(Now()), Now(), answer, rid, user, admin)
      ensures answer.NoContent? <==>
                rid in old(requests) && old(requests)[rid].status == RequestStatus.Open && (user == old(requests)[rid].owner || admin)
    {
      ghost var s := Now();
      ghost var env := Atomic.AnyEnv(s);
      CallKeeps(s, CallWithdraw(rid, user, admin), env);
      Promises.WithdrawDoes(s, rid, user, admin);
      if rid !in requests || !MayTouch(user, admin, requests[rid].owner) {
        return Atomic.NotFound;
      }
      if requests[rid].status != RequestStatus.Open {
        return Atomic.Conflict;
      }
      requests := requests[rid := requests[rid].(status := Withdrawn)];
      answer := Atomic.NoContent;
    }

    /** One pass of the sweeper, and the tids its UPDATE returns. */
    method SweepPass() returns (swept: set<Tid>)
      requires Valid()
      modifies this`secrets
      ensures Valid()
      ensures Now() == SweepRows(old(Now())) && Promises.SweepDone(old(Now()), Now())
      ensures forall t :: t in swept <==>
                t in old(secrets) && old(secrets)[t].status == Active && old(secrets)[t].expires <= store.now
    {
      ghost var s := Now();
      Effects.SweepKeeps(s);
      SweepSettled(s);
      Promises.SweepDoes(s);
      swept := ExpireOverdue();
    }

    /** UPDATE secrets SET status='expired' WHERE status='active' AND expires_at <= now() RETURNING tid */
    method ExpireOverdue() returns (swept: set<Tid>)
      modifies this`secrets
      ensures Now() == SweepRows(old(Now()))
      ensures forall t :: t in swept <==>
                t in old(secrets) && old(secrets)[t].status == Active && old(secrets)[t].expires <= store.now
    {
      ghost var s := Now();
      swept := set t | t in secrets && secrets[t].status == Active && secrets[t].expires <= store.now;
      secrets := map t | t in secrets :: if t in swept then secrets[t].(status := Expired) else secrets[t];
      assert Now() == SweepRows(s);
    }

    method Second()
      requires Valid()
      modifies this, store
      ensures Valid()
      ensures Now() == Pass(old(Now())) && Promises.SecondDone(old(Now()), Now())
    {
      ghost var s := Now();
      Effects.PassKeeps(s);
      PassSettled(s);
      Promises.SecondDoes(s);
      past := Pass(s);
      store.Wait();
      assert Now() == Pass(s);
    }
  }
}
