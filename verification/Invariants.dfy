/** What holds after every action of every run, by rely and guarantee: `Shared` speaks of
    the two stores, `ThreadOk` of one handler in flight, and `Evolves` is the promise that
    every action keeps and that every handler in flight relies on. */
module Invariants {
  import opened Domain
  import opened Store
  import opened Protocol

  // ------------------------------------------------------- one secret's key and row

  ghost predicate Conserved(a: Account, stored: bool) {
    a.puts == a.takes + a.drops + a.expiries + a.overwrites + if stored then 1 else 0
  }

  /** A key outlives its row's deadline; without a row nothing has been taken or counted. */
  ghost predicate RowOk(s: State, tid: Tid) {
    var a := Acc(s, tid);
    if tid in s.rows then
      var row := s.rows[tid];
      && row.maxAttempts >= 1
      && (Stored(s, tid) ==> row.expires <= s.redis.blobs[tid].death)
      && (row.status == Viewed ==> a.takes >= 1)
      && (tid in s.redis.fails && s.redis.fails[tid].death.Some? ==> row.expires <= s.redis.fails[tid].death.value)
      && (Stored(s, tid) && s.redis.now < row.expires ==> FailsOf(s.redis, tid) == a.wrong)
    else
      a.takes == a.drops == a.wrong == a.accepted == 0 && tid !in s.redis.fails
  }

  /** A link's key is written once, so a closed row means that the bytes are gone. */
  ghost predicate OutboundOk(s: State, tid: Tid)
    requires tid.OfToken?
  {
    var a := Acc(s, tid);
    && a.puts <= 1
    && (a.puts >= 1 ==> tid.token in s.minted)
    && (tid in s.rows ==>
          && a.puts == 1
          && (s.rows[tid].status in {Viewed, Revoked, Destroyed} ==> !Stored(s, tid))
          && (s.rows[tid].status == Expired && Stored(s, tid) ==> s.rows[tid].expires <= s.redis.now))
  }

  /** A reply's key and row belong to its request. */
  ghost predicate ReplyOk(s: State, tid: Tid)
    requires tid.OfReply?
  {
    && tid !in s.redis.fails && Acc(s, tid).wrong == 0
    && (Stored(s, tid) ==> tid.rid in s.reqs && s.reqs[tid.rid].expires <= s.redis.blobs[tid].death)
    && (tid in s.rows ==>
          && tid.rid in s.reqs
          && s.rows[tid].owner == s.reqs[tid.rid].owner && s.rows[tid].expires == s.reqs[tid.rid].expires
          && s.rows[tid].stored == None)
  }

  ghost predicate CellOk(s: State, tid: Tid) {
    && Conserved(Acc(s, tid), Stored(s, tid))
    && RowOk(s, tid)
    && (tid.OfToken? ==> OutboundOk(s, tid))
    && (tid.OfReply? ==> ReplyOk(s, tid))
    && (Stored(s, tid) ==> (tid, s.redis.blobs[tid].data) in s.offered)
  }

  ghost predicate RequestOk(s: State, rid: Tid) {
    rid in s.reqs ==>
      && rid.OfToken? && rid.token in s.minted && s.reqs[rid].pubkey != []
      && (s.reqs[rid].reply.Some? ==> s.reqs[rid].reply.value == OfReply(rid) && OfReply(rid) in s.rows)
      && (s.reqs[rid].status == Fulfilled ==> s.reqs[rid].reply.Some?)
  }

  ghost function SpentOn(s: State, tid: Tid): set<Ticket> {
    set t | t in s.spent && s.spent[t] == tid
  }

  ghost predicate TicketOk(s: State, t: Ticket) {
    && (t in s.redis.tickets ==> t in s.issued && s.issued[t] == s.redis.tickets[t].tid && t !in s.spent)
    && (t in s.spent ==> t in s.issued && s.issued[t] == s.spent[t])
  }

  ghost predicate ServingOk(s: State, v: Serving) {
    && v.tid in s.rows
    && (v.tid, v.data) in s.offered
    && MayReceive(s, v.tid, v.who)
  }

  /** Who may be handed the bytes of a secret. */
  ghost predicate MayReceive(s: State, tid: Tid, who: Recipient)
    requires tid in s.rows
  {
    match who
    case Holder(sent) => VerifierOk(sent, s.rows[tid].stored)
    case Staff(user, admin) => tid.OfReply? && MayTouch(user, admin, s.rows[tid].owner)
  }

  ghost predicate Shared(s: State) {
    && (forall tid :: CellOk(s, tid))
    && (forall rid :: RequestOk(s, rid))
    && (forall t :: TicketOk(s, t))
    && (forall tid :: Acc(s, tid).checks == |SpentOn(s, tid)|)
    && (forall v :: v in s.served ==> ServingOk(s, v))
  }

  // --------------------------------------------------------------- the guarantee

  ghost predicate SameRow(old_: Row, new_: Row) {
    && old_.owner == new_.owner && old_.expires == new_.expires
    && old_.stored == new_.stored && old_.maxAttempts == new_.maxAttempts
    && (new_.status == Active ==> old_.status == Active)
  }

  ghost predicate SameRequest(old_: Request, new_: Request) {
    old_.owner == new_.owner && old_.expires == new_.expires && old_.pubkey == new_.pubkey
  }

  ghost predicate CellEvolves(s: State, s': State, tid: Tid) {
    var a, a' := Acc(s, tid), Acc(s', tid);
    && a.takes <= a'.takes && a.puts <= a'.puts
    && (tid in s.rows ==> tid in s'.rows && SameRow(s.rows[tid], s'.rows[tid]))
    && (tid in s.reqs ==> tid in s'.reqs && SameRequest(s.reqs[tid], s'.reqs[tid]))
    && (tid !in s'.rows && Stored(s, tid) ==> Stored(s', tid) || s.redis.blobs[tid].death <= s'.redis.now)
    && (tid.OfToken? && a.puts >= 1 && Stored(s', tid) ==> Stored(s, tid) && s'.redis.blobs[tid] == s.redis.blobs[tid])
  }

  ghost predicate Evolves(s: State, s': State) {
    && s.redis.now <= s'.redis.now
    && s.offered <= s'.offered && s.minted <= s'.minted
    && (forall tid :: CellEvolves(s, s', tid))
  }

  // ------------------------------------------------------------ handlers in flight

  /** The row a handler read is still the row, but for its status and its counter. */
  ghost predicate Knows(s: State, tid: Tid, row: Row) {
    && tid in s.rows
    && row.owner == s.rows[tid].owner && row.expires == s.rows[tid].expires
    && row.stored == s.rows[tid].stored && row.maxAttempts == s.rows[tid].maxAttempts
  }

  ghost predicate KnowsRequest(s: State, rid: Tid, req: Request) {
    rid in s.reqs && SameRequest(req, s.reqs[rid])
  }

  ghost predicate NewRow(row: Row) {
    row.status == Active && row.failed == 0 && row.maxAttempts >= 1
  }

  ghost predicate Gone(s: State, tid: Tid) {
    tid.OfToken? ==> !Stored(s, tid)
  }

  ghost predicate ThreadOk(s: State, th: Thread) {
    match th
    case CreatePut(data, ttl, row) => ttl > 0 && row.expires <= s.redis.now + ttl && NewRow(row)
    case CreateInsert(tid, row) =>
      && tid.OfToken? && NewRow(row) && Acc(s, tid).puts >= 1
      && (tid !in s.rows ==>
            && (Stored(s, tid) ==> row.expires <= s.redis.blobs[tid].death)
            && (Stored(s, tid) || row.expires <= s.redis.now))
    case MetaSelect(_) => true
    case MetaCheck(tid, row) => Knows(s, tid, row)
    case MetaExists(tid, row) => Knows(s, tid, row)
    case MetaIssue(tid) => tid in s.rows
    case RevealSelect(_, _, _) => true
    case RevealCheck(tid, _, _, row) => Knows(s, tid, row)
    case RevealTicket(tid, _, _, row) => Knows(s, tid, row)
    case RevealVerify(tid, _, row) => Knows(s, tid, row)
    case RevealIncr(tid, row, ttl) => Knows(s, tid, row) && row.stored.Some? && row.expires <= s.redis.now + ttl
    case RevealExpire(tid, row, ttl, n) => Knows(s, tid, row) && row.stored.Some? && row.expires <= s.redis.now + ttl
    case RevealStore(tid, row, n) => Knows(s, tid, row)
    case RevealDrop(tid) => tid in s.rows
    case RevealTake(tid, sent) => tid in s.rows && VerifierOk(sent, s.rows[tid].stored)
    case Close(tid, to) =>
      && tid in s.rows && to in {Expired, Destroyed}
      && (to == Destroyed ==> Gone(s, tid))
      && (to == Expired ==> Gone(s, tid) || s.rows[tid].expires <= s.redis.now)
    case Deliver(tid, data, who) =>
      && tid in s.rows && Acc(s, tid).takes >= 1 && Gone(s, tid)
      && (tid, data) in s.offered && MayReceive(s, tid, who)
    case RevokeSelect(_, _, _) => true
    case RevokeDrop(tid, user, admin) => tid in s.rows && MayTouch(user, admin, s.rows[tid].owner)
    case RevokeWrite(tid, user, admin) => tid in s.rows && MayTouch(user, admin, s.rows[tid].owner) && Gone(s, tid)
    case AskInsert(req) => req.status == Open && req.reply == None && req.pubkey != []
    case LoadSelect(rid, payload) => payload.Some? ==> (OfReply(rid), payload.value) in s.offered
    case LoadCheck(rid, req, payload) =>
      KnowsRequest(s, rid, req) && (payload.Some? ==> (OfReply(rid), payload.value) in s.offered)
    case LoadExpire(rid) => rid in s.reqs && s.reqs[rid].expires <= s.redis.now
    case SubmitLimit(rid, req, data) => KnowsRequest(s, rid, req) && (OfReply(rid), data) in s.offered
    case SubmitPut(rid, req, data, ttl) =>
      KnowsRequest(s, rid, req) && (OfReply(rid), data) in s.offered && req.expires <= s.redis.now + ttl
    case SubmitInsert(rid, req) =>
      && KnowsRequest(s, rid, req)
      && (OfReply(rid) !in s.rows ==> Stored(s, OfReply(rid)) || req.expires <= s.redis.now)
    case SubmitFulfil(rid) => rid in s.reqs && OfReply(rid) in s.rows
    case ReplySelect(_, _, _) => true
    case ReplyTake(tid, user, admin) => tid.OfReply? && tid in s.rows && MayTouch(user, admin, s.rows[tid].owner)
    case WithdrawSelect(_, _, _) => true
    case WithdrawWrite(rid, user, admin) => rid in s.reqs && MayTouch(user, admin, s.reqs[rid].owner)
  }

  /** The secret a handler is about; for a request, its reply. */
  function Key(th: Thread): Tid {
    match th
    case CreatePut(_, _, _) | AskInsert(_) => OfToken(0)
    case LoadSelect(rid, _) => OfReply(rid)
    case LoadCheck(rid, _, _) => OfReply(rid)
    case LoadExpire(rid) => OfReply(rid)
    case SubmitLimit(rid, _, _) => OfReply(rid)
    case SubmitPut(rid, _, _, _) => OfReply(rid)
    case SubmitInsert(rid, _) => OfReply(rid)
    case SubmitFulfil(rid) => OfReply(rid)
    case ReplySelect(rid, _, _) => OfReply(rid)
    case WithdrawSelect(rid, _, _) => OfReply(rid)
    case WithdrawWrite(rid, _, _) => OfReply(rid)
    case _ => th.tid
  }

  /** The rely: what other handlers do leaves what this handler knows true. */
  lemma StableAt(s: State, s': State, th: Thread)
    requires CellOk(s, Key(th)) && CellEvolves(s, s', Key(th))
    requires Key(th).OfReply? ==> CellEvolves(s, s', Key(th).rid)
    requires s.redis.now <= s'.redis.now && s.offered <= s'.offered
    requires ThreadOk(s, th)
    ensures ThreadOk(s', th)
  {
  }

  lemma Stable(s: State, s': State, th: Thread)
    requires Shared(s) && Evolves(s, s') && ThreadOk(s, th)
    ensures ThreadOk(s', th)
  {
    assert CellOk(s, Key(th)) && CellEvolves(s, s', Key(th));
    StableAt(s, s', th);
  }
}
