/** Whom a secret can go to without showing anything. */
module Exposure {
  import opened Domain
  import opened Store
  import opened Protocol
  import opened Invariants
  import opened Steps
  import opened Theorems
  import Atomic
  import opened Continuations

  /** A live secret: a link, or a reply, which the public routes serve like any link to whoever
      can name it. */
  ghost predicate Revealable(s: State, tid: Tid) {
    tid in s.rows && s.rows[tid].status == Active && s.redis.now < s.rows[tid].expires && Stored(s, tid)
  }

  ghost predicate GoesToStranger(s: State, tid: Tid) {
    exists data :: Serving(tid, data, Holder(None)) in s.served
  }

  lemma MetaThenReveal(s: State, tid: Tid, ticket: Ticket)
    requires Revealable(s, tid) && s.rows[tid].stored == None
    ensures var s1 := Atomic.Meta(s, tid, ticket).0;
            Serving(tid, s.redis.blobs[tid].data, Holder(None)) in Atomic.Reveal(s1, tid, ticket, None).0.served
  {
    var s1 := Atomic.Meta(s, tid, ticket).0;
    assert s1 == Issue(s, ticket, tid) && TicketTid(s1.redis, ticket) == Some(tid);
  }

  lemma StrangerAsks(acts: seq<Action>, tid: Tid) returns (more: seq<Action>, ticket: Ticket)
    ensures After(acts + more) == Atomic.Meta(After(acts), tid, ticket).0
  {
    var env := Atomic.AnyEnv(After(acts));
    more := HandleNow(acts, CallMeta(tid), env);
    ticket := env.ticket;
  }

  lemma StrangerShowsNothing(acts: seq<Action>, tid: Tid, ticket: Ticket) returns (more: seq<Action>)
    ensures After(acts + more) == Atomic.Reveal(After(acts), tid, ticket, None).0
  {
    more := HandleNow(acts, CallReveal(tid, ticket, None), Atomic.AnyEnv(After(acts)));
  }

  lemma StrangerReads(acts: seq<Action>, tid: Tid) returns (more: seq<Action>)
    requires Revealable(After(acts), tid) && After(acts).rows[tid].stored == None
    ensures GoesToStranger(After(acts + more), tid)
  {
    var first, ticket := StrangerAsks(acts, tid);
    var rest := StrangerShowsNothing(acts + first, tid, ticket);
    MetaThenReveal(After(acts), tid, ticket);
    Joined(acts, first, rest);
    more := first + rest;
  }

  /** Exactly the rows without a verifier can go to a caller who shows nothing: from every
      reachable state some run hands the bytes to such a caller if and only if the row has none. */
  lemma StrangerIffNoVerifier(acts: seq<Action>, tid: Tid)
    requires Revealable(After(acts), tid)
    ensures (exists more :: GoesToStranger(After(acts + more), tid)) <==> After(acts).rows[tid].stored == None
  {
    if After(acts).rows[tid].stored == None {
      var more := StrangerReads(acts, tid);
    } else {
      forall more ensures !GoesToStranger(After(acts + more), tid) {
        NeverReopened(acts, more, tid);
        forall data | Serving(tid, data, Holder(None)) in After(acts + more).served ensures false {
          ServedToTheRight(acts + more, Serving(tid, data, Holder(None)));
        }
      }
    }
  }

  /** So every waiting reply can: the path segment "reply:" + rid names it, and submit_request
      gives its row no verifier. */
  lemma RepliesAreOpen(acts: seq<Action>, rid: Tid) returns (more: seq<Action>)
    requires Revealable(After(acts), OfReply(rid))
    ensures GoesToStranger(After(acts + more), OfReply(rid))
  {
    RunKeeps(acts);
    assert CellOk(After(acts), OfReply(rid));
    more := StrangerReads(acts, OfReply(rid));
  }
}
