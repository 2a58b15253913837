/** The administrators' feed: pages of an append-only log by descending id. */
module Paging {
  import opened Domain

  datatype Row = Row(event: string, actor: Option<string>, at: int)

  /** audit.events by id; ids come from a sequence that starts at 1. */
  type Log = map<nat, Row>

  datatype Filter = Filter(event: Option<string>, actor: Option<string>, since: Option<int>, until: Option<int>)

  /** A parameter that Python takes for absent: None, the empty string, zero. */
  predicate Given(s: Option<string>) {
    s.Some? && s.value != ""
  }

  predicate Wanted(f: Filter, row: Row) {
    && (Given(f.event) ==> row.event == f.event.value)
    && (Given(f.actor) ==> row.actor == f.actor)
    && (f.since.Some? ==> f.since.value <= row.at)
    && (f.until.Some? ==> row.at <= f.until.value)
  }

  // ------------------------------------------------------------- the query text

  datatype Clause = True | EventIs | ActorIs | AtLeast | AtMost | IdBelow
  datatype Param = Text(text: string) | Time(time: int) | Number(n: int)

  predicate Test(c: Clause, p: Param, id: nat, row: Row) {
    match c
    case True => true
    case EventIs => p.Text? && row.event == p.text
    case ActorIs => p.Text? && row.actor == Some(p.text)
    case AtLeast => p.Time? && row.at >= p.time
    case AtMost => p.Time? && row.at <= p.time
    case IdBelow => p.Number? && id < p.n
  }

  /** ' AND '.join(where), with each placeholder taking the next parameter. */
  predicate Holds(where: seq<Clause>, params: seq<Param>, id: nat, row: Row) {
    if where == [] then true
    else if where[0] == True then Holds(where[1..], params, id, row)
    else params != [] && Test(where[0], params[0], id, row) && Holds(where[1..], params[1..], id, row)
  }

  function Placeholders(where: seq<Clause>): nat {
    if where == [] then 0 else (if where[0] == True then 0 else 1) + Placeholders(where[1..])
  }

  lemma {:induction false} HoldsMore(where: seq<Clause>, params: seq<Param>, c: Clause, p: Param, id: nat, row: Row)
    requires c != True && Placeholders(where) == |params|
    ensures Holds(where + [c], params + [p], id, row) <==> Holds(where, params, id, row) && Test(c, p, id, row)
    ensures Placeholders(where + [c]) == |params + [p]|
  {
    if where == [] {
      assert [] + [c] == [c] && [] + [p] == [p] && params + [p] == [p];
      assert [c][1..] == [] && [p][1..] == [];
    } else {
      assert (where + [c])[1..] == where[1..] + [c];
      if where[0] == True {
        HoldsMore(where[1..], params, c, p, id, row);
      } else {
        assert (params + [p])[1..] == params[1..] + [p];
        HoldsMore(where[1..], params[1..], c, p, id, row);
      }
    }
  }

  /** The rows that a call asks for; a cursor of zero is no cursor. */
  predicate Asked(f: Filter, cursor: Option<int>, id: nat, row: Row) {
    Wanted(f, row) && (cursor.Some? && cursor.value != 0 ==> id < cursor.value)
  }

  /** The first `k` of its five conditions. */
  predicate FirstOf(f: Filter, cursor: Option<int>, k: nat, id: nat, row: Row) {
    && (k >= 1 && Given(f.event) ==> row.event == f.event.value)
    && (k >= 2 && Given(f.actor) ==> row.actor == f.actor)
    && (k >= 3 && f.since.Some? ==> f.since.value <= row.at)
    && (k >= 4 && f.until.Some? ==> row.at <= f.until.value)
    && (k >= 5 && cursor.Some? && cursor.value != 0 ==> id < cursor.value)
  }

  ghost predicate Built(where: seq<Clause>, params: seq<Param>, f: Filter, cursor: Option<int>, k: nat) {
    && Placeholders(where) == |params|
    && forall id, row :: Holds(where, params, id, row) <==> FirstOf(f, cursor, k, id, row)
  }

  ghost predicate Selects(where: seq<Clause>, params: seq<Param>, f: Filter, cursor: Option<int>) {
    forall id, row :: Holds(where, params, id, row) <==> Asked(f, cursor, id, row)
  }

  lemma BuiltMore(where: seq<Clause>, params: seq<Param>, c: Clause, p: Param, f: Filter, cursor: Option<int>, k: nat)
    requires c != True && Built(where, params, f, cursor, k)
    requires forall id, row :: FirstOf(f, cursor, k + 1, id, row) <==> FirstOf(f, cursor, k, id, row) && Test(c, p, id, row)
    ensures Built(where + [c], params + [p], f, cursor, k + 1)
  {
    forall id: nat, row ensures Holds(where + [c], params + [p], id, row) <==> FirstOf(f, cursor, k + 1, id, row) {
      HoldsMore(where, params, c, p, id, row);
    }
    HoldsMore(where, params, c, p, 0, Row("", None, 0));
  }

  function Clamp(limit: int): nat {
    if limit < 1 then 1 else if limit < 500 then limit else 500
  }

  method WhoAndWhat(f: Filter, cursor: Option<int>) returns (where: seq<Clause>, params: seq<Param>)
    ensures Built(where, params, f, cursor, 2)
  {
    where, params := [True], [];
    if Given(f.event) {
      BuiltMore(where, params, EventIs, Text(f.event.value), f, cursor, 0);
      where, params := where + [EventIs], params + [Text(f.event.value)];
    }
    assert Built(where, params, f, cursor, 1);
    if Given(f.actor) {
      BuiltMore(where, params, ActorIs, Text(f.actor.value), f, cursor, 1);
      where, params := where + [ActorIs], params + [Text(f.actor.value)];
    }
  }

  method When(f: Filter, cursor: Option<int>, where0: seq<Clause>, params0: seq<Param>) returns (where: seq<Clause>, params: seq<Param>)
    requires Built(where0, params0, f, cursor, 2)
    ensures Built(where, params, f, cursor, 4)
  {
    where, params := where0, params0;
    if f.since.Some? {
      BuiltMore(where, params, AtLeast, Time(f.since.value), f, cursor, 2);
      where, params := where + [AtLeast], params + [Time(f.since.value)];
    }
    assert Built(where, params, f, cursor, 3);
    if f.until.Some? {
      BuiltMore(where, params, AtMost, Time(f.until.value), f, cursor, 3);
      where, params := where + [AtMost], params + [Time(f.until.value)];
    }
  }

  /** audit.activity builds its clauses and its parameters in step: whatever is given, the rows
      that the text selects are the rows that were asked for. */
  method BuildQuery(f: Filter, limit: int, cursor: Option<int>) returns (where: seq<Clause>, params: seq<Param>)
    ensures |params| == Placeholders(where) + 1
    ensures params[|params| - 1] == Number(if limit < 1 then 1 else if limit > 500 then 500 else limit)
    ensures Selects(where, params[..|params| - 1], f, cursor)
  {
    where, params := WhoAndWhat(f, cursor);
    where, params := When(f, cursor, where, params);
    if cursor.Some? && cursor.value != 0 {
      BuiltMore(where, params, IdBelow, Number(cursor.value), f, cursor, 4);
      where, params := where + [IdBelow], params + [Number(cursor.value)];
    }
    assert Built(where, params, f, cursor, 5);
    ghost var before := params;
    params := params + [Number(Clamp(limit))];
    assert params[..|params| - 1] == before;
  }

  // ------------------------------------------------------------------- one page

  ghost function Largest(s: set<nat>): (m: nat)
    requires s != {}
    ensures m in s && forall x :: x in s ==> x <= m
  {
    LargestExists(s);
    var m :| m in s && forall x :: x in s ==> x <= m;
    m
  }

  lemma {:induction false} LargestExists(s: set<nat>)
    requires s != {}
    ensures exists m :: m in s && forall x :: x in s ==> x <= m
  {
    var x :| x in s;
    if s != {x} {
      LargestExists(s - {x});
      var m :| m in s - {x} && forall y :: y in s - {x} ==> y <= m;
      assert forall y :: y in s ==> y == x || y in s - {x};
      assert (if m < x then x else m) in s;
    }
  }

  /** ORDER BY id DESC LIMIT n */
  ghost function Top(s: set<nat>, n: nat): (ids: seq<nat>)
    ensures |ids| == if |s| < n then |s| else n
    ensures forall id :: id in ids ==> id in s
  {
    if s == {} || n == 0 then [] else [Largest(s)] + Top(s - {Largest(s)}, n - 1)
  }

  ghost function Below(log: Log, f: Filter, cursor: Option<nat>): set<nat> {
    set id | id in log && Asked(f, cursor, id, log[id])
  }

  ghost function Page(log: Log, f: Filter, limit: int, cursor: Option<nat>): seq<nat> {
    Top(Below(log, f, cursor), Clamp(limit))
  }

  /** routes_admin.py: a full page may have a next one. */
  ghost function NextCursor(page: seq<nat>, limit: int): (next: Option<nat>)
    ensures next.Some? ==> next.value in page
  {
    if |page| == limit && page != [] then Some(page[|page| - 1]) else None
  }

  predicate Descending(ids: seq<nat>) {
    forall i, j :: 0 <= i < j < |ids| ==> ids[j] < ids[i]
  }

  lemma {:induction false} TopDescends(s: set<nat>, n: nat)
    ensures Descending(Top(s, n))
  {
    if s != {} && n != 0 {
      var m := Largest(s);
      TopDescends(s - {m}, n - 1);
      forall i, j | 0 <= i < j < |Top(s, n)| ensures Top(s, n)[j] < Top(s, n)[i] {
        if i == 0 { assert Top(s, n)[j] in Top(s - {m}, n - 1); }
      }
    }
  }

  ghost function Under(s: set<nat>, top: nat): set<nat> {
    set x | x in s && x < top
  }

  /** What is not on a full page lies below its last id. */
  lemma {:induction false} TopLeaves(s: set<nat>, n: nat)
    requires 0 < n <= |s|
    ensures var page := Top(s, n);
            && |page| == n && Under(s, page[n - 1]) == s - (set id | id in page)
            && |Under(s, page[n - 1])| == |s| - n
  {
    var m := Largest(s);
    TopDescends(s, n);
    if n == 1 {
      assert Top(s, 1) == [m] + Top(s - {m}, 0) && Under(s, m) == s - {m};
    } else {
      TopLeaves(s - {m}, n - 1);
      var rest := Top(s - {m}, n - 1);
      assert Top(s, n) == [m] + rest && rest[n - 2] in rest && rest[n - 2] < m;
      assert Under(s, rest[n - 2]) == Under(s - {m}, rest[n - 2]);
      assert s - (set id | id in [m] + rest) == (s - {m}) - (set id | id in rest);
    }
  }

  lemma TopStep(s: set<nat>, n: nat)
    requires s != {} && n > 0
    ensures Top(s, n) == [Largest(s)] + Top(s - {Largest(s)}, n - 1)
  {
  }

  lemma UnderRest(s: set<nat>, x: nat)
    requires s != {} && x <= Largest(s)
    ensures Under(s, x) == Under(s - {Largest(s)}, x)
  {
  }

  lemma TopOne(s: set<nat>)
    requires s != {}
    ensures Top(s, 1) == [Largest(s)]
  {
    assert Top(s - {Largest(s)}, 0) == [];
  }

  lemma UnderLargest(s: set<nat>)
    requires s != {}
    ensures Under(s, Largest(s)) == s - {Largest(s)}
  {
  }

  /** A page, and after it everything under its last id. */
  ghost predicate Splits(s: set<nat>, n: nat)
    requires 0 < n <= |s|
  {
    Top(s, |s|) == Top(s, n) + Top(Under(s, Top(s, n)[n - 1]), |s| - n)
  }

  lemma TopFirst(s: set<nat>)
    requires s != {}
    ensures Splits(s, 1)
  {
    TopOne(s);
    UnderLargest(s);
    TopStep(s, |s|);
  }

  lemma LastOfTop(s: set<nat>, n: nat)
    requires 1 < n <= |s| && |s - {Largest(s)}| == |s| - 1
    ensures var x := Top(s - {Largest(s)}, n - 1)[n - 2];
            Top(s, n)[n - 1] == x && Under(s, x) == Under(s - {Largest(s)}, x)
  {
    TopStep(s, n);
    assert Top(s - {Largest(s)}, n - 1)[n - 2] in Top(s - {Largest(s)}, n - 1);
    UnderRest(s, Top(s - {Largest(s)}, n - 1)[n - 2]);
  }

  lemma Cons(x: nat, a: seq<nat>, b: seq<nat>)
    ensures [x] + (a + b) == [x] + a + b
  {
  }

  lemma TopJoin(s: set<nat>, n: nat)
    requires 1 < n <= |s| && |s - {Largest(s)}| == |s| - 1 && Splits(s - {Largest(s)}, n - 1)
    ensures Splits(s, n)
  {
    var m, rest := Largest(s), s - {Largest(s)};
    TopStep(s, n);
    TopStep(s, |s|);
    LastOfTop(s, n);
    Cons(m, Top(rest, n - 1), Top(Under(rest, Top(rest, n - 1)[n - 2]), |s| - n));
  }

  lemma {:induction false} TopSplits(s: set<nat>, n: nat)
    requires 0 < n <= |s|
    ensures Splits(s, n)
  {
    if n == 1 {
      TopFirst(s);
    } else {
      TopSplits(s - {Largest(s)}, n - 1);
      TopJoin(s, n);
    }
  }

  lemma {:induction false} TopHasAll(s: set<nat>, id: nat)
    requires id in s
    ensures id in Top(s, |s|)
  {
    if id != Largest(s) { TopHasAll(s - {Largest(s)}, id); }
  }

  // --------------------------------------------------------------- every page

  /** The log as each call finds it. */
  type Logs = nat -> Log

  /** Rows are added and never changed; every new id is above those that were there. */
  ghost predicate Extends(first: Log, later: Log) {
    && (forall id :: id in first ==> id in later && later[id] == first[id])
    && (forall id, old_ :: id in later && id !in first && old_ in first ==> old_ < id)
  }

  ghost predicate Grows(logs: Logs) {
    && 0 !in logs(0)
    && (forall i: nat {:trigger Extends(logs(0), logs(i))} :: Extends(logs(0), logs(i)))
  }

  /** Follow next_cursor until it is null, the i-th call finding the i-th log. */
  ghost function Walk(logs: Logs, i: nat, f: Filter, limit: int, cursor: Option<nat>): seq<seq<nat>>
    requires 1 <= limit <= 500
    decreases if cursor.None? || cursor.value == 0 then 1 else 0, if cursor.None? then 0 else cursor.value
  {
    var page := Page(logs(i), f, limit, cursor);
    var next := NextCursor(page, limit);
    if next.None? || next.value == 0 then [page] else [page] + Walk(logs, i + 1, f, limit, next)
  }

  ghost function Joined(pages: seq<seq<nat>>): seq<nat> {
    if pages == [] then [] else pages[0] + Joined(pages[1..])
  }

  lemma JoinedCons(page: seq<nat>, pages: seq<seq<nat>>)
    ensures Joined([page] + pages) == page + Joined(pages)
  {
    assert ([page] + pages)[1..] == pages;
  }

  /** What a later call finds below a cursor that is one of the first ids is what was there. */
  lemma SameBelow(logs: Logs, i: nat, f: Filter, cursor: nat)
    requires Grows(logs) && cursor in logs(0)
    ensures Below(logs(i), f, Some(cursor)) == Under(Below(logs(0), f, None), cursor)
  {
    assert Extends(logs(0), logs(i));
  }

  lemma {:induction false} WalkFrom(logs: Logs, i: nat, f: Filter, limit: int, cursor: Option<nat>, left: set<nat>)
    requires Grows(logs) && 1 <= limit <= 500
    requires if cursor.None? then i == 0 else cursor.value in logs(0)
    requires left == Below(logs(i), f, cursor)
    requires left == Remaining(logs(0), f, cursor)
    ensures Joined(Walk(logs, i, f, limit, cursor)) == Top(left, |left|)
    decreases |left|
  {
    if |left| < limit {
      LastPage(logs, i, f, limit, cursor, left);
    } else {
      var page := Top(left, limit);
      var last := page[limit - 1];
      assert last in page;
      NextLeft(logs, i, f, cursor, left, last);
      TopLeaves(left, limit);
      WalkFrom(logs, i + 1, f, limit, Some(last), Under(left, last));
      FullPage(logs, i, f, limit, cursor, last);
      PageJoins(left, limit, Walk(logs, i + 1, f, limit, Some(last)));
    }
  }

  /** A page for every `limit` rows, and one short or empty page. */
  function Calls(n: nat, limit: nat): nat
    requires limit > 0
  {
    if n < limit then 1 else 1 + Calls(n - limit, limit)
  }

  lemma {:induction false} CallsClosed(n: nat, limit: nat)
    requires limit > 0
    ensures Calls(n, limit) == n / limit + 1
  {
    if n < limit {
      Quotient(n, limit, 0);
    } else {
      CallsClosed(n - limit, limit);
      DivStep(n, limit);
    }
  }

  lemma {:induction false} WalkLength(logs: Logs, i: nat, f: Filter, limit: int, cursor: Option<nat>, left: set<nat>)
    requires Grows(logs) && 1 <= limit <= 500
    requires if cursor.None? then i == 0 else cursor.value in logs(0)
    requires left == Below(logs(i), f, cursor)
    requires left == Remaining(logs(0), f, cursor)
    ensures |Walk(logs, i, f, limit, cursor)| == Calls(|left|, limit)
    decreases |left|
  {
    if |left| < limit {
      LastPage(logs, i, f, limit, cursor, left);
    } else {
      var page := Top(left, limit);
      var last := page[limit - 1];
      assert last in page;
      NextLeft(logs, i, f, cursor, left, last);
      TopLeaves(left, limit);
      WalkLength(logs, i + 1, f, limit, Some(last), Under(left, last));
      FullPage(logs, i, f, limit, cursor, last);
    }
  }

  lemma PageJoins(left: set<nat>, limit: nat, pages: seq<seq<nat>>)
    requires 0 < limit <= |left|
    requires var under := Under(left, Top(left, limit)[limit - 1]); Joined(pages) == Top(under, |under|)
    ensures Joined([Top(left, limit)] + pages) == Top(left, |left|)
  {
    TopLeaves(left, limit);
    TopSplits(left, limit);
    JoinedCons(Top(left, limit), pages);
  }

  ghost function Remaining(log: Log, f: Filter, cursor: Option<nat>): set<nat> {
    if cursor.None? then Below(log, f, None) else Under(Below(log, f, None), cursor.value)
  }

  lemma NextLeft(logs: Logs, i: nat, f: Filter, cursor: Option<nat>, left: set<nat>, last: nat)
    requires Grows(logs) && left == Remaining(logs(0), f, cursor) && last in left
    ensures last in logs(0) && last != 0
    ensures Under(left, last) == Below(logs(i + 1), f, Some(last)) == Remaining(logs(0), f, Some(last))
  {
    SameBelow(logs, i + 1, f, last);
    UnderTwice(Below(logs(0), f, None), left, cursor, last);
  }

  lemma FullPage(logs: Logs, i: nat, f: Filter, limit: int, cursor: Option<nat>, last: nat)
    requires 1 <= limit <= 500
    requires var page := Page(logs(i), f, limit, cursor); |page| == limit && page[limit - 1] == last != 0
    ensures Walk(logs, i, f, limit, cursor) == [Page(logs(i), f, limit, cursor)] + Walk(logs, i + 1, f, limit, Some(last))
  {
  }

  lemma LastPage(logs: Logs, i: nat, f: Filter, limit: int, cursor: Option<nat>, left: set<nat>)
    requires 1 <= limit <= 500 && left == Below(logs(i), f, cursor) && |left| < limit
    ensures Walk(logs, i, f, limit, cursor) == [Top(left, |left|)]
    ensures Joined(Walk(logs, i, f, limit, cursor)) == Top(left, |left|)
  {
    TopAll(left, limit);
    JoinedCons(Top(left, |left|), []);
    assert [Top(left, |left|)] + [] == [Top(left, |left|)];
  }

  lemma UnderTwice(all: set<nat>, left: set<nat>, cursor: Option<nat>, last: nat)
    requires last in left && left <= all
    requires if cursor.None? then left == all else left == Under(all, cursor.value)
    ensures Under(all, last) == Under(left, last)
  {
  }

  lemma Quotient(n: nat, d: nat, q: nat)
    requires d > 0
    ensures q * d <= n < q * d + d <==> q == n / d
  {
    var p := n / d;
    assert p * d <= n < p * d + d;
    if q < p { assert (q + 1) * d <= p * d; }
    if p < q { assert (p + 1) * d <= q * d; }
  }

  lemma DivStep(n: nat, d: nat)
    requires 0 < d <= n
    ensures (n - d) / d + 1 == n / d
  {
    var q := (n - d) / d;
    Quotient(n - d, d, q);
    assert (q + 1) * d == q * d + d;
    Quotient(n, d, q + 1);
  }

  /** A limit that is not reached is no limit. */
  lemma {:induction false} TopAll(s: set<nat>, n: nat)
    requires |s| <= n
    ensures Top(s, n) == Top(s, |s|)
  {
    if s != {} { TopAll(s - {Largest(s)}, n - 1); }
  }

  /** Following next_cursor to its end, while rows keep being added: the pages, joined, are
      exactly the matching rows that were there at the first call, each once, newest first,
      in exactly n / limit + 1 calls. */
  lemma PagesAreTheLog(logs: Logs, f: Filter, limit: int)
    requires Grows(logs) && 1 <= limit <= 500
    ensures var all := set id | id in logs(0) && Wanted(f, logs(0)[id]);
            var ids := Joined(Walk(logs, 0, f, limit, None));
            && Descending(ids) && (forall id :: id in ids <==> id in all) && |ids| == |all|
            && |Walk(logs, 0, f, limit, None)| == |all| / limit + 1
  {
    var all := Below(logs(0), f, None);
    WalkFrom(logs, 0, f, limit, None, all);
    WalkLength(logs, 0, f, limit, None, all);
    CallsClosed(|all|, limit);
    TopDescends(all, |all|);
    forall id | id in all ensures id in Top(all, |all|) {
      TopHasAll(all, id);
    }
    assert all == set id | id in logs(0) && Wanted(f, logs(0)[id]);
  }
}
