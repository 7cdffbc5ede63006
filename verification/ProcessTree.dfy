/** Summing the resources of a process and everything below it, over parent links that may be stale
 *  or form cycles. */
module ProcessTree {
  import opened Options

  type Pid = int

  datatype Row = Row(pid: Pid, ppid: Pid, rss: int, cpuSeconds: real, started: Option<int>)

  datatype Stats = Stats(rss: int, cpuSeconds: real)

  predicate UniquePids(rows: seq<Row>) {
    forall i, j :: 0 <= i < j < |rows| ==> rows[i].pid != rows[j].pid
  }

  function Pids(rows: seq<Row>): set<Pid> {
    set r | r in rows :: r.pid
  }

  /** `c` is accepted as a child of `r`: its parent link says so, it is not `r` itself, and it is not
   *  known to be older, as a process that inherited a recycled parent pid would be. */
  predicate IsChild(r: Row, c: Row) {
    c.ppid == r.pid && Plausible(r, c)
  }

  predicate Plausible(r: Row, c: Row) {
    c.pid != r.pid && !(c.started.Some? && r.started.Some? && c.started.value < r.started.value)
  }

  /** A chain of `n` accepted links leads from `from` to `to`. */
  ghost predicate Leads(rows: seq<Row>, from: Row, to: Row, n: nat)
    decreases n
  {
    if n == 0 then from == to
    else exists via :: via in rows && IsChild(via, to) && Leads(rows, from, via, n - 1)
  }

  ghost predicate Below(rows: seq<Row>, from: Row, to: Row) {
    exists n: nat :: Leads(rows, from, to, n)
  }

  /** Nothing known to be older than its parent is counted below it: along accepted links start times do not go
   *  back. */
  lemma {:induction false} NobodyOlderIsBelow(rows: seq<Row>, from: Row, to: Row, n: nat)
    requires Leads(rows, from, to, n) && from.started.Some? && to.started.Some?
    requires forall r :: r in rows ==> r.started.Some?
    ensures from.started.value <= to.started.value
    decreases n
  {
    if n > 0 {
      var via :| via in rows && IsChild(via, to) && Leads(rows, from, via, n - 1);
      NobodyOlderIsBelow(rows, from, via, n - 1);
    }
  }

  /** And every process whose parent link says so is counted below its parent, unless it is the parent itself or
   *  known to be older. */
  lemma EveryChildIsBelow(rows: seq<Row>, top: Row, r: Row, c: Row)
    requires r in rows && Below(rows, top, r) && c.ppid == r.pid && c.pid != r.pid
    requires c.started.Some? && r.started.Some? ==> r.started.value <= c.started.value
    ensures Below(rows, top, c)
  {
    OneFurther(rows, top, r, c);
  }

  /** The pids of a process and of everything below it. */
  ghost function Tree(rows: seq<Row>, top: Row): set<Pid> {
    set r | r in rows && Below(rows, top, r) :: r.pid
  }

  /** The stats of the rows with the given pids, each counted once. */
  function Total(rows: seq<Row>, pids: set<Pid>): Stats {
    if rows == [] then Stats(0, 0.0)
    else
      var rest, r := Total(rows[..|rows| - 1], pids), rows[|rows| - 1];
      if r.pid in pids then Stats(rest.rss + r.rss, rest.cpuSeconds + r.cpuSeconds) else rest
  }

  lemma {:induction false} TotalWithout(rows: seq<Row>, pids: set<Pid>, p: Pid)
    requires forall r :: r in rows ==> r.pid != p
    ensures Total(rows, pids + {p}) == Total(rows, pids)
  {
    if rows != [] {
      assert rows[|rows| - 1] in rows;
      assert forall r :: r in rows[..|rows| - 1] ==> r in rows;
      TotalWithout(rows[..|rows| - 1], pids, p);
    }
  }

  /** One more pid adds exactly its own row. */
  lemma {:induction false} TotalWith(rows: seq<Row>, pids: set<Pid>, r: Row)
    requires UniquePids(rows) && r in rows && r.pid !in pids
    ensures var before := Total(rows, pids);
            Total(rows, pids + {r.pid}) == Stats(before.rss + r.rss, before.cpuSeconds + r.cpuSeconds)
  {
    var init, last := rows[..|rows| - 1], rows[|rows| - 1];
    assert rows == init + [last];
    if last == r {
      assert forall x :: x in init ==> exists i :: 0 <= i < |init| && x == rows[i];
      TotalWithout(init, pids, r.pid);
    } else {
      assert r in init;
      TotalWith(init, pids, r);
      assert last.pid != r.pid by {
        var i :| 0 <= i < |init| && init[i] == r;
        assert rows[i] == r;
      }
    }
  }

  // ---------------------------------------------------------------- the walk

  /** Whatever is below `top` has been seen, once everything seen has its children seen. */
  lemma {:induction false} ClosedContains(rows: seq<Row>, top: Row, seen: set<Pid>, to: Row, n: nat)
    requires top.pid in seen && Leads(rows, top, to, n)
    requires forall r, c :: r in rows && c in rows && r.pid in seen && IsChild(r, c) ==> c.pid in seen
    requires to in rows
    ensures to.pid in seen
    decreases n
  {
    if n > 0 {
      var via :| via in rows && IsChild(via, to) && Leads(rows, top, via, n - 1);
      ClosedContains(rows, top, seen, via, n - 1);
    }
  }

  lemma OneFurther(rows: seq<Row>, top: Row, r: Row, c: Row)
    requires r in rows && Below(rows, top, r) && IsChild(r, c)
    ensures Below(rows, top, c)
  {
    var n: nat :| Leads(rows, top, r, n);
    assert Leads(rows, top, c, n + 1);
  }

  lemma SamePid(rows: seq<Row>, a: Row, b: Row)
    requires UniquePids(rows) && a in rows && b in rows && a.pid == b.pid
    ensures a == b
  {
    var i :| 0 <= i < |rows| && rows[i] == a;
    var j :| 0 <= j < |rows| && rows[j] == b;
  }

  /** `children` lists every row under its parent pid, and `byPid` finds every row. */
  ghost predicate Indexed(rows: seq<Row>, children: map<Pid, seq<Row>>, byPid: map<Pid, Row>) {
    && (forall r :: r in rows ==> r.pid in byPid)
    && (forall p :: p in byPid ==> byPid[p] in rows && byPid[p].pid == p)
    && (forall r :: r in rows ==> r.ppid in children && r in children[r.ppid])
    && (forall p, r :: p in children && r in children[p] ==> r in rows && r.ppid == p)
  }

  method Index(rows: seq<Row>) returns (children: map<Pid, seq<Row>>, byPid: map<Pid, Row>)
    ensures Indexed(rows, children, byPid)
  {
    children, byPid := map[], map[];
    for i := 0 to |rows|
      invariant Indexed(rows[..i], children, byPid)
    {
      var r := rows[i];
      assert rows[..i + 1] == rows[..i] + [r];
      byPid := byPid[r.pid := r];
      children := children[r.ppid := (if r.ppid in children then children[r.ppid] else []) + [r]];
    }
    assert rows[..|rows|] == rows;
  }

  /** What the walk has found, and what it has still to look at. */
  ghost predicate Walking(rows: seq<Row>, top: Row, seen: set<Pid>, stack: seq<Row>) {
    && seen <= Pids(rows)
    && (forall r :: r in stack ==> r in rows && Below(rows, top, r))
    && (forall r :: r in rows && r.pid in seen ==> Below(rows, top, r))
    && (top.pid in seen || top in stack)
    && (forall r, c :: r in rows && c in rows && r.pid in seen && IsChild(r, c) ==> c.pid in seen || c in stack)
  }

  /** The accepted ones among the rows that name `r` as their parent. */
  method Push(r: Row, candidates: seq<Row>, stack: seq<Row>) returns (stack': seq<Row>)
    ensures forall x :: x in stack' <==> x in stack || (x in candidates && Plausible(r, x))
  {
    stack' := stack;
    for i := 0 to |candidates|
      invariant forall x :: x in stack' <==> x in stack || (x in candidates[..i] && Plausible(r, x))
    {
      var c := candidates[i];
      assert candidates[..i + 1] == candidates[..i] + [c];
      if c.pid == r.pid { continue; }
      if c.started.Some? && r.started.Some? && c.started.value < r.started.value { continue; }
      stack' := stack' + [c];
    }
    assert candidates[..|candidates|] == candidates;
  }

  /** The rows accepted as children of `r` go on the stack. */
  method PushChildren(rows: seq<Row>, children: map<Pid, seq<Row>>, ghost byPid: map<Pid, Row>, r: Row, stack: seq<Row>)
    returns (stack': seq<Row>)
    requires Indexed(rows, children, byPid)
    ensures forall x :: x in stack' <==> x in stack || (x in rows && IsChild(r, x))
  {
    stack' := Push(r, if r.pid in children then children[r.pid] else [], stack);
  }

  /** One step of the walk to a row not seen before. */
  lemma WalkOn(rows: seq<Row>, top: Row, seen: set<Pid>, stack: seq<Row>, r: Row, rest: seq<Row>, next: seq<Row>)
    requires UniquePids(rows) && Walking(rows, top, seen, stack) && stack == rest + [r] && r.pid !in seen
    requires forall x :: x in next <==> x in rest || (x in rows && IsChild(r, x))
    ensures Walking(rows, top, seen + {r.pid}, next)
  {
    assert r in stack;
    forall x | x in next
      ensures x in rows && Below(rows, top, x)
    {
      if x in rest { assert x in stack; } else { OneFurther(rows, top, r, x); }
    }
    forall x | x in rows && x.pid in seen + {r.pid}
      ensures Below(rows, top, x)
    {
      if x.pid == r.pid { SamePid(rows, x, r); }
    }
    forall a, c | a in rows && c in rows && a.pid in seen + {r.pid} && IsChild(a, c)
      ensures c.pid in seen + {r.pid} || c in next
    {
      if a.pid == r.pid { SamePid(rows, a, r); }
      else if c.pid !in seen { assert c in stack; }
    }
  }

  /** The stats of one process tree. */
  method SumTree(rows: seq<Row>, children: map<Pid, seq<Row>>, ghost byPid: map<Pid, Row>,
                 top: Row) returns (stats: Stats)
    requires UniquePids(rows) && Indexed(rows, children, byPid) && top in rows
    ensures stats == Total(rows, Tree(rows, top))
  {
    hide Total, Tree, Walking, UniquePids, Indexed, IsChild;
    var rss, cpuSeconds := 0, 0.0;
    var seen: set<Pid> := {};
    var stack := [top];
    WalkBegins(rows, top);
    TotalOfNone(rows);
    while |stack| > 0
      invariant Walking(rows, top, seen, stack)
      invariant Total(rows, seen) == Stats(rss, cpuSeconds)
      decreases Pids(rows) - seen, |stack|
    {
      var r := stack[|stack| - 1];
      ghost var was := stack;
      stack := stack[..|stack| - 1];
      assert was == stack + [r];
      OnTheStack(rows, top, seen, was, r);
      if r.pid in seen {
        SeenAgain(rows, top, seen, was, stack, r);
        continue;
      }
      TotalWith(rows, seen, r);
      var next := PushChildren(rows, children, byPid, r, stack);
      WalkOn(rows, top, seen, was, r, stack, next);
      seen := seen + {r.pid};
      rss, cpuSeconds := rss + r.rss, cpuSeconds + r.cpuSeconds;
      stack := next;
    }
    assert stack == [];
    WalkIsComplete(rows, top, seen);
    return Stats(rss, cpuSeconds);
  }

  lemma WalkBegins(rows: seq<Row>, top: Row)
    requires top in rows
    ensures Walking(rows, top, {}, [top])
  {
    assert Leads(rows, top, top, 0);
  }

  lemma OnTheStack(rows: seq<Row>, top: Row, seen: set<Pid>, stack: seq<Row>, r: Row)
    requires Walking(rows, top, seen, stack) && r in stack
    ensures r in rows && r.pid in Pids(rows)
  {}

  lemma {:induction false} TotalOfNone(rows: seq<Row>)
    ensures Total(rows, {}) == Stats(0, 0.0)
  {
    if rows != [] { TotalOfNone(rows[..|rows| - 1]); }
  }

  lemma SeenAgain(rows: seq<Row>, top: Row, seen: set<Pid>, stack: seq<Row>, rest: seq<Row>, r: Row)
    requires UniquePids(rows) && Walking(rows, top, seen, stack) && stack == rest + [r] && r.pid in seen
    ensures Walking(rows, top, seen, rest)
  {
    forall x | x in rest ensures x in stack {}
    if top.pid !in seen { assert top in stack; }
    forall a, c | a in rows && c in rows && a.pid in seen && IsChild(a, c)
      ensures c.pid in seen || c in rest
    {
      if c.pid !in seen { assert c in stack; }
    }
  }

  lemma WalkIsComplete(rows: seq<Row>, top: Row, seen: set<Pid>)
    requires UniquePids(rows) && Walking(rows, top, seen, []) && top in rows
    ensures seen == Tree(rows, top)
  {
    forall p ensures p in seen <==> p in Tree(rows, top) {
      if p in seen {
        var r :| r in rows && r.pid == p;
        assert Below(rows, top, r);
      }
      if p in Tree(rows, top) {
        var r :| r in rows && Below(rows, top, r) && r.pid == p;
        var n: nat :| Leads(rows, top, r, n);
        ClosedContains(rows, top, seen, r, n);
      }
    }
  }

  /** For each root that is there, the stats of exactly the rows reachable through accepted links, each
   *  counted once, whatever cycles the links form; a root with no row is absent. */
  method SumProcessTrees(rows: seq<Row>, roots: seq<Pid>) returns (out: map<Pid, Stats>)
    requires UniquePids(rows)
    ensures forall p :: p in out <==> p in roots && p in Pids(rows)
    ensures forall r :: r in rows && r.pid in roots ==> r.pid in out && out[r.pid] == Total(rows, Tree(rows, r))
  {
    var children, byPid := Index(rows);
    out := map[];
    for i := 0 to |roots|
      invariant forall p :: p in out <==> p in roots[..i] && p in Pids(rows)
      invariant forall r :: r in rows && r.pid in roots[..i] ==>
            r.pid in out && out[r.pid] == Total(rows, Tree(rows, r))
    {
      var root := roots[i];
      assert roots[..i + 1] == roots[..i] + [root];
      if root !in byPid { continue; }
      var top := byPid[root];
      var stats := SumTree(rows, children, byPid, top);
      forall r | r in rows && r.pid == root ensures r == top { SamePid(rows, r, top); }
      out := out[root := stats];
    }
    assert roots[..|roots|] == roots;
  }
}
