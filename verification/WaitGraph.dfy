/**
 * The graph of which agent's turn waits on which: an ask that would close a
 * cycle is refused.
 */
module WaitGraph {

  datatype Agent = Agent(id: string)

  /** caller -> target -> asks in flight */
  type Edges = map<Agent, map<Agent, int>>

  /** A call of begin, granted or refused, or a call of end. */
  datatype Event = Begin(caller: Agent, target: Agent) | End(caller: Agent, target: Agent)

  // ---- The graph as a value ----

  /** edges[caller][target], zero for whatever is missing. */
  function Count(g: Edges, caller: Agent, target: Agent): int {
    if caller in g && target in g[caller] then g[caller][target] else 0
  }

  /** The agents x waits on directly. */
  function Targets(g: Edges, x: Agent): set<Agent> {
    if x in g then g[x].Keys else {}
  }

  /** No empty inner map is kept, and no zero count. */
  ghost predicate Tidy(g: Edges) {
    forall c :: c in g ==> g[c] != map[] && forall t :: t in g[c] ==> g[c][t] > 0
  }

  /** p leads along edges from its first agent to its last. */
  ghost predicate IsPath(g: Edges, p: seq<Agent>) {
    |p| > 0 && forall i :: 0 <= i < |p| - 1 ==> p[i + 1] in Targets(g, p[i])
  }

  ghost predicate Leads(g: Edges, p: seq<Agent>, x: Agent, y: Agent) {
    IsPath(g, p) && p[0] == x && p[|p| - 1] == y
  }

  /** x waits on y, directly, through others, or by being y. */
  ghost predicate Reaches(g: Edges, x: Agent, y: Agent) { exists p :: Leads(g, p, x, y) }

  /** Nobody waits on itself, directly or through others. */
  ghost predicate Acyclic(g: Edges) {
    forall x, y :: y in Targets(g, x) ==> !Reaches(g, y, x)
  }

  function AddWait(g: Edges, caller: Agent, target: Agent): Edges {
    var inner := if caller in g then g[caller] else map[];
    g[caller := inner[target := Count(g, caller, target) + 1]]
  }

  function EndWait(g: Edges, caller: Agent, target: Agent): Edges {
    if Count(g, caller, target) > 1 then g[caller := g[caller][target := Count(g, caller, target) - 1]]
    else if caller !in g then g
    else if g[caller] - {target} == map[] then g - {caller}
    else g[caller := g[caller] - {target}]
  }

  // ---- Paths ----

  lemma StepThenReach(g: Edges, x: Agent, y: Agent, z: Agent)
    requires y in Targets(g, x) && Reaches(g, y, z)
    ensures Reaches(g, x, z)
  {
    var p :| Leads(g, p, y, z);
    assert Leads(g, [x] + p, x, z);
  }

  lemma SelfReach(g: Edges, x: Agent)
    ensures Reaches(g, x, x)
  {
    assert Leads(g, [x], x, x);
  }

  lemma {:induction false} ClosedSetTraps(g: Edges, s: set<Agent>, p: seq<Agent>)
    requires IsPath(g, p) && p[0] in s && forall v :: v in s ==> Targets(g, v) <= s
    ensures p[|p| - 1] in s
  {
    if |p| > 1 {
      assert p[1] in Targets(g, p[0]);
      ClosedSetTraps(g, s, p[1..]);
    }
  }

  /** A set no edge leaves holds everything its members reach. */
  lemma ClosedSetMisses(g: Edges, s: set<Agent>, x: Agent, y: Agent)
    requires x in s && y !in s && forall v :: v in s ==> Targets(g, v) <= s
    ensures !Reaches(g, x, y)
  {
    forall p | Leads(g, p, x, y) ensures false {
      ClosedSetTraps(g, s, p);
    }
  }

  lemma JoinPaths(g: Edges, x: Agent, y: Agent, z: Agent)
    requires Reaches(g, x, y) && Reaches(g, y, z)
    ensures Reaches(g, x, z)
  {
    var p :| Leads(g, p, x, y);
    var q :| Leads(g, q, y, z);
    var r := p + q[1..];
    assert Leads(g, r, x, z);
  }

  // ---- Adding and removing waits ----

  /** A path that uses the new edge leads to it and on from it. */
  lemma {:induction false} PathWithNewEdge(g: Edges, caller: Agent, target: Agent, p: seq<Agent>)
    requires IsPath(AddWait(g, caller, target), p)
    ensures Reaches(g, p[0], p[|p| - 1])
      || (Reaches(g, p[0], caller) && Reaches(g, target, p[|p| - 1]))
  {
    SelfReach(g, p[0]);
    if |p| > 1 {
      assert p[1] in Targets(AddWait(g, caller, target), p[0]);
      PathWithNewEdge(g, caller, target, p[1..]);
      if p[1] in Targets(g, p[0]) {
        if Reaches(g, p[1], p[|p| - 1]) { StepThenReach(g, p[0], p[1], p[|p| - 1]); }
        if Reaches(g, p[1], caller) { StepThenReach(g, p[0], p[1], caller); }
      }
    }
  }

  /** Recording a wait closes a cycle exactly when the target already waits on the caller. */
  lemma AddWaitClosesCycleIff(g: Edges, caller: Agent, target: Agent)
    requires Acyclic(g)
    ensures Acyclic(AddWait(g, caller, target)) <==> !Reaches(g, target, caller)
  {
    var g' := AddWait(g, caller, target);
    if Reaches(g, target, caller) {
      var p :| Leads(g, p, target, caller);
      assert forall x :: Targets(g, x) <= Targets(g', x);
      assert Leads(g', p, target, caller);
      assert target in Targets(g', caller);
    } else {
      forall x, y | y in Targets(g', x) ensures !Reaches(g', y, x) {
        if Reaches(g', y, x) {
          var p :| Leads(g', p, y, x);
          PathWithNewEdge(g, caller, target, p);
          if y in Targets(g, x) {
            StepThenReach(g, x, y, caller);
            JoinPaths(g, target, x, caller);
          }
        }
      }
    }
  }

  /** Ending a wait adds no edge, so it closes no cycle. */
  lemma EndWaitKeepsAcyclic(g: Edges, caller: Agent, target: Agent)
    requires Acyclic(g)
    ensures Acyclic(EndWait(g, caller, target))
  {
    var g' := EndWait(g, caller, target);
    assert forall x :: Targets(g', x) <= Targets(g, x);
    forall x, y | y in Targets(g', x) ensures !Reaches(g', y, x) {
      if Reaches(g', y, x) {
        var p :| Leads(g', p, y, x);
        assert Leads(g, p, y, x);
      }
    }
  }

  // ---- Any sequence of calls ----

  /** The graph after the calls in h. */
  ghost function After(h: seq<Event>): Edges {
    if h == [] then map[]
    else
      var g, last := After(h[..|h| - 1]), h[|h| - 1];
      match last
      case Begin(c, t) => if Reaches(g, t, c) then g else AddWait(g, c, t)
      case End(c, t) => EndWait(g, c, t)
  }

  lemma AfterBegin(h: seq<Event>, caller: Agent, target: Agent)
    ensures After(h + [Begin(caller, target)]) ==
      if Reaches(After(h), target, caller) then After(h) else AddWait(After(h), caller, target)
  {
    assert (h + [Begin(caller, target)])[..|h|] == h;
  }

  /** The granted begins of caller on target, less the ends. */
  ghost function Outstanding(h: seq<Event>, caller: Agent, target: Agent): int {
    if h == [] then 0
    else
      var before := h[..|h| - 1];
      Outstanding(before, caller, target) +
      match h[|h| - 1]
      case Begin(c, t) => if c == caller && t == target && !Reaches(After(before), t, c) then 1 else 0
      case End(c, t) => if c == caller && t == target then -1 else 0
  }

  /** Each end gives back a begin that was granted, as the deferred call in ask does. */
  ghost predicate Paired(h: seq<Event>) {
    forall i :: 0 <= i < |h| && h[i].End? ==> Outstanding(h[..i], h[i].caller, h[i].target) > 0
  }

  /** Whatever is begun and ended, the counts are the waits outstanding and nobody waits on itself. */
  lemma {:induction false} AfterCalls(h: seq<Event>)
    requires Paired(h)
    ensures Acyclic(After(h)) && Tidy(After(h))
    ensures forall c, t :: Count(After(h), c, t) == Outstanding(h, c, t)
  {
    if h != [] {
      var before, last := h[..|h| - 1], h[|h| - 1];
      forall i | 0 <= i < |before| && before[i].End?
        ensures Outstanding(before[..i], before[i].caller, before[i].target) > 0
      {
        assert before[..i] == h[..i];
      }
      AfterCalls(before);
      var g := After(before);
      if last.End? {
        assert h[..|h| - 1] == before;
        EndWaitKeepsAcyclic(g, last.caller, last.target);
        EndWaitCounts(g, last.caller, last.target);
      } else if !Reaches(g, last.target, last.caller) {
        AddWaitClosesCycleIff(g, last.caller, last.target);
        AddWaitCounts(g, last.caller, last.target);
      }
    }
  }

  lemma AddWaitCounts(g: Edges, caller: Agent, target: Agent)
    requires Tidy(g)
    ensures Tidy(AddWait(g, caller, target))
    ensures forall c, t :: Count(AddWait(g, caller, target), c, t) == Count(g, c, t) + (if c == caller && t == target then 1 else 0)
  {
    assert target in AddWait(g, caller, target)[caller];
  }

  lemma EndWaitCounts(g: Edges, caller: Agent, target: Agent)
    requires Tidy(g) && Count(g, caller, target) > 0
    ensures Tidy(EndWait(g, caller, target))
    ensures forall c, t :: Count(EndWait(g, caller, target), c, t) == Count(g, c, t) - (if c == caller && t == target then 1 else 0)
  {
    var g' := EndWait(g, caller, target);
    var rest := g[caller] - {target};
    if Count(g, caller, target) == 1 && rest != map[] {
      assert g' == g[caller := rest];
    }
    if rest == map[] {
      assert forall t :: t in g[caller] && t != target ==> t in rest;
    }
    forall c, t
      ensures Count(g', c, t) == Count(g, c, t) - if c == caller && t == target then 1 else 0
    {
      if c == caller && t != target && t in g[caller] { assert t in rest; }
    }
  }

  // ---- Progress ----

  /** From x, follow waits until one leads to an agent that waits on nobody; an agent seen twice would be on a cycle. */
  lemma {:induction false} WaitsEnd(g: Edges, x: Agent, passed: set<Agent>) returns (w: Agent, f: Agent)
    requires Acyclic(g) && Tidy(g) && x in g && passed <= g.Keys
    requires x !in passed && forall v :: v in passed ==> Reaches(g, v, x)
    ensures f in Targets(g, w) && Targets(g, f) == {}
    decreases g.Keys - passed
  {
    var y :| y in g[x];
    if y !in g { return x, y; }
    var passed' := passed + {x};
    SelfReach(g, x);
    SelfReach(g, y);
    StepThenReach(g, x, y, y);
    forall v | v in passed' ensures Reaches(g, v, y) {
      JoinPaths(g, v, x, y);
    }
    assert y !in passed';
    w, f := WaitsEnd(g, y, passed');
  }

  /** The asks in flight are never all stuck on one another: some agent waits on one that waits on nobody. */
  lemma SomeoneCanRun(h: seq<Event>) returns (w: Agent, f: Agent)
    requires Paired(h) && After(h) != map[]
    ensures f in Targets(After(h), w) && Targets(After(h), f) == {}
  {
    AfterCalls(h);
    var x :| x in After(h);
    w, f := WaitsEnd(After(h), x, {});
  }

  // ---- The class ----

  /** The seen map of one search, shared by all its branches. */
  class Seen {
    var names: set<Agent>
    constructor ()
      ensures names == {}
    {
      names := {};
    }
  }

  class Graph {
    var edges: Edges
    ghost var history: seq<Event>

    /** The edges are what the calls made so far leave. */
    ghost predicate Valid()
      reads this
    {
      edges == After(history)
    }

    constructor ()
      ensures Valid() && history == []
    {
      edges, history := map[], [];
    }

    /**
     * The depth-first search. universe bounds it: every agent the graph names.
     * On failure, everything newly seen has all its targets seen.
     */
    method ReachesLocked(from: Agent, to: Agent, seen: Seen, ghost universe: set<Agent>) returns (found: bool)
      requires from in universe && forall x :: x in universe ==> Targets(edges, x) <= universe
      requires to !in seen.names && seen.names <= universe
      modifies seen
      decreases universe - seen.names
      ensures found ==> Reaches(edges, from, to)
      ensures old(seen.names) <= seen.names <= universe
      ensures !found ==> from in seen.names && to !in seen.names
      ensures !found ==> forall x :: x in seen.names && x !in old(seen.names) ==> Targets(edges, x) <= seen.names
    {
      if from == to {
        SelfReach(edges, from);
        return true;
      }
      if from in seen.names {
        return false;
      }
      seen.names := seen.names + {from};
      ghost var entered := seen.names;
      var rest := Targets(edges, from);
      while rest != {}
        invariant rest <= Targets(edges, from)
        invariant entered <= seen.names <= universe && to !in seen.names
        invariant Targets(edges, from) - rest <= seen.names
        invariant forall x :: x in seen.names && x !in entered ==> Targets(edges, x) <= seen.names
        decreases rest
      {
        var next :| next in rest;
        var hit := ReachesLocked(next, to, seen, universe);
        if hit {
          StepThenReach(edges, from, next, to);
          return true;
        }
        rest := rest - {next};
      }
      found := false;
    }

    /** The search begin makes, from an empty seen map: true exactly when there is a path. */
    method HasPath(from: Agent, to: Agent) returns (found: bool)
      ensures found <==> Reaches(edges, from, to)
    {
      var seen := new Seen();
      ghost var universe := Named(edges) + {from};
      NamedIsClosed(edges, from);
      hide Named, Reaches;
      found := ReachesLocked(from, to, seen, universe);
      if !found { ClosedSetMisses(edges, seen.names, from, to); }
    }

    /** begin: records the wait, unless the target already waits on the caller. */
    method Begin(caller: Agent, target: Agent) returns (ok: bool)
      requires Valid()
      modifies this
      ensures ok <==> !Reaches(old(edges), target, caller)
      ensures edges == if ok then AddWait(old(edges), caller, target) else old(edges)
      ensures Valid() && history == old(history) + [Event.Begin(caller, target)]
    {
      AfterBegin(history, caller, target);
      hide After, Reaches;
      history := history + [Event.Begin(caller, target)];
      var cycle := HasPath(target, caller);
      if cycle { return false; }
      var inner := if caller in edges then edges[caller] else map[];
      var n := if target in inner then inner[target] else 0;
      edges := edges[caller := inner[target := n + 1]];
      return true;
    }

    /** end: removes one wait, whether or not there was one. */
    method End(caller: Agent, target: Agent)
      requires Valid()
      modifies this
      ensures edges == EndWait(old(edges), caller, target)
      ensures Valid() && history == old(history) + [Event.End(caller, target)]
    {
      history := history + [Event.End(caller, target)];
      if Count(edges, caller, target) <= 1 {
        if caller in edges {
          edges := edges[caller := edges[caller] - {target}];
          if edges[caller] == map[] {
            edges := edges - {caller};
          }
        }
        return;
      }
      edges := edges[caller := edges[caller][target := edges[caller][target] - 1]];
    }
  }

  /** Every agent the graph mentions. */
  ghost function Named(g: Edges): set<Agent> {
    g.Keys + (set c, t | c in g && t in g[c] :: t)
  }

  lemma NamedIsClosed(g: Edges, x: Agent)
    ensures forall v :: v in Named(g) + {x} ==> Targets(g, v) <= Named(g) + {x}
  {
  }
}
