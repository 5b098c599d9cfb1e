/** Lineage of experiments: the forest that parents make, and its walks. */
module Lineage {
  import opened Wrappers
  import opened Text
  import opened Registry

  // ---- creation order ----

  /** The experiments of a log in the order of their creation. */
  function Born(log: Log): seq<string> {
    if log == [] then []
    else Born(log[..|log| - 1]) + (if log[|log| - 1].Created? then [log[|log| - 1].id] else [])
  }

  /** Every experiment comes once, and after its parent. */
  ghost predicate Ordered(rs: Records, born: seq<string>) {
    && (forall id :: id in rs <==> id in born)
    && (forall i, j :: 0 <= i < j < |born| ==> born[i] != born[j])
    && (forall i :: 0 <= i < |born| ==> ParentBefore(rs, born, i))
  }

  ghost predicate ParentBefore(rs: Records, born: seq<string>, i: nat)
    requires i < |born|
  {
    born[i] in rs && (rs[born[i]].parent.Some? ==> rs[born[i]].parent.value in born[..i])
  }

  lemma OrderedByOne(rs: Records, born: seq<string>, e: Entry)
    requires Ordered(rs, born) && Apply(rs, e).Some?
    ensures Ordered(Apply(rs, e).value, born + (if e.Created? then [e.id] else []))
  {
    var rs', born' := Apply(rs, e).value, born + (if e.Created? then [e.id] else []);
    forall i | 0 <= i < |born'|
      ensures ParentBefore(rs', born', i)
    {
      assert i < |born| ==> ParentBefore(rs, born, i) && born'[..i] == born[..i];
      assert i == |born| ==> born'[..i] == born;
    }
  }

  /** In every registry the calls can reach, parents are older than their children. */
  lemma {:induction false} HistoryIsOrdered(log: Log)
    requires Replay(log).Some?
    ensures Ordered(Replay(log).value, Born(log))
  {
    if log != [] {
      HistoryIsOrdered(log[..|log| - 1]);
      OrderedByOne(Replay(log[..|log| - 1]).value, Born(log[..|log| - 1]), log[|log| - 1]);
    }
  }

  function Age(born: seq<string>, id: string): (i: nat)
    requires id in born
    ensures i < |born| && born[i] == id
  {
    if born[|born| - 1] == id then |born| - 1 else Age(born[..|born| - 1], id)
  }

  lemma AgeIsIndex(rs: Records, born: seq<string>, i: nat)
    requires Ordered(rs, born) && i < |born|
    ensures Age(born, born[i]) == i
  {
  }

  lemma ParentIsOlder(rs: Records, born: seq<string>, id: string)
    requires Ordered(rs, born) && id in rs && rs[id].parent.Some?
    ensures rs[id].parent.value in rs && Age(born, rs[id].parent.value) < Age(born, id)
  {
    var i := Age(born, id);
    assert ParentBefore(rs, born, i);
    var p := rs[id].parent.value;
    assert p in born[..i];
    var j :| 0 <= j < i && born[..i][j] == p;
    assert born[j] == p;
    AgeIsIndex(rs, born, j);
  }

  // ---- ancestors ----

  /** The chain of parents, root first. */
  ghost function Ancestors(rs: Records, born: seq<string>, id: string): seq<string>
    requires Ordered(rs, born) && id in rs
    decreases Age(born, id)
  {
    match rs[id].parent
    case None => []
    case Some(p) =>
      ParentIsOlder(rs, born, id);
      Ancestors(rs, born, p) + [p]
  }

  /** The chain up to and including an experiment; nothing above the roots. */
  ghost function Line(rs: Records, born: seq<string>, at: Option<string>): seq<string>
    requires Ordered(rs, born) && (at.Some? ==> at.value in rs)
  {
    match at
    case None => []
    case Some(p) => Ancestors(rs, born, p) + [p]
  }

  lemma LineStep(rs: Records, born: seq<string>, p: string)
    requires Ordered(rs, born) && p in rs
    ensures rs[p].parent.Some? ==> rs[p].parent.value in rs
    ensures Line(rs, born, Some(p)) == Line(rs, born, rs[p].parent) + [p]
  {
    if rs[p].parent.Some? {
      ParentIsOlder(rs, born, p);
    }
  }

  function Reversed(s: seq<string>): (r: seq<string>)
    ensures |r| == |s|
  {
    if s == [] then [] else Reversed(s[1..]) + [s[0]]
  }

  lemma {:induction false} ReversedSnoc(s: seq<string>, x: string)
    ensures Reversed(s + [x]) == [x] + Reversed(s)
  {
    if s == [] {
      assert s + [x] == [x];
    } else {
      assert (s + [x])[1..] == s[1..] + [x];
      ReversedSnoc(s[1..], x);
    }
  }

  datatype Walk = Found(ids: seq<string>) | NotRegistered | MalformedLog

  /** Halfway up: the line above, then the chain already walked, is the whole line. */
  ghost predicate Climbing(rs: Records, born: seq<string>, id: string, current: Option<string>, chain: seq<string>, visited: set<string>)
    requires Ordered(rs, born) && id in rs
  {
    && (current.Some? ==> current.value in rs && forall v :: v in visited && v in rs ==> Age(born, current.value) < Age(born, v))
    && Line(rs, born, current) + Reversed(chain) == Ancestors(rs, born, id)
  }

  lemma StartClimbing(rs: Records, born: seq<string>, id: string)
    requires Ordered(rs, born) && id in rs
    ensures Climbing(rs, born, id, rs[id].parent, [], {id})
  {
    LineStep(rs, born, id);
    if rs[id].parent.Some? {
      ParentIsOlder(rs, born, id);
    }
    assert Line(rs, born, rs[id].parent) + [] == Line(rs, born, rs[id].parent);
  }

  lemma ClimbOn(rs: Records, born: seq<string>, id: string, c: string, chain: seq<string>, visited: set<string>)
    requires Ordered(rs, born) && id in rs && Climbing(rs, born, id, Some(c), chain, visited)
    ensures c !in visited && c in rs && Climbing(rs, born, id, rs[c].parent, chain + [c], visited + {c})
  {
    hide Ordered, Ancestors, Line, Reversed, Age;
    LineStep(rs, born, c);
    ReversedSnoc(chain, c);
    if rs[c].parent.Some? {
      ParentIsOlder(rs, born, c);
    }
    var above := Line(rs, born, rs[c].parent);
    assert above + [c] + Reversed(chain) == above + ([c] + Reversed(chain));
  }

  /**
   Walks up parent by parent, guarding against a cycle and an unknown parent.  Where every
   parent is older than its children neither is met, and the walk finds the ancestors, root
   first.
   */
  method GetAncestors(rs: Records, id: string, ghost born: seq<string>) returns (out: Walk)
    ensures out.NotRegistered? <==> id !in rs
    ensures id in rs && Ordered(rs, born) ==> out == Found(Ancestors(rs, born, id))
  {
    if id !in rs { return NotRegistered; }
    var chain: seq<string>, visited := [], {id};
    var current := rs[id].parent;
    if Ordered(rs, born) { StartClimbing(rs, born, id); }
    while current.Some?
      invariant visited <= rs.Keys
      invariant Ordered(rs, born) ==> Climbing(rs, born, id, current, chain, visited)
      decreases rs.Keys - visited, current.Some?
    {
      var c := current.value;
      if Ordered(rs, born) { ClimbOn(rs, born, id, c, chain, visited); }
      if c in visited { return MalformedLog; }
      if c !in rs { return MalformedLog; }
      visited := visited + {c};
      chain := chain + [c];
      current := rs[c].parent;
    }
    assert Ordered(rs, born) ==> Line(rs, born, None) + Reversed(chain) == Reversed(chain);
    out := Found(Reversed(chain));
  }

  // ---- the order of query results ----

  /** Creation time first, then the id. */
  predicate NotAfter(rs: Records, a: string, b: string)
    requires a in rs && b in rs
  {
    if rs[a].created == rs[b].created then AtMost(a, b) else AtMost(rs[a].created, rs[b].created)
  }

  lemma NotAfterTotal(rs: Records, a: string, b: string)
    requires a in rs && b in rs
    ensures NotAfter(rs, a, b) || NotAfter(rs, b, a)
  {
    AtMostTotal(a, b);
    AtMostTotal(rs[a].created, rs[b].created);
  }

  lemma NotAfterTransitive(rs: Records, a: string, b: string, c: string)
    requires a in rs && b in rs && c in rs && NotAfter(rs, a, b) && NotAfter(rs, b, c)
    ensures NotAfter(rs, a, c)
  {
    var x, y, z := rs[a].created, rs[b].created, rs[c].created;
    if x == y == z {
      AtMostTransitive(a, b, c);
    } else {
      AtMostTransitive(x, y, z) by { AtMostTotal(x, x); AtMostTotal(y, y); }
      if x == z {
        AtMostAntisymmetric(x, y);
      }
    }
  }

  predicate Sorted(rs: Records, ids: seq<string>)
    requires forall i :: 0 <= i < |ids| ==> ids[i] in rs
  {
    forall i, j :: 0 <= i < j < |ids| ==> ids[i] != ids[j] && NotAfter(rs, ids[i], ids[j])
  }

  lemma Inserted(rs: Records, ids: seq<string>, k: nat, x: string)
    requires (forall i :: 0 <= i < |ids| ==> ids[i] in rs) && Sorted(rs, ids) && x in rs && x !in ids && k <= |ids|
    requires forall i :: 0 <= i < k ==> NotAfter(rs, ids[i], x)
    requires k < |ids| ==> NotAfter(rs, x, ids[k])
    ensures forall i :: 0 <= i < |ids[..k] + [x] + ids[k..]| ==> (ids[..k] + [x] + ids[k..])[i] in rs
    ensures Sorted(rs, ids[..k] + [x] + ids[k..])
  {
    forall j | k <= j < |ids|
      ensures NotAfter(rs, x, ids[j])
    {
      if k < j { NotAfterTransitive(rs, x, ids[k], ids[j]); }
    }
  }

  /** The ids in their order, by insertion. */
  method SortedIds(rs: Records, ids: set<string>) returns (s: seq<string>)
    requires ids <= rs.Keys
    ensures forall x :: x in s <==> x in ids
    ensures (forall i :: 0 <= i < |s| ==> s[i] in rs) && Sorted(rs, s)
  {
    s := [];
    var rest := ids;
    while rest != {}
      invariant rest <= ids && forall x :: x in s <==> x in ids && x !in rest
      invariant (forall i :: 0 <= i < |s| ==> s[i] in rs) && Sorted(rs, s)
      decreases rest
    {
      var x :| x in rest;
      var k := 0;
      while k < |s| && NotAfter(rs, s[k], x)
        invariant 0 <= k <= |s|
        invariant forall i :: 0 <= i < k ==> NotAfter(rs, s[i], x)
      {
        k := k + 1;
      }
      if k < |s| { NotAfterTotal(rs, s[k], x); }
      Inserted(rs, s, k, x);
      s := s[..k] + [x] + s[k..];
      rest := rest - {x};
    }
  }

  // ---- descendants ----

  function Children(rs: Records, id: string): set<string> {
    set c | c in rs && rs[c].parent == Some(id)
  }

  predicate Distinct(s: seq<string>) {
    forall i, j :: 0 <= i < j < |s| ==> s[i] != s[j]
  }

  /** Breadth first: whose children come when; siblings in their order. */
  ghost predicate ByLevels(rs: Records, id: string, ids: seq<string>, from: seq<nat>) {
    var all := [id] + ids;
    && |from| == |ids|
    && (forall i :: 0 <= i < |ids| ==> from[i] <= i && ids[i] in rs && rs[ids[i]].parent == Some(all[from[i]]))
    && (forall i, j :: 0 <= i < j < |ids| ==>
          from[i] <= from[j] && (from[i] == from[j] ==> NotAfter(rs, ids[i], ids[j])))
  }

  /** The walk so far: `done` experiments expanded, the rest of those seen still in the queue. */
  ghost predicate Spreading(rs: Records, born: seq<string>, id: string, ids: seq<string>, from: seq<nat>,
                            visited: set<string>, frontier: seq<string>)
    requires Ordered(rs, born) && id in rs
  {
    var all := [id] + ids;
    && ByLevels(rs, id, ids, from) && Distinct(all)
    && (forall x :: x in visited <==> x in all)
    && |frontier| <= |all| && frontier == all[|all| - |frontier|..]
    && (forall i :: 0 <= i < |ids| ==> from[i] < |all| - |frontier| && id in Ancestors(rs, born, ids[i]))
    && (forall i :: 0 <= i < |all| - |frontier| ==> Children(rs, all[i]) <= visited)
  }

  lemma DescentAges(rs: Records, born: seq<string>, id: string, x: string)
    requires Ordered(rs, born) && id in rs && x in rs && (x == id || id in Ancestors(rs, born, x))
    ensures Age(born, id) <= Age(born, x)
    decreases Age(born, x)
  {
    if x != id && rs[x].parent.Some? {
      ParentIsOlder(rs, born, x);
      DescentAges(rs, born, id, rs[x].parent.value);
    }
  }

  /** The children of the experiment at the head of the queue have not been seen yet. */
  lemma ChildrenAreNew(rs: Records, born: seq<string>, id: string, ids: seq<string>, from: seq<nat>,
                       visited: set<string>, frontier: seq<string>, c: string)
    requires Ordered(rs, born) && id in rs && Spreading(rs, born, id, ids, from, visited, frontier)
    requires frontier != [] && c in Children(rs, frontier[0])
    ensures c !in visited && id in Ancestors(rs, born, c)
  {
    var all := [id] + ids;
    var k := |all| - |frontier|;
    assert all[k] == frontier[0];
    if k > 0 { assert all[k] == ids[k - 1]; }
    ParentIsOlder(rs, born, c);
    DescentAges(rs, born, id, all[k]);
    if c in visited {
      var i :| 0 <= i < |all| && all[i] == c;
      if i > 0 { SeenFromDone(rs, born, id, ids, from, visited, frontier, i); }
      assert false;
    }
  }

  /** Whatever was found was found from an experiment that is expanded by now. */
  lemma SeenFromDone(rs: Records, born: seq<string>, id: string, ids: seq<string>, from: seq<nat>,
                     visited: set<string>, frontier: seq<string>, i: nat)
    requires Ordered(rs, born) && id in rs && Spreading(rs, born, id, ids, from, visited, frontier)
    requires frontier != [] && 0 < i <= |ids|
    ensures ids[i - 1] in rs && rs[ids[i - 1]].parent.Some? && rs[ids[i - 1]].parent.value != frontier[0]
  {
    var all := [id] + ids;
    var j, k := from[i - 1], |all| - |frontier|;
    assert rs[ids[i - 1]].parent == Some(all[j]) && j < k;
    assert all[j] != all[k];
  }

  lemma DistinctJoin(a: seq<string>, b: seq<string>)
    requires Distinct(a) && Distinct(b) && forall x :: x in b ==> x !in a
    ensures Distinct(a + b)
  {
    forall i, j | 0 <= i < j < |a + b|
      ensures (a + b)[i] != (a + b)[j]
    {
      if i < |a| <= j {
        assert b[j - |a|] in b;
      }
    }
  }

  /** Expanding the head of the queue with all its children, in their order. */
  lemma SpreadOn(rs: Records, born: seq<string>, id: string, ids: seq<string>, from: seq<nat>,
                 visited: set<string>, frontier: seq<string>, children: seq<string>)
    requires Ordered(rs, born) && id in rs && Spreading(rs, born, id, ids, from, visited, frontier) && frontier != []
    requires forall x :: x in children <==> x in Children(rs, frontier[0])
    requires (forall i :: 0 <= i < |children| ==> children[i] in rs) && Sorted(rs, children)
    ensures var k := 1 + |ids| - |frontier|;
            Spreading(rs, born, id, ids + children, from + seq(|children|, _ => k),
                      visited + (set x | x in children), frontier[1..] + children)
  {
    hide Ordered, Ancestors, Age;
    var k, all := 1 + |ids| - |frontier|, [id] + ids;
    var ids', from', visited' := ids + children, from + seq(|children|, _ => k), visited + (set x | x in children);
    var all', frontier' := [id] + ids', frontier[1..] + children;
    assert all' == all + children && all[k] == frontier[0];
    forall c | c in children
      ensures c !in visited && c !in all && id in Ancestors(rs, born, c)
    {
      ChildrenAreNew(rs, born, id, ids, from, visited, frontier, c);
    }
    DistinctJoin(all, children);
    assert frontier' == all'[|all'| - |frontier'|..];
    forall i | 0 <= i < |all'| - |frontier'|
      ensures Children(rs, all'[i]) <= visited'
    {
      assert all'[i] == all[i];
    }
    SpreadByLevels(rs, id, ids, from, children, k);
  }

  lemma SpreadByLevels(rs: Records, id: string, ids: seq<string>, from: seq<nat>, children: seq<string>, k: nat)
    requires ByLevels(rs, id, ids, from) && k <= |ids| && forall i :: 0 <= i < |ids| ==> from[i] < k
    requires forall c :: c in children ==> c in rs && rs[c].parent == Some(([id] + ids)[k])
    requires Sorted(rs, children)
    ensures ByLevels(rs, id, ids + children, from + seq(|children|, _ => k))
  {
    var ids', from' := ids + children, from + seq(|children|, _ => k);
    forall i | 0 <= i < |ids'|
      ensures from'[i] <= i && ids'[i] in rs && rs[ids'[i]].parent == Some(([id] + ids')[from'[i]])
    {
      assert i >= |ids| ==> ids'[i] == children[i - |ids|] && children[i - |ids|] in children;
      assert ([id] + ids')[from'[i]] == ([id] + ids)[from'[i]];
    }
  }

  /** Nothing below `id` is missed once the queue is empty. */
  lemma AllFound(rs: Records, born: seq<string>, id: string, ids: seq<string>, from: seq<nat>, visited: set<string>, y: string)
    requires Ordered(rs, born) && id in rs && Spreading(rs, born, id, ids, from, visited, [])
    requires y in rs && id in Ancestors(rs, born, y)
    ensures y in visited
    decreases Age(born, y)
  {
    var p := rs[y].parent.value;
    ParentIsOlder(rs, born, y);
    if p != id {
      AllFound(rs, born, id, ids, from, visited, p);
    }
    var all := [id] + ids;
    assert p in all;
    var i :| 0 <= i < |all| && all[i] == p;
    assert y in Children(rs, all[i]);
  }

  /** Enqueues the children of one experiment; false when one of them was seen before. */
  method Enqueue(children: seq<string>, visited: set<string>, result: seq<string>, frontier: seq<string>)
    returns (ok: bool, visited': set<string>, result': seq<string>, frontier': seq<string>)
    requires Distinct(children)
    ensures ok <==> forall c :: c in children ==> c !in visited
    ensures ok ==> visited' == visited + (set x | x in children) && result' == result + children && frontier' == frontier + children
  {
    visited', result', frontier' := visited, result, frontier;
    var i := 0;
    while i < |children|
      invariant 0 <= i <= |children|
      invariant visited' == visited + set x | x in children[..i]
      invariant result' == result + children[..i] && frontier' == frontier + children[..i]
      invariant forall c :: c in children[..i] ==> c !in visited
    {
      var child := children[i];
      if child in visited' {
        assert child in children;
        return false, visited', result', frontier';
      }
      visited', result', frontier' := visited' + {child}, result' + [child], frontier' + [child];
      i := i + 1;
    }
    assert children[..i] == children;
    ok := true;
  }

  lemma FoundExactly(rs: Records, born: seq<string>, id: string, ids: seq<string>, from: seq<nat>, visited: set<string>)
    requires Ordered(rs, born) && id in rs && Spreading(rs, born, id, ids, from, visited, [])
    ensures Distinct(ids) && ByLevels(rs, id, ids, from)
    ensures forall y :: y in ids <==> y in rs && id in Ancestors(rs, born, y)
  {
    hide Ordered, Ancestors;
    DistinctTail(id, ids);
    forall y | y in ids
      ensures y in rs && id in Ancestors(rs, born, y)
    {
      var i :| 0 <= i < |ids| && ids[i] == y;
    }
    forall y | y in rs && id in Ancestors(rs, born, y)
      ensures y in ids
    {
      AllFound(rs, born, id, ids, from, visited, y);
      NotOwnAncestor(rs, born, id);
      assert y in [id] + ids;
    }
  }

  lemma DistinctTail(x: string, s: seq<string>)
    requires Distinct([x] + s)
    ensures Distinct(s)
  {
    assert forall i :: 0 <= i < |s| ==> s[i] == ([x] + s)[i + 1];
  }

  /** A step of the walk: every child is new, so the walk goes on. */
  lemma StepOfWalk(rs: Records, born: seq<string>, id: string, ids: seq<string>, from: seq<nat>,
                   visited: set<string>, frontier: seq<string>, children: seq<string>, k: nat)
    requires Ordered(rs, born) && id in rs && Spreading(rs, born, id, ids, from, visited, frontier) && frontier != []
    requires forall x :: x in children <==> x in Children(rs, frontier[0])
    requires (forall i :: 0 <= i < |children| ==> children[i] in rs) && Sorted(rs, children)
    requires |frontier| <= 1 + |ids| ==> k == 1 + |ids| - |frontier|
    ensures forall c :: c in children ==> c !in visited
    ensures Spreading(rs, born, id, ids + children, from + seq(|children|, _ => k),
                      visited + (set x | x in children), frontier[1..] + children)
  {
    forall c | c in children
      ensures c !in visited
    {
      ChildrenAreNew(rs, born, id, ids, from, visited, frontier, c);
    }
    SpreadOn(rs, born, id, ids, from, visited, frontier, children);
  }

  /**
   Walks down breadth first, each level in its order, guarding against a cycle.  Where every
   parent is older than its children none is met, and the walk finds, once each, exactly the
   experiments that have `id` among their ancestors.
   */
  method GetDescendants(rs: Records, id: string, ghost born: seq<string>) returns (out: Walk, ghost from: seq<nat>)
    ensures out.NotRegistered? <==> id !in rs
    ensures id in rs && Ordered(rs, born) ==>
      && out.Found? && Distinct(out.ids)
      && (forall y :: y in out.ids <==> y in rs && id in Ancestors(rs, born, y))
    ensures id in rs && Ordered(rs, born) ==> out.Found? && ByLevels(rs, id, out.ids, from)
  {
    from := [];
    if id !in rs { return NotRegistered, from; }
    var result: seq<string>, visited, frontier := [], {id}, [id];
    while frontier != []
      invariant visited <= rs.Keys
      invariant Ordered(rs, born) ==> Spreading(rs, born, id, result, from, visited, frontier)
      decreases rs.Keys - visited, |frontier|
    {
      var children := SortedIds(rs, Children(rs, frontier[0]));
      ghost var k: nat := if |frontier| <= 1 + |result| then 1 + |result| - |frontier| else 0;
      if Ordered(rs, born) { StepOfWalk(rs, born, id, result, from, visited, frontier, children, k); }
      ghost var seen := visited;
      var ok;
      ok, visited, result, frontier := Enqueue(children, visited, result, frontier[1..]);
      if !ok { return MalformedLog, from; }
      assert children != [] ==> children[0] in visited && children[0] !in seen;
      from := from + seq(|children|, _ => k);
    }
    if Ordered(rs, born) { FoundExactly(rs, born, id, result, from, visited); }
    out := Found(result);
  }

  lemma NotOwnAncestor(rs: Records, born: seq<string>, id: string)
    requires Ordered(rs, born) && id in rs
    ensures id !in Ancestors(rs, born, id)
  {
    if id in Ancestors(rs, born, id) {
      ParentIsOlder(rs, born, id);
      var p := rs[id].parent.value;
      DescentAges(rs, born, id, p);
    }
  }
}
