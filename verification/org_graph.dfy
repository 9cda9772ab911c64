// hufiagents/org_graph.py: organisation units as a forest of parent links.
// A unit is identified by its creation position.

module OrgGraph {
  import opened Contracts

  datatype Unit = Unit(key: string, parent: Option<nat>, archived: bool)

  // The n-th unit on the way up from `start`, itself the 0th.
  function Up(units: seq<Unit>, start: Option<nat>, n: nat): Option<nat> {
    if n == 0 then start
    else
      match Up(units, start, n - 1)
      case None => None
      case Some(id) => if id < |units| then units[id].parent else None
  }

  ghost predicate Above(units: seq<Unit>, id: nat, ancestor: nat) {
    exists n: nat :: n > 0 && Up(units, Some(id), n) == Some(ancestor)
  }

  predicate Closed(units: seq<Unit>) {
    forall i | 0 <= i < |units| && units[i].parent.Some? :: units[i].parent.value < |units|
  }

  ghost predicate Acyclic(units: seq<Unit>) {
    forall id | 0 <= id < |units| :: !Above(units, id, id)
  }

  predicate UniqueKeys(units: seq<Unit>) {
    forall i, j | 0 <= i < j < |units| :: units[i].key != units[j].key
  }

  ghost predicate Forest(units: seq<Unit>) {
    Closed(units) && Acyclic(units) && UniqueKeys(units)
  }

  lemma {:induction false} UpAdds(units: seq<Unit>, start: Option<nat>, n: nat, m: nat)
    ensures Up(units, start, n + m) == Up(units, Up(units, start, n), m)
  {
    if m > 0 {
      UpAdds(units, start, n, m - 1);
    }
  }

  lemma {:induction false} UpStaysNone(units: seq<Unit>, start: Option<nat>, n: nat, m: nat)
    requires Up(units, start, n) == None
    ensures Up(units, start, n + m) == None
  {
    if m > 0 {
      UpStaysNone(units, start, n, m - 1);
    }
  }

  lemma {:induction false} UpInside(units: seq<Unit>, start: nat, n: nat)
    requires Closed(units) && start < |units|
    ensures var r := Up(units, Some(start), n); r.Some? ==> r.value < |units|
  {
    if n > 0 {
      UpInside(units, start, n - 1);
    }
  }

  // On the way up no unit of a forest is met twice.
  lemma NoRepeat(units: seq<Unit>, start: nat, n: nat, m: nat)
    requires Closed(units) && Acyclic(units) && start < |units| && n < m
    ensures Up(units, Some(start), n).Some? ==> Up(units, Some(start), m) != Up(units, Some(start), n)
  {
    UpInside(units, start, n);
    UpAdds(units, Some(start), n, m - n);
    var id := Up(units, Some(start), n);
    if id.Some? && Up(units, Some(start), m) == id {
      assert Up(units, Some(id.value), m - n) == Some(id.value);
      assert Above(units, id.value, id.value);
    }
  }

  // -- Adding a leaf ------------------------------------------------------------

  lemma {:induction false} LeafUp(units: seq<Unit>, unit: Unit, start: nat, n: nat)
    requires Closed(units) && start < |units|
    ensures Up(units + [unit], Some(start), n) == Up(units, Some(start), n)
  {
    if n > 0 {
      LeafUp(units, unit, start, n - 1);
      UpInside(units, start, n - 1);
    }
  }

  lemma LeafKeepsForest(units: seq<Unit>, unit: Unit)
    requires Forest(units)
    requires unit.parent.Some? ==> unit.parent.value < |units|
    requires forall i | 0 <= i < |units| :: units[i].key != unit.key
    ensures Forest(units + [unit])
  {
    var after := units + [unit];
    forall id | 0 <= id < |after| ensures !Above(after, id, id) {
      if Above(after, id, id) {
        var n: nat :| n > 0 && Up(after, Some(id), n) == Some(id);
        if id < |units| {
          LeafUp(units, unit, id, n);
          assert Above(units, id, id);
        }
      }
    }
  }

  // -- Moving a unit --------------------------------------------------------------

  function Moved(units: seq<Unit>, id: nat, parent: Option<nat>): seq<Unit>
    requires id < |units|
  {
    units[id := units[id].(parent := parent)]
  }

  // The unit is the new parent or lies above it.
  ghost predicate Closes(units: seq<Unit>, id: nat, parent: Option<nat>) {
    exists n: nat :: Up(units, parent, n) == Some(id)
  }

  // Below the moved unit the way up is as before.
  lemma {:induction false} SameUp(units: seq<Unit>, id: nat, parent: Option<nat>, start: Option<nat>, n: nat)
    requires id < |units|
    requires forall i: nat | i < n :: Up(units, start, i) != Some(id)
    ensures Up(Moved(units, id, parent), start, n) == Up(units, start, n)
  {
    if n > 0 {
      SameUp(units, id, parent, start, n - 1);
    }
  }

  lemma {:induction false} FirstMeeting(units: seq<Unit>, start: Option<nat>, id: nat, n: nat) returns (k: nat)
    requires Up(units, start, n) == Some(id)
    ensures k <= n && Up(units, start, k) == Some(id)
    ensures forall i: nat | i < k :: Up(units, start, i) != Some(id)
  {
    k := 0;
    while Up(units, start, k) != Some(id)
      invariant k <= n
      invariant forall i: nat | i < k :: Up(units, start, i) != Some(id)
      decreases n - k
    {
      k := k + 1;
    }
  }

  // Whether the new parent links or the old ones are followed, the unit
  // lies above its new parent or not.
  lemma ClosesEitherWay(units: seq<Unit>, id: nat, parent: Option<nat>)
    requires id < |units|
    ensures Closes(Moved(units, id, parent), id, parent) <==> Closes(units, id, parent)
  {
    var after := Moved(units, id, parent);
    if Closes(after, id, parent) {
      var n: nat :| Up(after, parent, n) == Some(id);
      var k := FirstMeeting(after, parent, id, n);
      assert Moved(after, id, units[id].parent) == units;
      SameUp(after, id, units[id].parent, parent, k);
    }
    if Closes(units, id, parent) {
      var n: nat :| Up(units, parent, n) == Some(id);
      var k := FirstMeeting(units, parent, id, n);
      SameUp(units, id, parent, parent, k);
    }
  }

  // A cycle after the move passes through the moved unit.
  lemma CycleThroughMoved(units: seq<Unit>, id: nat, parent: Option<nat>, u: nat)
    requires Acyclic(units) && id < |units| && u < |units|
    requires Above(Moved(units, id, parent), u, u)
    ensures Closes(units, id, parent)
  {
    var after := Moved(units, id, parent);
    var n: nat :| n > 0 && Up(after, Some(u), n) == Some(u);
    assert Moved(after, id, units[id].parent) == units;
    if forall i: nat | i < n :: Up(after, Some(u), i) != Some(id) {
      SameUp(after, id, units[id].parent, Some(u), n);
      assert Above(units, u, u);
    } else {
      var i: nat :| i < n && Up(after, Some(u), i) == Some(id);
      UpAdds(after, Some(u), i, n - i);
      UpAdds(after, Some(id), n - i, i);
      assert Up(after, Some(id), n) == Some(id);
      UpAdds(after, Some(id), 1, n - 1);
      assert Up(after, Some(id), 1) == parent;
      assert Closes(after, id, parent);
      ClosesEitherWay(units, id, parent);
    }
  }

  // Setting the parent gives a forest exactly when it closes no cycle.
  lemma MoveKeepsForestExactly(units: seq<Unit>, id: nat, parent: Option<nat>)
    requires Forest(units) && id < |units|
    requires parent.Some? ==> parent.value < |units|
    ensures Forest(Moved(units, id, parent)) <==> !Closes(units, id, parent)
  {
    var after := Moved(units, id, parent);
    if !Closes(units, id, parent) {
      forall u | 0 <= u < |after| ensures !Above(after, u, u) {
        if Above(after, u, u) {
          CycleThroughMoved(units, id, parent, u);
        }
      }
    } else {
      ClosesEitherWay(units, id, parent);
      var n: nat :| Up(after, parent, n) == Some(id);
      UpAdds(after, Some(id), 1, n);
      assert Up(after, Some(id), 1) == parent;
      assert Above(after, id, id);
    }
  }

  // -- Descendants -------------------------------------------------------------------

  function Children(units: seq<Unit>, parent: Option<nat>): (r: seq<nat>) {
    if units == [] then []
    else
      var last := |units| - 1;
      Children(units[..last], parent) + (if units[last].parent == parent then [last] else [])
  }

  lemma {:induction false} ChildrenExactly(units: seq<Unit>, parent: Option<nat>)
    ensures forall c: nat :: c in Children(units, parent) <==> c < |units| && units[c].parent == parent
    ensures NoDuplicates(Children(units, parent))
  {
    if units != [] {
      var last := |units| - 1;
      var rest := Children(units[..last], parent);
      ChildrenExactly(units[..last], parent);
      assert forall i | 0 <= i < |rest| :: rest[i] in rest && rest[i] < last;
      assert units == units[..last] + [units[last]];
    }
  }

  ghost predicate NoDuplicates(s: seq<nat>) {
    forall i, j | 0 <= i < j < |s| :: s[i] != s[j]
  }

  // Links of the first units only are links of all of them.
  lemma {:induction false} PrefixUp(units: seq<Unit>, listed: seq<Unit>, start: Option<nat>, n: nat)
    requires listed <= units
    ensures Up(listed, start, n).Some? ==> Up(units, start, n) == Up(listed, start, n)
  {
    if n > 0 {
      PrefixUp(units, listed, start, n - 1);
    }
  }

  // A set with the root that holds the children of its members holds every
  // unit below the root.
  lemma {:induction false} BelowIsReached(listed: seq<Unit>, seen: set<nat>, root: nat, id: nat, n: nat)
    requires root in seen && id < |listed|
    requires forall c | 0 <= c < |listed| && listed[c].parent.Some? && listed[c].parent.value in seen :: c in seen
    requires Up(listed, Some(id), n) == Some(root)
    ensures id in seen
    decreases n
  {
    if n > 0 {
      UpAdds(listed, Some(id), 1, n - 1);
      var above := listed[id].parent;
      assert Up(listed, Some(id), 1) == above;
      if above == None {
        UpStaysNone(listed, None, 0, n - 1);
      } else if above.value < |listed| {
        BelowIsReached(listed, seen, root, above.value, n - 1);
      } else if n > 1 {
        UpAdds(listed, above, 1, n - 2);
        UpStaysNone(listed, above, 1, n - 2);
      }
    }
  }

  // -- The upward walk -----------------------------------------------------------------

  ghost predicate Meets(units: seq<Unit>, start: Option<nat>, barred: set<nat>, n: nat) {
    Up(units, start, n).Some? && Up(units, start, n).value in barred
  }

  // `walked` holds the first n units on the way up.
  ghost predicate Walked(units: seq<Unit>, start: Option<nat>, n: nat, walked: set<nat>) {
    && (forall u | u in walked :: u < |units| && WalkedAt(units, start, n, u))
    && (forall i: nat | i < n :: Up(units, start, i).Some? && Up(units, start, i).value in walked)
  }

  ghost predicate WalkedAt(units: seq<Unit>, start: Option<nat>, n: nat, u: nat) {
    exists i: nat :: i < n && Up(units, start, i) == Some(u)
  }

  ghost function Positions(n: nat): (r: set<nat>)
    ensures forall i: nat :: i in r <==> i < n
  {
    if n == 0 then {} else Positions(n - 1) + {n - 1}
  }

  lemma UpStarts(units: seq<Unit>, start: Option<nat>)
    ensures Up(units, start, 0) == start
  {
  }

  lemma NotWalked(units: seq<Unit>, start: Option<nat>, n: nat, walked: set<nat>)
    requires Closed(units) && Acyclic(units) && start.Some? && start.value < |units|
    requires Walked(units, start, n, walked)
    ensures Up(units, start, n).Some? ==> Up(units, start, n).value !in walked
  {
    var now := Up(units, start, n);
    if now.Some? && now.value in walked {
      assert WalkedAt(units, start, n, now.value);
      var i: nat :| i < n && Up(units, start, i) == now;
      NoRepeat(units, start.value, i, n);
    }
  }

  lemma WalkedOn(units: seq<Unit>, start: Option<nat>, n: nat, walked: set<nat>)
    requires Walked(units, start, n, walked)
    requires Up(units, start, n).Some? && Up(units, start, n).value < |units|
    ensures var u := Up(units, start, n).value;
            Walked(units, start, n + 1, walked + {u}) && Up(units, start, n + 1) == units[u].parent
  {
    var u := Up(units, start, n).value;
    forall v | v in walked ensures WalkedAt(units, start, n + 1, v) {
      assert WalkedAt(units, start, n, v);
    }
    assert WalkedAt(units, start, n + 1, u);
  }

  // -- The breadth-first search ------------------------------------------------------------

  // Every unit seen is as many links below the root as its level says, and what
  // was seen lies at most one level deeper than what is queued first; result
  // and queue are in the order of their levels.
  ghost predicate Levels(listed: seq<Unit>, root: nat, result: seq<nat>, queue: seq<nat>, seen: set<nat>,
                         level: map<nat, nat>, deepest: nat) {
    && (forall d | d in seen :: d in level && level[d] <= deepest && Up(listed, Some(d), level[d]) == Some(root))
    && root in level && level[root] == 0
    && (forall d | d in result :: d in seen && level[d] > 0)
    && (forall d | d in queue :: d in seen && level[d] + 1 >= deepest)
    && (forall i, j | 0 <= i < j < |result| :: level[result[i]] <= level[result[j]])
    && (forall i, j | 0 <= i < j < |queue| :: level[queue[i]] <= level[queue[j]])
  }

  // The root and the result are what was seen, and whoever was seen is queued or
  // has all its children seen.
  ghost predicate Searched(listed: seq<Unit>, root: nat, result: seq<nat>, queue: seq<nat>, seen: set<nat>) {
    && (forall d | d in result :: d < |listed|)
    && NoDuplicates(result)
    && (forall d: nat :: d in seen <==> d == root || d in result)
    && (forall d | d in queue :: d in seen)
    && (forall c | 0 <= c < |listed| :: listed[c].parent.Some? && listed[c].parent.value in seen ==>
          listed[c].parent.value in queue || c in seen)
  }

  // The same while the children of `parent`, no longer queued, are looked at;
  // `done` are those behind.
  ghost predicate Expanding(listed: seq<Unit>, root: nat, result: seq<nat>, queue: seq<nat>, seen: set<nat>,
                            parent: nat, done: seq<nat>) {
    && (forall d | d in result :: d < |listed|)
    && NoDuplicates(result)
    && (forall d: nat :: d in seen <==> d == root || d in result)
    && (forall d | d in queue :: d in seen)
    && parent in seen
    && (forall c | c in done :: c in seen)
    && (forall c | 0 <= c < |listed| :: listed[c].parent.Some? && listed[c].parent.value in seen ==>
          listed[c].parent.value in queue || listed[c].parent.value == parent || c in seen)
  }

  lemma SearchStarts(listed: seq<Unit>, root: nat)
    ensures Searched(listed, root, [], [root], {root}) && Levels(listed, root, [], [root], {root}, map[root := 0], 0)
  {
  }

  lemma SearchPops(listed: seq<Unit>, root: nat, result: seq<nat>, queue: seq<nat>, seen: set<nat>,
                   level: map<nat, nat>, deepest: nat)
    requires Searched(listed, root, result, queue, seen) && queue != []
    requires Levels(listed, root, result, queue, seen, level, deepest)
    ensures Expanding(listed, root, result, queue[1..], seen, queue[0], [])
    ensures queue[0] in level && Levels(listed, root, result, queue[1..], seen, level, level[queue[0]] + 1)
    ensures seen <= Positions(|listed|) + {root}
  {
    hide Up;
    assert queue == [queue[0]] + queue[1..];
  }

  lemma SearchVisits(listed: seq<Unit>, root: nat, result: seq<nat>, queue: seq<nat>, seen: set<nat>, parent: nat,
                     done: seq<nat>, child: nat)
    requires Expanding(listed, root, result, queue, seen, parent, done)
    requires child < |listed| && listed[child].parent == Some(parent)
    ensures if child in seen then Expanding(listed, root, result, queue, seen, parent, done + [child])
            else Expanding(listed, root, result + [child], queue + [child], seen + {child}, parent, done + [child])
                 && child in Positions(|listed|)
  {
  }

  // A child not seen before is one level below its parent.
  lemma LevelBelow(listed: seq<Unit>, root: nat, result: seq<nat>, queue: seq<nat>, seen: set<nat>,
                   level: map<nat, nat>, parent: nat, child: nat)
    requires parent in seen && parent in level && child !in seen && root in seen
    requires Levels(listed, root, result, queue, seen, level, level[parent] + 1)
    requires child < |listed| && listed[child].parent == Some(parent)
    ensures Levels(listed, root, result + [child], queue + [child], seen + {child}, level[child := level[parent] + 1],
                   level[parent] + 1)
  {
    UpAdds(listed, Some(child), 1, level[parent]);
    assert Up(listed, Some(child), 1) == Some(parent);
    assert Up(listed, Some(child), level[parent] + 1) == Some(root);
    hide Up;
  }

  lemma LessUnseen(bound: set<nat>, before: set<nat>, after: set<nat>)
    requires before <= after <= bound
    ensures after == before || bound - after < bound - before
  {
    if after != before {
      var x :| x in after && x !in before;
      assert x in bound - before && x !in bound - after;
    }
  }

  lemma SearchCloses(listed: seq<Unit>, root: nat, result: seq<nat>, queue: seq<nat>, seen: set<nat>, parent: nat,
                     done: seq<nat>)
    requires Expanding(listed, root, result, queue, seen, parent, done)
    requires done == Children(listed, Some(parent))
    ensures Searched(listed, root, result, queue, seen)
    ensures seen <= Positions(|listed|) + {root}
  {
    ChildrenExactly(listed, Some(parent));
  }

  lemma {:induction false} DistinctBelow(result: seq<nat>, bound: set<nat>)
    requires NoDuplicates(result) && forall d | d in result :: d in bound
    ensures |result| <= |bound|
  {
    if result != [] {
      var last := result[|result| - 1];
      var rest := result[..|result| - 1];
      forall d | d in rest ensures d in bound - {last} {
        var i :| 0 <= i < |rest| && rest[i] == d;
        assert result[i] != result[|result| - 1];
      }
      assert last in result;
      DistinctBelow(rest, bound - {last});
    }
  }

  lemma {:induction false} PositionCount(n: nat)
    ensures |Positions(n)| == n
  {
    if n > 0 {
      PositionCount(n - 1);
    }
  }

  lemma AllListed(result: seq<nat>, n: nat)
    requires NoDuplicates(result) && (forall d | d in result :: d < n) && |result| >= n
    ensures forall d: nat | d < n :: d in result
  {
    forall d: nat | d < n ensures d in result {
      if d !in result {
        PositionCount(n);
        assert |Positions(n) - {d}| == n - 1;
        DistinctBelow(result, Positions(n) - {d});
      }
    }
  }

  // Of two units below the root the first is no deeper than the second.
  ghost predicate NoDeeper(units: seq<Unit>, root: nat, a: nat, b: nat) {
    forall n: nat, m: nat | Up(units, Some(a), n) == Some(root) && Up(units, Some(b), m) == Some(root) :: n <= m
  }

  lemma DepthIsUnique(units: seq<Unit>, id: nat, root: nat, n: nat, m: nat)
    requires Forest(units) && id < |units| && Up(units, Some(id), n) == Some(root) == Up(units, Some(id), m)
    ensures n == m
  {
    if n < m {
      NoRepeat(units, id, n, m);
    } else if m < n {
      NoRepeat(units, id, m, n);
    }
  }

  // The search never stops at the limit with units left over: it has listed
  // whoever is below the root by links of listed units.
  lemma AllReached(units: seq<Unit>, listed: seq<Unit>, root: nat, limit: nat, result: seq<nat>, queue: seq<nat>,
                   seen: set<nat>, level: map<nat, nat>, deepest: nat)
    requires Forest(units) && listed <= units && |listed| <= limit && Searched(listed, root, result, queue, seen)
    requires Levels(listed, root, result, queue, seen, level, deepest)
    requires queue == [] || |result| >= limit
    ensures forall d: nat :: d in result <==> d < |listed| && Above(listed, d, root)
    ensures forall i, j | 0 <= i < j < |result| :: NoDeeper(units, root, result[i], result[j])
  {
    hide Up;
    forall d: nat ensures d in result <==> d < |listed| && Above(listed, d, root) {
      if d in result {
        assert level[d] > 0 && Up(listed, Some(d), level[d]) == Some(root);
      }
      if d < |listed| && Above(listed, d, root) {
        NotItself(units, listed, d, root);
        if queue == [] {
          var n: nat :| n > 0 && Up(listed, Some(d), n) == Some(root);
          BelowIsReached(listed, seen, root, d, n);
        } else {
          AllListed(result, |listed|);
        }
      }
    }
    InOrder(units, listed, root, result, queue, seen, level, deepest);
  }

  lemma NotItself(units: seq<Unit>, listed: seq<Unit>, id: nat, root: nat)
    requires Forest(units) && listed <= units && id < |listed| && Above(listed, id, root)
    ensures id != root
  {
    var n: nat :| n > 0 && Up(listed, Some(id), n) == Some(root);
    PrefixUp(units, listed, Some(id), n);
    if id == root {
      assert Above(units, id, id);
    }
  }

  lemma InOrder(units: seq<Unit>, listed: seq<Unit>, root: nat, result: seq<nat>, queue: seq<nat>, seen: set<nat>,
                level: map<nat, nat>, deepest: nat)
    requires Forest(units) && listed <= units && (forall d | d in result :: d < |listed|)
    requires Levels(listed, root, result, queue, seen, level, deepest)
    ensures forall i, j | 0 <= i < j < |result| :: NoDeeper(units, root, result[i], result[j])
  {
    hide Up, Forest;
    forall i, j | 0 <= i < j < |result| ensures NoDeeper(units, root, result[i], result[j]) {
      var a, b := result[i], result[j];
      assert a in result && b in result;
      PrefixUp(units, listed, Some(a), level[a]);
      PrefixUp(units, listed, Some(b), level[b]);
      forall n: nat, m: nat | Up(units, Some(a), n) == Some(root) && Up(units, Some(b), m) == Some(root)
        ensures n <= m
      {
        DepthIsUnique(units, a, root, n, level[a]);
        DepthIsUnique(units, b, root, m, level[b]);
      }
    }
  }

  // -- The service ---------------------------------------------------------------------

  datatype Outcome = Fine | Cycle | Missing | BadKey | KeyTaken

  class OrgGraph {
    var units: seq<Unit>

    constructor ()
      ensures units == [] && Forest(units)
    {
      units := [];
    }

    // The upward walk with its `seen` set. In a forest it meets nothing twice,
    // so it reports a cycle exactly when it meets one of the units it started
    // with, and never a missing unit on the way.
    method Walk(start: Option<nat>, barred: set<nat>) returns (outcome: Outcome)
      requires Forest(units)
      ensures outcome == Missing <==> start.Some? && start.value !in barred && start.value >= |units|
      ensures outcome != Missing ==> (outcome == Cycle <==> exists n: nat :: Meets(units, start, barred, n))
      ensures outcome in {Fine, Cycle, Missing}
    {
      hide Up, Above;
      var current := start;
      var seen := barred;
      ghost var n: nat := 0;
      ghost var walked: set<nat> := {};
      UpStarts(units, start);
      while current.Some?
        invariant current == Up(units, start, n)
        invariant seen == barred + walked
        invariant Walked(units, start, n, walked)
        invariant walked !! barred
        invariant n > 0 ==> start.Some? && start.value < |units| && start.value !in barred
        invariant n > 0 && current.Some? ==> current.value < |units|
        decreases Positions(|units|) - walked
      {
        if current.value in seen {
          if current.value in walked {
            NotWalked(units, start, n, walked);
          }
          assert Meets(units, start, barred, n);
          return Cycle;
        }
        if current.value >= |units| {
          return Missing;
        }
        WalkedOn(units, start, n, walked);
        seen := seen + {current.value};
        walked := walked + {current.value};
        n := n + 1;
        current := units[current.value].parent;
      }
      forall m: nat ensures !Meets(units, start, barred, m) {
        if m >= n {
          UpStaysNone(units, start, n, m - n);
        }
      }
      return Fine;
    }

    // create_org_unit: `key` is the stable key or the slug of the name. A unit is
    // created exactly when its parent exists and its full key, which is not
    // empty, is free.
    method Create(key: string, parent: Option<nat>) returns (outcome: Outcome)
      requires Forest(units)
      modifies this
      ensures Forest(units)
      ensures outcome == Missing <==> parent.Some? && parent.value >= |old(units)|
      ensures outcome == BadKey <==> (parent.Some? ==> parent.value < |old(units)|) && key == ""
      ensures outcome == KeyTaken <==> (parent.Some? ==> parent.value < |old(units)|) && key != ""
                                       && Taken(old(units), FullKey(old(units), key, parent))
      ensures outcome in {Fine, Missing, BadKey, KeyTaken}
      ensures outcome != Fine ==> units == old(units)
      ensures outcome == Fine ==> units == old(units) + [Unit(FullKey(old(units), key, parent), parent, false)]
    {
      if parent.Some? {
        if parent.value >= |units| {
          return Missing;
        }
        var walk := Walk(parent, {});
        assert walk == Fine;
      }
      if key == "" {
        return BadKey;
      }
      var local := FullKey(units, key, parent);
      if Taken(units, local) {
        return KeyTaken;
      }
      LeafKeepsForest(units, Unit(local, parent, false));
      units := units + [Unit(local, parent, false)];
      return Fine;
    }

    // update_org_unit_parent: refused exactly when it would close a cycle, and
    // otherwise the hierarchy stays a forest.
    method Move(id: nat, parent: Option<nat>) returns (outcome: Outcome)
      requires Forest(units)
      modifies this
      ensures Forest(units)
      ensures outcome == Missing <==> id >= |old(units)| || (parent.Some? && parent.value >= |old(units)|)
      ensures outcome != Missing ==> (outcome == Cycle <==> Closes(old(units), id, parent))
      ensures outcome != Missing ==> (outcome == Cycle <==> !Forest(Moved(old(units), id, parent)))
      ensures outcome != Fine ==> units == old(units)
      ensures outcome == Fine ==> units == Moved(old(units), id, parent)
      ensures outcome in {Fine, Cycle, Missing}
    {
      if id >= |units| {
        return Missing;
      }
      outcome := Walk(parent, {id});
      if outcome == Fine || outcome == Cycle {
        ClosesMeansMeets(units, id, parent);
        MoveKeepsForestExactly(units, id, parent);
      }
      if outcome == Fine {
        units := Moved(units, id, parent);
      }
    }

    method ArchiveUnit(id: nat) returns (outcome: Outcome)
      requires Forest(units)
      modifies this
      ensures Forest(units)
      ensures outcome == if id < |old(units)| then Fine else Missing
      ensures units == if id < |old(units)| then old(units)[id := old(units[id]).(archived := true)] else old(units)
    {
      if id >= |units| {
        return Missing;
      }
      ghost var before := units;
      units := units[id := units[id].(archived := true)];
      SameParents(before, units);
      return Fine;
    }

    // One round of the search: the children not seen before are listed and queued.
    method Visit(listed: seq<Unit>, id: nat, parent: nat, below: seq<nat>, waiting: seq<nat>, found: seq<nat>,
                 before: set<nat>, ghost known: map<nat, nat>)
      returns (queue: seq<nat>, result: seq<nat>, seen: set<nat>, ghost level: map<nat, nat>)
      requires Expanding(listed, id, found, waiting, before, parent, [])
      requires parent in known && Levels(listed, id, found, waiting, before, known, known[parent] + 1)
      requires below == Children(listed, Some(parent))
      ensures Expanding(listed, id, result, queue, seen, parent, below)
      ensures Levels(listed, id, result, queue, seen, level, known[parent] + 1)
      ensures before <= seen && (seen == before ==> queue == waiting)
    {
      hide Up, Expanding, Levels, Children;
      queue, result, seen, level := waiting, found, before, known;
      ParentIsSeen(listed, id, found, waiting, before, parent);
      for i := 0 to |below|
        invariant Expanding(listed, id, result, queue, seen, parent, below[..i])
        invariant parent in level && level[parent] == known[parent]
        invariant Levels(listed, id, result, queue, seen, level, level[parent] + 1)
        invariant before <= seen && (seen == before ==> queue == waiting)
      {
        var child := below[i];
        assert below[..i + 1] == below[..i] + [child];
        ChildrenExactly(listed, Some(parent));
        assert child in below;
        SearchVisits(listed, id, result, queue, seen, parent, below[..i], child);
        if child !in seen {
          LevelBelow(listed, id, result, queue, seen, level, parent, child);
          seen := seen + {child};
          result := result + [child];
          queue := queue + [child];
          level := level[child := level[parent] + 1];
        }
      }
      assert below[..|below|] == below;
    }

    // org_unit_descendants: breadth first over the first `limit` units. It lists
    // each of them that lies below the unit by links of such units, once, and
    // none before one that is less deep.
    method Descendants(id: nat, limit: nat) returns (result: seq<nat>)
      requires Forest(units)
      ensures var listed := if |units| <= limit then units else units[..limit];
              && NoDuplicates(result)
              && (forall d: nat :: d in result <==> d < |listed| && Above(listed, d, id))
              && (forall i, j | 0 <= i < j < |result| :: NoDeeper(units, id, result[i], result[j]))
    {
      hide Up, Above, Searched, Expanding, Levels, Children, NoDeeper;
      var listed := if |units| <= limit then units else units[..limit];
      var children := ChildrenByParent(listed);
      result := [];
      var queue, seen := [id], {id};
      ghost var level: map<nat, nat> := map[id := 0];
      ghost var deepest: nat := 0;
      SearchStarts(listed, id);
      while queue != [] && |result| < limit
        invariant Searched(listed, id, result, queue, seen)
        invariant Levels(listed, id, result, queue, seen, level, deepest)
        decreases Positions(|listed|) + {id} - seen, |queue|
      {
        SearchPops(listed, id, result, queue, seen, level, deepest);
        var parent := queue[0];
        var below := if Some(parent) in children then children[Some(parent)] else [];
        ghost var seen0 := seen;
        deepest := level[parent] + 1;
        queue, result, seen, level := Visit(listed, id, parent, below, queue[1..], result, seen, level);
        SearchCloses(listed, id, result, queue, seen, parent, below);
        LessUnseen(Positions(|listed|) + {id}, seen0, seen);
      }
      ListedOnce(listed, id, result, queue, seen);
      AllReached(units, listed, id, limit, result, queue, seen, level, deepest);
    }

    method ChildrenByParent(listed: seq<Unit>) returns (children: map<Option<nat>, seq<nat>>)
      ensures forall p: Option<nat> ::
                Children(listed, p) == if p in children then children[p] else []
    {
      children := map[];
      for i := 0 to |listed|
        invariant forall p: Option<nat> ::
                    Children(listed[..i], p) == if p in children then children[p] else []
      {
        assert listed[..i + 1][..i] == listed[..i];
        var p := listed[i].parent;
        var known := if p in children then children[p] else [];
        children := children[p := known + [i]];
      }
      assert listed[..|listed|] == listed;
    }
  }

  lemma ListedOnce(listed: seq<Unit>, root: nat, result: seq<nat>, queue: seq<nat>, seen: set<nat>)
    requires Searched(listed, root, result, queue, seen)
    ensures NoDuplicates(result)
  {
  }

  lemma ParentIsSeen(listed: seq<Unit>, root: nat, result: seq<nat>, queue: seq<nat>, seen: set<nat>, parent: nat)
    requires Expanding(listed, root, result, queue, seen, parent, [])
    ensures parent in seen && root in seen
  {
  }

  lemma ClosesMeansMeets(units: seq<Unit>, id: nat, parent: Option<nat>)
    ensures Closes(units, id, parent) <==> exists n: nat :: Meets(units, parent, {id}, n)
  {
    if Closes(units, id, parent) {
      var n: nat :| Up(units, parent, n) == Some(id);
      assert Meets(units, parent, {id}, n);
    }
  }

  predicate Taken(units: seq<Unit>, key: string) {
    exists i :: 0 <= i < |units| && units[i].key == key
  }

  function FullKey(units: seq<Unit>, key: string, parent: Option<nat>): string
    requires parent.Some? ==> parent.value < |units|
  {
    if parent.Some? && '/' !in key then units[parent.value].key + "/" + key else key
  }

  lemma {:induction false} SameWay(before: seq<Unit>, after: seq<Unit>, start: Option<nat>, n: nat)
    requires |before| == |after| && forall i | 0 <= i < |before| :: after[i].parent == before[i].parent
    ensures Up(after, start, n) == Up(before, start, n)
  {
    if n > 0 {
      SameWay(before, after, start, n - 1);
    }
  }

  lemma SameParents(before: seq<Unit>, after: seq<Unit>)
    requires |before| == |after| && Forest(before)
    requires forall i | 0 <= i < |before| :: after[i].parent == before[i].parent && after[i].key == before[i].key
    ensures Forest(after)
  {
    forall id | 0 <= id < |after| ensures !Above(after, id, id) {
      if Above(after, id, id) {
        var n: nat :| n > 0 && Up(after, Some(id), n) == Some(id);
        SameWay(before, after, Some(id), n);
        assert Above(before, id, id);
      }
    }
  }
}
