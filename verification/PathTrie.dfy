/** What a path trie represents, and the shapes a trie can take. */
module TrieShape {
  import opened Options
  import opened Paths

  /** The value at the longest prefix of key that the map holds. */
  function BestMatch<T>(m: map<Key, T>, key: Key): Option<T> {
    if key in m then Some(m[key])
    else if key.Top? then None
    else BestMatch(m, key.up)
  }

  /** BestMatch finds a value exactly when some prefix is registered, and then
      the value of a registered prefix that no other registered prefix extends. */
  lemma {:induction false} BestMatchIsLongest<T>(m: map<Key, T>, key: Key)
    ensures BestMatch(m, key).None? <==> forall p | p in m :: !Leads(p, key)
    ensures BestMatch(m, key).Some? ==>
              exists p :: p in m && Leads(p, key) && BestMatch(m, key) == Some(m[p])
                          && forall q | q in m && Leads(q, key) :: Leads(q, p)
  {
    if key !in m && key.Sub? {
      BestMatchIsLongest(m, key.up);
    }
  }

  /** A set of positions is rooted, and every position in it hangs from one in it. */
  ghost predicate Closed(keys: set<Key>) {
    Top in keys && forall p, s {:trigger Sub(p, s) in keys} | Sub(p, s) in keys :: p in keys
  }

  ghost predicate Inner(keys: set<Key>, p: Key) {
    exists s :: Sub(p, s) in keys
  }

  /** Every position but the root, and perhaps the one at `except`, is registered
      or has a position below it. */
  ghost predicate Pruned(keys: set<Key>, registered: set<Key>, except: Key) {
    forall p {:trigger Inner(keys, p)} | p in keys && p.Sub? && p != except :: p in registered || Inner(keys, p)
  }

  lemma {:induction false} PrunedGrow(keys: set<Key>, registered: set<Key>, at: Key, part: string)
    requires Pruned(keys, registered, at)
    ensures Pruned(keys + {Sub(at, part)}, registered, Sub(at, part))
  {
    var keys' := keys + {Sub(at, part)};
    assert Sub(at, part) in keys';
    forall p | p in keys' && p.Sub? && p != Sub(at, part)
      ensures p in registered || Inner(keys', p)
    {
      if Inner(keys, p) {
        var s :| Sub(p, s) in keys;
        assert Sub(p, s) in keys';
      }
    }
  }

  lemma {:induction false} PrunedCut(keys: set<Key>, registered: set<Key>, at: Key, part: string)
    requires Pruned(keys, registered, Sub(at, part))
    ensures Pruned(keys - {Sub(at, part)}, registered, at)
  {
    var keys' := keys - {Sub(at, part)};
    forall p | p in keys' && p.Sub? && p != at
      ensures p in registered || Inner(keys', p)
    {
      if Inner(keys, p) {
        var s :| Sub(p, s) in keys;
        assert Sub(p, s) in keys';
      }
    }
  }

  lemma {:induction false} PrunedAll(keys: set<Key>, registered: set<Key>, at: Key)
    requires Pruned(keys, registered, at) && (at.Top? || at in registered || Inner(keys, at))
    ensures Pruned(keys, registered, Top)
  {
  }

  /** Every position on the way to a position is one too. */
  lemma {:induction false} LeadsPresent(keys: set<Key>, p: Key, key: Key)
    requires Closed(keys) && key in keys && Leads(p, key)
    ensures p in keys
  {
    if p != key {
      assert key == Sub(key.up, key.name);
      LeadsPresent(keys, p, key.up);
    }
  }

  /** Without a child to follow, the match of any longer key is the match so far. */
  lemma {:induction false} MatchStops<T>(keys: set<Key>, view: map<Key, T>, at: Key, part: string, key: Key)
    requires Closed(keys) && view.Keys <= keys && Sub(at, part) !in keys && Leads(Sub(at, part), key)
    ensures key !in keys
    ensures BestMatch(view, key) == BestMatch(view, at)
  {
    if key in keys {
      LeadsPresent(keys, Sub(at, part), key);
    }
    if key != Sub(at, part) {
      MatchStops(keys, view, at, part, key.up);
    }
  }

  /** Below every position of a pruned trie stands a registered key. */
  lemma {:induction false} RegisteredBelow(keys: set<Key>, registered: set<Key>, p: Key) returns (key: Key)
    requires Pruned(keys, registered, Top) && p in keys && p.Sub?
    ensures key in registered && Leads(p, key)
    decreases set k | k in keys && Leads(p, k)
  {
    if p in registered {
      key := p;
    } else {
      assert Inner(keys, p);
      var s :| Sub(p, s) in keys;
      var q := Sub(p, s);
      var below, lower := set k | k in keys && Leads(p, k), set k | k in keys && Leads(q, k);
      forall k | k in lower
        ensures k in below
      {
        LeadsTrans(p, q, k);
      }
      if p in lower {
        LeadsDepth(q, p);
      }
      assert p in below;
      key := RegisteredBelow(keys, registered, q);
      LeadsTrans(p, q, key);
    }
  }

  /** The positions of a pruned trie are the root and the prefixes of the registered keys. */
  lemma {:induction false} PositionsAreExact(keys: set<Key>, registered: set<Key>, p: Key)
    requires Closed(keys) && registered <= keys && Pruned(keys, registered, Top)
    ensures p in keys <==> p.Top? || exists key :: key in registered && Leads(p, key)
  {
    if p in keys && p.Sub? {
      var key := RegisteredBelow(keys, registered, p);
    }
    forall key | key in registered && Leads(p, key)
      ensures p in keys
    {
      LeadsPresent(keys, p, key);
    }
  }

  /** The registered keys determine the positions. */
  lemma {:induction false} PositionsAreDetermined(keys: set<Key>, keys': set<Key>, registered: set<Key>)
    requires Closed(keys) && Closed(keys') && registered <= keys && registered <= keys'
    requires Pruned(keys, registered, Top) && Pruned(keys', registered, Top)
    ensures keys == keys'
  {
    forall p
      ensures p in keys <==> p in keys'
    {
      PositionsAreExact(keys, registered, p);
      PositionsAreExact(keys', registered, p);
    }
  }
}

/** The router's path trie (router/tree.go): heap nodes updated in place. */
module PathTrie {
  import opened Options
  import opened Paths
  import opened TrieShape

  /** A node passed on the way down, and the segment that was followed from it. */
  datatype Ancestor<T> = Ancestor(node: Node<T>, part: string)

  /** A child link: the node, the segment followed from it, and where it leads. */
  datatype Step<T> = Step(node: Node<T>, part: string, child: Node<T>)

  /** The ancestors are the nodes passed on the way to `at`. */
  ghost predicate Trail<T>(index: map<Key, Node<T>>, at: Key, ancestors: seq<Ancestor<T>>) {
    if at.Top? then ancestors == []
    else
      && ancestors != [] && at.up in index
      && ancestors[|ancestors| - 1] == Ancestor(index[at.up], at.name)
      && Trail(index, at.up, ancestors[..|ancestors| - 1])
  }

  /** Every position of m is a position of n, of the same node. */
  ghost predicate Within<T>(m: map<Key, Node<T>>, n: map<Key, Node<T>>) {
    forall p | p in m :: p in n && n[p] == m[p]
  }

  class Node<T> {
    var children: map<string, Node<T>>
    var backend: Option<T>

    /** Where the node stands. */
    ghost const pos: Key

    /** At the root of a trie: its nodes, the node at every position, and the map
        that the trie represents. */
    ghost var repr: set<Node<T>>
    ghost var index: map<Key, Node<T>>
    ghost var view: map<Key, T>

    /** The nodes stand where the index says. */
    ghost predicate Placed()
      reads this
    {
      && Closed(index.Keys) && index[Top] == this && view.Keys <= index.Keys
      && (forall p | p in index :: index[p] in repr && index[p].pos == p)
      && (forall n | n in repr :: n.pos in index && index[n.pos] == n)
    }

    /** The nodes hold what the index and the represented map say. */
    ghost predicate Tied()
      reads this, repr
    {
      && (forall n | n in repr :: n.backend == if n.pos in view then Some(view[n.pos]) else None)
      && (forall n, s | n in repr && s in n.children :: Sub(n.pos, s) in index && n.children[s] == index[Sub(n.pos, s)])
      && (forall n, s {:trigger n in repr, Sub(n.pos, s)} | n in repr && Sub(n.pos, s) in index :: s in n.children)
    }

    /** No dead branch hangs on the trie. */
    ghost predicate Valid()
      reads this, repr
    {
      Placed() && Tied() && Pruned(index.Keys, view.Keys, Top)
    }

    constructor Leaf(ghost pos: Key)
      ensures children == map[] && backend == None && this.pos == pos
    {
      children := map[];
      backend := None;
      this.pos := pos;
    }

    /** NewTree. */
    constructor (backend: T)
      ensures Valid() && fresh(repr)
      ensures view == map[Top := backend]
    {
      children := map[];
      this.backend := Some(backend);
      pos := Top;
      new;
      index := map[Top := this];
      view := map[Top := backend];
      repr := {this};
    }

    /** A new childless node hangs below cur, and nothing else has changed. */
    twostate predicate Grown(new step: Step<T>)
      reads this, repr, step.child
    {
      var Step(cur, part, child) := step;
      && fresh(child) && child.pos == Sub(cur.pos, part) && child.children == map[] && child.backend == None
      && cur in old(repr) && repr == old(repr) + {child} && part !in old(cur.children)
      && index == old(index)[child.pos := child] && view == old(view)
      && cur.children == old(cur.children)[part := child]
      && (forall n | n in old(repr) :: n.backend == old(n.backend))
      && (forall n | n in old(repr) && n != cur :: n.children == old(n.children))
    }

    /** The branch of Insert that creates a missing node. */
    method AddChild(cur: Node<T>, part: string) returns (child: Node<T>)
      requires this in repr && cur in repr && part !in cur.children
      modifies this, cur
      ensures Grown(Step(cur, part, child))
    {
      child := new Node<T>.Leaf(Sub(cur.pos, part));
      cur.children := cur.children[part := child];
      index := index[child.pos := child];
      repr := repr + {child};
    }

    twostate lemma GrownPlaced(new step: Step<T>)
      requires old(Placed()) && old(Tied()) && Grown(step)
      ensures Placed() && step.child.pos !in old(index)
    {
      assert Sub(step.node.pos, step.part) !in old(index);
    }

    twostate lemma GrownTied(new step: Step<T>)
      requires old(Placed()) && old(Tied()) && Grown(step)
      ensures Tied()
    {
    }

    /** The backend of cur is another one, and nothing else has changed. */
    twostate predicate Marked(cur: Node<T>)
      reads this, repr
    {
      && cur in old(repr) && repr == old(repr) && index == old(index)
      && view == (if cur.backend.Some? then old(view)[cur.pos := cur.backend.value] else old(view) - {cur.pos})
      && (forall n | n in repr && n != cur :: n.backend == old(n.backend))
      && (forall n | n in repr :: n.children == old(n.children))
    }

    method SetBackend(cur: Node<T>, backend: Option<T>)
      requires this in repr && cur in repr
      modifies this`view, cur`backend
      ensures cur.backend == backend && Marked(cur)
    {
      cur.backend := backend;
      view := if backend.Some? then view[cur.pos := backend.value] else view - {cur.pos};
    }

    twostate lemma MarkedValid(cur: Node<T>)
      requires old(Placed()) && old(Tied()) && Marked(cur)
      ensures Placed() && Tied()
    {
    }

    /** The empty child for `part` is gone, and nothing else has changed. */
    twostate predicate Dropped(step: Step<T>)
      reads this, repr, step.node
    {
      var Step(parent, part, child) := step;
      && parent in old(repr) && parent != child && repr == old(repr) - {child}
      && part in old(parent.children) && old(parent.children)[part] == child
      && old(child.backend) == None && old(child.children) == map[]
      && index == old(index) - {child.pos} && view == old(view)
      && parent.children == old(parent.children) - {part}
      && (forall n | n in repr :: n.backend == old(n.backend))
      && (forall n | n in repr && n != parent :: n.children == old(n.children))
    }

    /** Take an empty child away. */
    method DropChild(parent: Node<T>, part: string, ghost child: Node<T>)
      requires this in repr && parent in repr && parent != child
      requires part in parent.children && parent.children[part] == child
      requires child.backend == None && child.children == map[]
      modifies this, parent`children
      ensures Dropped(Step(parent, part, child))
    {
      parent.children := parent.children - {part};
      index := index - {child.pos};
      repr := repr - {child};
    }

    twostate lemma DroppedPlaced(step: Step<T>)
      requires old(Placed()) && old(Tied()) && Dropped(step)
      ensures Placed()
    {
      assert step.child.pos == Sub(step.node.pos, step.part);
    }

    twostate lemma DroppedTied(step: Step<T>)
      requires old(Placed()) && old(Tied()) && Dropped(step)
      ensures Tied()
    {
      assert step.child.pos == Sub(step.node.pos, step.part);
    }

    /** A trie in which the node cur may be a dead end. */
    ghost predicate Sound(cur: Node<T>)
      reads this, repr
    {
      Placed() && Tied() && cur in repr && Pruned(index.Keys, view.Keys, cur.pos)
    }

    /** Set or clear the backend of one node. */
    method PutBackend(cur: Node<T>, backend: Option<T>)
      requires Sound(cur)
      modifies this`view, cur`backend
      ensures Sound(cur) && cur.backend == backend
      ensures repr == old(repr) && index == old(index)
      ensures view == if backend.Some? then old(view)[cur.pos := backend.value] else old(view) - {cur.pos}
    {
      SetBackend(cur, backend);
      MarkedValid(cur);
    }

    /** Set the backend of the root. */
    method PutRoot(backend: T)
      requires Valid()
      modifies this`view, this`backend
      ensures Valid() && repr == old(repr)
      ensures view == old(view)[Top := backend]
    {
      PutBackend(this, Some(backend));
    }

    /** Insert replaces or adds one entry of the represented map, and keeps every
        node that was there in its place. */
    method Insert(path: string, backend: T)
      requires Valid()
      modifies repr
      ensures Valid() && fresh(repr - old(repr))
      ensures view == old(view)[Segments(path) := backend]
      ensures Within(old(index), index)
    {
      var cur := Reach(path);
      PutBackend(cur, Some(backend));
      AliveEnough(cur);
    }

    /** The loop of Insert: go down to the node for a path, creating what is missing. */
    method Reach(path: string) returns (cur: Node<T>)
      requires Valid()
      modifies repr
      ensures Sound(cur) && cur.pos == Segments(path)
      ensures fresh(repr - old(repr)) && (cur in old(repr) || fresh(cur))
      ensures view == old(view) && Within(old(index), index)
    {
      ghost var key := Segments(path);
      cur := this;
      SliceStep(Top, path, 0);
      assert path[0..] == path;
      var r := Slice(path, 0);
      var part, i := r.0, r.1;
      while true
        invariant -1 <= i <= |path| && Onward(Extend(cur.pos, part), path, i) == key
        invariant Sound(cur)
        invariant fresh(repr - old(repr)) && (cur in old(repr) || fresh(cur))
        invariant view == old(view) && Within(old(index), index)
        decreases if i == -1 then 0 else |path| - i + 1
      {
        if part != "" {
          cur := StepInto(cur, part);
        }
        if i == -1 {
          break;
        }
        SliceStep(cur.pos, path, i);
        r := Slice(path, i);
        part, i := r.0, r.1;
      }
    }

    /** One step down in Insert: to the child for `part`, created if missing. */
    method StepInto(cur: Node<T>, part: string) returns (child: Node<T>)
      requires Sound(cur)
      modifies this, cur
      ensures Sound(child) && child.pos == Sub(cur.pos, part)
      ensures child in old(repr) || fresh(child)
      ensures repr == old(repr) + {child}
      ensures view == old(view) && Within(old(index), index)
    {
      if part in cur.children {
        child := cur.children[part];
        PrunedGrow(index.Keys, view.Keys, cur.pos, part);
        assert index.Keys + {child.pos} == index.Keys;
      } else {
        child := Grow(cur, part);
      }
    }

    method Grow(cur: Node<T>, part: string) returns (child: Node<T>)
      requires Sound(cur) && part !in cur.children
      modifies this, cur
      ensures Sound(child) && fresh(child) && child.pos == Sub(cur.pos, part)
      ensures repr == old(repr) + {child}
      ensures view == old(view) && Within(old(index), index)
    {
      PrunedGrow(index.Keys, view.Keys, cur.pos, part);
      child := AddChild(cur, part);
      GrownPlaced(Step(cur, part, child));
      GrownTied(Step(cur, part, child));
      assert index.Keys == old(index.Keys) + {child.pos};
    }

    /** Lookup returns the backend of the longest registered prefix. */
    method Lookup(path: string) returns (found: Option<T>)
      requires Valid()
      ensures found == BestMatch(view, Segments(path))
    {
      ghost var key := Segments(path);
      var cur, prev := this, this;
      SliceStep(Top, path, 0);
      assert path[0..] == path;
      var r := Slice(path, 0);
      var part, i := r.0, r.1;
      while true
        invariant -1 <= i <= |path| && Onward(Extend(cur.pos, part), path, i) == key
        invariant cur in repr
        invariant prev.backend == BestMatch(view, cur.pos)
        decreases if i == -1 then 0 else |path| - i + 1
      {
        if part != "" {
          if part !in cur.children {
            OnwardLeads(Sub(cur.pos, part), path, i);
            MatchStops(index.Keys, view, cur.pos, part, key);
            return prev.backend;
          }
          cur := cur.children[part];
          if cur.backend != None {
            prev := cur;
          }
        }
        if i == -1 {
          break;
        }
        SliceStep(cur.pos, path, i);
        r := Slice(path, i);
        part, i := r.0, r.1;
      }
      if cur.backend != None {
        return cur.backend;
      }
      return prev.backend;
    }

    /** Remove drops one entry of the represented map, and of the nodes exactly
        those that no entry needs any longer. */
    method Remove(path: string)
      requires Valid()
      modifies repr
      ensures Valid() && repr <= old(repr)
      ensures view == old(view) - {Segments(path)}
      ensures Within(index, old(index))
    {
      ghost var key := Segments(path);
      var ancestors: seq<Ancestor<T>> := [];
      var cur := this;
      SliceStep(Top, path, 0);
      assert path[0..] == path;
      var r := Slice(path, 0);
      var part, i := r.0, r.1;
      while true
        invariant -1 <= i <= |path| && Onward(Extend(cur.pos, part), path, i) == key
        invariant cur in repr && Trail(index, cur.pos, ancestors)
        modifies {}
        decreases if i == -1 then 0 else |path| - i + 1
      {
        if part != "" {
          if part !in cur.children {
            OnwardLeads(Sub(cur.pos, part), path, i);
            MatchStops(index.Keys, view, cur.pos, part, key);
            assert view - {key} == view;
            return;
          }
          ghost var passed := ancestors;
          ancestors := ancestors + [Ancestor(cur, part)];
          assert ancestors[..|ancestors| - 1] == passed;
          cur := cur.children[part];
        }
        if i == -1 {
          break;
        }
        SliceStep(cur.pos, path, i);
        r := Slice(path, i);
        part, i := r.0, r.1;
      }
      Clear(cur, ancestors);
    }

    /** The end of Remove: take the backend away and clean up. */
    method Clear(cur: Node<T>, ancestors: seq<Ancestor<T>>)
      requires Valid() && cur in repr && Trail(index, cur.pos, ancestors)
      modifies repr
      ensures Valid() && repr <= old(repr)
      ensures view == old(view) - {cur.pos}
      ensures Within(index, old(index))
    {
      PutBackend(cur, None);
      if |cur.children| == 0 {
        Prune(cur, ancestors);
      } else {
        AliveEnough(cur);
      }
    }

    /** The backwards loop of Remove: drop the empty node cur, then each ancestor
        that is left empty. */
    method Prune(cur: Node<T>, ancestors: seq<Ancestor<T>>)
      requires Sound(cur) && Trail(index, cur.pos, ancestors)
      requires cur.backend == None && cur.children == map[]
      modifies repr
      ensures Valid() && repr <= old(repr)
      ensures view == old(view) && Within(index, old(index))
    {
      ghost var first, dead := index, cur;
      var i := |ancestors| - 1;
      assert ancestors[..i + 1] == ancestors;
      while 0 <= i
        invariant -1 <= i < |ancestors| && Trail(first, dead.pos, ancestors[..i + 1])
        invariant Sound(dead) && repr <= old(repr)
        invariant view == old(view) && Within(index, first)
        invariant dead.backend == None && dead.children == map[]
      {
        var parent, part := ancestors[i].node, ancestors[i].part;
        ghost var passed, up := ancestors[..i + 1], dead.pos.up;
        assert passed[|passed| - 1] == ancestors[i] && passed[..|passed| - 1] == ancestors[..i];
        assert dead.pos == Sub(up, part) && up in index && parent == index[up];
        DropEmpty(parent, part, dead);
        dead := parent;
        if parent.backend != None || |parent.children| > 0 {
          break;
        }
        i := i - 1;
      }
      AliveEnough(dead);
    }

    /** One step of the backwards loop: cut off an empty node. */
    method DropEmpty(parent: Node<T>, part: string, ghost child: Node<T>)
      requires Sound(child) && child.pos == Sub(parent.pos, part) && parent in repr
      requires child.backend == None && child.children == map[]
      modifies this, parent`children
      ensures Sound(parent) && repr <= old(repr)
      ensures view == old(view) && Within(index, old(index))
    {
      assert child.pos in index && part in parent.children && parent.children[part] == child;
      PrunedCut(index.Keys, view.Keys, parent.pos, part);
      DropChild(parent, part, child);
      DroppedPlaced(Step(parent, part, child));
      DroppedTied(Step(parent, part, child));
      assert index.Keys == old(index.Keys) - {child.pos};
    }

    /** A node that is the root, or not empty, is no dead end. */
    lemma AliveEnough(cur: Node<T>)
      requires Sound(cur) && (cur.pos.Top? || cur.backend != None || cur.children != map[])
      ensures Valid()
    {
      if cur.children != map[] {
        var s :| s in cur.children;
        assert Sub(cur.pos, s) in index.Keys;
      }
      PrunedAll(index.Keys, view.Keys, cur.pos);
    }
  }

  /** The represented map determines the trie: two tries of one map stand in the
      same positions, with the same backend and the same segments leading down from each. */
  lemma {:induction false} SameMapSameShape<T>(a: Node<T>, b: Node<T>)
    requires a.Valid() && b.Valid() && a.view == b.view
    ensures a.index.Keys == b.index.Keys
    ensures forall p | p in a.index ::
              a.index[p].backend == b.index[p].backend && a.index[p].children.Keys == b.index[p].children.Keys
  {
    PositionsAreDetermined(a.index.Keys, b.index.Keys, a.view.Keys);
    forall p, s | p in a.index
      ensures s in a.index[p].children <==> s in b.index[p].children
    {
      ChildNames(a, p, s);
      ChildNames(b, p, s);
    }
  }

  lemma {:induction false} ChildNames<T>(root: Node<T>, p: Key, s: string)
    requires root.Valid() && p in root.index
    ensures s in root.index[p].children <==> Sub(p, s) in root.index
  {
    assert root.index[p] in root.repr && root.index[p].pos == p;
  }

  /** Inserting a path that was not registered and removing it again leaves the
      identical trie: the same nodes, each with the same children and backend. */
  method InsertThenRemove<T>(root: Node<T>, path: string, backend: T)
    requires root.Valid() && Segments(path) !in root.view
    modifies root.repr
    ensures root.Valid() && root.repr == old(root.repr) && root.index == old(root.index) && root.view == old(root.view)
    ensures forall n | n in root.repr :: n.children == old(n.children) && n.backend == old(n.backend)
  {
    ghost var grown := Both(root, path, backend);
    SamePositions(root);
    SameIndex(old(root.index), grown, root.index);
    SameNodes(root);
  }

  method Both<T>(root: Node<T>, path: string, backend: T) returns (ghost grown: map<Key, Node<T>>)
    requires root.Valid() && Segments(path) !in root.view
    modifies root.repr
    ensures root.Valid() && root.view == old(root.view)
    ensures Within(old(root.index), grown) && Within(root.index, grown)
  {
    PutDrop(root.view, Segments(path), backend);
    root.Insert(path, backend);
    grown := root.index;
    root.Remove(path);
  }

  lemma {:induction false} PutDrop<T>(view: map<Key, T>, key: Key, backend: T)
    requires key !in view
    ensures view[key := backend] - {key} == view
  {
  }

  lemma {:induction false} SameIndex<T>(was: map<Key, Node<T>>, grown: map<Key, Node<T>>, now: map<Key, Node<T>>)
    requires Within(was, grown) && Within(now, grown) && was.Keys == now.Keys
    ensures was == now
  {
  }

  twostate lemma SamePositions<T>(root: Node<T>)
    requires old(root.Valid()) && root.Valid() && root.view == old(root.view)
    ensures root.index.Keys == old(root.index.Keys)
  {
    PositionsAreDetermined(root.index.Keys, old(root.index.Keys), root.view.Keys);
  }

  /** Positions and represented map fix what every node holds. */
  twostate lemma SameNodes<T>(root: Node<T>)
    requires old(root.Valid()) && root.Valid()
    requires root.index == old(root.index) && root.view == old(root.view)
    ensures root.repr == old(root.repr)
    ensures forall n | n in root.repr :: n.children == old(n.children) && n.backend == old(n.backend)
  {
    forall n | n in root.repr
      ensures n.children == old(n.children)
    {
      assert forall s :: s in n.children <==> s in old(n.children);
    }
  }
}
