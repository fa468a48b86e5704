// The worklist of ParamCache.keys, seen on paths: subtrees still to visit, and leaves
// already found.
module LeafPaths {
  import opened Outcomes
  import opened Names
  import opened Trees

  ghost predicate Distinct<T>(s: seq<T>) {
    forall i, j :: 0 <= i < j < |s| ==> s[i] != s[j]
  }

  // No pending subtree contains another, found leaves lie outside the pending subtrees,
  // and every leaf is found or pending.
  ghost predicate Progress(tree: Value, places: seq<Path>, found: seq<Path>) {
    Open(tree, places) && Found(tree, found) && Apart(places, found) && Covered(tree, places, found)
  }

  ghost predicate Open(tree: Value, places: seq<Path>) {
    && (forall i :: 0 <= i < |places| ==> places[i] != [] && Lookup(tree, places[i]).Some?)
    && (forall i, j :: 0 <= i < |places| && 0 <= j < |places| && i != j ==> !(places[i] <= places[j]))
  }

  ghost predicate Found(tree: Value, found: seq<Path>) {
    Distinct(found) && forall j :: 0 <= j < |found| ==> LeafAt(tree, found[j]).Some?
  }

  ghost predicate Apart(places: seq<Path>, found: seq<Path>) {
    forall i, j :: 0 <= i < |places| && 0 <= j < |found| ==> !(places[i] <= found[j])
  }

  ghost predicate Covered(tree: Value, places: seq<Path>, found: seq<Path>) {
    forall q: Path :: LeafAt(tree, q).Some? ==> q in found || Pending(places, q)
  }

  ghost predicate Pending(places: seq<Path>, q: Path) {
    exists i :: 0 <= i < |places| && places[i] <= q
  }

  function Children(p: Path, names: seq<string>): (c: seq<Path>)
    ensures |c| == |names|
    ensures forall i :: 0 <= i < |c| ==> c[i] == p + [names[i]]
  {
    seq(|names|, i requires 0 <= i < |names| => p + [names[i]])
  }

  // All paths of a tree.
  function AllPaths(v: Value): (s: set<Path>)
    ensures forall q: Path :: q in s <==> Lookup(v, q).Some?
    decreases v
  {
    var below := set k, r | k in Items(v) && r in AllPaths(v.items[k]) :: [k] + r;
    var s := {[]} + below;
    assert forall q: Path :: q in s <==> Lookup(v, q).Some? by {
      forall q: Path
        ensures q in s <==> Lookup(v, q).Some?
      {
        if q in s && q != [] {
          var k, r :| k in Items(v) && r in AllPaths(v.items[k]) && q == [k] + r;
          assert q[1..] == r;
        }
        if q != [] && Lookup(v, q).Some? {
          assert q == [q[0]] + q[1..];
          assert q[1..] in AllPaths(v.items[q[0]]);
        }
      }
    }
    s
  }

  // What is left to visit; it shrinks with every step.
  ghost function Remaining(tree: Value, places: seq<Path>): set<Path> {
    set q | q in AllPaths(tree) && Pending(places, q)
  }

  lemma LeafIsPresent(tree: Value, q: Path)
    requires LeafAt(tree, q).Some?
    ensures Lookup(tree, q) == LeafAt(tree, q)
  {
    LookupLeaves(tree, q, []);
    assert q + [] == q;
    match Lookup(tree, q) case Some(w) => case None =>
  }

  lemma Start(tree: Value, names: seq<string>)
    requires tree.Dict? && Distinct(names) && (forall k :: k in names <==> k in tree.items)
    ensures Progress(tree, Children([], names), [])
  {
    var c := Children([], names);
    forall i | 0 <= i < |c|
      ensures Lookup(tree, c[i]).Some?
    {
      assert c[i] == [names[i]] && names[i] in names;
      assert c[i][1..] == [];
    }
    forall q: Path | LeafAt(tree, q).Some?
      ensures Pending(c, q)
    {
      var i :| 0 <= i < |names| && names[i] == q[0];
      assert c[i] <= q;
    }
  }

  // The head is a leaf: it is yielded.
  lemma Yield(tree: Value, places: seq<Path>, found: seq<Path>)
    requires Progress(tree, places, found) && places != []
    requires !Lookup(tree, places[0]).value.Dict?
    ensures Progress(tree, places[1..], found + [places[0]])
    ensures Remaining(tree, places[1..]) < Remaining(tree, places)
  {
    var p, rest := places[0], places[1..];
    LookupLeaves(tree, p, []);
    assert p + [] == p;
    assert Found(tree, found + [p]);
    assert Apart(rest, found + [p]);
    YieldCovers(tree, places, found);
    assert forall j :: 0 <= j < |rest| ==> places[j + 1] <= rest[j];
    Narrower(tree, places, rest);
  }

  lemma YieldCovers(tree: Value, places: seq<Path>, found: seq<Path>)
    requires Covered(tree, places, found) && places != [] && LeafAt(tree, places[0]).Some?
    ensures Covered(tree, places[1..], found + [places[0]])
  {
    var p, rest := places[0], places[1..];
    forall q: Path | LeafAt(tree, q).Some? && q !in found && q != p
      ensures Pending(rest, q)
    {
      var i :| 0 <= i < |places| && places[i] <= q;
      if p <= q {
        LeavesPrefixFree(tree, p, q);
      }
      assert rest[i - 1] <= q;
    }
  }

  // The head is a dict: its entries take its place.
  lemma Expand(tree: Value, places: seq<Path>, found: seq<Path>, names: seq<string>)
    requires Progress(tree, places, found) && places != []
    requires IsDictAt(tree, places[0])
    requires Distinct(names) && forall k :: k in names <==> k in Lookup(tree, places[0]).value.items
    ensures Progress(tree, Children(places[0], names) + places[1..], found)
    ensures Remaining(tree, Children(places[0], names) + places[1..]) < Remaining(tree, places)
  {
    var p, c := places[0], Children(places[0], names);
    var next := c + places[1..];
    assert forall i :: |c| <= i < |next| ==> next[i] == places[i - |c| + 1];
    assert forall i :: 0 <= i < |c| ==> p <= c[i];
    ExpandOpen(tree, places, names);
    ExpandCovers(tree, places, found, names);
    assert Apart(next, found);
    Narrower(tree, places, next);
  }

  lemma ExpandOpen(tree: Value, places: seq<Path>, names: seq<string>)
    requires Open(tree, places) && places != []
    requires IsDictAt(tree, places[0])
    requires Distinct(names) && forall k :: k in names ==> k in Lookup(tree, places[0]).value.items
    ensures Open(tree, Children(places[0], names) + places[1..])
  {
    var p, c := places[0], Children(places[0], names);
    var next := c + places[1..];
    forall i | 0 <= i < |c|
      ensures Lookup(tree, c[i]).Some?
    {
      LookupConcat(tree, p, [names[i]]);
      assert names[i] in names;
      assert Lookup(Lookup(tree, p).value.items[names[i]], [names[i]][1..]).Some?;
    }
    assert forall i :: |c| <= i < |next| ==> next[i] == places[i - |c| + 1];
    forall i, j | 0 <= i < |next| && 0 <= j < |next| && i != j
      ensures !(next[i] <= next[j])
    {
      if i < |c| && j < |c| {
        assert c[i][|p|] == names[i] && c[j][|p|] == names[j];
      } else if i < |c| {
        assert p <= next[i] && !(p <= next[j]);
      } else if j < |c| {
        Sideways(p, next[i], next[j]);
      }
    }
  }

  lemma Sideways(p: Path, a: Path, q: Path)
    requires !(a <= p) && !(p <= a) && p <= q
    ensures !(a <= q)
  {
  }

  lemma ExpandCovers(tree: Value, places: seq<Path>, found: seq<Path>, names: seq<string>)
    requires Covered(tree, places, found) && places != []
    requires IsDictAt(tree, places[0]) && forall k :: k in Lookup(tree, places[0]).value.items ==> k in names
    ensures Covered(tree, Children(places[0], names) + places[1..], found)
  {
    var p, c := places[0], Children(places[0], names);
    var next := c + places[1..];
    forall q: Path | LeafAt(tree, q).Some? && q !in found
      ensures Pending(next, q)
    {
      var i :| 0 <= i < |places| && places[i] <= q;
      if i == 0 {
        LookupLeaves(tree, p, q[|p|..]);
        assert p + q[|p|..] == q;
        var k :| 0 <= k < |names| && names[k] == q[|p|];
        assert next[k] == p + [q[|p|]] <= q;
      } else {
        assert next[|c| + i - 1] == places[i];
      }
    }
  }

  ghost predicate IsDictAt(tree: Value, p: Path) {
    Lookup(tree, p).Some? && Lookup(tree, p).value.Dict?
  }

  lemma Narrower(tree: Value, places: seq<Path>, next: seq<Path>)
    requires places != [] && Lookup(tree, places[0]).Some?
    requires forall j :: 0 <= j < |next| ==> Pending(places, next[j]) && !(next[j] <= places[0])
    ensures Remaining(tree, next) < Remaining(tree, places)
  {
    forall q | q in Remaining(tree, next)
      ensures q in Remaining(tree, places)
    {
      var j :| 0 <= j < |next| && next[j] <= q;
      var i :| 0 <= i < |places| && places[i] <= next[j];
      assert places[i] <= q;
    }
    assert places[0] <= places[0];
    assert places[0] in Remaining(tree, places) && places[0] !in Remaining(tree, next);
  }
}
