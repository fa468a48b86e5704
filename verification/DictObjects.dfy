// Nested dicts as objects on the heap, as the master holds them. A shape records which
// object holds which entries; a proper shape shares no object between two places, and its
// value is the tree the objects spell out.
module DictObjects {
  import opened Outcomes
  import opened Names
  import opened Trees

  class DictObj {
    var items: map<string, Obj>

    constructor ()
      ensures items == map[]
    {
      items := map[];
    }
  }

  datatype Obj = Plain(v: Value) | Ref(d: DictObj)

  datatype Shape = Atom(v: Value) | Node(d: DictObj, kids: map<string, Shape>)

  ghost function Dicts(s: Shape): set<DictObj> {
    match s
    case Atom(_) => {}
    case Node(d, kids) => {d} + set k, x | k in kids && x in Dicts(kids[k]) :: x
  }

  ghost predicate Disjoint(kids: map<string, Shape>) {
    forall j, k | j in kids && k in kids && j != k :: Dicts(kids[j]) !! Dicts(kids[k])
  }

  ghost predicate Proper(s: Shape) {
    match s
    case Atom(v) => !v.Dict?
    case Node(d, kids) =>
      && (forall k | k in kids :: Proper(kids[k]) && d !in Dicts(kids[k]))
      && Disjoint(kids)
  }

  // The entries of some dict objects at one moment.
  type Memory = map<DictObj, map<string, Obj>>

  // The heap agrees with the memory m.
  ghost predicate Current(m: Memory)
    reads m.Keys
  {
    forall d | d in m :: d.items == m[d]
  }

  // In the memory h, the object o spells out the shape s.
  ghost predicate Holds(h: Memory, o: Obj, s: Shape)
    decreases s
  {
    match s
    case Atom(v) => o == Plain(v)
    case Node(d, kids) =>
      && o == Ref(d)
      && d in h
      && h[d].Keys == kids.Keys
      && forall k | k in kids :: Holds(h, h[d][k], kids[k])
  }

  ghost function ValueOf(s: Shape): Value {
    match s
    case Atom(v) => v
    case Node(_, kids) => Dict(map k | k in kids :: ValueOf(kids[k]))
  }

  ghost function Sub(s: Shape, p: Path): Option<Shape> {
    if p == [] then Some(s)
    else if s.Node? && p[0] in s.kids then Sub(s.kids[p[0]], p[1..])
    else None
  }

  ghost predicate AtDict(s: Shape, p: Path) {
    Sub(s, p).Some? && Sub(s, p).value.Node?
  }

  // The shape after the dict at p got new entries.
  ghost function Redo(s: Shape, p: Path, kids: map<string, Shape>): Shape
    requires AtDict(s, p)
  {
    if p == [] then Node(s.d, kids)
    else Node(s.d, s.kids[p[0] := Redo(s.kids[p[0]], p[1..], kids)])
  }

  lemma {:induction false} SubDicts(s: Shape, p: Path)
    requires Sub(s, p).Some?
    ensures Dicts(Sub(s, p).value) <= Dicts(s)
  {
    if p != [] {
      SubDicts(s.kids[p[0]], p[1..]);
      assert Dicts(s.kids[p[0]]) <= Dicts(s);
    }
  }

  lemma {:induction false} SubHolds(h: Memory, o: Obj, s: Shape, p: Path) returns (x: Obj)
    requires Holds(h, o, s) && Proper(s) && Sub(s, p).Some?
    ensures Holds(h, x, Sub(s, p).value) && Proper(Sub(s, p).value)
    decreases p
  {
    x := o;
    if p != [] {
      x := SubHolds(h, h[s.d][p[0]], s.kids[p[0]], p[1..]);
    }
  }

  lemma {:induction false} SubValue(s: Shape, p: Path)
    requires Proper(s)
    ensures Lookup(ValueOf(s), p) == match Sub(s, p) case Some(x) => Some(ValueOf(x)) case None => None
  {
    if p != [] && s.Node? && p[0] in s.kids {
      SubValue(s.kids[p[0]], p[1..]);
    }
  }

  lemma {:induction false} SubConcat(s: Shape, p: Path, q: Path)
    ensures Sub(s, p + q) == match Sub(s, p) case Some(x) => Sub(x, q) case None => None
  {
    if p == [] {
      assert p + q == q;
    } else {
      assert (p + q)[1..] == p[1..] + q;
      if s.Node? && p[0] in s.kids {
        SubConcat(s.kids[p[0]], p[1..], q);
      }
    }
  }

  lemma {:induction false} SubRedo(s: Shape, p: Path, kids: map<string, Shape>)
    requires AtDict(s, p)
    ensures Sub(Redo(s, p, kids), p) == Some(Node(Sub(s, p).value.d, kids))
  {
    if p != [] {
      SubRedo(s.kids[p[0]], p[1..], kids);
    }
  }

  // Only the objects of a shape matter to it.
  lemma {:induction false} HoldsFrame(h: Memory, g: Memory, o: Obj, s: Shape)
    requires Holds(h, o, s)
    requires forall x | x in Dicts(s) :: x in g && x in h && g[x] == h[x]
    ensures Holds(g, o, s)
    decreases s
  {
    if s.Node? {
      forall k | k in s.kids
        ensures Holds(g, g[s.d][k], s.kids[k])
      {
        assert Dicts(s.kids[k]) <= Dicts(s);
        HoldsFrame(h, g, h[s.d][k], s.kids[k]);
      }
    }
  }

  // Rewriting the entries of one dict object, in place, rewrites the shape at its path
  // and leaves every other object's part of the shape as it was.
  lemma {:induction false} RedoHolds(h: Memory, g: Memory, o: Obj, s: Shape, p: Path, kids: map<string, Shape>)
    requires Holds(h, o, s) && Proper(s) && AtDict(s, p)
    requires Sub(s, p).value.d in g && g[Sub(s, p).value.d].Keys == kids.Keys
    requires forall x | x in Dicts(s) && x != Sub(s, p).value.d :: x in g && x in h && g[x] == h[x]
    requires forall k | k in kids :: Holds(g, g[Sub(s, p).value.d][k], kids[k])
    ensures Holds(g, o, Redo(s, p, kids))
    decreases p
  {
    if p != [] {
      var d := Sub(s, p).value.d;
      SubDicts(s.kids[p[0]], p[1..]);
      assert d in Dicts(s.kids[p[0]]);
      assert forall k | k in s.kids :: Dicts(s.kids[k]) <= Dicts(s);
      RedoHolds(h, g, h[s.d][p[0]], s.kids[p[0]], p[1..], kids);
      forall k | k in s.kids && k != p[0]
        ensures Holds(g, g[s.d][k], s.kids[k])
      {
        HoldsFrame(h, g, h[s.d][k], s.kids[k]);
      }
    }
  }

  // The new entries may drop objects and bring in foreign ones, not share any.
  lemma {:induction false} RedoProper(s: Shape, p: Path, kids: map<string, Shape>, foreign: set<DictObj>)
    requires Proper(s) && AtDict(s, p)
    requires foreign !! Dicts(s)
    requires Proper(Node(Sub(s, p).value.d, kids))
    requires Dicts(Node(Sub(s, p).value.d, kids)) <= Dicts(Sub(s, p).value) + foreign
    ensures Proper(Redo(s, p, kids))
    ensures Dicts(Redo(s, p, kids)) <= Dicts(s) + foreign
    decreases p
  {
    if p != [] {
      assert forall k | k in s.kids :: Dicts(s.kids[k]) <= Dicts(s);
      RedoProper(s.kids[p[0]], p[1..], kids, foreign);
    }
  }

  // On values, putting a shape under a name of the dict at p is SetAt ...
  lemma {:induction false} GraftValue(s: Shape, p: Path, k: string, x: Shape)
    requires AtDict(s, p)
    ensures ValueOf(Redo(s, p, Sub(s, p).value.kids[k := x])) == SetAt(ValueOf(s), p + [k], ValueOf(x))
  {
    var t := Redo(s, p, Sub(s, p).value.kids[k := x]);
    if p == [] {
      assert (p + [k])[1..] == [];
      assert ValueOf(t).items == ValueOf(s).items[k := ValueOf(x)];
    } else {
      GraftValue(s.kids[p[0]], p[1..], k, x);
      assert (p + [k])[1..] == p[1..] + [k];
      var w := Redo(s.kids[p[0]], p[1..], Sub(s, p).value.kids[k := x]);
      assert ValueOf(t).items == ValueOf(s).items[p[0] := ValueOf(w)];
    }
  }

  // ... and dropping a name is DeleteAt.
  lemma {:induction false} PruneValue(s: Shape, p: Path, k: string)
    requires AtDict(s, p) && k in Sub(s, p).value.kids
    ensures DeleteAt(ValueOf(s), p + [k]) == Ok(ValueOf(Redo(s, p, Sub(s, p).value.kids - {k})))
  {
    var t := Redo(s, p, Sub(s, p).value.kids - {k});
    if p == [] {
      assert ValueOf(t).items == ValueOf(s).items - {k};
    } else {
      PruneValue(s.kids[p[0]], p[1..], k);
      assert (p + [k])[1..] == p[1..] + [k];
      var w := Redo(s.kids[p[0]], p[1..], Sub(s, p).value.kids - {k});
      assert ValueOf(t).items == ValueOf(s).items[p[0] := ValueOf(w)];
    }
  }

  // What deleting k under p raises when the parent or the name is missing.
  lemma {:induction false} DeleteFaults(v: Value, p: Path, k: string)
    ensures DeleteAt(v, p + [k]) == match Lookup(v, p)
      case None => Err(KeyError)
      case Some(w) =>
        if !w.Dict? then Err(TypeError)
        else if k !in w.items then Err(KeyError)
        else DeleteAt(v, p + [k])
  {
    if p != [] {
      assert (p + [k])[1..] == p[1..] + [k];
      if v.Dict? && p[0] in v.items {
        DeleteFaults(v.items[p[0]], p[1..], k);
      }
    }
  }

  // Clearing an obstacle on the way does not change what a store below it results in.
  lemma {:induction false} SetAtThrough(v: Value, a: Path, p: Path, x: Value)
    requires a <= p && a != p && a != []
    requires match Lookup(v, a) case Some(w) => !w.Dict? case None => true
    ensures SetAt(SetAt(v, a, EMPTY), p, x) == SetAt(v, p, x)
    decreases a
  {
    PrefixStep(a, p);
    var sub := if a[0] in Items(v) then Items(v)[a[0]] else EMPTY;
    if |a| > 1 {
      if v.Dict? && a[0] in v.items {
        SetAtThrough(sub, a[1..], p[1..], x);
      } else {
        SetAtThrough(EMPTY, a[1..], p[1..], x);
      }
      assert SetAt(v, a, EMPTY).items[a[0]] == SetAt(sub, a[1..], EMPTY);
    } else {
      assert a[1..] == [];
      assert SetAt(v, a, EMPTY).items[a[0]] == EMPTY;
      assert Lookup(sub, []) == Some(sub);
      assert Items(sub) == map[];
      assert SetAt(EMPTY, p[1..], x) == SetAt(sub, p[1..], x);
    }
    var s := SetAt(sub, p[1..], x);
    assert SetAt(v, a, EMPTY).items[p[0] := s] == Items(v)[p[0] := s];
  }

  // A dict with one name assigned to a foreign shape, or with one name dropped.
  lemma GraftProper(s: Shape, name: string, x: Shape)
    requires s.Node? && Proper(s) && Proper(x) && Dicts(x) !! Dicts(s)
    ensures Proper(Node(s.d, s.kids[name := x]))
    ensures Dicts(Node(s.d, s.kids[name := x])) <= Dicts(s) + Dicts(x)
  {
    var kids := s.kids[name := x];
    assert forall k | k in s.kids :: Dicts(s.kids[k]) <= Dicts(s);
    assert forall k | k in kids :: Dicts(kids[k]) <= Dicts(s) + Dicts(x);
  }

  lemma PruneProper(s: Shape, name: string)
    requires s.Node? && Proper(s)
    ensures Proper(Node(s.d, s.kids - {name}))
    ensures Dicts(Node(s.d, s.kids - {name})) <= Dicts(s)
  {
    var kids := s.kids - {name};
    assert forall k | k in kids :: kids[k] == s.kids[k];
  }

  // Assigning a name of the dict at p, seen from the root.
  lemma Assigned(h: Memory, g: Memory, root: Obj, s: Shape, p: Path, name: string, value: Obj, x: Shape)
    requires Holds(h, root, s) && Proper(s) && AtDict(s, p)
    requires Proper(x) && Dicts(x) !! Dicts(s) && Holds(g, value, x)
    requires var d := Sub(s, p).value.d; d in h && d in g && g[d] == h[d][name := value]
    requires forall y | y in Dicts(s) && y != Sub(s, p).value.d :: y in g && y in h && g[y] == h[y]
    ensures var t := Redo(s, p, Sub(s, p).value.kids[name := x]);
      Proper(t) && Dicts(t) <= Dicts(s) + Dicts(x) && Holds(g, root, t)
  {
    var at := Sub(s, p).value;
    var o := SubHolds(h, root, s, p);
    SubDicts(s, p);
    GraftProper(at, name, x);
    RedoProper(s, p, at.kids[name := x], Dicts(x));
    forall k | k in at.kids && k != name
      ensures Holds(g, g[at.d][k], at.kids[k])
    {
      assert Dicts(at.kids[k]) <= Dicts(at);
      HoldsFrame(h, g, h[at.d][k], at.kids[k]);
    }
    RedoHolds(h, g, root, s, p, at.kids[name := x]);
  }

  // Dropping a name of the dict at p, seen from the root.
  lemma Dropped(h: Memory, g: Memory, root: Obj, s: Shape, p: Path, name: string)
    requires Holds(h, root, s) && Proper(s) && AtDict(s, p)
    requires var d := Sub(s, p).value.d; d in h && d in g && g[d] == h[d] - {name}
    requires forall y | y in Dicts(s) && y != Sub(s, p).value.d :: y in g && y in h && g[y] == h[y]
    ensures var t := Redo(s, p, Sub(s, p).value.kids - {name});
      Proper(t) && Dicts(t) <= Dicts(s) && Holds(g, root, t)
  {
    var at := Sub(s, p).value;
    var o := SubHolds(h, root, s, p);
    SubDicts(s, p);
    PruneProper(at, name);
    RedoProper(s, p, at.kids - {name}, {});
    forall k | k in at.kids && k != name
      ensures Holds(g, g[at.d][k], at.kids[k])
    {
      assert Dicts(at.kids[k]) <= Dicts(at);
      HoldsFrame(h, g, h[at.d][k], at.kids[k]);
    }
    RedoHolds(h, g, root, s, p, at.kids - {name});
  }

  // Keeping only the objects of a shape.
  lemma HoldsRestricted(h: Memory, o: Obj, s: Shape)
    requires Holds(h, o, s) && Dicts(s) <= h.Keys
    ensures Holds(map d | d in Dicts(s) :: h[d], o, s)
  {
    HoldsFrame(h, map d | d in Dicts(s) :: h[d], o, s);
  }

  // A root object with the memory of exactly its dicts.
  ghost predicate Rooted(m: Memory, d: DictObj, s: Shape) {
    s.Node? && s.d == d && Proper(s) && m.Keys == Dicts(s) && Holds(m, Ref(d), s)
  }

  // A value that has arrived, with the memory of exactly its dicts.
  ghost predicate Arrived(m: Memory, o: Obj, s: Shape) {
    Proper(s) && m.Keys == Dicts(s) && Holds(m, o, s)
  }

  lemma EmptyArrived(d: DictObj)
    ensures Arrived(map[d := map[]], Ref(d), Node(d, map[]))
    ensures ValueOf(Node(d, map[])) == EMPTY
  {
  }

  lemma RootedAt(m: Memory, root: DictObj, s: Shape, p: Path)
    requires Rooted(m, root, s) && AtDict(s, p)
    ensures Sub(s, p).value.d in m && Dicts(Sub(s, p).value) <= m.Keys
  {
    SubDicts(s, p);
  }

  lemma RedoRoot(s: Shape, p: Path, kids: map<string, Shape>)
    requires AtDict(s, p)
    ensures Redo(s, p, kids).Node? && Redo(s, p, kids).d == s.d
  {
  }

  // params[name] = value at the path p: the new shape and memory.
  lemma AssignRooted(m: Memory, root: DictObj, s: Shape, p: Path, name: string, vm: Memory, value: Obj, x: Shape)
    returns (t: Shape, g: Memory)
    requires Rooted(m, root, s) && Arrived(vm, value, x) && vm.Keys !! m.Keys
    requires AtDict(s, p)
    ensures var d := Sub(s, p).value.d;
      && d in m
      && Rooted(g, root, t)
      && g.Keys <= m.Keys + vm.Keys
      && (forall y | y in g :: g[y] == if y == d then m[d][name := value] else if y in m then m[y] else vm[y])
      && ValueOf(t) == SetAt(ValueOf(s), p + [name], ValueOf(x))
      && AtDict(t, p) && Sub(t, p).value.d == d
      && Sub(t, p + [name]) == Some(x)
  {
    hide Proper, Holds, Sub, ValueOf, SetAt, Dicts;
    var d := Sub(s, p).value.d;
    var kids := Sub(s, p).value.kids[name := x];
    GraftValue(s, p, name, x);
    SubRedo(s, p, kids);
    RootedAt(m, root, s, p);
    t := Redo(s, p, kids);
    RedoRoot(s, p, kids);
    NextSub(t, p, name);
    var after := (m + vm)[d := m[d][name := value]];
    HoldsFrame(vm, after, value, x);
    Assigned(m, after, Ref(root), s, p, name, value, x);
    HoldsRestricted(after, Ref(root), t);
    g := map y | y in Dicts(t) :: after[y];
  }

  // del params[name] at the path p.
  lemma DropRooted(m: Memory, root: DictObj, s: Shape, p: Path, name: string) returns (t: Shape, g: Memory)
    requires Rooted(m, root, s) && AtDict(s, p) && name in Sub(s, p).value.kids
    ensures var d := Sub(s, p).value.d;
      && d in m
      && Rooted(g, root, t)
      && g.Keys <= m.Keys
      && (forall y | y in g :: g[y] == if y == d then m[d] - {name} else m[y])
      && DeleteAt(ValueOf(s), p + [name]) == Ok(ValueOf(t))
  {
    var d := Sub(s, p).value.d;
    PruneValue(s, p, name);
    SubDicts(s, p);
    t := Redo(s, p, Sub(s, p).value.kids - {name});
    var after := m[d := m[d] - {name}];
    Dropped(m, after, Ref(root), s, p, name);
    HoldsRestricted(after, Ref(root), t);
    g := map y | y in Dicts(t) :: after[y];
  }

  // One step further down.
  lemma NextSub(root: Shape, p: Path, name: string)
    requires AtDict(root, p)
    ensures var kids := Sub(root, p).value.kids;
      Sub(root, p + [name]) == if name in kids then Some(kids[name]) else None
  {
    SubConcat(root, p, [name]);
    var at := Sub(root, p).value;
    assert Sub(at, [name]) == if name in at.kids then Sub(at.kids[name], []) else None;
  }

  lemma NextHolds(h: Memory, o: Obj, s: Shape, name: string)
    requires Holds(h, o, s) && Proper(s)
    ensures o.Ref? <==> s.Node?
    ensures s.Node? ==> s.d == o.d && o.d in h && (name in h[o.d] <==> name in s.kids)
    ensures s.Node? && name in s.kids ==> Holds(h, h[o.d][name], s.kids[name]) && Proper(s.kids[name])
  {
  }

  // There is nothing below an atom or a missing entry.
  lemma NoFurther(root: Shape, p: Path, i: nat)
    requires i < |p| && Sub(root, p[..i]).Some?
    requires var s := Sub(root, p[..i]).value; s.Atom? || p[i] !in s.kids
    ensures Sub(root, p) == None
  {
    SubConcat(root, p[..i], p[i..]);
    assert p == p[..i] + p[i..];
  }

  // What the dict at p says about its name: the object under it, and the tree's view.
  lemma EntryAt(m: Memory, root: DictObj, s: Shape, p: Path, name: string)
    requires Rooted(m, root, s) && AtDict(s, p)
    ensures var d := Sub(s, p).value.d;
      && d in m
      && (name in m[d] <==> Sub(s, p + [name]).Some?)
      && (name in m[d] && m[d][name].Ref? <==> AtDict(s, p + [name]))
      && (name in m[d] && m[d][name].Ref? ==> m[d][name].d == Sub(s, p + [name]).value.d)
      && (match Lookup(ValueOf(s), p + [name])
          case Some(w) => name in m[d] && (w.Dict? <==> m[d][name].Ref?)
          case None => name !in m[d])
  {
    var _ := SubHolds(m, Ref(root), s, p);
    SubDicts(s, p);
    SubConcat(s, p, [name]);
    SubValue(s, p + [name]);
    var at := Sub(s, p).value;
    assert Sub(at, [name]) == if name in at.kids then Sub(at.kids[name], []) else None;
  }
}
