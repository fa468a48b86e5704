// The master's parameter store (aioros/master/_param_cache.py): nested dict objects,
// walked and changed in place.
module MasterCache {
  import opened Outcomes
  import opened Names
  import opened Trees
  import opened DictObjects
  import opened LeafPaths

  // What a store at key does to the whole tree, with the exceptions it can raise.
  function Stored(tree: Value, key: string, x: Value): Result<Value> {
    if key == "/" then if x.Dict? then Ok(x) else Err(ValueError)
    else if Split(key) == [] then Err(IndexError)
    else Ok(SetAt(tree, Split(key), x))
  }

  // Afterwards the value is found at the key; only the root takes no scalar, and only under
  // its own name can it be stored to.
  lemma StoredExactly(tree: Value, key: string, x: Value)
    ensures Stored(tree, key, x).Ok? <==> if key == "/" then x.Dict? else Split(key) != []
    ensures Stored(tree, key, x).Err? ==> Stored(tree, key, x) == Err(if key == "/" then ValueError else IndexError)
    ensures Stored(tree, key, x).Ok? ==> Lookup(Stored(tree, key, x).value, Split(key)) == Some(x)
  {
    SplitLeadingSlash("");
    SplitWord("");
    assert "/" + "" == "/";
    if key != "/" {
      LookupSetAt(tree, Split(key), x);
    }
  }

  // What a deletion of key does to the whole tree.
  function Deleted(tree: Value, key: string): Result<Value> {
    DeleteAt(tree, Split(key))
  }

  ghost predicate IsDict(v: Option<Value>) {
    v.Some? && v.value.Dict?
  }

  // The names of the namespaces search climbs through, deepest first: the largest j such
  // that ns[..j] + [first] is set.
  function Nearest(tree: Value, ns: Path, first: string): (j: Option<nat>)
    ensures j.Some? ==> j.value <= |ns| && Lookup(tree, ns[..j.value] + [first]).Some?
    ensures forall i :: (if j.Some? then j.value + 1 else 0) <= i <= |ns| ==>
              Lookup(tree, ns[..i] + [first]) == None
    decreases |ns|
  {
    if Lookup(tree, ns + [first]).Some? then
      assert ns[..|ns|] == ns;
      Some(|ns|)
    else if ns == [] then
      None
    else
      var up := ns[..|ns| - 1];
      var j := Nearest(tree, up, first);
      assert ns[..|ns|] == ns;
      assert forall i :: 0 <= i < |ns| ==> ns[..i] == up[..i];
      j
  }

  lemma {:induction false} NearestIs(tree: Value, ns: Path, first: string, j: nat)
    requires j <= |ns|
    requires Lookup(tree, ns[..j] + [first]).Some?
    requires forall i :: j < i <= |ns| ==> Lookup(tree, ns[..i] + [first]) == None
    ensures Nearest(tree, ns, first) == Some(j)
  {
    var n := Nearest(tree, ns, first);
  }

  lemma SubRoot(s: Shape)
    ensures Sub(s, []) == Some(s)
  {
  }

  lemma BelowRoot(tree: Value, places: seq<Path>, found: seq<Path>)
    requires Progress(tree, places, found) && places != []
    ensures places[0] != []
  {
  }

  class ParamCache {
    var params: DictObj
    ghost var shape: Shape
    ghost var memory: Memory

    ghost predicate Valid()
      reads this, memory.Keys
    {
      Rooted(memory, params, shape) && Current(memory)
    }

    ghost function Tree(): Value
      reads this
    {
      ValueOf(shape)
    }

    constructor ()
      ensures Valid() && fresh(memory.Keys)
      ensures Tree() == EMPTY
    {
      var d := new DictObj();
      params := d;
      shape := Node(d, map[]);
      memory := map[d := map[]];
    }

    method GetItem(key: string) returns (r: Result<Obj>, ghost s: Shape)
      requires Valid()
      ensures Lookup(Tree(), Split(key)) == if r.Ok? then Some(ValueOf(s)) else None
      ensures r.Err? ==> r.fault == KeyError
      ensures r.Ok? ==> Sub(shape, Split(key)) == Some(s) && Proper(s) && Holds(memory, r.value, s)
    {
      hide Holds, Proper, Sub, Dicts, Split, ValueOf, Lookup;
      var splitted := Split(key);
      var value := Ref(params);
      var i := 0;
      s := shape;
      SubRoot(shape);
      assert splitted[..0] == [];
      SubValue(shape, splitted);
      while i < |splitted|
        invariant 0 <= i <= |splitted|
        invariant Sub(shape, splitted[..i]) == Some(s) && Proper(s)
        invariant Holds(memory, value, s)
      {
        NextHolds(memory, value, s, splitted[i]);
        if !value.Ref? {
          NoFurther(shape, splitted, i);
          return Err(KeyError), s;
        }
        var d := value.d;
        if splitted[i] !in d.items {
          NoFurther(shape, splitted, i);
          return Err(KeyError), s;
        }
        NextSub(shape, splitted[..i], splitted[i]);
        assert splitted[..i] + [splitted[i]] == splitted[..i + 1];
        value := d.items[splitted[i]];
        s := s.kids[splitted[i]];
        i := i + 1;
      }
      assert splitted[..i] == splitted;
      return Ok(value), s;
    }

    method Contains(key: string) returns (b: bool)
      requires Valid()
      ensures b <==> Lookup(Tree(), Split(key)).Some?
    {
      var r, _ := GetItem(key);
      b := r.Ok?;
    }

    // A value that arrives over the wire shares no dict with the tree.
    method SetItem(key: string, value: Obj, ghost vs: Shape, ghost vm: Memory) returns (r: Result<()>)
      requires Valid()
      requires Arrived(vm, value, vs) && Current(vm)
      requires vm.Keys !! memory.Keys
      modifies this, memory.Keys
      ensures Valid()
      ensures fresh(memory.Keys - old(memory.Keys) - vm.Keys)
      ensures match Stored(old(Tree()), key, ValueOf(vs))
              case Ok(t) => r == Ok(()) && Tree() == t
              case Err(e) => r == Err(e) && Tree() == old(Tree())
    {
      hide Holds, Proper, Dicts, Rooted, Arrived, SetAt, ValueOf, Split, Sub;
      if key == "/" {
        r := SetRoot(value, vs, vm);
        return;
      }
      var splitted := Split(key);
      if splitted == [] {
        return Err(IndexError);
      }
      var here, name := splitted[..|splitted| - 1], splitted[|splitted| - 1];
      assert splitted == here + [name];
      var cur := DescendAll(here, splitted, ValueOf(vs), vm);
      Assign(cur, here, name, value, vs, vm);
      return Ok(());
    }

    // The walk to the parent of a path: storing there comes to the same before and after.
    method DescendAll(here: Path, ghost path: Path, ghost x: Value, ghost vm: Memory) returns (cur: DictObj)
      requires Valid() && Current(vm) && vm.Keys !! memory.Keys && here <= path && |here| < |path|
      modifies this, memory.Keys
      ensures Valid() && Current(vm) && vm.Keys !! memory.Keys
      ensures fresh(memory.Keys - old(memory.Keys))
      ensures AtDict(shape, here) && Sub(shape, here).value.d == cur && cur in memory
      ensures SetAt(Tree(), path, x) == SetAt(old(Tree()), path, x)
    {
      hide Holds, Proper, Dicts, Rooted, SetAt, ValueOf;
      cur := params;
      var i := 0;
      assert here[..0] == [];
      RootDict();
      while i < |here|
        invariant 0 <= i <= |here|
        invariant Valid()
        invariant fresh(memory.Keys - old(memory.Keys))
        invariant vm.Keys !! memory.Keys && Current(vm)
        invariant AtDict(shape, here[..i]) && Sub(shape, here[..i]).value.d == cur
        invariant cur in memory
        invariant SetAt(Tree(), path, x) == SetAt(old(Tree()), path, x)
      {
        ghost var before := Tree();
        assert here[..i + 1] == here[..i] + [here[i]];
        cur := Descend(cur, here[..i], here[i], vm);
        if Tree() != before {
          SetAtThrough(before, here[..i + 1], path, x);
        }
        i := i + 1;
      }
      assert here[..i] == here;
    }

    lemma RootDict()
      requires Valid()
      ensures AtDict(shape, []) && Sub(shape, []).value.d == params && params in memory
    {
    }

    // params["/"] = value
    method SetRoot(value: Obj, ghost vs: Shape, ghost vm: Memory) returns (r: Result<()>)
      requires Valid()
      requires Arrived(vm, value, vs) && Current(vm)
      modifies this
      ensures Valid() && memory.Keys <= old(memory.Keys) + vm.Keys
      ensures if ValueOf(vs).Dict? then r == Ok(()) && Tree() == ValueOf(vs)
              else r == Err(ValueError) && Tree() == old(Tree())
    {
      if !value.Ref? {
        return Err(ValueError);
      }
      params := value.d;
      shape, memory := vs, vm;
      r := Ok(());
    }

    // One step of the walk to the parent: a dict is put where there is none.
    method Descend(cur: DictObj, ghost here: Path, name: string, ghost vm: Memory) returns (next: DictObj)
      requires Valid()
      requires AtDict(shape, here) && Sub(shape, here).value.d == cur && cur in memory
      requires Current(vm) && vm.Keys !! memory.Keys
      modifies `shape, `memory, cur
      ensures Valid()
      ensures fresh(memory.Keys - old(memory.Keys))
      ensures Current(vm) && vm.Keys !! memory.Keys
      ensures AtDict(shape, here + [name]) && Sub(shape, here + [name]).value.d == next && next in memory
      ensures
        if IsDict(Lookup(old(Tree()), here + [name])) then Tree() == old(Tree())
        else Tree() == SetAt(old(Tree()), here + [name], EMPTY)
    {
      hide Holds, Proper, Dicts, Rooted, Arrived, ValueOf, SetAt, Sub;
      EntryAt(memory, params, shape, here, name);
      if name !in cur.items || !cur.items[name].Ref? {
        next := new DictObj();
        EmptyArrived(next);
        Assign(cur, here, name, Ref(next), Node(next, map[]), map[next := map[]]);
      } else {
        next := cur.items[name].d;
      }
      RootedAt(memory, params, shape, here + [name]);
    }

    // params[name] = value, where params is the dict found at the path here.
    method Assign(cur: DictObj, ghost here: Path, name: string, value: Obj, ghost vs: Shape, ghost vm: Memory)
      requires Valid()
      requires Arrived(vm, value, vs) && Current(vm)
      requires vm.Keys !! memory.Keys
      requires AtDict(shape, here) && Sub(shape, here).value.d == cur
      requires cur in memory
      modifies `shape, `memory, cur
      ensures Valid() && cur.items == old(cur.items)[name := value]
      ensures memory.Keys <= old(memory.Keys) + vm.Keys
      ensures Tree() == SetAt(old(Tree()), here + [name], ValueOf(vs))
      ensures AtDict(shape, here) && Sub(shape, here).value.d == cur
      ensures Sub(shape, here + [name]) == Some(vs)
    {
      hide Holds, Proper, Dicts, ValueOf, SetAt, Sub;
      ghost var t, g := AssignRooted(memory, params, shape, here, name, vm, value, vs);
      cur.items := cur.items[name := value];
      shape, memory := t, g;
    }

    method DelItem(key: string) returns (r: Result<()>)
      requires Valid()
      modifies this, memory.Keys
      ensures Valid() && memory.Keys <= old(memory.Keys)
      ensures match Deleted(old(Tree()), key)
              case Ok(t) => r == Ok(()) && Tree() == t
              case Err(e) => r == Err(e) && Tree() == old(Tree())
    {
      var splitted := Split(key);
      if splitted == [] {
        return Err(IndexError);
      }
      var here := splitted[..|splitted| - 1];
      var namespace := "/" + Slashed(here);
      var subkey := splitted[|splitted| - 1];
      assert splitted == here + [subkey];
      SplitLeadingSlash(Slashed(here));
      SplitSlashed(here);
      DeleteFaults(Tree(), here, subkey);
      var parent, s := GetItem(namespace);
      if parent.Err? {
        return Err(parent.fault);
      }
      if !parent.value.Ref? {
        return Err(TypeError);
      }
      SubDicts(shape, here);
      var cur := parent.value.d;
      if subkey !in cur.items {
        return Err(KeyError);
      }
      Take(cur, here, subkey);
      return Ok(());
    }

    // del params[name], where params is the dict found at the path here.
    method Take(cur: DictObj, ghost here: Path, name: string)
      requires Valid()
      requires AtDict(shape, here) && Sub(shape, here).value.d == cur && cur in memory
      requires name in Sub(shape, here).value.kids
      modifies `shape, `memory, cur
      ensures Valid() && memory.Keys <= old(memory.Keys)
      ensures DeleteAt(old(Tree()), here + [name]) == Ok(Tree())
    {
      ghost var t, g := DropRooted(memory, params, shape, here, name);
      cur.items := cur.items - {name};
      shape, memory := t, g;
    }

    // A worklist entry stands for the subtree at a path.
    ghost predicate Listed(entry: (string, Obj), p: Path)
      reads this
    {
      && entry.0 == Slashed(p)
      && Sub(shape, p).Some?
      && Proper(Sub(shape, p).value)
      && Holds(memory, entry.1, Sub(shape, p).value)
    }

    ghost predicate AllListed(worklist: seq<(string, Obj)>, places: seq<Path>)
      reads this
    {
      |worklist| == |places| && forall i :: 0 <= i < |worklist| ==> Listed(worklist[i], places[i])
    }

    lemma ListedConcat(a: seq<(string, Obj)>, ap: seq<Path>, b: seq<(string, Obj)>, bp: seq<Path>)
      requires AllListed(a, ap) && AllListed(b, bp)
      ensures AllListed(a + b, ap + bp)
    {
    }

    // Every leaf once, under its joined path; siblings come in whatever order the entries
    // are listed in. Names with slashes in them may make two leaves look alike.
    method Keys() returns (ks: seq<string>, ghost found: seq<Path>)
      requires Valid()
      ensures Distinct(found) && forall q: Path :: q in found <==> LeafAt(Tree(), q).Some?
      ensures |ks| == |found| && forall i :: 0 <= i < |ks| ==> ks[i] == "/" + Slashed(found[i])
      ensures forall x :: x in ks <==> LeafName(Tree(), x)
      ensures WellNamed(Tree()) ==> Distinct(ks)
    {
      hide Progress, Slashed, Remaining;
      ghost var tree := Tree();
      var worklist, names := Entries("", params, []);
      ghost var places := Children([], names);
      ks, found := [], [];
      Start(tree, names);
      while worklist != []
        invariant AllListed(worklist, places)
        invariant Progress(tree, places, found)
        invariant |ks| == |found| && forall i :: 0 <= i < |ks| ==> ks[i] == "/" + Slashed(found[i])
        decreases Remaining(tree, places)
      {
        var (key, value) := worklist[0];
        ghost var p, rest := places[0], places[1..];
        assert Listed((key, value), p);
        BelowRoot(tree, places, found);
        worklist := worklist[1..];
        assert AllListed(worklist, rest);
        SubValue(shape, p);
        if value.Ref? {
          var entries, names := Entries(key + "/", value.d, p);
          Expand(tree, places, found, names);
          ListedConcat(entries, Children(p, names), worklist, rest);
          worklist := entries + worklist;
          places := Children(p, names) + rest;
        } else {
          Yield(tree, places, found);
          ks := ks + ["/" + key];
          found := found + [p];
          places := rest;
        }
      }
      assert places == [];
      LeafNames(tree, found, ks);
      if WellNamed(tree) {
        DistinctNames(tree, found, ks);
      }
    }

    // The entries of the dict at p, named from the root.
    method Entries(prefix: string, d: DictObj, ghost p: Path)
      returns (entries: seq<(string, Obj)>, ghost names: seq<string>)
      requires Valid()
      requires AtDict(shape, p) && Sub(shape, p).value.d == d
      requires prefix == if p == [] then "" else Slashed(p) + "/"
      ensures IsDictAt(Tree(), p)
      ensures Distinct(names) && forall k :: k in names <==> k in Lookup(Tree(), p).value.items
      ensures AllListed(entries, Children(p, names))
    {
      hide Proper, Sub, Dicts, Holds, ValueOf, Lookup, Slashed;
      EntriesAt(d, p);
      var rest := d.items.Keys;
      entries, names := [], [];
      while rest != {}
        invariant rest <= d.items.Keys
        invariant Distinct(names) && forall k :: k in names <==> k in d.items.Keys - rest
        invariant |entries| == |names|
        invariant forall i :: 0 <= i < |entries| ==> Listed(entries[i], p + [names[i]])
      {
        var k :| k in rest;
        assert k !in names;
        ListedEntry(d, p, k);
        SlashedSnoc(p, k);
        entries := entries + [(prefix + k, d.items[k])];
        names := names + [k];
        rest := rest - {k};
      }
    }

    lemma EntriesAt(d: DictObj, p: Path)
      requires Valid() && AtDict(shape, p) && Sub(shape, p).value.d == d
      ensures d in memory && d.items == memory[d]
      ensures IsDictAt(Tree(), p) && Lookup(Tree(), p).value.items.Keys == d.items.Keys
    {
      ghost var _ := SubHolds(memory, Ref(params), shape, p);
      SubValue(shape, p);
      SubDicts(shape, p);
    }

    lemma ListedEntry(d: DictObj, p: Path, k: string)
      requires Valid() && AtDict(shape, p) && Sub(shape, p).value.d == d && d in memory && d.items == memory[d]
      requires k in d.items
      ensures Listed((Slashed(p + [k]), d.items[k]), p + [k])
    {
      var o := SubHolds(memory, Ref(params), shape, p);
      NextSub(shape, p, k);
      NextHolds(memory, o, Sub(shape, p).value, k);
    }

    method Search(key: string, namespace: string) returns (r: Result<Option<string>>)
      requires Valid()
      ensures StartsWith(key, '/') ==> r == Ok(if Lookup(Tree(), Split(key)).Some? then Some(key) else None)
      ensures !StartsWith(key, '/') && Split(key) == [] ==> r == Err(StopIteration)
      ensures !StartsWith(key, '/') && Split(key) != [] ==>
                match Nearest(Tree(), Split(namespace), Split(key)[0])
                case None => r == Ok(None)
                case Some(j) =>
                  && r == Ok(Some(if j == |Split(namespace)| then namespace + "/" + key
                                  else "/" + Slashed(Split(namespace)[..j] + [key])))
                  && Split(r.value.value) == Split(namespace)[..j] + Split(key)
    {
      hide Split, Lookup, Nearest, ValueOf, Slashed, Valid;
      if StartsWith(key, '/') {
        var found := Contains(key);
        return Ok(if found then Some(key) else None);
      }
      if Split(key) == [] {
        return Err(StopIteration);
      }
      var first := Split(key)[0];
      var splitted := Split(namespace);
      SplitConcat(namespace, first);
      SplitConcat(namespace, key);
      SplitWord(first);
      assert splitted[..|splitted|] == splitted;
      var here := Contains(namespace + "/" + first);
      if here {
        return Ok(Some(namespace + "/" + key));
      }
      var i := 1;
      while i < |splitted| + 1
        invariant 1 <= i <= |splitted| + 1
        invariant forall j :: |splitted| - i < j <= |splitted| ==> Lookup(Tree(), splitted[..j] + [first]) == None
      {
        var up := splitted[..|splitted| - i];
        RootedName(up, first);
        var found := Contains("/" + Slashed(up + [first]));
        if found {
          RootedName(up, key);
          NearestIs(Tree(), splitted, first, |splitted| - i);
          return Ok(Some("/" + Slashed(up + [key])));
        }
        i := i + 1;
      }
      return Ok(None);
    }
  }

  // The absolute name of some leaf.
  ghost predicate LeafName(tree: Value, x: string) {
    exists q: Path :: LeafAt(tree, q).Some? && x == "/" + Slashed(q)
  }

  lemma LeafNames(tree: Value, found: seq<Path>, ks: seq<string>)
    requires Progress(tree, [], found)
    requires |ks| == |found| && forall i :: 0 <= i < |ks| ==> ks[i] == "/" + Slashed(found[i])
    ensures Distinct(found) && forall q: Path :: q in found <==> LeafAt(tree, q).Some?
    ensures forall x :: x in ks <==> LeafName(tree, x)
  {
    forall q: Path | LeafAt(tree, q).Some?
      ensures q in found
    {
      assert q in found || Pending([], q);
    }
    forall x | x in ks
      ensures LeafName(tree, x)
    {
      var i :| 0 <= i < |ks| && ks[i] == x;
      assert LeafAt(tree, found[i]).Some? && x == "/" + Slashed(found[i]);
    }
    forall x | LeafName(tree, x)
      ensures x in ks
    {
      var q: Path :| LeafAt(tree, q).Some? && x == "/" + Slashed(q);
      var i :| 0 <= i < |found| && found[i] == q;
      assert ks[i] == x;
    }
  }

  lemma DistinctNames(tree: Value, found: seq<Path>, ks: seq<string>)
    requires WellNamed(tree) && Distinct(found) && forall q: Path :: q in found <==> LeafAt(tree, q).Some?
    requires |ks| == |found| && forall i :: 0 <= i < |ks| ==> ks[i] == "/" + Slashed(found[i])
    ensures Distinct(ks)
  {
    forall i | 0 <= i < |ks|
      ensures Split(ks[i]) == found[i]
    {
      assert found[i] in found;
      LeafIsPresent(tree, found[i]);
      WellNamedLookup(tree, found[i]);
      SplitSlashed(found[i]);
      SplitLeadingSlash(Slashed(found[i]));
    }
  }

  lemma SlashedSnoc(p: Path, k: string)
    ensures Slashed(p + [k]) == (if p == [] then "" else Slashed(p) + "/") + k
  {
    if p == [] {
      assert p + [k] == [k];
    } else {
      SlashedConcat(p, [k]);
    }
  }

  // "/" + "/".join(segments + [name]) splits into the segments and those of the name.
  lemma {:induction false} RootedName(p: Path, name: string)
    requires Segments(p)
    ensures Split("/" + Slashed(p + [name])) == p + Split(name)
  {
    SplitLeadingSlash(Slashed(p + [name]));
    SlashedSnoc(p, name);
    if p != [] {
      SplitConcat(Slashed(p), name);
      SplitSlashed(p);
    }
  }
}
