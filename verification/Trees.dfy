// Parameter values as trees, and their leaf maps: what a tree says is the partial map
// from paths to non-dict values. Master and mirrors agree on leaf maps, not on raw trees,
// because an absent parameter is announced as an empty dict.
module Trees {
  import opened Outcomes
  import opened Names

  datatype Value =
    | Int(n: int)
    | Bool(b: bool)
    | Text(text: string)
    | List(elems: seq<Value>)
    | Dict(items: map<string, Value>)

  const EMPTY := Dict(map[])

  // The walk of ParamCache.__getitem__, by path.
  function Lookup(v: Value, p: Path): Option<Value> {
    if p == [] then Some(v)
    else if v.Dict? && p[0] in v.items then Lookup(v.items[p[0]], p[1..])
    else None
  }

  // The leaf map of a tree, one path at a time.
  function LeafAt(v: Value, q: Path): Option<Value> {
    if !v.Dict? then if q == [] then Some(v) else None
    else if q != [] && q[0] in v.items then LeafAt(v.items[q[0]], q[1..])
    else None
  }

  ghost predicate SameLeaves(v: Value, w: Value) {
    forall q: Path :: LeafAt(v, q) == LeafAt(w, q)
  }

  // Names inside a value are single segments: otherwise "a/b" could not be told from a, b.
  predicate WellNamed(v: Value) {
    v.Dict? ==> forall k | k in v.items :: Segment(k) && WellNamed(v.items[k])
  }

  function Items(v: Value): map<string, Value> {
    if v.Dict? then v.items else map[]
  }

  // Storing at a path: whatever stands in the way is replaced by a dict.
  function SetAt(v: Value, p: Path, x: Value): Value
    decreases p
  {
    if p == [] then x
    else
      var m := Items(v);
      var sub := if p[0] in m then m[p[0]] else EMPTY;
      Dict(m[p[0] := SetAt(sub, p[1..], x)])
  }

  // Deleting a path, with the exceptions of the subscript chain.
  function DeleteAt(v: Value, p: Path): Result<Value> {
    if p == [] then Err(IndexError)
    else if !v.Dict? then Err(if |p| == 1 then TypeError else KeyError)
    else if p[0] !in v.items then Err(KeyError)
    else if |p| == 1 then Ok(Dict(v.items - {p[0]}))
    else
      match DeleteAt(v.items[p[0]], p[1..])
      case Ok(w) => Ok(Dict(v.items[p[0] := w]))
      case Err(e) => Err(e)
  }

  // Every dict on the way to p is a dict or is missing: what the mirror's walk needs.
  predicate Walkable(v: Value, p: Path) {
    p == [] || (v.Dict? && (p[0] in v.items ==> Walkable(v.items[p[0]], p[1..])))
  }

  // ----- the flat write -----

  // A write of x at p leaves these leaves: those of x at and below p, none strictly above
  // p, and the old ones elsewhere.
  function LeafWrite(before: Option<Value>, p: Path, x: Value, q: Path): Option<Value> {
    if p <= q then LeafAt(x, q[|p|..])
    else if q <= p then None
    else before
  }

  lemma {:induction false} SetAtLeaves(v: Value, p: Path, x: Value, q: Path)
    ensures LeafAt(SetAt(v, p, x), q) == LeafWrite(LeafAt(v, q), p, x, q)
    decreases p
  {
    if p != [] && q != [] {
      PrefixStep(p, q);
      PrefixStep(q, p);
      if p[0] == q[0] {
        var sub := if p[0] in Items(v) then Items(v)[p[0]] else EMPTY;
        SetAtLeaves(sub, p[1..], x, q[1..]);
        if p <= q {
          assert q[|p|..] == q[1..][|p[1..]|..];
        }
      }
    } else if p == [] {
      assert q[0..] == q;
    }
  }

  lemma PrefixStep(p: Path, q: Path)
    requires p != [] && q != []
    ensures p <= q <==> p[0] == q[0] && p[1..] <= q[1..]
  {
    assert p == [p[0]] + p[1..];
    assert q == [q[0]] + q[1..];
  }

  // Deleting a present path has the effect on leaves of storing an empty dict there.
  lemma {:induction false} DeleteAtLeaves(v: Value, p: Path, q: Path)
    requires DeleteAt(v, p).Ok?
    ensures LeafAt(DeleteAt(v, p).value, q) == LeafAt(SetAt(v, p, EMPTY), q)
  {
    if |p| > 1 && q != [] && q[0] == p[0] {
      DeleteAtLeaves(v.items[p[0]], p[1..], q[1..]);
    } else if |p| == 1 && q != [] && q[0] == p[0] {
      assert SetAt(v, p, EMPTY).items[q[0]] == EMPTY;
    }
  }

  // A path can be deleted exactly when it is present (and is not the root).
  lemma {:induction false} DeletesIffPresent(v: Value, p: Path)
    ensures DeleteAt(v, p).Ok? <==> p != [] && Lookup(v, p).Some?
  {
    if |p| > 1 && v.Dict? && p[0] in v.items {
      DeletesIffPresent(v.items[p[0]], p[1..]);
    } else if |p| == 1 && v.Dict? && p[0] in v.items {
      assert Lookup(v.items[p[0]], p[1..]).Some?;
    }
  }

  // ----- path by path -----

  // What is found after a store: the value and what is in it at and below the path, dicts
  // on the way, and everything else as before, empty dicts included.
  lemma {:induction false} SetAtPaths(v: Value, p: Path, x: Value, q: Path)
    ensures var now := Lookup(SetAt(v, p, x), q);
      if p <= q then now == Lookup(x, q[|p|..])
      else if q <= p then now.Some? && now.value.Dict?
      else now == Lookup(v, q)
    decreases p
  {
    if p == [] {
      assert q[0..] == q;
    } else if q != [] {
      PrefixStep(p, q);
      PrefixStep(q, p);
      if p[0] == q[0] {
        var sub := if p[0] in Items(v) then Items(v)[p[0]] else EMPTY;
        SetAtPaths(sub, p[1..], x, q[1..]);
        if p <= q {
          assert q[|p|..] == q[1..][|p[1..]|..];
        }
        NothingInEmpty(q[1..]);
      }
    }
  }

  lemma NothingInEmpty(q: Path)
    ensures Lookup(EMPTY, q) == if q == [] then Some(EMPTY) else None
  {
  }

  // What is found after a deletion: nothing at and below the path, and the rest as before.
  lemma {:induction false} DeletedPaths(v: Value, p: Path, q: Path)
    requires DeleteAt(v, p).Ok?
    ensures var now := Lookup(DeleteAt(v, p).value, q);
      if p <= q then now == None
      else if q <= p then now.Some? && now.value.Dict?
      else now == Lookup(v, q)
    decreases p
  {
    if q != [] {
      PrefixStep(p, q);
      PrefixStep(q, p);
      if p[0] == q[0] && |p| > 1 {
        DeletedPaths(v.items[p[0]], p[1..], q[1..]);
      }
    }
  }

  // ----- what a leaf map looks like -----

  // The paths of leaves are prefix-free.
  lemma {:induction false} LeavesPrefixFree(v: Value, q: Path, r: Path)
    requires LeafAt(v, q).Some? && q <= r && q != r
    ensures LeafAt(v, r) == None
  {
    if q != [] {
      PrefixStep(q, r);
      LeavesPrefixFree(v.items[q[0]], q[1..], r[1..]);
    }
  }

  lemma {:induction false} LookupLeaves(v: Value, p: Path, q: Path)
    ensures LeafAt(v, p + q) == match Lookup(v, p) case Some(w) => LeafAt(w, q) case None => None
  {
    if p == [] {
      assert p + q == q;
    } else {
      assert (p + q)[1..] == p[1..] + q;
      if v.Dict? && p[0] in v.items {
        LookupLeaves(v.items[p[0]], p[1..], q);
      }
    }
  }

  lemma {:induction false} LookupDict(v: Value, p: Path, q: Path)
    requires q <= p && q != p && Lookup(v, p).Some?
    ensures LeafAt(v, q) == None
  {
    if q != [] {
      PrefixStep(q, p);
      LookupDict(v.items[q[0]], p[1..], q[1..]);
    }
  }

  lemma {:induction false} LookupConcat(v: Value, p: Path, q: Path)
    ensures Lookup(v, p + q) == match Lookup(v, p) case Some(w) => Lookup(w, q) case None => None
  {
    if p == [] {
      assert p + q == q;
    } else {
      assert (p + q)[1..] == p[1..] + q;
      if v.Dict? && p[0] in v.items {
        LookupConcat(v.items[p[0]], p[1..], q);
      }
    }
  }

  lemma {:induction false} LookupSetAt(v: Value, p: Path, x: Value)
    ensures Lookup(SetAt(v, p, x), p) == Some(x)
    decreases p
  {
    if p != [] {
      var sub := if p[0] in Items(v) then Items(v)[p[0]] else EMPTY;
      LookupSetAt(sub, p[1..], x);
    }
  }

  // The mirror can walk to p exactly when no leaf stands strictly above p.
  lemma {:induction false} WalkableIffNoLeafAbove(v: Value, p: Path)
    ensures Walkable(v, p) <==> forall i :: 0 <= i < |p| ==> LeafAt(v, p[..i]) == None
  {
    if p != [] {
      assert p[..0] == [];
      if v.Dict? {
        forall i | 1 <= i < |p|
          ensures LeafAt(v, p[..i]) ==
                  if p[0] in v.items then LeafAt(v.items[p[0]], p[1..][..i - 1]) else None
        {
          assert p[..i][1..] == p[1..][..i - 1];
        }
        if p[0] in v.items {
          WalkableIffNoLeafAbove(v.items[p[0]], p[1..]);
          if !Walkable(v, p) {
            var j :| 0 <= j < |p[1..]| && LeafAt(v.items[p[0]], p[1..][..j]) != None;
            assert LeafAt(v, p[..j + 1]) != None;
          }
        }
      } else {
        assert LeafAt(v, p[..0]).Some?;
      }
    }
  }

  lemma {:induction false} WellNamedSetAt(v: Value, p: Path, x: Value)
    requires WellNamed(v) && WellNamed(x) && Segments(p)
    ensures WellNamed(SetAt(v, p, x))
    decreases p
  {
    if p != [] {
      var sub := if p[0] in Items(v) then Items(v)[p[0]] else EMPTY;
      WellNamedSetAt(sub, p[1..], x);
    }
  }

  lemma {:induction false} WellNamedDeleteAt(v: Value, p: Path)
    requires WellNamed(v) && DeleteAt(v, p).Ok?
    ensures WellNamed(DeleteAt(v, p).value)
  {
    if |p| > 1 {
      WellNamedDeleteAt(v.items[p[0]], p[1..]);
    }
  }

  lemma {:induction false} WellNamedLookup(v: Value, p: Path)
    requires WellNamed(v) && Lookup(v, p).Some?
    ensures WellNamed(Lookup(v, p).value) && Segments(p)
  {
    if p != [] {
      WellNamedLookup(v.items[p[0]], p[1..]);
    }
  }

  // ----- compute_all_keys -----

  // The keys generated for a dict stored at key, collected into a set as its caller does.
  function AllKeys(key: string, v: Value): set<string>
    requires v.Dict?
    decreases v
  {
    (set k | k in v.items :: key + k + "/") +
    (set k, x | k in v.items && v.items[k].Dict? && x in AllKeys(key + k + "/", v.items[k]) :: x)
  }

  lemma KeySnoc(p: Path, k: string)
    ensures Key(p) + k + "/" == Key(p + [k])
  {
    TailConcat(p, [k]);
    assert Tail([k]) == k + "/" by {
      assert [k][1..] == [];
    }
  }

  // Every generated key is the key of a non-empty path of the value.
  lemma {:induction false} AllKeysSound(p: Path, v: Value, x: string) returns (r: Path)
    requires v.Dict? && x in AllKeys(Key(p), v)
    ensures r != [] && Lookup(v, r).Some? && x == Key(p + r)
    decreases v
  {
    if k :| k in v.items && x == Key(p) + k + "/" {
      KeySnoc(p, k);
      r := [k];
    } else {
      var k :| k in v.items && v.items[k].Dict? && x in AllKeys(Key(p) + k + "/", v.items[k]);
      KeySnoc(p, k);
      var s := AllKeysSound(p + [k], v.items[k], x);
      r := [k] + s;
      assert p + r == p + [k] + s;
    }
  }

  // Every non-empty path of the value has its key generated.
  lemma {:induction false} AllKeysComplete(p: Path, v: Value, r: Path)
    requires v.Dict? && r != [] && Lookup(v, r).Some?
    ensures Key(p + r) in AllKeys(Key(p), v)
    decreases r
  {
    var k := r[0];
    KeySnoc(p, k);
    assert r == [k] + r[1..];
    if |r| > 1 {
      AllKeysComplete(p + [k], v.items[k], r[1..]);
      assert p + r == p + [k] + r[1..];
      assert Key(p + r) in AllKeys(Key(p) + k + "/", v.items[k]);
    } else {
      assert r == [k];
    }
  }

  // Together: a canonical key is generated exactly when its path leads below p to
  // something the value holds.
  lemma AllKeysExact(p: Path, v: Value, s: Path)
    requires v.Dict? && WellNamed(v) && Segments(p) && Segments(s)
    ensures Key(s) in AllKeys(Key(p), v) <==> p <= s && p != s && Lookup(v, s[|p|..]).Some?
  {
    if Key(s) in AllKeys(Key(p), v) {
      var r := AllKeysSound(p, v, Key(s));
      WellNamedLookup(v, r);
      KeyInjective(s, p + r);
    }
    if p <= s && p != s && Lookup(v, s[|p|..]).Some? {
      AllKeysComplete(p, v, s[|p|..]);
      assert p + s[|p|..] == s;
    }
  }
}
