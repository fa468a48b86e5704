// The node's parameter cache (aioros/_node/_param_cache.py): several subtrees, possibly
// overlapping, filed under joined names and patched by the master's updates.
module NodeCache {
  import opened Outcomes
  import opened Names
  import opened Trees

  type Entries = map<string, Value>

  function Entry(c: Entries, s: Path): Option<Value> {
    if Slashed(s) in c then Some(c[Slashed(s)]) else None
  }

  // The first, hence shortest, cached prefix of p that is at least i segments long.
  function Covering(c: Entries, p: Path, i: nat): (j: Option<nat>)
    requires i <= |p| + 1
    ensures j.Some? ==> i <= j.value <= |p| && Entry(c, p[..j.value]).Some?
    ensures forall k :: i <= k < (if j.Some? then j.value else |p| + 1) ==> Entry(c, p[..k]) == None
    decreases |p| + 1 - i
  {
    if i > |p| then None
    else if Entry(c, p[..i]).Some? then Some(i)
    else Covering(c, p, i + 1)
  }

  // What reading p from the cache gives.
  function Read(c: Entries, p: Path): Result<Value> {
    match Covering(c, p, 0)
    case None => Err(KeyError)
    case Some(j) =>
      match Lookup(Entry(c, p[..j]).value, p[j..])
      case None => Err(KeyError)
      case Some(v) => Ok(v)
  }

  // The effect of an update on the cached prefixes of p from the i-th on: prefixes are
  // patched in turn until one of them cannot be walked.
  function Patched(c: Entries, p: Path, x: Value, i: nat): (r: (Entries, bool))
    requires i <= |p| + 1
    decreases |p| + 1 - i
  {
    if i > |p| then (c, true)
    else if Entry(c, p[..i]) == None then Patched(c, p, x, i + 1)
    else
      var v := Entry(c, p[..i]).value;
      if Walkable(v, p[i..]) then Patched(c[Slashed(p[..i]) := SetAt(v, p[i..], x)], p, x, i + 1)
      else (c, false)
  }

  // _delete_cache on one entry: nothing happens to the entry's own root, nor below a
  // missing dict; a missing last name raises.
  function Removed(v: Value, p: Path): Result<Value> {
    if p == [] then Ok(v)
    else if !v.Dict? then Err(KeyError)
    else if |p| == 1 then if p[0] in v.items then Ok(Dict(v.items - {p[0]})) else Err(KeyError)
    else if p[0] !in v.items then Ok(v)
    else
      match Removed(v.items[p[0]], p[1..])
      case Ok(w) => Ok(Dict(v.items[p[0] := w]))
      case Err(e) => Err(e)
  }

  function Pruned(c: Entries, p: Path, i: nat): (r: (Entries, bool))
    requires i <= |p| + 1
    decreases |p| + 1 - i
  {
    if i > |p| then (c, true)
    else if Entry(c, p[..i]) == None then Pruned(c, p, i + 1)
    else
      match Removed(Entry(c, p[..i]).value, p[i..])
      case Ok(w) => Pruned(c[Slashed(p[..i]) := w], p, i + 1)
      case Err(_) => (c, false)
  }

  // A prefix of the key whose entry cannot be walked; an update ends at the first of them.
  predicate Blocked(c: Entries, p: Path, k: nat)
    requires k <= |p|
  {
    Entry(c, p[..k]).Some? && !Walkable(Entry(c, p[..k]).value, p[k..])
  }

  // ----- updates -----

  // An update succeeds exactly when every cached prefix of its key can be walked, and then
  // makes on each of them, and on nothing else, the write the master makes on its tree.
  lemma PatchedEntries(c: Entries, p: Path, x: Value, i: nat, s: Path)
    requires i <= |p| + 1 && Segments(p) && Segments(s)
    ensures Patched(c, p, x, i).1 <==>
            forall k :: i <= k <= |p| && Entry(c, p[..k]).Some? ==> Walkable(Entry(c, p[..k]).value, p[k..])
    ensures Patched(c, p, x, i).1 ==> Patched(c, p, x, i).0.Keys == c.Keys
    ensures Patched(c, p, x, i).1 ==>
              Entry(Patched(c, p, x, i).0, s) ==
              if Entry(c, s).Some? && s <= p && i <= |s| then Some(SetAt(Entry(c, s).value, p[|s|..], x))
              else Entry(c, s)
  {
    hide Walkable, SetAt, Patched, Entry;
    PatchedUpTo(c, p, x, i, s);
    PatchedKeys(c, p, x, i);
    if s <= p {
      assert s == p[..|s|];
    }
    forall k | i <= k <= |p|
      ensures Entry(c, p[..k]).Some? ==> (Blocked(c, p, k) <==> !Walkable(Entry(c, p[..k]).value, p[k..]))
    {
    }
  }

  // Whether it succeeds or not, an update has made its write on the cached prefixes shorter
  // than the first blocked one, and on nothing else.
  lemma {:induction false} PatchedUpTo(c: Entries, p: Path, x: Value, i: nat, s: Path)
    requires i <= |p| + 1 && Segments(p) && Segments(s)
    ensures Patched(c, p, x, i).1 <==> forall k :: i <= k <= |p| ==> !Blocked(c, p, k)
    ensures Entry(Patched(c, p, x, i).0, s) ==
            if Entry(c, s).Some? && s <= p && i <= |s| && (forall k :: i <= k <= |s| ==> !Blocked(c, p, k))
            then Some(SetAt(Entry(c, s).value, p[|s|..], x))
            else Entry(c, s)
    decreases |p| + 1 - i
  {
    hide Walkable, SetAt, Slashed;
    if i <= |p| {
      if s <= p && |s| == i {
        assert s == p[..i];
      }
      if Entry(c, p[..i]) == None {
        PatchedUpTo(c, p, x, i + 1, s);
      } else if Blocked(c, p, i) {
      } else {
        var d := c[Slashed(p[..i]) := SetAt(Entry(c, p[..i]).value, p[i..], x)];
        OneEntry(c, p, i, d[Slashed(p[..i])], s);
        forall k | i < k <= |p|
          ensures Blocked(d, p, k) <==> Blocked(c, p, k)
        {
          OneEntry(c, p, i, d[Slashed(p[..i])], p[..k]);
        }
        PatchedUpTo(d, p, x, i + 1, s);
      }
    }
  }

  lemma OneEntry(c: Entries, p: Path, i: nat, v: Value, s: Path)
    requires i <= |p| && Segments(p) && Segments(s)
    ensures Entry(c[Slashed(p[..i]) := v], s) == if s == p[..i] then Some(v) else Entry(c, s)
  {
    SplitSlashed(s);
    SplitSlashed(p[..i]);
  }

  // A failed update leaves the entries it has not reached as they were.
  lemma {:induction false} PatchedKeys(c: Entries, p: Path, x: Value, i: nat)
    requires i <= |p| + 1
    ensures Patched(c, p, x, i).0.Keys == c.Keys
    decreases |p| + 1 - i
  {
    if i <= |p| {
      if Entry(c, p[..i]) == None {
        PatchedKeys(c, p, x, i + 1);
      } else if Walkable(Entry(c, p[..i]).value, p[i..]) {
        PatchedKeys(c[Slashed(p[..i]) := SetAt(Entry(c, p[..i]).value, p[i..], x)], p, x, i + 1);
      }
    }
  }

  // A deletion in one entry has the effect on its leaves of storing an empty dict, except
  // at the entry's root, which is kept.
  lemma {:induction false} RemovedLeaves(v: Value, p: Path, q: Path)
    requires p != [] && Removed(v, p).Ok?
    ensures LeafAt(Removed(v, p).value, q) == LeafAt(SetAt(v, p, EMPTY), q)
  {
    if |p| > 1 && p[0] !in v.items {
      SetAtLeaves(v, p, EMPTY, q);
      if p <= q || q <= p {
        if q != [] {
          assert q[0] == p[0];
        }
      }
    } else if |p| > 1 && q != [] && q[0] == p[0] {
      RemovedLeaves(v.items[p[0]], p[1..], q[1..]);
    } else if |p| == 1 && q != [] && q[0] == p[0] {
      assert SetAt(v, p, EMPTY).items[q[0]] == EMPTY;
    }
  }

  // When a deletion in one entry succeeds: no non-dict on the way to the parent, and the
  // last name in the parent, if there is one.
  predicate Deletable(v: Value, p: Path) {
    p != [] ==>
      && (forall i :: 0 <= i < |p| && Lookup(v, p[..i]).Some? ==> Lookup(v, p[..i]).value.Dict?)
      && (Lookup(v, p[..|p| - 1]).Some? ==> Lookup(v, p).Some?)
  }

  lemma DeletableStep(v: Value, p: Path)
    requires |p| > 1 && v.Dict? && p[0] in v.items
    ensures Deletable(v, p) <==> Deletable(v.items[p[0]], p[1..])
  {
    var w, r := v.items[p[0]], p[1..];
    forall i | 0 <= i < |r|
      ensures Lookup(v, p[..i + 1]) == Lookup(w, r[..i])
    {
      assert p[..i + 1][1..] == r[..i];
    }
    assert p[..|p| - 1] == p[..|r| - 1 + 1];
    if Deletable(w, r) {
      forall i | 0 <= i < |p| && Lookup(v, p[..i]).Some?
        ensures Lookup(v, p[..i]).value.Dict?
      {
        if i > 0 {
          assert Lookup(v, p[..i - 1 + 1]) == Lookup(w, r[..i - 1]);
        } else {
          assert p[..0] == [];
        }
      }
    }
  }

  lemma {:induction false} RemovedExactly(v: Value, p: Path)
    ensures Removed(v, p).Ok? <==> Deletable(v, p)
    ensures Removed(v, p).Err? ==> Removed(v, p) == Err(KeyError)
    decreases p
  {
    hide Deletable;
    if |p| > 1 && v.Dict? && p[0] in v.items {
      DeletableStep(v, p);
      RemovedExactly(v.items[p[0]], p[1..]);
    } else {
      DeletableEnd(v, p);
    }
  }

  lemma DeletableEnd(v: Value, p: Path)
    requires |p| <= 1 || !v.Dict? || p[0] !in v.items
    ensures Deletable(v, p) <==> p == [] || (v.Dict? && (|p| == 1 ==> p[0] in v.items))
  {
    if p != [] {
      assert p[..0] == [] && Lookup(v, p[..0]) == Some(v);
      if |p| == 1 {
        assert p[1..] == [] && p[..|p| - 1] == [];
        assert v.Dict? ==> (Lookup(v, p).Some? <==> p[0] in v.items);
      } else {
        assert forall i :: 0 < i < |p| ==> Lookup(v, p[..i]) == None;
      }
    }
  }

  // And what it does: the path and all below it are gone, and the rest is as before.
  lemma {:induction false} RemovedPaths(v: Value, p: Path, q: Path)
    requires p != [] && Removed(v, p).Ok?
    ensures var now := Lookup(Removed(v, p).value, q);
      if p <= q then now == None
      else if q <= p then now.Some? == Lookup(v, q).Some? && (now.Some? ==> now.value.Dict?)
      else now == Lookup(v, q)
    decreases p
  {
    if q != [] {
      PrefixStep(p, q);
      PrefixStep(q, p);
      if p[0] == q[0] && |p| > 1 && p[0] in v.items {
        RemovedPaths(v.items[p[0]], p[1..], q[1..]);
      }
    }
  }

  // A prefix of the key from whose entry the rest cannot be deleted; a deletion ends there.
  predicate Stuck(c: Entries, p: Path, k: nat)
    requires k <= |p|
  {
    Entry(c, p[..k]).Some? && !Deletable(Entry(c, p[..k]).value, p[k..])
  }

  // A deletion succeeds exactly if no cached prefix is stuck. In any case it has deleted the
  // rest of the key from the cached prefixes shorter than the first stuck one, and has
  // changed nothing else.
  lemma {:induction false} PrunedUpTo(c: Entries, p: Path, i: nat, s: Path)
    requires i <= |p| + 1 && Segments(p) && Segments(s)
    ensures Pruned(c, p, i).1 <==> forall k :: i <= k <= |p| ==> !Stuck(c, p, k)
    ensures Entry(Pruned(c, p, i).0, s) ==
            if Entry(c, s).Some? && s <= p && i <= |s| && (forall k :: i <= k <= |s| ==> !Stuck(c, p, k))
               && Removed(Entry(c, s).value, p[|s|..]).Ok?
            then Some(Removed(Entry(c, s).value, p[|s|..]).value)
            else Entry(c, s)
    decreases |p| + 1 - i
  {
    hide Removed, Deletable;
    if i <= |p| {
      if s <= p && |s| == i {
        assert s == p[..i];
      }
      if Entry(c, p[..i]) == None {
        PrunedUpTo(c, p, i + 1, s);
      } else {
        RemovedExactly(Entry(c, p[..i]).value, p[i..]);
        if !Stuck(c, p, i) {
          var w := Removed(Entry(c, p[..i]).value, p[i..]).value;
          var d := c[Slashed(p[..i]) := w];
          OneEntry(c, p, i, w, s);
          forall k | i < k <= |p|
            ensures Stuck(d, p, k) <==> Stuck(c, p, k)
          {
            OneEntry(c, p, i, w, p[..k]);
          }
          PrunedUpTo(d, p, i + 1, s);
        }
      }
    }
  }

  // Path by path: from a strict prefix the key and all below it are gone, and the rest of
  // that entry is as before; all other entries are untouched.
  lemma PrunedEntries(c: Entries, p: Path, s: Path, q: Path)
    requires Segments(p) && Segments(s) && Pruned(c, p, 0).1
    ensures var d := Pruned(c, p, 0).0;
      if Entry(c, s) == None || !(s <= p) || s == p then Entry(d, s) == Entry(c, s)
      else
        && Entry(d, s).Some?
        && var now, was, r := Lookup(Entry(d, s).value, q), Lookup(Entry(c, s).value, q), p[|s|..];
           if r <= q then now == None
           else if q <= r then now.Some? == was.Some? && (now.Some? ==> now.value.Dict?)
           else now == was
  {
    hide Deletable;
    PrunedUpTo(c, p, 0, s);
    if Entry(c, s).Some? && s <= p {
      assert s == p[..|s|] && !Stuck(c, p, |s|);
      RemovedExactly(Entry(c, s).value, p[|s|..]);
      if s != p {
        RemovedPaths(Entry(c, s).value, p[|s|..], q);
      } else {
        assert p[|s|..] == [];
      }
    }
  }

  // ----- entries that share a dict -----

  // An update that stores one dict in two entries leaves it shared by them, and what comes
  // later meets it twice. For an update the second time makes no difference ...
  lemma {:induction false} WriteTwice(v: Value, p: Path, x: Value)
    requires Walkable(v, p)
    ensures Walkable(SetAt(v, p, x), p) && SetAt(SetAt(v, p, x), p, x) == SetAt(v, p, x)
    decreases p
  {
    if p != [] {
      var sub := if p[0] in v.items then v.items[p[0]] else EMPTY;
      NewWalk(p[1..]);
      WriteTwice(sub, p[1..], x);
      var w := SetAt(sub, p[1..], x);
      assert v.items[p[0] := w][p[0] := w] == v.items[p[0] := w];
    }
  }

  lemma NewWalk(p: Path)
    ensures Walkable(EMPTY, p)
  {
  }

  // ... and a deletion raises if and only if there was something to delete.
  lemma {:induction false} RemoveTwice(v: Value, p: Path)
    requires p != [] && Removed(v, p).Ok?
    ensures var w := Removed(v, p).value;
      Removed(w, p) == if Lookup(v, p).Some? then Err(KeyError) else Ok(w)
    decreases p
  {
    if |p| > 1 && p[0] in v.items {
      RemoveTwice(v.items[p[0]], p[1..]);
      var w := Removed(v.items[p[0]], p[1..]).value;
      assert v.items[p[0] := w][p[0] := w] == v.items[p[0] := w];
    } else if |p| == 1 {
      assert p[1..] == [];
    }
  }

  // ----- reads -----

  // The entry cached at s says about every path below s what the tree says.
  ghost predicate MirrorsAt(c: Entries, tree: Value, s: Path) {
    Entry(c, s).Some? ==> forall q: Path :: LeafAt(Entry(c, s).value, q) == LeafAt(tree, s + q)
  }

  // Whichever cached ancestor is used, looking up the rest of the path finds the leaves the
  // master has at that path, and finds nothing only where the master has no leaves.
  lemma EveryAncestorAgrees(c: Entries, tree: Value, p: Path, j: nat, q: Path)
    requires j <= |p| && Entry(c, p[..j]).Some? && MirrorsAt(c, tree, p[..j])
    ensures LeafAt(tree, p + q) ==
            match Lookup(Entry(c, p[..j]).value, p[j..]) case Some(v) => LeafAt(v, q) case None => None
  {
    LookupLeaves(Entry(c, p[..j]).value, p[j..], q);
    assert p[..j] + (p[j..] + q) == p + q;
  }

  // So a read of a covered key gives the master's leaf map there, or raises when it is empty.
  lemma ReadMirrors(c: Entries, tree: Value, p: Path, q: Path)
    requires Covering(c, p, 0).Some?
    requires forall s: Path :: s <= p ==> MirrorsAt(c, tree, s)
    ensures LeafAt(tree, p + q) == if Read(c, p).Ok? then LeafAt(Read(c, p).value, q) else None
  {
    EveryAncestorAgrees(c, tree, p, Covering(c, p, 0).value, q);
  }

  ghost predicate Shortest(c: Entries, p: Path, j: int) {
    0 <= j <= |p| && Entry(c, p[..j]).Some? && forall k :: 0 <= k < j ==> Entry(c, p[..k]) == None
  }

  // What a read gives: it looks into the shortest cached prefix only.
  lemma ReadExactly(c: Entries, p: Path)
    ensures forall j :: Shortest(c, p, j) ==>
      match Lookup(Entry(c, p[..j]).value, p[j..])
      case Some(v) => Read(c, p) == Ok(v)
      case None => Read(c, p) == Err(KeyError)
    ensures (forall j :: !Shortest(c, p, j)) ==> Read(c, p) == Err(KeyError)
  {
    if Covering(c, p, 0).Some? {
      assert Shortest(c, p, Covering(c, p, 0).value);
    }
  }

  // The shortest cached prefix of a longer path, if a prefix of the path is cached.
  lemma CoveringBelow(c: Entries, d: Entries, p: Path, q: Path)
    requires Covering(c, p, 0).Some?
    requires forall k :: 0 <= k <= |p| ==> (Entry(d, p[..k]).Some? <==> Entry(c, p[..k]).Some?)
    ensures Covering(d, p + q, 0) == Covering(c, p, 0)
  {
    var j, i := Covering(c, p, 0).value, Covering(d, p + q, 0);
    assert forall k :: 0 <= k <= |p| ==> (p + q)[..k] == p[..k];
    assert Entry(d, (p + q)[..j]).Some?;
    assert i.Some? && i.value <= j;
    assert Entry(d, p[..i.value]).Some?;
  }

  // What has been updated is read back, and nothing else is found there.
  lemma UpdatedRead(c: Entries, p: Path, x: Value, q: Path)
    requires Segments(p) && Covering(c, p, 0).Some? && Patched(c, p, x, 0).1
    ensures Read(Patched(c, p, x, 0).0, p + q) == match Lookup(x, q) case Some(v) => Ok(v) case None => Err(KeyError)
  {
    hide Covering, Walkable, Patched, Read, SetAt;
    var j, d := Covering(c, p, 0).value, Patched(c, p, x, 0).0;
    forall k | 0 <= k <= |p|
      ensures Entry(d, p[..k]) ==
              if Entry(c, p[..k]).Some? then Some(SetAt(Entry(c, p[..k]).value, p[k..], x)) else None
    {
      PatchedEntries(c, p, x, 0, p[..k]);
    }
    CoveringBelow(c, d, p, q);
    ReadCovering(d, p + q);
    assert (p + q)[..j] == p[..j] && (p + q)[j..] == p[j..] + q;
    SetAtPaths(Entry(c, p[..j]).value, p[j..], x, p[j..] + q);
    assert (p[j..] + q)[|p[j..]|..] == q;
  }

  lemma ReadCovering(c: Entries, p: Path)
    ensures Read(c, p) ==
            match Covering(c, p, 0)
            case None => Err(KeyError)
            case Some(j) =>
              match Lookup(Entry(c, p[..j]).value, p[j..]) case Some(v) => Ok(v) case None => Err(KeyError)
  {
  }

  // What has been deleted is not found any more, nor is anything below it, unless it is
  // filed as an entry of its own that no shorter one covers.
  lemma DeletedRead(c: Entries, p: Path, q: Path)
    requires Segments(p) && Covering(c, p, 0).Some? && Covering(c, p, 0).value < |p| && Pruned(c, p, 0).1
    ensures Read(Pruned(c, p, 0).0, p + q) == Err(KeyError)
  {
    hide Covering, Removed, Deletable;
    var j, d := Covering(c, p, 0).value, Pruned(c, p, 0).0;
    forall k | 0 <= k <= |p|
      ensures Entry(d, p[..k]).Some? <==> Entry(c, p[..k]).Some?
    {
      PrunedEntries(c, p, p[..k], []);
    }
    CoveringBelow(c, d, p, q);
    ReadCovering(d, p + q);
    CoveringEntry(c, p);
    assert (p + q)[..j] == p[..j] && (p + q)[j..] == p[j..] + q;
    PrunedEntries(c, p, p[..j], p[j..] + q);
  }

  lemma CoveringEntry(c: Entries, p: Path)
    requires Covering(c, p, 0).Some?
    ensures Covering(c, p, 0).value <= |p| && Entry(c, p[..Covering(c, p, 0).value]).Some?
  {
  }

  class ParamCache {
    var params: Entries

    constructor ()
      ensures params == map[]
    {
      params := map[];
    }

    method Contains(key: string) returns (b: bool)
      ensures b <==> exists i :: 0 <= i <= |Split(key)| && Entry(params, Split(key)[..i]).Some?
    {
      var joined := Join(Split(key));
      JoinSegments(Split(key));
      NamespacesArePrefixes(Split(key));
      var namespaces := Namespaces(joined);
      var i := 0;
      while i < |namespaces|
        invariant 0 <= i <= |namespaces|
        invariant forall k :: 0 <= k < i ==> Entry(params, Split(key)[..k]) == None
      {
        if namespaces[i] in params {
          assert Entry(params, Split(key)[..i]).Some?;
          return true;
        }
        i := i + 1;
      }
      return false;
    }

    method GetItem(key: string) returns (r: Result<Value>)
      ensures r == Read(params, Split(key))
      ensures forall j :: Shortest(params, Split(key), j) ==>
        match Lookup(Entry(params, Split(key)[..j]).value, Split(key)[j..])
        case Some(v) => r == Ok(v)
        case None => r == Err(KeyError)
      ensures (forall j :: !Shortest(params, Split(key), j)) ==> r == Err(KeyError)
    {
      hide Split, Lookup, Read, Shortest;
      ReadExactly(params, Split(key));
      ReadCovering(params, Split(key));
      ghost var p := Split(key);
      var joined := Join(Split(key));
      JoinSegments(p);
      NamespacesArePrefixes(p);
      var namespaces := Namespaces(joined);
      var i := 0;
      while i < |namespaces| && namespaces[i] !in params
        invariant 0 <= i <= |p| + 1
        invariant Covering(params, p, 0) == Covering(params, p, i)
      {
        i := i + 1;
      }
      if i == |namespaces| {
        return Err(KeyError);
      }
      NamespaceRemainder(p, i);
      r := Walk(params[namespaces[i]], joined[|namespaces[i]|..]);
    }

    // The second loop of __getitem__, over the rest of the key.
    static method Walk(entry: Value, key: string) returns (r: Result<Value>)
      ensures r == match Lookup(entry, Split(key)) case Some(v) => Ok(v) case None => Err(KeyError)
    {
      var rest := Split(key);
      var value := entry;
      var k := 0;
      assert rest[0..] == rest;
      while k < |rest|
        invariant 0 <= k <= |rest|
        invariant Lookup(entry, rest) == Lookup(value, rest[k..])
      {
        assert rest[k..][0] == rest[k] && rest[k..][1..] == rest[k + 1..];
        if !value.Dict? {
          return Err(KeyError);
        }
        if rest[k] !in value.items {
          return Err(KeyError);
        }
        value := value.items[rest[k]];
        k := k + 1;
      }
      return Ok(value);
    }

    method Add(key: string, value: Value)
      modifies this
      ensures params == old(params)[Slashed(Split(key)) := value]
    {
      JoinSegments(Split(key));
      params := params[Join(Split(key)) := value];
    }

    method Update(key: string, value: Value) returns (r: Result<()>)
      modifies this
      ensures params == Patched(old(params), Split(key), value, 0).0
      ensures r == if Patched(old(params), Split(key), value, 0).1 then Ok(()) else Err(KeyError)
    {
      ghost var p := Split(key);
      var joined := Join(Split(key));
      JoinSegments(p);
      NamespacesArePrefixes(p);
      var namespaces := Namespaces(joined);
      var i := 0;
      while i < |namespaces|
        invariant 0 <= i <= |namespaces| == |p| + 1
        invariant Patched(old(params), p, value, 0) == Patched(params, p, value, i)
      {
        var namespace := namespaces[i];
        if namespace in params {
          NamespaceRemainder(p, i);
          var done := UpdateCache(namespace, joined[|namespace|..], value);
          if done.Err? {
            return done;
          }
        }
        i := i + 1;
      }
      return Ok(());
    }

    method UpdateCache(namespace: string, key: string, value: Value) returns (r: Result<()>)
      requires namespace in params
      modifies this
      ensures
        if Walkable(old(params)[namespace], Split(key))
        then r == Ok(()) && params == old(params)[namespace := SetAt(old(params)[namespace], Split(key), value)]
        else r == Err(KeyError) && params == old(params)
    {
      var splitted := Split(key);
      if splitted != [] {
        var cache := params[namespace];
        var i := 0;
        assert splitted[0..] == splitted;
        while i < |splitted|
          invariant 0 <= i <= |splitted|
          invariant i < |splitted| ==> params == old(params)
          invariant i < |splitted| ==> (Walkable(params[namespace], splitted) <==> Walkable(cache, splitted[i..]))
          invariant i == |splitted| ==>
              Walkable(old(params)[namespace], splitted) &&
              params == old(params)[namespace := SetAt(old(params)[namespace], splitted, value)]
        {
          var part := splitted[i];
          assert splitted[i..][0] == part && splitted[i..][1..] == splitted[i + 1..];
          if !cache.Dict? {
            return Err(KeyError);
          }
          if i + 1 == |splitted| {
            params := params[namespace := SetAt(params[namespace], splitted, value)];
          } else if part !in cache.items {
            cache := EMPTY;
          } else {
            cache := cache.items[part];
          }
          i := i + 1;
        }
      } else {
        params := params[namespace := value];
      }
      return Ok(());
    }

    method Delete(key: string) returns (r: Result<()>)
      modifies this
      ensures params == Pruned(old(params), Split(key), 0).0
      ensures r == if Pruned(old(params), Split(key), 0).1 then Ok(()) else Err(KeyError)
    {
      ghost var p := Split(key);
      var joined := Join(Split(key));
      JoinSegments(p);
      NamespacesArePrefixes(p);
      var namespaces := Namespaces(joined);
      var i := 0;
      while i < |namespaces|
        invariant 0 <= i <= |namespaces| == |p| + 1
        invariant Pruned(old(params), p, 0) == Pruned(params, p, i)
      {
        var namespace := namespaces[i];
        if namespace in params {
          NamespaceRemainder(p, i);
          var done := DeleteCache(namespace, joined[|namespace|..]);
          if done.Err? {
            return done;
          }
        }
        i := i + 1;
      }
      return Ok(());
    }

    method DeleteCache(namespace: string, key: string) returns (r: Result<()>)
      requires namespace in params
      modifies this
      ensures match Removed(old(params)[namespace], Split(key))
              case Ok(w) => r == Ok(()) && params == old(params)[namespace := w]
              case Err(_) => r == Err(KeyError) && params == old(params)
    {
      var splitted := Split(key);
      if splitted == [] {
        return Ok(());
      }
      ghost var whole := params[namespace];
      var cache := params[namespace];
      var i := 0;
      assert splitted[0..] == splitted;
      while i < |splitted|
        invariant 0 <= i <= |splitted|
        invariant i < |splitted| ==> params == old(params) && Within(whole, splitted, i, cache)
        invariant i == |splitted| ==>
          Removed(whole, splitted).Ok? && params == old(params)[namespace := Removed(whole, splitted).value]
      {
        var part := splitted[i];
        RemovedWithin(whole, splitted, i, cache);
        if !cache.Dict? {
          return Err(KeyError);
        }
        if i + 1 == |splitted| {
          if part !in cache.items {
            return Err(KeyError);
          }
          params := params[namespace := Removed(params[namespace], splitted).value];
        } else if part !in cache.items {
          return Ok(());
        } else {
          cache := cache.items[part];
          WithinStep(whole, splitted, i);
        }
        i := i + 1;
      }
      return Ok(());
    }
  }

  // The walk along p has reached w after i segments.
  predicate Within(v: Value, p: Path, i: nat, w: Value) {
    i <= |p| && Lookup(v, p[..i]) == Some(w)
  }

  lemma WithinStep(v: Value, p: Path, i: nat)
    requires i < |p| && Lookup(v, p[..i]).Some?
    requires Lookup(v, p[..i]).value.Dict? && p[i] in Lookup(v, p[..i]).value.items
    ensures Within(v, p, i + 1, Lookup(v, p[..i]).value.items[p[i]])
  {
    LookupConcat(v, p[..i], [p[i]]);
    assert p[..i] + [p[i]] == p[..i + 1];
    assert [p[i]][1..] == [];
  }

  // The outcome of a deletion is decided where the walk has got to.
  lemma {:induction false} RemovedWithin(v: Value, p: Path, i: nat, w: Value)
    requires i < |p| && Within(v, p, i, w)
    ensures Removed(v, p).Ok? <==> Removed(w, p[i..]).Ok?
    ensures Removed(v, p).Err? ==> Removed(v, p).fault == KeyError
    ensures i + 1 < |p| && w.Dict? && p[i] !in w.items ==> Removed(v, p) == Ok(v)
    decreases i
  {
    if i == 0 {
      assert p[..0] == [] && p[0..] == p;
      RemovedFault(v, p);
    } else {
      assert p[..i][1..] == p[1..][..i - 1] && p[1..][i - 1..] == p[i..] && p[1..][i - 1] == p[i];
      RemovedWithin(v.items[p[0]], p[1..], i - 1, w);
      if i + 1 < |p| && w.Dict? && p[i] !in w.items {
        assert v.items[p[0] := v.items[p[0]]] == v.items;
      }
    }
  }

  lemma {:induction false} RemovedFault(v: Value, p: Path)
    ensures Removed(v, p).Err? ==> Removed(v, p).fault == KeyError
  {
    if |p| > 1 && v.Dict? && p[0] in v.items {
      RemovedFault(v.items[p[0]], p[1..]);
    }
  }
}
