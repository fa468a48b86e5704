// Resource names (aioros/_utils/_resolve.py): splitting, joining and the slash-terminated
// form under which the master indexes parameter subscriptions. A name is understood
// through its path, the sequence of its segments.
module Names {
  import opened Outcomes

  type Path = seq<string>

  predicate Segment(s: string) {
    s != "" && '/' !in s
  }

  predicate Segments(p: Path) {
    forall i :: 0 <= i < |p| ==> Segment(p[i])
  }

  // Python's s.split("/"): the fields between slashes, empty ones included.
  function Fields(s: string): (r: seq<string>)
    ensures |r| >= 1
    ensures forall i :: 0 <= i < |r| ==> '/' !in r[i]
  {
    if s == "" then [""]
    else
      var r := Fields(s[1..]);
      if s[0] == '/' then [""] + r else [[s[0]] + r[0]] + r[1..]
  }

  function NonEmpty(fields: seq<string>): (r: seq<string>)
    ensures forall x :: x in r <==> x in fields && x != ""
  {
    if fields == [] then []
    else if fields[0] == "" then NonEmpty(fields[1..])
    else [fields[0]] + NonEmpty(fields[1..])
  }

  function Split(s: string): (p: Path)
    ensures Segments(p)
  {
    var p := NonEmpty(Fields(s));
    assert forall i :: 0 <= i < |p| ==> p[i] in p;
    p
  }

  // "/".join(segments)
  function Slashed(p: Path): string {
    if p == [] then ""
    else if |p| == 1 then p[0]
    else p[0] + "/" + Slashed(p[1..])
  }

  function SplitAll(args: seq<string>): Path {
    if args == [] then [] else Split(args[0]) + SplitAll(args[1..])
  }

  function Join(args: seq<string>): string {
    Slashed(SplitAll(args))
  }

  predicate StartsWith(s: string, c: char) {
    s != "" && s[0] == c
  }

  function Normalize(ns: string): Result<string> {
    if StartsWith(ns, '~') then Err(ValueError)
    else
      var n := if StartsWith(ns, '/') then ns else "/" + ns;
      Ok(if n[|n| - 1] == '/' then n else n + "/")
  }

  // Every segment followed by a slash.
  function Tail(p: Path): string {
    if p == [] then "" else p[0] + "/" + Tail(p[1..])
  }

  // The key under which the master files the path p.
  function Key(p: Path): (k: string)
    ensures |k| >= 1
  {
    "/" + Tail(p)
  }

  predicate Private(p: Path) {
    p != [] && StartsWith(p[0], '~')
  }

  // What register_param_subscriber and on_param_update do to the key they are given.
  function Canonical(key: string): Result<string> {
    Normalize(Join([key]))
  }

  // ----- splitting undoes joining -----

  lemma {:induction false} FieldsOfWord(x: string)
    requires '/' !in x
    ensures Fields(x) == [x]
  {
    if x != "" {
      FieldsOfWord(x[1..]);
      assert [x[0]] + x[1..] == x;
    }
  }

  lemma {:induction false} FieldsConcat(a: string, b: string)
    ensures Fields(a + "/" + b) == Fields(a) + Fields(b)
  {
    var s := a + "/" + b;
    if a == "" {
      assert s[1..] == b;
    } else {
      assert s[1..] == a[1..] + "/" + b;
      FieldsConcat(a[1..], b);
    }
  }

  lemma {:induction false} NonEmptyConcat(f: seq<string>, g: seq<string>)
    ensures NonEmpty(f + g) == NonEmpty(f) + NonEmpty(g)
  {
    if f == [] {
      assert f + g == g;
    } else {
      assert (f + g)[1..] == f[1..] + g;
      NonEmptyConcat(f[1..], g);
    }
  }

  lemma SplitConcat(a: string, b: string)
    ensures Split(a + "/" + b) == Split(a) + Split(b)
  {
    FieldsConcat(a, b);
    NonEmptyConcat(Fields(a), Fields(b));
  }

  lemma SplitWord(x: string)
    requires '/' !in x
    ensures Split(x) == if x == "" then [] else [x]
  {
    FieldsOfWord(x);
    assert NonEmpty([x][1..]) == [];
  }

  lemma SplitAfterWord(x: string, t: string)
    requires '/' !in x
    ensures Split(x + "/" + t) == (if x == "" then [] else [x]) + Split(t)
  {
    SplitConcat(x, t);
    SplitWord(x);
  }

  lemma {:induction false} SplitSlashed(p: Path)
    requires Segments(p)
    ensures Split(Slashed(p)) == p
  {
    if p == [] {
    } else if |p| == 1 {
      SplitWord(p[0]);
    } else {
      SplitAfterWord(p[0], Slashed(p[1..]));
      SplitSlashed(p[1..]);
    }
  }

  // Joining puts exactly one slash between segments, and none at the ends.
  lemma {:induction false} FieldsSlashed(p: Path)
    requires Segments(p)
    ensures Fields(Slashed(p)) == if p == [] then [""] else p
  {
    if |p| == 1 {
      FieldsOfWord(p[0]);
    } else if p != [] {
      FieldsConcat(p[0], Slashed(p[1..]));
      FieldsOfWord(p[0]);
      FieldsSlashed(p[1..]);
    }
  }

  lemma {:induction false} SplitTail(p: Path)
    requires Segments(p)
    ensures Split(Tail(p)) == p
  {
    if p != [] {
      SplitAfterWord(p[0], Tail(p[1..]));
      SplitTail(p[1..]);
    }
  }

  lemma SplitKey(p: Path)
    requires Segments(p)
    ensures Split(Key(p)) == p
  {
    SplitTail(p);
    SplitAfterWord("", Tail(p));
    assert "" + "/" + Tail(p) == Key(p);
  }

  // A leading slash, or the separator left in front of a remainder, is invisible to Split.
  lemma SplitLeadingSlash(t: string)
    ensures Split("/" + t) == Split(t)
  {
    SplitAfterWord("", t);
    assert "" + "/" + t == "/" + t;
  }

  // ----- concatenation -----

  lemma {:induction false} TailConcat(p: Path, r: Path)
    ensures Tail(p + r) == Tail(p) + Tail(r)
  {
    if p == [] {
      assert p + r == r;
    } else {
      assert (p + r)[1..] == p[1..] + r;
      TailConcat(p[1..], r);
    }
  }

  lemma {:induction false} TailIsSlashed(p: Path)
    requires p != []
    ensures Tail(p) == Slashed(p) + "/"
  {
    if |p| == 1 {
      assert Tail(p[1..]) == "";
    } else {
      TailIsSlashed(p[1..]);
    }
  }

  lemma {:induction false} SlashedConcat(p: Path, r: Path)
    requires p != [] && r != []
    ensures Slashed(p + r) == Slashed(p) + "/" + Slashed(r)
  {
    assert (p + r)[1..] == p[1..] + r;
    if |p| == 1 {
      assert p[1..] + r == r;
    } else {
      SlashedConcat(p[1..], r);
    }
  }

  // ----- the key form is faithful -----

  // Normalising a joined name gives the key of its path; only private names are refused.
  lemma NormalizeSlashed(p: Path)
    requires Segments(p)
    ensures Normalize(Slashed(p)) == if Private(p) then Err(ValueError) else Ok(Key(p))
  {
    if p != [] {
      TailIsSlashed(p);
      SlashedEnd(p);
      assert ("/" + Slashed(p)) + "/" == Key(p);
    }
  }

  lemma CanonicalKey(key: string)
    ensures Canonical(key) == if Private(Split(key)) then Err(ValueError) else Ok(Key(Split(key)))
  {
    assert SplitAll([key][1..]) == [];
    assert SplitAll([key]) == Split(key);
    NormalizeSlashed(Split(key));
  }

  lemma {:induction false} SlashedEnd(p: Path)
    requires p != [] && Segments(p)
    ensures Slashed(p) != "" && Slashed(p)[|Slashed(p)| - 1] != '/' && Slashed(p)[0] == p[0][0] != '/'
  {
    if |p| > 1 {
      SlashedEnd(p[1..]);
    }
  }

  lemma {:induction false} TailPrefix(p: Path, q: Path)
    requires Segments(p) && Segments(q)
    ensures Tail(p) <= Tail(q) <==> p <= q
  {
    if p == [] {
    } else if q == [] {
    } else {
      TailPrefix(p[1..], q[1..]);
      WordPrefix(p[0], Tail(p[1..]), q[0], Tail(q[1..]));
      assert p <= q <==> p[0] == q[0] && p[1..] <= q[1..] by {
        assert p == [p[0]] + p[1..];
        assert q == [q[0]] + q[1..];
      }
    }
  }

  lemma WordPrefix(x: string, s: string, y: string, t: string)
    requires '/' !in x && '/' !in y
    ensures x + "/" + s <= y + "/" + t <==> x == y && s <= t
  {
    var a, b := x + "/" + s, y + "/" + t;
    if a <= b {
      assert b[|x|] == a[|x|] == '/' && b[|y|] == '/';
      assert b[..|x|] == x && b[..|y|] == y;
      assert forall k :: 0 <= k < |x| ==> b[k] == x[k];
      FirstSlash(b, |x|, |y|);
      assert s == a[|x| + 1..] && t == b[|x| + 1..];
    }
  }

  lemma FirstSlash(w: string, i: nat, j: nat)
    requires i < |w| && j < |w| && w[i] == w[j] == '/'
    requires forall k :: 0 <= k < i ==> w[k] != '/'
    requires forall k :: 0 <= k < j ==> w[k] != '/'
    ensures i == j
  {
  }

  // startswith on two keys is the prefix order on their paths.
  lemma KeyPrefix(p: Path, q: Path)
    requires Segments(p) && Segments(q)
    ensures Key(p) <= Key(q) <==> p <= q
  {
    TailPrefix(p, q);
    assert Key(p)[1..] == Tail(p) && Key(q)[1..] == Tail(q);
  }

  lemma KeyInjective(p: Path, q: Path)
    requires Segments(p) && Segments(q)
    requires Key(p) == Key(q)
    ensures p == q
  {
    SplitKey(p);
    SplitKey(q);
  }

  // Slicing one key off the front of another and splitting leaves the remaining path.
  lemma KeyRemainder(p: Path, r: Path)
    requires Segments(p) && Segments(r)
    ensures Key(p) <= Key(p + r)
    ensures Split(Key(p + r)[|Key(p)|..]) == r
  {
    TailConcat(p, r);
    SplitTail(r);
    assert Key(p + r) == Key(p) + Tail(r);
  }

  // The name put on the wire is the key without its last slash.
  function WireName(key: string): string
    requires key != ""
  {
    key[..|key| - 1]
  }

  // For the root that is the empty text.
  lemma WireText(p: Path)
    ensures WireName(Key(p)) == if p == [] then "" else "/" + Slashed(p)
  {
    if p != [] {
      TailIsSlashed(p);
    }
  }

  lemma SplitWireName(p: Path)
    requires Segments(p)
    ensures Split(WireName(Key(p))) == p
  {
    if p != [] {
      TailIsSlashed(p);
      assert WireName(Key(p)) == "/" + Slashed(p);
      SplitLeadingSlash(Slashed(p));
      SplitSlashed(p);
    }
  }

  // ----- iter_namespaces -----

  function Namespaces(key: string): seq<string> {
    var p := Split(key);
    seq(|p|, i requires 0 <= i < |p| => Join(p[..i])) + [key]
  }

  lemma {:induction false} SplitAllSegments(p: Path)
    requires Segments(p)
    ensures SplitAll(p) == p
  {
    if p != [] {
      SplitWord(p[0]);
      SplitAllSegments(p[1..]);
      assert [p[0]] + p[1..] == p;
    }
  }

  lemma JoinSegments(p: Path)
    requires Segments(p)
    ensures Join(p) == Slashed(p)
  {
    SplitAllSegments(p);
  }

  lemma NamespaceAt(p: Path, i: nat)
    requires Segments(p) && i <= |p|
    ensures i < |Namespaces(Slashed(p))| == |p| + 1
    ensures Namespaces(Slashed(p))[i] == Slashed(p[..i])
  {
    hide Split, Join, Slashed;
    SplitSlashed(p);
    assert p[..|p|] == p;
    JoinSegments(p[..i]);
  }

  lemma PrefixesDiffer(p: Path, i: nat, j: nat)
    requires Segments(p) && i < j <= |p|
    ensures Slashed(p[..i]) != Slashed(p[..j])
  {
    hide Split, Slashed;
    SplitSlashed(p[..i]);
    SplitSlashed(p[..j]);
    assert |p[..i]| != |p[..j]|;
  }

  // Every prefix of a joined name once, shortest first.
  lemma NamespacesArePrefixes(p: Path)
    requires Segments(p)
    ensures |Namespaces(Slashed(p))| == |p| + 1
    ensures forall i :: 0 <= i <= |p| ==> Namespaces(Slashed(p))[i] == Slashed(p[..i])
    ensures forall i, j :: 0 <= i < j <= |p| ==> Slashed(p[..i]) != Slashed(p[..j])
  {
    hide Namespaces, Slashed, Segments;
    NamespaceAt(p, 0);
    forall i | 0 <= i <= |p|
      ensures Namespaces(Slashed(p))[i] == Slashed(p[..i])
    {
      NamespaceAt(p, i);
    }
    forall i, j | 0 <= i < j <= |p|
      ensures Slashed(p[..i]) != Slashed(p[..j])
    {
      PrefixesDiffer(p, i, j);
    }
  }

  // key[len(namespace):] leaves a text that splits into the rest of the path.
  lemma NamespaceRemainder(p: Path, i: nat)
    requires Segments(p) && i <= |p|
    ensures |Slashed(p[..i])| <= |Slashed(p)|
    ensures Split(Slashed(p)[|Slashed(p[..i])|..]) == p[i..]
  {
    var a, b := p[..i], p[i..];
    assert p == a + b;
    SplitSlashed(b);
    if a == [] {
      assert b == p;
    } else if b == [] {
      assert a == p;
    } else {
      SlashedConcat(a, b);
      assert Slashed(p)[|Slashed(a)|..] == "/" + Slashed(b);
      SplitLeadingSlash(Slashed(b));
    }
  }

  // ----- resolving names -----

  // _resolve_name
  function Resolve(name: string, node: string, namespace: string): string {
    if name == "" then namespace
    else
      var canonical := Join([name]);
      if StartsWith(name, '/') then "/" + canonical
      else if StartsWith(canonical, '~') then "/" + Join([namespace, node, canonical[1..]])
      else "/" + Join([namespace, canonical])
  }

  lemma {:induction false} SplitJoin(args: seq<string>)
    ensures Segments(SplitAll(args)) && Split("/" + Join(args)) == SplitAll(args)
    decreases |args|
  {
    SegmentsAll(args);
    SplitSlashed(SplitAll(args));
    SplitLeadingSlash(Join(args));
  }

  lemma {:induction false} SegmentsAll(args: seq<string>)
    ensures Segments(SplitAll(args))
    decreases |args|
  {
    if args != [] {
      SegmentsAll(args[1..]);
    }
  }

  // A name stands for itself, for a name below the namespace, or for one below the node.
  // The empty name stands for the namespace, which is returned as it is.
  lemma ResolvePath(name: string, node: string, namespace: string)
    ensures name == "" ==> Resolve(name, node, namespace) == namespace
    ensures name != "" ==> Resolve(name, node, namespace) == "/" + Slashed(Split(Resolve(name, node, namespace)))
    ensures Split(Resolve(name, node, namespace)) ==
      if StartsWith(name, '/') then Split(name)
      else if Private(Split(name)) then Split(namespace) + Split(node) + Split(Slashed(Split(name))[1..])
      else Split(namespace) + Split(name)
  {
    if name == "" {
      assert Split(name) == [] && Split(namespace) + [] == Split(namespace);
    } else {
      ResolveNamed(name, node, namespace);
      ResolveText(name, node, namespace);
    }
  }

  lemma ResolveText(name: string, node: string, namespace: string)
    requires name != ""
    ensures Resolve(name, node, namespace) == "/" + Slashed(Split(Resolve(name, node, namespace)))
  {
    hide Split, Slashed;
    var args := if StartsWith(name, '/') then [name]
                else if StartsWith(Join([name]), '~') then [namespace, node, Join([name])[1..]]
                else [namespace, Join([name])];
    SplitJoin(args);
  }

  lemma ResolveNamed(name: string, node: string, namespace: string)
    requires name != ""
    ensures StartsWith(Resolve(name, node, namespace), '/')
    ensures Split(Resolve(name, node, namespace)) ==
      if StartsWith(name, '/') then Split(name)
      else if Private(Split(name)) then Split(namespace) + Split(node) + Split(Slashed(Split(name))[1..])
      else Split(namespace) + Split(name)
  {
    hide Split, Join;
    JoinOne(name);
    SplitSlashed(Split(name));
    if StartsWith(name, '/') {
      SplitLeadingSlash(Join([name]));
    } else if StartsWith(Join([name]), '~') {
      var rest := Join([name])[1..];
      SplitJoin([namespace, node, rest]);
      SplitAllThree(namespace, node, rest);
    } else {
      SplitJoin([namespace, Join([name])]);
      SplitAllThree(namespace, Join([name]), "");
    }
    if Split(name) != [] {
      SlashedEnd(Split(name));
    }
  }

  lemma JoinOne(name: string)
    ensures Join([name]) == Slashed(Split(name))
    ensures Split(name) == [] ==> Join([name]) == ""
    ensures Split(name) != [] ==> Join([name]) != "" && Join([name])[0] == Split(name)[0][0]
  {
    assert [name][1..] == [];
    assert SplitAll([name]) == Split(name);
    if Split(name) != [] {
      SlashedEnd(Split(name));
    }
  }

  lemma SplitAllThree(a: string, b: string, c: string)
    ensures SplitAll([a, b, c]) == Split(a) + Split(b) + Split(c)
    ensures SplitAll([a, b]) == Split(a) + Split(b)
  {
    hide Split;
    assert [a, b, c][1..] == [b, c] && [b, c][1..] == [c] && [c][1..] == [];
    assert [a, b][1..] == [b] && [b][1..] == [];
    assert SplitAll([c]) == Split(c) && SplitAll([b]) == Split(b);
    assert SplitAll([b, c]) == Split(b) + Split(c);
    assert SplitAll([a, b, c]) == Split(a) + (Split(b) + Split(c));
  }

  // A resolved name means the same everywhere, but for the empty name: that one stands for
  // a namespace, which is a resolved name only if it is written as one.
  lemma ResolveOnce(name: string, node: string, namespace: string, node2: string, namespace2: string)
    ensures Resolve(Resolve(name, node, namespace), node2, namespace2) == Resolve(name, node, namespace) <==>
      || name != ""
      || (if namespace == "" then namespace2 == "" else namespace == "/" + Join([namespace]))
  {
    hide Split, Join;
    if name != "" {
      ResolvedOnce(name, node, namespace, node2, namespace2);
    } else if namespace != "" && !StartsWith(namespace, '/') {
      ResolveNamed(namespace, node2, namespace2);
    }
  }

  lemma ResolvedOnce(name: string, node: string, namespace: string, node2: string, namespace2: string)
    requires name != ""
    ensures Resolve(Resolve(name, node, namespace), node2, namespace2) == Resolve(name, node, namespace)
  {
    hide Split;
    ResolveNamed(name, node, namespace);
    var r := Resolve(name, node, namespace);
    var args := if StartsWith(name, '/') then [name]
                else if StartsWith(Join([name]), '~') then [namespace, node, Join([name])[1..]]
                else [namespace, Join([name])];
    assert r == "/" + Join(args);
    SplitJoin(args);
    JoinOne(r);
  }
}
