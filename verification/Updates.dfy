// What one change of the parameter tree makes the master send (aioros/master/_registry.py,
// on_param_update), in terms of paths: which update a subscription is owed, and whether
// the value sent is the very dict the master has stored.
module Updates {
  import opened Outcomes
  import opened Names
  import opened Trees

  // setParam stores a value, deleteParam removes one and announces an empty dict.
  datatype Change = Put(value: Value) | Remove

  function Content(w: Change): Value {
    if w.Put? then w.value else EMPTY
  }

  function Changed(tree: Value, p: Path, w: Change): Result<Value> {
    match w
    case Put(v) => if p == [] && !v.Dict? then Err(ValueError) else Ok(SetAt(tree, p, v))
    case Remove => DeleteAt(tree, p)
  }

  // Whatever the change, the leaves are those of the flat write of its content.
  lemma ChangedLeaves(tree: Value, p: Path, w: Change, q: Path)
    requires Changed(tree, p, w).Ok?
    ensures LeafAt(Changed(tree, p, w).value, q) == LeafWrite(LeafAt(tree, q), p, Content(w), q)
  {
    SetAtLeaves(tree, p, Content(w), q);
    if w.Remove? {
      DeleteAtLeaves(tree, p, q);
    }
  }

  // A message in a node's queue. A shared value is the dict object the master holds at
  // that key: later changes below the key are seen by whoever delivers the message.
  datatype Message = Message(key: Path, value: Value, shared: bool)

  // The message owed to a subscription at s: the whole value at or below s; the exact
  // sub-value, or an empty dict, when s lies below the written dict; else nothing.
  function Owed(s: Path, p: Path, w: Change): Option<Message> {
    var x := Content(w);
    if s <= p then
      Some(Message(p, x, w.Put? && x.Dict?))
    else if p <= s && x.Dict? then
      var sub := Lookup(x, s[|p|..]);
      if sub.Some? then Some(Message(s, sub.value, w.Put? && sub.value.Dict?))
      else Some(Message(s, EMPTY, false))
    else
      None
  }

  // The second loop of on_param_update does not skip the writer.
  function Addressed(caller: string, s: Path, p: Path, w: Change, writer: string): bool {
    var x := Content(w);
    || caller != writer
    || (p <= s && p != s && x.Dict? && Lookup(x, s[|p|..]).Some?)
  }

  // What a change does to a message that is still queued.
  function Refresh(m: Message, p: Path, w: Change): Message {
    if !m.shared then m
    else if p <= m.key then m.(shared := false)
    else if m.key <= p then
      match Changed(m.value, p[|m.key|..], w)
      case Ok(v) => m.(value := v)
      case Err(_) => m
    else m
  }

  function RefreshAll(queue: seq<Message>, p: Path, w: Change): (r: seq<Message>)
    ensures |r| == |queue|
    ensures forall i :: 0 <= i < |r| ==> r[i] == Refresh(queue[i], p, w)
  {
    seq(|queue|, i requires 0 <= i < |queue| => Refresh(queue[i], p, w))
  }

  // The model of sharing is right: a shared message always carries the master's value.
  ghost predicate SharesTree(m: Message, tree: Value) {
    m.shared ==> Lookup(tree, m.key) == Some(m.value)
  }

  lemma {:induction false} LookupBelowSet(v: Value, k: Path, p: Path, x: Value)
    requires k <= p && Lookup(v, k).Some?
    ensures Lookup(SetAt(v, p, x), k) == Some(SetAt(Lookup(v, k).value, p[|k|..], x))
    decreases k
  {
    if k == [] {
      assert p[0..] == p;
    } else {
      PrefixStep(k, p);
      assert p[|k|..] == p[1..][|k[1..]|..];
      LookupBelowSet(v.items[k[0]], k[1..], p[1..], x);
    }
  }

  lemma {:induction false} LookupBesideSet(v: Value, k: Path, p: Path, x: Value)
    requires !(k <= p) && !(p <= k) && Lookup(v, k).Some?
    ensures Lookup(SetAt(v, p, x), k) == Lookup(v, k)
    decreases k
  {
    PrefixStep(k, p);
    PrefixStep(p, k);
    if k[0] == p[0] {
      LookupBesideSet(v.items[k[0]], k[1..], p[1..], x);
    }
  }

  lemma {:induction false} LookupBelowDelete(v: Value, k: Path, p: Path)
    requires k <= p && k != p && DeleteAt(v, p).Ok?
    ensures Lookup(v, k).Some? && DeleteAt(Lookup(v, k).value, p[|k|..]).Ok?
    ensures Lookup(DeleteAt(v, p).value, k) == Some(DeleteAt(Lookup(v, k).value, p[|k|..]).value)
    decreases k
  {
    if k == [] {
      assert p[0..] == p;
    } else {
      PrefixStep(k, p);
      assert p[|k|..] == p[1..][|k[1..]|..];
      LookupBelowDelete(v.items[k[0]], k[1..], p[1..]);
    }
  }

  lemma {:induction false} LookupBesideDelete(v: Value, k: Path, p: Path)
    requires !(k <= p) && !(p <= k) && Lookup(v, k).Some? && DeleteAt(v, p).Ok?
    ensures Lookup(DeleteAt(v, p).value, k) == Lookup(v, k)
    decreases k
  {
    PrefixStep(k, p);
    PrefixStep(p, k);
    if k[0] == p[0] {
      LookupBesideDelete(v.items[k[0]], k[1..], p[1..]);
    }
  }

  lemma RefreshShares(m: Message, tree: Value, p: Path, w: Change)
    requires SharesTree(m, tree) && Changed(tree, p, w).Ok?
    ensures SharesTree(Refresh(m, p, w), Changed(tree, p, w).value)
  {
    if m.shared && !(p <= m.key) {
      if m.key <= p {
        assert p[|m.key|..] != [];
        match w
        case Put(v) => LookupBelowSet(tree, m.key, p, v);
        case Remove => LookupBelowDelete(tree, m.key, p);
      } else {
        match w
        case Put(v) => LookupBesideSet(tree, m.key, p, v);
        case Remove => LookupBesideDelete(tree, m.key, p);
      }
    }
  }

  // What is sent is the stored dict itself if a dict has been stored that it is part of, and
  // not for scalars, deletions and the empty dicts made up for what is missing.
  lemma OwedShared(s: Path, p: Path, w: Change)
    requires Owed(s, p, w).Some?
    ensures var m := Owed(s, p, w).value;
      m.shared <==>
        w.Put? && m.value.Dict? && p <= m.key && Lookup(w.value, m.key[|p|..]) == Some(m.value)
  {
    if s <= p {
      assert p[|p|..] == [];
    }
  }

  lemma OwedShares(tree: Value, s: Path, p: Path, w: Change)
    requires Changed(tree, p, w).Ok? && Owed(s, p, w).Some?
    ensures SharesTree(Owed(s, p, w).value, Changed(tree, p, w).value)
  {
    if w.Put? {
      LookupSetAt(tree, p, w.value);
      if p <= s {
        LookupConcat(SetAt(tree, p, w.value), p, s[|p|..]);
        assert p + s[|p|..] == s;
      }
    }
  }
}
