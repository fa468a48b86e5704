// Whole runs of the parameter server: the master's tree, each node's queue of updates and
// each node's cache. The main theorem: whatever the order in which updates were queued, a
// node that has not written itself and has drained its queue reads what the master holds.
module Coherence {
  import opened Outcomes
  import opened Names
  import opened Trees
  import opened NodeCache
  import opened Updates

  datatype Node = Node(cache: Entries, queue: seq<Message>)

  datatype System = System(tree: Value, subs: set<(string, Path)>, nodes: map<string, Node>)

  // One queued message, and the subscription it is owed to.
  datatype Post = Post(caller: string, sub: Path, message: Message)

  datatype Step =
    | Write(writer: string, key: Path, change: Change, posts: seq<Post>)
    | Subscribe(caller: string, key: Path)
    | Deliver(caller: string)
    | Lose(caller: string)

  // The two loops of on_param_update, in any order of subscriptions and keys: each owed
  // and addressed subscription gets exactly one message, and no other does.
  ghost predicate FanOut(subs: set<(string, Path)>, writer: string, p: Path, w: Change, posts: seq<Post>) {
    && (forall i, j :: 0 <= i < j < |posts| ==> (posts[i].caller, posts[i].sub) != (posts[j].caller, posts[j].sub))
    && (forall i :: 0 <= i < |posts| ==>
          && (posts[i].caller, posts[i].sub) in subs
          && Addressed(posts[i].caller, posts[i].sub, p, w, writer)
          && Owed(posts[i].sub, p, w) == Some(posts[i].message))
    && (forall c, s :: (c, s) in subs && Owed(s, p, w).Some? && Addressed(c, s, p, w, writer) ==>
          Delivered(posts, c, s))
  }

  ghost predicate Delivered(posts: seq<Post>, c: string, s: Path) {
    exists i :: 0 <= i < |posts| && posts[i].caller == c && posts[i].sub == s
  }

  // The messages for one node, in order.
  function Mail(posts: seq<Post>, c: string): seq<Message> {
    if posts == [] then []
    else (if posts[0].caller == c then [posts[0].message] else []) + Mail(posts[1..], c)
  }

  ghost predicate Next(a: System, step: Step, b: System) {
    match step
    case Write(writer, p, w, posts) =>
      && Segments(p)
      && Changed(a.tree, p, w) == Ok(b.tree)
      // a private name is refused only once it has been stored: nobody is told
      && (if Private(p) then posts == [] else FanOut(a.subs, writer, p, w, posts))
      && b.subs == a.subs
      && b.nodes.Keys == a.nodes.Keys
      && (forall c | c in a.nodes ::
            && b.nodes[c].queue == RefreshAll(a.nodes[c].queue, p, w) + Mail(posts, c)
            && (c != writer ==> b.nodes[c].cache == a.nodes[c].cache))
    case Subscribe(c, s) =>
      && Segments(s) && !Private(s)
      && c in a.nodes
      // get_param_cached asks the master only when no ancestor of the key is cached
      && Covering(a.nodes[c].cache, s, 0) == None
      && b.tree == a.tree
      && b.subs == a.subs + {(c, s)}
      && b.nodes == a.nodes[c := a.nodes[c].(cache := a.nodes[c].cache[Slashed(s) := Reply(a.tree, s)])]
    // an update that a node cannot take in is the end of the master, and of the run
    case Deliver(c) =>
      && c in a.nodes && a.nodes[c].queue != []
      && var m := a.nodes[c].queue[0];
      && Patched(a.nodes[c].cache, m.key, m.value, 0).1
      && b == a.(nodes := a.nodes[c := Node(Patched(a.nodes[c].cache, m.key, m.value, 0).0, a.nodes[c].queue[1..])])
    // one that times out is dropped
    case Lose(c) =>
      && c in a.nodes && a.nodes[c].queue != []
      && b == a.(nodes := a.nodes[c := Node(a.nodes[c].cache, a.nodes[c].queue[1..])])
  }

  // What subscribeParam answers.
  function Reply(tree: Value, s: Path): Value {
    match Lookup(tree, s) case Some(v) => v case None => EMPTY
  }

  ghost predicate Init(a: System) {
    && a.tree == EMPTY && a.subs == {}
    && forall c | c in a.nodes :: a.nodes[c] == Node(map[], [])
  }

  // ----- the outlook of a cached leaf -----

  // What a node will believe about the leaf at q below its subscription at s once it has
  // handled a message, and whether a message has meanwhile demanded a dict at q.
  function Effect(now: (Option<Value>, bool), m: Message, s: Path, q: Path): (Option<Value>, bool) {
    if s <= m.key && m.key <= q then (LeafAt(m.value, q[|m.key|..]), false)
    else if s <= m.key && q <= m.key then (now.0, true)
    else now
  }

  function Outlook(now: (Option<Value>, bool), queue: seq<Message>, s: Path, q: Path): (Option<Value>, bool)
    decreases |queue|
  {
    if queue == [] then now else Outlook(Effect(now, queue[0], s, q), queue[1..], s, q)
  }

  // The outlook matches the master's leaf; or the master has no leaf there and a message
  // is under way that cannot be handled unless the node has none either.
  predicate Agrees(o: (Option<Value>, bool), leaf: Option<Value>) {
    o.0 == leaf || (o.1 && leaf == None)
  }

  function Now(n: Node, s: Path, q: Path): (Option<Value>, bool)
    requires Entry(n.cache, s).Some? && s <= q
  {
    (LeafAt(Entry(n.cache, s).value, q[|s|..]), false)
  }

  ghost predicate AgreesAt(a: System, c: string, s: Path, q: Path)
    requires c in a.nodes && Entry(a.nodes[c].cache, s).Some? && s <= q
  {
    Agrees(Outlook(Now(a.nodes[c], s, q), a.nodes[c].queue, s, q), LeafAt(a.tree, q))
  }

  // The node caches exactly what it subscribed to, and is only told about that.
  ghost predicate Attuned(a: System, c: string) {
    && c in a.nodes
    && (forall s: Path :: (c, s) in a.subs ==> Segments(s) && !Private(s))
    && (forall s: Path :: Segments(s) ==> (Entry(a.nodes[c].cache, s).Some? <==> (c, s) in a.subs))
    && (forall i :: 0 <= i < |a.nodes[c].queue| ==> Wanted(a.subs, c, a.nodes[c].queue[i].key))
  }

  ghost predicate Wanted(subs: set<(string, Path)>, c: string, k: Path) {
    Segments(k) && !Private(k) && exists s: Path :: (c, s) in subs && s <= k
  }

  // The dicts it is told of that are the master's own; the last update of the whole tree
  // always is.
  ghost predicate Referring(a: System, c: string)
    requires c in a.nodes
  {
    a.tree.Dict? && Sharing(a.nodes[c].queue, a.tree) && LastWhole(a.nodes[c].queue)
  }

  ghost predicate Sharing(queue: seq<Message>, tree: Value) {
    forall i :: 0 <= i < |queue| ==> SharesTree(queue[i], tree)
  }

  ghost predicate LastWhole(queue: seq<Message>) {
    forall i :: 0 <= i < |queue| && queue[i].key == [] && Partial(queue[i + 1..]) ==> queue[i].shared
  }

  // No update of the whole tree is queued.
  predicate Partial(queue: seq<Message>) {
    forall i :: 0 <= i < |queue| ==> queue[i].key != []
  }

  // The invariant of a node that does not write, at one leaf.
  ghost predicate CoherentAt(a: System, c: string, q: Path) {
    && Attuned(a, c)
    && forall s: Path :: (c, s) in a.subs && s <= q ==> AgreesAt(a, c, s, q)
  }

  ghost predicate Coherent(a: System, c: string) {
    forall q: Path :: CoherentAt(a, c, q)
  }

  // The master says nothing about a leaf the node has subscribed to, and what is queued
  // for the node will not make up for it: a non-dict is written over a tree that has the
  // leaf further down, and no update demands a dict there; or a private name changes the
  // leaf, and no update of the whole tree is queued, which is the tree itself.
  ghost predicate Silent(a: System, c: string, p: Path, w: Change, q: Path)
    requires c in a.nodes
  {
    exists s: Path :: (c, s) in a.subs && s <= q && SilentAt(a.tree, a.nodes[c].queue, p, w, s, q)
  }

  predicate SilentAt(tree: Value, queue: seq<Message>, p: Path, w: Change, s: Path, q: Path) {
    || (!Content(w).Dict? && p <= s && p != s && LeafAt(tree, q).Some? && !Demanded(queue, s, q))
    || (Private(p) && LeafWrite(LeafAt(tree, q), p, Content(w), q) != LeafAt(tree, q) && Partial(queue))
  }

  // The last message that speaks of q, or demands a dict there, demands one.
  predicate Demanded(queue: seq<Message>, s: Path, q: Path)
    decreases |queue|
  {
    queue != [] &&
    var m := queue[|queue| - 1];
    !Says(m, s, q) && (Blocks(m, s, q) || Demanded(queue[..|queue| - 1], s, q))
  }

  // ----- about outlooks -----

  lemma {:induction false} OutlookConcat(now: (Option<Value>, bool), a: seq<Message>, b: seq<Message>, s: Path, q: Path)
    ensures Outlook(now, a + b, s, q) == Outlook(Outlook(now, a, s, q), b, s, q)
    decreases |a|
  {
    if a == [] {
      assert a + b == b;
    } else {
      assert (a + b)[1..] == a[1..] + b;
      OutlookConcat(Effect(now, a[0], s, q), a[1..], b, s, q);
    }
  }

  lemma {:induction false} OutlookSame(now: (Option<Value>, bool), a: seq<Message>, s: Path, b: seq<Message>, t: Path,
                                       q: Path)
    requires |a| == |b|
    requires forall i, n :: 0 <= i < |a| ==> Effect(n, a[i], s, q) == Effect(n, b[i], t, q)
    ensures Outlook(now, a, s, q) == Outlook(now, b, t, q)
    decreases |a|
  {
    if a != [] {
      OutlookSame(Effect(now, a[0], s, q), a[1..], s, b[1..], t, q);
    }
  }

  lemma {:induction false} OutlookUntouched(now: (Option<Value>, bool), a: seq<Message>, s: Path, q: Path)
    requires forall i :: 0 <= i < |a| ==> !(s <= a[i].key && (a[i].key <= q || q <= a[i].key))
    ensures Outlook(now, a, s, q) == now
    decreases |a|
  {
    if a != [] {
      OutlookUntouched(now, a[1..], s, q);
    }
  }

  predicate Says(m: Message, s: Path, q: Path) {
    s <= m.key && m.key <= q
  }

  predicate Blocks(m: Message, s: Path, q: Path) {
    s <= m.key && q <= m.key && m.key != q
  }

  lemma {:induction false} OutlookDemands(now: (Option<Value>, bool), a: seq<Message>, s: Path, q: Path)
    requires !now.1
    ensures Outlook(now, a, s, q).1 <==> Demanded(a, s, q)
    decreases |a|
  {
    if a != [] {
      var n := |a| - 1;
      OutlookDemands(now, a[..n], s, q);
      assert a == a[..n] + [a[n]];
      OutlookConcat(now, a[..n], [a[n]], s, q);
      assert [a[n]][1..] == [];
    }
  }

  // An update of the whole tree settles everything, if nothing else speaks of it.
  lemma WholeSettles(now: (Option<Value>, bool), a: seq<Message>, j: nat, q: Path)
    requires j < |a| && a[j].key == []
    requires forall i :: j < i < |a| ==> !(a[i].key <= q || q <= a[i].key)
    ensures Outlook(now, a, [], q) == (LeafAt(a[j].value, q), false)
  {
    var before, after := a[..j], a[j + 1..];
    assert a == before + ([a[j]] + after);
    OutlookConcat(now, before, [a[j]] + after, [], q);
    var n := Outlook(now, before, [], q);
    assert ([a[j]] + after)[1..] == after;
    assert Effect(n, a[j], [], q) == (LeafAt(a[j].value, q[0..]), false) && q[0..] == q;
    OutlookUntouched((LeafAt(a[j].value, q), false), after, [], q);
  }

  // Messages that all tell the truth about q settle it, if one of them speaks of it.
  lemma {:induction false} Settled(now: (Option<Value>, bool), a: seq<Message>, s: Path, q: Path, leaf: Option<Value>)
    requires forall i :: 0 <= i < |a| && Says(a[i], s, q) ==> LeafAt(a[i].value, q[|a[i].key|..]) == leaf
    requires
      || now.0 == leaf
      || (exists i :: 0 <= i < |a| && Says(a[i], s, q))
      || (leaf == None && (now.1 || exists i :: 0 <= i < |a| && Blocks(a[i], s, q)))
    ensures Agrees(Outlook(now, a, s, q), leaf)
    decreases |a|
  {
    if a != [] {
      var next := Effect(now, a[0], s, q);
      if i :| 0 <= i < |a| && Says(a[i], s, q) {
        assert i > 0 ==> Says(a[1..][i - 1], s, q);
      } else if i :| 0 <= i < |a| && Blocks(a[i], s, q) {
        assert i > 0 ==> Blocks(a[1..][i - 1], s, q);
      }
      Settled(next, a[1..], s, q, leaf);
    }
  }

  // A demand for a dict is met by a node that has no leaf there.
  lemma {:induction false} Unflagged(a: seq<Message>, s: Path, q: Path, leaf: Option<Value>)
    requires Agrees(Outlook((None, true), a, s, q), leaf)
    ensures Agrees(Outlook((None, false), a, s, q), leaf)
    decreases |a|
  {
    if a != [] && !Says(a[0], s, q) && !Blocks(a[0], s, q) {
      Unflagged(a[1..], s, q, leaf);
    }
  }

  // Starting from the master's leaf, old messages lead back to it.
  lemma {:induction false} Restarted(now: (Option<Value>, bool), a: seq<Message>, s: Path, q: Path, leaf: Option<Value>)
    requires Agrees(Outlook(now, a, s, q), leaf)
    ensures Agrees(Outlook((leaf, now.1), a, s, q), leaf)
    decreases |a|
  {
    if a != [] && !Says(a[0], s, q) {
      Restarted(Effect(now, a[0], s, q), a[1..], s, q, leaf);
    }
  }

  lemma {:induction false} Unsaid(now: (Option<Value>, bool), a: seq<Message>, s: Path, q: Path)
    requires forall i :: 0 <= i < |a| ==> !Says(a[i], s, q)
    ensures Outlook(now, a, s, q).0 == now.0
    decreases |a|
  {
    if a != [] {
      Unsaid(Effect(now, a[0], s, q), a[1..], s, q);
    }
  }

  // ----- a step of the run, at one leaf -----

  // Sharing makes no difference to what is not being written ...
  lemma RefreshBeside(m: Message, p: Path, w: Change, s: Path, q: Path, now: (Option<Value>, bool))
    requires (!(p <= q) && !(q <= p)) || p <= s
    ensures Effect(now, Refresh(m, p, w), s, q) == Effect(now, m, s, q)
  {
    if m.shared && !(p <= m.key) && m.key <= p && Says(m, s, q) && Changed(m.value, p[|m.key|..], w).Ok? {
      var k := |m.key|;
      ChangedLeaves(m.value, p[k..], w, q[k..]);
      assert p == m.key + p[k..] && q == m.key + q[k..];
    }
  }

  // A change that leaves a leaf as it is leaves the outlook on it right.
  lemma {:induction false} RefreshKeeps(now: (Option<Value>, bool), after: (Option<Value>, bool), a: seq<Message>,
                                        p: Path, w: Change, s: Path, q: Path, leaf: Option<Value>)
    requires Agrees(Outlook(now, a, s, q), leaf) && LeafWrite(leaf, p, Content(w), q) == leaf
    requires after == now || after.0 == leaf
    ensures Agrees(Outlook(after, RefreshAll(a, p, w), s, q), leaf)
    decreases |a|
  {
    if a != [] {
      var b := RefreshAll(a, p, w);
      assert b[1..] == RefreshAll(a[1..], p, w);
      RefreshEffect(after, a[0], p, w, s, q, leaf);
      RefreshKeeps(Effect(now, a[0], s, q), Effect(after, b[0], s, q), a[1..], p, w, s, q, leaf);
    }
  }

  lemma RefreshEffect(now: (Option<Value>, bool), m: Message, p: Path, w: Change, s: Path, q: Path, leaf: Option<Value>)
    requires LeafWrite(leaf, p, Content(w), q) == leaf
    ensures var r := Effect(now, Refresh(m, p, w), s, q);
      r == Effect(now, m, s, q) || (Says(m, s, q) && r.0 == leaf)
  {
    if !(p <= q) && !(q <= p) {
      RefreshBeside(m, p, w, s, q, now);
    } else if m.shared && !(p <= m.key) && m.key <= p && Says(m, s, q) && Changed(m.value, p[|m.key|..], w).Ok? {
      var k := |m.key|;
      ChangedLeaves(m.value, p[k..], w, q[k..]);
      assert p == m.key + p[k..] && q == m.key + q[k..];
    }
  }

  // ... and what is being written is settled by the new messages.
  lemma {:induction false} InMail(posts: seq<Post>, c: string, i: nat) returns (j: nat)
    requires i < |posts| && posts[i].caller == c
    ensures j < |Mail(posts, c)| && Mail(posts, c)[j] == posts[i].message
    decreases i
  {
    if i == 0 {
      j := 0;
    } else {
      j := InMail(posts[1..], c, i - 1);
      j := j + if posts[0].caller == c then 1 else 0;
    }
  }

  lemma {:induction false} FromMail(posts: seq<Post>, c: string, j: nat) returns (i: nat)
    requires j < |Mail(posts, c)|
    ensures i < |posts| && posts[i].caller == c && posts[i].message == Mail(posts, c)[j]
    decreases |posts|
  {
    if posts[0].caller == c && j == 0 {
      i := 0;
    } else {
      i := FromMail(posts[1..], c, if posts[0].caller == c then j - 1 else j);
      i := i + 1;
    }
  }

  // Every message sent for a change tells the truth about the new tree.
  lemma OwedTrue(tree: Value, p: Path, w: Change, t: Path, q: Path)
    requires Changed(tree, p, w).Ok? && Owed(t, p, w).Some? && Owed(t, p, w).value.key <= q
    ensures LeafAt(Owed(t, p, w).value.value, q[|Owed(t, p, w).value.key|..]) == LeafAt(Changed(tree, p, w).value, q)
  {
    ChangedLeaves(tree, p, w, q);
    if !(t <= p) {
      LookupLeaves(Content(w), t[|p|..], q[|t|..]);
      assert t[|p|..] + q[|t|..] == q[|p|..];
    }
  }

  lemma MailOwed(posts: seq<Post>, subs: set<(string, Path)>, writer: string, p: Path, w: Change, c: string,
                 mail: seq<Message>)
    requires FanOut(subs, writer, p, w, posts) && mail == Mail(posts, c)
    ensures forall j :: 0 <= j < |mail| ==> exists t: Path :: Owed(t, p, w) == Some(mail[j])
  {
    forall j | 0 <= j < |mail|
      ensures exists t: Path :: Owed(t, p, w) == Some(mail[j])
    {
      var i := FromMail(posts, c, j);
      assert Owed(posts[i].sub, p, w) == Some(mail[j]);
    }
  }

  // A subscription that is owed a message is told the truth about every leaf concerned.
  lemma ToldAgrees(a: System, step: Step, b: System, c: string, s: Path, q: Path, now: (Option<Value>, bool))
    requires step.Write? && Next(a, step, b) && step.writer != c && !Private(step.key)
    requires (c, s) in a.subs && s <= q && (step.key <= q || q <= step.key) && Owed(s, step.key, step.change).Some?
    ensures Agrees(Outlook(now, Mail(step.posts, c), s, q), LeafAt(b.tree, q))
  {
    var p, w, mail := step.key, step.change, Mail(step.posts, c);
    MailOwed(step.posts, a.subs, step.writer, p, w, c, mail);
    ChangedLeaves(a.tree, p, w, q);
    forall j | 0 <= j < |mail| && Says(mail[j], s, q)
      ensures LeafAt(mail[j].value, q[|mail[j].key|..]) == LeafAt(b.tree, q)
    {
      var t: Path :| Owed(t, p, w) == Some(mail[j]);
      OwedTrue(a.tree, p, w, t, q);
    }
    var i :| 0 <= i < |step.posts| && step.posts[i].caller == c && step.posts[i].sub == s;
    var j := InMail(step.posts, c, i);
    assert Says(mail[j], s, q) || Blocks(mail[j], s, q);
    Settled(now, mail, s, q, LeafAt(b.tree, q));
  }

  // Private names are reached from the root only.
  lemma PrivateReach(p: Path, s: Path, q: Path, k: Path)
    requires Private(p) && !Private(s) && s <= q && (p <= q || q <= p) && q != []
    requires !Private(k)
    ensures s == []
    ensures k != [] ==> !(k <= q) && !(q <= k)
  {
    assert p[0] == q[0];
  }

  lemma WholeDict(tree: Value, p: Path, w: Change, q: Path)
    requires tree.Dict? && Private(p) && LeafWrite(LeafAt(tree, q), p, Content(w), q) != LeafAt(tree, q)
    ensures q != [] && (p <= q || q <= p)
  {
  }

  lemma {:induction false} LastWholeAt(queue: seq<Message>) returns (j: nat)
    requires !Partial(queue)
    ensures j < |queue| && queue[j].key == [] && Partial(queue[j + 1..])
    decreases |queue|
  {
    var n := |queue| - 1;
    if queue[n].key == [] {
      j := n;
    } else {
      j := LastWholeAt(queue[..n]);
      var rest := queue[j + 1..];
      forall i | 0 <= i < |rest|
        ensures rest[i].key != []
      {
        assert i < n - j - 1 ==> rest[i] == queue[..n][j + 1..][i];
      }
    }
  }

  // A private name that changes a leaf is told with the tree itself or not at all.
  lemma PrivateOutlook(a: System, step: Step, b: System, c: string, s: Path, q: Path)
    requires step.Write? && Next(a, step, b) && step.writer != c && Private(step.key)
    requires Attuned(a, c) && Referring(a, c) && (c, s) in a.subs && s <= q
    requires LeafAt(b.tree, q) != LeafAt(a.tree, q)
    ensures Attuned(b, c) ==> Entry(b.nodes[c].cache, s).Some?
    ensures var now, queue := Now(a.nodes[c], s, q), a.nodes[c].queue;
      Outlook(now, RefreshAll(queue, step.key, step.change), s, q) ==
        if Partial(queue) then Outlook(now, queue, s, q) else (LeafAt(b.tree, q), false)
  {
    hide LeafAt, Changed, FanOut, Refresh;
    var p, w, queue, now := step.key, step.change, a.nodes[c].queue, Now(a.nodes[c], s, q);
    var kept := RefreshAll(queue, p, w);
    ChangedLeaves(a.tree, p, w, q);
    WholeDict(a.tree, p, w, q);
    forall i | 0 <= i < |queue|
      ensures s == [] && kept[i].key == queue[i].key
      ensures queue[i].key != [] ==> !(queue[i].key <= q) && !(q <= queue[i].key)
    {
      PrivateReach(p, s, q, queue[i].key);
      RefreshKey(queue[i], p, w);
    }
    if Partial(queue) {
      OutlookUntouched(now, queue, s, q);
      OutlookUntouched(now, kept, s, q);
    } else {
      var j := LastWholeAt(queue);
      forall i | j < i < |queue|
        ensures kept[i].key != []
      {
        assert queue[j + 1..][i - j - 1] == queue[i];
      }
      WholeRefreshed(queue[j], a.tree, p, w);
      WholeSettles(now, kept, j, q);
    }
  }

  lemma RefreshKey(m: Message, p: Path, w: Change)
    ensures Refresh(m, p, w).key == m.key
  {
  }

  lemma WholeRefreshed(m: Message, tree: Value, p: Path, w: Change)
    requires m.key == [] && m.shared && SharesTree(m, tree) && p != [] && Changed(tree, p, w).Ok?
    ensures Refresh(m, p, w).value == Changed(tree, p, w).value
  {
    assert p[0..] == p;
  }

  lemma PrivateAgrees(a: System, step: Step, b: System, c: string, s: Path, q: Path)
    requires step.Write? && Next(a, step, b) && step.writer != c && Private(step.key)
    requires Attuned(a, c) && Referring(a, c) && (c, s) in a.subs && s <= q && AgreesAt(a, c, s, q)
    ensures AgreesAt(b, c, s, q) <==> !SilentAt(a.tree, a.nodes[c].queue, step.key, step.change, s, q)
  {
    hide LeafAt, Changed, FanOut, Referring, RefreshAll;
    var p, w, now := step.key, step.change, Now(a.nodes[c], s, q);
    PrivateMail(a, step, b, c);
    ChangedLeaves(a.tree, p, w, q);
    PrivateAbove(p, s);
    if LeafAt(b.tree, q) == LeafAt(a.tree, q) {
      RefreshKeeps(now, now, a.nodes[c].queue, p, w, s, q, LeafAt(a.tree, q));
    } else {
      PrivateOutlook(a, step, b, c, s, q);
      if Partial(a.nodes[c].queue) {
        NoDemand(a, step, b, c, s, q);
      }
    }
  }

  lemma PrivateAbove(p: Path, s: Path)
    requires Private(p) && !Private(s)
    ensures !(p <= s)
  {
  }

  lemma PrivateMail(a: System, step: Step, b: System, c: string)
    requires step.Write? && Next(a, step, b) && step.writer != c && Private(step.key) && c in a.nodes
    ensures b.nodes[c].queue == RefreshAll(a.nodes[c].queue, step.key, step.change)
    ensures b.nodes[c].cache == a.nodes[c].cache
  {
    assert Mail([], c) == [];
    var kept := RefreshAll(a.nodes[c].queue, step.key, step.change);
    assert kept + [] == kept;
  }

  // Without such an update nothing demands a dict there either.
  lemma NoDemand(a: System, step: Step, b: System, c: string, s: Path, q: Path)
    requires step.Write? && Next(a, step, b) && step.writer != c && Private(step.key)
    requires Attuned(a, c) && Referring(a, c) && (c, s) in a.subs && s <= q
    requires LeafAt(b.tree, q) != LeafAt(a.tree, q) && Partial(a.nodes[c].queue)
    ensures !Outlook(Now(a.nodes[c], s, q), a.nodes[c].queue, s, q).1
  {
    hide LeafAt, Changed, FanOut;
    var queue := a.nodes[c].queue;
    ChangedLeaves(a.tree, step.key, step.change, q);
    WholeDict(a.tree, step.key, step.change, q);
    forall i | 0 <= i < |queue|
      ensures !(queue[i].key <= q) && !(q <= queue[i].key)
    {
      PrivateReach(step.key, s, q, queue[i].key);
    }
    OutlookUntouched(Now(a.nodes[c], s, q), queue, s, q);
  }

  // Where the change does not reach, the outlook stays as it was.
  lemma UnreachedAgrees(a: System, step: Step, b: System, c: string, s: Path, q: Path)
    requires step.Write? && Next(a, step, b) && step.writer != c && !Private(step.key)
    requires Attuned(a, c) && (c, s) in a.subs && s <= q && AgreesAt(a, c, s, q)
    requires !(step.key <= q) && !(q <= step.key)
    ensures AgreesAt(b, c, s, q)
  {
    var p, w, now := step.key, step.change, Now(a.nodes[c], s, q);
    var before, mail := a.nodes[c].queue, Mail(step.posts, c);
    var kept := RefreshAll(before, p, w);
    assert b.nodes[c].queue == kept + mail && b.nodes[c].cache == a.nodes[c].cache;
    OutlookConcat(now, kept, mail, s, q);
    ChangedLeaves(a.tree, p, w, q);
    forall i, n | 0 <= i < |before| { RefreshBeside(before[i], p, w, s, q, n); }
    OutlookSame(now, kept, s, before, s, q);
    MailOwed(step.posts, a.subs, step.writer, p, w, c, mail);
    MailBeside(mail, p, w, s, q);
    OutlookUntouched(Outlook(now, kept, s, q), mail, s, q);
  }

  // A non-dict written above a subscription is not told to it: nothing is lost if the
  // master had no leaf there, or if the node will not be able to keep it.
  lemma UntoldAgrees(a: System, step: Step, b: System, c: string, s: Path, q: Path)
    requires step.Write? && Next(a, step, b) && step.writer != c && !Private(step.key)
    requires Attuned(a, c) && (c, s) in a.subs && s <= q && AgreesAt(a, c, s, q)
    requires (step.key <= q || q <= step.key) && Owed(s, step.key, step.change) == None
    ensures AgreesAt(b, c, s, q) <==> !SilentAt(a.tree, a.nodes[c].queue, step.key, step.change, s, q)
  {
    var p, w, now := step.key, step.change, Now(a.nodes[c], s, q);
    var before, mail := a.nodes[c].queue, Mail(step.posts, c);
    var kept := RefreshAll(before, p, w);
    assert b.nodes[c].queue == kept + mail && b.nodes[c].cache == a.nodes[c].cache;
    OutlookConcat(now, kept, mail, s, q);
    ChangedLeaves(a.tree, p, w, q);
    Chain(s, p, q);
    forall i, n | 0 <= i < |before| { RefreshBeside(before[i], p, w, s, q, n); }
    OutlookSame(now, kept, s, before, s, q);
    MailOwed(step.posts, a.subs, step.writer, p, w, c, mail);
    OutlookUntouched(Outlook(now, kept, s, q), mail, s, q);
    OutlookDemands(now, before, s, q);
  }

  // A write leaves a node right about a leaf, as seen from one subscription, if and only if
  // it is not silent there.
  lemma WriteAgrees(a: System, step: Step, b: System, c: string, s: Path, q: Path)
    requires step.Write? && Next(a, step, b) && step.writer != c
    requires Attuned(a, c) && Referring(a, c) && (c, s) in a.subs && s <= q && AgreesAt(a, c, s, q)
    ensures AgreesAt(b, c, s, q) <==> !SilentAt(a.tree, a.nodes[c].queue, step.key, step.change, s, q)
  {
    hide SilentAt, AgreesAt, Referring;
    var p, w := step.key, step.change;
    if Private(p) {
      PrivateAgrees(a, step, b, c, s, q);
    } else if !(p <= q) && !(q <= p) {
      UnreachedAgrees(a, step, b, c, s, q);
      NotSilent(a.tree, a.nodes[c].queue, p, w, s, q);
    } else if Owed(s, p, w) == None {
      UntoldAgrees(a, step, b, c, s, q);
    } else {
      OwedAgrees(a, step, b, c, s, q);
      NotSilent(a.tree, a.nodes[c].queue, p, w, s, q);
    }
  }

  lemma NotSilent(tree: Value, queue: seq<Message>, p: Path, w: Change, s: Path, q: Path)
    requires s <= q && !Private(p) && ((!(p <= q) && !(q <= p)) || Owed(s, p, w).Some?)
    ensures !SilentAt(tree, queue, p, w, s, q)
  {
  }

  // Whatever was believed and queued before, a subscription that is owed a message about
  // the leaf is put right.
  lemma OwedAgrees(a: System, step: Step, b: System, c: string, s: Path, q: Path)
    requires step.Write? && Next(a, step, b) && step.writer != c && !Private(step.key)
    requires Attuned(a, c) && (c, s) in a.subs && s <= q
    requires (step.key <= q || q <= step.key) && Owed(s, step.key, step.change).Some?
    ensures Entry(b.nodes[c].cache, s).Some? && AgreesAt(b, c, s, q)
  {
    var kept := RefreshAll(a.nodes[c].queue, step.key, step.change);
    assert b.nodes[c].queue == kept + Mail(step.posts, c);
    OutlookConcat(Now(a.nodes[c], s, q), kept, Mail(step.posts, c), s, q);
    ToldAgrees(a, step, b, c, s, q, Outlook(Now(a.nodes[c], s, q), kept, s, q));
  }

  lemma MailBeside(mail: seq<Message>, p: Path, w: Change, s: Path, q: Path)
    requires !(p <= q) && !(q <= p)
    requires forall j :: 0 <= j < |mail| ==> exists t: Path :: Owed(t, p, w) == Some(mail[j])
    ensures forall j :: 0 <= j < |mail| ==> !(s <= mail[j].key && (mail[j].key <= q || q <= mail[j].key))
  {
    forall j | 0 <= j < |mail|
      ensures !(mail[j].key <= q) && !(q <= mail[j].key)
    {
      var t: Path :| Owed(t, p, w) == Some(mail[j]);
      assert p <= mail[j].key;
      NotBeside(p, mail[j].key, q);
    }
  }

  lemma NotBeside(p: Path, k: Path, q: Path)
    requires p <= k && !(p <= q) && !(q <= p)
    ensures !(k <= q) && !(q <= k)
  {
    assert p == k[..|p|];
  }

  // Two prefixes of one path, or two paths of which one is a prefix of a third's prefix.
  lemma Chain(s: Path, p: Path, q: Path)
    requires s <= q && (p <= q || q <= p)
    ensures s <= p || p <= s
  {
    assert s == q[..|s|];
    if p <= q {
      assert p == q[..|p|];
    }
  }

  // Below a common prefix, prefixes are those of what is left.
  lemma Relative(s: Path, k: Path, q: Path)
    requires s <= k && s <= q
    ensures k[..|s|] == s
    ensures k[|s|..] <= q[|s|..] <==> k <= q
    ensures q[|s|..] <= k[|s|..] <==> q <= k
    ensures k <= q ==> q[|s|..][|k| - |s|..] == q[|k|..]
    ensures q <= k ==> q[|s|..] == k[|s|..][..|q| - |s|]
  {
    assert k == s + k[|s|..] && q == s + q[|s|..];
  }

  // What taking in an update does to one leaf of one entry.
  lemma WrittenLeaf(v: Value, s: Path, k: Path, x: Value, q: Path)
    requires s <= k && s <= q
    ensures LeafAt(SetAt(v, k[|s|..], x), q[|s|..]) == LeafWrite(LeafAt(v, q[|s|..]), k, x, q)
    ensures q <= k && q != k && Walkable(v, k[|s|..]) ==> LeafAt(v, q[|s|..]) == None
  {
    Relative(s, k, q);
    SetAtLeaves(v, k[|s|..], x, q[|s|..]);
    WalkableIffNoLeafAbove(v, k[|s|..]);
  }

  lemma DeliverAgrees(a: System, step: Step, b: System, c: string, s: Path, q: Path)
    requires step == Deliver(c) && Next(a, step, b)
    requires Attuned(a, c) && (c, s) in a.subs && s <= q && AgreesAt(a, c, s, q)
    ensures Entry(b.nodes[c].cache, s).Some? && AgreesAt(b, c, s, q)
  {
    hide Patched, SetAt, Walkable, LeafAt;
    var m, rest := a.nodes[c].queue[0], a.nodes[c].queue[1..];
    var leaf := LeafAt(a.tree, q);
    assert Wanted(a.subs, c, m.key);
    PatchedEntries(a.nodes[c].cache, m.key, m.value, 0, s);
    var v := Entry(a.nodes[c].cache, s).value;
    if s <= m.key {
      Relative(s, m.key, q);
      WrittenLeaf(v, s, m.key, m.value, q);
      if q <= m.key && q != m.key {
        Unflagged(rest, s, q, leaf);
      }
    }
  }

  lemma SubscribeAgrees(a: System, step: Step, b: System, c: string, s: Path, q: Path)
    requires step == Subscribe(c, s) && Next(a, step, b) && CoherentAt(a, c, q) && s <= q
    ensures Entry(b.nodes[c].cache, s).Some? && AgreesAt(b, c, s, q)
  {
    var queue := a.nodes[c].queue;
    var leaf := LeafAt(a.tree, q);
    LookupLeaves(a.tree, s, q[|s|..]);
    assert s + q[|s|..] == q;
    assert Now(b.nodes[c], s, q) == (leaf, false);
    var t := FirstSubscribed(a, c, q, 0);
    match t
    case Some(i) =>
      var s0 := q[..i];
      assert AgreesAt(a, c, s0, q);
      Restarted(Now(a.nodes[c], s0, q), queue, s0, q, leaf);
      assert s <= s0 by {
        assert forall k :: 0 <= k <= |s| ==> s[..k] == q[..k];
        assert Entry(a.nodes[c].cache, q[..i]).Some?;
      }
      forall j, n | 0 <= j < |queue|
        ensures Effect(n, queue[j], s, q) == Effect(n, queue[j], s0, q)
      {
        var k := queue[j].key;
        assert Wanted(a.subs, c, k);
        var s1: Path :| (c, s1) in a.subs && s1 <= k;
        if k <= q || q <= k {
          Reaches(s1, k, q, i);
        }
      }
      OutlookSame((leaf, false), queue, s, queue, s0, q);
    case None =>
      forall j | 0 <= j < |queue|
        ensures !Says(queue[j], s, q)
      {
        var k := queue[j].key;
        assert Wanted(a.subs, c, k);
        var s1: Path :| (c, s1) in a.subs && s1 <= k;
        PrefixThrough(s1, k, q);
        assert |s1| <= |q| ==> (c, q[..|s1|]) !in a.subs;
      }
      Unsaid((leaf, false), queue, s, q);
  }

  // The shortest subscribed prefix of q.
  ghost function FirstSubscribed(a: System, c: string, q: Path, i: nat): (r: Option<nat>)
    requires i <= |q| + 1
    ensures r.Some? ==> i <= r.value <= |q| && (c, q[..r.value]) in a.subs
    ensures forall k :: i <= k < (if r.Some? then r.value else |q| + 1) ==> (c, q[..k]) !in a.subs
    decreases |q| + 1 - i
  {
    if i > |q| then None
    else if (c, q[..i]) in a.subs then Some(i)
    else FirstSubscribed(a, c, q, i + 1)
  }

  lemma PrefixThrough(s: Path, k: Path, q: Path)
    requires s <= k
    ensures k <= q ==> |s| <= |q| && s == q[..|s|]
  {
  }

  lemma Reaches(s1: Path, k: Path, q: Path, i: nat)
    requires s1 <= k && (k <= q || q <= k) && i <= |q|
    requires |s1| <= |q| ==> i <= |s1| || s1 != q[..|s1|]
    ensures q[..i] <= k
  {
    if k <= q {
      assert s1 == q[..|s1|];
      assert k == q[..|k|];
    }
  }

  // ----- runs -----

  lemma AttunedWrite(a: System, step: Step, b: System, c: string)
    requires step.Write? && Next(a, step, b) && Attuned(a, c) && step.writer != c
    ensures Attuned(b, c)
  {
    var queue, n := b.nodes[c].queue, |a.nodes[c].queue|;
    forall i | 0 <= i < |queue|
      ensures Wanted(b.subs, c, queue[i].key)
    {
      if i < n {
        assert Wanted(a.subs, c, a.nodes[c].queue[i].key);
      } else {
        var j := FromMail(step.posts, c, i - n);
        assert (c, step.posts[j].sub) in a.subs;
        assert step.posts[j].sub <= queue[i].key;
      }
    }
  }

  lemma AttunedSubscribe(a: System, step: Step, b: System, c: string)
    requires step.Subscribe? && Next(a, step, b) && Attuned(a, c)
    ensures Attuned(b, c)
  {
    forall i | 0 <= i < |b.nodes[c].queue|
      ensures Wanted(b.subs, c, b.nodes[c].queue[i].key)
    {
      assert Wanted(a.subs, c, a.nodes[c].queue[i].key);
      var t: Path :| (c, t) in a.subs && t <= a.nodes[c].queue[i].key;
      assert (c, t) in b.subs;
    }
    forall t: Path | Segments(t)
      ensures Entry(b.nodes[c].cache, t).Some? <==> (c, t) in b.subs
    {
      SplitSlashed(t);
      SplitSlashed(step.key);
    }
  }

  lemma AttunedDeliver(a: System, step: Step, b: System, c: string)
    requires (step.Deliver? || step.Lose?) && Next(a, step, b) && Attuned(a, c)
    ensures Attuned(b, c)
  {
    if step.caller == c {
      var m := a.nodes[c].queue[0];
      PatchedKeys(a.nodes[c].cache, m.key, m.value, 0);
      forall i | 0 <= i < |b.nodes[c].queue|
        ensures Wanted(b.subs, c, b.nodes[c].queue[i].key)
      {
        assert b.nodes[c].queue[i] == a.nodes[c].queue[i + 1];
      }
    }
  }

  lemma AttunedNext(a: System, step: Step, b: System, c: string)
    requires Next(a, step, b) && Attuned(a, c) && (step.Write? ==> step.writer != c)
    ensures Attuned(b, c)
  {
    hide Attuned;
    match step
    case Write(_, _, _, _) => AttunedWrite(a, step, b, c);
    case Subscribe(_, _) => AttunedSubscribe(a, step, b, c);
    case Deliver(_) => AttunedDeliver(a, step, b, c);
    case Lose(_) => AttunedDeliver(a, step, b, c);
  }

  // What could put a node out of step at a leaf: a silent write, or an update lost that
  // speaks of the leaf or demands a dict there.
  ghost predicate Spares(a: System, step: Step, c: string, q: Path)
    requires c in a.nodes
  {
    match step
    case Write(_, p, w, _) => !Silent(a, c, p, w, q)
    case Subscribe(_, _) => true
    case Deliver(_) => true
    case Lose(d) =>
      d == c && a.nodes[c].queue != [] ==> !(a.nodes[c].queue[0].key <= q) && !(q <= a.nodes[c].queue[0].key)
  }

  lemma WriteCoherent(a: System, step: Step, b: System, c: string, q: Path)
    requires step.Write? && Next(a, step, b) && step.writer != c && CoherentAt(a, c, q) && Referring(a, c)
    ensures CoherentAt(b, c, q) <==> !Silent(a, c, step.key, step.change, q)
  {
    hide Attuned, AgreesAt, SilentAt, Referring;
    AttunedWrite(a, step, b, c);
    WriteSubs(a, step, b, c);
    forall s: Path | (c, s) in a.subs && s <= q
      ensures AgreesAt(a, c, s, q)
      ensures AgreesAt(b, c, s, q) <==> !SilentAt(a.tree, a.nodes[c].queue, step.key, step.change, s, q)
    {
      WriteAgrees(a, step, b, c, s, q);
    }
  }

  lemma WriteSubs(a: System, step: Step, b: System, c: string)
    requires step.Write? && Next(a, step, b) && Attuned(a, c) && Attuned(b, c)
    ensures b.subs == a.subs
    ensures forall s: Path :: (c, s) in a.subs ==> Entry(a.nodes[c].cache, s).Some? && Entry(b.nodes[c].cache, s).Some?
  {
    hide Changed, FanOut, Mail, RefreshAll;
  }

  // Every step that spares the leaf keeps the node coherent there.
  lemma CoherentNext(a: System, step: Step, b: System, c: string, q: Path)
    requires Next(a, step, b) && CoherentAt(a, c, q) && Referring(a, c)
    requires (step.Write? ==> step.writer != c) && Spares(a, step, c, q)
    ensures CoherentAt(b, c, q)
  {
    hide Referring;
    if step.Write? {
      WriteCoherent(a, step, b, c, q);
    } else {
      AttunedNext(a, step, b, c);
      forall s: Path | (c, s) in b.subs && s <= q
        ensures AgreesAt(b, c, s, q)
      {
        if step == Deliver(c) {
          DeliverAgrees(a, step, b, c, s, q);
        } else if step == Subscribe(c, s) {
          SubscribeAgrees(a, step, b, c, s, q);
        } else {
          assert AgreesAt(a, c, s, q);
          if step.Subscribe? && step.caller == c {
            SplitSlashed(s);
            SplitSlashed(step.key);
          }
        }
      }
    }
  }

  // A write that all subscriptions above the leaf are owed a message about.
  predicate Restores(a: System, step: Step, c: string, q: Path) {
    && step.Write? && !Private(step.key) && (step.key <= q || q <= step.key)
    && forall k | k in a.subs && k.0 == c && k.1 <= q :: Owed(k.1, step.key, step.change).Some?
  }

  // It puts the node in step there, whatever was believed and queued before.
  lemma RestoredNext(a: System, step: Step, b: System, c: string, q: Path)
    requires Next(a, step, b) && Attuned(a, c) && Restores(a, step, c, q) && step.writer != c
    ensures CoherentAt(b, c, q)
  {
    hide Attuned, AgreesAt;
    AttunedWrite(a, step, b, c);
    WriteSubs(a, step, b, c);
    forall s: Path | (c, s) in b.subs && s <= q
      ensures AgreesAt(b, c, s, q)
    {
      assert ((c, s)).1 == s;
      OwedAgrees(a, step, b, c, s, q);
    }
  }

  ghost predicate SystemRun(states: seq<System>, steps: seq<Step>) {
    && |states| == |steps| + 1
    && Init(states[0])
    && forall i :: 0 <= i < |steps| ==> Next(states[i], steps[i], states[i + 1])
  }

  // Until then c does not write.
  predicate Listens(steps: seq<Step>, c: string, n: nat)
    requires n <= |steps|
  {
    forall i :: 0 <= i < n && steps[i].Write? ==> steps[i].writer != c
  }

  // Starting from where the node has not subscribed above the leaf, or where it is told of
  // it, no step puts it out of step there. What happens to other leaves does not matter.
  ghost predicate Spared(states: seq<System>, steps: seq<Step>, c: string, from: nat, n: nat, q: Path)
    requires from <= n <= |steps| < |states|
  {
    && (Unasked(states[from], c, q) || (from < n && Restores(states[from], steps[from], c, q)))
    && forall i :: from <= i < n ==> c in states[i].nodes && Spares(states[i], steps[i], c, q)
  }

  predicate Unasked(a: System, c: string, q: Path) {
    forall k | k in a.subs && k.0 == c :: !(k.1 <= q)
  }

  lemma {:induction false} RunAttuned(states: seq<System>, steps: seq<Step>, c: string, n: nat)
    requires SystemRun(states, steps) && c in states[0].nodes && n <= |steps| && Listens(steps, c, n)
    ensures Attuned(states[n], c) && Referring(states[n], c)
    decreases n
  {
    hide Next, Attuned, Referring;
    if n > 0 {
      RunAttuned(states, steps, c, n - 1);
      AttunedOnRecord(states[n - 1], c);
      AttunedNext(states[n - 1], steps[n - 1], states[n], c);
      AttunedOnRecord(states[n], c);
      ReferringNext(states[n - 1], steps[n - 1], states[n], c);
    } else {
      StartAttuned(states[0], c);
    }
  }

  lemma AttunedOnRecord(a: System, c: string)
    requires Attuned(a, c)
    ensures c in a.nodes
  {
  }

  lemma StartAttuned(a: System, c: string)
    requires Init(a) && c in a.nodes
    ensures Attuned(a, c) && Referring(a, c)
  {
  }

  lemma {:induction false} RunCoherent(states: seq<System>, steps: seq<Step>, c: string, from: nat, n: nat, q: Path)
    requires SystemRun(states, steps) && c in states[0].nodes && from <= n <= |steps| && Listens(steps, c, n)
    requires Spared(states, steps, c, from, n, q)
    ensures CoherentAt(states[n], c, q)
    decreases n
  {
    hide Next, Attuned, Referring, CoherentAt, Spares, Restores;
    if n == from {
      RunAttuned(states, steps, c, n);
      UnaskedCoherent(states[n], c, q);
    } else {
      RunAttuned(states, steps, c, n - 1);
      if Restores(states[n - 1], steps[n - 1], c, q) {
        WritesAlone(steps[n - 1], states[n - 1], c, q);
        RestoredNext(states[n - 1], steps[n - 1], states[n], c, q);
      } else {
        RunCoherent(states, steps, c, from, n - 1, q);
        CoherentNext(states[n - 1], steps[n - 1], states[n], c, q);
      }
    }
  }

  lemma WritesAlone(step: Step, a: System, c: string, q: Path)
    requires Restores(a, step, c, q)
    ensures step.Write?
  {
  }

  lemma UnaskedCoherent(a: System, c: string, q: Path)
    requires Attuned(a, c) && Unasked(a, c, q)
    ensures CoherentAt(a, c, q)
  {
    hide Attuned;
    forall s: Path | (c, s) in a.subs
      ensures !(s <= q)
    {
      assert ((c, s)).1 == s;
    }
  }

  // In every reachable state, a node with a drained queue holds at each of its
  // subscriptions the master's leaf, at every path that has been spared.
  lemma DrainedLeaf(states: seq<System>, steps: seq<Step>, c: string, from: nat, n: nat, s: Path, q: Path)
    requires SystemRun(states, steps) && c in states[0].nodes && from <= n <= |steps| && Listens(steps, c, n)
    requires Spared(states, steps, c, from, n, q)
    requires c in states[n].nodes && states[n].nodes[c].queue == [] && (c, s) in states[n].subs && s <= q
    ensures Entry(states[n].nodes[c].cache, s).Some?
    ensures LeafAt(Entry(states[n].nodes[c].cache, s).value, q[|s|..]) == LeafAt(states[n].tree, q)
  {
    hide Next, Spared;
    RunCoherent(states, steps, c, from, n, q);
    assert AgreesAt(states[n], c, s, q);
  }

  // So it holds the leaf map the master holds there.
  lemma DrainedMirrors(states: seq<System>, steps: seq<Step>, c: string, from: nat, n: nat, s: Path)
    requires SystemRun(states, steps) && c in states[0].nodes && from <= n <= |steps| && Listens(steps, c, n)
    requires forall q: Path :: s <= q ==> Spared(states, steps, c, from, n, q)
    requires c in states[n].nodes && states[n].nodes[c].queue == [] && (c, s) in states[n].subs
    ensures Entry(states[n].nodes[c].cache, s).Some?
    ensures SameLeaves(Entry(states[n].nodes[c].cache, s).value, Reply(states[n].tree, s))
  {
    hide Next, Spared;
    var a := states[n];
    DrainedLeaf(states, steps, c, from, n, s, s);
    forall r: Path
      ensures LeafAt(Entry(a.nodes[c].cache, s).value, r) == LeafAt(Reply(a.tree, s), r)
    {
      DrainedLeaf(states, steps, c, from, n, s, s + r);
      assert (s + r)[|s|..] == r;
      LookupLeaves(a.tree, s, r);
    }
  }

  // And so whatever such a node reads from its cache has the leaves of what the master
  // would answer.
  lemma DrainedReads(states: seq<System>, steps: seq<Step>, c: string, from: nat, n: nat, p: Path, q: Path)
    requires SystemRun(states, steps) && c in states[0].nodes && from <= n <= |steps| && Listens(steps, c, n)
    requires Spared(states, steps, c, from, n, p + q)
    requires c in states[n].nodes && states[n].nodes[c].queue == []
    requires Segments(p) && Covering(states[n].nodes[c].cache, p, 0).Some?
    ensures LeafAt(states[n].tree, p + q) ==
            if Read(states[n].nodes[c].cache, p).Ok? then LeafAt(Read(states[n].nodes[c].cache, p).value, q) else None
  {
    hide Next, Spared, Referring;
    var a := states[n];
    RunAttuned(states, steps, c, n);
    var j := Covering(a.nodes[c].cache, p, 0).value;
    assert Segments(p[..j]) && (c, p[..j]) in a.subs;
    DrainedLeaf(states, steps, c, from, n, p[..j], p + q);
    var v := Entry(a.nodes[c].cache, p[..j]).value;
    assert (p + q)[j..] == p[j..] + q;
    LookupLeaves(v, p[j..], q);
  }

  // What the node has at a leaf.
  ghost predicate HasLeaf(n: Node, s: Path, q: Path) {
    Entry(n.cache, s).Some? && s <= q && LeafAt(Entry(n.cache, s).value, q[|s|..]).Some?
  }

  // Whatever is queued, a node can take in an update of a key exactly if it has no leaf
  // strictly above it.
  lemma DeliveryExact(a: System, c: string, k: Path, x: Value)
    requires Attuned(a, c) && Segments(k)
    ensures Patched(a.nodes[c].cache, k, x, 0).1 <==>
            forall s: Path, q: Path :: (c, s) in a.subs && s <= q && q <= k && q != k ==> !HasLeaf(a.nodes[c], s, q)
  {
    hide Patched, Walkable, HasLeaf;
    var n := a.nodes[c];
    PatchedEntries(n.cache, k, x, 0, k);
    forall s: Path | (c, s) in a.subs && s <= k
      ensures Entry(n.cache, s).Some? && s == k[..|s|]
      ensures Walkable(Entry(n.cache, s).value, k[|s|..]) <==>
              forall q: Path :: s <= q && q <= k && q != k ==> !HasLeaf(n, s, q)
    {
      WalkableAt(n, s, k);
    }
    forall i | 0 <= i <= |k| && Entry(n.cache, k[..i]).Some?
      ensures (c, k[..i]) in a.subs && k[..i] <= k
    {
      assert Segments(k[..i]);
    }
    forall s: Path | (c, s) in a.subs && !(s <= k)
      ensures forall q: Path :: s <= q && q <= k && q != k ==> !HasLeaf(n, s, q)
    {
    }
  }

  lemma WalkableAt(n: Node, s: Path, k: Path)
    requires Entry(n.cache, s).Some? && s <= k
    ensures Walkable(Entry(n.cache, s).value, k[|s|..]) <==>
            forall q: Path :: s <= q && q <= k && q != k ==> !HasLeaf(n, s, q)
  {
    hide LeafAt, Walkable, Slashed, Entry;
    var v, r := Entry(n.cache, s).value, k[|s|..];
    WalkableIffNoLeafAbove(v, r);
    forall q: Path | s <= q && q <= k && q != k
      ensures HasLeaf(n, s, q) <==> LeafAt(v, r[..|q| - |s|]).Some?
    {
      assert r[..|q| - |s|] == q[|s|..];
    }
    forall i | 0 <= i < |r|
      ensures HasLeaf(n, s, k[..|s| + i]) <==> LeafAt(v, r[..i]).Some?
    {
      assert r[..i] == k[..|s| + i][|s|..];
    }
  }

  // At a leaf about which nothing is queued, that is what the master has.
  lemma QuietLeaf(a: System, c: string, s: Path, q: Path)
    requires CoherentAt(a, c, q) && (c, s) in a.subs && s <= q
    requires forall i :: 0 <= i < |a.nodes[c].queue| ==>
      !(a.nodes[c].queue[i].key <= q) && !(q <= a.nodes[c].queue[i].key)
    ensures HasLeaf(a.nodes[c], s, q) <==> LeafAt(a.tree, q).Some?
  {
    assert AgreesAt(a, c, s, q);
    OutlookUntouched(Now(a.nodes[c], s, q), a.nodes[c].queue, s, q);
  }

  // The hypothesis about silent writes is exact, whatever is queued: a node in step with the
  // master at a leaf stays so if and only if the write is not silent there.
  lemma SilentBreaks(states: seq<System>, steps: seq<Step>, c: string, n: nat, q: Path)
    requires SystemRun(states, steps) && c in states[0].nodes && n < |steps| && Listens(steps, c, n + 1)
    requires c in states[n].nodes && steps[n].Write? && CoherentAt(states[n], c, q)
    ensures CoherentAt(states[n + 1], c, q) <==> !Silent(states[n], c, steps[n].key, steps[n].change, q)
  {
    hide Next, CoherentAt, Referring, Attuned, Silent;
    RunAttuned(states, steps, c, n);
    assert Next(states[n], steps[n], states[n + 1]);
    WriteCoherent(states[n], steps[n], states[n + 1], c, q);
  }

  // Such writes exist: a scalar stored over a dict of which a node mirrors one entry.
  const TREE := Dict(map["a" := Dict(map["b" := Int(1)])])
  const MIRROR := Node(map["a/b" := Int(1)], [])
  const BEFORE := System(TREE, {("listener", ["a", "b"])}, map["listener" := MIRROR])
  const OVERWRITE := Step.Write("writer", ["a"], Put(Int(5)), [])
  const AFTER := BEFORE.(tree := Dict(map["a" := Int(5)]))

  lemma OverwriteExample()
    ensures Next(BEFORE, OVERWRITE, AFTER) && Coherent(BEFORE, "listener")
    ensures Silent(BEFORE, "listener", ["a"], Put(Int(5)), ["a", "b"])
    ensures Read(AFTER.nodes["listener"].cache, ["a", "b"]) == Ok(Int(1)) && Lookup(AFTER.tree, ["a", "b"]) == None
  {
    OverwriteNext();
    OverwriteCoherent();
    OverwriteSilent();
    OverwriteRead();
  }

  lemma OverwriteNext()
    ensures Next(BEFORE, OVERWRITE, AFTER)
  {
    var p, s := ["a"], ["a", "b"];
    assert p[1..] == [] && s[1..] == ["b"];
    assert TREE.items["a" := Int(5)] == map["a" := Int(5)];
    assert SetAt(TREE, p, Int(5)) == AFTER.tree;
    assert Owed(s, p, Put(Int(5))) == None;
    assert RefreshAll(MIRROR.queue, p, Put(Int(5))) + Mail([], "listener") == [];
  }

  lemma MirrorKey()
    ensures Slashed(["a", "b"]) == "a/b"
    ensures forall t: Path :: Segments(t) && Slashed(t) == "a/b" ==> t == ["a", "b"]
  {
    var s := ["a", "b"];
    assert s[1..] == ["b"] && Slashed(["b"]) == "b";
    assert Slashed(s) == "a" + "/" + "b" == "a/b";
    SplitSlashed(s);
    forall t: Path | Segments(t) && Slashed(t) == "a/b"
      ensures t == s
    {
      SplitSlashed(t);
      assert Slashed(t) == Slashed(s);
    }
  }

  lemma OverwriteLeaf()
    ensures Lookup(TREE, ["a", "b"]) == Some(Int(1)) && LeafAt(TREE, ["a", "b"]) == Some(Int(1))
  {
    assert ["a", "b"][1..] == ["b"] && ["b"][1..] == [];
  }

  lemma OverwriteCoherent()
    ensures Coherent(BEFORE, "listener")
  {
    hide Slashed, Lookup;
    var s := ["a", "b"];
    MirrorKey();
    OverwriteLeaf();
    forall q: Path | s <= q
      ensures AgreesAt(BEFORE, "listener", s, q)
    {
      LookupLeaves(TREE, s, q[2..]);
      assert s + q[2..] == q;
    }
    forall q: Path
      ensures CoherentAt(BEFORE, "listener", q)
    {
    }
  }

  lemma OverwriteSilent()
    ensures Silent(BEFORE, "listener", ["a"], Put(Int(5)), ["a", "b"])
  {
    OverwriteLeaf();
    assert SilentAt(TREE, [], ["a"], Put(Int(5)), ["a", "b"], ["a", "b"]);
  }

  lemma OverwriteRead()
    ensures Read(MIRROR.cache, ["a", "b"]) == Ok(Int(1)) && Lookup(AFTER.tree, ["a", "b"]) == None
  {
    var p, s := ["a"], ["a", "b"];
    MirrorKey();
    assert s[..0] == [] && s[..1] == p && s[..2] == s && s[2..] == [] && s[1..] == ["b"];
    SplitSlashed(p);
    SplitSlashed([]);
    SplitSlashed(s);
  }

  // ----- sharing -----

  // In every reachable state a shared message carries what the master holds at its key:
  // the refreshing of queued messages is what a reference to the stored dict amounts to.
  lemma {:induction false} RunShares(states: seq<System>, steps: seq<Step>, c: string, n: nat)
    requires SystemRun(states, steps) && n <= |steps| && c in states[n].nodes
    ensures Sharing(states[n].nodes[c].queue, states[n].tree)
    decreases n
  {
    hide Sharing, Next;
    if n == 0 {
      NothingShared(states[0], c);
    } else {
      var a, step, b := states[n - 1], steps[n - 1], states[n];
      assert Next(a, step, b);
      NodesRemain(a, step, b);
      RunShares(states, steps, c, n - 1);
      SharesNext(a, step, b, c);
    }
  }

  lemma SharesNext(a: System, step: Step, b: System, c: string)
    requires Next(a, step, b) && c in a.nodes && c in b.nodes && Sharing(a.nodes[c].queue, a.tree)
    ensures Sharing(b.nodes[c].queue, b.tree)
  {
    hide Sharing, Next;
    match step
    case Write(_, _, _, _) => WriteShares(a, step, b, c);
    case Subscribe(_, _) => SubscribeShares(a, step, b, c);
    case Deliver(_) => DeliverShares(a, step, b, c);
    case Lose(_) => DeliverShares(a, step, b, c);
  }

  lemma ReferringNext(a: System, step: Step, b: System, c: string)
    requires Next(a, step, b) && Attuned(a, c) && Referring(a, c) && c in b.nodes && (step.Write? ==> step.writer != c)
    ensures Referring(b, c)
  {
    hide Sharing, LastWhole, Attuned, FanOut, RefreshAll;
    SharesNext(a, step, b, c);
    if step.Write? {
      WholeNext(a, step, b, c);
    } else if step.caller == c && !step.Subscribe? {
      RestWhole(a.nodes[c].queue);
    }
  }

  lemma RestWhole(queue: seq<Message>)
    requires LastWhole(queue) && queue != []
    ensures LastWhole(queue[1..])
  {
    var rest := queue[1..];
    forall i | 0 <= i < |rest| && rest[i].key == [] && Partial(rest[i + 1..])
      ensures rest[i].shared
    {
      assert queue[i + 1] == rest[i] && queue[i + 2..] == rest[i + 1..];
    }
  }

  // The root is only ever replaced by a dict, which all who have subscribed to it are sent.
  lemma WholeNext(a: System, step: Step, b: System, c: string)
    requires step.Write? && Next(a, step, b) && step.writer != c && c in b.nodes && Attuned(a, c) && Referring(a, c)
    ensures b.tree.Dict? && LastWhole(b.nodes[c].queue)
  {
    hide Sharing, Attuned, FanOut, Addressed, Refresh, Owed, Mail;
    var queue, mail := a.nodes[c].queue, Mail(step.posts, c);
    var kept := RefreshAll(queue, step.key, step.change);
    WholeMail(a, step, b, c);
    var all: seq<Message> := kept + mail;
    forall i | 0 <= i < |all| && all[i].key == [] && Partial(all[i + 1..])
      ensures all[i].shared
    {
      if i < |kept| {
        forall j | i < j < |all|
          ensures all[j].key != []
        {
          assert all[i + 1..][j - i - 1] == all[j];
        }
        RestPartial(queue, kept, mail, i, step.key, step.change);
        RefreshKey(queue[i], step.key, step.change);
        assert queue[i].key == [] && queue[i].shared && !Partial(queue);
        WholeStays(queue[i], step.key, step.change);
        assert all[i] == kept[i] && kept[i].shared;
      } else {
        var k := i - |kept|;
        assert all[i] == mail[k] && mail[k].key == [];
        WholeShared(a, step, b, c, k);
      }
    }
  }

  lemma WholeStays(m: Message, p: Path, w: Change)
    requires m.key == [] && m.shared && p != []
    ensures Refresh(m, p, w).shared
  {
  }

  lemma RestPartial(queue: seq<Message>, kept: seq<Message>, mail: seq<Message>, i: nat, p: Path, w: Change)
    requires kept == RefreshAll(queue, p, w) && i < |kept|
    requires forall j :: i < j < |kept + mail| ==> (kept + mail)[j].key != []
    ensures Partial(queue[i + 1..]) && Partial(mail)
  {
    forall j | i < j < |queue|
      ensures queue[j].key != []
    {
      assert (kept + mail)[j] == kept[j];
    }
    forall j | 0 <= j < |mail|
      ensures mail[j].key != []
    {
      assert (kept + mail)[|kept| + j] == mail[j];
    }
  }

  lemma WholeShared(a: System, step: Step, b: System, c: string, i: nat)
    requires step.Write? && Next(a, step, b) && i < |Mail(step.posts, c)| && Mail(step.posts, c)[i].key == []
    ensures Mail(step.posts, c)[i].shared
  {
    hide Mail, Addressed;
    var j := FromMail(step.posts, c, i);
    assert Mail([], c) == [] by { NoMail(c); }
    assert Owed(step.posts[j].sub, step.key, step.change) == Some(Mail(step.posts, c)[i]);
  }

  lemma NoMail(c: string)
    ensures Mail([], c) == []
  {
  }

  lemma WholeMail(a: System, step: Step, b: System, c: string)
    requires step.Write? && Next(a, step, b) && step.writer != c && Attuned(a, c)
    ensures step.key == [] && !Partial(a.nodes[c].queue) ==> !Partial(Mail(step.posts, c))
  {
    hide Mail;
    var queue := a.nodes[c].queue;
    if step.key == [] && !Partial(queue) {
      var i :| 0 <= i < |queue| && queue[i].key == [];
      assert Wanted(a.subs, c, queue[i].key);
      assert (c, []) in a.subs && Delivered(step.posts, c, []);
      var j :| 0 <= j < |step.posts| && step.posts[j].caller == c && step.posts[j].sub == [];
      var k := InMail(step.posts, c, j);
    }
  }

  lemma NothingShared(a: System, c: string)
    requires c in a.nodes && a.nodes[c].queue == []
    ensures Sharing(a.nodes[c].queue, a.tree)
  {
  }

  lemma NodesRemain(a: System, step: Step, b: System)
    requires Next(a, step, b)
    ensures a.nodes.Keys == b.nodes.Keys
  {
    hide Changed, FanOut, Mail, RefreshAll;
  }

  lemma WriteShares(a: System, step: Step, b: System, c: string)
    requires Next(a, step, b) && step.Write? && c in a.nodes && c in b.nodes
    requires Sharing(a.nodes[c].queue, a.tree)
    ensures Sharing(b.nodes[c].queue, b.tree)
  {
    hide SharesTree, Changed, Refresh, Owed, Mail;
    var queue, posts := a.nodes[c].queue, step.posts;
    forall i | 0 <= i < |b.nodes[c].queue|
      ensures SharesTree(b.nodes[c].queue[i], b.tree)
    {
      if i < |queue| {
        RefreshShares(queue[i], a.tree, step.key, step.change);
      } else {
        var j := FromMail(posts, c, i - |queue|);
        OwedShares(a.tree, posts[j].sub, step.key, step.change);
      }
    }
  }

  lemma SubscribeShares(a: System, step: Step, b: System, c: string)
    requires Next(a, step, b) && step.Subscribe? && c in a.nodes && c in b.nodes
    requires Sharing(a.nodes[c].queue, a.tree)
    ensures Sharing(b.nodes[c].queue, b.tree)
  {
    hide SharesTree;
  }

  lemma DeliverShares(a: System, step: Step, b: System, c: string)
    requires Next(a, step, b) && (step.Deliver? || step.Lose?) && c in a.nodes && c in b.nodes
    requires Sharing(a.nodes[c].queue, a.tree)
    ensures Sharing(b.nodes[c].queue, b.tree)
  {
    hide SharesTree;
  }
}
