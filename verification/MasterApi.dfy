// The calls of the master's API that change it (aioros/master/_api.py): the parameter
// store and the registry changed one after the other, and what this means for a step of
// the whole system.
module MasterApi {
  import opened Outcomes
  import opened Names
  import opened Trees
  import opened DictObjects
  import MasterCache
  import opened Registrations
  import opened Updates
  import opened Announcements
  import opened Coherence
  import MasterRegistry
  import NodeCache
  import RegistryLifetimes

  // ----- what is queued is a step of the system -----

  // The parameter subscriptions, caller by caller.
  ghost predicate Subscribed(params: Index, subs: set<(string, Path)>) {
    && (forall k :: k in params ==> k == Key(Split(k)))
    && (forall k, r :: Has(params, k, r) ==> (r.caller, Split(k)) in subs)
    && (forall c, s: Path :: (c, s) in subs ==>
          exists r :: Has(params, Key(s), r) && r.caller == c && Split(Key(s)) == s)
  }

  // Nobody is filed twice under a key.
  ghost predicate OneApi(params: Index) {
    forall k, r, q :: Has(params, k, r) && Has(params, k, q) && r.caller == q.caller ==> r == q
  }

  lemma SubscribedMore(params: Index, subs: set<(string, Path)>, s: Path, r: Registration)
    requires Subscribed(params, subs) && Segments(s)
    ensures Subscribed(Add(params, Key(s), r), subs + {(r.caller, s)})
  {
    SplitKey(s);
    AddAt(params, Key(s), r);
    forall c, p: Path | (c, p) in subs + {(r.caller, s)}
      ensures exists q :: Has(Add(params, Key(s), r), Key(p), q) && q.caller == c && Split(Key(p)) == p
    {
      if (c, p) in subs {
        var q :| Has(params, Key(p), q) && q.caller == c && Split(Key(p)) == p;
        assert Has(Add(params, Key(s), r), Key(p), q);
      } else {
        assert Has(Add(params, Key(s), r), Key(s), r);
      }
    }
  }

  // Callers that keep one API are filed once under each key.
  lemma SteadyOneApi(s: State, claims: set<RegistryLifetimes.Claim>, api: string -> string)
    requires RegistryLifetimes.Canon(s, claims, api)
    ensures OneApi(s.params)
  {
    assert RegistryLifetimes.IndexOf(s, Param) == s.params;
    assert forall k, r :: Has(RegistryLifetimes.IndexOf(s, Param), k, r) ==> r.api == api(r.caller);
  }

  function PostOf(e: Sending, p: Path, w: Change): Post
    requires Owed(Split(e.key), p, w).Some?
  {
    Post(e.reg.caller, Split(e.key), Owed(Split(e.key), p, w).value)
  }

  // The queued calls as posts of a step.
  function Posts(log: seq<Sending>, p: Path, w: Change): (posts: seq<Post>)
    requires forall i :: 0 <= i < |log| ==> Owed(Split(log[i].key), p, w).Some?
  {
    seq(|log|, i requires 0 <= i < |log| => PostOf(log[i], p, w))
  }

  function Encoded(m: Message): Task {
    ParamUpdate(WireName(Key(m.key)), m.value)
  }

  function EncodedAll(ms: seq<Message>): seq<Task> {
    seq(|ms|, i requires 0 <= i < |ms| => Encoded(ms[i]))
  }

  // on_param_update sees the value only: whether it was stored or announces a deletion
  // makes no difference to who is told what.
  lemma OwedAlike(s: Path, p: Path, w: Change)
    ensures var a, b := Owed(s, p, w), Owed(s, p, Put(Content(w)));
      && a.Some? == b.Some?
      && (a.Some? ==> a.value.key == b.value.key && a.value.value == b.value.value)
  {
  }

  lemma DueAlike(key: string, caller: string, p: Path, w: Change, writer: string)
    ensures Due(key, caller, p, Content(w), writer) <==>
            Owed(Split(key), p, w).Some? && Addressed(caller, Split(key), p, w, writer)
    ensures Owed(Split(key), p, w).Some? ==> Call(key, p, Content(w)) == Encoded(Owed(Split(key), p, w).value)
  {
    OwedAlike(Split(key), p, w);
  }

  lemma Owing(params: Index, p: Path, w: Change, writer: string, log: seq<Sending>, i: nat)
    requires Announces(params, p, Content(w), writer, log) && i < |log|
    ensures Owed(Split(log[i].key), p, w).Some? && Addressed(log[i].reg.caller, Split(log[i].key), p, w, writer)
    ensures log[i].task == Encoded(Owed(Split(log[i].key), p, w).value)
  {
    assert RightCall(log[i], p, Content(w), writer);
    DueAlike(log[i].key, log[i].reg.caller, p, w, writer);
  }

  // The two loops of on_param_update amount to the fan-out of a step.
  lemma AnnouncesFanOut(params: Index, subs: set<(string, Path)>, p: Path, w: Change, writer: string, log: seq<Sending>)
    requires Announces(params, p, Content(w), writer, log) && Subscribed(params, subs) && OneApi(params)
    ensures forall i :: 0 <= i < |log| ==> Owed(Split(log[i].key), p, w).Some?
    ensures FanOut(subs, writer, p, w, Posts(log, p, w))
  {
    hide Owed, Addressed, RightCall, Due;
    forall i | 0 <= i < |log|
      ensures Owed(Split(log[i].key), p, w).Some? && Addressed(log[i].reg.caller, Split(log[i].key), p, w, writer)
    {
      Owing(params, p, w, writer, log, i);
    }
    var posts := Posts(log, p, w);
    forall i, j | 0 <= i < j < |posts|
      ensures (posts[i].caller, posts[i].sub) != (posts[j].caller, posts[j].sub)
    {
      assert Has(params, log[i].key, log[i].reg) && Has(params, log[j].key, log[j].reg);
    }
    forall c, s: Path | (c, s) in subs && Owed(s, p, w).Some? && Addressed(c, s, p, w, writer)
      ensures Delivered(posts, c, s)
    {
      var r :| Has(params, Key(s), r) && r.caller == c && Split(Key(s)) == s;
      DueAlike(Key(s), c, p, w, writer);
      assert Logged(log, Key(s), r);
      var i :| 0 <= i < |log| && log[i].key == Key(s) && log[i].reg == r;
      assert posts[i].caller == c && posts[i].sub == s;
    }
  }

  lemma {:induction false} MailSnoc(posts: seq<Post>, x: Post, c: string)
    ensures Mail(posts + [x], c) == Mail(posts, c) + if x.caller == c then [x.message] else []
    decreases |posts|
  {
    var last := if x.caller == c then [x.message] else [];
    if posts == [] {
      assert ([] + [x])[1..] == [];
      assert Mail([], c) == [] && Mail([x], c) == last + Mail([], c);
      assert [] + [x] == [x];
    } else {
      var more, first := posts + [x], if posts[0].caller == c then [posts[0].message] else [];
      assert more[0] == posts[0] && more[1..] == posts[1..] + [x];
      MailSnoc(posts[1..], x, c);
      assert first + (Mail(posts[1..], c) + last) == first + Mail(posts[1..], c) + last;
    }
  }

  lemma EncodedSnoc(ms: seq<Message>, m: Message)
    ensures EncodedAll(ms + [m]) == EncodedAll(ms) + [Encoded(m)]
  {
  }

  lemma PostsSnoc(before: seq<Sending>, e: Sending, p: Path, w: Change)
    requires forall i :: 0 <= i < |before| ==> Owed(Split(before[i].key), p, w).Some?
    requires Owed(Split(e.key), p, w).Some?
    ensures Posts(before + [e], p, w) == Posts(before, p, w) + [PostOf(e, p, w)]
  {
  }

  // And what is queued for a node is the mail of that step, in order.
  lemma {:induction false} TasksAreMail(p: Path, w: Change, log: seq<Sending>, n: nat, c: string)
    requires n <= |log|
    requires forall i :: 0 <= i < |log| ==> Owed(Split(log[i].key), p, w).Some?
    requires forall i :: 0 <= i < |log| ==> log[i].task == Encoded(Owed(Split(log[i].key), p, w).value)
    ensures Tasks(log[..n], c) == EncodedAll(Mail(Posts(log[..n], p, w), c))
    decreases n
  {
    hide Owed, Posts, Tasks, EncodedAll, Mail, Encoded;
    if n > 0 {
      var e, before := log[n - 1], log[..n - 1];
      TasksAreMail(p, w, log, n - 1, c);
      assert log[..n] == before + [e];
      TasksMore(before, e, c);
      PostsSnoc(before, e, p, w);
      MailSnoc(Posts(before, p, w), PostOf(e, p, w), c);
      EncodedSnoc(Mail(Posts(before, p, w), c), PostOf(e, p, w).message);
      assert Mail(Posts(before, p, w), c) + [] == Mail(Posts(before, p, w), c);
    } else {
      NoTasks(p, w, c);
      assert log[..0] == [];
    }
  }

  lemma NoTasks(p: Path, w: Change, c: string)
    ensures Tasks([], c) == EncodedAll(Mail(Posts([], p, w), c))
  {
  }

  // A write or a deletion by the master, with what it queues, is a step of the system: of
  // any system with its tree and its subscriptions. What the system's queues gain is what
  // the registry's queues gain, call for call.
  lemma WriteIsStep(a: System, params: Index, p: Path, w: Change, writer: string, log: seq<Sending>) returns (b: System)
    requires Segments(p) && Changed(a.tree, p, w).Ok? && Subscribed(params, a.subs) && OneApi(params)
    requires if Private(p) then log == [] else Announces(params, p, Content(w), writer, log)
    ensures forall i :: 0 <= i < |log| ==> Owed(Split(log[i].key), p, w).Some?
    ensures Next(a, Write(writer, p, w, Posts(log, p, w)), b) && Subscribed(params, b.subs)
    ensures forall c :: c in a.nodes ==>
              && b.nodes[c].queue == RefreshAll(a.nodes[c].queue, p, w) + Mail(Posts(log, p, w), c)
              && Tasks(log, c) == EncodedAll(Mail(Posts(log, p, w), c))
  {
    hide Owed, FanOut, Announces, Subscribed, OneApi, Changed, Mail, Tasks, EncodedAll, Encoded;
    if !Private(p) {
      AnnouncesFanOut(params, a.subs, p, w, writer, log);
      forall i | 0 <= i < |log|
        ensures log[i].task == Encoded(Owed(Split(log[i].key), p, w).value)
      {
        Owing(params, p, w, writer, log, i);
      }
    }
    var posts := Posts(log, p, w);
    b := System(Changed(a.tree, p, w).value, a.subs,
                map c | c in a.nodes ::
                  Coherence.Node(a.nodes[c].cache, RefreshAll(a.nodes[c].queue, p, w) + Mail(posts, c)));
    forall c | c in a.nodes
      ensures Tasks(log, c) == EncodedAll(Mail(posts, c))
    {
      TasksAreMail(p, w, log, |log|, c);
      assert log[..|log|] == log;
    }
  }

  // So is a subscription.
  lemma SubscribeIsStep(a: System, params: Index, s: Path, r: Registration) returns (b: System)
    requires Segments(s) && !Private(s)
    requires r.caller in a.nodes && NodeCache.Covering(a.nodes[r.caller].cache, s, 0) == None
    requires Subscribed(params, a.subs)
    ensures Next(a, Subscribe(r.caller, s), b)
    ensures Subscribed(Add(params, Key(s), r), b.subs)
  {
    hide Subscribed, Add;
    var n := a.nodes[r.caller];
    b := System(a.tree, a.subs + {(r.caller, s)},
                a.nodes[r.caller := n.(cache := n.cache[Slashed(s) := Reply(a.tree, s)])]);
    SubscribedMore(params, a.subs, s, r);
  }

  // The step leads from the system to one with this tree and these subscriptions.
  ghost predicate Leads(a: System, step: Step, tree: Value, params: Index) {
    exists b :: Next(a, step, b) && b.tree == tree && Subscribed(params, b.subs)
  }

  // A change of the master is a step of every system it may be the master of.
  ghost predicate WriteStep(tree: Value, params: Index, p: Path, w: Change, writer: string, log: seq<Sending>,
                            now: Value) {
    && (forall i :: 0 <= i < |log| ==> Owed(Split(log[i].key), p, w).Some?)
    && (forall a: System :: a.tree == tree && Subscribed(params, a.subs) ==>
          Leads(a, Write(writer, p, w, Posts(log, p, w)), now, params))
  }

  predicate Uncovered(a: System, caller: string, p: Path) {
    caller in a.nodes && NodeCache.Covering(a.nodes[caller].cache, p, 0) == None
  }

  // A registration is a subscription of every such system that has the node, as long as
  // the node caches nothing above the key.
  ghost predicate SubscribeStep(tree: Value, params: Index, p: Path, caller: string, now: Index) {
    forall a: System :: a.tree == tree && Subscribed(params, a.subs) && Uncovered(a, caller, p) ==>
      Leads(a, Subscribe(caller, p), tree, now)
  }

  lemma WriteSteps(tree: Value, params: Index, p: Path, w: Change, writer: string, log: seq<Sending>)
    requires Segments(p) && Changed(tree, p, w).Ok? && OneApi(params)
    requires if Private(p) then log == [] else Announces(params, p, Content(w), writer, log)
    ensures WriteStep(tree, params, p, w, writer, log, Changed(tree, p, w).value)
  {
    hide Owed, FanOut, Announces, Subscribed, OneApi, Changed, Mail, Tasks, EncodedAll, Encoded, Posts;
    forall i | 0 <= i < |log|
      ensures Owed(Split(log[i].key), p, w).Some?
    {
      Owing(params, p, w, writer, log, i);
    }
    forall a: System | a.tree == tree && Subscribed(params, a.subs)
      ensures Leads(a, Write(writer, p, w, Posts(log, p, w)), Changed(tree, p, w).value, params)
    {
      var b := WriteIsStep(a, params, p, w, writer, log);
    }
  }

  lemma SubscribeSteps(tree: Value, params: Index, p: Path, r: Registration)
    requires Segments(p) && !Private(p)
    ensures SubscribeStep(tree, params, p, r.caller, Add(params, Key(p), r))
  {
    hide Subscribed, Add, Next, NodeCache.Covering, Key;
    forall a: System | a.tree == tree && Subscribed(params, a.subs) && Uncovered(a, r.caller, p)
      ensures Leads(a, Subscribe(r.caller, p), tree, Add(params, Key(p), r))
    {
      var b := SubscribeIsStep(a, params, p, r);
      SubscribeKeeps(a, r.caller, p, b);
    }
  }

  lemma SubscribeKeeps(a: System, c: string, p: Path, b: System)
    requires Next(a, Subscribe(c, p), b)
    ensures b.tree == a.tree
  {
  }

  lemma ParamFiled(s: State, key: string, c: string, api: string, log: seq<Withdrawal>)
    requires RegisterParam(s, key, c, api, log).Ok?
    ensures RegisterParam(s, key, c, api, log).value.params ==
            Add(s.params, Key(Split(key)), Registration(c, api))
  {
    hide Withdraw, Add;
    CanonicalKey(key);
    EnrollParams(s, c, api, log);
  }

  lemma {:induction false} WithdrawParams(s: State, log: seq<Withdrawal>)
    ensures Withdraw(s, log).params == s.params
    decreases |log|
  {
    if log != [] {
      WithdrawParams(s, log[..|log| - 1]);
    }
  }

  lemma EnrollParams(s: State, c: string, api: string, log: seq<Withdrawal>)
    ensures Enroll(s, c, api, log).params == s.params
  {
    hide Withdraw;
    WithdrawParams(WithoutServices(Tell(s, c, Shutdown(EVICTED)), c), log);
  }

  lemma StoredChange(tree: Value, key: string, x: Value)
    requires MasterCache.Stored(tree, key, x).Ok?
    ensures Changed(tree, Split(key), Put(x)) == MasterCache.Stored(tree, key, x)
  {
    SplitLeadingSlash("");
    SplitWord("");
    assert "/" + "" == "/";
  }

  // A private name has at least one segment, so that storing under it cannot fail.
  lemma PrivateStores(tree: Value, key: string, x: Value)
    ensures Private(Split(key)) ==> MasterCache.Stored(tree, key, x).Ok?
  {
    SplitLeadingSlash("");
    SplitWord("");
    assert "/" + "" == "/";
  }

  lemma DeletedChange(tree: Value, key: string)
    ensures Changed(tree, Split(key), Remove) == MasterCache.Deleted(tree, key)
  {
  }

  lemma NobodyAbove(params: Index, p: Path, x: Value, writer: string, log: seq<Sending>)
    ensures params == map[] && Announces(params, p, x, writer, log) ==> log == []
  {
    if log != [] && Announces(params, p, x, writer, log) {
      assert Has(params, log[0].key, log[0].reg);
    }
  }

  // ----- the calls -----

  class Master {
    const cache: MasterCache.ParamCache
    const registry: MasterRegistry.Registry

    constructor ()
      ensures cache.Valid() && registry.Valid() && fresh(cache) && fresh(cache.memory.Keys)
      ensures cache.Tree() == EMPTY && registry.Abs() == START
    {
      cache := new MasterCache.ParamCache();
      registry := new MasterRegistry.Registry();
    }

    // The value comes as the dict object to be stored, and as what it says.
    method SetParam(caller: string, key: string, stored: Obj, value: Value, ghost vs: Shape, ghost vm: Memory)
      returns (r: Result<()>, ghost log: seq<Sending>)
      requires cache.Valid() && registry.Valid()
      requires Arrived(vm, stored, vs) && Current(vm) && vm.Keys !! cache.memory.Keys
      requires value == ValueOf(vs)
      modifies cache, cache.memory.Keys, registry.nodes.Values
      ensures cache.Valid() && registry.Valid()
      ensures registry.Abs() == Sent(old(registry.Abs()), log)
      ensures match MasterCache.Stored(old(cache.Tree()), key, value)
              case Err(e) => r == Err(e) && log == [] && cache.Tree() == old(cache.Tree())
              case Ok(t) => cache.Tree() == t && Changed(old(cache.Tree()), Split(key), Put(value)) == Ok(t)
      ensures r.Ok? ==> Announces(registry.paramSubscribers, Split(key), value, caller, log)
      ensures Private(Split(key)) && registry.paramSubscribers != map[] ==> r == Err(ValueError) && log == []
      ensures MasterCache.Stored(old(cache.Tree()), key, value).Ok? && r.Err? && !Private(Split(key)) ==>
        registry.Failed(r.fault, Split(key), value, caller)
      ensures (r.Ok? || Private(Split(key))) && OneApi(registry.paramSubscribers) ==>
        MasterCache.Stored(old(cache.Tree()), key, value).Ok? &&
        WriteStep(old(cache.Tree()), registry.paramSubscribers, Split(key), Put(value), caller, log, cache.Tree())
    {
      hide Announces, Missed, Misnamed, Sent, Changed, Private, Split, MasterCache.Stored, MasterRegistry.Registry.Abs;
      hide MasterCache.ParamCache.Valid, MasterRegistry.Registry.Valid, Arrived, Current;
      log := [];
      SentNone(registry.Abs());
      r := cache.SetItem(key, stored, vs, vm);
      PrivateStores(old(cache.Tree()), key, value);
      if r.Err? {
        return;
      }
      StoredChange(old(cache.Tree()), key, value);
      r, log := registry.OnParamUpdate(key, value, caller);
      if (r.Ok? || Private(Split(key))) && OneApi(registry.paramSubscribers) {
        NobodyAbove(registry.paramSubscribers, Split(key), value, caller, log);
        WriteSteps(old(cache.Tree()), registry.paramSubscribers, Split(key), Put(value), caller, log);
      }
    }

    // A key that is not set answers -1; other failures are raised.
    method DeleteParam(caller: string, key: string) returns (r: Result<int>, ghost log: seq<Sending>)
      requires cache.Valid() && registry.Valid()
      modifies cache, cache.memory.Keys, registry.nodes.Values
      ensures cache.Valid() && registry.Valid()
      ensures registry.Abs() == Sent(old(registry.Abs()), log)
      ensures match Changed(old(cache.Tree()), Split(key), Remove)
              case Err(e) =>
                && r == (if e == KeyError then Ok(-1) else Err(e))
                && log == [] && cache.Tree() == old(cache.Tree())
              case Ok(t) => cache.Tree() == t && r != Ok(-1)
      ensures r == Ok(1) ==> Announces(registry.paramSubscribers, Split(key), EMPTY, caller, log)
      ensures r.Ok? ==> r == Ok(1) || r == Ok(-1)
      ensures Changed(old(cache.Tree()), Split(key), Remove).Ok? && r.Err? && !Private(Split(key)) ==>
        r == Err(KeyError) && Missed(registry.paramSubscribers, registry.nodes.Keys, Split(key), EMPTY, caller)
      ensures Changed(old(cache.Tree()), Split(key), Remove).Ok? && OneApi(registry.paramSubscribers) ==>
        r == Ok(1) || Private(Split(key)) ==>
        WriteStep(old(cache.Tree()), registry.paramSubscribers, Split(key), Remove, caller, log, cache.Tree())
    {
      hide Announces, Sent, Changed, Split, Missed, Misnamed, Private, MasterCache.Deleted, MasterRegistry.Registry.Abs;
      hide MasterCache.ParamCache.Valid, MasterRegistry.Registry.Valid;
      log := [];
      SentNone(registry.Abs());
      DeletedChange(cache.Tree(), key);
      var d := cache.DelItem(key);
      if d.Err? {
        r := if d.fault == KeyError then Ok(-1) else Err(d.fault);
        return;
      }
      registry.KeysCanonical();
      WellNamedFinds(registry.paramSubscribers, Split(key), EMPTY);
      var u;
      u, log := registry.OnParamUpdate(key, EMPTY, caller);
      r := if u.Ok? then Ok(1) else Err(u.fault);
      if (r.Ok? || Private(Split(key))) && OneApi(registry.paramSubscribers) {
        NobodyAbove(registry.paramSubscribers, Split(key), EMPTY, caller, log);
        WriteSteps(old(cache.Tree()), registry.paramSubscribers, Split(key), Remove, caller, log);
      }
    }

    // What is set at the key, or a new empty dict.
    method ParamOrEmpty(key: string) returns (value: Obj, ghost s: Shape, ghost m: Memory)
      requires cache.Valid()
      ensures cache.Valid() && ValueOf(s) == Reply(cache.Tree(), Split(key))
      ensures Lookup(cache.Tree(), Split(key)) == Some(ValueOf(s)) ||
              (Lookup(cache.Tree(), Split(key)) == None && ValueOf(s) == Dict(map[]))
      ensures Proper(s) && Holds(m, value, s) && Current(m)
    {
      hide Split;
      var found;
      found, s := cache.GetItem(key);
      m := cache.memory;
      if found.Ok? {
        value := found.value;
      } else {
        var d := new DictObj();
        value := Ref(d);
        EmptyArrived(d);
        s, m := Shape.Node(d, map[]), map[d := map[]];
      }
    }

    // Subscribes to later changes; the answer is what is set now.
    method SubscribeParam(caller: string, api: string, key: string)
      returns (r: Result<Obj>, ghost s: Shape, ghost m: Memory, ghost log: seq<Withdrawal>)
      requires cache.Valid() && registry.Valid()
      modifies registry, registry.nodes.Values
      ensures cache.Valid() && registry.Valid()
      ensures r.Err? <==> Private(Split(key))
      ensures r.Err? ==> r == Err(ValueError) && registry.Abs() == old(registry.Abs())
      ensures r.Ok? ==> Holds(m, r.value, s) && ValueOf(s) == Reply(cache.Tree(), Split(key))
      ensures r.Ok? ==>
        Lookup(cache.Tree(), Split(key)) == Some(ValueOf(s)) ||
        (Lookup(cache.Tree(), Split(key)) == None && ValueOf(s) == Dict(map[]))
      ensures r.Ok? ==> Enrolls(old(registry.Abs()), caller, api, log)
      ensures r.Ok? ==> RegisterParam(old(registry.Abs()), key, caller, api, log) == Ok(registry.Abs())
      ensures r.Ok? ==>
        SubscribeStep(cache.Tree(), old(registry.paramSubscribers), Split(key), caller, registry.paramSubscribers)
      ensures fresh(registry.nodes.Values - old(registry.nodes.Values))
    {
      hide Enrolls, RegisterParam, Split, Private, Holds, Proper, Reply, SubscribeStep, Add, ValueOf;
      hide MasterRegistry.Registry.Abs, MasterRegistry.Registry.Valid;
      registry.AbsParams();
      var value;
      value, s, m := ParamOrEmpty(key);
      var done;
      done, log := registry.RegisterParamSubscriber(key, caller, api);
      r := if done.Ok? then Ok(value) else Err(done.fault);
      if r.Ok? {
        registry.AbsParams();
        ParamFiled(old(registry.Abs()), key, caller, api, log);
        SubscribeSteps(cache.Tree(), old(registry.paramSubscribers), Split(key), Registration(caller, api));
      }
    }

    method RegisterSubscriber(caller: string, topic: string, topicType: string, api: string)
      returns (publishers: seq<string>, ghost log: seq<Withdrawal>)
      requires registry.Valid()
      modifies registry, registry.nodes.Values
      ensures registry.Valid() && Enrolls(TypeTopic(old(registry.Abs()), topic, topicType), caller, api, log)
      ensures registry.Abs() ==
              Registrations.RegisterSubscriber(old(registry.Abs()), topic, topicType, caller, api, log)
      ensures Lists(publishers, At(registry.publications, topic))
      ensures fresh(registry.nodes.Values - old(registry.nodes.Values))
    {
      hide Enrolls, TypeTopic, Registrations.RegisterSubscriber, MasterRegistry.Registry.Abs, Lists;
      log := registry.RegisterSubscriber(topic, topicType, caller, api);
      var registered := if topic in registry.publications then registry.publications[topic] else {};
      publishers := MasterRegistry.Registry.Apis(registered);
    }

    method RegisterPublisher(caller: string, topic: string, topicType: string, api: string)
      returns (subscribers: seq<string>, ghost log: seq<Withdrawal>, ghost list: seq<string>)
      requires registry.Valid()
      modifies registry, registry.nodes.Values
      ensures registry.Valid() && Enrolls(TypeTopic(old(registry.Abs()), topic, topicType), caller, api, log)
      ensures Lists(list, At(AddPublisher(old(registry.Abs()), topic, topicType, caller, api, log).publications, topic))
      ensures registry.Abs() ==
              Registrations.RegisterPublisher(old(registry.Abs()), topic, topicType, caller, api, log, list)
      ensures Lists(subscribers, At(registry.subscriptions, topic))
      ensures fresh(registry.nodes.Values - old(registry.nodes.Values))
    {
      hide Enrolls, TypeTopic, Registrations.RegisterPublisher, AddPublisher, MasterRegistry.Registry.Abs, Lists;
      log, list := registry.RegisterPublisher(topic, topicType, caller, api);
      var registered := if topic in registry.subscriptions then registry.subscriptions[topic] else {};
      subscribers := MasterRegistry.Registry.Apis(registered);
    }
  }
}
