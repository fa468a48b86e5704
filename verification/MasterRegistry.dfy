// The registry of the master as it runs (aioros/master/_registry.py): dicts of sets changed
// in place, and node objects with their queues of calls. Every method is proved to do to
// the abstract state what Registrations says. Loops over sets and dicts take their
// elements in any order.
module MasterRegistry {
  import opened Outcomes
  import opened Names
  import opened Trees
  import opened Registrations
  import opened RegistryRuns
  import opened Announcements
  import PublisherQueues

  class Node {
    const api: string
    var services: set<string>
    var publications: set<string>
    var subscriptions: set<string>
    var params: set<string>
    var outbox: seq<Task>

    constructor (api: string)
      ensures Abs() == NewRecord(api)
    {
      this.api := api;
      services, publications, subscriptions, params, outbox := {}, {}, {}, {}, [];
    }

    ghost function Abs(): Record
      reads this
    {
      Record(api, services, publications, subscriptions, params, outbox)
    }

    predicate HasAnyRegistration()
      reads this
      ensures HasAnyRegistration() == Busy(Abs())
    {
      services != {} || publications != {} || subscriptions != {} || params != {}
    }

    method Gain(k: Kind, name: string)
      modifies this`services, this`publications, this`subscriptions, this`params
      ensures Abs() == Holding(old(Abs()), k, Held(old(Abs()), k) + {name})
    {
      match k
      case Service => services := services + {name};
      case Publication => publications := publications + {name};
      case Subscription => subscriptions := subscriptions + {name};
      case Param => params := params + {name};
    }

    method Lose(k: Kind, name: string)
      modifies this`services, this`publications, this`subscriptions, this`params
      ensures Abs() == Holding(old(Abs()), k, Held(old(Abs()), k) - {name})
    {
      match k
      case Service => services := services - {name};
      case Publication => publications := publications - {name};
      case Subscription => subscriptions := subscriptions - {name};
      case Param => params := params - {name};
    }

    // send_stream.send_nowait
    method Send(task: Task)
      modifies this`outbox
      ensures Abs() == old(Abs()).(outbox := old(outbox) + [task])
    {
      outbox := outbox + [task];
    }

    // The serve loop takes the next call. Closing the send side does not empty the queue.
    method Receive() returns (task: Option<Task>)
      modifies this`outbox
      ensures task == First(old(Abs())) && Abs() == Rest(old(Abs()))
    {
      if outbox == [] {
        return None;
      }
      task := Some(outbox[0]);
      outbox := outbox[1..];
    }
  }

  // The first call queued for a node, and the node without it.
  function First(r: Record): Option<Task> {
    if r.outbox == [] then None else Some(r.outbox[0])
  }

  function Rest(r: Record): Record {
    r.(outbox := if r.outbox == [] then [] else r.outbox[1..])
  }

  ghost function Records(nodes: map<string, Node>): (m: map<string, Record>)
    reads nodes.Values
    ensures m.Keys == nodes.Keys && forall c :: c in nodes ==> m[c] == nodes[c].Abs()
  {
    map c | c in nodes :: nodes[c].Abs()
  }

  ghost function Copies(nodes: seq<Node>): (s: seq<Record>)
    reads nodes
    ensures |s| == |nodes| && forall i :: 0 <= i < |nodes| ==> s[i] == nodes[i].Abs()
  {
    seq(|nodes|, i requires 0 <= i < |nodes| reads nodes => nodes[i].Abs())
  }

  // ----- telling nodes, one registration at a time -----

  // Every registration of the set has been told once.
  function Told(s: State, regs: set<Registration>, task: Task): State {
    s.(nodes := map c | c in s.nodes ::
         s.nodes[c].(outbox := s.nodes[c].outbox + Repeat(task, Count(regs, c))))
  }

  lemma ToldNone(s: State, task: Task)
    ensures Told(s, {}, task) == s
  {
    forall c | c in s.nodes
      ensures Told(s, {}, task).nodes[c] == s.nodes[c]
    {
      assert (set r: Registration | r in {} && r.caller == c) == {};
    }
  }

  lemma CountAdd(regs: set<Registration>, r: Registration, c: string)
    requires r !in regs
    ensures Count(regs + {r}, c) == Count(regs, c) + if r.caller == c then 1 else 0
  {
    var mine := set x | x in regs && x.caller == c;
    var now := set x | x in regs + {r} && x.caller == c;
    assert now == if r.caller == c then mine + {r} else mine;
  }

  lemma RepeatMore(before: seq<Task>, task: Task, n: nat)
    ensures before + Repeat(task, n + 1) == before + Repeat(task, n) + [task]
  {
  }

  lemma ToldMore(s: State, regs: set<Registration>, r: Registration, task: Task)
    requires r !in regs
    ensures Told(s, regs + {r}, task) == Tell(Told(s, regs, task), r.caller, task)
  {
    hide Count, Repeat;
    var a, b := Told(s, regs + {r}, task), Tell(Told(s, regs, task), r.caller, task);
    forall c | c in s.nodes
      ensures a.nodes[c] == b.nodes[c]
    {
      CountAdd(regs, r, c);
      RepeatMore(s.nodes[c].outbox, task, Count(regs, c));
    }
    assert a.nodes == b.nodes;
  }

  lemma ToldSubscribers(s: State, topic: string, list: seq<string>)
    ensures Told(s, At(s.subscriptions, topic), PublisherUpdate(topic, list)) == Notify(s, topic, list)
  {
  }

  class Registry {
    var services: map<string, Registration>
    var publications: Index
    var subscriptions: Index
    var paramSubscribers: Index
    var topicTypes: map<string, string>
    var nodes: map<string, Node>
    // nodes that are not on record any more; their serve tasks run on in the task group
    var retired: seq<Node>

    // Node objects are not shared, and parameter keys are in canonical form.
    ghost predicate Valid()
      reads this
    {
      && (forall c, d :: c in nodes && d in nodes && nodes[c] == nodes[d] ==> c == d)
      && (forall i, c :: 0 <= i < |retired| && c in nodes ==> retired[i] != nodes[c])
      && (forall i, j :: 0 <= i < j < |retired| ==> retired[i] != retired[j])
      && (forall k :: k in paramSubscribers ==> k == Key(Split(k)))
    }

    ghost function Abs(): State
      reads this, nodes.Values, retired
    {
      State(services, publications, subscriptions, paramSubscribers, topicTypes, Records(nodes), Copies(retired))
    }

    constructor ()
      ensures Valid() && Abs() == START
    {
      services, publications, subscriptions, paramSubscribers := map[], map[], map[], map[];
      topicTypes, nodes, retired := map[], map[], [];
    }

    // The APIs of some registrations, as a list comprehension over the set gives them.
    static method Apis(regs: set<Registration>) returns (list: seq<string>)
      ensures Lists(list, regs)
    {
      var todo := regs;
      list := [];
      while todo != {}
        invariant todo <= regs && Lists(list, regs - todo)
        decreases |todo|
      {
        var r :| r in todo;
        ListsMore(list, regs - todo, r);
        assert regs - todo + {r} == regs - (todo - {r});
        list := list + [r.api];
        todo := todo - {r};
      }
      assert regs - todo == regs;
    }

    static lemma ListsMore(list: seq<string>, regs: set<Registration>, r: Registration)
      requires Lists(list, regs) && r !in regs
      ensures Lists(list + [r.api], regs + {r})
    {
      forall x
        ensures x in list + [r.api] <==> exists y :: y in regs + {r} && y.api == x
      {
        if x in list {
          var y :| y in regs && y.api == x;
          assert y in regs + {r};
        } else if x == r.api {
          assert r in regs + {r};
        }
      }
    }

    method TellNode(caller: string, task: Task)
      requires Valid()
      modifies nodes.Values
      ensures Valid() && Abs() == Tell(old(Abs()), caller, task)
    {
      if caller in nodes {
        nodes[caller].Send(task);
        assert Records(nodes) == old(Records(nodes))[caller := nodes[caller].Abs()];
      }
    }

    method TellAll(regs: set<Registration>, task: Task)
      requires Valid()
      modifies nodes.Values
      ensures Valid() && Abs() == Told(old(Abs()), regs, task)
    {
      hide Told, Tell, Abs;
      var todo := regs;
      ToldNone(Abs(), task);
      assert regs - todo == {};
      while todo != {}
        invariant Valid() && todo <= regs
        invariant Abs() == Told(old(Abs()), regs - todo, task)
        decreases |todo|
      {
        var r :| r in todo;
        TellNode(r.caller, task);
        ToldMore(old(Abs()), regs - todo, r, task);
        assert regs - todo + {r} == regs - (todo - {r});
        todo := todo - {r};
      }
      assert regs - todo == regs;
    }

    // _update_subscribers
    method UpdateSubscribers(topic: string) returns (ghost list: seq<string>)
      requires Valid()
      modifies nodes.Values
      ensures Valid() && Lists(list, At(publications, topic))
      ensures Abs() == Notify(old(Abs()), topic, list)
    {
      hide Lists, Told, Notify;
      var publishers := Apis(if topic in publications then publications[topic] else {});
      list := publishers;
      TellAll(if topic in subscriptions then subscriptions[topic] else {}, PublisherUpdate(topic, publishers));
      ToldSubscribers(old(Abs()), topic, publishers);
    }

    // ----- _unregister_all -----

    // Its first loop.
    method DropServices(caller: string)
      requires Valid()
      modifies this`services
      ensures Valid() && Abs() == WithoutServices(old(Abs()), caller)
    {
      var todo := services.Keys;
      ghost var all := services;
      while todo != {}
        invariant todo <= services.Keys
        invariant services.Keys <= all.Keys && forall n :: n in services ==> services[n] == all[n]
        invariant forall n :: n in all && n !in todo ==> (n in services <==> all[n].caller != caller)
        invariant forall n :: n in todo ==> n in services
        decreases |todo|
      {
        var service :| service in todo;
        if services[service].caller == caller {
          services := services - {service};
        }
        todo := todo - {service};
      }
      assert services == map n | n in all && all[n].caller != caller :: all[n];
    }

    method WithdrawReg(topic: string, reg: Registration) returns (ghost list: seq<string>)
      requires Valid() && topic in publications
      modifies this`publications, nodes.Values
      ensures Valid() && Abs() == WithdrawOne(old(Abs()), Withdrawal(topic, reg, list))
      ensures Lists(list, At(old(publications), topic) - {reg})
      ensures publications == old(publications)[topic := old(publications)[topic] - {reg}]
    {
      hide Notify, Lists;
      publications := publications[topic := publications[topic] - {reg}];
      ghost var s := Abs();
      list := UpdateSubscribers(topic);
      assert s == old(Abs()).(publications := s.publications);
    }

    // The second loop, for one topic.
    method WithdrawTopic(caller: string, topic: string, ghost s: State, ghost before: seq<Withdrawal>)
      returns (ghost log: seq<Withdrawal>)
      requires Valid() && topic in publications
      requires Abs() == Withdraw(s, before) && Withdraws(s, caller, before)
      modifies this`publications, nodes.Values
      ensures Valid() && Abs() == Withdraw(s, log) && Withdraws(s, caller, log)
      ensures publications.Keys == old(publications.Keys)
      ensures forall t :: t in publications && t != topic ==> publications[t] == old(publications)[t]
      ensures forall r :: r in publications[topic] ==> r.caller != caller
    {
      hide Abs, Withdraw, Withdraws, WithdrawOne, Lists;
      log := before;
      var todo := publications[topic];
      while todo != {}
        invariant Valid() && topic in publications
        invariant Abs() == Withdraw(s, log) && Withdraws(s, caller, log)
        invariant publications.Keys == old(publications.Keys)
        invariant forall t :: t in publications && t != topic ==> publications[t] == old(publications)[t]
        invariant todo <= publications[topic]
        invariant forall r :: r in publications[topic] && r !in todo ==> r.caller != caller
        decreases |todo|
      {
        var reg :| reg in todo;
        if reg.caller == caller {
          assert Has(Abs().publications, topic, reg) by { AbsPublications(); }
          AbsPublications();
          var list := WithdrawReg(topic, reg);
          WithdrawMore(s, caller, log, Withdrawal(topic, reg, list));
          log := log + [Withdrawal(topic, reg, list)];
        }
        todo := todo - {reg};
      }
    }

    lemma AbsPublications()
      ensures Abs().publications == publications
    {
    }

    lemma AbsParams()
      ensures Abs().params == paramSubscribers
    {
    }

    static lemma WithdrawMore(s: State, c: string, log: seq<Withdrawal>, w: Withdrawal)
      requires Withdraws(s, c, log) && Has(Withdraw(s, log).publications, w.topic, w.reg) && w.reg.caller == c
      requires Lists(w.list, At(Withdraw(s, log).publications, w.topic) - {w.reg})
      ensures Withdraws(s, c, log + [w])
      ensures Withdraw(s, log + [w]) == WithdrawOne(Withdraw(s, log), w)
    {
      var more := log + [w];
      assert more[..|more| - 1] == log && more[|more| - 1] == w;
    }

    // The second loop.
    method DropPublications(caller: string) returns (ghost log: seq<Withdrawal>)
      requires Valid()
      modifies this`publications, nodes.Values
      ensures Valid() && Abs() == Withdraw(old(Abs()), log) && Withdraws(old(Abs()), caller, log)
      ensures Gone(publications, caller)
    {
      hide Abs;
      log := [];
      var todo := publications.Keys;
      while todo != {}
        invariant Valid() && todo <= publications.Keys
        invariant Abs() == Withdraw(old(Abs()), log) && Withdraws(old(Abs()), caller, log)
        invariant forall t, r :: t !in todo && Has(publications, t, r) ==> r.caller != caller
        decreases |todo|
      {
        hide Withdraw, Withdraws;
        var topic :| topic in todo;
        log := WithdrawTopic(caller, topic, old(Abs()), log);
        todo := todo - {topic};
      }
    }

    static method Others(registrations: set<Registration>, caller: string) returns (kept: set<Registration>)
      ensures kept == set r | r in registrations && r.caller != caller
    {
      kept := registrations;
      var todo := registrations;
      while todo != {}
        invariant todo <= kept <= registrations
        invariant forall r :: r in registrations && r !in todo ==> (r in kept <==> r.caller != caller)
        decreases |todo|
      {
        var reg :| reg in todo;
        if reg.caller == caller {
          kept := kept - {reg};
        }
        todo := todo - {reg};
      }
    }

    // The third loop.
    method DropSubscriptions(caller: string)
      requires Valid()
      modifies this`subscriptions
      ensures Valid() && Abs() == WithoutSubscriptions(old(Abs()), caller)
    {
      var todo := subscriptions.Keys;
      ghost var all := subscriptions;
      while todo != {}
        invariant subscriptions.Keys == all.Keys && todo <= all.Keys
        invariant forall t :: t in all && t in todo ==> subscriptions[t] == all[t]
        invariant forall t :: t in all && t !in todo ==>
          subscriptions[t] == set r | r in all[t] && r.caller != caller
        decreases |todo|
      {
        var topic :| topic in todo;
        var kept := Others(subscriptions[topic], caller);
        subscriptions := subscriptions[topic := kept];
        todo := todo - {topic};
      }
      assert subscriptions == map t | t in all :: set r | r in all[t] && r.caller != caller;
    }

    method UnregisterAll(caller: string) returns (ghost log: seq<Withdrawal>)
      requires Valid()
      modifies this`services, this`publications, this`subscriptions, nodes.Values
      ensures Valid() && Abs() == Evicted(old(Abs()), caller, log)
      ensures var s := WithoutServices(old(Abs()), caller);
        Withdraws(s, caller, log) && Gone(Withdraw(s, log).publications, caller)
    {
      hide Abs, WithoutServices, WithoutSubscriptions, Withdraw, Withdraws, Gone;
      DropServices(caller);
      log := DropPublications(caller);
      AbsPublications();
      DropSubscriptions(caller);
    }

    // ----- registering -----

    lemma AbsNode(caller: string)
      ensures caller in nodes <==> caller in Abs().nodes
      ensures caller in nodes ==> Abs().nodes[caller] == nodes[caller].Abs()
    {
    }

    // A record goes; its serve task runs on.
    method Retire(caller: string)
      requires Valid() && caller in nodes
      modifies this`nodes, this`retired
      ensures Valid() && nodes == old(nodes) - {caller}
      ensures var s := old(Abs());
        Abs() == s.(nodes := s.nodes - {caller}, retired := s.retired + [s.nodes[caller]])
    {
      hide Node.Abs;
      ghost var records, copies := Records(nodes), Copies(retired);
      retired := retired + [nodes[caller]];
      nodes := nodes - {caller};
      assert Records(nodes) == records - {caller};
      assert Copies(retired) == copies + [records[caller]];
    }

    // One turn of the serve loop of a node on record ...
    method ServeNode(caller: string) returns (task: Option<Task>)
      requires Valid() && caller in nodes
      modifies nodes[caller]
      ensures Valid() && Served(old(Abs()), PublisherQueues.Live(caller), task, Abs())
    {
      hide Node.Abs, Served;
      ghost var s, r := Abs(), nodes[caller].Abs();
      task := nodes[caller].Receive();
      assert Copies(retired) == s.retired;
      assert Records(nodes) == s.nodes[caller := Rest(r)];
      NodeServed(s, caller, task);
    }

    // ... and of one that is not on record any more.
    method ServeRetired(i: nat) returns (task: Option<Task>)
      requires Valid() && i < |retired|
      modifies retired[i]
      ensures Valid() && Served(old(Abs()), PublisherQueues.Retired(i), task, Abs())
    {
      hide Node.Abs, Served;
      ghost var s, r := Abs(), retired[i].Abs();
      task := retired[i].Receive();
      assert Records(nodes) == s.nodes;
      assert Copies(retired) == s.retired[i := Rest(r)];
      RetiredServed(s, i, task);
    }

    // The first call of the queue is taken, if there is any.
    static ghost predicate Served(s: State, l: PublisherQueues.Line, task: Option<Task>, t: State)
      requires PublisherQueues.There(s, l)
    {
      var queue := PublisherQueues.RecordOf(s, l).outbox;
      if queue == [] then task == None && t == s
      else task == Some(queue[0]) && t == PublisherQueues.Pop(s, l)
    }

    static lemma NodeServed(s: State, caller: string, task: Option<Task>)
      requires caller in s.nodes && task == First(s.nodes[caller])
      ensures Served(s, PublisherQueues.Live(caller), task, s.(nodes := s.nodes[caller := Rest(s.nodes[caller])]))
    {
    }

    static lemma RetiredServed(s: State, i: nat, task: Option<Task>)
      requires i < |s.retired| && task == First(s.retired[i])
      ensures Served(s, PublisherQueues.Retired(i), task, s.(retired := s.retired[i := Rest(s.retired[i])]))
    {
    }

    method StartNode(caller: string, api: string) returns (node: Node)
      requires Valid() && caller !in nodes
      modifies this`nodes
      ensures Valid() && fresh(node) && nodes == old(nodes)[caller := node]
      ensures Abs() == old(Abs()).(nodes := old(Abs()).nodes[caller := NewRecord(api)])
    {
      ghost var records := Records(nodes);
      node := new Node(api);
      nodes := nodes[caller := node];
      assert Records(nodes) == records[caller := NewRecord(api)];
    }

    method NewNode(caller: string, api: string) returns (node: Node)
      requires Valid()
      modifies this`nodes, this`retired
      ensures Valid() && fresh(node) && nodes == old(nodes)[caller := node]
      ensures Abs() == Fresh(old(Abs()), caller, api)
    {
      hide Abs;
      AbsNode(caller);
      ghost var s := Abs();
      if caller in nodes {
        Retire(caller);
      }
      node := StartNode(caller, api);
      assert (s.nodes - {caller})[caller := NewRecord(api)] == s.nodes[caller := NewRecord(api)];
    }

    // _register_node
    method RegisterNode(caller: string, api: string) returns (node: Node, ghost log: seq<Withdrawal>)
      requires Valid()
      modifies this`services, this`publications, this`subscriptions, this`nodes, this`retired, nodes.Values
      ensures Valid() && Enrolls(old(Abs()), caller, api, log)
      ensures Abs() == Enroll(old(Abs()), caller, api, log)
      ensures caller in nodes && nodes[caller] == node && fresh(nodes.Values - old(nodes.Values))
      ensures caller in old(nodes) && old(nodes[caller]).api != api ==>
        old(nodes[caller].outbox) + [Shutdown(EVICTED)] <= old(nodes)[caller].outbox
    {
      hide Abs, Evicted, Tell, Withdraw, Withdraws, Gone, WithoutServices;
      log := [];
      AbsNode(caller);
      if caller in nodes {
        node := nodes[caller];
        if node.api == api {
          return;
        }
        TellNode(caller, Shutdown(EVICTED));
        log := UnregisterAll(caller);
        EvictedTold(old(Abs()), caller, log);
        AbsNode(caller);
      }
      node := NewNode(caller, api);
    }

    method Gain(caller: string, node: Node, k: Kind, name: string)
      requires Valid() && caller in nodes && nodes[caller] == node
      modifies nodes.Values
      ensures Valid() && Abs() == Hold(old(Abs()), caller, k, name)
    {
      hide Holding, Held;
      node.Gain(k, name);
      assert Records(nodes) == old(Records(nodes))[caller := node.Abs()];
    }

    // _check_node
    method CheckNode(caller: string)
      requires Valid()
      modifies this`nodes, this`retired
      ensures Valid() && Abs() == Registrations.CheckNode(old(Abs()), caller)
      ensures nodes.Values <= old(nodes.Values)
    {
      if caller in nodes && !nodes[caller].HasAnyRegistration() {
        Retire(caller);
      }
    }

    method LoseName(caller: string, k: Kind, name: string)
      requires Valid() && caller in nodes
      modifies nodes.Values
      ensures var s := old(Abs());
        Valid() &&
          Abs() == s.(nodes := s.nodes[caller := Holding(s.nodes[caller], k, Held(s.nodes[caller], k) - {name})])
    {
      hide Holding, Held;
      nodes[caller].Lose(k, name);
      assert Records(nodes) == old(Records(nodes))[caller := nodes[caller].Abs()];
    }

    method Lose(caller: string, k: Kind, name: string)
      requires Valid()
      modifies this`nodes, this`retired, nodes.Values
      ensures Valid() && Abs() == Release(old(Abs()), caller, k, name)
      ensures nodes.Values <= old(nodes.Values)
    {
      hide Holding, Held, Registrations.CheckNode, Abs;
      AbsNode(caller);
      if caller in nodes {
        LoseName(caller, k, name);
        CheckNode(caller);
      }
    }

    // self._register_node(...).<names>.add(name)
    method Enlist(caller: string, api: string, k: Kind, name: string) returns (ghost log: seq<Withdrawal>)
      requires Valid()
      modifies this`services, this`publications, this`subscriptions, this`nodes, this`retired, nodes.Values
      ensures Valid() && Enrolls(old(Abs()), caller, api, log)
      ensures Abs() == Hold(Enroll(old(Abs()), caller, api, log), caller, k, name)
      ensures fresh(nodes.Values - old(nodes.Values))
    {
      hide Enroll, Enrolls, Hold;
      var node;
      node, log := RegisterNode(caller, api);
      Gain(caller, node, k, name);
    }

    // Taking a registration out of an index, and its key with the last one.
    static method Without(m: Index, key: string, reg: Registration) returns (rest: Index)
      ensures rest == Discard(m, key, reg) && rest.Keys <= m.Keys
    {
      rest := m;
      if key in rest {
        rest := rest[key := rest[key] - {reg}];
        if rest[key] == {} {
          rest := rest - {key};
        }
      }
    }

    // Filing registrations under names, topics and parameters, and taking them out again.
    method FileService(name: string, reg: Registration)
      requires Valid()
      modifies this`services
      ensures Valid() && Abs() == old(Abs()).(services := old(Abs()).services[name := reg])
    {
      services := services[name := reg];
    }

    method FileParam(key: string, reg: Registration)
      requires Valid() && key == Key(Split(key))
      modifies this`paramSubscribers
      ensures Valid() && Abs() == old(Abs()).(params := Add(old(Abs()).params, key, reg))
    {
      hide Split, Key;
      paramSubscribers := Add(paramSubscribers, key, reg);
    }

    method UnfileParam(key: string, reg: Registration)
      requires Valid()
      modifies this`paramSubscribers
      ensures Valid() && Abs() == old(Abs()).(params := Discard(old(Abs()).params, key, reg))
    {
      hide Split, Key, Discard;
      paramSubscribers := Without(paramSubscribers, key, reg);
    }

    method UnfileSubscription(topic: string, reg: Registration)
      requires Valid()
      modifies this`subscriptions
      ensures Valid() && Abs() == old(Abs()).(subscriptions := Discard(old(Abs()).subscriptions, topic, reg))
    {
      hide Discard;
      subscriptions := Without(subscriptions, topic, reg);
    }

    method UnfilePublication(topic: string, reg: Registration)
      requires Valid()
      modifies this`publications
      ensures Valid() && Abs() == old(Abs()).(publications := Discard(old(Abs()).publications, topic, reg))
    {
      hide Discard;
      publications := Without(publications, topic, reg);
    }

    method FileSubscription(topic: string, reg: Registration)
      requires Valid()
      modifies this`subscriptions
      ensures Valid() && Abs() == old(Abs()).(subscriptions := Add(old(Abs()).subscriptions, topic, reg))
    {
      hide Add;
      subscriptions := Add(subscriptions, topic, reg);
    }

    method FilePublication(topic: string, reg: Registration)
      requires Valid()
      modifies this`publications
      ensures Valid() && Abs() == old(Abs()).(publications := Add(old(Abs()).publications, topic, reg))
    {
      hide Add;
      publications := Add(publications, topic, reg);
    }

    method RegisterService(name: string, caller: string, api: string, serviceApi: string)
      returns (ghost log: seq<Withdrawal>)
      requires Valid()
      modifies this, nodes.Values
      ensures Valid() && Enrolls(old(Abs()), caller, api, log)
      ensures Abs() == Registrations.RegisterService(old(Abs()), name, caller, api, serviceApi, log)
      ensures fresh(nodes.Values - old(nodes.Values))
    {
      hide Enroll, Enrolls, Hold, Abs, Valid;
      log := Enlist(caller, api, Service, name);
      FileService(name, Registration(caller, serviceApi));
    }

    method UnregisterService(service: string, caller: string)
      requires Valid()
      modifies this, nodes.Values
      ensures Valid() && Abs() == Registrations.UnregisterService(old(Abs()), service, caller)
      ensures nodes.Values <= old(nodes.Values)
    {
      hide Release;
      services := services - {service};
      Lose(caller, Service, service);
    }

    // _register_topic
    method RegisterTopic(topic: string, topicType: string)
      requires Valid()
      modifies this`topicTypes
      ensures Valid() && Abs() == TypeTopic(old(Abs()), topic, topicType)
    {
      if topicType != "*" && topic !in topicTypes {
        topicTypes := topicTypes[topic := topicType];
      }
    }

    // _check_topic
    method CheckTopic(topic: string)
      requires Valid()
      modifies this`topicTypes
      ensures Valid() && Abs() == Registrations.CheckTopic(old(Abs()), topic)
    {
      if topic !in publications && topic !in subscriptions {
        topicTypes := topicTypes - {topic};
      }
    }

    method RegisterSubscriber(topic: string, topicType: string, caller: string, api: string)
      returns (ghost log: seq<Withdrawal>)
      requires Valid()
      modifies this, nodes.Values
      ensures Valid() && Enrolls(TypeTopic(old(Abs()), topic, topicType), caller, api, log)
      ensures Abs() == Registrations.RegisterSubscriber(old(Abs()), topic, topicType, caller, api, log)
      ensures fresh(nodes.Values - old(nodes.Values))
    {
      hide Enroll, Enrolls, Hold, TypeTopic, Add, Abs, Valid;
      RegisterTopic(topic, topicType);
      log := Enlist(caller, api, Subscription, topic);
      FileSubscription(topic, Registration(caller, api));
    }

    method UnregisterSubscriber(topic: string, caller: string, api: string)
      requires Valid()
      modifies this, nodes.Values
      ensures Valid() && Abs() == Registrations.UnregisterSubscriber(old(Abs()), topic, caller, api)
      ensures nodes.Values <= old(nodes.Values)
    {
      hide Release, Registrations.CheckTopic, Discard, Abs, Valid;
      UnfileSubscription(topic, Registration(caller, api));
      Lose(caller, Subscription, topic);
      CheckTopic(topic);
    }

    method RegisterPublisher(topic: string, topicType: string, caller: string, api: string)
      returns (ghost log: seq<Withdrawal>, ghost list: seq<string>)
      requires Valid()
      modifies this, nodes.Values
      ensures Valid() && Enrolls(TypeTopic(old(Abs()), topic, topicType), caller, api, log)
      ensures Lists(list, At(AddPublisher(old(Abs()), topic, topicType, caller, api, log).publications, topic))
      ensures Abs() == Registrations.RegisterPublisher(old(Abs()), topic, topicType, caller, api, log, list)
      ensures fresh(nodes.Values - old(nodes.Values))
    {
      hide Enroll, Enrolls, Hold, TypeTopic, Notify, Lists, Add, Abs, Valid;
      RegisterTopic(topic, topicType);
      log := Enlist(caller, api, Publication, topic);
      FilePublication(topic, Registration(caller, api));
      AbsPublications();
      list := UpdateSubscribers(topic);
    }

    method UnregisterPublisher(topic: string, caller: string, api: string) returns (ghost list: seq<string>)
      requires Valid()
      modifies this, nodes.Values
      ensures Valid() && Lists(list, At(DropPublisher(old(Abs()), topic, caller, api).publications, topic))
      ensures Abs() == Registrations.UnregisterPublisher(old(Abs()), topic, caller, api, list)
      ensures nodes.Values <= old(nodes.Values)
    {
      hide Release, Registrations.CheckTopic, Notify, Lists, Discard, Abs, Valid;
      UnfilePublication(topic, Registration(caller, api));
      Lose(caller, Publication, topic);
      CheckTopic(topic);
      AbsPublications();
      list := UpdateSubscribers(topic);
    }

    method RegisterParamSubscriber(name: string, caller: string, api: string)
      returns (r: Result<()>, ghost log: seq<Withdrawal>)
      requires Valid()
      modifies this, nodes.Values
      ensures Valid()
      ensures r.Err? <==> Private(Split(name))
      ensures r.Err? ==> r == Err(ValueError) && Abs() == old(Abs()) && nodes == old(nodes)
      ensures r.Ok? ==> Enrolls(old(Abs()), caller, api, log)
      ensures r.Ok? ==> RegisterParam(old(Abs()), name, caller, api, log) == Ok(Abs())
      ensures fresh(nodes.Values - old(nodes.Values))
    {
      hide Enroll, Enrolls, Hold, Normalize, Join, Split, Key, Abs, Valid, Add;
      log := [];
      CanonicalKey(name);
      SplitKey(Split(name));
      var key := Normalize(Join([name]));
      if key.Err? {
        return Err(key.fault), log;
      }
      log := Enlist(caller, api, Param, key.value);
      FileParam(key.value, Registration(caller, api));
      r := Ok(());
    }

    method UnregisterParamSubscriber(name: string, caller: string, api: string) returns (r: Result<()>)
      requires Valid()
      modifies this, nodes.Values
      ensures Valid()
      ensures r.Err? <==> Private(Split(name))
      ensures r.Err? ==> r == Err(ValueError) && Abs() == old(Abs()) && nodes == old(nodes)
      ensures r.Ok? ==> UnregisterParam(old(Abs()), name, caller, api) == Ok(Abs())
      ensures nodes.Values <= old(nodes.Values)
    {
      hide Release, Normalize, Join, Split, Key, Discard, Abs, Valid;
      CanonicalKey(name);
      var key := Normalize(Join([name]));
      if key.Err? {
        return Err(key.fault);
      }
      var k := key.value;
      UnfileParam(k, Registration(caller, api));
      Lose(caller, Param, k);
      r := Ok(());
    }

    // ----- on_param_update -----

    // One of its inner loops: tell the registrations under a key, but for one caller.
    method Announce(key: string, task: Task, skip: Option<string>, ghost s: State, ghost p: Path, ghost x: Value,
                    ghost writer: string, ghost before: seq<Sending>, ghost done: set<(string, Registration)>)
      returns (ok: bool, ghost log: seq<Sending>, ghost covered: set<(string, Registration)>)
      requires Valid() && key in paramSubscribers
      requires Abs() == Sent(s, before) && Covers(before, done, p, x, writer) && Found(before, nodes.Keys)
      requires forall r :: r in paramSubscribers[key] ==>
        && (key, r) !in done
        && (Due(key, r.caller, p, x, writer) <==> skip != Some(r.caller))
        && (Due(key, r.caller, p, x, writer) ==> Call(key, p, x) == task)
      modifies nodes.Values
      ensures Valid() && Abs() == Sent(s, log) && Covers(log, covered, p, x, writer) && Found(log, nodes.Keys)
      ensures ok ==> forall k, r :: (k, r) in covered <==> (k, r) in done || (k == key && r in paramSubscribers[key])
      ensures !ok ==> Missed(paramSubscribers, nodes.Keys, p, x, writer)
    {
      hide Abs, Sent, Tell, Due, Call, Covers;
      ok, log, covered := true, before, done;
      var todo := paramSubscribers[key];
      while todo != {}
        invariant Valid() && todo <= paramSubscribers[key]
        invariant Abs() == Sent(s, log) && Covers(log, covered, p, x, writer) && Found(log, nodes.Keys)
        invariant forall k, r :: (k, r) in covered <==>
          (k, r) in done || (k == key && r in paramSubscribers[key] - todo)
        decreases |todo|
      {
        var r :| r in todo;
        todo := todo - {r};
        if skip == Some(r.caller) {
          CoversSkip(log, covered, p, x, writer, key, r);
        } else {
          if r.caller !in nodes {
            assert Has(paramSubscribers, key, r);
            ok := false;
            return;
          }
          TellNode(r.caller, task);
          SentMore(s, log, Sending(key, r, task));
          CoversMore(log, covered, p, x, writer, key, r);
          log := log + [Sending(key, r, task)];
        }
        covered := covered + {(key, r)};
      }
    }

    // The value at a path, one subscript at a time.
    static method SubValue(x: Value, path: Path) returns (r: Result<Value>)
      ensures match Lookup(x, path)
              case Some(v) => r == Ok(v)
              case None => r == Err(KeyError) || r == Err(TypeError)
    {
      var v := x;
      var i := 0;
      while i < |path|
        invariant 0 <= i <= |path| && Lookup(x, path) == Lookup(v, path[i..])
      {
        if !v.Dict? {
          return Err(TypeError);
        }
        if path[i] !in v.items {
          return Err(KeyError);
        }
        v := v.items[path[i]];
        i := i + 1;
      }
      r := Ok(v);
    }

    // The first loop: keys at or above the written one, and those below that the written
    // dict has nothing for.
    method AnnounceFirst(key: string, value: Value, all: set<string>, skip: string, ghost s: State, ghost p: Path)
      returns (ok: bool, ghost log: seq<Sending>, ghost covered: set<(string, Registration)>)
      requires Valid() && Abs() == s && Segments(p) && key == Key(p) && all == KeysBelow(key, value)
      modifies nodes.Values
      ensures Valid() && Abs() == Sent(s, log) && Covers(log, covered, p, value, skip) && Found(log, nodes.Keys)
      ensures ok ==> forall k, r :: (k, r) in covered <==> Has(paramSubscribers, k, r) && k !in all
      ensures !ok ==> Missed(paramSubscribers, nodes.Keys, p, value, skip)
    {
      hide Abs, Sent, Due, Call, Covers, AllKeys, Key, Split, Missed, KeysBelow;
      ok, log, covered := true, [], {};
      SentNone(s);
      CoversNone(p, value, skip);
      var todo := paramSubscribers.Keys;
      while todo != {}
        invariant ok && Valid() && todo <= paramSubscribers.Keys
        invariant Abs() == Sent(s, log) && Covers(log, covered, p, value, skip) && Found(log, nodes.Keys)
        invariant forall k, r :: (k, r) in covered <==> Has(paramSubscribers, k, r) && k !in todo && k !in all
        decreases |todo|
      {
        var k :| k in todo;
        if k <= key {
          forall r | r in paramSubscribers[k] { AtOrAbove(k, p, value, r.caller, skip); }
          ok, log, covered := Announce(k, ParamUpdate(WireName(key), value), Some(skip),
                                      s, p, value, skip, log, covered);
          if !ok {
            return;
          }
          assert paramSubscribers[k] != {} ==> k !in all;
        } else if value.Dict? && key <= k && k !in all {
          forall r | r in paramSubscribers[k] { BelowAbsent(k, p, value, r.caller, skip); }
          ok, log, covered := Announce(k, ParamUpdate(WireName(k), EMPTY), Some(skip), s, p, value, skip, log, covered);
          if !ok {
            return;
          }
        } else if k !in all {
          forall r | r in paramSubscribers[k] { Beside(k, p, value, r.caller, skip); }
          ghost var idle := set r | r in paramSubscribers[k] :: (k, r);
          CoversIdle(log, covered, p, value, skip, idle);
          covered := covered + idle;
        }
        todo := todo - {k};
      }
    }

    // The body of the second loop.
    method AnnounceBelow(k: string, key: string, value: Value, ghost skip: string, ghost s: State, ghost p: Path,
                         ghost before: seq<Sending>, ghost done: set<(string, Registration)>)
      returns (r: Result<()>, ghost log: seq<Sending>, ghost covered: set<(string, Registration)>)
      requires Valid() && Segments(p) && key == Key(p) && k in KeysBelow(key, value) && k in paramSubscribers
      requires Abs() == Sent(s, before) && Covers(before, done, p, value, skip) && Found(before, nodes.Keys)
      requires forall q :: q in paramSubscribers[k] ==> (k, q) !in done
      modifies nodes.Values
      ensures Valid() && Abs() == Sent(s, log) && Covers(log, covered, p, value, skip) && Found(log, nodes.Keys)
      ensures r.Ok? ==> !Astray(k, p, value)
      ensures r.Ok? ==>
        forall j, q :: (j, q) in covered <==> (j, q) in done || (j == k && q in paramSubscribers[k])
      ensures r.Err? ==> Failed(r.fault, p, value, skip)
    {
      hide Abs, Sent, Due, Call, Covers, Key, Split, Missed, KeysBelow, Lookup, Found, Astray;
      log, covered := before, done;
      KeysCanonical();
      BelowPresent(k, p, value, "", skip);
      forall q | q in paramSubscribers[k] { BelowPresent(k, p, value, q.caller, skip); }
      var sub := SubValue(value, Split(k[|key|..]));
      if sub.Err? {
        return Err(sub.fault), log, covered;
      }
      var ok;
      ok, log, covered := Announce(k, ParamUpdate(WireName(k), sub.value), None, s, p, value, skip, log, covered);
      r := if ok then Ok(()) else Err(KeyError);
    }

    // The second loop: keys below the written one that the written dict has something for.
    method AnnounceSecond(key: string, value: Value, all: set<string>, ghost skip: string, ghost s: State,
                          ghost p: Path, ghost before: seq<Sending>, ghost done: set<(string, Registration)>)
      returns (r: Result<()>, ghost log: seq<Sending>)
      requires Valid() && Segments(p) && key == Key(p) && all == KeysBelow(key, value)
      requires Abs() == Sent(s, before) && Covers(before, done, p, value, skip) && Found(before, nodes.Keys)
      requires forall k, r :: (k, r) in done <==> Has(paramSubscribers, k, r) && k !in all
      modifies nodes.Values
      ensures Valid() && Abs() == Sent(s, log)
      ensures r.Ok? ==> Announces(paramSubscribers, p, value, skip, log) && Found(log, nodes.Keys)
      ensures r.Ok? ==> !Misnamed(paramSubscribers, p, value)
      ensures r.Err? ==> Failed(r.fault, p, value, skip)
    {
      hide Abs, Sent, Covers, KeysBelow, Announces, Found, Failed, Valid, Key, Lookup, Split;
      log := before;
      r := Ok(());
      ghost var covered := done;
      var todo := all;
      while todo != {}
        invariant r.Ok? && Valid() && todo <= all
        invariant Abs() == Sent(s, log) && Covers(log, covered, p, value, skip) && Found(log, nodes.Keys)
        invariant forall k, r :: (k, r) in covered <==> Has(paramSubscribers, k, r) && k !in todo
        invariant forall k :: k in paramSubscribers && k !in todo ==> !Astray(k, p, value)
        decreases |todo|
      {
        var k :| k in todo;
        if k in paramSubscribers {
          r, log, covered := AnnounceBelow(k, key, value, skip, s, p, log, covered);
          if r.Err? {
            return;
          }
        }
        todo := todo - {k};
      }
      CoversAll(paramSubscribers, log, covered, p, value, skip);
    }

    // How on_param_update fails: a node to be told is not on record, or a name inside the
    // value holds a slash.
    ghost predicate Failed(e: Fault, p: Path, x: Value, writer: string)
      reads this
    {
      || (e == KeyError && Missed(paramSubscribers, nodes.Keys, p, x, writer))
      || ((e == KeyError || e == TypeError) && Misnamed(paramSubscribers, p, x))
    }

    lemma KeysCanonical()
      requires Valid()
      ensures forall k :: k in paramSubscribers ==> k == Key(Split(k))
    {
    }

    method OnParamUpdate(name: string, value: Value, ignore: string) returns (r: Result<()>, ghost log: seq<Sending>)
      requires Valid()
      modifies nodes.Values
      ensures Valid() && Abs() == Sent(old(Abs()), log)
      ensures paramSubscribers == map[] ==> r == Ok(())
      ensures paramSubscribers != map[] && Private(Split(name)) ==> r == Err(ValueError) && log == []
      ensures r.Ok? ==> Announces(paramSubscribers, Split(name), value, ignore, log)
      ensures r.Err? && !Private(Split(name)) ==> Failed(r.fault, Split(name), value, ignore)
      ensures paramSubscribers != map[] && !Private(Split(name)) ==>
        (r.Err? <==>
          || Missed(paramSubscribers, nodes.Keys, Split(name), value, ignore)
          || Misnamed(paramSubscribers, Split(name), value))
    {
      hide Abs, Sent, Due, Call, Covers, AllKeys, Key, Split, Missed, Normalize, Join;
      hide Announces, Misnamed, Astray, Found;
      log := [];
      SentNone(old(Abs()));
      if paramSubscribers == map[] {
        AnnouncesNothing(Split(name), value, ignore);
        return Ok(()), log;
      }
      CanonicalKey(name);
      var key := Normalize(Join([name]));
      if key.Err? {
        return Err(key.fault), log;
      }
      var all := if value.Dict? then AllKeys(key.value, value) else {};
      var ok;
      ghost var covered;
      ok, log, covered := AnnounceFirst(key.value, value, all, ignore, old(Abs()), Split(name));
      if !ok {
        return Err(KeyError), log;
      }
      // for a non-dict there are no such keys, and the code returns here
      r, log := AnnounceSecond(key.value, value, all, ignore, old(Abs()), Split(name), log, covered);
      if r.Ok? {
        FoundAll(paramSubscribers, nodes.Keys, Split(name), value, ignore, log);
      }
    }
  }
}
