// What the master itself has last told each subscriber, whenever it is delivered: the list
// it answered at registration, overwritten by every list it has queued for the node since.
module ToldLists {
  import opened Outcomes
  import opened Registrations
  import opened RegistryRuns
  import opened PublisherQueues
  import opened PublisherViews

  // By caller and topic.
  type Ledger = map<(string, string), set<string>>

  // What a call has queued for a caller's record, be it an old or a new one.
  function Queued(s: State, b: State, c: string): seq<Task> {
    if c !in b.nodes then []
    else if c in s.nodes && s.nodes[c].outbox <= b.nodes[c].outbox then b.nodes[c].outbox[|s.nodes[c].outbox|..]
    else b.nodes[c].outbox
  }

  function Overwritten(told: Ledger, s: State, b: State): Ledger {
    map k | k in told ::
      var x := LastSaid(Queued(s, b, k.0), k.1);
      if x.Some? then x.value else told[k]
  }

  function Noted(told: Ledger, s: State, op: Op, b: State): Ledger {
    var heard := Overwritten(told, s, b);
    if op.RegSubscriber? then heard[(op.caller, op.topic) := Truth(b, op.topic)] else heard
  }

  ghost predicate Notes(told: Ledger, a: World, m: Move, b: World, after: Ledger) {
    after == if m.Call? then Noted(told, a.reg, m.op, b.reg) else told
  }

  // The ledger says of every subscriber's topic who is registered.
  ghost predicate Current(s: State, told: Ledger) {
    forall t, r :: Has(s.subscriptions, t, r) ==> (r.caller, t) in told && told[(r.caller, t)] == Truth(s, t)
  }

  // The queue of a node has grown by nothing about the topic that is not true in the end,
  // and by something if that has changed.
  ghost predicate Heard(s: State, b: State, c: string, t: string) {
    && c in s.nodes && c in b.nodes && s.nodes[c].outbox <= b.nodes[c].outbox
    && var x := LastSaid(b.nodes[c].outbox[|s.nodes[c].outbox|..], t);
       if x.Some? then x.value == Truth(b, t) else Truth(b, t) == Truth(s, t)
  }

  // ----- step by step -----

  lemma HeardThrough(s: State, m: State, b: State, c: string, t: string)
    requires Heard(s, m, c, t) && Heard(m, b, c, t)
    ensures Heard(s, b, c, t)
  {
    hide LastSaid, Truth;
    var p, q, r := s.nodes[c].outbox, m.nodes[c].outbox, b.nodes[c].outbox;
    assert r[|p|..] == q[|p|..] + r[|q|..];
    SaidMore(q[|p|..], r[|q|..], t);
  }

  lemma HeardNothing(s: State, b: State, c: string, t: string)
    requires c in s.nodes && c in b.nodes && b.nodes[c].outbox == s.nodes[c].outbox && Truth(b, t) == Truth(s, t)
    ensures Heard(s, b, c, t)
  {
    var q := s.nodes[c].outbox;
    assert q[|q|..] == [];
    NothingSaid(t);
  }

  // The subscribers of a topic are told after its registrations have changed.
  lemma NotifyHeard(s: State, u: State, topic: string, list: seq<string>, c: string, t: string)
    requires c in s.nodes && c in u.nodes && u.nodes[c].outbox == s.nodes[c].outbox && Subscribes(u, c, t)
    requires t != topic ==> Truth(u, t) == Truth(s, t)
    requires Lists(list, At(u.publications, topic))
    ensures Heard(s, Notify(u, topic, list), c, t)
  {
    hide LastSaid, Lists;
    var n, task := Count(At(u.subscriptions, topic), c), PublisherUpdate(topic, list);
    var q, b := s.nodes[c].outbox, Notify(u, topic, list);
    CountPositive(u, topic, c);
    assert b.nodes[c].outbox == q + Repeat(task, n);
    assert (q + Repeat(task, n))[|q|..] == Repeat(task, n);
    SaidRepeated(task, n, t);
    ListsApis(list, At(u.publications, topic));
  }

  lemma WithdrawOneHeard(s: State, w: Withdrawal, c: string, t: string)
    requires c in s.nodes && Subscribes(s, c, t) && Lists(w.list, At(s.publications, w.topic) - {w.reg})
    ensures Heard(s, WithdrawOne(s, w), c, t)
  {
    hide Lists, Notify, Heard;
    var u := s.(publications := s.publications[w.topic := At(s.publications, w.topic) - {w.reg}]);
    SameSubscribers(s, u, c, t);
    NotifyHeard(s, u, w.topic, w.list, c, t);
  }

  lemma {:induction false} WithdrawHeard(s: State, e: string, log: seq<Withdrawal>, c: string, t: string)
    requires Withdraws(s, e, log) && c in s.nodes && Subscribes(s, c, t)
    ensures Heard(s, Withdraw(s, log), c, t) && Withdraw(s, log).subscriptions == s.subscriptions
    decreases |log|
  {
    hide Lists, WithdrawOne, Heard;
    if log == [] {
      HeardNothing(s, s, c, t);
    } else {
      var before, w := log[..|log| - 1], log[|log| - 1];
      var m := Withdraw(s, before);
      WithdrawHeard(s, e, before, c, t);
      SameSubscribers(s, m, c, t);
      HeardOnRecord(s, m, c, t);
      WithdrawOneHeard(m, w, c, t);
      WithdrawOneBooks(m, w);
      HeardThrough(s, m, WithdrawOne(m, w), c, t);
    }
  }

  lemma HeardOnRecord(s: State, b: State, c: string, t: string)
    requires Heard(s, b, c, t)
    ensures c in b.nodes
  {
  }

  lemma WithdrawOneBooks(s: State, w: Withdrawal)
    ensures WithdrawOne(s, w).subscriptions == s.subscriptions
  {
  }

  // Somebody else's name is taken over.
  lemma EvictedHeard(s: State, e: string, log: seq<Withdrawal>, c: string, t: string)
    requires var u := WithoutServices(Tell(s, e, Shutdown(EVICTED)), e); Withdraws(u, e, log)
    requires c in s.nodes && c != e && Subscribes(s, c, t)
    ensures var b := Evicted(Tell(s, e, Shutdown(EVICTED)), e, log);
      Heard(s, b, c, t) && Subscribes(b, c, t)
  {
    hide Withdraw, Withdraws, Heard, Truth;
    var u := WithoutServices(Tell(s, e, Shutdown(EVICTED)), e);
    EvictionHeard(s, e, c, t);
    WithdrawHeard(u, e, log, c, t);
    var v := Withdraw(u, log);
    HeardThrough(s, u, v, c, t);
    HeardOnRecord(s, v, c, t);
    var b := WithoutSubscriptions(v, e);
    Unsubscribed(v, e, c, t);
    HeardNothing(v, b, c, t);
    HeardThrough(s, v, b, c, t);
  }

  lemma EvictionHeard(s: State, e: string, c: string, t: string)
    requires c in s.nodes && c != e && Subscribes(s, c, t)
    ensures var u := WithoutServices(Tell(s, e, Shutdown(EVICTED)), e);
      Heard(s, u, c, t) && c in u.nodes && Subscribes(u, c, t)
  {
    hide Heard;
    var u := WithoutServices(Tell(s, e, Shutdown(EVICTED)), e);
    SameSubscribers(s, u, c, t);
    HeardNothing(s, u, c, t);
  }

  lemma Unsubscribed(v: State, e: string, c: string, t: string)
    requires Subscribes(v, c, t) && c != e
    ensures var b := WithoutSubscriptions(v, e);
      Subscribes(b, c, t) && b.nodes == v.nodes && Truth(b, t) == Truth(v, t)
  {
    var r :| Has(v.subscriptions, t, r) && r.caller == c;
    assert Has(WithoutSubscriptions(v, e).subscriptions, t, r);
  }

  lemma EnrollHeard(s: State, e: string, api: string, log: seq<Withdrawal>, c: string, t: string)
    requires Enrolls(s, e, api, log) && c in s.nodes && Subscribes(s, c, t) && !(TakesOver(s, e, api) && c == e)
    ensures Heard(s, Enroll(s, e, api, log), c, t) && Subscribes(Enroll(s, e, api, log), c, t)
  {
    hide Evicted, Heard, Truth, Withdraws, Withdraw, Gone;
    var b := Enroll(s, e, api, log);
    if TakesOver(s, e, api) {
      var u := Evicted(Tell(s, e, Shutdown(EVICTED)), e, log);
      EvictedHeard(s, e, log, c, t);
      HeardOnRecord(s, u, c, t);
      SameSubscribers(u, b, c, t);
      FreshHeard(u, e, api, c, t);
      HeardThrough(s, u, b, c, t);
    } else {
      SameSubscribers(s, b, c, t);
      SameTruth(s, b, t);
      HeardNothing(s, b, c, t);
    }
  }

  lemma FreshHeard(u: State, e: string, api: string, c: string, t: string)
    requires c in u.nodes && c != e
    ensures Heard(u, Fresh(u, e, api), c, t)
  {
    hide Heard;
    SameTruth(u, Fresh(u, e, api), t);
    HeardNothing(u, Fresh(u, e, api), c, t);
  }

  // Nothing is queued, and no publisher comes or goes.
  lemma QuietHeard(s: State, b: State, c: string, t: string)
    requires c in s.nodes && c in b.nodes && b.nodes[c].outbox == s.nodes[c].outbox
    requires b.publications == s.publications
    ensures Heard(s, b, c, t)
  {
    hide Heard;
    SameTruth(s, b, t);
    HeardNothing(s, b, c, t);
  }

  lemma ReleaseQuiet(s: State, e: string, k: Kind, name: string, c: string)
    requires c in s.nodes && c in Release(s, e, k, name).nodes
    ensures Release(s, e, k, name).nodes[c].outbox == s.nodes[c].outbox
    ensures Release(s, e, k, name).publications == s.publications
  {
  }

  // ----- the calls -----

  lemma EnrolledHeard(s: State, s1: State, e: string, api: string, log: seq<Withdrawal>, b: State, c: string, t: string)
    requires s1 == s.(types := s1.types) && Enrolls(s1, e, api, log)
    requires c in s.nodes && Subscribes(s, c, t) && !(TakesOver(s, e, api) && c == e)
    requires var m := Enroll(s1, e, api, log);
      && b.publications == m.publications
      && (c in m.nodes ==> c in b.nodes && b.nodes[c].outbox == m.nodes[c].outbox)
    ensures Heard(s, b, c, t)
  {
    hide Enroll, Enrolls, Heard;
    var m := Enroll(s1, e, api, log);
    SameSubscribers(s, s1, c, t);
    QuietHeard(s, s1, c, t);
    EnrollHeard(s1, e, api, log, c, t);
    HeardOnRecord(s1, m, c, t);
    HeardThrough(s, s1, m, c, t);
    QuietHeard(m, b, c, t);
    HeardThrough(s, m, b, c, t);
  }

  lemma ServiceHeard(s: State, op: Op, c: string, t: string)
    requires (op.RegService? || op.RegParam?) && Possible(s, op)
    requires c in s.nodes && Subscribes(s, c, t) && !(Replaces(s, op) && c == op.caller)
    ensures Heard(s, Apply(s, op), c, t)
  {
    hide Enroll, Enrolls, Heard, Names.Canonical;
    if op.RegParam? && Names.Canonical(op.key).Err? {
      QuietHeard(s, s, c, t);
    } else {
      EnrolledHeard(s, s, op.caller, op.api, op.log, Apply(s, op), c, t);
    }
  }

  lemma SubscribeHeard(s: State, op: Op, c: string, t: string)
    requires op.RegSubscriber? && Possible(s, op)
    requires c in s.nodes && Subscribes(s, c, t) && !(Replaces(s, op) && c == op.caller)
    ensures Heard(s, Apply(s, op), c, t)
  {
    hide Enroll, Enrolls, Heard, TypeTopic, Add;
    TypeBooks(s, op.topic, op.topicType);
    EnrolledHeard(s, TypeTopic(s, op.topic, op.topicType), op.caller, op.api, op.log, Apply(s, op), c, t);
  }

  lemma PublishHeard(s: State, op: Op, c: string, t: string)
    requires op.RegPublisher? && Possible(s, op)
    requires c in s.nodes && Subscribes(s, c, t) && !(Replaces(s, op) && c == op.caller)
    ensures Heard(s, Apply(s, op), c, t)
  {
    hide Enroll, Enrolls, Heard, TypeTopic, Lists, Notify, Truth;
    var s1 := TypeTopic(s, op.topic, op.topicType);
    var m := Enroll(s1, op.caller, op.api, op.log);
    var u := AddPublisher(s, op.topic, op.topicType, op.caller, op.api, op.log);
    TypeBooks(s, op.topic, op.topicType);
    EnrolledHeard(s, s1, op.caller, op.api, op.log, m, c, t);
    SameSubscribers(s, s1, c, t);
    EnrollHeard(s1, op.caller, op.api, op.log, c, t);
    HeardOnRecord(s, m, c, t);
    SameSubscribers(m, u, c, t);
    AddTruth(m, u, op.topic, Registration(op.caller, op.api), t);
    NotifyHeard(m, u, op.topic, op.list, c, t);
    HeardThrough(s, m, Apply(s, op), c, t);
  }

  lemma AddTruth(m: State, u: State, topic: string, r: Registration, t: string)
    requires u.publications == Add(m.publications, topic, r)
    ensures t != topic ==> Truth(u, t) == Truth(m, t)
  {
  }

  lemma DropTruth(m: State, u: State, topic: string, r: Registration, t: string)
    requires u.publications == Discard(m.publications, topic, r)
    ensures t != topic ==> Truth(u, t) == Truth(m, t)
  {
  }

  lemma UnpublishHeard(s: State, op: Op, c: string, t: string)
    requires op.UnregPublisher? && Possible(s, op)
    requires c in s.nodes && c in Apply(s, op).nodes && Subscribes(s, c, t)
    ensures Heard(s, Apply(s, op), c, t)
  {
    hide Heard, Lists, Notify, Truth, Discard, Release, CheckTopic;
    var x := Registration(op.caller, op.api);
    var s1 := s.(publications := Discard(s.publications, op.topic, x));
    var u := DropPublisher(s, op.topic, op.caller, op.api);
    DropBooks(s, op.topic, op.caller, op.api);
    NotifyBooks(u, op.topic, op.list);
    CheckTopicBooks(Release(s1, op.caller, Publication, op.topic), op.topic);
    ReleaseQuiet(s1, op.caller, Publication, op.topic, c);
    SameSubscribers(s, u, c, t);
    DropTruth(s, u, op.topic, x, t);
    NotifyHeard(s, u, op.topic, op.list, c, t);
  }

  lemma UnregisterHeard(s: State, op: Op, c: string, t: string)
    requires op.UnregService? || op.UnregSubscriber? || op.UnregParam?
    requires c in s.nodes && c in Apply(s, op).nodes
    ensures Heard(s, Apply(s, op), c, t)
  {
    hide Heard, Discard, Release, CheckTopic, Names.Canonical;
    match op {
      case UnregService(n, e) => ReleaseQuiet(s.(services := s.services - {n}), e, Service, n, c);
      case UnregSubscriber(topic, e, api) =>
        var s1 := s.(subscriptions := Discard(s.subscriptions, topic, Registration(e, api)));
        CheckTopicBooks(Release(s1, e, Subscription, topic), topic);
        ReleaseQuiet(s1, e, Subscription, topic, c);
      case UnregParam(k, e, api) =>
        if Names.Canonical(k).Ok? {
          var key := Names.Canonical(k).value;
          ReleaseQuiet(s.(params := Discard(s.params, key, Registration(e, api))), e, Param, key, c);
        }
    }
    QuietHeard(s, Apply(s, op), c, t);
  }

  // What a call tells a subscriber that keeps its name is enough to know the publishers.
  lemma CallHeard(s: State, op: Op, c: string, t: string)
    requires Possible(s, op) && Subscribes(s, c, t) && !(Replaces(s, op) && c == op.caller)
    requires c in s.nodes && c in Apply(s, op).nodes
    ensures Heard(s, Apply(s, op), c, t)
  {
    hide Heard, Possible, Apply, Replaces;
    if op.RegService? || op.RegParam? {
      ServiceHeard(s, op, c, t);
    } else if op.RegSubscriber? {
      SubscribeHeard(s, op, c, t);
    } else if op.RegPublisher? {
      PublishHeard(s, op, c, t);
    } else if op.UnregPublisher? {
      UnpublishHeard(s, op, c, t);
    } else {
      UnregisterHeard(s, op, c, t);
    }
  }

  lemma NotedHeard(told: Ledger, s: State, op: Op, b: State, c: string, t: string)
    requires Heard(s, b, c, t) && (c, t) in told && told[(c, t)] == Truth(s, t)
    ensures (c, t) in Noted(told, s, op, b) && Noted(told, s, op, b)[(c, t)] == Truth(b, t)
  {
    hide LastSaid, Truth;
    assert Queued(s, b, c) == b.nodes[c].outbox[|s.nodes[c].outbox|..];
  }

  lemma NotedAnswer(told: Ledger, s: State, op: Op, b: State)
    requires op.RegSubscriber?
    ensures var k := (op.caller, op.topic); k in Noted(told, s, op, b) && Noted(told, s, op, b)[k] == Truth(b, op.topic)
  {
    hide Truth, Overwritten;
  }

  // Every call, takeovers included, leaves the ledger right.
  lemma CallCurrent(s: State, op: Op, told: Ledger)
    requires Possible(s, op) && Agreement(s) && Agreement(Apply(s, op)) && Current(s, told)
    ensures Current(Apply(s, op), Noted(told, s, op, Apply(s, op)))
  {
    hide Possible, Agreement, Apply, Replaces, Truth, Noted, Heard;
    var b := Apply(s, op);
    CallBooks(s, op);
    SubscribersKnown(s);
    SubscribersKnown(b);
    forall t, r | Has(b.subscriptions, t, r)
      ensures (r.caller, t) in Noted(told, s, op, b) && Noted(told, s, op, b)[(r.caller, t)] == Truth(b, t)
    {
      assert Remains(s, op, t, r);
      if op.RegSubscriber? && (op.caller, op.topic) == (r.caller, t) {
        NotedAnswer(told, s, op, b);
      } else {
        assert Has(s.subscriptions, t, r) && Subscribes(s, r.caller, t);
        CallHeard(s, op, r.caller, t);
        NotedHeard(told, s, op, b, r.caller, t);
      }
    }
  }

  lemma PopCurrent(s: State, l: Line, told: Ledger)
    requires There(s, l) && RecordOf(s, l).outbox != [] && Current(s, told)
    ensures Current(Pop(s, l), told)
  {
    hide Truth, Pop;
    PopLine(s, l, l);
    forall t
      ensures Truth(Pop(s, l), t) == Truth(s, t)
    {
      SameTruth(s, Pop(s, l), t);
    }
  }

  // Over every run, whatever the order of calls and deliveries: for each subscription the
  // answer to it, overwritten by what has been queued for its node since, is the set of
  // registered APIs.
  lemma {:induction false} RunCurrent(worlds: seq<World>, moves: seq<Move>, ledgers: seq<Ledger>, n: nat)
    requires WorldRun(worlds, moves) && n <= |moves| && |ledgers| == |worlds| && ledgers[0] == map[]
    requires forall i :: 0 <= i < |moves| ==> Notes(ledgers[i], worlds[i], moves[i], worlds[i + 1], ledgers[i + 1])
    ensures Current(worlds[n].reg, ledgers[n])
    decreases n
  {
    hide Current, Agreement, Answered, Noted, Pop, Apply, Possible, OnRecord;
    if n > 0 {
      var a, m, b := worlds[n - 1], moves[n - 1], worlds[n];
      assert Next(a, m, b);
      RunCurrent(worlds, moves, ledgers, n - 1);
      assert Notes(ledgers[n - 1], a, m, b, ledgers[n]);
      match m
      case Call(op) =>
        RunAnswered(worlds, moves, n - 1);
        RunAnswered(worlds, moves, n);
        CallCurrent(a.reg, op, ledgers[n - 1]);
      case Deliver(l) => PopCurrent(a.reg, l, ledgers[n - 1]);
      case Lose(l) => PopCurrent(a.reg, l, ledgers[n - 1]);
    } else {
      StartCurrent();
    }
  }

  lemma StartCurrent()
    ensures Current(START, map[])
  {
  }
}
