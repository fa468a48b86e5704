// The queues of calls the registry keeps for nodes, and what they say about the publishers
// of a topic: before a call, and after it, in terms of the state before.
module PublisherQueues {
  import opened Outcomes
  import opened Registrations
  import opened RegistryRuns

  // A queue of calls: that of a node on record, or of a retired record.
  datatype Line = Live(caller: string) | Retired(at: nat)

  function SetOf(list: seq<string>): set<string> {
    set x | x in list
  }

  function Apis(regs: set<Registration>): set<string> {
    set r | r in regs :: r.api
  }

  function Truth(s: State, topic: string): set<string> {
    Apis(At(s.publications, topic))
  }

  predicate There(s: State, l: Line) {
    match l
    case Live(c) => c in s.nodes
    case Retired(i) => i < |s.retired|
  }

  function RecordOf(s: State, l: Line): Record
    requires There(s, l)
  {
    match l
    case Live(c) => s.nodes[c]
    case Retired(i) => s.retired[i]
  }

  // The serve loop takes the first call.
  function Pop(s: State, l: Line): State
    requires There(s, l) && RecordOf(s, l).outbox != []
  {
    var r := RecordOf(s, l);
    var rest := r.(outbox := r.outbox[1..]);
    match l
    case Live(c) => s.(nodes := s.nodes[c := rest])
    case Retired(i) => s.(retired := s.retired[i := rest])
  }

  // The queue leads to the API.
  predicate To(s: State, l: Line, api: string) {
    There(s, l) && RecordOf(s, l).api == api
  }

  predicate About(task: Task, topic: string) {
    task.PublisherUpdate? && task.topic == topic
  }

  // The last list of a topic in a queue.
  function LastSaid(tasks: seq<Task>, topic: string): Option<set<string>>
    decreases |tasks|
  {
    if tasks == [] then None
    else if About(tasks[|tasks| - 1], topic) then Some(SetOf(tasks[|tasks| - 1].publishers))
    else LastSaid(tasks[..|tasks| - 1], topic)
  }

  function Said(s: State, l: Line, topic: string): Option<set<string>>
    requires There(s, l)
  {
    LastSaid(RecordOf(s, l).outbox, topic)
  }

  predicate Contradicts(said: Option<set<string>>, truth: set<string>) {
    said.Some? && said.value != truth
  }

  // ----- what a call will do, seen before it -----

  ghost predicate Subscribes(s: State, c: string, topic: string) {
    exists r :: Has(s.subscriptions, topic, r) && r.caller == c
  }

  ghost predicate Publishes(s: State, c: string, topic: string) {
    exists r :: Has(s.publications, topic, r) && r.caller == c
  }

  function Others(regs: set<Registration>, c: string): set<Registration> {
    set r | r in regs && r.caller != c
  }

  predicate Announces(op: Op, topic: string) {
    (op.RegPublisher? || op.UnregPublisher?) && op.topic == topic
  }

  // The registrations of a topic after the call.
  function Left(s: State, op: Op, topic: string): set<Registration> {
    var regs := if Replaces(s, op) then Others(At(s.publications, topic), op.caller) else At(s.publications, topic);
    if op.RegPublisher? && op.topic == topic then regs + {Registration(op.caller, op.api)}
    else if op.UnregPublisher? && op.topic == topic then regs - {Registration(op.caller, op.api)}
    else regs
  }

  // What a queue last says of a topic after the call: the list sent to the topic's
  // subscribers, the one sent when the name's publications were withdrawn, or as before.
  ghost function Now(s: State, op: Op, l: Line, topic: string): Option<set<string>>
    requires There(s, l)
  {
    if l.Live? && Subscribes(s, l.caller, topic) && Announces(op, topic) &&
       !(Replaces(s, op) && l.caller == op.caller) then
      Some(Apis(Left(s, op, topic)))
    else
      Withdrawn(s, op.caller, Replaces(s, op), l, topic)
  }

  ghost function Withdrawn(s: State, c: string, taken: bool, l: Line, topic: string): Option<set<string>>
    requires There(s, l)
  {
    if l.Live? && Subscribes(s, l.caller, topic) && taken && Publishes(s, c, topic) then
      Some(Apis(Others(At(s.publications, topic), c)))
    else
      Said(s, l, topic)
  }

  // The registration is a subscription after the call.
  predicate Remains(s: State, op: Op, topic: string, r: Registration) {
    || (op.RegSubscriber? && op.topic == topic && r == Registration(op.caller, op.api))
    || (Has(s.subscriptions, topic, r) && !(Replaces(s, op) && r.caller == op.caller)
        && !(op.UnregSubscriber? && op.topic == topic && r == Registration(op.caller, op.api)))
  }

  // ----- about queues -----

  lemma {:induction false} SaidMore(q: seq<Task>, more: seq<Task>, topic: string)
    ensures LastSaid(q + more, topic) ==
            if LastSaid(more, topic).Some? then LastSaid(more, topic) else LastSaid(q, topic)
    decreases |more|
  {
    if more == [] {
      assert q + more == q;
    } else {
      assert (q + more)[..|q + more| - 1] == q + more[..|more| - 1];
      SaidMore(q, more[..|more| - 1], topic);
    }
  }

  lemma SaidRest(q: seq<Task>, topic: string)
    requires q != []
    ensures LastSaid(q, topic) ==
            if LastSaid(q[1..], topic).Some? then LastSaid(q[1..], topic)
            else if About(q[0], topic) then Some(SetOf(q[0].publishers)) else None
  {
    assert q == [q[0]] + q[1..];
    SaidMore([q[0]], q[1..], topic);
    assert [q[0]][..0] == [];
  }

  lemma {:induction false} SaidRepeated(task: Task, n: nat, topic: string)
    ensures LastSaid(Repeat(task, n), topic) ==
            if n > 0 && About(task, topic) then Some(SetOf(task.publishers)) else None
    decreases n
  {
    if n > 0 {
      assert Repeat(task, n)[..n - 1] == Repeat(task, n - 1);
      SaidRepeated(task, n - 1, topic);
    }
  }

  lemma ListsApis(list: seq<string>, regs: set<Registration>)
    requires Lists(list, regs)
    ensures SetOf(list) == Apis(regs)
  {
  }

  lemma CountPositive(s: State, topic: string, c: string)
    ensures Count(At(s.subscriptions, topic), c) > 0 <==> Subscribes(s, c, topic)
  {
    var mine := set x | x in At(s.subscriptions, topic) && x.caller == c;
    if r :| Has(s.subscriptions, topic, r) && r.caller == c {
      assert r in mine;
    }
    if mine != {} {
      var r :| r in mine;
      assert Has(s.subscriptions, topic, r);
    }
  }

  // Telling the subscribers of a topic.
  lemma NotifySaid(s: State, topic: string, list: seq<string>, l: Line, t: string)
    requires There(s, l)
    ensures var b := Notify(s, topic, list);
      && There(b, l) && RecordOf(b, l).api == RecordOf(s, l).api
      && Said(b, l, t) ==
           if t == topic && l.Live? && Subscribes(s, l.caller, topic) then Some(SetOf(list)) else Said(s, l, t)
  {
    if l.Live? {
      var n := Count(At(s.subscriptions, topic), l.caller);
      CountPositive(s, topic, l.caller);
      SaidMore(s.nodes[l.caller].outbox, Repeat(PublisherUpdate(topic, list), n), t);
      SaidRepeated(PublisherUpdate(topic, list), n, t);
    }
  }

  // Each node gets the list once for each of its registrations, behind what was queued.
  lemma NotifyExact(s: State, topic: string, list: seq<string>, c: string)
    requires c in s.nodes
    ensures var q, r := s.nodes[c].outbox, Notify(s, topic, list).nodes[c].outbox;
      && |r| == |q| + |set x | x in At(s.subscriptions, topic) && x.caller == c| && r[..|q|] == q
      && forall i :: |q| <= i < |r| ==> r[i] == PublisherUpdate(topic, list)
  {
  }

  // ----- the queues through a call -----

  // Where a queue is found after a call of c: a call retires at most one record, c's.
  function Image(s: State, b: State, c: string, l: Line): Line {
    if l == Live(c) && |b.retired| > |s.retired| then Retired(|s.retired|) else l
  }

  // Every queue is kept, and any other is empty.
  ghost predicate Kept(s: State, b: State, c: string) {
    && (forall l :: There(s, l) ==> To(b, Image(s, b, c, l), RecordOf(s, l).api))
    && (forall m :: There(b, m) ==> RecordOf(b, m).outbox == [] || exists l :: There(s, l) && Image(s, b, c, l) == m)
  }

  ghost predicate InLog(log: seq<Withdrawal>, topic: string) {
    exists i :: 0 <= i < |log| && log[i].topic == topic
  }

  lemma WithdrawOneSaid(s: State, w: Withdrawal, l: Line, t: string)
    requires There(s, l) && Lists(w.list, At(s.publications, w.topic) - {w.reg})
    ensures var b := WithdrawOne(s, w);
      && To(b, l, RecordOf(s, l).api) && b.subscriptions == s.subscriptions
      && (t != w.topic ==> Truth(b, t) == Truth(s, t))
      && Said(b, l, t) ==
           if t == w.topic && l.Live? && Subscribes(s, l.caller, t) then Some(Truth(b, t)) else Said(s, l, t)
  {
    hide LastSaid, Lists, Notify;
    var u := s.(publications := s.publications[w.topic := At(s.publications, w.topic) - {w.reg}]);
    NotifySaid(u, w.topic, w.list, l, t);
    NotifyBooks(u, w.topic, w.list);
    ListsApis(w.list, At(s.publications, w.topic) - {w.reg});
    if l.Live? {
      SameSubscribers(s, u, l.caller, t);
    }
  }

  lemma SameSubscribers(s: State, t: State, c: string, topic: string)
    requires t.subscriptions == s.subscriptions
    ensures Subscribes(t, c, topic) <==> Subscribes(s, c, topic)
  {
  }

  lemma {:induction false} WithdrawSaid(s: State, c: string, log: seq<Withdrawal>, l: Line, t: string)
    requires Withdraws(s, c, log) && There(s, l)
    ensures var b := Withdraw(s, log);
      && To(b, l, RecordOf(s, l).api) && b.subscriptions == s.subscriptions
      && Said(b, l, t) ==
         if l.Live? && Subscribes(s, l.caller, t) && InLog(log, t) then Some(Truth(b, t)) else Said(s, l, t)
    decreases |log|
  {
    hide LastSaid, WithdrawOne, Lists;
    if log != [] {
      var before, w := log[..|log| - 1], log[|log| - 1];
      WithdrawSaid(s, c, before, l, t);
      InLogMore(log, t);
      WithdrawOneSaid(Withdraw(s, before), w, l, t);
      if l.Live? {
        SameSubscribers(s, Withdraw(s, before), l.caller, t);
      }
    }
  }

  lemma InLogMore(log: seq<Withdrawal>, t: string)
    requires log != []
    ensures InLog(log, t) <==> InLog(log[..|log| - 1], t) || log[|log| - 1].topic == t
  {
    var before := log[..|log| - 1];
    if i :| 0 <= i < |log| && log[i].topic == t {
      assert i < |before| ==> before[i].topic == t;
    }
    if i :| 0 <= i < |before| && before[i].topic == t {
      assert log[i].topic == t;
    }
  }

  // The log is about the topics c publishes.
  lemma {:induction false} LogTopics(s: State, c: string, log: seq<Withdrawal>, t: string)
    requires Withdraws(s, c, log)
    ensures InLog(log, t) ==> Publishes(s, c, t)
    ensures !InLog(log, t) ==> At(Withdraw(s, log).publications, t) == At(s.publications, t)
    decreases |log|
  {
    if log != [] {
      var n := |log| - 1;
      LogTopics(s, c, log[..n], t);
      WithdrawLeaves(s, c, log[..n]);
      InLogMore(log, t);
      var a, w := Withdraw(s, log[..n]), log[n];
      NotifyBooks(a.(publications := a.publications[w.topic := At(a.publications, w.topic) - {w.reg}]),
                  w.topic, w.list);
    }
  }

  // Once the log has removed all of c's, the others' are left.
  lemma LogLeaves(s: State, c: string, log: seq<Withdrawal>, t: string)
    requires Withdraws(s, c, log) && Gone(Withdraw(s, log).publications, c)
    ensures InLog(log, t) <==> Publishes(s, c, t)
    ensures At(Withdraw(s, log).publications, t) == Others(At(s.publications, t), c)
  {
    hide Withdraw, Withdraws;
    var b := Withdraw(s, log);
    LogTopics(s, c, log, t);
    WithdrawLeaves(s, c, log);
    assert forall r :: r in At(b.publications, t) <==> Has(b.publications, t, r);
    assert forall r :: r in At(s.publications, t) <==> Has(s.publications, t, r);
  }

  lemma TellSaid(s: State, c: string, msg: string, l: Line, t: string)
    requires There(s, l)
    ensures var b := Tell(s, c, Shutdown(msg));
      To(b, l, RecordOf(s, l).api) && Said(b, l, t) == Said(s, l, t)
  {
    if l == Live(c) {
      SaidMore(s.nodes[c].outbox, [Shutdown(msg)], t);
      assert [Shutdown(msg)][..0] == [];
    }
  }

  // An eviction, up to the replacement of the record.
  lemma EvictedSaid(s: State, c: string, log: seq<Withdrawal>, l: Line, t: string)
    requires There(s, l)
    requires var u := WithoutServices(Tell(s, c, Shutdown(EVICTED)), c);
      Withdraws(u, c, log) && Gone(Withdraw(u, log).publications, c)
    ensures var b := Evicted(Tell(s, c, Shutdown(EVICTED)), c, log);
      && To(b, l, RecordOf(s, l).api) && b.retired == s.retired && b.nodes.Keys == s.nodes.Keys
      && Said(b, l, t) == Withdrawn(s, c, true, l, t)
  {
    hide LastSaid, Withdraw, Withdraws, WithoutServices, Tell, Gone;
    var a := Tell(s, c, Shutdown(EVICTED));
    var u := WithoutServices(a, c);
    TellSaid(s, c, EVICTED, l, t);
    TellBooks(s, c, Shutdown(EVICTED));
    WithoutServicesAt(a, c);
    assert Said(u, l, t) == Said(s, l, t);
    WithdrawSaid(u, c, log, l, t);
    LogLeaves(u, c, log, t);
    WithdrawnBooks(u, c, log);
    SamePublishers(s, u, c, t);
    if l.Live? {
      SameSubscribers(s, u, l.caller, t);
    }
  }

  lemma WithdrawnBooks(s: State, c: string, log: seq<Withdrawal>)
    requires Withdraws(s, c, log)
    ensures Withdraw(s, log).retired == s.retired && Withdraw(s, log).nodes.Keys == s.nodes.Keys
  {
    WithdrawLeaves(s, c, log);
    WithdrawRetires(s, log);
  }

  lemma {:induction false} WithdrawRetires(s: State, log: seq<Withdrawal>)
    ensures Withdraw(s, log).retired == s.retired
    decreases |log|
  {
    if log != [] {
      WithdrawRetires(s, log[..|log| - 1]);
    }
  }

  lemma SamePublishers(s: State, t: State, c: string, topic: string)
    requires t.publications == s.publications
    ensures Publishes(t, c, topic) <==> Publishes(s, c, topic)
  {
  }

  // What enrolling c does to the queues.
  ghost predicate EnrollLines(s: State, b: State, c: string, taken: bool) {
    && Kept(s, b, c)
    && forall l, t :: There(s, l) ==> Said(b, Image(s, b, c, l), t) == Withdrawn(s, c, taken, l, t)
  }

  lemma EnrollSaid(s: State, c: string, api: string, log: seq<Withdrawal>)
    requires Enrolls(s, c, api, log)
    ensures EnrollLines(s, Enroll(s, c, api, log), c, TakesOver(s, c, api))
  {
    hide LastSaid, Evicted, Enrolls, Withdraws;
    if TakesOver(s, c, api) {
      TakenSaid(s, c, api, log);
    } else {
      var b := Enroll(s, c, api, log);
      forall m | There(b, m)
        ensures RecordOf(b, m).outbox == [] || exists l :: There(s, l) && Image(s, b, c, l) == m
      {
        assert There(s, m) ==> Image(s, b, c, m) == m;
      }
    }
  }

  lemma TakenSaid(s: State, c: string, api: string, log: seq<Withdrawal>)
    requires Enrolls(s, c, api, log) && TakesOver(s, c, api)
    ensures EnrollLines(s, Enroll(s, c, api, log), c, true)
  {
    hide LastSaid, Withdraw, Withdraws, Gone, Evicted, Withdrawn;
    var u := Evicted(Tell(s, c, Shutdown(EVICTED)), c, log);
    var b := Enroll(s, c, api, log);
    assert b == Fresh(u, c, api);
    forall l | There(s, l)
      ensures To(b, Image(s, b, c, l), RecordOf(s, l).api)
      ensures forall t :: Said(b, Image(s, b, c, l), t) == Withdrawn(s, c, true, l, t)
    {
      EvictedSaid(s, c, log, l, "");
      assert RecordOf(b, Image(s, b, c, l)) == RecordOf(u, l);
      forall t
        ensures Said(b, Image(s, b, c, l), t) == Withdrawn(s, c, true, l, t)
      {
        EvictedSaid(s, c, log, l, t);
      }
    }
    EvictedSaid(s, c, log, Live(c), "");
    forall m | There(b, m)
      ensures RecordOf(b, m).outbox == [] || exists l :: There(s, l) && Image(s, b, c, l) == m
    {
      var l := if m == Retired(|s.retired|) then Live(c) else m;
      assert m != Live(c) ==> There(s, l) && Image(s, b, c, l) == m;
    }
  }

  // ----- the registrations through a call -----

  lemma EnrollBooks(s: State, c: string, api: string, log: seq<Withdrawal>)
    requires Enrolls(s, c, api, log)
    ensures var b := Enroll(s, c, api, log);
      && (forall k, r :: Has(b.publications, k, r) <==>
          Has(s.publications, k, r) && !(TakesOver(s, c, api) && r.caller == c))
      && (forall k, r :: Has(b.subscriptions, k, r) <==>
          Has(s.subscriptions, k, r) && !(TakesOver(s, c, api) && r.caller == c))
  {
    hide Evicted, Enrolls;
    if TakesOver(s, c, api) {
      hide Enroll;
      TakeoverClears(s, c, api, log);
    }
  }

  lemma ReleaseBooks(s: State, c: string, k: Kind, name: string)
    ensures var b := Release(s, c, k, name);
      b.publications == s.publications && b.subscriptions == s.subscriptions
  {
  }

  lemma CheckTopicBooks(s: State, topic: string)
    ensures CheckTopic(s, topic) == s.(types := CheckTopic(s, topic).types)
  {
  }

  lemma TypeBooks(s: State, topic: string, topicType: string)
    ensures TypeTopic(s, topic, topicType) == s.(types := TypeTopic(s, topic, topicType).types)
  {
  }

  lemma DropBooks(s: State, topic: string, c: string, api: string)
    ensures var b := DropPublisher(s, topic, c, api);
      && b.subscriptions == s.subscriptions
      && b.publications == Discard(s.publications, topic, Registration(c, api))
  {
    hide Discard, Release, CheckTopic;
    var t := s.(publications := Discard(s.publications, topic, Registration(c, api)));
    ReleaseBooks(t, c, Publication, topic);
    CheckTopicBooks(Release(t, c, Publication, topic), topic);
  }

  lemma UnsubscribeBooks(s: State, topic: string, c: string, api: string)
    ensures var b := UnregisterSubscriber(s, topic, c, api);
      && b.publications == s.publications
      && b.subscriptions == Discard(s.subscriptions, topic, Registration(c, api))
  {
    hide Discard, Release, CheckTopic;
    var t := s.(subscriptions := Discard(s.subscriptions, topic, Registration(c, api)));
    ReleaseBooks(t, c, Subscription, topic);
    CheckTopicBooks(Release(t, c, Subscription, topic), topic);
  }

  // A call changes publications and subscriptions as expected.
  ghost predicate BooksAfter(s: State, op: Op, b: State) {
    && (forall t, r :: Has(b.publications, t, r) <==> r in Left(s, op, t))
    && (forall t, r :: Has(b.subscriptions, t, r) <==> Remains(s, op, t, r))
  }

  lemma SubscribeBooks(s: State, op: Op)
    requires op.RegSubscriber? && Possible(s, op)
    ensures BooksAfter(s, op, Apply(s, op))
  {
    hide Enroll, Enrolls, TypeTopic, Add, TakesOver;
    var c, api := op.caller, op.api;
    var s1 := TypeTopic(s, op.topic, op.topicType);
    TypeBooks(s, op.topic, op.topicType);
    EnrollBooks(s1, c, api, op.log);
    SameTakeover(s, s1, c, api);
    AddAt(Enroll(s1, c, api, op.log).subscriptions, op.topic, Registration(c, api));
  }

  lemma PublishBooks(s: State, op: Op)
    requires op.RegPublisher? && Possible(s, op)
    ensures BooksAfter(s, op, Apply(s, op))
  {
    hide Enroll, Enrolls, TypeTopic, Add, Notify, Lists, TakesOver;
    var c, api := op.caller, op.api;
    var s1 := TypeTopic(s, op.topic, op.topicType);
    TypeBooks(s, op.topic, op.topicType);
    EnrollBooks(s1, c, api, op.log);
    SameTakeover(s, s1, c, api);
    AddAt(Enroll(s1, c, api, op.log).publications, op.topic, Registration(c, api));
    NotifyBooks(AddPublisher(s, op.topic, op.topicType, c, api, op.log), op.topic, op.list);
  }

  lemma SameTakeover(s: State, t: State, c: string, api: string)
    requires t.nodes == s.nodes
    ensures TakesOver(t, c, api) == TakesOver(s, c, api)
  {
  }

  lemma UnregisterBooks(s: State, op: Op)
    requires op.UnregSubscriber? || op.UnregPublisher?
    ensures BooksAfter(s, op, Apply(s, op))
  {
    hide DropPublisher, UnregisterSubscriber, Discard, Notify;
    var x := Registration(op.caller, op.api);
    DiscardAt(s.publications, op.topic, x);
    DiscardAt(s.subscriptions, op.topic, x);
    if op.UnregPublisher? {
      DropBooks(s, op.topic, op.caller, op.api);
      NotifyBooks(DropPublisher(s, op.topic, op.caller, op.api), op.topic, op.list);
    } else {
      UnsubscribeBooks(s, op.topic, op.caller, op.api);
    }
  }

  lemma OtherBooks(s: State, op: Op)
    requires Possible(s, op) && (op.RegService? || op.UnregService? || op.RegParam? || op.UnregParam?)
    ensures BooksAfter(s, op, Apply(s, op))
  {
    hide Enroll, Enrolls, Release, Names.Canonical;
    match op
    case RegService(_, c, a, _, log) => EnrollBooks(s, c, a, log);
    case UnregService(n, c) => ReleaseBooks(s.(services := s.services - {n}), c, Service, n);
    case RegParam(k, c, a, log) => EnrollBooks(s, c, a, log);
    case UnregParam(k, c, a) =>
      if Names.Canonical(k).Ok? {
        var key := Names.Canonical(k).value;
        ReleaseBooks(s.(params := Discard(s.params, key, Registration(c, a))), c, Param, key);
      }
  }

  lemma CallBooks(s: State, op: Op)
    requires Possible(s, op)
    ensures BooksAfter(s, op, Apply(s, op))
    ensures forall t :: Truth(Apply(s, op), t) == Apis(Left(s, op, t))
  {
    hide Apply, Possible, Left, Remains;
    if op.RegSubscriber? {
      SubscribeBooks(s, op);
    } else if op.RegPublisher? {
      PublishBooks(s, op);
    } else if op.UnregSubscriber? || op.UnregPublisher? {
      UnregisterBooks(s, op);
    } else {
      OtherBooks(s, op);
    }
    var b := Apply(s, op);
    forall t
      ensures At(b.publications, t) == Left(s, op, t)
    {
      assert forall r :: r in At(b.publications, t) <==> Has(b.publications, t, r);
    }
  }

  // ----- the queues through each kind of call -----

  ghost predicate LinesAfter(s: State, op: Op, b: State) {
    && Kept(s, b, op.caller)
    && forall l, t :: There(s, l) ==> Said(b, Image(s, b, op.caller, l), t) == Now(s, op, l, t)
  }

  // Nothing but the books of records differs.
  ghost predicate SameLines(a: State, b: State) {
    && b.retired == a.retired && b.nodes.Keys == a.nodes.Keys
    && forall c :: c in a.nodes ==> b.nodes[c].api == a.nodes[c].api && b.nodes[c].outbox == a.nodes[c].outbox
  }

  lemma SameLinesKept(s: State, a: State, b: State, c: string, taken: bool)
    requires EnrollLines(s, a, c, taken) && SameLines(a, b)
    ensures EnrollLines(s, b, c, taken)
  {
    hide LastSaid, Withdrawn;
    forall l | There(s, l)
      ensures To(b, Image(s, b, c, l), RecordOf(s, l).api)
      ensures forall t :: Said(b, Image(s, b, c, l), t) == Withdrawn(s, c, taken, l, t)
    {
      assert To(a, Image(s, a, c, l), RecordOf(s, l).api);
      forall t
        ensures Said(b, Image(s, b, c, l), t) == Withdrawn(s, c, taken, l, t)
      {
        assert Said(a, Image(s, a, c, l), t) == Withdrawn(s, c, taken, l, t);
      }
    }
    forall m | There(b, m)
      ensures RecordOf(b, m).outbox == [] || exists l :: There(s, l) && Image(s, b, c, l) == m
    {
      assert There(a, m);
      if RecordOf(a, m).outbox != [] {
        var l :| There(s, l) && Image(s, a, c, l) == m;
        assert Image(s, b, c, l) == m;
      }
    }
  }

  lemma SameBefore(s: State, s1: State, b: State, c: string, taken: bool)
    requires EnrollLines(s1, b, c, taken) && s1.nodes == s.nodes && s1.retired == s.retired
    requires taken ==> s1.publications == s.publications && s1.subscriptions == s.subscriptions
    ensures EnrollLines(s, b, c, taken)
  {
    hide LastSaid;
    forall l | There(s, l)
      ensures To(b, Image(s, b, c, l), RecordOf(s, l).api)
    {
      assert There(s1, l);
    }
    forall l, t | There(s, l)
      ensures Said(b, Image(s, b, c, l), t) == Withdrawn(s, c, taken, l, t)
    {
      assert There(s1, l) && Image(s1, b, c, l) == Image(s, b, c, l);
      if taken {
        SamePublishers(s, s1, c, t);
        if l.Live? {
          SameSubscribers(s, s1, l.caller, t);
        }
      }
    }
    forall m | There(b, m)
      ensures RecordOf(b, m).outbox == [] || exists l :: There(s, l) && Image(s, b, c, l) == m
    {
      if RecordOf(b, m).outbox != [] {
        var l :| There(s1, l) && Image(s1, b, c, l) == m;
        assert There(s, l) && Image(s, b, c, l) == m;
      }
    }
  }

  lemma HoldLines(s: State, b: State, c: string, k: Kind, name: string)
    requires c in s.nodes && b.nodes == Hold(s, c, k, name).nodes && b.retired == s.retired
    ensures SameLines(s, b)
  {
  }

  // A record that gives up a name stays or is retired, with its queue.
  lemma ReleaseRecord(s: State, c: string, k: Kind, name: string)
    ensures var b := Release(s, c, k, name);
      || (SameLines(s, b))
      || (c in s.nodes && b.nodes == s.nodes - {c} && |b.retired| == |s.retired| + 1 &&
          b.retired[..|s.retired|] == s.retired
          && b.retired[|s.retired|].api == s.nodes[c].api && b.retired[|s.retired|].outbox == s.nodes[c].outbox)
  {
    if c in s.nodes {
      var r := Holding(s.nodes[c], k, Held(s.nodes[c], k) - {name});
      var u := s.(nodes := s.nodes[c := r]);
      assert u.nodes - {c} == s.nodes - {c};
      if Busy(r) {
        assert SameLines(s, u);
      }
    }
  }

  lemma ReleaseSaid(s: State, c: string, k: Kind, name: string)
    ensures EnrollLines(s, Release(s, c, k, name), c, false)
  {
    hide LastSaid, Release;
    var b := Release(s, c, k, name);
    ReleaseRecord(s, c, k, name);
    forall l | There(s, l)
      ensures To(b, Image(s, b, c, l), RecordOf(s, l).api)
      ensures RecordOf(b, Image(s, b, c, l)).outbox == RecordOf(s, l).outbox
    {
      if |b.retired| > |s.retired| && l.Retired? {
        assert b.retired[..|s.retired|][l.at] == s.retired[l.at];
      }
    }
    forall m | There(b, m)
      ensures RecordOf(b, m).outbox == [] || exists l :: There(s, l) && Image(s, b, c, l) == m
    {
      var l := if m == Retired(|s.retired|) then Live(c) else m;
      assert There(s, l) && Image(s, b, c, l) == m;
    }
  }

  lemma EnrollRetires(s: State, c: string, api: string, log: seq<Withdrawal>)
    requires Enrolls(s, c, api, log)
    ensures var b := Enroll(s, c, api, log);
      && c in b.nodes
      && |b.retired| == |s.retired| + if TakesOver(s, c, api) then 1 else 0
  {
    hide Evicted, Withdraws, Withdraw, Gone, LastSaid;
    if TakesOver(s, c, api) {
      EvictedSaid(s, c, log, Live(c), "");
    }
  }

  // A call that sends no list but those of a takeover.
  lemma QuietLines(s: State, op: Op, b: State)
    requires EnrollLines(s, b, op.caller, Replaces(s, op)) && !op.RegPublisher? && !op.UnregPublisher?
    ensures LinesAfter(s, op, b)
  {
    hide LastSaid, Withdrawn;
  }

  lemma SubscribeLines(s: State, op: Op)
    requires op.RegSubscriber? && Possible(s, op)
    ensures LinesAfter(s, op, Apply(s, op))
  {
    hide Enroll, Enrolls, TypeTopic, Add, TakesOver, EnrollLines, Hold, LinesAfter;
    var c, api := op.caller, op.api;
    var s1 := TypeTopic(s, op.topic, op.topicType);
    TypeBooks(s, op.topic, op.topicType);
    var u, b := Enroll(s1, c, api, op.log), Apply(s, op);
    EnrollSaid(s1, c, api, op.log);
    EnrollRetires(s1, c, api, op.log);
    SameTakeover(s, s1, c, api);
    SameBefore(s, s1, u, c, TakesOver(s, c, api));
    HoldRetired(u, c, Subscription, op.topic);
    HoldLines(u, b, c, Subscription, op.topic);
    SameLinesKept(s, u, b, c, TakesOver(s, c, api));
    QuietLines(s, op, b);
  }

  lemma HoldRetired(s: State, c: string, k: Kind, name: string)
    requires c in s.nodes
    ensures Hold(s, c, k, name) == s.(nodes := Hold(s, c, k, name).nodes)
  {
  }

  lemma ServiceLines(s: State, op: Op)
    requires (op.RegService? || (op.RegParam? && Names.Canonical(op.key).Ok?)) && Possible(s, op)
    ensures LinesAfter(s, op, Apply(s, op))
  {
    hide Enroll, Enrolls, Add, TakesOver, EnrollLines, Hold, LinesAfter, Names.Canonical;
    var c, api := op.caller, op.api;
    var u, b := Enroll(s, c, api, op.log), Apply(s, op);
    var k := if op.RegService? then Service else Param;
    var name := if op.RegService? then op.name else Names.Canonical(op.key).value;
    EnrollSaid(s, c, api, op.log);
    EnrollRetires(s, c, api, op.log);
    HoldRetired(u, c, k, name);
    HoldLines(u, b, c, k, name);
    SameLinesKept(s, u, b, c, TakesOver(s, c, api));
    QuietLines(s, op, b);
  }

  // Giving up a name, once the registration is taken out of its index.
  lemma GiveUpLines(s: State, s1: State, c: string, k: Kind, name: string, b: State)
    requires s1.nodes == s.nodes && s1.retired == s.retired
    requires var t := Release(s1, c, k, name);
      b.nodes == t.nodes && b.retired == t.retired
    ensures EnrollLines(s, b, c, false)
  {
    hide EnrollLines, Release;
    var t := Release(s1, c, k, name);
    ReleaseSaid(s1, c, k, name);
    SameBefore(s, s1, t, c, false);
    SameLinesKept(s, t, b, c, false);
  }

  lemma UnregisterLines(s: State, op: Op)
    requires op.UnregService? || op.UnregSubscriber? || (op.UnregParam? && Names.Canonical(op.key).Ok?)
    ensures LinesAfter(s, op, Apply(s, op))
  {
    hide EnrollLines, Release, LinesAfter, Names.Canonical, Discard, CheckTopic;
    var c, b := op.caller, Apply(s, op);
    match op {
      case UnregService(n, _) => GiveUpLines(s, s.(services := s.services - {n}), c, Service, n, b);
      case UnregSubscriber(t, _, a) =>
        var s1 := s.(subscriptions := Discard(s.subscriptions, t, Registration(c, a)));
        CheckTopicBooks(Release(s1, c, Subscription, t), t);
        GiveUpLines(s, s1, c, Subscription, t, b);
      case UnregParam(key, _, a) =>
        var k := Names.Canonical(key).value;
        GiveUpLines(s, s.(params := Discard(s.params, k, Registration(c, a))), c, Param, k, b);
    }
    QuietLines(s, op, b);
  }

  // What the final update adds, wherever the queues have gone before it.
  lemma NotifiedLine(s: State, op: Op, v: State, l: Line, t: string, taken: bool)
    requires (op.RegPublisher? || op.UnregPublisher?) && There(s, l) && EnrollLines(s, v, op.caller, taken)
    requires taken == Replaces(s, op) && Truth(v, op.topic) == Apis(Left(s, op, op.topic))
    requires Lists(op.list, At(v.publications, op.topic))
    requires forall d :: Subscribes(v, d, op.topic) <==> Subscribes(s, d, op.topic) && !(taken && d == op.caller)
    requires Image(s, v, op.caller, l) == l || (l == Live(op.caller) && (taken || !Subscribes(s, op.caller, op.topic)))
    requires taken ==> Image(s, v, op.caller, Live(op.caller)) != Live(op.caller)
    ensures var b, m := Notify(v, op.topic, op.list), Image(s, v, op.caller, l);
      To(b, m, RecordOf(s, l).api) && Said(b, m, t) == Now(s, op, l, t)
  {
    hide LastSaid, Lists, Notify, Left, Replaces, Subscribes, Publishes;
    var m := Image(s, v, op.caller, l);
    NotifySaid(v, op.topic, op.list, m, t);
    ListsApis(op.list, At(v.publications, op.topic));
  }

  lemma NotifyKept(s: State, v: State, c: string, topic: string, list: seq<string>)
    requires Kept(s, v, c)
    requires forall l :: There(s, l) ==> !(Image(s, v, c, l).Live? && Image(s, v, c, l) != l)
    requires forall m :: There(v, m) && m.Live? && Subscribes(v, m.caller, topic) ==>
      There(s, m) && Image(s, v, c, m) == m
    ensures Kept(s, Notify(v, topic, list), c)
  {
    var b := Notify(v, topic, list);
    forall l | There(s, l)
      ensures Image(s, b, c, l) == Image(s, v, c, l) && To(b, Image(s, b, c, l), RecordOf(s, l).api)
    {
      assert To(v, Image(s, v, c, l), RecordOf(s, l).api);
    }
    forall m | There(b, m) && RecordOf(b, m).outbox != []
      ensures exists l :: There(s, l) && Image(s, b, c, l) == m
    {
      assert There(v, m);
      if RecordOf(v, m).outbox != [] {
        var l :| There(s, l) && Image(s, v, c, l) == m;
        assert Image(s, b, c, l) == m;
      } else {
        CountPositive(v, topic, m.caller);
        assert Image(s, b, c, m) == m;
      }
    }
  }

  // A call that ends with an update, given the state before that update.
  lemma AnnouncedLines(s: State, op: Op, v: State)
    requires (op.RegPublisher? || op.UnregPublisher?) && EnrollLines(s, v, op.caller, Replaces(s, op))
    requires Truth(v, op.topic) == Apis(Left(s, op, op.topic)) && Lists(op.list, At(v.publications, op.topic))
    requires forall d :: Subscribes(v, d, op.topic) <==>
      Subscribes(s, d, op.topic) && !(Replaces(s, op) && d == op.caller)
    requires forall d :: Subscribes(s, d, op.topic) ==> d in s.nodes
    requires Replaces(s, op) ==> |v.retired| > |s.retired|
    requires |v.retired| > |s.retired| ==> Replaces(s, op) || !Subscribes(s, op.caller, op.topic)
    ensures LinesAfter(s, op, Notify(v, op.topic, op.list))
  {
    hide LastSaid, Lists, Notify, Left, Replaces, Subscribes, Now, Truth, EnrollLines;
    var c, b := op.caller, Notify(v, op.topic, op.list);
    NotifyBooks(v, op.topic, op.list);
    assert Kept(s, v, c) by { EnrollKept(s, v, c, Replaces(s, op)); }
    NotifyKept(s, v, c, op.topic, op.list);
    forall l, t | There(s, l)
      ensures Image(s, b, c, l) == Image(s, v, c, l) && Said(b, Image(s, b, c, l), t) == Now(s, op, l, t)
    {
      NotifiedLine(s, op, v, l, t, Replaces(s, op));
    }
  }

  lemma EnrollKept(s: State, b: State, c: string, taken: bool)
    requires EnrollLines(s, b, c, taken)
    ensures Kept(s, b, c)
  {
  }

  // Whoever subscribes is on record, under the API of the subscription.
  lemma SubscribersKnown(s: State)
    requires Agreement(s)
    ensures forall t, r :: Has(s.subscriptions, t, r) ==> To(s, Live(r.caller), r.api)
    ensures forall d, t :: Subscribes(s, d, t) ==> d in s.nodes && t in s.nodes[d].subscriptions
  {
    assert forall t, r :: Has(s.subscriptions, t, r) ==> Knows(s, r);
  }

  lemma RemainingSubscribers(s: State, op: Op, b: State)
    requires (op.RegPublisher? || op.UnregPublisher?) && BooksAfter(s, op, b)
    ensures forall d, t :: Subscribes(b, d, t) <==> Subscribes(s, d, t) && !(Replaces(s, op) && d == op.caller)
  {
    forall d, t
      ensures Subscribes(b, d, t) <==> Subscribes(s, d, t) && !(Replaces(s, op) && d == op.caller)
    {
      if r :| Has(b.subscriptions, t, r) && r.caller == d {
        assert Remains(s, op, t, r) && Has(s.subscriptions, t, r);
      }
      if r :| Has(s.subscriptions, t, r) && r.caller == d {
        assert Remains(s, op, t, r) ==> Has(b.subscriptions, t, r);
      }
    }
  }

  lemma PublishLines(s: State, op: Op)
    requires op.RegPublisher? && Possible(s, op) && Agreement(s)
    ensures LinesAfter(s, op, Apply(s, op))
  {
    hide Enroll, Enrolls, TypeTopic, Add, TakesOver, EnrollLines, Hold, LinesAfter, Lists;
    hide Agreement, LastSaid, Notify, Left;
    var c, api := op.caller, op.api;
    var s1 := TypeTopic(s, op.topic, op.topicType);
    TypeBooks(s, op.topic, op.topicType);
    var u, v := Enroll(s1, c, api, op.log), AddPublisher(s, op.topic, op.topicType, c, api, op.log);
    EnrollSaid(s1, c, api, op.log);
    EnrollRetires(s1, c, api, op.log);
    SameTakeover(s, s1, c, api);
    SameBefore(s, s1, u, c, TakesOver(s, c, api));
    HoldRetired(u, c, Publication, op.topic);
    HoldLines(u, v, c, Publication, op.topic);
    SameLinesKept(s, u, v, c, TakesOver(s, c, api));
    AnnouncedBy(s, op, v);
  }

  lemma AnnouncedBy(s: State, op: Op, v: State)
    requires (op.RegPublisher? || op.UnregPublisher?) && Possible(s, op) && Agreement(s)
    requires Apply(s, op) == Notify(v, op.topic, op.list) && Lists(op.list, At(v.publications, op.topic))
    requires EnrollLines(s, v, op.caller, Replaces(s, op))
    requires Replaces(s, op) ==> |v.retired| > |s.retired|
    requires |v.retired| > |s.retired| ==> Replaces(s, op) || !Subscribes(s, op.caller, op.topic)
    ensures LinesAfter(s, op, Apply(s, op))
  {
    hide LinesAfter, EnrollLines, Possible, Agreement, Apply, Notify, Lists, Left, Replaces, Remains;
    CallBooks(s, op);
    NotifyBooks(v, op.topic, op.list);
    RemainingSubscribers(s, op, Apply(s, op));
    forall d
      ensures Subscribes(v, d, op.topic) <==> Subscribes(Apply(s, op), d, op.topic)
    {
      SameSubscribers(v, Apply(s, op), d, op.topic);
    }
    SubscribersKnown(s);
    AnnouncedLines(s, op, v);
  }

  lemma UnpublishLines(s: State, op: Op)
    requires op.UnregPublisher? && Possible(s, op) && Agreement(s)
    ensures LinesAfter(s, op, Apply(s, op))
  {
    hide EnrollLines, Release, LinesAfter, Discard, CheckTopic, Lists, Notify, Agreement;
    var c, t := op.caller, op.topic;
    var s1 := s.(publications := Discard(s.publications, t, Registration(c, op.api)));
    var v := DropPublisher(s, t, c, op.api);
    CheckTopicBooks(Release(s1, c, Publication, t), t);
    GiveUpLines(s, s1, c, Publication, t, v);
    SubscribersKnown(s);
    if Subscribes(s, c, t) {
      SubscriberStays(s1, c, t, t);
    }
    AnnouncedBy(s, op, v);
  }

  lemma SubscriberStays(s: State, c: string, name: string, topic: string)
    requires c in s.nodes && topic in s.nodes[c].subscriptions
    ensures Release(s, c, Publication, name).retired == s.retired
  {
  }

  lemma CallLines(s: State, op: Op)
    requires Possible(s, op) && Agreement(s)
    ensures LinesAfter(s, op, Apply(s, op))
  {
    hide LinesAfter, Agreement, RegisterSubscriber, AddPublisher, DropPublisher, RegisterService, UnregisterService;
    hide UnregisterSubscriber, Notify, Names.Canonical;
    if op.RegPublisher? {
      PublishLines(s, op);
    } else if op.UnregPublisher? {
      UnpublishLines(s, op);
    } else if op.RegSubscriber? {
      SubscribeLines(s, op);
    } else if (op.RegParam? || op.UnregParam?) && Names.Canonical(op.key).Err? {
      NothingLines(s, op);
    } else if op.RegService? || op.RegParam? {
      ServiceLines(s, op);
    } else {
      UnregisterLines(s, op);
    }
  }

  lemma NothingLines(s: State, op: Op)
    requires (op.RegParam? || op.UnregParam?) && Names.Canonical(op.key).Err?
    ensures LinesAfter(s, op, Apply(s, op))
  {
    hide LastSaid, Names.Canonical;
    forall m | There(s, m)
      ensures exists l :: There(s, l) && Image(s, s, op.caller, l) == m
    {
      assert Image(s, s, op.caller, m) == m;
    }
  }

  // ----- a call as a whole -----

  // What is known of a call: its effect on the books and on the queues.
  ghost predicate Described(s: State, op: Op, b: State) {
    && BooksAfter(s, op, b) && LinesAfter(s, op, b)
    && forall t :: Truth(b, t) == Apis(Left(s, op, t))
  }

  lemma CallDescribed(s: State, op: Op)
    requires Possible(s, op) && Agreement(s)
    ensures Described(s, op, Apply(s, op))
  {
    hide Possible, Agreement, Apply, BooksAfter, LinesAfter;
    CallBooks(s, op);
    CallLines(s, op);
  }

  lemma LineAfter(s: State, op: Op, b: State, l: Line, t: string)
    requires LinesAfter(s, op, b) && There(s, l)
    ensures To(b, Image(s, b, op.caller, l), RecordOf(s, l).api)
    ensures Said(b, Image(s, b, op.caller, l), t) == Now(s, op, l, t)
  {
  }

  lemma Remaining(s: State, op: Op, b: State, t: string, r: Registration)
    requires Described(s, op, b)
    ensures Has(b.subscriptions, t, r) <==> Remains(s, op, t, r)
  {
  }

  // A call that neither announces nor withdraws a topic leaves its publishers.
  lemma NothingChanged(s: State, op: Op, t: string)
    ensures !Announces(op, t) && !(Replaces(s, op) && Publishes(s, op.caller, t)) ==>
            Apis(Left(s, op, t)) == Truth(s, t)
    ensures !Announces(op, t) && Replaces(s, op) ==> Left(s, op, t) == Others(At(s.publications, t), op.caller)
  {
    if !Publishes(s, op.caller, t) {
      assert forall r :: r in At(s.publications, t) <==> Has(s.publications, t, r);
      assert Others(At(s.publications, t), op.caller) == At(s.publications, t);
    }
  }

  lemma NothingSaid(t: string)
    ensures LastSaid([], t) == None
  {
  }

  // Who is on record after a call, under which API, and what is retired.
  ghost predicate RecordsAfter(s: State, op: Op, b: State) {
    && (forall d :: d in b.nodes ==>
          || (d in s.nodes && b.nodes[d].api == s.nodes[d].api)
          || (d == op.caller && Registers(op) && b.nodes[d].api == op.api))
    && (|b.retired| > |s.retired| ==> Replaces(s, op) || op.caller !in b.nodes)
  }

  // Only the API of the caller's record may be new.
  ghost predicate ApisAfter(s: State, b: State, c: string, api: string) {
    forall d :: d in b.nodes ==> (d in s.nodes && b.nodes[d].api == s.nodes[d].api) || (d == c && b.nodes[d].api == api)
  }

  lemma EnrollApis(s: State, c: string, api: string, log: seq<Withdrawal>)
    requires Agreement(s) && Enrolls(s, c, api, log)
    ensures ApisAfter(s, Enroll(s, c, api, log), c, api)
    ensures |Enroll(s, c, api, log).retired| > |s.retired| ==> TakesOver(s, c, api)
  {
    hide Enroll, Enrolls, Agreement;
    EnrollBlank(s, c, api, log);
    EnrollRetires(s, c, api, log);
  }

  lemma SameApis(s: State, a: State, b: State, c: string, api: string)
    requires ApisAfter(s, a, c, api) && b.nodes.Keys == a.nodes.Keys
    requires forall d :: d in a.nodes ==> b.nodes[d].api == a.nodes[d].api
    ensures ApisAfter(s, b, c, api)
  {
  }

  lemma HoldApis(s: State, c: string, k: Kind, name: string)
    requires c in s.nodes
    ensures var b := Hold(s, c, k, name);
      && b.nodes.Keys == s.nodes.Keys && b.retired == s.retired
      && forall d :: d in s.nodes ==> b.nodes[d].api == s.nodes[d].api
  {
  }

  lemma RegisterRecords(s: State, op: Op)
    requires Agreement(s) && Possible(s, op) && (op.RegSubscriber? || op.RegPublisher?)
    ensures RecordsAfter(s, op, Apply(s, op))
  {
    hide Enroll, Enrolls, TypeTopic, Add, TakesOver, Hold, Lists, Notify, Agreement, ApisAfter;
    var c, api := op.caller, op.api;
    var s1, k := TypeTopic(s, op.topic, op.topicType), if op.RegPublisher? then Publication else Subscription;
    TypeBooks(s, op.topic, op.topicType);
    TypeAgrees(s, op.topic, op.topicType);
    EnrollApis(s1, c, api, op.log);
    EnrollRetires(s1, c, api, op.log);
    SameTakeover(s, s1, c, api);
    var u, b := Enroll(s1, c, api, op.log), Apply(s, op);
    HoldApis(u, c, k, op.topic);
    if op.RegPublisher? {
      NotifyBooks(AddPublisher(s, op.topic, op.topicType, c, api, op.log), op.topic, op.list);
    }
    SameApis(s1, u, b, c, api);
    assert ApisAfter(s, b, c, api) by { ApisFrom(s, s1, b, c, api); }
    FromApis(s, op, b);
  }

  lemma ApisFrom(s: State, s1: State, b: State, c: string, api: string)
    requires ApisAfter(s1, b, c, api) && s1.nodes == s.nodes
    ensures ApisAfter(s, b, c, api)
  {
  }

  lemma FromApis(s: State, op: Op, b: State)
    requires Registers(op) && ApisAfter(s, b, op.caller, op.api)
    requires |b.retired| > |s.retired| ==> Replaces(s, op)
    ensures RecordsAfter(s, op, b)
  {
  }

  lemma ServiceRecords(s: State, op: Op)
    requires Agreement(s) && Possible(s, op) && (op.RegService? || (op.RegParam? && Names.Canonical(op.key).Ok?))
    ensures RecordsAfter(s, op, Apply(s, op))
  {
    hide Enroll, Enrolls, Add, TakesOver, Hold, Agreement, ApisAfter, Names.Canonical;
    var c, api := op.caller, op.api;
    var k := if op.RegService? then Service else Param;
    var name := if op.RegService? then op.name else Names.Canonical(op.key).value;
    EnrollApis(s, c, api, op.log);
    EnrollRetires(s, c, api, op.log);
    var u, b := Enroll(s, c, api, op.log), Apply(s, op);
    HoldApis(u, c, k, name);
    SameApis(s, u, b, c, api);
    FromApis(s, op, b);
  }

  // Giving up a name.
  lemma GiveUpRecords(s: State, s1: State, c: string, k: Kind, name: string)
    requires s1.nodes == s.nodes && s1.retired == s.retired
    ensures var b := Release(s1, c, k, name);
      && (forall d :: d in b.nodes ==> d in s.nodes && b.nodes[d].api == s.nodes[d].api)
      && (|b.retired| > |s.retired| ==> c !in b.nodes)
  {
    hide Release;
    ReleaseRecord(s1, c, k, name);
  }

  lemma UnregisterRecords(s: State, op: Op)
    requires !Registers(op)
    ensures RecordsAfter(s, op, Apply(s, op))
  {
    hide Release, Names.Canonical, Discard, CheckTopic, Notify;
    var c := op.caller;
    match op
    case UnregService(n, _) => GiveUpRecords(s, s.(services := s.services - {n}), c, Service, n);
    case UnregSubscriber(t, _, a) =>
      var s1 := s.(subscriptions := Discard(s.subscriptions, t, Registration(c, a)));
      CheckTopicBooks(Release(s1, c, Subscription, t), t);
      GiveUpRecords(s, s1, c, Subscription, t);
    case UnregPublisher(t, _, a, list) =>
      var s1 := s.(publications := Discard(s.publications, t, Registration(c, a)));
      CheckTopicBooks(Release(s1, c, Publication, t), t);
      GiveUpRecords(s, s1, c, Publication, t);
      NotifyBooks(DropPublisher(s, t, c, a), t, list);
    case UnregParam(key, _, a) =>
      if Names.Canonical(key).Ok? {
        var k := Names.Canonical(key).value;
        GiveUpRecords(s, s.(params := Discard(s.params, k, Registration(c, a))), c, Param, k);
      }
  }

  lemma CallRecords(s: State, op: Op)
    requires Agreement(s) && Possible(s, op)
    ensures RecordsAfter(s, op, Apply(s, op))
  {
    hide Agreement, RecordsAfter, RegisterSubscriber, AddPublisher, RegisterService, Notify;
    hide Names.Canonical, Enrolls, Lists;
    if op.RegSubscriber? || op.RegPublisher? {
      RegisterRecords(s, op);
    } else if op.RegService? || (op.RegParam? && Names.Canonical(op.key).Ok?) {
      ServiceRecords(s, op);
    } else if op.RegParam? {
      SameRecordsAfter(s, op);
    } else {
      UnregisterRecords(s, op);
    }
  }

  lemma SameRecordsAfter(s: State, op: Op)
    ensures RecordsAfter(s, op, s)
  {
  }
}
