// How long the registry remembers the type of a topic: over every run, takeovers included.
module TopicTypes {
  import opened Outcomes
  import opened Registrations
  import opened RegistryRuns

  predicate Live(s: State, topic: string) {
    topic in s.publications || topic in s.subscriptions
  }

  // Only topics that are keys of publications or subscriptions have a type.
  ghost predicate TypesLive(s: State) {
    forall t :: t in s.types ==> Live(s, t)
  }

  // A call that states a type for the topic.
  predicate Types(op: Op, topic: string) {
    (op.RegSubscriber? || op.RegPublisher?) && op.topic == topic && op.topicType != "*"
  }

  // The types after a call: those of the topics still live, as first stated.
  ghost predicate Carried(s: State, op: Op, t: State) {
    && (forall k :: k in t.types <==> (k in s.types || Types(op, k)) && Live(t, k))
    && (forall k :: k in t.types ==> t.types[k] == if k in s.types then s.types[k] else op.topicType)
  }

  lemma EnrollTopics(s: State, c: string, api: string, log: seq<Withdrawal>)
    requires Enrolls(s, c, api, log)
    ensures var t := Enroll(s, c, api, log);
      && t.types == s.types
      && t.publications.Keys == s.publications.Keys && t.subscriptions.Keys == s.subscriptions.Keys
  {
    hide Evicted, Enrolls;
    if TakesOver(s, c, api) {
      hide Enroll;
      TakeoverClears(s, c, api, log);
    }
  }

  lemma ReleaseTopics(s: State, c: string, k: Kind, name: string)
    ensures var t := Release(s, c, k, name);
      t == s.(nodes := t.nodes, retired := t.retired)
  {
  }

  lemma SubscriberTopics(s: State, topic: string, ty: string, c: string, api: string, log: seq<Withdrawal>)
    requires Enrolls(TypeTopic(s, topic, ty), c, api, log)
    ensures var b := RegisterSubscriber(s, topic, ty, c, api, log);
      && b.types == TypeTopic(s, topic, ty).types
      && b.publications.Keys == s.publications.Keys && b.subscriptions.Keys == s.subscriptions.Keys + {topic}
  {
    hide Enroll, Enrolls;
    EnrollTopics(TypeTopic(s, topic, ty), c, api, log);
  }

  lemma PublisherTopics(s: State, topic: string, ty: string, c: string, api: string, log: seq<Withdrawal>)
    requires Enrolls(TypeTopic(s, topic, ty), c, api, log)
    ensures var b := AddPublisher(s, topic, ty, c, api, log);
      && b.types == TypeTopic(s, topic, ty).types
      && b.publications.Keys == s.publications.Keys + {topic} && b.subscriptions.Keys == s.subscriptions.Keys
  {
    hide Enroll, Enrolls;
    EnrollTopics(TypeTopic(s, topic, ty), c, api, log);
  }

  lemma TypedCarries(s: State, op: Op, b: State)
    requires TypesLive(s) && (op.RegSubscriber? || op.RegPublisher?)
    requires b.types == TypeTopic(s, op.topic, op.topicType).types
    requires forall k :: Live(b, k) <==> Live(s, k) || k == op.topic
    ensures Carried(s, op, b)
  {
    hide Carried, Live;
    var t := TypeTopic(s, op.topic, op.topicType).types;
    TypedTopic(s, op.topic, op.topicType);
    forall k
      ensures k in t <==> (k in s.types || Types(op, k)) && Live(b, k)
    {
      assert k in s.types ==> Live(s, k);
    }
    SameCarries(s, op, b);
  }

  lemma TypedTopic(s: State, topic: string, topicType: string)
    ensures var t := TypeTopic(s, topic, topicType).types;
      && (forall k :: k in t <==> k in s.types || (k == topic && topicType != "*"))
      && (forall k :: k in t ==> t[k] == if k in s.types then s.types[k] else topicType)
  {
  }

  lemma SameCarries(s: State, op: Op, b: State)
    requires op.RegSubscriber? || op.RegPublisher?
    requires forall k :: k in b.types <==> (k in s.types || Types(op, k)) && Live(b, k)
    requires forall k :: k in b.types ==> b.types[k] == if k in s.types then s.types[k] else op.topicType
    ensures Carried(s, op, b)
  {
    hide Live, Types;
  }

  lemma RegisterCarries(s: State, op: Op)
    requires TypesLive(s) && Possible(s, op) && (op.RegSubscriber? || op.RegPublisher?)
    ensures Carried(s, op, Apply(s, op))
  {
    hide Enroll, Enrolls, Notify, RegisterSubscriber, AddPublisher, TypeTopic, TypesLive, Carried, Lists;
    if op.RegPublisher? {
      PublisherTopics(s, op.topic, op.topicType, op.caller, op.api, op.log);
      NotifyBooks(AddPublisher(s, op.topic, op.topicType, op.caller, op.api, op.log), op.topic, op.list);
    } else {
      SubscriberTopics(s, op.topic, op.topicType, op.caller, op.api, op.log);
    }
    TypedCarries(s, op, Apply(s, op));
  }

  // A call about another kind of registration, or none.
  lemma OtherCarries(s: State, op: Op)
    requires TypesLive(s) && Possible(s, op)
    requires op.RegService? || op.UnregService? || op.RegParam? || op.UnregParam?
    ensures Carried(s, op, Apply(s, op))
  {
    hide Enroll, Enrolls, Release, Names.Canonical;
    match op
    case RegService(_, c, a, _, log) => EnrollTopics(s, c, a, log);
    case UnregService(n, c) => ReleaseTopics(s.(services := s.services - {n}), c, Service, n);
    case RegParam(k, c, a, log) => EnrollTopics(s, c, a, log);
    case UnregParam(k, c, a) =>
      if Names.Canonical(k).Ok? {
        var key := Names.Canonical(k).value;
        ReleaseTopics(s.(params := Discard(s.params, key, Registration(c, a))), c, Param, key);
      }
  }

  lemma DropTopics(s: State, topic: string, c: string, api: string)
    ensures var b := DropPublisher(s, topic, c, api);
      && b.subscriptions == s.subscriptions
      && (forall k :: k != topic ==> (k in b.publications <==> k in s.publications))
      && b.types == if Live(b, topic) then s.types else s.types - {topic}
  {
    hide Release;
    ReleaseTopics(s.(publications := Discard(s.publications, topic, Registration(c, api))), c, Publication, topic);
  }

  lemma UnsubscribeTopics(s: State, topic: string, c: string, api: string)
    ensures var b := UnregisterSubscriber(s, topic, c, api);
      && b.publications == s.publications
      && (forall k :: k != topic ==> (k in b.subscriptions <==> k in s.subscriptions))
      && b.types == if Live(b, topic) then s.types else s.types - {topic}
  {
    hide Release;
    ReleaseTopics(s.(subscriptions := Discard(s.subscriptions, topic, Registration(c, api))), c, Subscription, topic);
  }

  lemma CollectedCarries(s: State, op: Op, b: State)
    requires TypesLive(s) && (op.UnregSubscriber? || op.UnregPublisher?)
    requires forall k :: k != op.topic ==> (Live(b, k) <==> Live(s, k))
    requires b.types == if Live(b, op.topic) then s.types else s.types - {op.topic}
    ensures Carried(s, op, b)
  {
    hide Live;
  }

  lemma UnregisterCarries(s: State, op: Op)
    requires TypesLive(s) && (op.UnregSubscriber? || op.UnregPublisher?)
    ensures Carried(s, op, Apply(s, op))
  {
    hide Notify, DropPublisher, UnregisterSubscriber, TypesLive, Carried;
    if op.UnregPublisher? {
      DropTopics(s, op.topic, op.caller, op.api);
      NotifyBooks(DropPublisher(s, op.topic, op.caller, op.api), op.topic, op.list);
    } else {
      UnsubscribeTopics(s, op.topic, op.caller, op.api);
    }
    CollectedCarries(s, op, Apply(s, op));
  }

  // One call collects a type exactly when its topic stops being a key, and changes none.
  lemma StepCarries(s: State, op: Op)
    requires TypesLive(s) && Possible(s, op)
    ensures Carried(s, op, Apply(s, op)) && TypesLive(Apply(s, op))
  {
    hide TypesLive, Carried;
    if op.RegSubscriber? || op.RegPublisher? {
      RegisterCarries(s, op);
    } else if op.UnregSubscriber? || op.UnregPublisher? {
      UnregisterCarries(s, op);
    } else {
      OtherCarries(s, op);
    }
    CarriedLive(s, op, Apply(s, op));
  }

  lemma CarriedLive(s: State, op: Op, t: State)
    requires Carried(s, op, t)
    ensures TypesLive(t)
  {
  }

  lemma {:induction false} RunTypesLive(states: seq<State>, ops: seq<Op>, n: nat)
    requires CallRun(states, ops) && n <= |ops|
    ensures TypesLive(states[n])
    decreases n
  {
    if n > 0 {
      RunTypesLive(states, ops, n - 1);
      StepCarries(states[n - 1], ops[n - 1]);
    }
  }

  // The type a topic has from a typed registration on.
  function TypeGiven(s: State, op: Op): string
    requires op.RegSubscriber? || op.RegPublisher?
  {
    if op.topic in s.types then s.types[op.topic] else op.topicType
  }

  // From the call that states it on, the type of a topic is recorded and unchanged for as
  // long as the topic remains a key of publications or subscriptions.
  lemma {:induction false} TypeLasts(states: seq<State>, ops: seq<Op>, topic: string, i: nat, j: nat)
    requires CallRun(states, ops) && i < j <= |ops| && Types(ops[i], topic)
    requires forall m :: i < m <= j ==> Live(states[m], topic)
    ensures topic in states[j].types && states[j].types[topic] == TypeGiven(states[i], ops[i])
    decreases j
  {
    hide CallRun;
    RunTypesLive(states, ops, j - 1);
    StepTypes(states, ops, j - 1);
    if i < j - 1 {
      TypeLasts(states, ops, topic, i, j - 1);
    }
  }

  lemma StepTypes(states: seq<State>, ops: seq<Op>, n: nat)
    requires CallRun(states, ops) && n < |ops| && TypesLive(states[n])
    ensures Carried(states[n], ops[n], states[n + 1])
  {
    StepCarries(states[n], ops[n]);
  }

  // While a registration made with a type stays in an index, so does the type.
  lemma TypedRegistration(states: seq<State>, ops: seq<Op>, i: nat, j: nat)
    requires CallRun(states, ops) && i < j <= |ops|
    requires (ops[i].RegSubscriber? || ops[i].RegPublisher?) && ops[i].topicType != "*"
    requires var r := Registration(ops[i].caller, ops[i].api);
      forall m :: i < m <= j ==>
        Has(if ops[i].RegPublisher? then states[m].publications else states[m].subscriptions, ops[i].topic, r)
    ensures ops[i].topic in states[j].types
    ensures states[j].types[ops[i].topic] == TypeGiven(states[i], ops[i])
  {
    TypeLasts(states, ops, ops[i].topic, i, j);
  }
}
