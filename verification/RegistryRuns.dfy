// What every run of registry calls keeps, takeovers included.
module RegistryRuns {
  import opened Outcomes
  import opened Names
  import opened Registrations

  // t differs from s at most in what is queued for the nodes.
  ghost predicate SameBooks(s: State, t: State) {
    && t.services == s.services && t.publications == s.publications && t.subscriptions == s.subscriptions
    && t.params == s.params && t.types == s.types && t.retired == s.retired
    && SameRecords(s, t)
  }

  ghost predicate SameRecords(s: State, t: State) {
    && t.nodes.Keys == s.nodes.Keys
    && forall c | c in s.nodes :: t.nodes[c] == s.nodes[c].(outbox := t.nodes[c].outbox)
  }

  lemma NotifyBooks(s: State, topic: string, list: seq<string>)
    ensures SameBooks(s, Notify(s, topic, list))
  {
  }

  // Agreement, but the record of c may be without registrations.
  ghost predicate Almost(s: State, c: string) {
    && PublicationsAgree(s) && SubscriptionsAgree(s) && ServicesAgree(s)
    && forall d :: d in s.nodes && d != c ==> Busy(s.nodes[d])
  }

  lemma BooksAgree(s: State, t: State)
    requires SameBooks(s, t) && Agreement(s)
    ensures Agreement(t)
  {
    assert forall r :: Knows(t, r) <==> Knows(s, r);
  }

  lemma CheckNodeAgrees(s: State, c: string)
    requires Almost(s, c)
    ensures Agreement(CheckNode(s, c))
  {
    var t := CheckNode(s, c);
    if t != s {
      assert forall r :: Knows(t, r) <==> Knows(s, r) && r.caller != c;
    }
  }

  // What the removals of a takeover leave.
  lemma {:induction false} WithdrawLeaves(s: State, c: string, log: seq<Withdrawal>)
    requires Withdraws(s, c, log)
    ensures var t := Withdraw(s, log);
      && SameRecords(s, t)
      && t.services == s.services && t.subscriptions == s.subscriptions && t.params == s.params && t.types == s.types
      && t.publications.Keys == s.publications.Keys
      && (forall k, r :: Has(t.publications, k, r) ==> Has(s.publications, k, r))
      && (forall k, r :: Has(s.publications, k, r) && r.caller != c ==> Has(t.publications, k, r))
    decreases |log|
  {
    if log != [] {
      WithdrawLeaves(s, c, log[..|log| - 1]);
      var t, w := Withdraw(s, log[..|log| - 1]), log[|log| - 1];
      NotifyBooks(t.(publications := t.publications[w.topic := At(t.publications, w.topic) - {w.reg}]),
                  w.topic, w.list);
      assert w.topic in t.publications;
    }
  }

  lemma WithoutAt(s: State, c: string)
    ensures var t := WithoutSubscriptions(s, c);
      && t.services == s.services && t.publications == s.publications && t.params == s.params
      && t.types == s.types && t.nodes == s.nodes && t.subscriptions.Keys == s.subscriptions.Keys
      && forall k, r :: Has(t.subscriptions, k, r) <==> Has(s.subscriptions, k, r) && r.caller != c
  {
  }

  // What an eviction leaves of a registry.
  ghost predicate Cleared(s: State, t: State, c: string) {
    && t.nodes.Keys == s.nodes.Keys
    && (forall d :: d in s.nodes && d != c ==> t.nodes[d] == s.nodes[d].(outbox := t.nodes[d].outbox))
    && (forall k, r :: Has(t.publications, k, r) <==> Has(s.publications, k, r) && r.caller != c)
    && (forall k, r :: Has(t.subscriptions, k, r) <==> Has(s.subscriptions, k, r) && r.caller != c)
    && (forall n :: n in t.services <==> n in s.services && s.services[n].caller != c)
    && (forall n :: n in t.services ==> t.services[n] == s.services[n])
    && t.publications.Keys == s.publications.Keys && t.subscriptions.Keys == s.subscriptions.Keys
    && t.params == s.params && t.types == s.types
  }

  lemma TellBooks(s: State, c: string, task: Task)
    ensures SameBooks(s, Tell(s, c, task))
  {
    if c in s.nodes {
      var b := s.nodes[c := s.nodes[c].(outbox := s.nodes[c].outbox + [task])];
      assert Tell(s, c, task).nodes == b;
    }
  }

  lemma WithoutServicesAt(s: State, c: string)
    ensures var t := WithoutServices(s, c);
      && t == s.(services := t.services)
      && (forall n :: n in t.services <==> n in s.services && s.services[n].caller != c)
      && (forall n :: n in t.services ==> t.services[n] == s.services[n])
  {
  }

  lemma EvictionClears(s: State, c: string, log: seq<Withdrawal>)
    requires var u := WithoutServices(Tell(s, c, Shutdown(EVICTED)), c);
      Withdraws(u, c, log) && Gone(Withdraw(u, log).publications, c)
    ensures Cleared(s, Evicted(Tell(s, c, Shutdown(EVICTED)), c, log), c)
  {
    hide Withdraws, Withdraw, WithoutSubscriptions, WithoutServices, Tell;
    var u := WithoutServices(Tell(s, c, Shutdown(EVICTED)), c);
    TellBooks(s, c, Shutdown(EVICTED));
    WithoutServicesAt(Tell(s, c, Shutdown(EVICTED)), c);
    WithdrawLeaves(u, c, log);
    WithoutAt(Withdraw(u, log), c);
  }

  // Calls are queued behind what is queued already.
  lemma {:induction false} WithdrawQueues(s: State, log: seq<Withdrawal>, c: string)
    requires c in s.nodes
    ensures c in Withdraw(s, log).nodes && s.nodes[c].outbox <= Withdraw(s, log).nodes[c].outbox
    decreases |log|
  {
    if log != [] {
      WithdrawQueues(s, log[..|log| - 1], c);
    }
  }

  // The node that loses its name is told to shut down before anything else.
  lemma EvictedTold(s: State, c: string, log: seq<Withdrawal>)
    requires c in s.nodes
    ensures var t := Evicted(Tell(s, c, Shutdown(EVICTED)), c, log);
      c in t.nodes && s.nodes[c].outbox + [Shutdown(EVICTED)] <= t.nodes[c].outbox
  {
    hide Withdraw;
    WithdrawQueues(WithoutServices(Tell(s, c, Shutdown(EVICTED)), c), log, c);
  }

  // A takeover clears the caller's services, publications and subscriptions and starts a
  // new record; nothing of any other caller is touched.
  lemma TakeoverClears(s: State, c: string, api: string, log: seq<Withdrawal>)
    requires TakesOver(s, c, api) && Enrolls(s, c, api, log)
    ensures Cleared(s, Enroll(s, c, api, log), c)
    ensures Enroll(s, c, api, log).nodes[c] == NewRecord(api)
  {
    hide Evicted, Withdraws, Withdraw, Gone;
    EvictionClears(s, c, log);
  }

  // Only c's record was replaced by a blank one, after c's registrations were removed.
  ghost predicate Blank(s: State, t: State, c: string) {
    && (forall d :: d in t.nodes <==> d in s.nodes || d == c)
    && (forall d :: d in s.nodes && d != c ==> t.nodes[d] == s.nodes[d].(outbox := t.nodes[d].outbox))
    && t.nodes[c] == NewRecord(t.nodes[c].api)
    && (forall k, r :: Has(t.publications, k, r) <==> Has(s.publications, k, r) && r.caller != c)
    && (forall k, r :: Has(t.subscriptions, k, r) <==> Has(s.subscriptions, k, r) && r.caller != c)
    && (forall n :: n in t.services ==> n in s.services && s.services[n].caller != c && t.services[n] == s.services[n])
  }

  lemma EnrollBlank(s: State, c: string, api: string, log: seq<Withdrawal>)
    requires Agreement(s) && Enrolls(s, c, api, log)
    ensures var t := Enroll(s, c, api, log);
      c in t.nodes && t.nodes[c].api == api && (t == s || Blank(s, t, c))
  {
    hide Enrolls, Agreement, Evicted, Tell;
    if TakesOver(s, c, api) {
      hide Enroll;
      TakeoverClears(s, c, api, log);
    } else if c !in s.nodes {
      FreshBlank(s, s.(nodes := s.nodes[c := NewRecord(api)]), c, api);
    }
  }

  lemma FreshBlank(s: State, t: State, c: string, api: string)
    requires Agreement(s) && c !in s.nodes && t == s.(nodes := s.nodes[c := NewRecord(api)])
    ensures Blank(s, t, c)
  {
    assert forall k, r :: Has(s.publications, k, r) ==> Knows(s, r);
    assert forall k, r :: Has(s.subscriptions, k, r) ==> Knows(s, r);
  }

  lemma BlankAgrees(s: State, t: State, c: string)
    requires Agreement(s) && Blank(s, t, c)
    ensures Almost(t, c)
  {
    assert forall r: Registration :: r.caller != c ==> (Knows(t, r) <==> Knows(s, r));
    assert PublicationsAgree(t);
    assert SubscriptionsAgree(t);
  }

  lemma EnrollAgrees(s: State, c: string, api: string, log: seq<Withdrawal>)
    requires Agreement(s) && Enrolls(s, c, api, log)
    ensures var t := Enroll(s, c, api, log);
      Almost(t, c) && c in t.nodes && t.nodes[c].api == api
  {
    hide Enroll, Enrolls;
    EnrollBlank(s, c, api, log);
    if Enroll(s, c, api, log) != s {
      BlankAgrees(s, Enroll(s, c, api, log), c);
    }
  }

  // Every call keeps the indexes in agreement.
  lemma OpAgrees(s: State, op: Op)
    requires Agreement(s) && Possible(s, op) && OnRecord(s, op)
    ensures Agreement(Apply(s, op))
  {
    hide Agreement, Enrolls, RegisterService, UnregisterService, RegisterSubscriber, UnregisterSubscriber;
    hide AddPublisher, DropPublisher, RegisterParam, UnregisterParam;
    match op
    case RegService(n, c, a, sa, log) => RegServiceAgrees(s, n, c, a, sa, log);
    case UnregService(n, c) => UnregServiceAgrees(s, n, c);
    case RegSubscriber(t, ty, c, a, log) => RegSubscriberAgrees(s, t, ty, c, a, log);
    case UnregSubscriber(t, c, a) => UnregSubscriberAgrees(s, t, c, a);
    case RegPublisher(t, ty, c, a, log, list) =>
      RegPublisherAgrees(s, t, ty, c, a, log);
      BooksAgree(AddPublisher(s, t, ty, c, a, log), Apply(s, op));
    case UnregPublisher(t, c, a, list) =>
      UnregPublisherAgrees(s, t, c, a);
      BooksAgree(DropPublisher(s, t, c, a), Apply(s, op));
    case RegParam(k, c, a, log) => RegParamAgrees(s, k, c, a, log);
    case UnregParam(k, c, a) => UnregParamAgrees(s, k, c, a);
  }

  lemma SameKnows(s: State, t: State)
    requires t.nodes.Keys == s.nodes.Keys
    requires forall c :: c in s.nodes ==> t.nodes[c].api == s.nodes[c].api
    ensures forall r :: Knows(t, r) <==> Knows(s, r)
  {
  }

  // Holding a name and filing its registration brings the indexes back in agreement.
  lemma HoldServiceAgrees(s: State, c: string, name: string, serviceApi: string)
    requires Almost(s, c) && c in s.nodes
    ensures var t := Hold(s, c, Service, name);
      Agreement(t.(services := t.services[name := Registration(c, serviceApi)]))
  {
    SameKnows(s, Hold(s, c, Service, name));
  }

  lemma HoldSubscriptionAgrees(s: State, c: string, api: string, topic: string)
    requires Almost(s, c) && c in s.nodes && s.nodes[c].api == api
    ensures var t := Hold(s, c, Subscription, topic);
      Agreement(t.(subscriptions := Add(t.subscriptions, topic, Registration(c, api))))
  {
    hide Add;
    SameKnows(s, Hold(s, c, Subscription, topic));
    AddAt(s.subscriptions, topic, Registration(c, api));
  }

  lemma HoldPublicationAgrees(s: State, c: string, api: string, topic: string)
    requires Almost(s, c) && c in s.nodes && s.nodes[c].api == api
    ensures var t := Hold(s, c, Publication, topic);
      Agreement(t.(publications := Add(t.publications, topic, Registration(c, api))))
  {
    hide Add;
    SameKnows(s, Hold(s, c, Publication, topic));
    AddAt(s.publications, topic, Registration(c, api));
  }

  lemma HoldParamAgrees(s: State, c: string, api: string, key: string)
    requires Almost(s, c) && c in s.nodes
    ensures var t := Hold(s, c, Param, key);
      Agreement(t.(params := Add(t.params, key, Registration(c, api))))
  {
    hide Add;
    SameKnows(s, Hold(s, c, Param, key));
  }

  lemma TypeAgrees(s: State, topic: string, topicType: string)
    requires Agreement(s)
    ensures Agreement(TypeTopic(s, topic, topicType))
  {
    SameKnows(s, TypeTopic(s, topic, topicType));
  }

  lemma RegServiceAgrees(s: State, n: string, c: string, api: string, serviceApi: string, log: seq<Withdrawal>)
    requires Agreement(s) && Enrolls(s, c, api, log)
    ensures Agreement(RegisterService(s, n, c, api, serviceApi, log))
  {
    hide Enroll, Enrolls, Agreement, Almost, Hold;
    EnrollAgrees(s, c, api, log);
    HoldServiceAgrees(Enroll(s, c, api, log), c, n, serviceApi);
  }

  lemma RegSubscriberAgrees(s: State, topic: string, topicType: string, c: string, api: string, log: seq<Withdrawal>)
    requires Agreement(s) && Enrolls(TypeTopic(s, topic, topicType), c, api, log)
    ensures Agreement(RegisterSubscriber(s, topic, topicType, c, api, log))
  {
    hide Enroll, Enrolls, Agreement, Almost, Hold, Add, TypeTopic;
    TypeAgrees(s, topic, topicType);
    EnrollAgrees(TypeTopic(s, topic, topicType), c, api, log);
    HoldSubscriptionAgrees(Enroll(TypeTopic(s, topic, topicType), c, api, log), c, api, topic);
  }

  lemma RegPublisherAgrees(s: State, topic: string, topicType: string, c: string, api: string, log: seq<Withdrawal>)
    requires Agreement(s) && Enrolls(TypeTopic(s, topic, topicType), c, api, log)
    ensures Agreement(AddPublisher(s, topic, topicType, c, api, log))
  {
    hide Enroll, Enrolls, Agreement, Almost, Hold, Add, TypeTopic;
    TypeAgrees(s, topic, topicType);
    EnrollAgrees(TypeTopic(s, topic, topicType), c, api, log);
    HoldPublicationAgrees(Enroll(TypeTopic(s, topic, topicType), c, api, log), c, api, topic);
  }

  lemma RegParamAgrees(s: State, key: string, c: string, api: string, log: seq<Withdrawal>)
    requires Agreement(s) && Enrolls(s, c, api, log)
    ensures RegisterParam(s, key, c, api, log).Ok? ==> Agreement(RegisterParam(s, key, c, api, log).value)
  {
    hide Enroll, Enrolls, Agreement, Almost, Hold, Add, Canonical;
    if Canonical(key).Ok? {
      EnrollAgrees(s, c, api, log);
      HoldParamAgrees(Enroll(s, c, api, log), c, api, Canonical(key).value);
    }
  }

  lemma ReleaseServiceAgrees(s: State, c: string, name: string)
    requires PublicationsAgree(s) && SubscriptionsAgree(s) && name !in s.services && ServicesAgree(s)
    requires forall d :: d in s.nodes ==> Busy(s.nodes[d])
    ensures Agreement(Release(s, c, Service, name))
  {
    if c in s.nodes {
      var u := s.(nodes := s.nodes[c := Holding(s.nodes[c], Service, Held(s.nodes[c], Service) - {name})]);
      SameKnows(s, u);
      CheckNodeAgrees(u, c);
    }
  }

  lemma UnregServiceAgrees(s: State, n: string, c: string)
    requires Agreement(s)
    ensures Agreement(UnregisterService(s, n, c))
  {
    hide Release;
    var t := s.(services := s.services - {n});
    SameKnows(s, t);
    ReleaseServiceAgrees(t, c, n);
  }

  // An index and the records agree but for one registration, that of c under name x.
  ghost predicate AgreeBut(s: State, m: Index, k: Kind, name: string, x: Registration) {
    forall t, r :: Has(m, t, r) <==>
      Knows(s, r) && t in Held(s.nodes[r.caller], k) && !(t == name && r == x)
  }

  lemma UnregSubscriberAgrees(s: State, topic: string, c: string, api: string)
    requires Agreement(s) && (c in s.nodes ==> s.nodes[c].api == api)
    ensures Agreement(UnregisterSubscriber(s, topic, c, api))
  {
    hide Release, Discard, CheckTopic;
    var x := Registration(c, api);
    var t := s.(subscriptions := Discard(s.subscriptions, topic, x));
    SameKnows(s, t);
    DiscardAt(s.subscriptions, topic, x);
    assert AgreeBut(t, t.subscriptions, Subscription, topic, x);
    ReleaseSubscriptionAgrees(t, topic, c, api);
    TopicAgrees(Release(t, c, Subscription, topic), topic);
  }

  lemma ReleaseSubscriptionAgrees(s: State, topic: string, c: string, api: string)
    requires PublicationsAgree(s) && ServicesAgree(s) && (forall d :: d in s.nodes ==> Busy(s.nodes[d]))
    requires AgreeBut(s, s.subscriptions, Subscription, topic, Registration(c, api))
    requires c in s.nodes ==> s.nodes[c].api == api
    ensures Agreement(Release(s, c, Subscription, topic))
  {
    if c in s.nodes {
      var u := s.(nodes := s.nodes[c := Holding(s.nodes[c], Subscription, Held(s.nodes[c], Subscription) - {topic})]);
      SameKnows(s, u);
      assert forall r :: Knows(s, r) && r.caller == c ==> r == Registration(c, api);
      CheckNodeAgrees(u, c);
    }
  }

  lemma UnregPublisherAgrees(s: State, topic: string, c: string, api: string)
    requires Agreement(s) && (c in s.nodes ==> s.nodes[c].api == api)
    ensures Agreement(DropPublisher(s, topic, c, api))
  {
    hide Release, Discard, CheckTopic;
    var x := Registration(c, api);
    var t := s.(publications := Discard(s.publications, topic, x));
    SameKnows(s, t);
    DiscardAt(s.publications, topic, x);
    assert AgreeBut(t, t.publications, Publication, topic, x);
    ReleasePublicationAgrees(t, topic, c, api);
    TopicAgrees(Release(t, c, Publication, topic), topic);
  }

  lemma ReleasePublicationAgrees(s: State, topic: string, c: string, api: string)
    requires SubscriptionsAgree(s) && ServicesAgree(s) && (forall d :: d in s.nodes ==> Busy(s.nodes[d]))
    requires AgreeBut(s, s.publications, Publication, topic, Registration(c, api))
    requires c in s.nodes ==> s.nodes[c].api == api
    ensures Agreement(Release(s, c, Publication, topic))
  {
    if c in s.nodes {
      var u := s.(nodes := s.nodes[c := Holding(s.nodes[c], Publication, Held(s.nodes[c], Publication) - {topic})]);
      SameKnows(s, u);
      assert forall r :: Knows(s, r) && r.caller == c ==> r == Registration(c, api);
      CheckNodeAgrees(u, c);
    }
  }

  lemma TopicAgrees(s: State, topic: string)
    requires Agreement(s)
    ensures Agreement(CheckTopic(s, topic))
  {
    SameKnows(s, CheckTopic(s, topic));
  }

  lemma UnregParamAgrees(s: State, key: string, c: string, api: string)
    requires Agreement(s)
    ensures UnregisterParam(s, key, c, api).Ok? ==> Agreement(UnregisterParam(s, key, c, api).value)
  {
    hide Release, Discard, Canonical;
    if Canonical(key).Ok? {
      var k := Canonical(key).value;
      var t := s.(params := Discard(s.params, k, Registration(c, api)));
      SameKnows(s, t);
      ReleaseParamAgrees(t, c, k);
    }
  }

  lemma ReleaseParamAgrees(s: State, c: string, key: string)
    requires Agreement(s)
    ensures Agreement(Release(s, c, Param, key))
  {
    if c in s.nodes {
      var u := s.(nodes := s.nodes[c := Holding(s.nodes[c], Param, Held(s.nodes[c], Param) - {key})]);
      SameKnows(s, u);
      CheckNodeAgrees(u, c);
    }
  }

  // Over every run the indexes agree both ways and every record kept has a registration.
  lemma {:induction false} RunAgrees(states: seq<State>, ops: seq<Op>, n: nat)
    requires CallRun(states, ops) && n <= |ops|
    ensures Agreement(states[n])
    decreases n
  {
    if n > 0 {
      RunAgrees(states, ops, n - 1);
      OpAgrees(states[n - 1], ops[n - 1]);
    }
  }
}
