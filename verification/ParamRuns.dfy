// The index of parameter subscriptions over every run, takeovers included: it has what the
// records say, though after a takeover it may have more, and no empty sets.
module ParamRuns {
  import opened Names
  import opened Registrations
  import opened RegistryRuns

  ghost predicate ParamsFiled(s: State) {
    && (forall c, k :: c in s.nodes && k in s.nodes[c].params ==> Has(s.params, k, Registration(c, s.nodes[c].api)))
    && (forall k :: k in s.params ==> s.params[k] != {})
  }

  // No record has got a parameter subscription.
  ghost predicate NoMoreParams(s: State, b: State) {
    && b.params == s.params
    && forall d :: d in b.nodes ==>
         b.nodes[d].params == {} ||
         (d in s.nodes && b.nodes[d].api == s.nodes[d].api && b.nodes[d].params == s.nodes[d].params)
  }

  lemma StillFiled(s: State, b: State)
    requires ParamsFiled(s) && NoMoreParams(s, b)
    ensures ParamsFiled(b)
  {
  }

  lemma EnrollNoMore(s: State, c: string, api: string, log: seq<Withdrawal>)
    requires Agreement(s) && Enrolls(s, c, api, log)
    ensures NoMoreParams(s, Enroll(s, c, api, log))
    ensures c in Enroll(s, c, api, log).nodes && Enroll(s, c, api, log).nodes[c].api == api
  {
    hide Enrolls, Evicted, Agreement;
    EnrollBlank(s, c, api, log);
    if TakesOver(s, c, api) {
      TakeoverClears(s, c, api, log);
    }
  }

  lemma HoldNoMore(s: State, b: State, c: string, k: Kind, name: string)
    requires k != Param && c in s.nodes && b == Hold(s, c, k, name)
    ensures NoMoreParams(s, b)
  {
  }

  lemma NoMoreTwice(a: State, b: State, c: State)
    requires NoMoreParams(a, b) && NoMoreParams(b, c)
    ensures NoMoreParams(a, c)
  {
  }

  lemma SameNoMore(a: State, b: State, c: State)
    requires NoMoreParams(a, b) && c.params == b.params && c.nodes.Keys == b.nodes.Keys
    requires forall d :: d in b.nodes ==> c.nodes[d].api == b.nodes[d].api && c.nodes[d].params == b.nodes[d].params
    ensures NoMoreParams(a, c)
  {
  }

  lemma RegisterNoMore(s: State, op: Op)
    requires Agreement(s) && Possible(s, op) && (op.RegSubscriber? || op.RegPublisher?)
    ensures NoMoreParams(s, Apply(s, op))
  {
    hide Enroll, Enrolls, Hold, Notify, Lists, Agreement, Add, NoMoreParams;
    var c, s1 := op.caller, TypeTopic(s, op.topic, op.topicType);
    var k := if op.RegPublisher? then Publication else Subscription;
    TypeAgrees(s, op.topic, op.topicType);
    EnrollNoMore(s1, c, op.api, op.log);
    var u := Enroll(s1, c, op.api, op.log);
    var v := Hold(u, c, k, op.topic);
    HoldNoMore(u, v, c, k, op.topic);
    NoMoreTwice(s1, u, v);
    assert NoMoreParams(s, s1) by { TypeNoMore(s, op.topic, op.topicType); }
    NoMoreTwice(s, s1, v);
    if op.RegPublisher? {
      NotifyBooks(AddPublisher(s, op.topic, op.topicType, c, op.api, op.log), op.topic, op.list);
    }
    SameNoMore(s, v, Apply(s, op));
  }

  lemma TypeNoMore(s: State, topic: string, topicType: string)
    ensures NoMoreParams(s, TypeTopic(s, topic, topicType))
  {
  }

  lemma ServiceNoMore(s: State, op: Op)
    requires Agreement(s) && Possible(s, op) && op.RegService?
    ensures NoMoreParams(s, Apply(s, op))
  {
    hide Enroll, Enrolls, Hold, Agreement, NoMoreParams;
    EnrollNoMore(s, op.caller, op.api, op.log);
    var u := Enroll(s, op.caller, op.api, op.log);
    var v := Hold(u, op.caller, Service, op.name);
    HoldNoMore(u, v, op.caller, Service, op.name);
    NoMoreTwice(s, u, v);
    SameNoMore(s, v, Apply(s, op));
  }

  lemma ReleaseNoMore(s: State, c: string, k: Kind, name: string)
    requires k != Param
    ensures NoMoreParams(s, Release(s, c, k, name))
  {
  }

  lemma UnregisterNoMore(s: State, op: Op)
    requires op.UnregService? || op.UnregSubscriber? || op.UnregPublisher?
    ensures NoMoreParams(s, Apply(s, op))
  {
    hide Release, Discard, Notify, NoMoreParams;
    match op
    case UnregService(n, c) =>
      ReleaseNoMore(s.(services := s.services - {n}), c, Service, n);
      SameBase(s, s.(services := s.services - {n}), Apply(s, op));
    case UnregSubscriber(t, c, a) =>
      var s1 := s.(subscriptions := Discard(s.subscriptions, t, Registration(c, a)));
      ReleaseNoMore(s1, c, Subscription, t);
      SameNoMore(s1, Release(s1, c, Subscription, t), Apply(s, op));
      SameBase(s, s1, Apply(s, op));
    case UnregPublisher(t, c, a, list) =>
      var s1 := s.(publications := Discard(s.publications, t, Registration(c, a)));
      ReleaseNoMore(s1, c, Publication, t);
      NotifyBooks(DropPublisher(s, t, c, a), t, list);
      SameNoMore(s1, Release(s1, c, Publication, t), Apply(s, op));
      SameBase(s, s1, Apply(s, op));
  }

  lemma SameBase(s: State, s1: State, b: State)
    requires NoMoreParams(s1, b) && s1.nodes == s.nodes && s1.params == s.params
    ensures NoMoreParams(s, b)
  {
  }

  lemma RegParamFiled(s: State, op: Op)
    requires Agreement(s) && ParamsFiled(s) && Possible(s, op) && op.RegParam?
    ensures ParamsFiled(Apply(s, op))
  {
    hide Enroll, Enrolls, Agreement, Canonical;
    if Canonical(op.key).Ok? {
      EnrollNoMore(s, op.caller, op.api, op.log);
      var u := Enroll(s, op.caller, op.api, op.log);
      StillFiled(s, u);
      FileParam(u, op.caller, op.api, Canonical(op.key).value);
    }
  }

  lemma FileParam(s: State, c: string, api: string, k: string)
    requires ParamsFiled(s) && c in s.nodes && s.nodes[c].api == api
    ensures var t := Hold(s, c, Param, k);
      ParamsFiled(t.(params := Add(t.params, k, Registration(c, api))))
  {
    hide Add;
    AddAt(s.params, k, Registration(c, api));
    AddFull(s.params, k, Registration(c, api));
  }

  lemma AddFull(m: Index, k: string, r: Registration)
    ensures forall t :: t in Add(m, k, r) ==> t in m || t == k
    ensures forall t :: t in Add(m, k, r) && t in m && t != k ==> Add(m, k, r)[t] == m[t]
    ensures k in Add(m, k, r) && r in Add(m, k, r)[k]
  {
  }

  lemma UnregParamFiled(s: State, op: Op)
    requires ParamsFiled(s) && OnRecord(s, op) && op.UnregParam?
    ensures ParamsFiled(Apply(s, op))
  {
    hide Canonical;
    if Canonical(op.key).Ok? {
      UnfileParam(s, op.caller, op.api, Canonical(op.key).value);
    }
  }

  lemma UnfileParam(s: State, c: string, api: string, k: string)
    requires ParamsFiled(s) && (c in s.nodes ==> s.nodes[c].api == api)
    ensures ParamsFiled(Release(s.(params := Discard(s.params, k, Registration(c, api))), c, Param, k))
  {
    hide Discard;
    DiscardAt(s.params, k, Registration(c, api));
    DiscardFull(s.params, k, Registration(c, api));
  }

  lemma DiscardFull(m: Index, k: string, r: Registration)
    requires forall t :: t in m ==> m[t] != {}
    ensures forall t :: t in Discard(m, k, r) ==> Discard(m, k, r)[t] != {}
  {
  }

  lemma OpFiled(s: State, op: Op)
    requires Agreement(s) && ParamsFiled(s) && Possible(s, op) && OnRecord(s, op)
    ensures ParamsFiled(Apply(s, op))
  {
    hide Agreement, ParamsFiled, Apply, Possible, OnRecord;
    if op.RegParam? {
      RegParamFiled(s, op);
    } else if op.UnregParam? {
      UnregParamFiled(s, op);
    } else {
      if op.RegService? {
        ServiceNoMore(s, op);
      } else if op.RegSubscriber? || op.RegPublisher? {
        RegisterNoMore(s, op);
      } else {
        UnregisterNoMore(s, op);
      }
      StillFiled(s, Apply(s, op));
    }
  }

  // Over every run, takeovers included: what a node on record holds is filed under its
  // API, and no key is left with an empty set.
  lemma {:induction false} RunFiled(states: seq<State>, ops: seq<Op>, n: nat)
    requires CallRun(states, ops) && n <= |ops|
    ensures ParamsFiled(states[n])
    decreases n
  {
    hide ParamsFiled, Possible, OnRecord, Apply, Agreement;
    if n > 0 {
      RunFiled(states, ops, n - 1);
      RunAgrees(states, ops, n - 1);
      OpFiled(states[n - 1], ops[n - 1]);
    } else {
      StartFiled();
    }
  }

  lemma StartFiled()
    ensures ParamsFiled(START)
  {
  }
}
