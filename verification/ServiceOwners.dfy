// Who a service belongs to: the last caller that registered it, whoever withdraws it.
module ServiceOwners {
  import opened Registrations
  import opened RegistryRuns

  // The call takes the service away without giving it to anybody.
  predicate Withdrawn(s: State, op: Op, name: string) {
    || (op.UnregService? && op.name == name)
    || (Replaces(s, op) && name in s.services && s.services[name].caller == op.caller)
  }

  predicate Given(op: Op, name: string) {
    op.RegService? && op.name == name
  }

  ghost predicate OwnerStep(s: State, op: Op, t: State, name: string) {
    if Given(op, name) then
      name in t.services && t.services[name] == Registration(op.caller, op.serviceApi)
    else if Withdrawn(s, op, name) then
      name !in t.services
    else
      (name in t.services <==> name in s.services) && (name in t.services ==> t.services[name] == s.services[name])
  }

  lemma EnrollServices(s: State, c: string, api: string, log: seq<Withdrawal>, name: string)
    requires Enrolls(s, c, api, log)
    ensures var t := Enroll(s, c, api, log);
      && (name in t.services <==> name in s.services && !(TakesOver(s, c, api) && s.services[name].caller == c))
      && (name in t.services ==> t.services[name] == s.services[name])
  {
    hide Evicted, Enrolls;
    if TakesOver(s, c, api) {
      hide Enroll;
      TakeoverClears(s, c, api, log);
    }
  }

  lemma ReleaseServices(s: State, c: string, k: Kind, name: string)
    ensures Release(s, c, k, name).services == s.services
  {
  }

  lemma TypedServices(s: State, topic: string, topicType: string)
    ensures var t := TypeTopic(s, topic, topicType); t.services == s.services && t.nodes == s.nodes
  {
  }

  lemma RegisterOwner(s: State, op: Op, name: string)
    requires Possible(s, op) && Registers(op)
    ensures OwnerStep(s, op, Apply(s, op), name)
  {
    hide Enroll, Enrolls, Notify, Lists, Names.Canonical, Add, TypeTopic;
    match op
    case RegService(_, c, a, _, log) => EnrollServices(s, c, a, log, name);
    case RegSubscriber(t, ty, c, a, log) =>
      EnrollServices(TypeTopic(s, t, ty), c, a, log, name);
      TypedServices(s, t, ty);
    case RegPublisher(t, ty, c, a, log, list) =>
      EnrollServices(TypeTopic(s, t, ty), c, a, log, name);
      NotifyBooks(AddPublisher(s, t, ty, c, a, log), t, list);
      TypedServices(s, t, ty);
    case RegParam(_, c, a, log) => EnrollServices(s, c, a, log, name);
  }

  lemma UnregisterOwner(s: State, op: Op, name: string)
    requires Possible(s, op) && !Registers(op)
    ensures OwnerStep(s, op, Apply(s, op), name)
  {
    hide Release, Notify, Lists, Names.Canonical, Discard;
    match op
    case UnregService(n, c) => ReleaseServices(s.(services := s.services - {n}), c, Service, n);
    case UnregSubscriber(t, c, a) =>
      ReleaseServices(s.(subscriptions := Discard(s.subscriptions, t, Registration(c, a))), c, Subscription, t);
    case UnregPublisher(t, c, a, list) =>
      ReleaseServices(s.(publications := Discard(s.publications, t, Registration(c, a))), c, Publication, t);
      NotifyBooks(DropPublisher(s, t, c, a), t, list);
    case UnregParam(k, c, a) =>
      if Names.Canonical(k).Ok? {
        var key := Names.Canonical(k).value;
        ReleaseServices(s.(params := Discard(s.params, key, Registration(c, a))), c, Param, key);
      }
  }

  // Every call, for every service.
  lemma StepOwner(s: State, op: Op, name: string)
    requires Possible(s, op)
    ensures OwnerStep(s, op, Apply(s, op), name)
  {
    hide Possible, OwnerStep, Apply;
    if Registers(op) {
      RegisterOwner(s, op, name);
    } else {
      UnregisterOwner(s, op, name);
    }
  }

  // Over every run: a service found is the one last registered, and it is found until it
  // is withdrawn, by anybody, or its owner's name is taken over.
  lemma {:induction false} LastOwner(states: seq<State>, ops: seq<Op>, name: string, i: nat, j: nat)
    requires Registrations.CallRun(states, ops) && i < j <= |ops| && Given(ops[i], name)
    requires forall m :: i < m < j ==> !Given(ops[m], name) && !Withdrawn(states[m], ops[m], name)
    ensures name in states[j].services
    ensures states[j].services[name] == Registration(ops[i].caller, ops[i].serviceApi)
    decreases j
  {
    hide OwnerStep, Withdrawn, Given, Apply, Possible, OnRecord;
    RunStep(states, ops, name, j - 1);
    if i < j - 1 {
      LastOwner(states, ops, name, i, j - 1);
      Kept(states[j - 1], ops[j - 1], states[j], name);
    } else {
      Gets(states[i], ops[i], states[j], name);
    }
  }

  lemma RunStep(states: seq<State>, ops: seq<Op>, name: string, n: nat)
    requires Registrations.CallRun(states, ops) && n < |ops|
    ensures OwnerStep(states[n], ops[n], states[n + 1], name)
  {
    StepOwner(states[n], ops[n], name);
  }

  lemma Kept(s: State, op: Op, t: State, name: string)
    requires OwnerStep(s, op, t, name) && !Given(op, name) && !Withdrawn(s, op, name) && name in s.services
    ensures name in t.services && t.services[name] == s.services[name]
  {
  }

  lemma Gets(s: State, op: Op, t: State, name: string)
    requires OwnerStep(s, op, t, name) && Given(op, name)
    ensures name in t.services && t.services[name] == Registration(op.caller, op.serviceApi)
  {
  }
}
