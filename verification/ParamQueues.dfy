// The parameter updates in the registry's queues: calls about other things leave them as
// they are, as long as every caller keeps one API.
module ParamQueues {
  import opened Outcomes
  import opened Names
  import opened Registrations
  import opened RegistryRuns
  import RegistryLifetimes

  // The keys of the parameter updates in a queue.
  function KeysOf(tasks: seq<Task>): seq<Path>
    decreases |tasks|
  {
    if tasks == [] then []
    else (if tasks[0].ParamUpdate? then [Split(tasks[0].key)] else []) + KeysOf(tasks[1..])
  }

  lemma {:induction false} KeysConcat(a: seq<Task>, b: seq<Task>)
    ensures KeysOf(a + b) == KeysOf(a) + KeysOf(b)
    decreases |a|
  {
    if a == [] {
      assert a + b == b;
    } else {
      assert (a + b)[0] == a[0] && (a + b)[1..] == a[1..] + b;
      KeysConcat(a[1..], b);
    }
  }

  lemma {:induction false} KeysRepeated(task: Task, n: nat)
    requires !task.ParamUpdate?
    ensures KeysOf(Repeat(task, n)) == []
    decreases n
  {
    if n > 0 {
      assert Repeat(task, n)[1..] == Repeat(task, n - 1);
      KeysRepeated(task, n - 1);
    }
  }

  // The keys a caller is still to be told about.
  function Pending(s: State, c: string): seq<Path> {
    if c in s.nodes then KeysOf(s.nodes[c].outbox) else []
  }

  // No update is queued or lost, but with a record that goes.
  ghost predicate Undisturbed(s: State, b: State) {
    && (forall c :: c in b.nodes ==> Pending(b, c) == Pending(s, c))
    && |s.retired| <= |b.retired| && b.retired[..|s.retired|] == s.retired
    && forall i :: |s.retired| <= i < |b.retired| ==> Dropped(s, b, b.retired[i])
  }

  ghost predicate Dropped(s: State, b: State, r: Record) {
    exists c :: c in s.nodes && c !in b.nodes && KeysOf(r.outbox) == Pending(s, c)
  }

  lemma SameUndisturbed(s: State, b: State)
    requires b.retired == s.retired
    requires forall c :: c in b.nodes ==> Pending(b, c) == Pending(s, c)
    ensures Undisturbed(s, b)
  {
  }

  lemma SteadyPending(s: State, c: string, api: string, k: Kind, name: string)
    ensures var b := Hold(RegistryLifetimes.Steady(s, c, api), c, k, name);
      b.retired == s.retired && forall d :: d in b.nodes ==> Pending(b, d) == Pending(s, d)
  {
  }

  lemma NotifyPending(s: State, topic: string, list: seq<string>, c: string)
    ensures Pending(Notify(s, topic, list), c) == Pending(s, c)
  {
    if c in s.nodes {
      var n, task := Count(At(s.subscriptions, topic), c), PublisherUpdate(topic, list);
      KeysConcat(s.nodes[c].outbox, Repeat(task, n));
      KeysRepeated(task, n);
      assert KeysOf(s.nodes[c].outbox) + [] == KeysOf(s.nodes[c].outbox);
    }
  }

  lemma NotifyUndisturbed(s: State, u: State, topic: string, list: seq<string>)
    requires Undisturbed(s, u)
    ensures Undisturbed(s, Notify(u, topic, list))
  {
    hide KeysOf, Pending;
    var b := Notify(u, topic, list);
    NotifyBooks(u, topic, list);
    forall c | c in b.nodes
      ensures Pending(b, c) == Pending(s, c)
    {
      NotifyPending(u, topic, list, c);
    }
    forall i | |s.retired| <= i < |b.retired|
      ensures Dropped(s, b, b.retired[i])
    {
      assert Dropped(s, u, u.retired[i]);
    }
  }

  lemma ReleaseUndisturbed(s: State, c: string, k: Kind, name: string)
    ensures Undisturbed(s, Release(s, c, k, name))
  {
    hide KeysOf;
    var b := Release(s, c, k, name);
    if |b.retired| > |s.retired| {
      assert KeysOf(b.retired[|s.retired|].outbox) == Pending(s, c);
      assert Dropped(s, b, b.retired[|s.retired|]);
    }
  }

  // States that differ in the books only.
  ghost predicate SameQueues(s: State, t: State) {
    t.nodes == s.nodes && t.retired == s.retired
  }

  lemma SameBefore(s: State, s1: State, b: State)
    requires SameQueues(s, s1) && Undisturbed(s1, b)
    ensures Undisturbed(s, b)
  {
    hide KeysOf;
    forall i | |s.retired| <= i < |b.retired|
      ensures Dropped(s, b, b.retired[i])
    {
      assert Dropped(s1, b, b.retired[i]);
    }
  }

  lemma SameAfter(s: State, b: State, b1: State)
    requires SameQueues(b, b1) && Undisturbed(s, b)
    ensures Undisturbed(s, b1)
  {
    hide KeysOf;
    forall i | |s.retired| <= i < |b1.retired|
      ensures Dropped(s, b1, b1.retired[i])
    {
      assert Dropped(s, b, b.retired[i]);
    }
  }

  // ----- the calls -----

  predicate Registered(s: State, op: Op) {
    Registers(op) && (op.caller in s.nodes ==> s.nodes[op.caller].api == op.api)
  }

  lemma RegisterUndisturbed(s: State, op: Op)
    requires Registered(s, op)
    ensures Undisturbed(s, Apply(s, op))
  {
    hide KeysOf, Pending, Enroll, RegistryLifetimes.Steady, Hold, Add, Notify, Canonical, TypeTopic, Undisturbed;
    var c, api := op.caller, op.api;
    match op {
      case RegService(n, _, _, sa, log) =>
        RegistryLifetimes.EnrollSteady(s, c, api, log);
        SameAfterHold(s, s, c, api, Service, n, Apply(s, op));
      case RegSubscriber(t, ty, _, _, log) =>
        var s1 := TypeTopic(s, t, ty);
        TypeQueues(s, t, ty);
        RegistryLifetimes.EnrollSteady(s1, c, api, log);
        SameAfterHold(s, s1, c, api, Subscription, t, Apply(s, op));
      case RegPublisher(t, ty, _, _, log, list) =>
        var s1 := TypeTopic(s, t, ty);
        TypeQueues(s, t, ty);
        RegistryLifetimes.EnrollSteady(s1, c, api, log);
        var u := AddPublisher(s, t, ty, c, api, log);
        SameAfterHold(s, s1, c, api, Publication, t, u);
        NotifyUndisturbed(s, u, t, list);
      case RegParam(k, _, _, log) =>
        if Canonical(k).Ok? {
          RegistryLifetimes.EnrollSteady(s, c, api, log);
          SameAfterHold(s, s, c, api, Param, Canonical(k).value, Apply(s, op));
        } else {
          SameUndisturbed(s, s);
        }
    }
  }

  lemma TypeQueues(s: State, topic: string, topicType: string)
    ensures SameQueues(s, TypeTopic(s, topic, topicType))
  {
  }

  lemma SameAfterHold(s: State, s1: State, c: string, api: string, k: Kind, name: string, b: State)
    requires SameQueues(s, s1) && SameQueues(Hold(RegistryLifetimes.Steady(s1, c, api), c, k, name), b)
    ensures Undisturbed(s, b)
  {
    hide KeysOf, Hold;
    SteadyPending(s1, c, api, k, name);
    SameUndisturbed(s1, Hold(RegistryLifetimes.Steady(s1, c, api), c, k, name));
    SameAfter(s1, Hold(RegistryLifetimes.Steady(s1, c, api), c, k, name), b);
    SameBefore(s, s1, b);
  }

  lemma CheckTopicQueues(s: State, topic: string)
    ensures SameQueues(s, CheckTopic(s, topic))
  {
  }

  lemma UnregisterUndisturbed(s: State, op: Op)
    requires !Registers(op)
    ensures Undisturbed(s, Apply(s, op))
  {
    hide KeysOf, Pending, Release, CheckTopic, Discard, Notify, Canonical, Undisturbed;
    match op {
      case UnregService(n, c) =>
        var s1 := s.(services := s.services - {n});
        ReleaseUndisturbed(s1, c, Service, n);
        SameBefore(s, s1, Apply(s, op));
      case UnregSubscriber(t, c, api) =>
        var s1 := s.(subscriptions := Discard(s.subscriptions, t, Registration(c, api)));
        GivenUp(s, s1, c, Subscription, t, t);
      case UnregPublisher(t, c, api, list) =>
        var s1 := s.(publications := Discard(s.publications, t, Registration(c, api)));
        GivenUp(s, s1, c, Publication, t, t);
        NotifyUndisturbed(s, DropPublisher(s, t, c, api), t, list);
      case UnregParam(k, c, api) =>
        if Canonical(k).Ok? {
          var s1 := s.(params := Discard(s.params, Canonical(k).value, Registration(c, api)));
          ReleaseUndisturbed(s1, c, Param, Canonical(k).value);
          SameBefore(s, s1, Apply(s, op));
        } else {
          SameUndisturbed(s, s);
        }
    }
  }

  lemma GivenUp(s: State, s1: State, c: string, k: Kind, name: string, topic: string)
    requires SameQueues(s, s1)
    ensures Undisturbed(s, CheckTopic(Release(s1, c, k, name), topic))
  {
    hide KeysOf, Pending, Release, CheckTopic, Undisturbed;
    var b := Release(s1, c, k, name);
    ReleaseUndisturbed(s1, c, k, name);
    CheckTopicQueues(b, topic);
    SameAfter(s1, b, CheckTopic(b, topic));
    SameBefore(s, s1, CheckTopic(b, topic));
  }

  // Every call of a caller that keeps its API.
  lemma CallUndisturbed(s: State, op: Op)
    requires Registers(op) && op.caller in s.nodes ==> s.nodes[op.caller].api == op.api
    ensures Undisturbed(s, Apply(s, op))
  {
    hide Apply, Undisturbed;
    if Registers(op) {
      RegisterUndisturbed(s, op);
    } else {
      UnregisterUndisturbed(s, op);
    }
  }
}
