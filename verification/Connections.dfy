// The publisher protocol from end to end: the master's registry, the updates on their way
// and the connections of one process for one topic, over whole runs. The process is the
// one at a given API; it goes by one name.
module Connections {
  import opened Outcomes
  import opened Registrations
  import opened PublisherQueues
  import opened PublisherViews
  import opened Subscribers

  // listed is the last list the process was given, ended the publishers of it whose task
  // has ended since.
  datatype Joint = Joint(world: World, manager: Manager, listed: set<string>, ended: set<string>)

  // A process that subscribes may be a new one, with no connections yet.
  datatype Event = Happens(move: Move, anew: bool) | TaskEnds(id: nat, connecting: bool)

  // A call made under the API about the topic.
  predicate Own(op: Op, api: string, topic: string) {
    (op.RegSubscriber? || op.UnregSubscriber?) && op.api == api && op.topic == topic
  }

  // The list a move brings to the process: an answer, an update, or none at all when it
  // gives up the topic.
  ghost function ListOf(a: World, m: Move, b: World, api: string, topic: string): Option<set<string>>
    requires PublisherViews.Next(a, m, b)
  {
    match m
    case Call(op) =>
      if !Own(op, api, topic) then None
      else if op.RegSubscriber? then Some(Truth(b.reg, topic)) else Some({})
    case Deliver(l) =>
      var r := RecordOf(a.reg, l);
      if r.api == api && About(r.outbox[0], topic) && (api, topic) in a.views then Some(SetOf(r.outbox[0].publishers))
      else None
    case Lose(_) => None
  }

  // The connections it finds.
  function Found(a: Joint, m: Move, anew: bool): Manager {
    if anew && m.Call? && m.op.RegSubscriber? then IDLE else a.manager
  }

  ghost predicate Relists(before: Manager, uris: set<string>, b: Joint) {
    Reconciled(before, uris, b.manager) && b.listed == uris && b.ended == {}
  }

  ghost predicate MoveFollows(a: Joint, m: Move, anew: bool, b: Joint, api: string, topic: string) {
    && PublisherViews.Next(a.world, m, b.world)
    && var list := ListOf(a.world, m, b.world, api, topic);
       if list.Some? then Relists(Found(a, m, anew), list.value, b) else b == a.(world := b.world)
  }

  ghost predicate EndFollows(a: Joint, i: nat, connecting: bool, b: Joint) {
    && Exited(a.manager, i, connecting, b.manager)
    && b.world == a.world && b.listed == a.listed
    && b.ended == if a.manager.tasks[i].cancelled then a.ended else a.ended + {a.manager.tasks[i].uri}
  }

  ghost predicate Follows(a: Joint, e: Event, b: Joint, api: string, topic: string) {
    match e
    case Happens(m, anew) => MoveFollows(a, m, anew, b, api, topic)
    case TaskEnds(i, connecting) => EndFollows(a, i, connecting, b)
  }

  // Calls that name the API are made by c.
  predicate OneName(e: Event, c: string, api: string) {
    e.Happens? && e.move.Call? && (e.move.op.RegSubscriber? || e.move.op.UnregSubscriber?) && e.move.op.api == api ==>
      e.move.op.caller == c
  }

  ghost predicate JointRun(states: seq<Joint>, events: seq<Event>, c: string, api: string, topic: string) {
    && |states| == |events| + 1
    && states[0] == Joint(World(START, map[]), IDLE, {}, {})
    && forall i :: 0 <= i < |events| ==>
         Follows(states[i], events[i], states[i + 1], api, topic) && OneName(events[i], c, api)
  }

  // ----- the two ways to fall behind -----

  // A call overtakes a queue to the process, or a decisive one is lost.
  ghost predicate Misses(a: Joint, e: Event, api: string, topic: string) {
    e.Happens? && Hurts(a.world, e.move, api, topic)
  }

  // The publisher is back on a list before its cancelled task has ended.
  ghost predicate Tangles(a: Joint, e: Event, b: Joint, api: string, topic: string, u: string)
    requires Follows(a, e, b, api, topic)
  {
    && e.Happens?
    && var list := ListOf(a.world, e.move, b.world, api, topic);
       list.Some? && !InTime(Found(a, e.move, e.anew), list.value, u)
  }

  // No call does so, from the start of the run on or from one that tells the process how
  // things are.
  ghost predicate WellTold(states: seq<Joint>, events: seq<Event>, from: nat, n: nat, api: string, topic: string)
    requires from <= n <= |events| <= |states|
  {
    && (from == 0 || (from < n && Tells(events[from], api, topic)))
    && forall i :: from <= i < n ==> !Misses(states[i], events[i], api, topic)
  }

  predicate Tells(e: Event, api: string, topic: string) {
    e.Happens? && e.move.Call? && Renews(e.move.op, api, topic)
  }

  // No list does so, from the start of the run on or of the process.
  ghost predicate Untangled(states: seq<Joint>, events: seq<Event>, from: nat, n: nat, c: string, api: string,
                            topic: string, u: string)
    requires from <= n <= |events| && JointRun(states, events, c, api, topic)
  {
    && (from == 0 || (from < n && Begins(events[from], api, topic)))
    && forall i :: from <= i < n ==> !Tangles(states[i], events[i], states[i + 1], api, topic, u)
  }

  predicate Begins(e: Event, api: string, topic: string) {
    e.Happens? && e.anew && e.move.Call? && e.move.op.RegSubscriber? && Own(e.move.op, api, topic)
  }

  // ----- connections -----

  // The publisher is connected if it is on the last list and has not ended since, with
  // one task that is not cancelled.
  ghost predicate Reconciles(a: Joint, u: string) {
    && Served(a.manager) && AccountedAt(a.manager, u) && CleanAt(a.manager, u)
    && (u in a.manager.connected <==> u in a.listed && u !in a.ended)
  }

  lemma ListReconciles(before: Manager, uris: set<string>, b: Joint, u: string)
    requires Served(before) && AccountedAt(before, u) && CleanAt(before, u)
    requires Relists(before, uris, b) && InTime(before, uris, u)
    ensures Reconciles(b, u)
  {
    hide Served, AccountedAt, CleanAt, InTime;
    UpdateServes(before, uris, b.manager);
    UpdateAccounts(before, uris, b.manager, u);
    UpdateCleanAt(before, uris, b.manager, u);
  }

  lemma IdleClean(u: string)
    ensures Served(IDLE) && AccountedAt(IDLE, u) && CleanAt(IDLE, u)
    ensures forall uris :: InTime(IDLE, uris, u)
  {
  }

  lemma MoveReconciles(a: Joint, m: Move, anew: bool, b: Joint, api: string, topic: string, u: string)
    requires MoveFollows(a, m, anew, b, api, topic)
    requires Reconciles(a, u) || Begins(Happens(m, anew), api, topic)
    requires !Tangles(a, Happens(m, anew), b, api, topic, u)
    ensures Reconciles(b, u)
  {
    hide Served, AccountedAt, CleanAt, InTime, Relists, PublisherViews.Next, Truth;
    IdleClean(u);
    var list := ListOf(a.world, m, b.world, api, topic);
    if list.Some? {
      ListReconciles(Found(a, m, anew), list.value, b, u);
    }
  }

  lemma EndReconciles(a: Joint, i: nat, connecting: bool, b: Joint, u: string)
    requires Reconciles(a, u) && EndFollows(a, i, connecting, b)
    ensures Reconciles(b, u)
  {
    hide AccountedAt, CleanAt;
    ExitServes(a.manager, i, connecting, b.manager);
    ExitCleanAt(a.manager, i, connecting, b.manager, u);
    if a.manager.tasks[i] != Task(u, false) {
      assert a.manager.tasks[i].cancelled || a.manager.tasks[i].uri != u;
    }
  }

  lemma StepReconciles(a: Joint, e: Event, b: Joint, api: string, topic: string, u: string)
    requires Follows(a, e, b, api, topic) && !Tangles(a, e, b, api, topic, u)
    requires Reconciles(a, u) || Begins(e, api, topic)
    ensures Reconciles(b, u)
  {
    hide Reconciles, MoveFollows, EndFollows, Tangles;
    match e
    case Happens(m, anew) => MoveReconciles(a, m, anew, b, api, topic, u);
    case TaskEnds(i, connecting) => EndReconciles(a, i, connecting, b, u);
  }

  lemma {:induction false} RunReconciles(states: seq<Joint>, events: seq<Event>, from: nat, n: nat, c: string,
                                         api: string, topic: string, u: string)
    requires JointRun(states, events, c, api, topic) && from <= n <= |events|
    requires Untangled(states, events, from, n, c, api, topic, u)
    ensures Reconciles(states[n], u)
    decreases n
  {
    hide Reconciles, Follows, OneName, Tangles;
    if n > 0 {
      if from < n - 1 || from == 0 {
        RunReconciles(states, events, from, n - 1, c, api, topic, u);
      }
      if from < n {
        StepReconciles(states[n - 1], events[n - 1], states[n], api, topic, u);
      }
    } else {
      StartReconciles(u);
    }
  }

  lemma StartReconciles(u: string)
    ensures Reconciles(Joint(World(START, map[]), IDLE, {}, {}), u)
  {
    IdleClean(u);
  }

  // ----- the process and the master -----

  // While c is subscribed, the last list is what the process believes.
  ghost predicate Informed(a: Joint, c: string, api: string, topic: string) {
    && (forall r :: Has(a.world.reg.subscriptions, topic, r) && r.api == api ==> r.caller == c)
    && (Has(a.world.reg.subscriptions, topic, Registration(c, api)) ==>
          (api, topic) in a.world.views && a.world.views[(api, topic)] == a.listed)
  }

  lemma CallInformed(a: Joint, op: Op, anew: bool, b: Joint, c: string, api: string, topic: string)
    requires Informed(a, c, api, topic) && MoveFollows(a, Call(op), anew, b, api, topic)
    requires OneName(Happens(Call(op), anew), c, api)
    ensures Informed(b, c, api, topic)
  {
    hide Truth, Reconciled, Apply, Possible, OnRecord, Replaces;
    CallBooks(a.world.reg, op);
    assert forall r :: Has(b.world.reg.subscriptions, topic, r) <==> Remains(a.world.reg, op, topic, r);
  }

  lemma QueueInformed(a: Joint, m: Move, anew: bool, b: Joint, c: string, api: string, topic: string)
    requires Informed(a, c, api, topic) && MoveFollows(a, m, anew, b, api, topic) && !m.Call?
    ensures Informed(b, c, api, topic)
  {
    hide Reconciled, Pop;
    PopLine(a.world.reg, m.line, m.line);
  }

  // What a run keeps whatever happens.
  ghost predicate Steady(a: Joint, c: string, api: string, topic: string) {
    Agreement(a.world.reg) && Answered(a.world.reg, a.world.views) && Informed(a, c, api, topic)
  }

  lemma StepSteady(a: Joint, e: Event, b: Joint, c: string, api: string, topic: string)
    requires Steady(a, c, api, topic) && Follows(a, e, b, api, topic) && OneName(e, c, api)
    ensures Steady(b, c, api, topic)
  {
    hide Agreement, Answered, Informed, OneName, PublisherViews.Next, Relists, ListOf;
    if e.Happens? {
      StepAgrees(a.world, e.move, b.world);
      StepAnswered(a.world, e.move, b.world);
      if e.move.Call? {
        CallInformed(a, e.move.op, e.anew, b, c, api, topic);
      } else {
        QueueInformed(a, e.move, e.anew, b, c, api, topic);
      }
    } else {
      EndInformed(a, e.id, e.connecting, b, c, api, topic);
    }
  }

  lemma EndInformed(a: Joint, i: nat, connecting: bool, b: Joint, c: string, api: string, topic: string)
    requires Informed(a, c, api, topic) && EndFollows(a, i, connecting, b)
    ensures Informed(b, c, api, topic)
  {
  }

  lemma {:induction false} RunSteady(states: seq<Joint>, events: seq<Event>, c: string, api: string, topic: string,
                                     n: nat)
    requires JointRun(states, events, c, api, topic) && n <= |events|
    ensures Steady(states[n], c, api, topic)
    decreases n
  {
    hide Steady, Follows, OneName;
    if n > 0 {
      RunSteady(states, events, c, api, topic, n - 1);
      StepSteady(states[n - 1], events[n - 1], states[n], c, api, topic);
    } else {
      StartSteady(c, api, topic);
    }
  }

  lemma StartSteady(c: string, api: string, topic: string)
    ensures Steady(Joint(World(START, map[]), IDLE, {}, {}), c, api, topic)
  {
    StartInStep();
  }

  lemma StepTold(a: Joint, e: Event, b: Joint, c: string, api: string, topic: string)
    requires Steady(a, c, api, topic) && Follows(a, e, b, api, topic) && !Misses(a, e, api, topic)
    requires InStepHere(a.world.reg, a.world.views, api, topic) || Tells(e, api, topic)
    ensures InStepHere(b.world.reg, b.world.views, api, topic)
  {
    hide Agreement, Answered, Informed, InStepHere, PublisherViews.Next, Relists, ListOf, Hurts, Renews;
    if e.Happens? {
      StepInStepHere(a.world, e.move, b.world, api, topic);
    }
  }

  lemma {:induction false} RunTold(states: seq<Joint>, events: seq<Event>, from: nat, n: nat, c: string, api: string,
                                   topic: string)
    requires JointRun(states, events, c, api, topic) && from <= n <= |events|
    requires WellTold(states, events, from, n, api, topic)
    ensures InStepHere(states[n].world.reg, states[n].world.views, api, topic)
    decreases n
  {
    hide Steady, Follows, OneName, InStepHere, Misses, Tells;
    if n > 0 {
      if from < n - 1 || from == 0 {
        RunTold(states, events, from, n - 1, c, api, topic);
      }
      if from < n {
        RunSteady(states, events, c, api, topic, n - 1);
        StepTold(states[n - 1], events[n - 1], states[n], c, api, topic);
      }
    } else {
      StartHere(api, topic);
    }
  }

  // A registered subscriber whose queues are drained, to whom no queue was overtaken: it
  // is connected to a publisher exactly if that is registered and has not hung up since
  // the subscriber was last told, provided that this publisher's connection has not been
  // tangled up with a former one. The connection has a task of its own, and no other task
  // of the publisher is left running for good. What calls overtake queues to others, and
  // what becomes of other connections, does not matter.
  lemma DrainedConnects(states: seq<Joint>, events: seq<Event>, from: nat, since: nat, n: nat, topic: string,
                        r: Registration, u: string)
    requires JointRun(states, events, r.caller, r.api, topic) && from <= n <= |events| && since <= n
    requires Has(states[n].world.reg.subscriptions, topic, r) && Drained(states[n].world.reg, r.api)
    requires WellTold(states, events, from, n, r.api, topic)
    requires Untangled(states, events, since, n, r.caller, r.api, topic, u)
    ensures u in states[n].manager.connected <==> u in Truth(states[n].world.reg, topic) && u !in states[n].ended
    ensures Served(states[n].manager) && AccountedAt(states[n].manager, u)
  {
    hide Follows, OneName, Drained, Truth, InStepAt, Agreement, Answered, Served, AccountedAt, CleanAt, WellTold,
         Untangled;
    RunSteady(states, events, r.caller, r.api, topic, n);
    RunTold(states, events, from, n, r.caller, r.api, topic);
    RunReconciles(states, events, since, n, r.caller, r.api, topic, u);
    assert r == Registration(r.caller, r.api);
    assert InStepAt(states[n].world.reg, states[n].world.views, r.api, topic);
    DrainedTruth(states[n].world, r.api, topic);
  }

  // With no publisher tangled up, the connections are exactly those.
  lemma DrainedConnections(states: seq<Joint>, events: seq<Event>, from: nat, since: nat, n: nat, topic: string,
                           r: Registration)
    requires JointRun(states, events, r.caller, r.api, topic) && from <= n <= |events| && since <= n
    requires Has(states[n].world.reg.subscriptions, topic, r) && Drained(states[n].world.reg, r.api)
    requires WellTold(states, events, from, n, r.api, topic)
    requires forall u :: Untangled(states, events, since, n, r.caller, r.api, topic, u)
    ensures states[n].manager.connected.Keys == Truth(states[n].world.reg, topic) - states[n].ended
    ensures Served(states[n].manager) && Accounted(states[n].manager)
  {
    hide Follows, OneName, WellTold, Untangled, Drained, Truth, Served, AccountedAt;
    DrainedConnects(states, events, from, since, n, topic, r, "");
    forall u
      ensures u in states[n].manager.connected <==> u in Truth(states[n].world.reg, topic) && u !in states[n].ended
      ensures AccountedAt(states[n].manager, u)
    {
      DrainedConnects(states, events, from, since, n, topic, r, u);
    }
  }
}
