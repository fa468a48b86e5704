// The publisher half of the registry's protocol: what the process behind each API believes
// about who publishes a topic, from the answer to its registration and the updates
// delivered since, whatever queues they come from and in whatever order.
module PublisherViews {
  import opened Outcomes
  import opened Registrations
  import opened RegistryRuns
  import opened PublisherQueues

  // By the API of the process, and the topic.
  type Views = map<(string, string), set<string>>

  datatype World = World(reg: State, views: Views)

  // A delivery that times out loses the call.
  datatype Move = Call(op: Op) | Deliver(line: Line) | Lose(line: Line)

  // ----- moves -----

  // A subscriber takes the answer for its view; the process is known by its API.
  function CallViews(w: World, op: Op): Views {
    if op.RegSubscriber? then w.views[(op.api, op.topic) := Truth(Apply(w.reg, op), op.topic)] else w.views
  }

  function Taken(views: Views, api: string, task: Task): Views {
    if task.PublisherUpdate? && (api, task.topic) in views
    then views[(api, task.topic) := SetOf(task.publishers)]
    else views
  }

  ghost predicate Next(a: World, m: Move, b: World) {
    match m
    case Call(op) =>
      && Possible(a.reg, op) && OnRecord(a.reg, op)
      && b == World(Apply(a.reg, op), CallViews(a, op))
    case Deliver(l) =>
      && There(a.reg, l) && RecordOf(a.reg, l).outbox != []
      && b.reg == Pop(a.reg, l)
      && b.views == Taken(a.views, RecordOf(a.reg, l).api, RecordOf(a.reg, l).outbox[0])
    case Lose(l) =>
      && There(a.reg, l) && RecordOf(a.reg, l).outbox != []
      && b == World(Pop(a.reg, l), a.views)
  }

  // Once all queues to the API are drained, in whatever order, the process believes the
  // truth: no queue ends on anything else, and one of them says it or it is believed now.
  ghost predicate InStepAt(s: State, views: Views, api: string, topic: string) {
    && (api, topic) in views
    && (forall l :: To(s, l, api) ==> !Contradicts(Said(s, l, topic), Truth(s, topic)))
    && ((exists l :: To(s, l, api) && Said(s, l, topic).Some?) || views[(api, topic)] == Truth(s, topic))
  }

  // Whoever subscribes to the topic under the API is in step.
  ghost predicate InStepHere(s: State, views: Views, api: string, topic: string) {
    forall r :: Has(s.subscriptions, topic, r) && r.api == api ==> InStepAt(s, views, api, topic)
  }

  ghost predicate InStep(s: State, views: Views) {
    forall api, t :: InStepHere(s, views, api, t)
  }

  // Some queue to the subscriber ends on a list of the topic that the call makes, or
  // leaves, out of date, and the call does not send that queue a new one.
  ghost predicate OvertakenAt(s: State, op: Op, api: string, topic: string) {
    exists r, l :: Remains(s, op, topic, r) && r.api == api && To(s, l, api) && Late(s, op, l, topic)
  }

  ghost predicate Late(s: State, op: Op, l: Line, topic: string) {
    There(s, l) && Contradicts(Now(s, op, l, topic), Apis(Left(s, op, topic)))
  }

  ghost predicate Overtaken(s: State, op: Op) {
    exists api, t :: OvertakenAt(s, op, api, t)
  }

  // The first call in the queue is the only one that could correct the process.
  ghost predicate Decisive(w: World, l: Line, api: string, topic: string) {
    && (exists r :: Has(w.reg.subscriptions, topic, r) && r.api == api)
    && To(w.reg, l, api)
    && var q := RecordOf(w.reg, l).outbox;
    && q != [] && About(q[0], topic) && LastSaid(q[1..], topic) == None
    && (forall m :: To(w.reg, m, api) && m != l ==> Said(w.reg, m, topic) == None)
    && (api, topic) in w.views && w.views[(api, topic)] != Truth(w.reg, topic)
  }

  // What puts the subscribers of a topic at an API out of step, seen before it happens.
  ghost predicate Hurts(w: World, m: Move, api: string, topic: string) {
    match m
    case Call(op) => OvertakenAt(w.reg, op, api, topic)
    case Deliver(_) => false
    case Lose(l) => Decisive(w, l, api, topic)
  }

  // ----- one call -----

  // A queue of a remaining subscriber that nothing contradicts ...
  lemma Uncontradicted(s: State, op: Op, b: State, t: string, r: Registration, m: Line)
    requires Described(s, op, b) && !OvertakenAt(s, op, r.api, t) && Remains(s, op, t, r) && To(b, m, r.api)
    ensures !Contradicts(Said(b, m, t), Truth(b, t))
  {
    hide LastSaid, Left, Remains, Now;
    if RecordOf(b, m).outbox != [] {
      var l :| There(s, l) && Image(s, b, op.caller, l) == m;
      assert To(b, m, RecordOf(s, l).api);
      assert Said(b, m, t) == Now(s, op, l, t);
      assert !Late(s, op, l, t);
    } else {
      assert LastSaid([], t) == None by { NothingSaid(t); }
    }
  }

  // ... and one that says something, if the truth has changed.
  lemma ToldOfChange(s: State, op: Op, b: State, t: string, r: Registration)
    requires Described(s, op, b) && Agreement(s) && Remains(s, op, t, r) && Has(s.subscriptions, t, r)
    requires !(op.RegSubscriber? && op.topic == t && r == Registration(op.caller, op.api))
    requires Truth(b, t) != Truth(s, t)
    ensures exists m :: To(b, m, r.api) && Said(b, m, t).Some?
  {
    hide LastSaid, Truth, LinesAfter;
    SubscribersKnown(s);
    var l := Live(r.caller);
    assert Subscribes(s, r.caller, t);
    assert Announces(op, t) || (Replaces(s, op) && Publishes(s, op.caller, t)) by { Changed(s, op, b, t); }
    assert Now(s, op, l, t).Some?;
    LineAfter(s, op, b, l, t);
  }

  lemma Changed(s: State, op: Op, b: State, t: string)
    requires Truth(b, t) == Apis(Left(s, op, t)) && Truth(b, t) != Truth(s, t)
    ensures Announces(op, t) || (Replaces(s, op) && Publishes(s, op.caller, t))
  {
    if !Publishes(s, op.caller, t) {
      assert forall r :: r in At(s.publications, t) <==> Has(s.publications, t, r);
      assert Others(At(s.publications, t), op.caller) == At(s.publications, t);
    }
  }

  // A queue goes on saying something about what it said something about.
  lemma StillSaid(s: State, op: Op, b: State, l: Line, t: string)
    requires LinesAfter(s, op, b) && There(s, l) && Said(s, l, t).Some?
    ensures exists m :: To(b, m, RecordOf(s, l).api) && Said(b, m, t).Some?
  {
    hide LastSaid, LinesAfter;
    LineAfter(s, op, b, l, t);
  }

  lemma AllUncontradicted(s: State, op: Op, b: State, t: string, r: Registration)
    requires Described(s, op, b) && !OvertakenAt(s, op, r.api, t) && Remains(s, op, t, r)
    ensures forall m :: To(b, m, r.api) ==> !Contradicts(Said(b, m, t), Truth(b, t))
  {
    hide LastSaid, Truth, Described, OvertakenAt, Contradicts, Said, Remains;
    forall m | To(b, m, r.api)
      ensures !Contradicts(Said(b, m, t), Truth(b, t))
    {
      Uncontradicted(s, op, b, t, r, m);
    }
  }

  lemma StaysInStep(w: World, op: Op, b: State, t: string, r: Registration)
    requires Described(w.reg, op, b) && b == Apply(w.reg, op) && Agreement(w.reg)
    requires InStepHere(w.reg, w.views, r.api, t) && !OvertakenAt(w.reg, op, r.api, t) && Remains(w.reg, op, t, r)
    ensures InStepAt(b, CallViews(w, op), r.api, t)
  {
    hide LastSaid, Truth, Apply, Described, OvertakenAt, Contradicts, Said, Agreement;
    var s, views := w.reg, CallViews(w, op);
    AllUncontradicted(s, op, b, t, r);
    if op.RegSubscriber? && op.topic == t && r.api == op.api {
      assert views[(r.api, t)] == Truth(b, t);
    } else {
      assert Has(s.subscriptions, t, r);
      assert InStepAt(s, w.views, r.api, t);
      if Truth(b, t) != Truth(s, t) {
        ToldOfChange(s, op, b, t, r);
      } else if l :| To(s, l, r.api) && Said(s, l, t).Some? {
        StillSaidOf(s, op, b, l, r.api, t);
      }
    }
  }

  lemma StillSaidOf(s: State, op: Op, b: State, l: Line, api: string, t: string)
    requires Described(s, op, b) && To(s, l, api) && Said(s, l, t).Some?
    ensures exists m :: To(b, m, api) && Said(b, m, t).Some?
  {
    hide LinesAfter, BooksAfter, LastSaid;
    StillSaid(s, op, b, l, t);
  }

  lemma FallsBehind(s: State, op: Op, b: State, views: Views, api: string, t: string)
    requires Described(s, op, b) && OvertakenAt(s, op, api, t)
    ensures !InStepHere(b, views, api, t)
  {
    hide LastSaid, Remains, Now, Left;
    var r, l :| Remains(s, op, t, r) && r.api == api && To(s, l, api) && Late(s, op, l, t);
    LineAfter(s, op, b, l, t);
    assert Has(b.subscriptions, t, r);
    assert !InStepAt(b, views, api, t);
  }

  // A call keeps the subscribers of a topic at an API in step if and only if it overtakes
  // no queue to them. What happens to others does not matter.
  lemma CallInStepHere(w: World, op: Op, api: string, t: string)
    requires Agreement(w.reg) && InStepHere(w.reg, w.views, api, t) && Possible(w.reg, op)
    ensures InStepHere(Apply(w.reg, op), CallViews(w, op), api, t) <==> !OvertakenAt(w.reg, op, api, t)
  {
    hide Apply, Described, Agreement, Possible, OvertakenAt, CallViews, InStepAt, Remains;
    var b := Apply(w.reg, op);
    CallDescribed(w.reg, op);
    if OvertakenAt(w.reg, op, api, t) {
      FallsBehind(w.reg, op, b, CallViews(w, op), api, t);
    } else {
      forall r | Has(b.subscriptions, t, r) && r.api == api
        ensures InStepAt(b, CallViews(w, op), api, t)
      {
        Remaining(w.reg, op, b, t, r);
        StaysInStep(w, op, b, t, r);
      }
    }
  }

  lemma CallInStep(w: World, op: Op)
    requires Agreement(w.reg) && InStep(w.reg, w.views) && Possible(w.reg, op)
    ensures InStep(Apply(w.reg, op), CallViews(w, op)) <==> !Overtaken(w.reg, op)
  {
    hide Apply, Agreement, Possible, OvertakenAt, CallViews, InStepHere;
    forall api, t
      ensures InStepHere(Apply(w.reg, op), CallViews(w, op), api, t) <==> !OvertakenAt(w.reg, op, api, t)
    {
      CallInStepHere(w, op, api, t);
    }
  }

  // ----- getting in step -----

  // Every subscriber has been answered.
  ghost predicate Answered(s: State, views: Views) {
    forall t, r :: Has(s.subscriptions, t, r) ==> (r.api, t) in views
  }

  // A call that tells the subscribers of the topic at the API how things are: it
  // subscribes, or publishers come or go.
  predicate Renews(op: Op, api: string, topic: string) {
    (op.RegSubscriber? && op.api == api && op.topic == topic) || Announces(op, topic)
  }

  // Whatever was believed and queued before, such a call puts them in step if and only if
  // it overtakes no queue to them.
  lemma RenewedInStep(w: World, op: Op, api: string, t: string)
    requires Agreement(w.reg) && Answered(w.reg, w.views) && Possible(w.reg, op) && Renews(op, api, t)
    ensures InStepHere(Apply(w.reg, op), CallViews(w, op), api, t) <==> !OvertakenAt(w.reg, op, api, t)
  {
    hide Apply, Described, Agreement, Possible, OvertakenAt, CallViews, InStepAt, Remains, Renews, Answered;
    var b := Apply(w.reg, op);
    CallDescribed(w.reg, op);
    if OvertakenAt(w.reg, op, api, t) {
      FallsBehind(w.reg, op, b, CallViews(w, op), api, t);
    } else {
      forall r | Has(b.subscriptions, t, r) && r.api == api
        ensures InStepAt(b, CallViews(w, op), api, t)
      {
        Remaining(w.reg, op, b, t, r);
        GetsInStep(w, op, b, t, r);
      }
    }
  }

  lemma GetsInStep(w: World, op: Op, b: State, t: string, r: Registration)
    requires Described(w.reg, op, b) && b == Apply(w.reg, op) && Agreement(w.reg) && Answered(w.reg, w.views)
    requires Renews(op, r.api, t) && !OvertakenAt(w.reg, op, r.api, t) && Remains(w.reg, op, t, r)
    ensures InStepAt(b, CallViews(w, op), r.api, t)
  {
    hide LastSaid, Truth, Apply, Described, OvertakenAt, Contradicts, Said, Agreement;
    AllUncontradicted(w.reg, op, b, t, r);
    if Announces(op, t) {
      TheyAreTold(w.reg, op, b, t, r);
    }
  }

  lemma TheyAreTold(s: State, op: Op, b: State, t: string, r: Registration)
    requires Described(s, op, b) && Agreement(s) && Announces(op, t) && Remains(s, op, t, r)
    ensures exists m :: To(b, m, r.api) && Said(b, m, t).Some?
  {
    hide LastSaid, LinesAfter, Left;
    SubscribersKnown(s);
    assert Has(s.subscriptions, t, r) && Subscribes(s, r.caller, t);
    LineAfter(s, op, b, Live(r.caller), t);
  }

  lemma CallAnswered(w: World, op: Op)
    requires Possible(w.reg, op) && Answered(w.reg, w.views)
    ensures Answered(Apply(w.reg, op), CallViews(w, op))
  {
    hide Apply, Possible, Truth;
    CallBooks(w.reg, op);
    var b := Apply(w.reg, op);
    forall t, r | Has(b.subscriptions, t, r)
      ensures (r.api, t) in CallViews(w, op)
    {
      assert Remains(w.reg, op, t, r);
    }
  }

  // ----- when a call comes too early -----

  // A subscription comes too early exactly if some queue to its API, of the node or of a
  // retired record, still ends on a list of the topic that is not what is registered.
  lemma EarlySubscription(s: State, op: Op)
    requires op.RegSubscriber? && !Replaces(s, op)
    ensures OvertakenAt(s, op, op.api, op.topic) <==>
            exists l :: To(s, l, op.api) && Contradicts(Said(s, l, op.topic), Truth(s, op.topic))
  {
    hide LastSaid;
    var t := op.topic;
    assert Remains(s, op, t, Registration(op.caller, op.api));
    NothingChanged(s, op, t);
    forall l | There(s, l)
      ensures Late(s, op, l, t) <==> Contradicts(Said(s, l, t), Truth(s, t))
    {
      assert Now(s, op, l, t) == Said(s, l, t);
    }
  }

  // A queue to the API that will not be sent a new list, and ends on another one.
  ghost predicate Unheeded(s: State, l: Line, api: string, topic: string, truth: set<string>) {
    && To(s, l, api) && !(l.Live? && Subscribes(s, l.caller, topic))
    && Contradicts(Said(s, l, topic), truth)
  }

  // A publisher comes or goes too early for a subscriber exactly if some queue to it that
  // is not itself a subscriber's ends on a list that is not what is then registered.
  lemma EarlyPublisher(s: State, op: Op, api: string)
    requires (op.RegPublisher? || op.UnregPublisher?) && !Replaces(s, op)
    ensures OvertakenAt(s, op, api, op.topic) <==>
            && (exists r :: Has(s.subscriptions, op.topic, r) && r.api == api)
            && exists l :: Unheeded(s, l, api, op.topic, Apis(Left(s, op, op.topic)))
  {
    hide LastSaid, Subscribes, Left;
    var t := op.topic;
    forall l | To(s, l, api)
      ensures Late(s, op, l, t) <==> Unheeded(s, l, api, t, Apis(Left(s, op, t)))
    {
    }
    forall r
      ensures Remains(s, op, t, r) <==> Has(s.subscriptions, t, r)
    {
    }
  }

  // No other call comes too early, unless it takes a name over.
  lemma NobodyElse(s: State, views: Views, op: Op, api: string, t: string)
    requires InStepHere(s, views, api, t) && !Renews(op, api, t) && !Replaces(s, op)
    ensures !OvertakenAt(s, op, api, t)
  {
    hide LastSaid, InStepAt;
    if OvertakenAt(s, op, api, t) {
      var r, l :| Remains(s, op, t, r) && r.api == api && To(s, l, api) && Late(s, op, l, t);
      assert Has(s.subscriptions, t, r) && InStepAt(s, views, api, t);
      NothingChanged(s, op, t);
      InStepSays(s, views, api, t, l);
    }
  }

  lemma InStepSays(s: State, views: Views, api: string, t: string, l: Line)
    requires InStepAt(s, views, api, t) && To(s, l, api)
    ensures !Contradicts(Said(s, l, t), Truth(s, t))
  {
  }

  // ----- deliveries -----

  lemma PopLine(s: State, l: Line, m: Line)
    requires There(s, l) && RecordOf(s, l).outbox != []
    ensures There(Pop(s, l), m) <==> There(s, m)
    ensures There(s, m) && m != l ==> RecordOf(Pop(s, l), m) == RecordOf(s, m)
    ensures RecordOf(Pop(s, l), l) == RecordOf(s, l).(outbox := RecordOf(s, l).outbox[1..])
    ensures Pop(s, l) == s.(nodes := Pop(s, l).nodes, retired := Pop(s, l).retired)
  {
  }

  // A delivery does not change what the process will believe in the end.
  lemma DeliverInStepAt(a: World, l: Line, b: World, api: string, t: string)
    requires Next(a, Deliver(l), b) && InStepAt(a.reg, a.views, api, t)
    ensures InStepAt(b.reg, b.views, api, t)
  {
    hide LastSaid, Truth, Pop;
    var s, q := a.reg, RecordOf(a.reg, l).outbox;
    forall m
      ensures (There(b.reg, m) <==> There(s, m)) && (To(b.reg, m, api) <==> To(s, m, api))
      ensures There(s, m) && m != l ==> Said(b.reg, m, t) == Said(s, m, t)
    {
      PopLine(s, l, m);
    }
    PopLine(s, l, l);
    SaidRest(q, t);
    assert Truth(b.reg, t) == Truth(s, t) by { SameTruth(s, b.reg, t); }
    if m :| To(s, m, api) && Said(s, m, t).Some? {
      if m != l || LastSaid(q[1..], t).Some? {
        assert To(b.reg, m, api) && Said(b.reg, m, t).Some?;
      }
    }
  }

  lemma SameTruth(s: State, t: State, topic: string)
    requires t.publications == s.publications
    ensures Truth(t, topic) == Truth(s, topic)
  {
  }

  lemma DeliverInStepHere(a: World, l: Line, b: World, api: string, t: string)
    requires Next(a, Deliver(l), b) && InStepHere(a.reg, a.views, api, t)
    ensures InStepHere(b.reg, b.views, api, t)
  {
    hide InStepAt, Pop;
    PopLine(a.reg, l, l);
    forall r | Has(b.reg.subscriptions, t, r) && r.api == api
      ensures InStepAt(b.reg, b.views, api, t)
    {
      assert Has(a.reg.subscriptions, t, r);
      DeliverInStepAt(a, l, b, api, t);
    }
  }

  // A lost call does no harm unless it is decisive.
  lemma LoseInStepHere(a: World, l: Line, b: World, api: string, t: string)
    requires Next(a, Lose(l), b) && InStepHere(a.reg, a.views, api, t)
    ensures InStepHere(b.reg, b.views, api, t) <==> !Decisive(a, l, api, t)
  {
    hide LastSaid, Truth, Pop, InStepAt, Said;
    PopLine(a.reg, l, l);
    if r :| Has(a.reg.subscriptions, t, r) && r.api == api {
      assert InStepAt(a.reg, a.views, api, t) && Has(b.reg.subscriptions, t, r);
      LoseInStepAt(a, l, b, api, t);
    }
  }

  lemma LoseInStepAt(a: World, l: Line, b: World, api: string, t: string)
    requires Next(a, Lose(l), b) && InStepAt(a.reg, a.views, api, t)
    requires exists r :: Has(a.reg.subscriptions, t, r) && r.api == api
    ensures InStepAt(b.reg, b.views, api, t) <==> !Decisive(a, l, api, t)
  {
    hide LastSaid, Truth, Pop;
    var s, q := a.reg, RecordOf(a.reg, l).outbox;
    forall m
      ensures (There(b.reg, m) <==> There(s, m)) && (To(b.reg, m, api) <==> To(s, m, api))
      ensures There(s, m) && m != l ==> Said(b.reg, m, t) == Said(s, m, t)
    {
      PopLine(s, l, m);
    }
    PopLine(s, l, l);
    SaidRest(q, t);
    SameTruth(s, b.reg, t);
    if m :| To(s, m, api) && Said(s, m, t).Some? && (m != l || LastSaid(q[1..], t).Some?) {
      assert To(b.reg, m, api) && Said(b.reg, m, t).Some?;
    }
  }

  lemma PopAgrees(a: World, l: Line, b: World)
    requires There(a.reg, l) && RecordOf(a.reg, l).outbox != [] && b.reg == Pop(a.reg, l) && Agreement(a.reg)
    ensures Agreement(b.reg)
  {
    hide Agreement;
    var s, t := a.reg, b.reg;
    var u := s.(nodes := t.nodes);
    assert SameBooks(s, u) by { PopBooks(s, l); }
    BooksAgree(s, u);
    RetiredApart(u, t);
  }

  lemma PopBooks(s: State, l: Line)
    requires There(s, l) && RecordOf(s, l).outbox != []
    ensures SameBooks(s, s.(nodes := Pop(s, l).nodes))
  {
  }

  // Retired records have no part in the agreement of the indexes.
  lemma RetiredApart(s: State, t: State)
    requires Agreement(s) && t == s.(retired := t.retired)
    ensures Agreement(t)
  {
    SameKnows(s, t);
  }

  // ----- runs -----

  ghost predicate WorldRun(worlds: seq<World>, moves: seq<Move>) {
    && |worlds| == |moves| + 1
    && worlds[0] == World(START, map[])
    && forall i :: 0 <= i < |moves| ==> Next(worlds[i], moves[i], worlds[i + 1])
  }

  lemma StepAgrees(a: World, m: Move, b: World)
    requires Next(a, m, b) && Agreement(a.reg)
    ensures Agreement(b.reg)
  {
    hide Agreement, Pop;
    match m
    case Call(op) => OpAgrees(a.reg, op);
    case Deliver(l) => PopAgrees(a, l, b);
    case Lose(l) => PopAgrees(a, l, b);
  }

  lemma StepAnswered(a: World, m: Move, b: World)
    requires Next(a, m, b) && Answered(a.reg, a.views)
    ensures Answered(b.reg, b.views)
  {
    hide Pop;
    match m
    case Call(op) => CallAnswered(a, op);
    case Deliver(l) => PopLine(a.reg, l, l);
    case Lose(l) => PopLine(a.reg, l, l);
  }

  lemma {:induction false} RunAnswered(worlds: seq<World>, moves: seq<Move>, n: nat)
    requires WorldRun(worlds, moves) && n <= |moves|
    ensures Agreement(worlds[n].reg) && Answered(worlds[n].reg, worlds[n].views)
    decreases n
  {
    hide Agreement, Answered, Next;
    if n > 0 {
      RunAnswered(worlds, moves, n - 1);
      StepAgrees(worlds[n - 1], moves[n - 1], worlds[n]);
      StepAnswered(worlds[n - 1], moves[n - 1], worlds[n]);
    } else {
      StartInStep();
    }
  }

  lemma StartInStep()
    ensures Agreement(START) && Answered(START, map[]) && InStep(START, map[])
  {
  }

  // From the start of a run on, or from a call that tells the subscribers of the topic at
  // the API, no call overtakes a queue to them and no decisive call to them is lost. What
  // happens to other subscribers does not matter.
  ghost predicate Heeded(worlds: seq<World>, moves: seq<Move>, from: nat, n: nat, api: string, topic: string)
    requires from <= n <= |moves| <= |worlds|
  {
    && (from == 0 || (from < n && moves[from].Call? && Renews(moves[from].op, api, topic)))
    && forall i :: from <= i < n ==> !Hurts(worlds[i], moves[i], api, topic)
  }

  // A move keeps the subscribers of a topic at an API in step, or puts them in step, if and
  // only if it does not hurt them.
  lemma StepInStepHere(a: World, m: Move, b: World, api: string, t: string)
    requires Next(a, m, b) && Agreement(a.reg) && Answered(a.reg, a.views)
    requires InStepHere(a.reg, a.views, api, t) || (m.Call? && Renews(m.op, api, t))
    ensures InStepHere(b.reg, b.views, api, t) <==> !Hurts(a, m, api, t)
  {
    hide InStepHere, Agreement, Answered, OvertakenAt, Renews, Decisive;
    match m
    case Call(op) =>
      if Renews(op, api, t) {
        RenewedInStep(a, op, api, t);
      } else {
        CallInStepHere(a, op, api, t);
      }
    case Deliver(l) =>
      DeliverInStepHere(a, l, b, api, t);
    case Lose(l) =>
      LoseInStepHere(a, l, b, api, t);
  }

  lemma {:induction false} RunInStep(worlds: seq<World>, moves: seq<Move>, from: nat, n: nat, api: string, t: string)
    requires WorldRun(worlds, moves) && from <= n <= |moves| && Heeded(worlds, moves, from, n, api, t)
    ensures InStepHere(worlds[n].reg, worlds[n].views, api, t)
    decreases n
  {
    hide InStepHere, InStep, Agreement, Answered, Next, Hurts, Renews;
    if n > 0 {
      if from < n - 1 || from == 0 {
        RunInStep(worlds, moves, from, n - 1, api, t);
      }
      if from < n {
        RunAnswered(worlds, moves, n - 1);
        StepInStepHere(worlds[n - 1], moves[n - 1], worlds[n], api, t);
      }
    } else {
      StartHere(api, t);
    }
  }

  lemma StartHere(api: string, t: string)
    ensures InStepHere(START, map[], api, t)
  {
  }

  ghost predicate Drained(s: State, api: string) {
    forall l :: To(s, l, api) ==> RecordOf(s, l).outbox == []
  }

  // Once all queues to a registered subscriber are drained, those of retired records
  // included, it believes exactly the registered APIs.
  lemma DrainedView(worlds: seq<World>, moves: seq<Move>, from: nat, n: nat, topic: string, r: Registration)
    requires WorldRun(worlds, moves) && from <= n <= |moves| && Heeded(worlds, moves, from, n, r.api, topic)
    requires Has(worlds[n].reg.subscriptions, topic, r) && Drained(worlds[n].reg, r.api)
    ensures (r.api, topic) in worlds[n].views
    ensures worlds[n].views[(r.api, topic)] == Truth(worlds[n].reg, topic)
  {
    hide Heeded, Next;
    RunInStep(worlds, moves, from, n, r.api, topic);
    DrainedTruth(worlds[n], r.api, topic);
  }

  lemma DrainedTruth(w: World, api: string, t: string)
    requires Drained(w.reg, api) && (api, t) in w.views
    ensures InStepAt(w.reg, w.views, api, t) <==> w.views[(api, t)] == Truth(w.reg, t)
  {
    NothingSaid(t);
  }
}
