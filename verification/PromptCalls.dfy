// A plain condition on calls under which the subscribers of a topic at an API are never
// out of step for good.
module PromptCalls {
  import opened Outcomes
  import opened Registrations
  import opened PublisherQueues
  import opened PublisherViews

  // No two names on record use the API.
  ghost predicate Apart(s: State, api: string) {
    forall c, d :: c in s.nodes && d in s.nodes && s.nodes[c].api == s.nodes[d].api == api ==> c == d
  }

  // Of the topic, only the subscriber's own queue says anything to it.
  ghost predicate Tidy(s: State, api: string, t: string) {
    forall r, l :: Has(s.subscriptions, t, r) && r.api == api && To(s, l, api) && Said(s, l, t).Some? ==>
      l == Live(r.caller)
  }

  // No other name registers with the API; and a subscription is renewed while it stands,
  // or made when no list of the topic is waiting for the process.
  ghost predicate Prompt(s: State, op: Op, api: string, t: string) {
    && (Registers(op) && op.api == api ==> forall d :: d in s.nodes && s.nodes[d].api == api ==> d == op.caller)
    && (op.RegSubscriber? && op.api == api && op.topic == t ==>
          || Has(s.subscriptions, t, Registration(op.caller, api))
          || forall l :: To(s, l, api) ==> Said(s, l, t) == None)
  }

  // Nor is a call lost that tells the process of the topic.
  ghost predicate PromptMove(s: State, m: Move, api: string, t: string) {
    match m
    case Call(op) => Prompt(s, op, api, t)
    case Deliver(_) => true
    case Lose(l) => To(s, l, api) && RecordOf(s, l).outbox != [] ==> !About(RecordOf(s, l).outbox[0], t)
  }

  // What speaks of a topic to a remaining subscriber is the subscriber's own queue.
  lemma OwnQueue(s: State, op: Op, t: string, r: Registration, l: Line)
    requires Agreement(s) && Apart(s, r.api) && Tidy(s, r.api, t) && Prompt(s, op, r.api, t)
    requires Remains(s, op, t, r) && To(s, l, r.api) && Now(s, op, l, t).Some?
    ensures Has(s.subscriptions, t, r) && l == Live(r.caller) && !(Replaces(s, op) && r.caller == op.caller)
  {
    hide LastSaid, Left;
    SubscribersKnown(s);
    if Said(s, l, t) == None {
      assert l.Live? && Subscribes(s, l.caller, t);
    }
  }

  lemma PromptInTime(s: State, views: Views, op: Op, api: string, t: string)
    requires Agreement(s) && InStepHere(s, views, api, t) && Apart(s, api) && Tidy(s, api, t) && Prompt(s, op, api, t)
    ensures !OvertakenAt(s, op, api, t)
  {
    hide LastSaid, Apart, Tidy, Prompt, Agreement, Remains;
    forall r, l | Remains(s, op, t, r) && r.api == api && To(s, l, api)
      ensures !Late(s, op, l, t)
    {
      if Now(s, op, l, t).Some? {
        OwnQueue(s, op, t, r, l);
        assert Subscribes(s, r.caller, t);
        assert InStepAt(s, views, api, t);
        NothingChanged(s, op, t);
      }
    }
  }

  lemma PromptApart(s: State, op: Op, b: State, api: string, t: string)
    requires Apart(s, api) && Prompt(s, op, api, t) && RecordsAfter(s, op, b)
    ensures Apart(b, api)
  {
    hide LastSaid, Replaces;
  }

  lemma PromptTidy(s: State, op: Op, b: State, api: string, t: string)
    requires Agreement(s) && Apart(s, api) && Tidy(s, api, t) && Prompt(s, op, api, t)
    requires Agreement(b) && Described(s, op, b) && RecordsAfter(s, op, b)
    ensures Tidy(b, api, t)
  {
    hide LastSaid, Apart, Prompt, Agreement, Now, Left, Replaces, BooksAfter;
    SubscribersKnown(b);
    forall r, m | Has(b.subscriptions, t, r) && r.api == api && To(b, m, api) && Said(b, m, t).Some?
      ensures m == Live(r.caller)
    {
      assert Remains(s, op, t, r) by { Remaining(s, op, b, t, r); }
      assert RecordOf(b, m).outbox != [] by { NothingSaid(t); }
      var l :| There(s, l) && Image(s, b, op.caller, l) == m;
      LineAfter(s, op, b, l, t);
      OwnQueue(s, op, t, r, l);
    }
  }

  // With moves that are prompt for the API and the topic, no call overtakes a queue to the
  // subscribers there and nothing decisive is lost, whatever other processes do.
  lemma {:induction false} PromptRun(worlds: seq<World>, moves: seq<Move>, n: nat, api: string, t: string)
    requires WorldRun(worlds, moves) && n <= |moves|
    requires forall i :: 0 <= i < n ==> PromptMove(worlds[i].reg, moves[i], api, t)
    ensures var s := worlds[n].reg;
      Agreement(s) && InStepHere(s, worlds[n].views, api, t) && Apart(s, api) && Tidy(s, api, t)
    ensures Heeded(worlds, moves, 0, n, api, t)
    decreases n
  {
    hide InStepHere, Agreement, Next, Hurts, Apart, Tidy, PromptMove;
    if n > 0 {
      PromptRun(worlds, moves, n - 1, api, t);
      PromptStep(worlds[n - 1], moves[n - 1], worlds[n], api, t);
    } else {
      StartInStep();
      StartHere(api, t);
      StartTidy(api, t);
    }
  }

  lemma StartTidy(api: string, t: string)
    ensures Apart(START, api) && Tidy(START, api, t)
  {
  }

  lemma PromptStep(a: World, m: Move, b: World, api: string, t: string)
    requires Next(a, m, b) && Agreement(a.reg) && InStepHere(a.reg, a.views, api, t)
    requires Apart(a.reg, api) && Tidy(a.reg, api, t) && PromptMove(a.reg, m, api, t)
    ensures Agreement(b.reg) && InStepHere(b.reg, b.views, api, t) && Apart(b.reg, api) && Tidy(b.reg, api, t)
    ensures !Hurts(a, m, api, t)
  {
    hide InStepHere, Agreement, OvertakenAt, Apart, Tidy, Prompt, Apply, Described, RecordsAfter, Possible, Pop;
    StepAgrees(a, m, b);
    match m
    case Call(op) =>
      PromptInTime(a.reg, a.views, op, api, t);
      CallInStepHere(a, op, api, t);
      CallDescribed(a.reg, op);
      CallRecords(a.reg, op);
      PromptApart(a.reg, op, b.reg, api, t);
      PromptTidy(a.reg, op, b.reg, api, t);
    case Deliver(l) =>
      DeliverInStepHere(a, l, b, api, t);
      PopTidy(a.reg, l, api, t);
    case Lose(l) =>
      assert !Decisive(a, l, api, t);
      LoseInStepHere(a, l, b, api, t);
      PopTidy(a.reg, l, api, t);
  }

  lemma PopTidy(s: State, l: Line, api: string, t: string)
    requires There(s, l) && RecordOf(s, l).outbox != [] && Apart(s, api) && Tidy(s, api, t)
    ensures Apart(Pop(s, l), api) && Tidy(Pop(s, l), api, t)
  {
    hide LastSaid;
    var b := Pop(s, l);
    forall m | There(s, m)
      ensures There(b, m) && RecordOf(b, m).api == RecordOf(s, m).api
      ensures Said(b, m, t).Some? ==> Said(s, m, t).Some?
    {
      PopLine(s, l, m);
      SaidRest(RecordOf(s, l).outbox, t);
    }
    forall m
      ensures There(b, m) <==> There(s, m)
    {
      PopLine(s, l, m);
    }
    forall r, m | Has(b.subscriptions, t, r) && r.api == api && To(b, m, api) && Said(b, m, t).Some?
      ensures m == Live(r.caller)
    {
      PopLine(s, l, l);
      assert To(s, m, api) && Said(s, m, t).Some?;
    }
    assert forall c :: c in b.nodes ==> There(s, Live(c)) && RecordOf(b, Live(c)).api == RecordOf(s, Live(c)).api;
  }
}
