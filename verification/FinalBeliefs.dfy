// What being in step means: the belief that is left when everything queued for a process
// has been delivered, in any order.
module FinalBeliefs {
  import opened Outcomes
  import opened Registrations
  import opened PublisherQueues
  import opened PublisherViews

  // Deliveries and nothing else.
  ghost predicate Delivers(worlds: seq<World>) {
    && worlds != []
    && forall i :: 0 <= i < |worlds| - 1 ==> Delivery(worlds[i], worlds[i + 1])
  }

  ghost predicate Delivery(a: World, b: World) {
    exists l :: Next(a, Deliver(l), b)
  }

  // Some way of draining all queues to the API makes its process believe this in the end.
  ghost predicate MayBelieve(w: World, api: string, topic: string, belief: set<string>) {
    exists worlds :: Delivers(worlds) && worlds[0] == w && EndsWith(worlds[|worlds| - 1], api, topic, belief)
  }

  ghost predicate EndsWith(w: World, api: string, topic: string, belief: set<string>) {
    Drained(w.reg, api) && (api, topic) in w.views && w.views[(api, topic)] == belief
  }

  lemma {:induction false} DeliveredTruth(worlds: seq<World>, n: nat, api: string, t: string)
    requires Delivers(worlds) && n < |worlds| && InStepAt(worlds[0].reg, worlds[0].views, api, t)
    ensures InStepAt(worlds[n].reg, worlds[n].views, api, t) && Truth(worlds[n].reg, t) == Truth(worlds[0].reg, t)
    decreases n
  {
    hide InStepAt, Truth, Next;
    if n > 0 {
      DeliveredTruth(worlds, n - 1, api, t);
      assert Delivery(worlds[n - 1], worlds[n]);
      var l :| Next(worlds[n - 1], Deliver(l), worlds[n]);
      DeliverInStepAt(worlds[n - 1], l, worlds[n], api, t);
      DeliverBooks(worlds[n - 1], l, worlds[n], t);
    }
  }

  lemma DeliverBooks(a: World, l: Line, b: World, t: string)
    requires Next(a, Deliver(l), b)
    ensures Truth(b.reg, t) == Truth(a.reg, t)
  {
    PopLine(a.reg, l, l);
  }

  // What is left of one world in another after some deliveries.
  ghost predicate Less(a: World, b: World, lines: set<Line>, api: string, t: string) {
    && (forall m :: There(a.reg, m) <==> There(b.reg, m))
    && (forall m :: There(a.reg, m) ==> RecordOf(b.reg, m).api == RecordOf(a.reg, m).api)
    && (forall m :: There(a.reg, m) && m !in lines ==> RecordOf(b.reg, m) == RecordOf(a.reg, m))
    && (forall m :: There(a.reg, m) && m in lines ==> RecordOf(b.reg, m).outbox == [])
    && (api, t) in b.views
  }

  // Draining one queue.
  lemma {:induction false} DrainOne(w: World, l: Line, api: string, t: string) returns (worlds: seq<World>)
    requires There(w.reg, l) && (api, t) in w.views
    ensures Delivers(worlds) && worlds[0] == w && Less(w, worlds[|worlds| - 1], {l}, api, t)
    ensures worlds[|worlds| - 1].views[(api, t)] ==
      if To(w.reg, l, api) && Said(w.reg, l, t).Some? then Said(w.reg, l, t).value else w.views[(api, t)]
    decreases |RecordOf(w.reg, l).outbox|
  {
    hide LastSaid, Pop;
    var q := RecordOf(w.reg, l).outbox;
    if q == [] {
      NothingSaid(t);
      worlds := [w];
    } else {
      var next := World(Pop(w.reg, l), Taken(w.views, RecordOf(w.reg, l).api, q[0]));
      PopLine(w.reg, l, l);
      SaidRest(q, t);
      assert Next(w, Deliver(l), next) && Delivery(w, next);
      forall m
        ensures There(next.reg, m) <==> There(w.reg, m)
        ensures There(w.reg, m) && m != l ==> RecordOf(next.reg, m) == RecordOf(w.reg, m)
      {
        PopLine(w.reg, l, m);
      }
      assert There(next.reg, l);
      var rest := DrainOne(next, l, api, t);
      worlds := [w] + rest;
      Prepended(w, rest);
    }
  }

  lemma Prepended(w: World, rest: seq<World>)
    requires Delivers(rest) && Delivery(w, rest[0])
    ensures Delivers([w] + rest)
  {
  }

  lemma Appended(a: seq<World>, b: seq<World>) returns (c: seq<World>)
    requires Delivers(a) && Delivers(b) && a[|a| - 1] == b[0]
    ensures Delivers(c) && c[0] == a[0] && c[|c| - 1] == b[|b| - 1]
  {
    hide Delivery;
    c := a + b[1..];
    assert forall i :: |a| - 1 <= i < |c| ==> c[i] == b[i - (|a| - 1)];
  }

  // Draining some queues, that say nothing of a topic to the process at the API, or say it
  // before anything else is drained.
  lemma {:induction false} DrainAll(w: World, lines: set<Line>, api: string, t: string) returns (worlds: seq<World>)
    requires (forall l :: l in lines ==> There(w.reg, l)) && (api, t) in w.views
    ensures Delivers(worlds) && worlds[0] == w && Less(w, worlds[|worlds| - 1], lines, api, t)
    ensures (forall l :: l in lines && To(w.reg, l, api) ==> Said(w.reg, l, t) == None) ==>
      worlds[|worlds| - 1].views[(api, t)] == w.views[(api, t)]
    decreases |lines|
  {
    hide LastSaid;
    if lines == {} {
      worlds := [w];
    } else {
      var l :| l in lines;
      var first := DrainOne(w, l, api, t);
      var mid := first[|first| - 1];
      var rest := DrainAll(mid, lines - {l}, api, t);
      worlds := Appended(first, rest);
      LessTwice(w, mid, rest[|rest| - 1], l, lines, api, t);
    }
  }

  lemma LessTwice(a: World, b: World, c: World, l: Line, lines: set<Line>, api: string, t: string)
    requires l in lines && Less(a, b, {l}, api, t) && Less(b, c, lines - {l}, api, t)
    ensures Less(a, c, lines, api, t)
  {
  }

  function AllLines(s: State): (lines: set<Line>)
    ensures forall l :: l in lines <==> There(s, l)
  {
    (set c | c in s.nodes :: Live(c)) + (set i | 0 <= i < |s.retired| :: Retired(i))
  }

  lemma LessDrained(a: World, b: World, api: string, t: string)
    requires Less(a, b, AllLines(a.reg), api, t)
    ensures Drained(b.reg, api)
  {
  }

  // A queue that ends on something else can be drained last.
  lemma LastWord(w: World, l: Line, api: string, t: string)
    requires To(w.reg, l, api) && Said(w.reg, l, t).Some? && (api, t) in w.views
    ensures MayBelieve(w, api, t, Said(w.reg, l, t).value)
  {
    hide LastSaid, Delivery, Drained;
    var first := DrainAll(w, AllLines(w.reg) - {l}, api, t);
    var mid := first[|first| - 1];
    assert There(w.reg, l) && RecordOf(mid.reg, l) == RecordOf(w.reg, l);
    var rest := DrainOne(mid, l, api, t);
    var worlds := Appended(first, rest);
    var end := rest[|rest| - 1];
    LessTwo(w, mid, end, l, api, t);
    LessDrained(w, end, api, t);
    assert EndsWith(worlds[|worlds| - 1], api, t, Said(w.reg, l, t).value);
  }

  lemma LessTwo(a: World, b: World, c: World, l: Line, api: string, t: string)
    requires Less(a, b, AllLines(a.reg) - {l}, api, t) && Less(b, c, {l}, api, t)
    ensures Less(a, c, AllLines(a.reg), api, t)
  {
  }

  lemma NoWord(w: World, api: string, t: string)
    requires (api, t) in w.views && forall l :: To(w.reg, l, api) ==> Said(w.reg, l, t) == None
    ensures MayBelieve(w, api, t, w.views[(api, t)])
  {
    hide LastSaid, Delivery, Drained;
    var worlds := DrainAll(w, AllLines(w.reg), api, t);
    LessDrained(w, worlds[|worlds| - 1], api, t);
    assert EndsWith(worlds[|worlds| - 1], api, t, w.views[(api, t)]);
  }

  // Being in step is the right notion: it holds exactly if, however the queues to the API
  // are drained, its process ends up with the truth.
  lemma InStepExactly(w: World, api: string, t: string)
    requires (api, t) in w.views
    ensures InStepAt(w.reg, w.views, api, t) <==>
            forall belief :: MayBelieve(w, api, t, belief) ==> belief == Truth(w.reg, t)
  {
    hide Delivery, LastSaid, Truth;
    if InStepAt(w.reg, w.views, api, t) {
      forall belief | MayBelieve(w, api, t, belief)
        ensures belief == Truth(w.reg, t)
      {
        var worlds :| Delivers(worlds) && worlds[0] == w && EndsWith(worlds[|worlds| - 1], api, t, belief);
        InStepEnds(worlds, api, t, belief);
      }
    } else if l :| To(w.reg, l, api) && Contradicts(Said(w.reg, l, t), Truth(w.reg, t)) {
      LastWord(w, l, api, t);
    } else {
      NoWord(w, api, t);
    }
  }

  lemma InStepEnds(worlds: seq<World>, api: string, t: string, belief: set<string>)
    requires Delivers(worlds) && InStepAt(worlds[0].reg, worlds[0].views, api, t)
    requires EndsWith(worlds[|worlds| - 1], api, t, belief)
    ensures belief == Truth(worlds[0].reg, t)
  {
    hide InStepAt, Truth;
    DeliveredTruth(worlds, |worlds| - 1, api, t);
    DrainedTruth(worlds[|worlds| - 1], api, t);
  }
}
