// Short runs of the registry in which something goes wrong that the general theorems
// exclude by hypothesis.
module RegistryExamples {
  import opened Outcomes
  import opened Names
  import opened Registrations
  import opened PublisherQueues
  import opened PublisherViews
  import opened Announcements
  import MasterRegistry
  import Trees

  ghost predicate Leads(s: State, op: Op, t: State) {
    Possible(s, op) && OnRecord(s, op) && Apply(s, op) == t
  }

  lemma LeadsRun(states: seq<State>, ops: seq<Op>)
    requires |states| == |ops| + 1 && states[0] == START
    requires forall i :: 0 <= i < |ops| ==> Leads(states[i], ops[i], states[i + 1])
    ensures Registrations.CallRun(states, ops)
  {
    hide Possible, OnRecord, Apply;
    forall i | 0 <= i < |ops|
      ensures Possible(states[i], ops[i]) && OnRecord(states[i], ops[i]) && states[i + 1] == Apply(states[i], ops[i])
    {
      assert Leads(states[i], ops[i], states[i + 1]);
    }
  }

  // ----- a retired record has the last word -----

  const C := Registration("c", "http://c")
  const P := Registration("p", "http://p")
  const NEWS := PublisherUpdate("t", ["http://p"])

  const JOINS := RegSubscriber("t", "T", "c", "http://c", [])
  const COMES := RegPublisher("t", "T", "p", "http://p", [], ["http://p"])
  const LEAVES := UnregSubscriber("t", "c", "http://c")
  const GOES := UnregPublisher("t", "p", "http://p", [])

  const BLANK := Record("http://c", {}, {}, {}, {}, [])
  const LISTENER := Record("http://c", {}, {}, {"t"}, {}, [])
  const TALKER := Record("http://p", {}, {"t"}, {}, {}, [])
  const SILENT := Record("http://p", {}, {}, {}, {}, [])

  const S1 := State(map[], map[], map["t" := {C}], map[], map["t" := "T"], map["c" := LISTENER], [])
  const S2 := State(map[], map["t" := {P}], map["t" := {C}], map[], map["t" := "T"],
                    map["c" := LISTENER.(outbox := [NEWS]), "p" := TALKER], [])
  const S3 := State(map[], map["t" := {P}], map[], map[], map["t" := "T"],
                    map["p" := TALKER], [BLANK.(outbox := [NEWS])])
  const S4 := State(map[], map[], map[], map[], map[], map[], [BLANK.(outbox := [NEWS]), SILENT])
  const S5 := State(map[], map[], map["t" := {C}], map[], map["t" := "T"],
                    map["c" := LISTENER], [BLANK.(outbox := [NEWS]), SILENT])
  const S6 := S5.(retired := [BLANK, SILENT])

  lemma Joins(retired: seq<Record>)
    ensures Leads(START.(retired := retired), JOINS, S1.(retired := retired))
  {
    assert NewRecord("http://c").subscriptions + {"t"} == {"t"} && {} + {C} == {C};
    var b := Apply(START.(retired := retired), JOINS);
    assert b.nodes == S1.nodes && b.subscriptions == S1.subscriptions && b.types == S1.types;
  }

  const S1P := S2.(nodes := map["c" := LISTENER, "p" := TALKER])

  lemma Comes()
    ensures Leads(S1, COMES, S2)
  {
    hide Notify, Lists;
    assert NewRecord("http://p").publications + {"t"} == {"t"} && {} + {P} == {P};
    var t := AddPublisher(S1, "t", "T", "p", "http://p", []);
    assert t.nodes == S1P.nodes && t.publications == S1P.publications;
    assert t == S1P;
    Notified();
    Listed();
  }

  lemma Listed()
    ensures Lists(["http://p"], {P})
  {
    assert P in {P};
  }

  lemma CountC(c: string)
    ensures Count({C}, c) == if c == "c" then 1 else 0
  {
    var none: set<Registration> := {};
    assert (set r | r in none && r.caller == c) == {};
    MasterRegistry.CountAdd(none, C, c);
    assert none + {C} == {C};
  }

  lemma Notified()
    ensures Notify(S1P, "t", ["http://p"]) == S2
  {
    hide Count;
    CountC("c");
    CountC("p");
    assert Repeat(NEWS, 1) == [NEWS] && Repeat(NEWS, 0) == [];
    var empty: seq<Task> := [];
    assert empty + [NEWS] == [NEWS] && empty + [] == empty;
    var t := Notify(S1P, "t", ["http://p"]);
    assert t.nodes["c"] == S2.nodes["c"] && t.nodes["p"] == S2.nodes["p"];
    assert t.nodes == S2.nodes;
  }

  lemma Leaves()
    ensures Leads(S2, LEAVES, S3)
  {
    hide CheckTopic;
    assert {C} - {C} == {} && {"t"} - {"t"} == {};
    assert S2.subscriptions - {"t"} == map[];
    var t := Release(S2.(subscriptions := map[]), "c", Subscription, "t");
    assert t.nodes == S3.nodes && t.retired == S3.retired;
    StillTyped();
  }

  lemma StillTyped()
    ensures CheckTopic(S3, "t") == S3
  {
  }

  const S3P := S4.(types := map["t" := "T"])

  lemma Goes()
    ensures Leads(S3, GOES, S4)
  {
    hide CheckTopic, Notify, Lists;
    assert {P} - {P} == {} && {"t"} - {"t"} == {};
    assert S3.publications - {"t"} == map[];
    var t := Release(S3.(publications := map[]), "p", Publication, "t");
    assert t.nodes == S3P.nodes && t.retired == S3P.retired;
    Untyped();
  }

  lemma Untyped()
    ensures CheckTopic(S3P, "t") == S4 && Notify(S4, "t", []) == S4 && Lists([], {})
  {
    assert S3P.types - {"t"} == map[];
    assert Notify(S4, "t", []).nodes == S4.nodes;
  }

  const API := "http://c"

  const WORLDS := [
    World(START, map[]),
    World(S1, map[(API, "t") := {}]),
    World(S2, map[(API, "t") := {}]),
    World(S3, map[(API, "t") := {}]),
    World(S4, map[(API, "t") := {}]),
    World(S5, map[(API, "t") := {}]),
    World(S6, map[(API, "t") := {"http://p"}])]

  const MOVES := [Call(JOINS), Call(COMES), Call(LEAVES), Call(GOES), Call(JOINS), Deliver(Retired(0))]

  lemma CallStep(a: World, op: Op, b: World)
    requires Leads(a.reg, op, b.reg)
    requires b.views == if op.RegSubscriber? then a.views[(op.api, op.topic) := {}] else a.views
    requires op.RegSubscriber? ==> Truth(b.reg, op.topic) == {}
    ensures Next(a, Call(op), b)
  {
    hide Apply, Possible, OnRecord, Truth;
  }

  lemma NoPublishers()
    ensures Truth(S1, "t") == {} && Truth(S5, "t") == {} && Truth(S6, "t") == {}
  {
  }

  lemma LateDelivery()
    ensures Next(WORLDS[5], Deliver(Retired(0)), WORLDS[6])
  {
    assert [NEWS][1..] == [];
    assert SetOf(["http://p"]) == {"http://p"};
    assert S5.retired[0 := BLANK] == S6.retired;
    var a := WORLDS[5];
    assert a.views[(API, "t") := {"http://p"}] == WORLDS[6].views;
  }

  lemma ExampleRun()
    ensures WorldRun(WORLDS, MOVES)
  {
    hide Next, Leads;
    Joins([]);
    Comes();
    Leaves();
    Goes();
    Joins(S4.retired);
    NoPublishers();
    assert WORLDS[0].views[(API, "t") := {}] == WORLDS[1].views && WORLDS[4].views[(API, "t") := {}] == WORLDS[5].views;
    CallStep(WORLDS[0], JOINS, WORLDS[1]);
    CallStep(WORLDS[1], COMES, WORLDS[2]);
    CallStep(WORLDS[2], LEAVES, WORLDS[3]);
    CallStep(WORLDS[3], GOES, WORLDS[4]);
    CallStep(WORLDS[4], JOINS, WORLDS[5]);
    LateDelivery();
  }

  lemma AllQuiet()
    ensures Drained(S6, API)
  {
  }

  // A node subscribes, a publisher comes, the node unsubscribes and so leaves the record,
  // the publisher goes, and the node subscribes again before it has been told of the
  // publisher: in the end everything is delivered, and it believes in one that is gone.
  lemma StaleExample()
    ensures WorldRun(WORLDS, MOVES) && OvertakenAt(S4, JOINS, API, "t")
    ensures Has(S6.subscriptions, "t", C) && Drained(S6, API)
    ensures WORLDS[6].views[(API, "t")] != Truth(S6, "t")
  {
    hide WorldRun, Drained;
    ExampleRun();
    AllQuiet();
    NoPublishers();
    TooEarly();
  }

  lemma TooEarly()
    ensures OvertakenAt(S4, JOINS, API, "t")
  {
    assert "http://p" in SetOf(["http://p"]);
    assert Said(S4, Retired(0), "t") == Some(SetOf(["http://p"]));
    assert Left(S4, JOINS, "t") == {} && Apis({}) == {};
    assert Now(S4, JOINS, Retired(0), "t") == Said(S4, Retired(0), "t");
    assert Remains(S4, JOINS, "t", C) && To(S4, Retired(0), C.api) && Late(S4, JOINS, Retired(0), "t");
  }

  // ----- a node that is not on record any more -----

  const OLD := Registration("c", "http://old")
  const NEW := Registration("c", "http://new")

  const CALLS := [
    RegParam("k", "c", "http://old", []),
    RegParam("k", "c", "http://new", []),
    UnregParam("k", "c", "http://new")]

  const WATCHER := Record("http://old", {}, {}, {}, {"/k/"}, [])
  const SUCCESSOR := Record("http://new", {}, {}, {}, {"/k/"}, [])

  const T1 := State(map[], map[], map[], map["/k/" := {OLD}], map[], map["c" := WATCHER], [])
  const T2 := State(map[], map[], map[], map["/k/" := {OLD, NEW}], map[], map["c" := SUCCESSOR],
                    [WATCHER.(outbox := [Shutdown(EVICTED)])])
  const T3 := State(map[], map[], map[], map["/k/" := {OLD}], map[], map[],
                    [WATCHER.(outbox := [Shutdown(EVICTED)]), SUCCESSOR.(params := {})])

  lemma KeyOfK()
    ensures Canonical("k") == Ok("/k/") && Split("k") == ["k"] && Key(["k"]) == "/k/" && Split("/k/") == ["k"]
  {
    SplitWord("k");
    CanonicalKey("k");
    assert Tail(["k"]) == "k" + "/" + Tail([]) by { assert ["k"][1..] == []; }
    assert "/" + ("k" + "/" + "") == "/k/";
    SplitKey(["k"]);
  }

  lemma Watched()
    ensures Leads(START, CALLS[0], T1)
  {
    hide Canonical;
    KeyOfK();
    assert NewRecord("http://old").params + {"/k/"} == {"/k/"} && {} + {OLD} == {OLD};
    var t := Apply(START, CALLS[0]);
    assert t.nodes == T1.nodes && t.params == T1.params;
  }

  lemma TakenOver()
    ensures Leads(T1, CALLS[1], T2)
  {
    hide Canonical;
    KeyOfK();
    EvictWatcher();
    assert NewRecord("http://new").params + {"/k/"} == {"/k/"} && {OLD} + {NEW} == {OLD, NEW};
    var t := Apply(T1, CALLS[1]);
    assert t.nodes == T2.nodes && t.params == T2.params && t.retired == T2.retired;
  }

  lemma EvictWatcher()
    ensures TakesOver(T1, "c", "http://new")
    ensures var u := WithoutServices(Tell(T1, "c", Shutdown(EVICTED)), "c");
      Withdraws(u, "c", []) && Gone(Withdraw(u, []).publications, "c")
    ensures Evicted(Tell(T1, "c", Shutdown(EVICTED)), "c", []) ==
            T1.(nodes := map["c" := WATCHER.(outbox := [Shutdown(EVICTED)])])
  {
    var u := WithoutServices(Tell(T1, "c", Shutdown(EVICTED)), "c");
    assert u.services == map[] && Withdraw(u, []) == u;
    assert WithoutSubscriptions(u, "c").subscriptions == map[];
    assert WATCHER.outbox + [Shutdown(EVICTED)] == [Shutdown(EVICTED)];
  }

  lemma Unwatched()
    ensures Leads(T2, CALLS[2], T3)
  {
    hide Canonical;
    KeyOfK();
    assert NEW != OLD && {OLD, NEW} - {NEW} == {OLD} && {"/k/"} - {"/k/"} == {};
    var t := Apply(T2, CALLS[2]);
    assert t.params == T3.params && t.nodes == T3.nodes && t.retired == T3.retired;
  }

  // A takeover does not clear the parameter subscriptions of the name: once its new node
  // has withdrawn, the look-up for the old one fails with the next write.
  lemma MissedExample()
    ensures Registrations.CallRun([START, T1, T2, T3], CALLS)
    ensures Missed(T3.params, T3.nodes.Keys, ["k"], Trees.Int(1), "w")
  {
    hide Leads, Canonical, Split, Key, Registrations.CallRun;
    Watched();
    TakenOver();
    Unwatched();
    LeadsRun([START, T1, T2, T3], CALLS);
    KeyOfK();
    assert Has(T3.params, "/k/", OLD);
    assert Due("/k/", "c", ["k"], Trees.Int(1), "w");
  }
}
