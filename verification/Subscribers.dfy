// A node's side of a topic subscription (aioros/_node/_tcpros/_topic_subscriber.py): the
// connections to publishers, reconciled with every list the master sends, and the tasks
// that serve them.
module Subscribers {

  // ----- specification -----

  // The task of a connection that has not ended yet.
  datatype Task = Task(uri: string, cancelled: bool)

  // Connections by publisher and tasks by id.
  datatype Manager = Manager(connected: map<string, nat>, tasks: map<nat, Task>, next: nat)

  const IDLE := Manager(map[], map[], 0)

  // update_publishers: connections are kept, dropped and opened as the list demands.
  ghost predicate Reconciled(a: Manager, uris: set<string>, b: Manager) {
    && b.connected.Keys == uris
    && (forall u :: u in a.connected && u in uris ==> b.connected[u] == a.connected[u])
    && (forall i :: i in b.tasks <==> i in a.tasks || a.next <= i < b.next)
    && (forall i :: i in a.tasks && Dropped(a, uris, i) ==> b.tasks[i] == a.tasks[i].(cancelled := true))
    && (forall i :: i in a.tasks && !Dropped(a, uris, i) ==> b.tasks[i] == a.tasks[i])
    && (forall i :: a.next <= i < b.next ==> Opened(a, uris, b, i))
    && (forall u :: u in uris && u !in a.connected ==>
          a.next <= b.connected[u] < b.next && b.tasks[b.connected[u]] == Task(u, false))
    && a.next <= b.next
  }

  function UrisOf(list: seq<string>): set<string> {
    set u | u in list
  }

  ghost predicate Dropped(a: Manager, uris: set<string>, i: nat) {
    exists u :: u in a.connected && u !in uris && a.connected[u] == i
  }

  ghost predicate Opened(a: Manager, uris: set<string>, b: Manager, i: nat) {
    && i in b.tasks && !b.tasks[i].cancelled
    && b.tasks[i].uri in uris && b.tasks[i].uri !in a.connected
    && b.tasks[i].uri in b.connected && b.connected[b.tasks[i].uri] == i
  }

  // A task ends. It takes the connection filed under its URI along, unless it was
  // cancelled before it got as far as connecting.
  ghost predicate Exited(a: Manager, i: nat, pops: bool, b: Manager) {
    && i in a.tasks && (!pops ==> a.tasks[i].cancelled)
    && b == Manager(if pops then a.connected - {a.tasks[i].uri} else a.connected, a.tasks - {i}, a.next)
  }

  // Every connection has its own task, running for it; ids are never reused.
  ghost predicate Served(m: Manager) {
    && (forall u :: u in m.connected ==> m.connected[u] in m.tasks && m.tasks[m.connected[u]] == Task(u, false))
    && (forall i :: i in m.tasks ==> i < m.next)
  }

  // Every task of a publisher that is not cancelled is that of its connection.
  ghost predicate AccountedAt(m: Manager, u: string) {
    forall i :: i in m.tasks && m.tasks[i] == Task(u, false) ==> u in m.connected && m.connected[u] == i
  }

  ghost predicate Accounted(m: Manager) {
    forall u :: AccountedAt(m, u)
  }

  // No cancelled task of the publisher is left behind while it is connected.
  ghost predicate CleanAt(m: Manager, u: string) {
    forall i :: i in m.tasks && m.tasks[i] == Task(u, true) ==> u !in m.connected
  }

  ghost predicate Clean(m: Manager) {
    forall u :: CleanAt(m, u)
  }

  // The publisher does not come back with the list while a cancelled task is left for it.
  ghost predicate InTime(m: Manager, uris: set<string>, u: string) {
    forall i :: i in m.tasks && m.tasks[i] == Task(u, true) && u in uris ==> u in m.connected
  }

  // ----- what the steps keep -----

  lemma UpdateServes(a: Manager, uris: set<string>, b: Manager)
    requires Served(a) && Reconciled(a, uris, b)
    ensures Served(b)
  {
    forall u | u in b.connected
      ensures b.connected[u] in b.tasks && b.tasks[b.connected[u]] == Task(u, false)
    {
      if u in a.connected {
        assert !Dropped(a, uris, a.connected[u]);
      }
    }
  }

  lemma UpdateAccounts(a: Manager, uris: set<string>, b: Manager, u: string)
    requires Served(a) && Reconciled(a, uris, b) && AccountedAt(a, u)
    ensures AccountedAt(b, u)
  {
    forall i | i in b.tasks && b.tasks[i] == Task(u, false)
      ensures u in b.connected && b.connected[u] == i
    {
      if i in a.tasks {
        assert !Dropped(a, uris, i);
      } else {
        assert Opened(a, uris, b, i);
      }
    }
  }

  lemma UpdateKeeps(a: Manager, uris: set<string>, b: Manager)
    requires Served(a) && Reconciled(a, uris, b)
    ensures Served(b)
    ensures Accounted(a) ==> Accounted(b)
  {
    hide AccountedAt, Reconciled;
    UpdateServes(a, uris, b);
    if Accounted(a) {
      forall u { UpdateAccounts(a, uris, b, u); }
    }
  }

  // A list that comes in time leaves no cancelled task behind the connection, another does.
  lemma UpdateCleanAt(a: Manager, uris: set<string>, b: Manager, u: string)
    requires Served(a) && CleanAt(a, u) && Reconciled(a, uris, b)
    ensures CleanAt(b, u) <==> InTime(a, uris, u)
  {
    if InTime(a, uris, u) {
      forall i | i in b.tasks && b.tasks[i] == Task(u, true)
        ensures u !in b.connected
      {
        assert a.next <= i < b.next ==> Opened(a, uris, b, i);
        if i in a.tasks && Dropped(a, uris, i) {
          var v :| v in a.connected && v !in uris && a.connected[v] == i;
          assert a.tasks[i].uri == v;
        }
      }
    } else {
      var i :| i in a.tasks && a.tasks[i] == Task(u, true) && u in uris && u !in a.connected;
      assert b.tasks[i] == Task(u, true) && u in b.connected;
    }
  }

  lemma UpdateClean(a: Manager, uris: set<string>, b: Manager)
    requires Served(a) && Clean(a) && Reconciled(a, uris, b)
    ensures Clean(b) <==> forall u :: InTime(a, uris, u)
  {
    hide CleanAt, InTime, Reconciled, Served;
    forall u
      ensures CleanAt(b, u) <==> InTime(a, uris, u)
    {
      UpdateCleanAt(a, uris, b, u);
    }
  }

  // A task ends by URI, not by identity. The publisher stays accounted for exactly if the
  // task does not take along the connection of one that came after it.
  lemma ExitKeepsAt(a: Manager, i: nat, pops: bool, b: Manager, u: string)
    requires Served(a) && AccountedAt(a, u) && Exited(a, i, pops, b)
    ensures AccountedAt(b, u) <==> !(pops && a.tasks[i] == Task(u, true) && u in a.connected)
  {
    if pops && a.tasks[i] == Task(u, true) && u in a.connected {
      var j := a.connected[u];
      assert j in b.tasks && b.tasks[j] == Task(u, false) && u !in b.connected;
    }
  }

  lemma ExitServes(a: Manager, i: nat, pops: bool, b: Manager)
    requires Served(a) && Exited(a, i, pops, b)
    ensures Served(b)
  {
  }

  lemma ExitKeeps(a: Manager, i: nat, pops: bool, b: Manager)
    requires Served(a) && Accounted(a) && Exited(a, i, pops, b)
    ensures Served(b)
    ensures Accounted(b) <==> !(pops && a.tasks[i].cancelled && a.tasks[i].uri in a.connected)
  {
    hide AccountedAt;
    ExitServes(a, i, pops, b);
    forall u
      ensures AccountedAt(b, u) <==> !(pops && a.tasks[i] == Task(u, true) && u in a.connected)
    {
      ExitKeepsAt(a, i, pops, b, u);
    }
  }

  lemma ExitCleanAt(a: Manager, i: nat, pops: bool, b: Manager, u: string)
    requires Served(a) && AccountedAt(a, u) && CleanAt(a, u) && Exited(a, i, pops, b)
    ensures AccountedAt(b, u) && CleanAt(b, u)
    ensures u in b.connected <==> u in a.connected && a.tasks[i] != Task(u, false)
  {
    ExitKeepsAt(a, i, pops, b, u);
  }

  // What goes wrong otherwise: a publisher leaves and comes back before the task of the
  // first connection has ended, whose end then forgets the second one.
  const JOINED := Manager(map["p" := 0], map[0 := Task("p", false)], 1)
  const LEFT := Manager(map[], map[0 := Task("p", true)], 1)
  const BACK := Manager(map["p" := 1], map[0 := Task("p", true), 1 := Task("p", false)], 2)
  const FORGOTTEN := Manager(map[], map[1 := Task("p", false)], 2)

  lemma LateExample()
    ensures Reconciled(IDLE, {"p"}, JOINED) && Reconciled(JOINED, {}, LEFT) && Reconciled(LEFT, {"p"}, BACK)
    ensures Exited(BACK, 0, true, FORGOTTEN)
    ensures !InTime(LEFT, {"p"}, "p") && Accounted(BACK) && !AccountedAt(FORGOTTEN, "p")
  {
    hide Reconciled;
    LateLists();
    assert 0 in LEFT.tasks && LEFT.tasks[0].cancelled;
    assert 1 in FORGOTTEN.tasks && !FORGOTTEN.tasks[1].cancelled;
    assert BACK.tasks - {0} == FORGOTTEN.tasks;
    assert BACK.connected - {"p"} == FORGOTTEN.connected;
  }

  lemma LateLists()
    ensures Reconciled(IDLE, {"p"}, JOINED) && Reconciled(JOINED, {}, LEFT) && Reconciled(LEFT, {"p"}, BACK)
  {
    assert Reconciled(IDLE, {"p"}, JOINED);
    assert Reconciled(JOINED, {}, LEFT) by {
      assert "p" in JOINED.connected;
      assert Dropped(JOINED, {}, 0);
    }
    LateList();
  }

  lemma LateList()
    ensures Reconciled(LEFT, {"p"}, BACK)
  {
    assert !Dropped(LEFT, {"p"}, 0);
    assert Opened(LEFT, {"p"}, BACK, 1);
  }

  // ----- one publisher at a time -----

  function Drop(m: Manager, u: string): Manager
    requires u in m.connected && m.connected[u] in m.tasks
  {
    var i := m.connected[u];
    Manager(m.connected - {u}, m.tasks[i := m.tasks[i].(cancelled := true)], m.next)
  }

  function Open(m: Manager, u: string): Manager {
    Manager(m.connected[u := m.next], m.tasks[m.next := Task(u, false)], m.next + 1)
  }

  lemma ReconciledAlready(a: Manager)
    requires Served(a)
    ensures Reconciled(a, a.connected.Keys, a)
  {
  }

  lemma ReconciledKeys(a: Manager, uris: set<string>, b: Manager)
    requires Reconciled(a, uris, b)
    ensures b.connected.Keys == uris
  {
  }

  lemma ReconciledDrop(a: Manager, uris: set<string>, b: Manager, u: string)
    requires Served(a) && Reconciled(a, uris, b) && b.next == a.next
    requires uris <= a.connected.Keys && u in uris && u in b.connected && b.connected[u] in b.tasks
    ensures Reconciled(a, uris - {u}, Drop(b, u))
  {
    var c, rest := Drop(b, u), uris - {u};
    assert c.connected.Keys == rest;
    forall i | i in a.tasks
      ensures c.tasks[i] == if Dropped(a, rest, i) then a.tasks[i].(cancelled := true) else a.tasks[i]
    {
      if i == a.connected[u] {
        assert Dropped(a, rest, i);
      } else if v :| v in a.connected && v !in rest && a.connected[v] == i {
        assert Dropped(a, uris, i);
      } else {
        assert !Dropped(a, uris, i);
      }
    }
  }

  lemma ReconciledOpen(a: Manager, uris: set<string>, b: Manager, u: string)
    requires Served(a) && Reconciled(a, uris, b) && u !in uris && u !in a.connected
    ensures Reconciled(a, uris + {u}, Open(b, u))
  {
    hide Dropped;
    var c, more := Open(b, u), uris + {u};
    assert c.connected.Keys == more;
    assert b.next !in a.tasks;
    forall i | i in a.tasks
      ensures c.tasks[i] == b.tasks[i] && (Dropped(a, more, i) <==> Dropped(a, uris, i))
    {
      DroppedAlike(a, uris, u, i);
    }
    forall i | a.next <= i < c.next
      ensures Opened(a, more, c, i)
    {
      assert i < b.next ==> Opened(a, uris, b, i);
    }
  }

  lemma DroppedAlike(a: Manager, uris: set<string>, u: string, i: nat)
    requires u !in a.connected
    ensures Dropped(a, uris + {u}, i) <==> Dropped(a, uris, i)
  {
  }

  lemma OneLess(all: set<string>, out: set<string>, todo: set<string>, x: string)
    requires x in todo && todo <= out
    ensures all - (out - (todo - {x})) == all - (out - todo) - {x}
  {
  }

  lemma OneMore(all: set<string>, add: set<string>, todo: set<string>, x: string)
    requires x in todo && todo <= add
    ensures all + (add - (todo - {x})) == all + (add - todo) + {x}
  {
  }

  // ----- the objects -----

  class ConnectedPublisher {
    const id: nat
    const uri: string
    var cancelled: bool

    constructor (id: nat, uri: string)
      ensures this.id == id && this.uri == uri && !cancelled
    {
      this.id, this.uri, cancelled := id, uri, false;
    }
  }

  function Ids(connected: map<string, ConnectedPublisher>): map<string, nat> {
    map u | u in connected :: connected[u].id
  }

  ghost function Tasks(running: map<nat, ConnectedPublisher>): map<nat, Task>
    reads running.Values
  {
    map i | i in running :: Task(running[i].uri, running[i].cancelled)
  }

  class SubscriptionManager {
    var subscriptions: set<nat>
    var connectedPublishers: map<string, ConnectedPublisher>
    var registered: bool
    var nextId: nat
    // the tasks that have been started and have not ended
    ghost var running: map<nat, ConnectedPublisher>

    ghost predicate Valid()
      reads this, running.Values
    {
      && (forall i :: i in running ==> running[i].id == i && i < nextId)
      && (forall u :: u in connectedPublishers ==>
            var c := connectedPublishers[u];
            c.uri == u && c.id in running && running[c.id] == c && !c.cancelled)
    }

    ghost function Abs(): Manager
      reads this, running.Values
    {
      Manager(Ids(connectedPublishers), Tasks(running), nextId)
    }

    lemma AbsServed()
      requires Valid()
      ensures Served(Abs()) && Abs().connected.Keys == connectedPublishers.Keys
    {
    }

    lemma AbsObjects()
      requires Valid()
      ensures Abs().connected == Ids(connectedPublishers)
      ensures forall u :: u in connectedPublishers ==>
        connectedPublishers[u].id in running && running[connectedPublishers[u].id] == connectedPublishers[u]
    {
    }

    constructor ()
      ensures Valid() && Abs() == IDLE && !registered && subscriptions == {}
    {
      subscriptions, connectedPublishers, registered, nextId, running := {}, map[], false, 0, map[];
    }

    method Disconnect(uri: string)
      requires Valid() && uri in connectedPublishers
      modifies this`connectedPublishers, running.Values
      ensures Valid() && Abs() == Drop(old(Abs()), uri)
    {
      var publisher := connectedPublishers[uri];
      connectedPublishers := connectedPublishers - {uri};
      publisher.cancelled := true;
      assert Abs().tasks == Drop(old(Abs()), uri).tasks;
      assert Abs().connected == Drop(old(Abs()), uri).connected;
    }

    method Connect(uri: string)
      requires Valid() && uri !in connectedPublishers
      modifies this`connectedPublishers, this`nextId, this`running
      ensures Valid() && Abs() == Open(old(Abs()), uri)
      ensures forall i :: i in old(running) ==> i in running && running[i] == old(running)[i]
      ensures fresh(running.Values - old(running.Values))
    {
      var publisher := new ConnectedPublisher(nextId, uri);
      nextId := nextId + 1;
      connectedPublishers := connectedPublishers[uri := publisher];
      running := running[publisher.id := publisher];
      assert Tasks(running) == old(Tasks(running))[publisher.id := Task(uri, false)];
      assert Ids(connectedPublishers) == old(Ids(connectedPublishers))[uri := publisher.id];
    }

    method DisconnectNext(uri: string, ghost a: Manager, ghost left: set<string>)
      requires Valid() && Served(a) && Reconciled(a, left, Abs()) && Abs().next == a.next
      requires left <= a.connected.Keys && uri in left
      modifies this`connectedPublishers, running.Values
      ensures Valid() && Reconciled(a, left - {uri}, Abs()) && Abs().next == a.next
    {
      hide Reconciled, Abs, Valid, Served;
      AbsServed();
      ReconciledKeys(a, left, Abs());
      ReconciledDrop(a, left, Abs(), uri);
      Disconnect(uri);
    }

    method ConnectNext(uri: string, ghost a: Manager, ghost there: set<string>)
      requires Valid() && Served(a) && Reconciled(a, there, Abs())
      requires uri !in there && uri !in a.connected.Keys
      modifies this`connectedPublishers, this`nextId, this`running
      ensures Valid() && Reconciled(a, there + {uri}, Abs())
      ensures forall i :: i in old(running) ==> i in running && running[i] == old(running)[i]
      ensures fresh(running.Values - old(running.Values))
    {
      hide Reconciled, Abs, Valid, Served;
      AbsServed();
      ReconciledKeys(a, there, Abs());
      ReconciledOpen(a, there, Abs(), uri);
      Connect(uri);
    }

    // The first loop of update_publishers.
    method DisconnectAll(toDiscard: set<string>)
      requires Valid() && toDiscard <= connectedPublishers.Keys
      modifies this`connectedPublishers, running.Values
      ensures Valid() && Reconciled(old(Abs()), old(Abs()).connected.Keys - toDiscard, Abs())
    {
      hide Reconciled, Abs, Valid, Served, Open, Drop, Ids, Tasks;
      ghost var a := Abs();
      AbsServed();
      ReconciledAlready(a);
      var todo := toDiscard;
      ghost var left := a.connected.Keys;
      while todo != {}
        invariant Valid() && todo <= left && todo <= toDiscard
        invariant Reconciled(a, left, Abs()) && Abs().next == a.next
        invariant left == a.connected.Keys - (toDiscard - todo)
        decreases |todo|
      {
        var publisherUri :| publisherUri in todo;
        DisconnectNext(publisherUri, a, left);
        OneLess(a.connected.Keys, toDiscard, todo, publisherUri);
        todo, left := todo - {publisherUri}, left - {publisherUri};
      }
      assert toDiscard - todo == toDiscard;
    }

    // The second loop.
    method ConnectAll(toConnect: set<string>, ghost a: Manager, ghost before: set<string>)
      requires Valid() && Served(a) && Reconciled(a, before, Abs())
      requires toConnect !! before && toConnect !! a.connected.Keys
      modifies this`connectedPublishers, this`nextId, this`running
      ensures Valid() && Reconciled(a, before + toConnect, Abs())
      ensures forall i :: i in old(running) ==> i in running && running[i] == old(running)[i]
      ensures fresh(running.Values - old(running.Values))
    {
      hide Reconciled, Abs, Valid, Served, Open, Drop, Ids, Tasks;
      var todo := toConnect;
      ghost var there := before;
      while todo != {}
        invariant Valid() && todo <= toConnect && todo !! there
        invariant Reconciled(a, there, Abs())
        invariant there == before + (toConnect - todo)
        invariant forall i :: i in old(running) ==> i in running && running[i] == old(running)[i]
        invariant fresh(running.Values - old(running.Values))
        decreases |todo|
      {
        var publisherUri :| publisherUri in todo;
        ConnectNext(publisherUri, a, there);
        OneMore(before, toConnect, todo, publisherUri);
        todo, there := todo - {publisherUri}, there + {publisherUri};
      }
      assert toConnect - todo == toConnect;
    }

    // Connections to listed publishers are the same objects as before.
    method UpdatePublishers(publisherUris: seq<string>)
      requires Valid()
      modifies this`connectedPublishers, this`nextId, this`running, running.Values
      ensures Valid() && Reconciled(old(Abs()), UrisOf(publisherUris), Abs())
      ensures forall i :: i in old(running) ==> i in running && running[i] == old(running)[i]
      ensures fresh(running.Values - old(running.Values))
      ensures forall u :: u in publisherUris && u in old(connectedPublishers) ==>
        u in connectedPublishers && connectedPublishers[u] == old(connectedPublishers)[u]
    {
      hide Reconciled, Abs, Valid, Served, Open, Drop, Ids, Tasks;
      AbsServed();
      AbsObjects();
      ghost var a := Abs();
      var currentPublishers := connectedPublishers.Keys;
      var newPublishers := UrisOf(publisherUris);
      assert a.connected.Keys == currentPublishers;
      DisconnectAll(currentPublishers - newPublishers);
      ConnectAll(newPublishers - currentPublishers, a, currentPublishers - (currentPublishers - newPublishers));
      assert currentPublishers - (currentPublishers - newPublishers) + (newPublishers - currentPublishers) ==
             newPublishers;
      SameObjects(a, old(connectedPublishers), old(running), newPublishers);
    }

    // Connections are told apart by their ids.
    lemma SameObjects(a: Manager, before: map<string, ConnectedPublisher>, tasks: map<nat, ConnectedPublisher>,
                      uris: set<string>)
      requires Valid() && Reconciled(a, uris, Abs()) && a.connected == Ids(before)
      requires forall u :: u in before ==> before[u].id in tasks && tasks[before[u].id] == before[u]
      requires forall i :: i in tasks ==> i in running && running[i] == tasks[i]
      ensures forall u :: u in uris && u in before ==> u in connectedPublishers && connectedPublishers[u] == before[u]
    {
      forall u | u in uris && u in before
        ensures u in connectedPublishers && connectedPublishers[u] == before[u]
      {
        assert u in a.connected && Abs().connected[u] == a.connected[u];
      }
    }

    // register, once the master has answered with a list.
    method Register(sendStream: nat, answer: seq<string>)
      requires Valid()
      modifies this, running.Values
      ensures Valid() && registered && subscriptions == old(subscriptions) + {sendStream}
      ensures if old(registered) then Abs() == old(Abs()) else Reconciled(old(Abs()), UrisOf(answer), Abs())
    {
      if !registered {
        registered := true;
        UpdatePublishers(answer);
      }
      subscriptions := subscriptions + {sendStream};
    }

    // unregister, around the call of the master.
    method Unregister(sendStream: nat)
      requires Valid()
      modifies this, running.Values
      ensures Valid() && subscriptions == old(subscriptions) - {sendStream}
      ensures registered == (old(registered) && subscriptions != {})
      ensures if subscriptions != {} then Abs() == old(Abs()) else Reconciled(old(Abs()), {}, Abs())
    {
      subscriptions := subscriptions - {sendStream};
      if subscriptions == {} {
        registered := false;
        UpdatePublishers([]);
      }
    }

    // The end of a task; one that has got as far as connecting cleans up behind itself.
    method TaskExit(publisher: ConnectedPublisher, connecting: bool)
      requires Valid() && publisher.id in running && running[publisher.id] == publisher
      requires !connecting ==> publisher.cancelled
      modifies this`connectedPublishers, this`running
      ensures Valid() && Exited(old(Abs()), publisher.id, connecting, Abs())
    {
      if connecting {
        connectedPublishers := connectedPublishers - {publisher.uri};
      }
      running := running - {publisher.id};
      assert Abs().tasks == old(Abs()).tasks - {publisher.id};
      assert connecting ==> Abs().connected == old(Abs()).connected - {publisher.uri};
    }
  }
}
