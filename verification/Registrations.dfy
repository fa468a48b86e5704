// The master's registry (aioros/master/_registry.py) as a value: redundant indexes of who
// offers and wants what, and for every known node a record with its queue of calls. The
// order in which Python walks a set or a dict is left open: operations take the lists and
// logs that some order produced. A record that is dropped or taken over is retired: what is
// queued in it is still delivered.
module Registrations {
  import opened Outcomes
  import opened Names
  import opened Trees

  datatype Registration = Registration(caller: string, api: string)

  datatype Task =
    | PublisherUpdate(topic: string, publishers: seq<string>)
    | ParamUpdate(key: string, value: Value)
    | Shutdown(msg: string)

  datatype Record = Record(
    api: string,
    services: set<string>,
    publications: set<string>,
    subscriptions: set<string>,
    params: set<string>,
    outbox: seq<Task>)

  type Index = map<string, set<Registration>>

  datatype State = State(
    services: map<string, Registration>,
    publications: Index,
    subscriptions: Index,
    params: Index,
    types: map<string, string>,
    nodes: map<string, Record>,
    retired: seq<Record>)

  const EVICTED := "new node registered with same name"

  function At(m: Index, k: string): set<Registration> {
    if k in m then m[k] else {}
  }

  predicate Has(m: Index, k: string, r: Registration) {
    k in m && r in m[k]
  }

  datatype Kind = Service | Publication | Subscription | Param

  // The names of one kind a node has registered.
  function Held(r: Record, k: Kind): set<string> {
    match k
    case Service => r.services
    case Publication => r.publications
    case Subscription => r.subscriptions
    case Param => r.params
  }

  function Holding(r: Record, k: Kind, names: set<string>): Record {
    match k
    case Service => r.(services := names)
    case Publication => r.(publications := names)
    case Subscription => r.(subscriptions := names)
    case Param => r.(params := names)
  }

  function Busy(r: Record): bool {
    r.services != {} || r.publications != {} || r.subscriptions != {} || r.params != {}
  }

  function NewRecord(api: string): Record {
    Record(api, {}, {}, {}, {}, [])
  }

  // ----- telling nodes -----

  function Repeat(task: Task, n: nat): (r: seq<Task>)
    ensures |r| == n && forall i :: 0 <= i < n ==> r[i] == task
  {
    seq(n, _ => task)
  }

  // How many registrations of the caller are in the set.
  function Count(regs: set<Registration>, caller: string): nat {
    |set r | r in regs && r.caller == caller|
  }

  // The APIs of the registered nodes, listed in some order.
  ghost predicate Lists(list: seq<string>, regs: set<Registration>) {
    && |list| == |regs|
    && forall x :: x in list <==> exists r :: r in regs && r.api == x
  }

  // _update_subscribers: every registered subscriber's node is told, once a registration.
  function Notify(s: State, topic: string, list: seq<string>): State {
    s.(nodes := map c | c in s.nodes ::
         s.nodes[c].(outbox := s.nodes[c].outbox +
                       Repeat(PublisherUpdate(topic, list), Count(At(s.subscriptions, topic), c))))
  }

  // ----- taking over a name -----

  // One registration removed by _unregister_all, and the list sent out afterwards.
  datatype Withdrawal = Withdrawal(topic: string, reg: Registration, list: seq<string>)

  function WithdrawOne(s: State, w: Withdrawal): State {
    Notify(s.(publications := s.publications[w.topic := At(s.publications, w.topic) - {w.reg}]), w.topic, w.list)
  }

  function Withdraw(s: State, log: seq<Withdrawal>): State
    decreases |log|
  {
    if log == [] then s else WithdrawOne(Withdraw(s, log[..|log| - 1]), log[|log| - 1])
  }

  // The log removes registrations of the caller that are there, in some order.
  ghost predicate Withdraws(s: State, c: string, log: seq<Withdrawal>)
    decreases |log|
  {
    log == [] || (
      var before, w := log[..|log| - 1], log[|log| - 1];
      var t := Withdraw(s, before);
      && Withdraws(s, c, before)
      && Has(t.publications, w.topic, w.reg) && w.reg.caller == c
      && Lists(w.list, At(t.publications, w.topic) - {w.reg}))
  }

  ghost predicate Gone(m: Index, c: string) {
    forall t, r :: Has(m, t, r) ==> r.caller != c
  }

  function WithoutServices(s: State, c: string): State {
    s.(services := map n | n in s.services && s.services[n].caller != c :: s.services[n])
  }

  function WithoutSubscriptions(s: State, c: string): State {
    s.(subscriptions := map t | t in s.subscriptions :: set r | r in s.subscriptions[t] && r.caller != c)
  }

  function Tell(s: State, c: string, task: Task): State {
    if c in s.nodes then s.(nodes := s.nodes[c := s.nodes[c].(outbox := s.nodes[c].outbox + [task])]) else s
  }

  // _unregister_all, while the old record is still in place.
  function Evicted(s: State, c: string, log: seq<Withdrawal>): State {
    WithoutSubscriptions(Withdraw(WithoutServices(s, c), log), c)
  }

  // A node known under another API is told to shut down and loses its registrations.
  function TakesOver(s: State, c: string, api: string): bool {
    c in s.nodes && s.nodes[c].api != api
  }

  // _register_node
  function Enroll(s: State, c: string, api: string, log: seq<Withdrawal>): State {
    if c in s.nodes && s.nodes[c].api == api then s
    else
      var t := if c in s.nodes then Evicted(Tell(s, c, Shutdown(EVICTED)), c, log) else s;
      Fresh(t, c, api)
  }

  // A new record for c; the one it replaces is served on.
  function Fresh(s: State, c: string, api: string): State {
    s.(nodes := s.nodes[c := NewRecord(api)],
       retired := if c in s.nodes then s.retired + [s.nodes[c]] else s.retired)
  }

  ghost predicate Enrolls(s: State, c: string, api: string, log: seq<Withdrawal>) {
    if TakesOver(s, c, api) then
      var t := WithoutServices(Tell(s, c, Shutdown(EVICTED)), c);
      Withdraws(t, c, log) && Gone(Withdraw(t, log).publications, c)
    else
      log == []
  }

  // ----- the calls of the API -----

  function TypeTopic(s: State, topic: string, topicType: string): State {
    if topicType != "*" && topic !in s.types then s.(types := s.types[topic := topicType]) else s
  }

  function CheckTopic(s: State, topic: string): State {
    if topic !in s.publications && topic !in s.subscriptions then s.(types := s.types - {topic}) else s
  }

  function CheckNode(s: State, c: string): State {
    if c in s.nodes && !Busy(s.nodes[c]) then s.(nodes := s.nodes - {c}, retired := s.retired + [s.nodes[c]]) else s
  }

  // A node on record gains a name.
  function Hold(s: State, c: string, k: Kind, name: string): State
    requires c in s.nodes
  {
    s.(nodes := s.nodes[c := Holding(s.nodes[c], k, Held(s.nodes[c], k) + {name})])
  }

  // A node loses a name, and its record with the last one.
  function Release(s: State, c: string, k: Kind, name: string): State {
    if c in s.nodes
    then CheckNode(s.(nodes := s.nodes[c := Holding(s.nodes[c], k, Held(s.nodes[c], k) - {name})]), c)
    else s
  }

  function Add(m: Index, k: string, r: Registration): Index {
    m[k := At(m, k) + {r}]
  }

  // A key whose last registration goes is dropped.
  function Discard(m: Index, k: string, r: Registration): Index {
    if k !in m then m
    else if m[k] - {r} == {} then m - {k}
    else m[k := m[k] - {r}]
  }

  function RegisterService(s: State, name: string, c: string, api: string, serviceApi: string,
                           log: seq<Withdrawal>): State {
    var t := Hold(Enroll(s, c, api, log), c, Service, name);
    t.(services := t.services[name := Registration(c, serviceApi)])
  }

  function UnregisterService(s: State, name: string, c: string): State {
    Release(s.(services := s.services - {name}), c, Service, name)
  }

  function RegisterSubscriber(s: State, topic: string, topicType: string, c: string, api: string,
                              log: seq<Withdrawal>): State {
    var t := Hold(Enroll(TypeTopic(s, topic, topicType), c, api, log), c, Subscription, topic);
    t.(subscriptions := Add(t.subscriptions, topic, Registration(c, api)))
  }

  function UnregisterSubscriber(s: State, topic: string, c: string, api: string): State {
    var t := s.(subscriptions := Discard(s.subscriptions, topic, Registration(c, api)));
    CheckTopic(Release(t, c, Subscription, topic), topic)
  }

  // Up to the update of the subscribers.
  function AddPublisher(s: State, topic: string, topicType: string, c: string, api: string,
                        log: seq<Withdrawal>): State {
    var t := Hold(Enroll(TypeTopic(s, topic, topicType), c, api, log), c, Publication, topic);
    t.(publications := Add(t.publications, topic, Registration(c, api)))
  }

  function RegisterPublisher(s: State, topic: string, topicType: string, c: string, api: string,
                             log: seq<Withdrawal>, list: seq<string>): State {
    Notify(AddPublisher(s, topic, topicType, c, api, log), topic, list)
  }

  function DropPublisher(s: State, topic: string, c: string, api: string): State {
    var t := s.(publications := Discard(s.publications, topic, Registration(c, api)));
    CheckTopic(Release(t, c, Publication, topic), topic)
  }

  function UnregisterPublisher(s: State, topic: string, c: string, api: string, list: seq<string>): State {
    Notify(DropPublisher(s, topic, c, api), topic, list)
  }

  // Parameter subscriptions are filed under canonical keys; private names are refused.
  function RegisterParam(s: State, key: string, c: string, api: string, log: seq<Withdrawal>): Result<State> {
    match Canonical(key)
    case Err(e) => Err(e)
    case Ok(k) =>
      var t := Hold(Enroll(s, c, api, log), c, Param, k);
      Ok(t.(params := Add(t.params, k, Registration(c, api))))
  }

  function UnregisterParam(s: State, key: string, c: string, api: string): Result<State> {
    match Canonical(key)
    case Err(e) => Err(e)
    case Ok(k) => Ok(Release(s.(params := Discard(s.params, k, Registration(c, api))), c, Param, k))
  }

  datatype Op =
    | RegService(name: string, caller: string, api: string, serviceApi: string, log: seq<Withdrawal>)
    | UnregService(name: string, caller: string)
    | RegSubscriber(topic: string, topicType: string, caller: string, api: string, log: seq<Withdrawal>)
    | UnregSubscriber(topic: string, caller: string, api: string)
    | RegPublisher(topic: string, topicType: string, caller: string, api: string, log: seq<Withdrawal>,
                   list: seq<string>)
    | UnregPublisher(topic: string, caller: string, api: string, list: seq<string>)
    | RegParam(key: string, caller: string, api: string, log: seq<Withdrawal>)
    | UnregParam(key: string, caller: string, api: string)

  function Apply(s: State, op: Op): State {
    match op
    case RegService(n, c, a, sa, log) => RegisterService(s, n, c, a, sa, log)
    case UnregService(n, c) => UnregisterService(s, n, c)
    case RegSubscriber(t, ty, c, a, log) => RegisterSubscriber(s, t, ty, c, a, log)
    case UnregSubscriber(t, c, a) => UnregisterSubscriber(s, t, c, a)
    case RegPublisher(t, ty, c, a, log, list) => RegisterPublisher(s, t, ty, c, a, log, list)
    case UnregPublisher(t, c, a, list) => UnregisterPublisher(s, t, c, a, list)
    case RegParam(k, c, a, log) =>
      if RegisterParam(s, k, c, a, log).Ok? then RegisterParam(s, k, c, a, log).value else s
    case UnregParam(k, c, a) => if UnregisterParam(s, k, c, a).Ok? then UnregisterParam(s, k, c, a).value else s
  }

  // The logs and lists are ones the code can produce.
  ghost predicate Possible(s: State, op: Op) {
    match op
    case RegService(_, c, a, _, log) => Enrolls(s, c, a, log)
    case UnregService(_, _) => true
    case RegSubscriber(t, ty, c, a, log) => Enrolls(TypeTopic(s, t, ty), c, a, log)
    case UnregSubscriber(_, _, _) => true
    case RegPublisher(t, ty, c, a, log, list) =>
      && Enrolls(TypeTopic(s, t, ty), c, a, log)
      && Lists(list, At(AddPublisher(s, t, ty, c, a, log).publications, t))
    case UnregPublisher(t, c, a, list) => Lists(list, At(DropPublisher(s, t, c, a).publications, t))
    case RegParam(_, c, a, log) => Enrolls(s, c, a, log)
    case UnregParam(_, _, _) => true
  }

  predicate Registers(op: Op) {
    op.RegService? || op.RegSubscriber? || op.RegPublisher? || op.RegParam?
  }

  // The call takes the caller's name over from another API.
  predicate Replaces(s: State, op: Op) {
    match op
    case RegService(_, c, a, _, _) => TakesOver(s, c, a)
    case RegSubscriber(_, _, c, a, _) => TakesOver(s, c, a)
    case RegPublisher(_, _, c, a, _, _) => TakesOver(s, c, a)
    case RegParam(k, c, a, _) => Canonical(k).Ok? && TakesOver(s, c, a)
    case _ => false
  }

  // Unregister calls for topics and parameters name the API the caller is known under.
  predicate OnRecord(s: State, op: Op) {
    (op.UnregSubscriber? || op.UnregPublisher? || op.UnregParam?) && op.caller in s.nodes ==>
      s.nodes[op.caller].api == op.api
  }

  const START := State(map[], map[], map[], map[], map[], map[], [])

  // A run of calls, given by the states it passes through.
  ghost predicate CallRun(states: seq<State>, ops: seq<Op>) {
    && |states| == |ops| + 1
    && states[0] == START
    && forall i :: 0 <= i < |ops| ==>
         Possible(states[i], ops[i]) && OnRecord(states[i], ops[i]) && states[i + 1] == Apply(states[i], ops[i])
  }

  // ----- two-way agreement of the indexes -----

  predicate Knows(s: State, r: Registration) {
    r.caller in s.nodes && s.nodes[r.caller].api == r.api
  }

  ghost predicate PublicationsAgree(s: State) {
    forall t, r :: Has(s.publications, t, r) <==> Knows(s, r) && t in s.nodes[r.caller].publications
  }

  ghost predicate SubscriptionsAgree(s: State) {
    forall t, r :: Has(s.subscriptions, t, r) <==> Knows(s, r) && t in s.nodes[r.caller].subscriptions
  }

  // Services are last-writer-wins: only an entry leads to its node's record.
  ghost predicate ServicesAgree(s: State) {
    forall n :: n in s.services ==> s.services[n].caller in s.nodes && n in s.nodes[s.services[n].caller].services
  }

  ghost predicate Agreement(s: State) {
    && PublicationsAgree(s) && SubscriptionsAgree(s) && ServicesAgree(s)
    && forall c :: c in s.nodes ==> Busy(s.nodes[c])
  }

  lemma AddAt(m: Index, k: string, x: Registration)
    ensures forall t, r :: Has(Add(m, k, x), t, r) <==> Has(m, t, r) || (t == k && r == x)
  {
  }

  lemma DiscardAt(m: Index, k: string, x: Registration)
    ensures forall t, r :: Has(Discard(m, k, x), t, r) <==> Has(m, t, r) && !(t == k && r == x)
  {
    if k in m {
      assert forall r: Registration :: r in m[k] - {x} <==> r in m[k] && r != x;
    }
  }
}
