// Runs of the master as a whole, with its registry, its store and the nodes it serves: to
// the parameters these are runs of the system of Coherence, so that what is proved there
// holds of them.
module MasterRuns {
  import opened Outcomes
  import opened Names
  import opened Trees
  import opened Registrations
  import opened Updates
  import opened Announcements
  import opened Coherence
  import opened ParamQueues
  import RegistryRuns
  import RegistryLifetimes
  import PublisherQueues
  import MasterApi
  import NodeCache

  // The registry says which updates are queued; the system, what their values are by now.
  datatype Whole = Whole(system: System, reg: State)

  datatype Event =
    | Changes(writer: string, key: string, change: Change, log: seq<Sending>)
    | Asks(op: Op)
    | Calls(op: Op)
    | Serves(line: PublisherQueues.Line, lost: bool)

  ghost predicate AllOwed(log: seq<Sending>, p: Path, w: Change) {
    forall i :: 0 <= i < |log| ==> Owed(Split(log[i].key), p, w).Some?
  }

  // setParam or deleteParam succeeds: the store is changed, and what is announced is queued.
  ghost predicate ChangeFollows(a: Whole, writer: string, p: Path, w: Change, log: seq<Sending>, b: Whole) {
    && Changed(a.system.tree, p, w) == Ok(b.system.tree)
    && (if Private(p) then log == []
        else
          && Announces(a.reg.params, p, Content(w), writer, log)
          && !Missed(a.reg.params, a.reg.nodes.Keys, p, Content(w), writer))
    && b.reg == Sent(a.reg, log)
    && b.system.subs == a.system.subs && b.system.nodes.Keys == a.system.nodes.Keys
    && forall c :: c in a.system.nodes ==>
         && (c != writer ==> b.system.nodes[c].cache == a.system.nodes[c].cache)
         && (AllOwed(log, p, w) ==>
               b.system.nodes[c].queue == RefreshAll(a.system.nodes[c].queue, p, w) +
                                          Mail(MasterApi.Posts(log, p, w), c))
  }

  // A node that has nothing cached above the key asks for it, and is subscribed.
  ghost predicate AskFollows(a: Whole, op: Op, b: Whole) {
    && op.RegParam? && Canonical(op.key).Ok? && op.caller in a.system.nodes
    && var n, p := a.system.nodes[op.caller], Split(op.key);
    && NodeCache.Covering(n.cache, p, 0) == None
    && b.reg == Apply(a.reg, op)
    && b.system == System(a.system.tree, a.system.subs + {(op.caller, p)},
                          a.system.nodes[op.caller := n.(cache := n.cache[Slashed(p) := Reply(a.system.tree, p)])])
  }

  // The next call of a queue is delivered or lost. An update of a parameter is delivered
  // as it stands by now, and must be one the node can take in.
  ghost predicate ServeFollows(a: Whole, l: PublisherQueues.Line, lost: bool, b: Whole) {
    && PublisherQueues.There(a.reg, l)
    && var queue := PublisherQueues.RecordOf(a.reg, l).outbox;
    && queue != [] && b.reg == PublisherQueues.Pop(a.reg, l)
    && if queue[0].ParamUpdate? then
         l.Live? && l.caller in a.system.nodes && a.system.nodes[l.caller].queue != [] ==>
           Next(a.system, if lost then Lose(l.caller) else Deliver(l.caller), b.system)
       else
         b.system == a.system
  }

  // No node withdraws a parameter subscription.
  predicate Other(op: Op) {
    !op.UnregParam? && !(op.RegParam? && Canonical(op.key).Ok?)
  }

  ghost predicate Follows(a: Whole, e: Event, b: Whole) {
    match e
    case Changes(writer, key, w, log) => ChangeFollows(a, writer, Split(key), w, log, b)
    case Asks(op) => AskFollows(a, op, b)
    case Calls(op) => Other(op) && b == Whole(a.system, Apply(a.reg, op))
    case Serves(l, lost) => ServeFollows(a, l, lost, b)
  }

  // Every caller keeps one API.
  predicate Keeps(e: Event, api: string -> string) {
    (e.Asks? || e.Calls?) ==> RegistryLifetimes.Faithful(e.op, api)
  }

  ghost predicate MasterRun(wholes: seq<Whole>, events: seq<Event>, api: string -> string) {
    && |wholes| == |events| + 1
    && Init(wholes[0].system) && wholes[0].reg == START
    && forall i :: 0 <= i < |events| ==> Follows(wholes[i], events[i], wholes[i + 1]) && Keeps(events[i], api)
  }

  // ----- what registry and system have to do with each other -----

  function KeysIn(queue: seq<Message>): seq<Path> {
    seq(|queue|, i requires 0 <= i < |queue| => queue[i].key)
  }

  function Coming(a: System, c: string): seq<Path> {
    if c in a.nodes then KeysIn(a.nodes[c].queue) else []
  }

  ghost predicate Canonized(s: State, api: string -> string) {
    exists claims :: RegistryLifetimes.Canon(s, claims, api)
  }

  // Subscriptions and queued updates are the same in both, and there are none but for
  // subscribers on record.
  ghost predicate Fits(a: Whole, api: string -> string) {
    && Canonized(a.reg, api)
    && MasterApi.Subscribed(a.reg.params, a.system.subs)
    && (forall c, s: Path :: (c, s) in a.system.subs ==> c in a.system.nodes)
    && (forall c :: Pending(a.reg, c) == Coming(a.system, c))
    && (forall c :: Idle(a.system, c) ==> Pending(a.reg, c) == [])
    && (forall i :: 0 <= i < |a.reg.retired| ==> KeysOf(a.reg.retired[i].outbox) == [])
  }

  ghost predicate Idle(a: System, c: string) {
    forall s: Path :: (c, s) !in a.subs
  }

  lemma FitsOneApi(a: Whole, api: string -> string)
    requires Fits(a, api)
    ensures MasterApi.OneApi(a.reg.params)
  {
    var claims :| RegistryLifetimes.Canon(a.reg, claims, api);
    MasterApi.SteadyOneApi(a.reg, claims, api);
  }

  // Who is not on record has no subscription.
  lemma GoneIdle(s: State, api: string -> string, subs: set<(string, Path)>, a: System, c: string)
    requires Canonized(s, api) && c !in s.nodes && MasterApi.Subscribed(s.params, subs) && a.subs == subs
    ensures Idle(a, c)
  {
    var claims :| RegistryLifetimes.Canon(s, claims, api);
    RegistryLifetimes.LookupsNeverMiss(s, claims, api);
  }

  // ----- changes -----

  lemma {:induction false} EncodedKeys(ms: seq<Message>)
    requires forall i :: 0 <= i < |ms| ==> Segments(ms[i].key)
    ensures KeysOf(MasterApi.EncodedAll(ms)) == KeysIn(ms)
    decreases |ms|
  {
    if ms != [] {
      var tasks := MasterApi.EncodedAll(ms);
      assert tasks[1..] == MasterApi.EncodedAll(ms[1..]);
      EncodedKeys(ms[1..]);
      SplitWireName(ms[0].key);
      assert KeysIn(ms) == [ms[0].key] + KeysIn(ms[1..]);
    }
  }

  lemma MailKeys(log: seq<Sending>, p: Path, w: Change, c: string)
    requires Segments(p) && AllOwed(log, p, w)
    requires forall i :: 0 <= i < |log| ==> log[i].task == MasterApi.Encoded(Owed(Split(log[i].key), p, w).value)
    ensures KeysOf(Tasks(log, c)) == KeysIn(Mail(MasterApi.Posts(log, p, w), c))
    ensures (forall i :: 0 <= i < |log| ==> log[i].reg.caller != c) ==> Tasks(log, c) == []
  {
    hide KeysOf, Tasks, Mail;
    var posts := MasterApi.Posts(log, p, w);
    var mail := Mail(posts, c);
    MasterApi.TasksAreMail(p, w, log, |log|, c);
    assert log[..|log|] == log;
    forall i | 0 <= i < |mail|
      ensures Segments(mail[i].key)
    {
      var j := FromMail(posts, c, i);
      assert mail[i] == Owed(Split(log[j].key), p, w).value;
    }
    EncodedKeys(mail);
    if Tasks(log, c) != [] {
      assert |mail| > 0;
      var j := FromMail(posts, c, 0);
      assert log[j].reg.caller == c;
    }
  }

  lemma RefreshedKeys(queue: seq<Message>, p: Path, w: Change, mail: seq<Message>)
    ensures KeysIn(RefreshAll(queue, p, w) + mail) == KeysIn(queue) + KeysIn(mail)
  {
    var kept := RefreshAll(queue, p, w);
    forall i | 0 <= i < |queue|
      ensures kept[i].key == queue[i].key
    {
      RefreshKey(queue[i], p, w);
    }
  }

  // Whoever is sent something is a subscriber on record.
  lemma SentTo(a: Whole, api: string -> string, writer: string, p: Path, w: Change, log: seq<Sending>, i: nat)
    requires Fits(a, api) && i < |log|
    requires Announces(a.reg.params, p, Content(w), writer, log)
    requires !Missed(a.reg.params, a.reg.nodes.Keys, p, Content(w), writer)
    ensures var c := log[i].reg.caller;
      c in a.reg.nodes && c in a.system.nodes && !Idle(a.system, c)
  {
    hide KeysOf, Due, Pending, Coming;
    var r := log[i].reg;
    assert Has(a.reg.params, log[i].key, r) && RightCall(log[i], p, Content(w), writer);
    assert Due(log[i].key, r.caller, p, Content(w), writer);
    assert (r.caller, Split(log[i].key)) in a.system.subs;
  }

  lemma ChangeOwed(a: Whole, api: string -> string, writer: string, p: Path, w: Change, log: seq<Sending>)
    requires Fits(a, api)
    requires if Private(p) then log == [] else Announces(a.reg.params, p, Content(w), writer, log)
    ensures AllOwed(log, p, w)
    ensures forall i :: 0 <= i < |log| ==> log[i].task == MasterApi.Encoded(Owed(Split(log[i].key), p, w).value)
    ensures !Private(p) ==> FanOut(a.system.subs, writer, p, w, MasterApi.Posts(log, p, w))
  {
    hide Owed, FanOut, Announces, MasterApi.Subscribed, MasterApi.OneApi, Fits;
    FitsOneApi(a, api);
    FitsSubscribed(a, api);
    if !Private(p) {
      MasterApi.AnnouncesFanOut(a.reg.params, a.system.subs, p, w, writer, log);
      forall i | 0 <= i < |log|
        ensures log[i].task == MasterApi.Encoded(Owed(Split(log[i].key), p, w).value)
      {
        MasterApi.Owing(a.reg.params, p, w, writer, log, i);
      }
    }
  }

  lemma FitsSubscribed(a: Whole, api: string -> string)
    requires Fits(a, api)
    ensures MasterApi.Subscribed(a.reg.params, a.system.subs)
  {
  }

  // A change is a write of the system.
  lemma ChangeIsStep(a: Whole, writer: string, key: string, w: Change, log: seq<Sending>, b: Whole,
                     api: string -> string)
    requires Fits(a, api) && ChangeFollows(a, writer, Split(key), w, log, b)
    ensures AllOwed(log, Split(key), w)
    ensures Next(a.system, Write(writer, Split(key), w, MasterApi.Posts(log, Split(key), w)), b.system)
  {
    hide Fits, Owed, FanOut, Announces, Missed, Changed, Mail, RefreshAll, Split;
    ChangeOwed(a, api, writer, Split(key), w, log);
  }

  lemma ChangePending(a: Whole, writer: string, p: Path, w: Change, log: seq<Sending>, b: Whole, api: string -> string,
                      c: string)
    requires Fits(a, api) && Segments(p) && ChangeFollows(a, writer, p, w, log, b)
    ensures Pending(b.reg, c) == Coming(b.system, c)
    ensures Idle(a.system, c) ==> Pending(b.reg, c) == []
  {
    hide Owed, FanOut, Announces, Missed, Changed, Mail, RefreshAll, MasterApi.Subscribed, Canonized, KeysOf, Tasks;
    hide KeysIn, Idle, Fits;
    ChangeOwed(a, api, writer, p, w, log);
    MailKeys(log, p, w, c);
    FitsPending(a, api, c);
    var mail := Mail(MasterApi.Posts(log, p, w), c);
    if i :| 0 <= i < |log| && log[i].reg.caller == c {
      SentTo(a, api, writer, p, w, log, i);
    }
    if c in a.reg.nodes {
      KeysConcat(a.reg.nodes[c].outbox, Tasks(log, c));
      NoKeys();
    }
    if c in a.system.nodes {
      RefreshedKeys(a.system.nodes[c].queue, p, w, mail);
      NoKeys();
    }
  }

  lemma NoKeys()
    ensures KeysOf([]) == [] && KeysIn([]) == []
  {
  }

  lemma FitsPending(a: Whole, api: string -> string, c: string)
    requires Fits(a, api)
    ensures Pending(a.reg, c) == Coming(a.system, c)
    ensures Idle(a.system, c) ==> Pending(a.reg, c) == []
  {
  }

  // Only what is queued differs.
  ghost predicate SameBut(s: State, t: State) {
    && t.services == s.services && t.publications == s.publications && t.subscriptions == s.subscriptions
    && t.params == s.params && RegistryRuns.SameRecords(s, t)
  }

  lemma StillCanonized(s: State, t: State, api: string -> string)
    requires Canonized(s, api) && SameBut(s, t)
    ensures Canonized(t, api)
  {
    var claims :| RegistryLifetimes.Canon(s, claims, api);
    assert RegistryLifetimes.CanonNodes(t, claims, api);
    forall c, k, n | c in t.nodes
      ensures n in Held(t.nodes[c], k) <==> RegistryLifetimes.Claim(k, n, c) in claims
    {
      assert Held(t.nodes[c], k) == Held(s.nodes[c], k);
    }
    assert forall k :: RegistryLifetimes.IndexOf(t, k) == RegistryLifetimes.IndexOf(s, k);
    assert RegistryLifetimes.CanonIndexes(t, claims, api) && RegistryLifetimes.CanonRecords(t, claims);
    assert RegistryLifetimes.Canon(t, claims, api);
  }

  lemma ChangeFits(a: Whole, writer: string, p: Path, w: Change, log: seq<Sending>, b: Whole, api: string -> string)
    requires Fits(a, api) && Segments(p) && ChangeFollows(a, writer, p, w, log, b)
    ensures Fits(b, api)
  {
    hide Canonized, MasterApi.Subscribed, Pending, Coming, KeysOf, Announces, Missed, Changed, AllOwed;
    hide Mail, RefreshAll, Tasks;
    StillCanonized(a.reg, b.reg, api);
    forall c
      ensures Pending(b.reg, c) == Coming(b.system, c)
      ensures Idle(b.system, c) ==> Pending(b.reg, c) == []
    {
      ChangePending(a, writer, p, w, log, b, api, c);
      assert Idle(b.system, c) ==> Idle(a.system, c);
    }
  }

  // ----- calls -----

  lemma OneApiOnRecord(s: State, op: Op, api: string -> string)
    requires Canonized(s, api) && RegistryLifetimes.Faithful(op, api) && Registers(op) && op.caller in s.nodes
    ensures s.nodes[op.caller].api == op.api
  {
  }

  lemma CallCanonized(s: State, op: Op, api: string -> string)
    requires Canonized(s, api) && RegistryLifetimes.Faithful(op, api)
    ensures Canonized(Apply(s, op), api)
  {
    hide RegistryLifetimes.Canon, Apply;
    var claims :| RegistryLifetimes.Canon(s, claims, api);
    RegistryLifetimes.OpCanon(s, claims, op, api);
  }

  // A call that leaves queues undisturbed, and whose dropped records belong to nobody who
  // is subscribed.
  lemma CallPending(a: Whole, op: Op, b: Whole, api: string -> string)
    requires Fits(a, api) && b.reg == Apply(a.reg, op) && RegistryLifetimes.Faithful(op, api)
    requires Canonized(b.reg, api) && MasterApi.Subscribed(b.reg.params, b.system.subs)
    requires forall c :: Coming(b.system, c) == Coming(a.system, c)
    requires a.system.subs <= b.system.subs
    ensures forall c :: Pending(b.reg, c) == Coming(b.system, c)
    ensures forall c :: Idle(b.system, c) ==> Pending(b.reg, c) == []
    ensures forall i :: 0 <= i < |b.reg.retired| ==> KeysOf(b.reg.retired[i].outbox) == []
  {
    hide Apply, KeysOf, MasterApi.Subscribed, Canonized, Coming;
    var s, t := a.reg, b.reg;
    if Registers(op) && op.caller in s.nodes {
      OneApiOnRecord(s, op, api);
    }
    CallUndisturbed(s, op);
    forall c | c !in t.nodes
      ensures Pending(s, c) == []
    {
      GoneIdle(t, api, b.system.subs, b.system, c);
      assert Idle(a.system, c);
    }
    forall c
      ensures Pending(t, c) == Pending(s, c)
    {
    }
    forall c | Idle(b.system, c)
      ensures Pending(t, c) == []
    {
      assert Idle(a.system, c);
    }
    forall i | 0 <= i < |t.retired|
      ensures KeysOf(t.retired[i].outbox) == []
    {
      if i < |s.retired| {
        assert t.retired[i] == s.retired[i];
      } else {
        assert Dropped(s, t, t.retired[i]);
      }
    }
  }

  lemma OtherParams(s: State, op: Op)
    requires Other(op)
    ensures Apply(s, op).params == s.params
  {
    hide Enroll, Notify, Release, CheckTopic, TypeTopic, Discard, Add, Canonical;
    match op
    case RegService(_, c, api, _, log) => MasterApi.EnrollParams(s, c, api, log);
    case UnregService(n, c) => ReleaseParams(s.(services := s.services - {n}), c, Service, n);
    case RegSubscriber(t, ty, c, api, log) =>
      MasterApi.EnrollParams(TypeTopic(s, t, ty), c, api, log);
      TypeParams(s, t, ty);
    case UnregSubscriber(t, c, api) =>
      var s1 := s.(subscriptions := Discard(s.subscriptions, t, Registration(c, api)));
      ReleaseParams(s1, c, Subscription, t);
      CheckParams(Release(s1, c, Subscription, t), t);
    case RegPublisher(t, ty, c, api, log, list) =>
      MasterApi.EnrollParams(TypeTopic(s, t, ty), c, api, log);
      TypeParams(s, t, ty);
      RegistryRuns.NotifyBooks(AddPublisher(s, t, ty, c, api, log), t, list);
    case UnregPublisher(t, c, api, list) =>
      var s1 := s.(publications := Discard(s.publications, t, Registration(c, api)));
      ReleaseParams(s1, c, Publication, t);
      CheckParams(Release(s1, c, Publication, t), t);
      RegistryRuns.NotifyBooks(DropPublisher(s, t, c, api), t, list);
    case RegParam(_, _, _, _) =>
  }

  lemma ReleaseParams(s: State, c: string, k: Kind, name: string)
    ensures Release(s, c, k, name).params == s.params
  {
  }

  lemma TypeParams(s: State, topic: string, topicType: string)
    ensures TypeTopic(s, topic, topicType).params == s.params
  {
  }

  lemma CheckParams(s: State, topic: string)
    ensures CheckTopic(s, topic).params == s.params
  {
  }

  lemma CallFits(a: Whole, op: Op, b: Whole, api: string -> string)
    requires Fits(a, api) && Other(op) && b == Whole(a.system, Apply(a.reg, op)) && RegistryLifetimes.Faithful(op, api)
    ensures Fits(b, api)
  {
    hide Apply, Canonized, MasterApi.Subscribed, KeysOf, Pending, Coming, Other, Idle;
    CallCanonized(a.reg, op, api);
    OtherParams(a.reg, op);
    CallPending(a, op, b, api);
  }

  lemma AskFits(a: Whole, op: Op, b: Whole, api: string -> string)
    requires Fits(a, api) && AskFollows(a, op, b) && RegistryLifetimes.Faithful(op, api)
    ensures Fits(b, api) && Next(a.system, Subscribe(op.caller, Split(op.key)), b.system)
  {
    hide Apply, Canonized, MasterApi.Subscribed, KeysOf, Pending, Idle, Split, Canonical, NodeCache.Covering, Reply;
    CallCanonized(a.reg, op, api);
    AskParams(a.reg, op);
    MasterApi.SubscribedMore(a.reg.params, a.system.subs, Split(op.key), Registration(op.caller, op.api));
    forall c
      ensures Coming(b.system, c) == Coming(a.system, c)
    {
    }
    CallPending(a, op, b, api);
  }

  lemma AskParams(s: State, op: Op)
    requires op.RegParam? && Canonical(op.key).Ok?
    ensures !Private(Split(op.key)) && Segments(Split(op.key))
    ensures Apply(s, op).params == Add(s.params, Key(Split(op.key)), Registration(op.caller, op.api))
  {
    hide Enroll, Hold, Add, Canonical, Split;
    CanonicalKey(op.key);
    MasterApi.ParamFiled(s, op.key, op.caller, op.api, op.log);
  }

  // ----- deliveries -----

  lemma HeadKey(queue: seq<Task>)
    requires queue != []
    ensures KeysOf(queue) == (if queue[0].ParamUpdate? then [Split(queue[0].key)] else []) + KeysOf(queue[1..])
  {
  }

  lemma ServePending(a: Whole, l: PublisherQueues.Line, lost: bool, b: Whole, api: string -> string)
    requires Fits(a, api) && ServeFollows(a, l, lost, b)
    ensures var task := PublisherQueues.RecordOf(a.reg, l).outbox[0];
      task.ParamUpdate? ==>
        && l.Live? && l.caller in a.system.nodes && a.system.nodes[l.caller].queue != []
        && a.system.nodes[l.caller].queue[0].key == Split(task.key)
  {
    hide Split, KeysOf, Canonized, MasterApi.Subscribed, Next, PublisherQueues.Pop;
    var queue := PublisherQueues.RecordOf(a.reg, l).outbox;
    HeadKey(queue);
    if l.Retired? {
      assert KeysOf(a.reg.retired[l.at].outbox) == [];
    } else if queue[0].ParamUpdate? {
      assert Pending(a.reg, l.caller) == KeysOf(queue);
      assert Coming(a.system, l.caller)[0] == Split(queue[0].key);
    }
  }

  lemma PopKeys(s: State, l: PublisherQueues.Line)
    requires PublisherQueues.There(s, l) && PublisherQueues.RecordOf(s, l).outbox != []
    ensures var t, queue := PublisherQueues.Pop(s, l), PublisherQueues.RecordOf(s, l).outbox;
      && SameBut(s, t) && |t.retired| == |s.retired|
      && (forall c :: Pending(t, c) == if l == PublisherQueues.Live(c) then KeysOf(queue[1..]) else Pending(s, c))
      && (forall i :: 0 <= i < |s.retired| ==>
            KeysOf(t.retired[i].outbox) ==
            if l == PublisherQueues.Retired(i) then KeysOf(queue[1..]) else KeysOf(s.retired[i].outbox))
  {
    hide KeysOf;
  }

  lemma TakenKeys(a: System, c: string, lost: bool, b: System)
    requires Next(a, if lost then Lose(c) else Deliver(c), b)
    ensures b.subs == a.subs && b.nodes.Keys == a.nodes.Keys && c in a.nodes && a.nodes[c].queue != []
    ensures forall d :: Coming(b, d) == if d == c then Coming(a, c)[1..] else Coming(a, d)
  {
    var q := a.nodes[c].queue;
    assert KeysIn(q)[1..] == KeysIn(q[1..]);
  }

  // The step of the system, if any.
  ghost function StepOf(a: Whole, e: Event): Option<Step> {
    match e
    case Changes(writer, key, w, log) =>
      if AllOwed(log, Split(key), w)
      then Some(Write(writer, Split(key), w, MasterApi.Posts(log, Split(key), w)))
      else None
    case Asks(op) => if op.RegParam? then Some(Subscribe(op.caller, Split(op.key))) else None
    case Calls(_) => None
    case Serves(l, lost) =>
      if PublisherQueues.There(a.reg, l) && l.Live? && PublisherQueues.RecordOf(a.reg, l).outbox != [] &&
         PublisherQueues.RecordOf(a.reg, l).outbox[0].ParamUpdate?
      then Some(if lost then Lose(l.caller) else Deliver(l.caller))
      else None
  }

  ghost predicate Does(a: System, step: Option<Step>, b: System) {
    if step == None then b == a else Next(a, step.value, b)
  }

  lemma ServeFits(a: Whole, l: PublisherQueues.Line, lost: bool, b: Whole, api: string -> string)
    requires Fits(a, api) && ServeFollows(a, l, lost, b)
    ensures Fits(b, api) && Does(a.system, StepOf(a, Serves(l, lost)), b.system)
  {
    hide Split, KeysOf, Canonized, MasterApi.Subscribed, Next, PublisherQueues.Pop, Pending, Coming, Idle;
    var queue := PublisherQueues.RecordOf(a.reg, l).outbox;
    ServePending(a, l, lost, b, api);
    HeadKey(queue);
    PopKeys(a.reg, l);
    StillCanonized(a.reg, b.reg, api);
    if l.Live? {
      OnRecord(a.reg, l.caller);
    }
    if queue[0].ParamUpdate? {
      TakenKeys(a.system, l.caller, lost, b.system);
      SameSubs(a.system, b.system);
      FitsPending(a, api, l.caller);
      assert KeysOf(queue)[1..] == KeysOf(queue[1..]);
    } else {
      assert [] + KeysOf(queue[1..]) == KeysOf(queue[1..]);
    }
  }

  lemma SameSubs(a: System, b: System)
    requires b.subs == a.subs
    ensures forall c :: Idle(b, c) <==> Idle(a, c)
  {
  }

  lemma OnRecord(s: State, c: string)
    requires c in s.nodes
    ensures Pending(s, c) == KeysOf(s.nodes[c].outbox)
  {
  }

  // ----- runs -----

  lemma EventFits(a: Whole, e: Event, b: Whole, api: string -> string)
    requires Fits(a, api) && Follows(a, e, b) && Keeps(e, api)
    ensures Fits(b, api) && Does(a.system, StepOf(a, e), b.system)
  {
    hide Fits, ChangeFollows, AskFollows, ServeFollows, Other, Next, Apply, AllOwed, Split;
    match e
    case Changes(writer, key, w, log) =>
      ChangeFits(a, writer, Split(key), w, log, b, api);
      ChangeIsStep(a, writer, key, w, log, b, api);
    case Asks(op) =>
      AskFits(a, op, b, api);
      Asked(a, op, b);
    case Calls(op) => CallFits(a, op, b, api);
    case Serves(l, lost) => ServeFits(a, l, lost, b, api);
  }

  lemma Asked(a: Whole, op: Op, b: Whole)
    requires AskFollows(a, op, b)
    ensures op.RegParam?
  {
  }

  lemma StartFits(a: Whole, api: string -> string)
    requires Init(a.system) && a.reg == START
    ensures Fits(a, api)
  {
    assert RegistryLifetimes.Canon(START, {}, api);
    forall c
      ensures Pending(a.reg, c) == [] && Coming(a.system, c) == []
    {
    }
  }

  // Every event of the master is a step of the system, or does not concern it.
  lemma {:induction false} RunFits(wholes: seq<Whole>, events: seq<Event>, api: string -> string, n: nat)
    requires MasterRun(wholes, events, api) && n <= |events|
    ensures Fits(wholes[n], api)
    ensures n < |events| ==> Does(wholes[n].system, StepOf(wholes[n], events[n]), wholes[n + 1].system)
    decreases n
  {
    hide Fits, Follows, Keeps, Does, StepOf;
    if n > 0 {
      RunFits(wholes, events, api, n - 1);
      EventFits(wholes[n - 1], events[n - 1], wholes[n], api);
    } else {
      StartFits(wholes[0], api);
    }
    if n < |events| {
      EventFits(wholes[n], events[n], wholes[n + 1], api);
    }
  }

  // Until then c changes no parameter.
  predicate Reader(events: seq<Event>, c: string, n: nat)
    requires n <= |events|
  {
    forall i :: 0 <= i < n && events[i].Changes? ==> events[i].writer != c
  }

  lemma ReaderStep(a: Whole, e: Event, c: string)
    requires e.Changes? ==> e.writer != c
    ensures StepOf(a, e).Some? && StepOf(a, e).value.Write? ==> StepOf(a, e).value.writer != c
  {
  }

  lemma {:induction false} RunReferring(wholes: seq<Whole>, events: seq<Event>, api: string -> string, c: string,
                                        n: nat)
    requires MasterRun(wholes, events, api) && c in wholes[0].system.nodes && n <= |events| && Reader(events, c, n)
    ensures Attuned(wholes[n].system, c) && Referring(wholes[n].system, c)
    decreases n
  {
    hide Follows, Keeps, Fits, StepOf, Next, Attuned, Referring;
    if n > 0 {
      var a, b := wholes[n - 1], wholes[n];
      RunReferring(wholes, events, api, c, n - 1);
      RunFits(wholes, events, api, n - 1);
      ReaderStep(a, events[n - 1], c);
      var step := StepOf(a, events[n - 1]);
      if step.Some? {
        AttunedOnRecord(a.system, c);
        AttunedNext(a.system, step.value, b.system, c);
        AttunedOnRecord(b.system, c);
        ReferringNext(a.system, step.value, b.system, c);
      }
    } else {
      StartAttuned(wholes[0].system, c);
    }
  }

  // As in Coherence.Spared: what happens to the leaf from where c has not asked for it, or
  // is told of it.
  ghost predicate LeafSpared(wholes: seq<Whole>, events: seq<Event>, c: string, from: nat, n: nat, q: Path)
    requires from <= n <= |events| < |wholes|
  {
    && (Unasked(wholes[from].system, c, q) || (from < n && Tells(wholes[from], events[from], c, q)))
    && forall i :: from <= i < n ==> EventSpares(wholes[i], events[i], c, q)
  }

  ghost predicate Tells(a: Whole, e: Event, c: string, q: Path) {
    StepOf(a, e).Some? && Restores(a.system, StepOf(a, e).value, c, q)
  }

  ghost predicate EventSpares(a: Whole, e: Event, c: string, q: Path) {
    StepOf(a, e).Some? ==> c in a.system.nodes && Spares(a.system, StepOf(a, e).value, c, q)
  }

  lemma {:induction false} MasterCoherent(wholes: seq<Whole>, events: seq<Event>, api: string -> string, c: string,
                                          from: nat, n: nat, q: Path)
    requires MasterRun(wholes, events, api) && c in wholes[0].system.nodes && from <= n <= |events|
    requires Reader(events, c, n) && LeafSpared(wholes, events, c, from, n, q)
    ensures CoherentAt(wholes[n].system, c, q)
    decreases n
  {
    hide Follows, Keeps, Fits, StepOf, Next, Attuned, Referring, CoherentAt, Restores, Spares;
    if n == from {
      RunReferring(wholes, events, api, c, n);
      UnaskedCoherent(wholes[n].system, c, q);
    } else {
      var a, b, step := wholes[n - 1], wholes[n], StepOf(wholes[n - 1], events[n - 1]);
      RunReferring(wholes, events, api, c, n - 1);
      RunFits(wholes, events, api, n - 1);
      ReaderStep(a, events[n - 1], c);
      if Tells(a, events[n - 1], c, q) {
        WritesAlone(step.value, a.system, c, q);
        RestoredNext(a.system, step.value, b.system, c, q);
      } else {
        MasterCoherent(wholes, events, api, c, from, n - 1, q);
        assert EventSpares(a, events[n - 1], c, q);
        if step.Some? {
          CoherentNext(a.system, step.value, b.system, c, q);
        }
      }
    }
  }

  // Over every run of the master: once no update of a parameter is queued in the registry
  // for a subscriber that does not write, its cache has the master's leaf at every path
  // below the subscription that has been spared.
  lemma MasterMirrors(wholes: seq<Whole>, events: seq<Event>, api: string -> string, c: string, from: nat, n: nat,
                      s: Path, q: Path)
    requires MasterRun(wholes, events, api) && c in wholes[0].system.nodes && from <= n <= |events|
    requires Reader(events, c, n) && LeafSpared(wholes, events, c, from, n, q)
    requires Segments(s) && s <= q && Has(wholes[n].reg.params, Key(s), Registration(c, api(c)))
    requires Pending(wholes[n].reg, c) == []
    ensures c in wholes[n].system.nodes
    ensures var n := wholes[n]; var cache := n.system.nodes[c].cache;
      && NodeCache.Entry(cache, s).Some?
      && LeafAt(NodeCache.Entry(cache, s).value, q[|s|..]) == LeafAt(n.system.tree, q)
  {
    hide Follows, Keeps, LeafSpared, Pending, Canonized, KeysOf, Attuned;
    var a := wholes[n];
    RunFits(wholes, events, api, n);
    MasterCoherent(wholes, events, api, c, from, n, q);
    SplitKey(s);
    assert (c, s) in a.system.subs;
    assert |KeysIn(a.system.nodes[c].queue)| == 0;
    CoherentLeaf(a.system, c, s, q);
  }

  lemma CoherentLeaf(a: System, c: string, s: Path, q: Path)
    requires CoherentAt(a, c, q) && (c, s) in a.subs && s <= q && a.nodes[c].queue == []
    ensures NodeCache.Entry(a.nodes[c].cache, s).Some?
    ensures LeafAt(NodeCache.Entry(a.nodes[c].cache, s).value, q[|s|..]) == LeafAt(a.tree, q)
  {
    assert AgreesAt(a, c, s, q);
  }
}
