// What the registry holds as a function of the outstanding registrations, when every
// caller keeps one API.
module RegistryLifetimes {
  import opened Outcomes
  import opened Names
  import opened Registrations
  import opened RegistryRuns
  import TopicTypes

  // An outstanding registration of a caller.
  datatype Claim = Claim(kind: Kind, name: string, caller: string)

  function IndexOf(s: State, k: Kind): Index {
    match k
    case Service => map[]
    case Publication => s.publications
    case Subscription => s.subscriptions
    case Param => s.params
  }

  function ClaimOf(op: Op): Option<Claim> {
    match op
    case RegService(n, c, _, _, _) => Some(Claim(Service, n, c))
    case UnregService(n, c) => Some(Claim(Service, n, c))
    case RegSubscriber(t, _, c, _, _) => Some(Claim(Subscription, t, c))
    case UnregSubscriber(t, c, _) => Some(Claim(Subscription, t, c))
    case RegPublisher(t, _, c, _, _, _) => Some(Claim(Publication, t, c))
    case UnregPublisher(t, c, _, _) => Some(Claim(Publication, t, c))
    case RegParam(k, c, _, _) => if Canonical(k).Ok? then Some(Claim(Param, Canonical(k).value, c)) else None
    case UnregParam(k, c, _) => if Canonical(k).Ok? then Some(Claim(Param, Canonical(k).value, c)) else None
  }

  // A call registers or withdraws one claim.
  function Outstanding(claims: set<Claim>, op: Op): set<Claim> {
    if ClaimOf(op) == None then claims
    else if Registers(op) then claims + {ClaimOf(op).value}
    else claims - {ClaimOf(op).value}
  }

  // The caller always comes with the API it is known for.
  predicate Faithful(op: Op, api: string -> string) {
    op.UnregService? || op.api == api(op.caller)
  }

  ghost predicate Claims(claims: set<Claim>, c: string) {
    exists x :: x in claims && x.caller == c
  }

  // The registry is the one the outstanding claims call for.
  ghost predicate Canon(s: State, claims: set<Claim>, api: string -> string) {
    CanonNodes(s, claims, api) && CanonRecords(s, claims) && CanonIndexes(s, claims, api)
  }

  ghost predicate CanonNodes(s: State, claims: set<Claim>, api: string -> string) {
    && (forall c :: c in s.nodes <==> Claims(claims, c))
    && (forall c :: c in s.nodes ==> s.nodes[c].api == api(c))
  }

  ghost predicate CanonRecords(s: State, claims: set<Claim>) {
    forall c, k, n :: c in s.nodes ==> (n in Held(s.nodes[c], k) <==> Claim(k, n, c) in claims)
  }

  ghost predicate CanonIndexes(s: State, claims: set<Claim>, api: string -> string) {
    && (forall k, n, r :: k != Service ==>
          (Has(IndexOf(s, k), n, r) <==> Claim(k, n, r.caller) in claims && r.api == api(r.caller)))
    && (forall k, n :: n in IndexOf(s, k) ==> IndexOf(s, k)[n] != {})
  }

  // ----- steps on claims -----

  type Records = map<string, Record>

  // The record of a caller gains a name; the others keep all but their queues.
  ghost predicate RecordGained(a: Records, b: Records, x: Claim, api: string) {
    && b.Keys == a.Keys + {x.caller}
    && b[x.caller].api == api
    && (forall d :: d in a && d != x.caller ==> b[d] == a[d].(outbox := b[d].outbox))
    && (forall k, n :: n in Held(b[x.caller], k) <==>
          (k == x.kind && n == x.name) || (x.caller in a && n in Held(a[x.caller], k)))
  }

  // Only the index of that kind changes.
  ghost predicate OthersKept(s: State, t: State, kind: Kind) {
    forall k :: k != Service && k != kind ==> IndexOf(t, k) == IndexOf(s, k)
  }

  ghost predicate Gained(s: State, t: State, x: Claim, api: string -> string) {
    && RecordGained(s.nodes, t.nodes, x, api(x.caller))
    && OthersKept(s, t, x.kind)
    && (x.kind != Service ==>
          IndexOf(t, x.kind) == Add(IndexOf(s, x.kind), x.name, Registration(x.caller, api(x.caller))))
  }

  lemma GainedNodes(s: State, t: State, claims: set<Claim>, x: Claim, api: string -> string)
    requires CanonNodes(s, claims, api) && RecordGained(s.nodes, t.nodes, x, api(x.caller))
    ensures CanonNodes(t, claims + {x}, api)
  {
    forall c
      ensures Claims(claims + {x}, c) <==> Claims(claims, c) || c == x.caller
    {
      assert x in claims + {x};
      if y :| y in claims && y.caller == c {
        assert y in claims + {x};
      }
    }
  }

  lemma GainedIndexes(s: State, t: State, claims: set<Claim>, x: Claim, api: string -> string)
    requires CanonIndexes(s, claims, api) && Gained(s, t, x, api)
    ensures CanonIndexes(t, claims + {x}, api)
  {
    hide RecordGained;
    forall k, n, r | k != Service
      ensures Has(IndexOf(t, k), n, r) <==> Claim(k, n, r.caller) in claims + {x} && r.api == api(r.caller)
    {
      AddAt(IndexOf(s, k), x.name, Registration(x.caller, api(x.caller)));
      assert Has(IndexOf(s, k), n, r) <==> Claim(k, n, r.caller) in claims && r.api == api(r.caller);
    }
    forall k, n | n in IndexOf(t, k)
      ensures IndexOf(t, k)[n] != {}
    {
      if n in IndexOf(s, k) {
        assert IndexOf(s, k)[n] != {};
      }
    }
  }

  lemma GainedCanon(s: State, t: State, claims: set<Claim>, x: Claim, api: string -> string)
    requires Canon(s, claims, api) && Gained(s, t, x, api)
    ensures Canon(t, claims + {x}, api)
  {
    hide CanonIndexes;
    GainedNodes(s, t, claims, x, api);
    GainedIndexes(s, t, claims, x, api);
    forall c, k, n | c in t.nodes
      ensures n in Held(t.nodes[c], k) <==> Claim(k, n, c) in claims + {x}
    {
      if c in s.nodes {
        assert n in Held(s.nodes[c], k) <==> Claim(k, n, c) in claims;
      } else {
        assert Claim(k, n, c) in claims ==> Claims(claims, c);
      }
    }
  }

  // The record of a caller loses a name, and goes with the last one.
  ghost predicate RecordLost(a: Records, b: Records, x: Claim) {
    && (forall d :: d in b ==> d in a)
    && (forall d :: d in a && d != x.caller ==> d in b && b[d] == a[d].(outbox := b[d].outbox))
    && (x.caller in a ==>
          (x.caller in b <==> exists k, n :: n in Held(a[x.caller], k) && !(k == x.kind && n == x.name)))
    && (x.caller in b ==>
          && b[x.caller].api == a[x.caller].api
          && forall k, n :: n in Held(b[x.caller], k) <==> n in Held(a[x.caller], k) && !(k == x.kind && n == x.name))
  }

  ghost predicate Lost(s: State, t: State, x: Claim, api: string -> string) {
    && RecordLost(s.nodes, t.nodes, x)
    && OthersKept(s, t, x.kind)
    && (x.kind != Service ==>
          IndexOf(t, x.kind) == Discard(IndexOf(s, x.kind), x.name, Registration(x.caller, api(x.caller))))
  }

  lemma LostNodes(s: State, t: State, claims: set<Claim>, x: Claim, api: string -> string)
    requires Canon(s, claims, api) && Lost(s, t, x, api)
    ensures CanonNodes(t, claims - {x}, api)
  {
    forall c
      ensures c in t.nodes <==> Claims(claims - {x}, c)
    {
      LostOther(claims, x, c);
      if c == x.caller && c in s.nodes {
        if k, n :| n in Held(s.nodes[c], k) && !(k == x.kind && n == x.name) {
          assert Claim(k, n, c) in claims - {x};
        }
        if y :| y in claims - {x} && y.caller == c {
          assert y == Claim(y.kind, y.name, c);
          assert y.name in Held(s.nodes[c], y.kind);
        }
      }
    }
  }

  lemma LostIndexes(s: State, t: State, claims: set<Claim>, x: Claim, api: string -> string)
    requires CanonIndexes(s, claims, api) && Lost(s, t, x, api)
    ensures CanonIndexes(t, claims - {x}, api)
  {
    forall k, n, r | k != Service
      ensures Has(IndexOf(t, k), n, r) <==> Claim(k, n, r.caller) in claims - {x} && r.api == api(r.caller)
    {
      DiscardAt(IndexOf(s, k), x.name, Registration(x.caller, api(x.caller)));
      assert Has(IndexOf(s, k), n, r) <==> Claim(k, n, r.caller) in claims && r.api == api(r.caller);
    }
    forall k, n | n in IndexOf(t, k)
      ensures IndexOf(t, k)[n] != {}
    {
      assert n in IndexOf(s, k) && IndexOf(s, k)[n] != {};
    }
  }

  lemma LostCanon(s: State, t: State, claims: set<Claim>, x: Claim, api: string -> string)
    requires Canon(s, claims, api) && Lost(s, t, x, api)
    ensures Canon(t, claims - {x}, api)
  {
    LostNodes(s, t, claims, x, api);
    LostIndexes(s, t, claims, x, api);
    forall c, k, n | c in t.nodes
      ensures n in Held(t.nodes[c], k) <==> Claim(k, n, c) in claims - {x}
    {
      assert n in Held(s.nodes[c], k) <==> Claim(k, n, c) in claims;
    }
  }

  lemma LostOther(claims: set<Claim>, x: Claim, c: string)
    ensures Claims(claims - {x}, c) ==> Claims(claims, c)
    ensures c != x.caller ==> (Claims(claims - {x}, c) <==> Claims(claims, c))
  {
    if y :| y in claims && y.caller == c {
      assert c != x.caller ==> y in claims - {x};
    }
  }

  // ----- the calls -----

  // Without a change of API nobody is taken over.
  function Steady(s: State, c: string, api: string): State {
    if c in s.nodes then s else Fresh(s, c, api)
  }

  lemma EnrollSteady(s: State, c: string, api: string, log: seq<Withdrawal>)
    requires c in s.nodes ==> s.nodes[c].api == api
    ensures Enroll(s, c, api, log) == Steady(s, c, api)
  {
  }

  lemma HoldGains(s: State, c: string, api: string, k: Kind, name: string)
    requires c in s.nodes ==> s.nodes[c].api == api
    ensures var t := Hold(Steady(s, c, api), c, k, name);
      RecordGained(s.nodes, t.nodes, Claim(k, name, c), api) && t == s.(nodes := t.nodes)
  {
  }

  // An index that gains the registration if it is the one of the claim's kind.
  ghost predicate IndexGained(a: Index, b: Index, kind: Kind, x: Claim, api: string) {
    b == if x.kind == kind then Add(a, x.name, Registration(x.caller, api)) else a
  }

  lemma AllGained(s: State, t: State, x: Claim, api: string -> string)
    requires RecordGained(s.nodes, t.nodes, x, api(x.caller))
    requires IndexGained(s.subscriptions, t.subscriptions, Subscription, x, api(x.caller))
    requires IndexGained(s.publications, t.publications, Publication, x, api(x.caller))
    requires IndexGained(s.params, t.params, Param, x, api(x.caller))
    ensures Gained(s, t, x, api)
  {
    hide RecordGained, Add;
  }

  lemma ServiceGains(s: State, op: Op, api: string -> string)
    requires op.RegService? && Faithful(op, api) && (op.caller in s.nodes ==> s.nodes[op.caller].api == op.api)
    ensures Gained(s, Apply(s, op), ClaimOf(op).value, api)
  {
    hide Enroll, Steady, Hold, RecordGained;
    EnrollSteady(s, op.caller, op.api, op.log);
    HoldGains(s, op.caller, op.api, Service, op.name);
  }

  lemma SubscriberGains(s: State, op: Op, api: string -> string)
    requires op.RegSubscriber? && Faithful(op, api) && (op.caller in s.nodes ==> s.nodes[op.caller].api == op.api)
    ensures Gained(s, Apply(s, op), ClaimOf(op).value, api)
  {
    hide Enroll, Hold, Add, RecordGained, Gained;
    var t := TypeTopic(s, op.topic, op.topicType);
    EnrollSteady(t, op.caller, op.api, op.log);
    HoldGains(t, op.caller, op.api, Subscription, op.topic);
    AllGained(s, Apply(s, op), ClaimOf(op).value, api);
  }

  lemma PublisherGains(s: State, op: Op, api: string -> string)
    requires op.RegPublisher? && Faithful(op, api) && (op.caller in s.nodes ==> s.nodes[op.caller].api == op.api)
    ensures Gained(s, Apply(s, op), ClaimOf(op).value, api)
  {
    hide Enroll, Hold, Add, Notify, RecordGained, Gained;
    var t := TypeTopic(s, op.topic, op.topicType);
    EnrollSteady(t, op.caller, op.api, op.log);
    HoldGains(t, op.caller, op.api, Publication, op.topic);
    var u := AddPublisher(s, op.topic, op.topicType, op.caller, op.api, op.log);
    AllGained(s, u, ClaimOf(op).value, api);
    NotifyBooks(u, op.topic, op.list);
    GainedBooks(s, u, Apply(s, op), ClaimOf(op).value, api);
  }

  lemma GainedBooks(s: State, t: State, u: State, x: Claim, api: string -> string)
    requires Gained(s, t, x, api) && SameBooks(t, u)
    ensures Gained(s, u, x, api)
  {
    assert forall k :: IndexOf(u, k) == IndexOf(t, k);
    assert forall k :: Held(u.nodes[x.caller], k) == Held(t.nodes[x.caller], k);
  }

  lemma ParamGains(s: State, op: Op, api: string -> string)
    requires op.RegParam? && ClaimOf(op).Some? && Faithful(op, api)
    requires op.caller in s.nodes ==> s.nodes[op.caller].api == op.api
    ensures Gained(s, Apply(s, op), ClaimOf(op).value, api)
  {
    hide Enroll, Steady, Hold, Add, Canonical, RecordGained;
    EnrollSteady(s, op.caller, op.api, op.log);
    HoldGains(s, op.caller, op.api, Param, Canonical(op.key).value);
  }

  // A record is dropped exactly when the name was the last it held.
  lemma LeftOver(r: Record, q: Record, kind: Kind, name: string)
    requires forall k, n :: n in Held(q, k) <==> n in Held(r, k) && !(k == kind && n == name)
    ensures Busy(q) <==> exists k, n :: n in Held(r, k) && !(k == kind && n == name)
  {
    if Busy(q) {
      var k :| Held(q, k) != {};
      var n :| n in Held(q, k);
    }
  }

  lemma ReleaseLoses(s: State, c: string, k: Kind, name: string)
    ensures var t := Release(s, c, k, name);
      RecordLost(s.nodes, t.nodes, Claim(k, name, c)) && t == s.(nodes := t.nodes, retired := t.retired)
  {
    if c in s.nodes {
      var r := s.nodes[c];
      LeftOver(r, Holding(r, k, Held(r, k) - {name}), k, name);
    }
  }

  lemma UnregisterLoses(s: State, op: Op, api: string -> string)
    requires !Registers(op) && ClaimOf(op).Some? && Faithful(op, api)
    ensures Lost(s, Apply(s, op), ClaimOf(op).value, api)
  {
    hide Release, Discard, Canonical, Notify, RecordLost;
    match op
    case UnregService(n, c) => ReleaseLoses(s.(services := s.services - {n}), c, Service, n);
    case UnregSubscriber(t, c, a) =>
      ReleaseLoses(s.(subscriptions := Discard(s.subscriptions, t, Registration(c, a))), c, Subscription, t);
    case UnregPublisher(t, c, a, list) =>
      PublisherLoses(s, t, c, a, api);
      NotifyBooks(DropPublisher(s, t, c, a), t, list);
      LostBooks(s, DropPublisher(s, t, c, a), Apply(s, op), ClaimOf(op).value, api);
    case UnregParam(key, c, a) =>
      var k := Canonical(key).value;
      ReleaseLoses(s.(params := Discard(s.params, k, Registration(c, a))), c, Param, k);
  }

  lemma PublisherLoses(s: State, topic: string, c: string, a: string, api: string -> string)
    requires a == api(c)
    ensures Lost(s, DropPublisher(s, topic, c, a), Claim(Publication, topic, c), api)
  {
    hide Release, Discard, RecordLost;
    ReleaseLoses(s.(publications := Discard(s.publications, topic, Registration(c, a))), c, Publication, topic);
  }

  lemma LostBooks(s: State, t: State, u: State, x: Claim, api: string -> string)
    requires Lost(s, t, x, api) && SameBooks(t, u)
    ensures Lost(s, u, x, api)
  {
    assert forall k :: IndexOf(u, k) == IndexOf(t, k);
    assert forall c, k :: c in t.nodes ==> Held(u.nodes[c], k) == Held(t.nodes[c], k);
  }

  // ----- runs -----

  function After(claims: set<Claim>, ops: seq<Op>): set<Claim>
    decreases |ops|
  {
    if ops == [] then claims else After(Outstanding(claims, ops[0]), ops[1..])
  }

  lemma OpCanon(s: State, claims: set<Claim>, op: Op, api: string -> string)
    requires Canon(s, claims, api) && Faithful(op, api)
    ensures Canon(Apply(s, op), Outstanding(claims, op), api)
  {
    hide Gained, Lost, CanonRecords, CanonIndexes, Canonical;
    if ClaimOf(op) == None {
      assert Apply(s, op) == s;
    } else if Registers(op) {
      match op {
        case RegService(_, _, _, _, _) => ServiceGains(s, op, api);
        case RegSubscriber(_, _, _, _, _) => SubscriberGains(s, op, api);
        case RegPublisher(_, _, _, _, _, _) => PublisherGains(s, op, api);
        case RegParam(_, _, _, _) => ParamGains(s, op, api);
      }
      GainedCanon(s, Apply(s, op), claims, ClaimOf(op).value, api);
    } else {
      UnregisterLoses(s, op, api);
      LostCanon(s, Apply(s, op), claims, ClaimOf(op).value, api);
    }
  }

  lemma {:induction false} AfterSnoc(claims: set<Claim>, ops: seq<Op>, op: Op)
    ensures After(claims, ops + [op]) == Outstanding(After(claims, ops), op)
    decreases |ops|
  {
    if ops == [] {
      assert ([] + [op])[1..] == [];
    } else {
      assert (ops + [op])[1..] == ops[1..] + [op];
      AfterSnoc(Outstanding(claims, ops[0]), ops[1..], op);
    }
  }

  // With one API per caller, every run leads to the registry of its outstanding claims.
  lemma {:induction false} RunCanon(states: seq<State>, ops: seq<Op>, api: string -> string, n: nat)
    requires CallRun(states, ops) && n <= |ops|
    requires forall i :: 0 <= i < |ops| ==> Faithful(ops[i], api)
    ensures Canon(states[n], After({}, ops[..n]), api)
    decreases n
  {
    hide Possible, OnRecord, Apply, Canon, Faithful, Outstanding;
    if n > 0 {
      RunCanon(states, ops, api, n - 1);
      OpCanon(states[n - 1], After({}, ops[..n - 1]), ops[n - 1], api);
      AfterSnoc({}, ops[..n - 1], ops[n - 1]);
      assert ops[..n] == ops[..n - 1] + [ops[n - 1]];
    } else {
      StartCanon(api);
    }
  }

  lemma StartCanon(api: string -> string)
    ensures Canon(START, {}, api)
  {
  }

  // The same claims, in whatever order they were made and withdrawn, give the same indexes
  // and the same nodes on record.
  lemma SameClaimsSameIndexes(s: State, t: State, claims: set<Claim>, api: string -> string)
    requires Canon(s, claims, api) && Canon(t, claims, api)
    ensures s.publications == t.publications && s.subscriptions == t.subscriptions && s.params == t.params
    ensures s.nodes.Keys == t.nodes.Keys
  {
    SameIndex(s, t, claims, api, Publication);
    SameIndex(s, t, claims, api, Subscription);
    SameIndex(s, t, claims, api, Param);
  }

  lemma SameIndex(s: State, t: State, claims: set<Claim>, api: string -> string, k: Kind)
    requires CanonIndexes(s, claims, api) && CanonIndexes(t, claims, api) && k != Service
    ensures IndexOf(s, k) == IndexOf(t, k)
  {
    var m, w := IndexOf(s, k), IndexOf(t, k);
    forall n, r
      ensures Has(m, n, r) <==> Has(w, n, r)
    {
    }
    forall n
      ensures n in m <==> n in w
    {
      if n in m {
        var r :| r in m[n];
        assert Has(m, n, r);
      }
      if n in w {
        var r :| r in w[n];
        assert Has(w, n, r);
      }
    }
    forall n | n in m
      ensures m[n] == w[n]
    {
      assert forall r :: r in m[n] <==> Has(m, n, r);
      assert forall r :: r in w[n] <==> Has(w, n, r);
    }
  }

  // Once everything registered has been withdrawn, nothing is left.
  lemma EmptyAgain(s: State, api: string -> string)
    requires Canon(s, {}, api)
    ensures s.publications == map[] && s.subscriptions == map[] && s.params == map[] && s.nodes == map[]
  {
    assert Canon(START, {}, api);
    SameClaimsSameIndexes(s, START, {}, api);
  }

  // Over every run: once all that was registered has been withdrawn, the registry is as it
  // was at the start, but for the retired records that are still being served.
  lemma RunEmpty(states: seq<State>, ops: seq<Op>, api: string -> string, n: nat)
    requires CallRun(states, ops) && n <= |ops|
    requires forall i :: 0 <= i < |ops| ==> Faithful(ops[i], api)
    requires After({}, ops[..n]) == {}
    ensures states[n] == START.(retired := states[n].retired)
  {
    hide Possible, OnRecord, Apply, Canon, Faithful, After;
    RunCanon(states, ops, api, n);
    EmptyAgain(states[n], api);
    RunAgrees(states, ops, n);
    TopicTypes.RunTypesLive(states, ops, n);
    NothingLeft(states[n]);
  }

  lemma NothingLeft(s: State)
    requires s.publications == map[] && s.subscriptions == map[] && s.nodes == map[]
    requires Agreement(s) && TopicTypes.TypesLive(s)
    ensures s.services == map[] && s.types == map[]
  {
    assert forall n :: n !in s.services;
    assert forall t :: t !in s.types;
  }

  // on_param_update looks up the node of every registered subscriber: it is there.
  lemma LookupsNeverMiss(s: State, claims: set<Claim>, api: string -> string)
    requires Canon(s, claims, api)
    ensures forall k, r :: Has(s.params, k, r) ==> r.caller in s.nodes
  {
    forall k, r | Has(s.params, k, r)
      ensures r.caller in s.nodes
    {
      assert Has(IndexOf(s, Param), k, r);
      assert Claim(Param, k, r.caller) in claims;
    }
  }
}
