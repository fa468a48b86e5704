// What on_param_update sends, registration by registration, and how its string tests on
// canonical keys decide it.
module Announcements {
  import opened Outcomes
  import opened Names
  import opened Trees
  import opened Registrations
  import opened Updates

  // One queued call, and the key and registration it is for.
  datatype Sending = Sending(key: string, reg: Registration, task: Task)

  // The calls for one node, in order.
  function Tasks(log: seq<Sending>, c: string): seq<Task>
    decreases |log|
  {
    if log == [] then []
    else
      var e := log[|log| - 1];
      Tasks(log[..|log| - 1], c) + if e.reg.caller == c then [e.task] else []
  }

  function Sent(s: State, log: seq<Sending>): State {
    s.(nodes := map c | c in s.nodes :: s.nodes[c].(outbox := s.nodes[c].outbox + Tasks(log, c)))
  }

  lemma SentNone(s: State)
    ensures Sent(s, []) == s
  {
    forall c | c in s.nodes
      ensures Sent(s, []).nodes[c] == s.nodes[c]
    {
      assert s.nodes[c].outbox + [] == s.nodes[c].outbox;
    }
    assert Sent(s, []).nodes == s.nodes;
  }

  lemma TasksMore(log: seq<Sending>, e: Sending, c: string)
    ensures Tasks(log + [e], c) == Tasks(log, c) + if e.reg.caller == c then [e.task] else []
  {
    var more := log + [e];
    assert more[..|more| - 1] == log && more[|more| - 1] == e;
  }

  lemma QueueMore(before: seq<Task>, log: seq<Sending>, e: Sending, c: string)
    ensures before + Tasks(log + [e], c) == before + Tasks(log, c) + if e.reg.caller == c then [e.task] else []
  {
    TasksMore(log, e, c);
  }

  lemma SentMore(s: State, log: seq<Sending>, e: Sending)
    ensures Sent(s, log + [e]) == Tell(Sent(s, log), e.reg.caller, e.task)
  {
    hide Tasks;
    var a, b := Sent(s, log + [e]), Tell(Sent(s, log), e.reg.caller, e.task);
    forall c | c in s.nodes
      ensures a.nodes[c] == b.nodes[c]
    {
      QueueMore(s.nodes[c].outbox, log, e, c);
      assert e.reg.caller != c ==> b.nodes[c] == Sent(s, log).nodes[c];
    }
    assert a.nodes == b.nodes;
  }

  // A registration filed under the key has something coming to it.
  predicate Due(key: string, caller: string, p: Path, x: Value, writer: string) {
    Owed(Split(key), p, Put(x)).Some? && Addressed(caller, Split(key), p, Put(x), writer)
  }

  function Call(key: string, p: Path, x: Value): Task
    requires Owed(Split(key), p, Put(x)).Some?
  {
    var m := Owed(Split(key), p, Put(x)).value;
    ParamUpdate(WireName(Key(m.key)), m.value)
  }

  ghost predicate Logged(log: seq<Sending>, key: string, r: Registration) {
    exists i :: 0 <= i < |log| && log[i].key == key && log[i].reg == r
  }

  predicate RightCall(e: Sending, p: Path, x: Value, writer: string) {
    Due(e.key, e.reg.caller, p, x, writer) && e.task == Call(e.key, p, x)
  }

  ghost predicate Distinct(log: seq<Sending>) {
    forall i, j :: 0 <= i < j < |log| ==> (log[i].key, log[i].reg) != (log[j].key, log[j].reg)
  }

  // Of the covered pairs, exactly those with something due have got one call, the right one.
  ghost predicate Covers(log: seq<Sending>, covered: set<(string, Registration)>, p: Path, x: Value, writer: string) {
    && Distinct(log)
    && (forall i :: 0 <= i < |log| ==> (log[i].key, log[i].reg) in covered && RightCall(log[i], p, x, writer))
    && (forall k, r :: (k, r) in covered && Due(k, r.caller, p, x, writer) ==> Logged(log, k, r))
  }

  // The whole fan-out: exactly one right call for each registration with something due.
  ghost predicate Announces(params: Index, p: Path, x: Value, writer: string, log: seq<Sending>) {
    && Distinct(log)
    && (forall i :: 0 <= i < |log| ==> Has(params, log[i].key, log[i].reg) && RightCall(log[i], p, x, writer))
    && (forall k, r :: Has(params, k, r) && Due(k, r.caller, p, x, writer) ==> Logged(log, k, r))
  }

  lemma AnnouncesNothing(p: Path, x: Value, writer: string)
    ensures Announces(map[], p, x, writer, [])
  {
  }

  // Somebody with something due is not on record: looking the node up fails.
  ghost predicate Missed(params: Index, known: set<string>, p: Path, x: Value, writer: string) {
    exists k, r :: Has(params, k, r) && Due(k, r.caller, p, x, writer) && r.caller !in known
  }

  lemma CoversNone(p: Path, x: Value, writer: string)
    ensures Covers([], {}, p, x, writer)
  {
  }

  lemma CoversIdle(log: seq<Sending>, covered: set<(string, Registration)>, p: Path, x: Value, writer: string,
                   idle: set<(string, Registration)>)
    requires Covers(log, covered, p, x, writer)
    requires forall k, r :: (k, r) in idle ==> !Due(k, r.caller, p, x, writer)
    ensures Covers(log, covered + idle, p, x, writer)
  {
    hide Due, RightCall;
  }

  lemma CoversAll(params: Index, log: seq<Sending>, covered: set<(string, Registration)>, p: Path, x: Value,
                  writer: string)
    requires Covers(log, covered, p, x, writer)
    requires forall k, r :: (k, r) in covered <==> Has(params, k, r)
    ensures Announces(params, p, x, writer, log)
  {
    hide Due, RightCall;
  }

  ghost predicate Found(log: seq<Sending>, known: set<string>) {
    forall i :: 0 <= i < |log| ==> log[i].reg.caller in known
  }

  lemma FoundAll(params: Index, known: set<string>, p: Path, x: Value, writer: string, log: seq<Sending>)
    requires Announces(params, p, x, writer, log) && Found(log, known)
    ensures !Missed(params, known, p, x, writer)
  {
    hide Due, RightCall;
    forall k, r | Has(params, k, r) && Due(k, r.caller, p, x, writer)
      ensures r.caller in known
    {
      assert Logged(log, k, r);
    }
  }

  lemma CoversSkip(log: seq<Sending>, covered: set<(string, Registration)>, p: Path, x: Value, writer: string,
                   k: string, r: Registration)
    requires Covers(log, covered, p, x, writer) && !Due(k, r.caller, p, x, writer)
    ensures Covers(log, covered + {(k, r)}, p, x, writer)
  {
    hide Due, RightCall;
  }

  lemma DueCall(k: string, r: Registration, p: Path, x: Value, writer: string)
    requires Due(k, r.caller, p, x, writer)
    ensures Owed(Split(k), p, Put(x)).Some? && RightCall(Sending(k, r, Call(k, p, x)), p, x, writer)
  {
  }

  lemma CoversMore(log: seq<Sending>, covered: set<(string, Registration)>, p: Path, x: Value, writer: string,
                   k: string, r: Registration)
    requires Covers(log, covered, p, x, writer) && (k, r) !in covered && Due(k, r.caller, p, x, writer)
    ensures Covers(log + [Sending(k, r, Call(k, p, x))], covered + {(k, r)}, p, x, writer)
  {
    hide Due, RightCall, Call, Owed;
    DueCall(k, r, p, x, writer);
    var e := Sending(k, r, Call(k, p, x));
    var more := log + [e];
    forall j, q | (j, q) in covered + {(k, r)} && Due(j, q.caller, p, x, writer)
      ensures Logged(more, j, q)
    {
      if (j, q) == (k, r) {
        assert more[|log|] == e;
      } else {
        var i :| 0 <= i < |log| && log[i].key == j && log[i].reg == q;
        assert more[i] == log[i];
      }
    }
  }

  // ----- the string tests -----

  // all_keys of on_param_update, empty for a non-dict.
  function KeysBelow(key: string, x: Value): set<string> {
    if x.Dict? then AllKeys(key, x) else {}
  }

  // A generated key whose path the value has nothing at: a name inside the value holds a
  // slash. The second loop raises when it follows that path.
  predicate Astray(k: string, p: Path, x: Value) {
    k in KeysBelow(Key(p), x) && p <= Split(k) && Lookup(x, Split(k)[|p|..]) == None
  }

  ghost predicate Misnamed(params: Index, p: Path, x: Value) {
    exists k :: k in params && Astray(k, p, x)
  }

  lemma WellNamedFinds(params: Index, p: Path, x: Value)
    requires WellNamed(x) && Segments(p) && forall k :: k in params ==> k == Key(Split(k))
    ensures !Misnamed(params, p, x)
  {
    hide Split, WellNamed, Lookup;
    forall k | k in params && k in KeysBelow(Key(p), x)
      ensures !Astray(k, p, x)
    {
      AllKeysExact(p, x, Split(k));
    }
  }

  // {"a/b": 1} written at the root goes astray for a subscription to /a/b.
  lemma SlashAstray()
    ensures Astray("/a/b/", [], Dict(map["a/b" := Int(1)]))
  {
    var s := ["a", "b"];
    assert s[1..] == ["b"] && ["b"][1..] == [];
    assert Key(s) == "/" + ("a" + "/" + ("b" + "/" + ""));
    assert Key(s) == "/a/b/" && Key([]) == "/";
    SplitKey(s);
    assert s[0..] == s;
    assert "a/b" in Dict(map["a/b" := Int(1)]).items;
    assert "/" + "a/b" + "/" == "/a/b/";
  }

  // param_key.startswith(key)
  lemma AtOrAbove(k: string, p: Path, x: Value, caller: string, writer: string)
    requires k == Key(Split(k)) && Segments(p) && k <= Key(p)
    ensures k !in KeysBelow(Key(p), x)
    ensures Due(k, caller, p, x, writer) <==> caller != writer
    ensures caller != writer ==> Call(k, p, x) == ParamUpdate(WireName(Key(p)), x)
  {
    var s := Split(k);
    KeyPrefix(s, p);
    if k in KeysBelow(Key(p), x) {
      BelowLonger(k, p, x);
      assert false;
    }
  }

  lemma BelowLonger(k: string, p: Path, x: Value)
    requires k in KeysBelow(Key(p), x)
    ensures Key(p) <= k && Key(p) != k
  {
    var r := AllKeysSound(p, x, k);
    TailConcat(p, r);
    assert Tail(r) != "";
  }

  // key.startswith(param_key), but the value has nothing there
  lemma BelowAbsent(k: string, p: Path, x: Value, caller: string, writer: string)
    requires k == Key(Split(k)) && Segments(p) && !(k <= Key(p))
    requires x.Dict? && Key(p) <= k && k !in KeysBelow(Key(p), x)
    ensures Due(k, caller, p, x, writer) <==> caller != writer
    ensures caller != writer ==> Call(k, p, x) == ParamUpdate(WireName(k), EMPTY)
  {
    var s := Split(k);
    KeyPrefix(s, p);
    KeyPrefix(p, s);
    assert p + s[|p|..] == s;
    if Lookup(x, s[|p|..]).Some? {
      AllKeysComplete(p, x, s[|p|..]);
    }
  }

  // key in all_keys
  lemma BelowPresent(k: string, p: Path, x: Value, caller: string, writer: string)
    requires k == Key(Split(k)) && Segments(p) && k in KeysBelow(Key(p), x)
    ensures !(k <= Key(p)) && Key(p) <= k
    ensures var sub := Lookup(x, Split(k[|Key(p)|..]));
      && (sub == None <==> Astray(k, p, x))
      && (sub.Some? ==> Due(k, caller, p, x, writer) && Call(k, p, x) == ParamUpdate(WireName(k), sub.value))
  {
    var s := Split(k);
    BelowLonger(k, p, x);
    KeyPrefix(s, p);
    KeyPrefix(p, s);
    KeyRemainder(p, s[|p|..]);
    assert p + s[|p|..] == s;
  }

  lemma Beside(k: string, p: Path, x: Value, caller: string, writer: string)
    requires k == Key(Split(k)) && Segments(p)
    requires !(k <= Key(p)) && !(x.Dict? && Key(p) <= k)
    ensures !Due(k, caller, p, x, writer)
  {
    var s := Split(k);
    KeyPrefix(s, p);
    KeyPrefix(p, s);
  }
}
