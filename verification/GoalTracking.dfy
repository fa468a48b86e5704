// The client's view of an action goal (aioros/_node/_action/_state_machine.py): a table of
// transitions fed with whatever samples of the server's state arrive.
module GoalTracking {
  import opened Outcomes

  datatype CommState =
    WaitingForGoalAck | Pending | Active | WaitingForResult | WaitingForCancelAck |
    Recalling | Preempting | Done | Lost

  datatype GoalState =
    Pending | Active | Preempted | Succeeded | Aborted | Rejected | Preempting | Recalling | Recalled | Lost

  datatype GoalStatus = GoalStatus(goalId: string, status: int)

  datatype Tracker = Tracker(goal: GoalState, comm: CommState)

  const FRESH := Tracker(GoalState.Pending, CommState.WaitingForGoalAck)

  // GoalState(status)
  function ToGoalState(status: int): Option<GoalState> {
    match status
    case 0 => Some(GoalState.Pending)
    case 1 => Some(GoalState.Active)
    case 2 => Some(GoalState.Preempted)
    case 3 => Some(GoalState.Succeeded)
    case 4 => Some(GoalState.Aborted)
    case 5 => Some(GoalState.Rejected)
    case 6 => Some(GoalState.Preempting)
    case 7 => Some(GoalState.Recalling)
    case 8 => Some(GoalState.Recalled)
    case 9 => Some(GoalState.Lost)
    case _ => None
  }

  predicate IsTerminal(c: CommState) {
    c == CommState.Done || c == CommState.Lost
  }

  // TRANSITIONS[c][g]: the states to go through. There is no row and no column for LOST,
  // and iterating over an invalid transition raises.
  function Transition(c: CommState, g: GoalState): Result<seq<CommState>> {
    if g == GoalState.Lost then Err(KeyError)
    else
      match c
      case WaitingForGoalAck => FromAck(g)
      case Pending => FromPending(g)
      case Active => FromActive(g)
      case WaitingForResult => FromWaiting(g)
      case WaitingForCancelAck => FromCancelAck(g)
      case Recalling => FromRecalling(g)
      case Preempting => FromPreempting(g)
      case Done => FromDone(g)
      case Lost => Err(KeyError)
  }

  function FromAck(g: GoalState): Result<seq<CommState>>
    requires g != GoalState.Lost
  {
    match g
    case Pending => Ok([CommState.Pending])
    case Active => Ok([CommState.Active])
    case Rejected => Ok([CommState.Pending, CommState.WaitingForResult])
    case Recalling => Ok([CommState.Pending, CommState.Recalling])
    case Recalled => Ok([CommState.Pending, CommState.WaitingForResult])
    case Preempted => Ok([CommState.Active, CommState.Preempting, CommState.WaitingForResult])
    case Succeeded => Ok([CommState.Active, CommState.WaitingForResult])
    case Aborted => Ok([CommState.Active, CommState.WaitingForResult])
    case Preempting => Ok([CommState.Active, CommState.Preempting])
  }

  function FromPending(g: GoalState): Result<seq<CommState>>
    requires g != GoalState.Lost
  {
    match g
    case Pending => Ok([])
    case Active => Ok([CommState.Active])
    case Rejected => Ok([CommState.WaitingForResult])
    case Recalling => Ok([CommState.Recalling])
    case Recalled => Ok([CommState.Recalling, CommState.WaitingForResult])
    case Preempted => Ok([CommState.Active, CommState.Preempting, CommState.WaitingForResult])
    case Succeeded => Ok([CommState.Active, CommState.WaitingForResult])
    case Aborted => Ok([CommState.Active, CommState.WaitingForResult])
    case Preempting => Ok([CommState.Active, CommState.Preempting])
  }

  function FromActive(g: GoalState): Result<seq<CommState>>
    requires g != GoalState.Lost
  {
    match g
    case Pending | Rejected | Recalling | Recalled => Err(InvalidTransition)
    case Active => Ok([])
    case Preempted => Ok([CommState.Preempting, CommState.WaitingForResult])
    case Succeeded => Ok([CommState.WaitingForResult])
    case Aborted => Ok([CommState.WaitingForResult])
    case Preempting => Ok([CommState.Preempting])
  }

  function FromWaiting(g: GoalState): Result<seq<CommState>>
    requires g != GoalState.Lost
  {
    match g
    case Pending | Recalling | Preempting => Err(InvalidTransition)
    case Active | Rejected | Recalled | Preempted | Succeeded | Aborted => Ok([])
  }

  function FromCancelAck(g: GoalState): Result<seq<CommState>>
    requires g != GoalState.Lost
  {
    match g
    case Pending | Active => Ok([])
    case Rejected => Ok([CommState.WaitingForResult])
    case Recalling => Ok([CommState.Recalling])
    case Recalled => Ok([CommState.Recalling, CommState.WaitingForResult])
    case Preempted => Ok([CommState.Preempting, CommState.WaitingForResult])
    case Succeeded => Ok([CommState.Preempting, CommState.WaitingForResult])
    case Aborted => Ok([CommState.Preempting, CommState.WaitingForResult])
    case Preempting => Ok([CommState.Preempting])
  }

  function FromRecalling(g: GoalState): Result<seq<CommState>>
    requires g != GoalState.Lost
  {
    match g
    case Pending | Active => Err(InvalidTransition)
    case Rejected => Ok([CommState.WaitingForResult])
    case Recalling => Ok([])
    case Recalled => Ok([CommState.WaitingForResult])
    case Preempted => Ok([CommState.Preempting, CommState.WaitingForResult])
    case Succeeded => Ok([CommState.Preempting, CommState.WaitingForResult])
    case Aborted => Ok([CommState.Preempting, CommState.WaitingForResult])
    case Preempting => Ok([CommState.Preempting])
  }

  function FromPreempting(g: GoalState): Result<seq<CommState>>
    requires g != GoalState.Lost
  {
    match g
    case Pending | Active | Rejected | Recalling | Recalled => Err(InvalidTransition)
    case Preempted => Ok([CommState.WaitingForResult])
    case Succeeded => Ok([CommState.WaitingForResult])
    case Aborted => Ok([CommState.WaitingForResult])
    case Preempting => Ok([])
  }

  function FromDone(g: GoalState): Result<seq<CommState>>
    requires g != GoalState.Lost
  {
    match g
    case Pending | Active | Recalling | Preempting => Err(InvalidTransition)
    case Rejected | Recalled | Preempted | Succeeded | Aborted => Ok([])
  }

  // ----- one message -----

  // The status a message reports for the goal: that of its first matching entry.
  function FirstStatus(list: seq<GoalStatus>, goalId: string): Option<int> {
    if list == [] then None
    else if list[0].goalId == goalId then Some(list[0].status)
    else FirstStatus(list[1..], goalId)
  }

  function Last(c: CommState, hops: seq<CommState>): CommState {
    if hops == [] then c else hops[|hops| - 1]
  }

  // A status message: the tracker after it, the comm states assigned and what is raised.
  datatype Outcome = Outcome(tracker: Tracker, steps: seq<CommState>, result: Result<bool>)

  function OnStatus(t: Tracker, status: Option<int>): Outcome {
    if status == None then
      if t.comm == CommState.WaitingForGoalAck || t.comm == CommState.WaitingForResult || t.comm == CommState.Done
      then Outcome(t, [], Ok(false))
      else Outcome(Tracker(GoalState.Lost, CommState.Done), [CommState.Done], Ok(false))
    else if ToGoalState(status.value) == None then
      Outcome(t, [], Ok(false))
    else
      var g := ToGoalState(status.value).value;
      match Transition(t.comm, g)
      case Ok(hops) => Outcome(Tracker(g, Last(t.comm, hops)), hops, Ok(false))
      case Err(e) => Outcome(Tracker(g, t.comm), [], Err(e))
  }

  // The status of a result message; true if the result is accepted.
  function OnResult(t: Tracker, matching: bool, status: int): Outcome {
    if ToGoalState(status) == None then
      Outcome(t, [], Err(ValueError))
    else
      var u := t.(goal := ToGoalState(status).value);
      if IsTerminal(t.comm) then Outcome(u, [], Ok(false))
      else
        var o := OnStatus(u, if matching then Some(status) else None);
        if o.result.Err? then o
        else Outcome(o.tracker.(comm := CommState.Done), o.steps + [CommState.Done], Ok(true))
  }

  class CommStateMachine {
    const goalId: string
    var goalState: GoalState
    var commState: CommState
    // the values assigned to commState so far
    ghost var trace: seq<CommState>

    constructor (goalId: string)
      ensures this.goalId == goalId && Abs() == FRESH && trace == []
      ensures goalState == GoalState.Pending && commState == CommState.WaitingForGoalAck
    {
      this.goalId := goalId;
      goalState, commState, trace := GoalState.Pending, CommState.WaitingForGoalAck, [];
    }

    function Abs(): Tracker
      reads this
    {
      Tracker(goalState, commState)
    }

    method UpdateStatus(statusList: seq<GoalStatus>) returns (r: Result<()>)
      modifies this
      ensures var o := OnStatus(old(Abs()), FirstStatus(statusList, goalId));
        && Abs() == o.tracker && trace == old(trace) + o.steps
        && (o.result.Ok? ==> r == Ok(())) && (o.result.Err? ==> r == Err(o.result.fault))
    {
      var i := 0;
      while i < |statusList| && statusList[i].goalId != goalId
        invariant 0 <= i <= |statusList|
        invariant FirstStatus(statusList, goalId) == FirstStatus(statusList[i..], goalId)
      {
        i := i + 1;
      }
      if i == |statusList| {
        if commState !in {CommState.WaitingForGoalAck, CommState.WaitingForResult, CommState.Done} {
          goalState := GoalState.Lost;
          commState := CommState.Done;
          trace := trace + [CommState.Done];
        }
        return Ok(());
      }
      var g := ToGoalState(statusList[i].status);
      if g == None {
        return Ok(());
      }
      goalState := g.value;
      var hops := Transition(commState, goalState);
      if hops.Err? {
        return Err(hops.fault);
      }
      var k := 0;
      while k < |hops.value|
        invariant 0 <= k <= |hops.value|
        invariant goalState == g.value && commState == Last(old(commState), hops.value[..k])
        invariant trace == old(trace) + hops.value[..k]
      {
        commState := hops.value[k];
        trace := trace + [commState];
        assert hops.value[..k + 1] == hops.value[..k] + [hops.value[k]];
        k := k + 1;
      }
      assert hops.value[..k] == hops.value;
      r := Ok(());
    }

    method UpdateOnResultStatus(goalStatus: GoalStatus) returns (r: Result<bool>)
      modifies this
      ensures var o := OnResult(old(Abs()), goalStatus.goalId == goalId, goalStatus.status);
        Abs() == o.tracker && trace == old(trace) + o.steps && r == o.result
    {
      var g := ToGoalState(goalStatus.status);
      if g == None {
        return Err(ValueError);
      }
      goalState := g.value;
      if IsTerminal(commState) {
        return Ok(false);
      }
      assert FirstStatus([goalStatus], goalId) == if goalStatus.goalId == goalId then Some(goalStatus.status) else None;
      var u := UpdateStatus([goalStatus]);
      if u.Err? {
        return Err(u.fault);
      }
      commState := CommState.Done;
      trace := trace + [CommState.Done];
      r := Ok(true);
    }
  }

  // ----- sampling -----

  // The moves of an action server.
  predicate Moves(g: GoalState, h: GoalState) {
    match g
    case Pending => h.Active? || h.Recalling? || h.Rejected? || h.Recalled?
    case Recalling => h.Recalled? || h.Rejected? || h.Preempting?
    case Active => h.Preempting? || h.Preempted? || h.Succeeded? || h.Aborted?
    case Preempting => h.Preempted? || h.Succeeded? || h.Aborted?
    case _ => false
  }

  ghost predicate ServerRun(run: seq<GoalState>) {
    && run != [] && run[0] == GoalState.Pending
    && forall i :: 0 <= i < |run| - 1 ==> Moves(run[i], run[i + 1])
  }

  predicate Final(g: GoalState) {
    g.Preempted? || g.Succeeded? || g.Aborted? || g.Rejected? || g.Recalled? || g.Lost?
  }

  // The comm state that goes with the last status seen, whatever was missed before.
  function After(g: GoalState): CommState {
    match g
    case Pending => CommState.Pending
    case Active => CommState.Active
    case Recalling => CommState.Recalling
    case Preempting => CommState.Preempting
    case _ => CommState.WaitingForResult
  }

  // How far a server has come.
  function Stage(g: GoalState): nat {
    match g
    case Pending => 3
    case Recalling => 2
    case Active => 2
    case Preempting => 1
    case _ => 0
  }

  // The server can get from g to h.
  ghost predicate Reaches(g: GoalState, h: GoalState)
    decreases Stage(g)
  {
    g == h || exists m :: Moves(g, m) && Reaches(m, h)
  }

  function Reachable(g: GoalState): set<GoalState> {
    match g
    case Pending =>
      {GoalState.Pending, GoalState.Active, GoalState.Recalling, GoalState.Preempting, GoalState.Preempted,
       GoalState.Succeeded, GoalState.Aborted, GoalState.Rejected, GoalState.Recalled}
    case Recalling =>
      {GoalState.Recalling, GoalState.Preempting, GoalState.Preempted, GoalState.Succeeded, GoalState.Aborted,
       GoalState.Rejected, GoalState.Recalled}
    case Active => {GoalState.Active, GoalState.Preempting, GoalState.Preempted, GoalState.Succeeded, GoalState.Aborted}
    case Preempting => {GoalState.Preempting, GoalState.Preempted, GoalState.Succeeded, GoalState.Aborted}
    case _ => {g}
  }

  // A move on the way from g to h, if h is not one move away.
  function Between(g: GoalState, h: GoalState): GoalState {
    if Moves(g, h) then h
    else if !g.Pending? then GoalState.Preempting
    else if Moves(GoalState.Active, h) then GoalState.Active
    else GoalState.Recalling
  }

  lemma ReachableStep(g: GoalState, h: GoalState)
    ensures h in Reachable(g) && g != h ==> Moves(g, Between(g, h)) && h in Reachable(Between(g, h))
  {
  }

  lemma ReachableBack(g: GoalState, m: GoalState, h: GoalState)
    requires Moves(g, m) && h in Reachable(m)
    ensures h in Reachable(g)
  {
  }

  lemma {:induction false} ReachesTable(g: GoalState, h: GoalState)
    ensures Reaches(g, h) <==> h in Reachable(g)
    decreases Stage(g)
  {
    hide Reachable, Moves, Between;
    forall m | Moves(g, m)
      ensures Reaches(m, h) <==> h in Reachable(m)
      ensures h in Reachable(m) ==> h in Reachable(g)
    {
      StageDrops(g, m);
      ReachesTable(m, h);
      if h in Reachable(m) {
        ReachableBack(g, m, h);
      }
    }
    ReachableStep(g, h);
    ReachableSelf(g);
  }

  lemma StageDrops(g: GoalState, m: GoalState)
    requires Moves(g, m)
    ensures Stage(m) < Stage(g)
  {
  }

  lemma ReachableSelf(g: GoalState)
    ensures g in Reachable(g)
  {
  }

  // The table is right: before the end, a status is refused exactly if the server cannot
  // have got there from the last one seen, and the comm state depends on the status alone.
  lemma TableExact(g: GoalState, h: GoalState)
    requires !Final(g)
    ensures Transition(After(g), h).Ok? <==> Reaches(g, h)
    ensures Transition(After(g), h).Ok? ==> Last(After(g), Transition(After(g), h).value) == After(h)
  {
    hide Reaches, Reachable;
    ReachesTable(g, h);
    match g
    case Pending => RowPending(h);
    case Active => RowActive(h);
    case Recalling => RowRecalling(h);
    case Preempting => RowPreempting(h);
  }

  lemma RowPending(h: GoalState)
    ensures Transition(CommState.Pending, h).Ok? <==> h in Reachable(GoalState.Pending)
  {
  }

  lemma RowActive(h: GoalState)
    ensures Transition(CommState.Active, h).Ok? <==> h in Reachable(GoalState.Active)
  {
  }

  lemma RowRecalling(h: GoalState)
    ensures Transition(CommState.Recalling, h).Ok? <==> h in Reachable(GoalState.Recalling)
  {
  }

  lemma RowPreempting(h: GoalState)
    ensures Transition(CommState.Preempting, h).Ok? <==> h in Reachable(GoalState.Preempting)
  {
  }

  lemma TableFirst(h: GoalState)
    ensures Transition(CommState.WaitingForGoalAck, h).Ok? <==> Reaches(GoalState.Pending, h)
    ensures Reaches(GoalState.Pending, h) ==>
      Last(CommState.WaitingForGoalAck, Transition(CommState.WaitingForGoalAck, h).value) == After(h)
  {
    hide Reaches;
    ReachesTable(GoalState.Pending, h);
  }

  // After the end the tracker waits, and only statuses of a goal that is still to be
  // preempted, recalled or taken up are refused.
  lemma TableFinal(h: GoalState)
    ensures Transition(CommState.WaitingForResult, h).Ok? <==> h.Active? || (Final(h) && !h.Lost?)
    ensures Transition(CommState.WaitingForResult, h).Ok? ==>
      Last(CommState.WaitingForResult, Transition(CommState.WaitingForResult, h).value) == CommState.WaitingForResult
    ensures Transition(CommState.Done, h).Ok? <==> Final(h) && !h.Lost?
  {
  }

  // A way of the server, and the comm states that go with it.
  ghost predicate Goes(way: seq<GoalState>, g: GoalState, h: GoalState) {
    && way != [] && way[0] == g && way[|way| - 1] == h
    && forall i :: 0 <= i < |way| - 1 ==> Moves(way[i], way[i + 1])
  }

  function AfterEach(way: seq<GoalState>): (hops: seq<CommState>)
    ensures |hops| == |way| && forall i :: 0 <= i < |way| ==> hops[i] == After(way[i])
  {
    seq(|way|, i requires 0 <= i < |way| => After(way[i]))
  }

  // The states gone through on a status are those of a way the server can have taken.
  lemma TableWay(g: GoalState, h: GoalState) returns (way: seq<GoalState>)
    requires !Final(g) && Transition(After(g), h).Ok?
    ensures Goes(way, g, h) && Transition(After(g), h).value == AfterEach(way[1..])
  {
    var hops := Transition(After(g), h).value;
    if |hops| == 0 {
      way := [g];
    } else if |hops| == 1 {
      way := [g, h];
    } else if |hops| == 2 {
      way := [g, Towards(hops[0]), h];
    } else {
      way := [g, Towards(hops[0]), Towards(hops[1]), h];
    }
  }

  // The server's state behind a comm state, before the end.
  function Towards(c: CommState): GoalState {
    match c
    case Active => GoalState.Active
    case Recalling => GoalState.Recalling
    case Preempting => GoalState.Preempting
    case _ => GoalState.Pending
  }

  // GoalStatus numbers.
  function Code(g: GoalState): (n: int)
    ensures ToGoalState(n) == Some(g)
  {
    match g
    case Pending => 0
    case Active => 1
    case Preempted => 2
    case Succeeded => 3
    case Aborted => 4
    case Rejected => 5
    case Preempting => 6
    case Recalling => 7
    case Recalled => 8
    case Lost => 9
  }

  // The tracker after a series of statuses, unless one of them raises.
  function Feed(obs: seq<GoalState>): Result<Tracker>
    decreases |obs|
  {
    if obs == [] then Ok(FRESH)
    else
      match Feed(obs[..|obs| - 1])
      case Err(e) => Err(e)
      case Ok(t) =>
        var o := OnStatus(t, Some(Code(obs[|obs| - 1])));
        if o.result.Err? then Err(o.result.fault) else Ok(o.tracker)
  }

  // The statuses are what was seen of the run, in order, some perhaps more than once.
  ghost predicate Samples(run: seq<GoalState>, at: seq<nat>, obs: seq<GoalState>) {
    && |at| == |obs|
    && (forall i :: 0 <= i < |at| ==> at[i] < |run| && obs[i] == run[at[i]])
    && (forall i, j :: 0 <= i <= j < |at| ==> at[i] <= at[j])
  }

  lemma {:induction false} RunReaches(run: seq<GoalState>, i: nat, j: nat)
    requires ServerRun(run) && i <= j < |run|
    ensures Reaches(run[i], run[j])
    decreases j - i
  {
    if i < j {
      RunReaches(run, i + 1, j);
      assert Moves(run[i], run[i + 1]);
    }
  }

  // Once the run has ended there is nothing else to see.
  lemma FinalStays(g: GoalState, h: GoalState)
    requires Final(g) && Reaches(g, h)
    ensures h == g
  {
    ReachesTable(g, h);
  }

  // Whatever part of a server's run is seen, nothing raises, and the tracker knows where
  // the last status left it.
  lemma {:induction false} SamplingIndependence(run: seq<GoalState>, at: seq<nat>, obs: seq<GoalState>)
    requires ServerRun(run) && Samples(run, at, obs) && obs != []
    ensures Feed(obs) == Ok(Tracker(obs[|obs| - 1], After(obs[|obs| - 1])))
    decreases |obs|
  {
    hide Transition, Reaches, Moves;
    var n := |obs| - 1;
    var before, h := obs[..n], obs[n];
    if n == 0 {
      RunReaches(run, 0, at[0]);
      TableFirst(h);
    } else {
      var g := obs[n - 1];
      SamplingIndependence(run, at[..n], before);
      RunReaches(run, at[n - 1], at[n]);
      RunReaches(run, 0, at[n]);
      NeverLost(g, h);
      if Final(g) {
        FinalStays(g, h);
        TableFinal(h);
      } else {
        TableExact(g, h);
      }
    }
  }

  lemma NeverLost(g: GoalState, h: GoalState)
    requires Reaches(g, h) && Reaches(GoalState.Pending, h)
    ensures !h.Lost?
  {
    ReachesTable(GoalState.Pending, h);
  }

  // A way of the server from g to h.
  lemma {:induction false} Way(g: GoalState, h: GoalState) returns (way: seq<GoalState>)
    requires Reaches(g, h)
    ensures Goes(way, g, h)
    decreases Stage(g)
  {
    if g == h {
      way := [g];
    } else {
      var m :| Moves(g, m) && Reaches(m, h);
      var rest := Way(m, h);
      way := [g] + rest;
    }
  }

  lemma Continued(run: seq<GoalState>, way: seq<GoalState>) returns (longer: seq<GoalState>)
    requires ServerRun(run) && way != [] && Goes(way, run[|run| - 1], way[|way| - 1])
    ensures ServerRun(longer) && |longer| == |run| + |way| - 1 && longer[..|run|] == run
    ensures longer[|longer| - 1] == way[|way| - 1]
  {
    hide Moves;
    longer := run + way[1..];
    assert forall i :: |run| - 1 <= i < |longer| ==> longer[i] == way[i - (|run| - 1)];
  }

  // And conversely: what is accepted can have been seen of some run.
  lemma {:induction false} AcceptedIsSampled(obs: seq<GoalState>) returns (run: seq<GoalState>, at: seq<nat>)
    requires obs != [] && (forall i :: 0 <= i < |obs| - 1 ==> !Final(obs[i])) && Feed(obs).Ok?
    ensures ServerRun(run) && Samples(run, at, obs)
    ensures run[|run| - 1] == obs[|obs| - 1]
    decreases |obs|
  {
    hide Moves, Transition, Reaches;
    var n := |obs| - 1;
    if n == 0 {
      assert obs[..n] == [];
      TableFirst(obs[0]);
      run := Way(GoalState.Pending, obs[0]);
      at := [|run| - 1];
    } else {
      var before, r := obs[..n], [];
      r, at := AcceptedIsSampled(before);
      SamplingIndependence(r, at, before);
      TableExact(obs[n - 1], obs[n]);
      var way := Way(obs[n - 1], obs[n]);
      run := Continued(r, way);
      at := at + [|run| - 1];
    }
  }

  // Up to the first final status, a series of statuses is accepted if and only if it is
  // part of some run of a server.
  lemma AcceptedExactly(obs: seq<GoalState>)
    requires obs != [] && forall i :: 0 <= i < |obs| - 1 ==> !Final(obs[i])
    ensures Feed(obs).Ok? <==> exists run, at :: ServerRun(run) && Samples(run, at, obs)
  {
    if Feed(obs).Ok? {
      var run, at := AcceptedIsSampled(obs);
    }
    if run, at :| ServerRun(run) && Samples(run, at, obs) {
      SamplingIndependence(run, at, obs);
    }
  }

  // ----- the tracker after any statuses -----

  lemma {:induction false} FeedState(obs: seq<GoalState>)
    requires Feed(obs).Ok?
    ensures obs == [] ==> Feed(obs).value == FRESH
    ensures obs != [] ==>
      Feed(obs).value ==
      Tracker(obs[|obs| - 1], if Ended(obs) then CommState.WaitingForResult else After(obs[|obs| - 1]))
    decreases |obs|
  {
    hide Transition, Reaches;
    if obs != [] {
      var n := |obs| - 1;
      var before, h := obs[..n], obs[n];
      FeedState(before);
      EndedMore(before, h);
      assert before + [h] == obs;
      if n == 0 {
        TableFirst(h);
        AfterFinal(h);
      } else if Ended(before) {
        TableFinal(h);
      } else {
        TableExact(obs[n - 1], h);
        AfterFinal(h);
      }
    }
  }

  // A final status has been seen.
  predicate Ended(obs: seq<GoalState>) {
    exists i :: 0 <= i < |obs| && Final(obs[i])
  }

  lemma EndedMore(obs: seq<GoalState>, h: GoalState)
    ensures Ended(obs + [h]) <==> Ended(obs) || Final(h)
  {
    var more := obs + [h];
    if i :| 0 <= i < |obs| && Final(obs[i]) {
      assert Final(more[i]);
    }
    if Final(h) {
      assert Final(more[|obs|]);
    }
  }

  lemma AfterFinal(h: GoalState)
    ensures Final(h) ==> After(h) == CommState.WaitingForResult
  {
  }

  // Messages that do not mention the goal: they change nothing while it has not been seen,
  // nor once it has ended; in between it is given up.
  lemma Unmentioned(obs: seq<GoalState>)
    requires Feed(obs).Ok?
    ensures var t := Feed(obs).value;
      OnStatus(t, None) ==
        if obs == [] || Ended(obs) then Outcome(t, [], Ok(false))
        else Outcome(Tracker(GoalState.Lost, CommState.Done), [CommState.Done], Ok(false))
  {
    FeedState(obs);
    if obs != [] && !Ended(obs) {
      assert !Final(obs[|obs| - 1]);
    }
  }

  // Nor does a status that is no number of a goal state.
  lemma Unrecognised(t: Tracker, n: int)
    requires n < 0 || n > 9
    ensures OnStatus(t, Some(n)) == Outcome(t, [], Ok(false))
  {
  }

  // The numbers of actionlib_msgs/GoalStatus.
  lemma StatusNumbers()
    ensures [ToGoalState(0), ToGoalState(1), ToGoalState(2), ToGoalState(3), ToGoalState(4)] ==
            [Some(GoalState.Pending), Some(GoalState.Active), Some(GoalState.Preempted), Some(GoalState.Succeeded),
             Some(GoalState.Aborted)]
    ensures [ToGoalState(5), ToGoalState(6), ToGoalState(7), ToGoalState(8), ToGoalState(9)] ==
            [Some(GoalState.Rejected), Some(GoalState.Preempting), Some(GoalState.Recalling), Some(GoalState.Recalled),
             Some(GoalState.Lost)]
  {
  }

  // A recognised status is always noted, and moves the comm state unless it is refused: if
  // the server cannot have got there, or, after the end, if the goal is still to be run.
  lemma Mentioned(obs: seq<GoalState>, h: GoalState)
    requires Feed(obs).Ok?
    ensures var t, o := Feed(obs).value, OnStatus(Feed(obs).value, Some(Code(h)));
      && o.tracker.goal == h
      && (o.result.Ok? <==>
            if Ended(obs) then h.Active? || (Final(h) && !h.Lost?)
            else Reaches(if obs == [] then GoalState.Pending else obs[|obs| - 1], h))
      && (o.result.Ok? ==> o.tracker.comm == if Ended(obs) then CommState.WaitingForResult else After(h))
      && (o.result.Err? ==>
            && o.tracker.comm == t.comm && o.steps == []
            && o.result == Err(if h.Lost? then KeyError else InvalidTransition))
  {
    hide Transition, Reaches;
    FeedState(obs);
    if obs == [] {
      TableFirst(h);
    } else if Ended(obs) {
      TableFinal(h);
    } else {
      assert !Final(obs[|obs| - 1]);
      TableExact(obs[|obs| - 1], h);
    }
    Refusals(Feed(obs).value.comm, h);
  }

  lemma Refusals(c: CommState, h: GoalState)
    requires !c.Lost?
    ensures Transition(c, h).Err? ==> Transition(c, h) == Err(if h.Lost? then KeyError else InvalidTransition)
  {
  }

  // What a result does to a tracker that is not done: it is accepted with whatever state it
  // reports, unless that is refused.
  lemma ResultExact(obs: seq<GoalState>, h: GoalState)
    requires Feed(obs).Ok?
    ensures var o, s := OnResult(Feed(obs).value, true, Code(h)), OnStatus(Feed(obs).value, Some(Code(h)));
      if s.result.Ok? then o.result == Ok(true) && o.tracker == Tracker(h, CommState.Done)
      else o.result == s.result && o.tracker == s.tracker
  {
    hide Transition;
    FeedState(obs);
  }

  // A result that comes later, or in a state that is no goal state, is not accepted.
  lemma ResultLate(t: Tracker, matching: bool, n: int)
    ensures (n < 0 || n > 9) ==> OnResult(t, matching, n) == Outcome(t, [], Err(ValueError))
    ensures 0 <= n <= 9 && IsTerminal(t.comm) ==>
      OnResult(t, matching, n) == Outcome(t.(goal := ToGoalState(n).value), [], Ok(false))
  {
  }

  // The result of another goal is taken for a message that does not mention this one, and
  // ends the tracker all the same.
  lemma ResultOther(obs: seq<GoalState>, h: GoalState)
    requires Feed(obs).Ok?
    ensures var o := OnResult(Feed(obs).value, false, Code(h));
      && o.result == Ok(true)
      && o.tracker == Tracker(if obs == [] || Ended(obs) then h else GoalState.Lost, CommState.Done)
  {
    FeedState(obs);
    if obs != [] && !Ended(obs) {
      assert !Final(obs[|obs| - 1]);
    }
  }

  predicate FirstAt(list: seq<GoalStatus>, goalId: string, i: int)
    requires 0 <= i < |list|
  {
    list[i].goalId == goalId && forall j :: 0 <= j < i ==> list[j].goalId != goalId
  }

  // The status reported is that of the first entry for the goal.
  lemma {:induction false} FirstStatusExact(list: seq<GoalStatus>, goalId: string)
    ensures FirstStatus(list, goalId) == None <==> forall i :: 0 <= i < |list| ==> list[i].goalId != goalId
    ensures forall i :: 0 <= i < |list| && FirstAt(list, goalId, i) ==> FirstStatus(list, goalId) == Some(list[i].status)
    decreases |list|
  {
    if list != [] {
      var rest := list[1..];
      FirstStatusExact(rest, goalId);
      assert forall i :: 1 <= i < |list| ==> rest[i - 1] == list[i];
    }
  }

  // The row of the state no status leads to: once a cancellation is asked for, anything may
  // come, and a goal not yet reached by it keeps the tracker waiting.
  lemma TableCancel(h: GoalState)
    ensures Transition(CommState.WaitingForCancelAck, h).Ok? <==> !h.Lost?
    ensures !h.Lost? ==>
      Last(CommState.WaitingForCancelAck, Transition(CommState.WaitingForCancelAck, h).value) ==
        if h.Pending? || h.Active? then CommState.WaitingForCancelAck else After(h)
  {
  }

  // ----- progress -----

  function Rank(c: CommState): nat {
    match c
    case WaitingForGoalAck => 0
    case Pending => 1
    case Active => 2
    case Recalling => 2
    case WaitingForCancelAck => 2
    case Preempting => 3
    case WaitingForResult => 4
    case Done => 5
    case Lost => 5
  }

  // Every assignment that changes the comm state raises its rank.
  predicate Rising(c: CommState, steps: seq<CommState>)
    decreases |steps|
  {
    steps == [] || ((steps[0] == c || Rank(c) < Rank(steps[0])) && Rising(steps[0], steps[1..]))
  }

  function Changes(c: CommState, steps: seq<CommState>): nat
    decreases |steps|
  {
    if steps == [] then 0 else (if steps[0] == c then 0 else 1) + Changes(steps[0], steps[1..])
  }

  predicate Tracked(c: CommState) {
    c != CommState.WaitingForCancelAck && c != CommState.Lost
  }

  datatype Event = Status(seen: Option<int>) | Verdict(matching: bool, status: int)

  function On(t: Tracker, e: Event): Outcome {
    match e
    case Status(n) => OnStatus(t, n)
    case Verdict(matching, n) => OnResult(t, matching, n)
  }

  // All assignments made in the course of some messages, which may raise.
  function Trace(t: Tracker, events: seq<Event>): seq<CommState>
    decreases |events|
  {
    if events == [] then [] else On(t, events[0]).steps + Trace(On(t, events[0]).tracker, events[1..])
  }

  function Finally(t: Tracker, events: seq<Event>): Tracker
    decreases |events|
  {
    if events == [] then t else Finally(On(t, events[0]).tracker, events[1..])
  }

  lemma {:induction false} RisingConcat(c: CommState, a: seq<CommState>, b: seq<CommState>)
    requires Rising(c, a) && Rising(Last(c, a), b)
    ensures Rising(c, a + b) && Last(c, a + b) == Last(Last(c, a), b)
    decreases |a|
  {
    if a == [] {
      assert a + b == b;
    } else {
      assert (a + b)[1..] == a[1..] + b;
      RisingConcat(a[0], a[1..], b);
    }
  }

  lemma {:induction false} RisingChanges(c: CommState, steps: seq<CommState>)
    requires Rising(c, steps)
    ensures Rank(c) + Changes(c, steps) <= 5
    ensures c == CommState.Done ==> forall i :: 0 <= i < |steps| ==> steps[i] == CommState.Done
    decreases |steps|
  {
    if steps != [] {
      RisingChanges(steps[0], steps[1..]);
    }
  }

  lemma RisingThree(c: CommState, steps: seq<CommState>)
    requires |steps| <= 3
    requires |steps| > 0 ==> Rank(c) < Rank(steps[0])
    requires |steps| > 1 ==> Rank(steps[0]) < Rank(steps[1])
    requires |steps| > 2 ==> Rank(steps[1]) < Rank(steps[2])
    ensures Rising(c, steps)
  {
    if |steps| == 1 {
      assert steps[1..] == [];
    } else if |steps| == 2 {
      assert steps[1..] == [steps[1]] && [steps[1]][1..] == [];
    } else if |steps| == 3 {
      assert steps[1..][1..] == [steps[2]] && [steps[2]][1..] == [];
      assert Rising(steps[1], [steps[2]]);
      assert Rising(steps[0], steps[1..]);
    }
  }

  lemma TableRises(c: CommState, g: GoalState)
    requires Tracked(c) && Transition(c, g).Ok?
    ensures Rising(c, Transition(c, g).value)
    ensures forall i :: 0 <= i < |Transition(c, g).value| ==>
              Tracked(Transition(c, g).value[i]) && Transition(c, g).value[i] != CommState.Done
    ensures c != CommState.Done ==> Last(c, Transition(c, g).value) != CommState.Done
  {
    RisingThree(c, Transition(c, g).value);
  }

  lemma StatusRises(t: Tracker, status: Option<int>)
    requires Tracked(t.comm)
    ensures var o := OnStatus(t, status);
      && Rising(t.comm, o.steps) && o.tracker.comm == Last(t.comm, o.steps)
      && forall i :: 0 <= i < |o.steps| ==> Tracked(o.steps[i])
  {
    if status.Some? && ToGoalState(status.value).Some? && Transition(t.comm, ToGoalState(status.value).value).Ok? {
      TableRises(t.comm, ToGoalState(status.value).value);
    }
  }

  lemma OnRises(t: Tracker, e: Event)
    requires Tracked(t.comm)
    ensures var o := On(t, e);
      && Rising(t.comm, o.steps) && o.tracker.comm == Last(t.comm, o.steps)
      && forall i :: 0 <= i < |o.steps| ==> Tracked(o.steps[i])
  {
    hide Transition, Rising;
    match e
    case Status(n) => StatusRises(t, n);
    case Verdict(matching, n) =>
      if ToGoalState(n).Some? && !IsTerminal(t.comm) {
        ResultRises(t.(goal := ToGoalState(n).value), if matching then Some(n) else None);
      } else {
        RisingThree(t.comm, []);
      }
  }

  // A result is accepted by way of the table; the last step leads to DONE.
  lemma ResultRises(t: Tracker, status: Option<int>)
    requires Tracked(t.comm)
    ensures var o := OnStatus(t, status);
      && Rising(t.comm, o.steps)
      && (forall i :: 0 <= i < |o.steps| ==> Tracked(o.steps[i]))
      && o.tracker.comm == Last(t.comm, o.steps)
      && (o.result.Ok? ==> Rising(t.comm, o.steps + [CommState.Done]))
  {
    hide Transition;
    var o := OnStatus(t, status);
    StatusRises(t, status);
    assert [CommState.Done][1..] == [];
    LastTracked(t.comm, o.steps);
    assert Rising(Last(t.comm, o.steps), [CommState.Done]);
    RisingConcat(t.comm, o.steps, [CommState.Done]);
  }

  lemma LastTracked(c: CommState, steps: seq<CommState>)
    requires Tracked(c) && forall i :: 0 <= i < |steps| ==> Tracked(steps[i])
    ensures Tracked(Last(c, steps))
  {
  }

  // Whatever messages arrive, legal or not: at most five changes of the comm state, each
  // to a higher rank, two of the states never entered, and DONE never left.
  lemma {:induction false} Progress(t: Tracker, events: seq<Event>)
    requires Tracked(t.comm)
    ensures var steps := Trace(t, events);
      && Rising(t.comm, steps) && Changes(t.comm, steps) <= 5 - Rank(t.comm)
      && (forall i :: 0 <= i < |steps| ==> Tracked(steps[i]))
      && (t.comm == CommState.Done ==> forall i :: 0 <= i < |steps| ==> steps[i] == CommState.Done)
      && Finally(t, events).comm == Last(t.comm, steps)
    decreases |events|
  {
    hide On, Tracked;
    if events != [] {
      var o := On(t, events[0]);
      OnRises(t, events[0]);
      LastTracked(t.comm, o.steps);
      Progress(o.tracker, events[1..]);
      RisingConcat(t.comm, o.steps, Trace(o.tracker, events[1..]));
    }
    RisingChanges(t.comm, Trace(t, events));
  }
}
