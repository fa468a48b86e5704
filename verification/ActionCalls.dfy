// A call of an action (aioros/_node/_action/_client.py): two trackers, one for status and
// one for result messages, share a goal tracker and race to finish the call.
module ActionCalls {
  import opened Outcomes
  import opened GoalTracking

  // watching and awaiting: the two trackers are still at work; lost: the status tracker
  // has given the goal up; failed: a tracker has raised, which ends both.
  datatype Call<R> = Call(
    tracker: Tracker,
    terminated: bool,
    result: Option<R>,
    watching: bool,
    awaiting: bool,
    lost: bool,
    failed: bool)

  datatype Step<R> =
    | StatusMessage(seen: Option<int>)
    | ResultMessage(matching: bool, status: int, value: R)

  function Start<R>(): Call<R> {
    Call(FRESH, false, None, true, true, false, false)
  }

  // One iteration of a tracker that is still at work; otherwise nothing happens. The call
  // may go on for a while after it has terminated.
  function Next<R>(a: Call<R>, step: Step<R>): Call<R> {
    match step
    case StatusMessage(seen) => if a.watching && !a.failed then AfterStatus(a, seen) else a
    case ResultMessage(matching, status, value) =>
      if a.awaiting && !a.failed && matching then AfterResult(a, status, value) else a
  }

  function AfterStatus<R>(a: Call<R>, seen: Option<int>): Call<R> {
    var o := OnStatus(a.tracker, seen);
    var b := a.(tracker := o.tracker);
    if o.result.Err? then b.(failed := true)
    else
      var c := if seen == None && o.steps != [] then b.(lost := true) else b;
      if IsTerminal(o.tracker.comm) then c.(terminated := true, watching := false) else c
  }

  function AfterResult<R>(a: Call<R>, status: int, value: R): Call<R> {
    var o := OnResult(a.tracker, true, status);
    var b := a.(tracker := o.tracker);
    if o.result.Err? then b.(failed := true)
    else if o.result.value then b.(result := Some(value), terminated := true, awaiting := false)
    else b
  }

  // The call has terminated exactly when the tracker is done, and then without a result
  // exactly when the goal was given up.
  predicate Consistent<R(==)>(a: Call<R>) {
    && Tracked(a.tracker.comm)
    && (a.terminated <==> a.tracker.comm == CommState.Done)
    && (a.terminated ==> (a.result.Some? <==> !a.lost))
    && (!a.terminated ==> a.result == None && !a.lost)
  }

  lemma StatusConsistent<R>(a: Call<R>, seen: Option<int>)
    requires Consistent(a)
    ensures var b := AfterStatus(a, seen);
      Consistent(b) && (a.terminated ==> b.terminated && b.result == a.result && b.lost == a.lost)
  {
    hide Transition;
    var o := OnStatus(a.tracker, seen);
    StatusRises(a.tracker, seen);
    LastTracked(a.tracker.comm, o.steps);
    RisingChanges(a.tracker.comm, o.steps);
    if seen.Some? && ToGoalState(seen.value).Some? && Transition(a.tracker.comm, ToGoalState(seen.value).value).Ok? {
      TableRises(a.tracker.comm, ToGoalState(seen.value).value);
    }
  }

  lemma ResultConsistent<R>(a: Call<R>, status: int, value: R)
    requires Consistent(a)
    ensures var b := AfterResult(a, status, value);
      Consistent(b) && (a.terminated ==> b.terminated && b.result == a.result && b.lost == a.lost)
  {
    hide Transition;
  }

  // Every step keeps the call consistent, and none touches the result once it terminated.
  lemma StepConsistent<R>(a: Call<R>, step: Step<R>)
    requires Consistent(a)
    ensures Consistent(Next(a, step))
    ensures a.terminated ==>
      Next(a, step).terminated && Next(a, step).result == a.result && Next(a, step).lost == a.lost
  {
    match step
    case StatusMessage(seen) => StatusConsistent(a, seen);
    case ResultMessage(_, status, value) => ResultConsistent(a, status, value);
  }

  function After<R>(a: Call<R>, steps: seq<Step<R>>): Call<R>
    decreases |steps|
  {
    if steps == [] then a else After(Next(a, steps[0]), steps[1..])
  }

  lemma {:induction false} RunConsistent<R>(a: Call<R>, steps: seq<Step<R>>)
    requires Consistent(a)
    ensures Consistent(After(a, steps))
    ensures a.terminated ==>
      After(a, steps).terminated && After(a, steps).result == a.result && After(a, steps).lost == a.lost
    decreases |steps|
  {
    if steps != [] {
      StepConsistent(a, steps[0]);
      RunConsistent(Next(a, steps[0]), steps[1..]);
    }
  }

  lemma {:induction false} AfterConcat<R>(a: Call<R>, p: seq<Step<R>>, q: seq<Step<R>>)
    ensures After(a, p + q) == After(After(a, p), q)
    decreases |p|
  {
    if p == [] {
      assert p + q == q;
    } else {
      assert (p + q)[1..] == p[1..] + q;
      AfterConcat(Next(a, p[0]), p[1..], q);
    }
  }

  // However the messages interleave: once there is something to wait for, the answer is
  // settled for good, and it is empty exactly if the goal was given up first.
  lemma Verdict<R>(before: seq<Step<R>>, later: seq<Step<R>>)
    requires After(Start<R>(), before).terminated
    ensures var first, now := After(Start<R>(), before), After(Start<R>(), before + later);
      && now.terminated && now.tracker.comm == CommState.Done
      && now.result == first.result
      && (now.result == None <==> first.lost)
  {
    RunConsistent(Start<R>(), before);
    RunConsistent(After(Start<R>(), before), later);
    AfterConcat(Start<R>(), before, later);
  }

  // ----- what the answer depends on -----

  // The recognised statuses of the goal, in order.
  function Seen<R>(steps: seq<Step<R>>): seq<GoalState>
    decreases |steps|
  {
    if steps == [] then []
    else Seen(steps[..|steps| - 1]) + Reported(steps[|steps| - 1])
  }

  function Reported<R>(step: Step<R>): seq<GoalState> {
    if step.StatusMessage? && step.seen.Some? && ToGoalState(step.seen.value).Some?
    then [ToGoalState(step.seen.value).value]
    else []
  }

  // A message does not mention the goal though it has been seen and has not ended.
  predicate Abandons<R>(obs: seq<GoalState>, step: Step<R>) {
    step.StatusMessage? && step.seen == None && obs != [] && !Ended(obs)
  }

  predicate Answers<R>(step: Step<R>) {
    step.ResultMessage? && step.matching
  }

  // A result is accepted with any state the goal can be seen in next.
  predicate Accepts<R>(obs: seq<GoalState>, step: Step<R>)
    requires step.ResultMessage?
  {
    ToGoalState(step.status).Some? && Feed(obs + [ToGoalState(step.status).value]).Ok?
  }

  // No step has decided the call: no result has come, the goal has not been given up, and
  // no status has been refused.
  ghost predicate Undecided<R>(steps: seq<Step<R>>) {
    && Feed(Seen(steps)).Ok?
    && forall i :: 0 <= i < |steps| ==> !Answers(steps[i]) && !Abandons(Seen(steps[..i]), steps[i])
  }

  // The call goes on, and the tracker is where the statuses seen have led it.
  predicate Awaits<R(==)>(a: Call<R>, obs: seq<GoalState>) {
    Feed(obs) == Ok(a.tracker) && a == Call(a.tracker, false, None, true, true, false, false)
  }

  lemma AfterSnoc<R>(steps: seq<Step<R>>)
    requires steps != []
    ensures After(Start<R>(), steps) == Next(After(Start<R>(), steps[..|steps| - 1]), steps[|steps| - 1])
  {
    hide Next, After;
    var n := |steps| - 1;
    assert steps == steps[..n] + [steps[n]];
    AfterConcat(Start<R>(), steps[..n], [steps[n]]);
    AfterOne(After(Start<R>(), steps[..n]), steps[n]);
  }

  lemma AfterOne<R>(a: Call<R>, step: Step<R>)
    ensures After(a, [step]) == Next(a, step)
  {
    hide Next;
    assert [step][1..] == [];
  }

  lemma CodeOf(n: int)
    ensures ToGoalState(n).Some? ==> Code(ToGoalState(n).value) == n
  {
  }

  lemma NotDone(g: GoalState)
    ensures !IsTerminal(GoalTracking.After(g))
  {
  }

  lemma StatusStep<R>(a: Call<R>, obs: seq<GoalState>, n: int)
    requires Awaits(a, obs) && ToGoalState(n).Some?
    ensures var b, g := AfterStatus(a, Some(n)), ToGoalState(n).value;
      if Feed(obs + [g]).Ok? then Awaits(b, obs + [g]) else b.failed && b.result == None && !b.lost
  {
    hide Transition, Reaches;
    var g := ToGoalState(n).value;
    CodeOf(n);
    assert (obs + [g])[..|obs|] == obs;
    Mentioned(obs, g);
    NotDone(g);
  }

  lemma AnswerStep<R>(a: Call<R>, obs: seq<GoalState>, step: Step<R>)
    requires Awaits(a, obs) && Answers(step)
    ensures var b := Next(a, step);
      if Accepts(obs, step) then b.result == Some(step.value) && b.terminated && !b.lost
      else b.result == None && b.failed && !b.lost
  {
    hide Transition, Reaches;
    var n := step.status;
    if ToGoalState(n).Some? {
      var g := ToGoalState(n).value;
      CodeOf(n);
      assert (obs + [g])[..|obs|] == obs;
      ResultExact(obs, g);
      Mentioned(obs, g);
    } else {
      ResultLate(a.tracker, true, n);
    }
  }

  // One more step of an undecided call.
  lemma OpenStep<R>(a: Call<R>, obs: seq<GoalState>, step: Step<R>)
    requires Awaits(a, obs)
    ensures var b := Next(a, step);
      if Answers(step) then
        !b.lost && b.result == (if Accepts(obs, step) then Some(step.value) else None) && (b.terminated || b.failed)
      else if Abandons(obs, step) then b.lost && b.result == None && b.terminated
      else if Feed(obs + Reported(step)).Ok? then Awaits(b, obs + Reported(step))
      else b.failed && b.result == None && !b.lost
    ensures Abandons(obs, step) ==> !Answers(step)
  {
    hide Transition, Reaches, Feed;
    assert obs + [] == obs;
    if Answers(step) {
      AnswerStep(a, obs, step);
    } else if step.StatusMessage? {
      if step.seen == None {
        Unmentioned(obs);
      } else if ToGoalState(step.seen.value) == None {
        assert step.seen.value < 0 || step.seen.value > 9;
        Unrecognised(a.tracker, step.seen.value);
      } else {
        StatusStep(a, obs, step.seen.value);
      }
      AwaitsOpen(a, obs);
    }
  }

  lemma AwaitsOpen<R>(a: Call<R>, obs: seq<GoalState>)
    requires Awaits(a, obs)
    ensures !IsTerminal(a.tracker.comm)
  {
    hide Feed;
    FeedState(obs);
    if obs != [] {
      NotDone(obs[|obs| - 1]);
    }
  }

  lemma UndecidedMore<R>(steps: seq<Step<R>>)
    requires steps != []
    ensures var n := |steps| - 1; var obs, step := Seen(steps[..n]), steps[n];
      Undecided(steps) <==>
        Undecided(steps[..n]) && !Answers(step) && !Abandons(obs, step) && Feed(obs + Reported(step)).Ok?
  {
    hide Feed, Abandons, Seen, Reported, Answers;
    var n := |steps| - 1;
    SeenMore(steps);
    FeedBefore(Seen(steps[..n]), Reported(steps[n]));
    forall i | 0 <= i < n
      ensures steps[..n][..i] == steps[..i] && steps[..n][i] == steps[i]
    {
    }
  }

  lemma SeenMore<R>(steps: seq<Step<R>>)
    requires steps != []
    ensures var n := |steps| - 1;
      Seen(steps) == Seen(steps[..n]) + Reported(steps[n]) && |Reported(steps[n])| <= 1
  {
  }

  lemma FeedBefore(obs: seq<GoalState>, more: seq<GoalState>)
    requires |more| <= 1
    ensures Feed(obs + more).Ok? ==> Feed(obs).Ok?
  {
    if more == [] {
      assert obs + more == obs;
    } else {
      assert (obs + more)[..|obs|] == obs;
    }
  }

  // A call goes on exactly as long as nothing has decided it.
  lemma {:induction false} OpenExactly<R>(steps: seq<Step<R>>)
    ensures var a := After(Start<R>(), steps);
      if Undecided(steps) then Awaits(a, Seen(steps)) else a.terminated || a.failed
    decreases |steps|
  {
    hide Feed, Next, Abandons, Reported, Awaits;
    if steps == [] {
      NothingSeen<R>();
    } else {
      var n := |steps| - 1;
      OpenExactly(steps[..n]);
      AfterSnoc(steps);
      UndecidedMore(steps);
      if Undecided(steps[..n]) {
        OpenStep(After(Start<R>(), steps[..n]), Seen(steps[..n]), steps[n]);
      } else {
        Closed(steps[..n], steps[n]);
      }
    }
  }

  lemma NothingSeen<R>()
    ensures Awaits(Start<R>(), Seen<R>([])) && Undecided<R>([])
  {
  }

  // What has decided a call stays.
  lemma Closed<R>(before: seq<Step<R>>, step: Step<R>)
    requires var a := After(Start<R>(), before); a.terminated || a.failed
    ensures var a := After(Start<R>(), before); var b := Next(a, step);
      (b.terminated || b.failed) && b.lost == a.lost && b.result == a.result
  {
    hide Transition;
    RunConsistent(Start<R>(), before);
    StepConsistent(After(Start<R>(), before), step);
  }

  // The step gives the goal up, or brings the answer.
  ghost predicate GivesUp<R>(steps: seq<Step<R>>, i: nat)
    requires i < |steps|
  {
    Undecided(steps[..i]) && Abandons(Seen(steps[..i]), steps[i])
  }

  ghost predicate Brings<R>(steps: seq<Step<R>>, i: nat, value: R)
    requires i < |steps|
  {
    && Undecided(steps[..i]) && Answers(steps[i]) && Accepts(Seen(steps[..i]), steps[i])
    && steps[i].value == value
  }

  lemma Earlier<R>(steps: seq<Step<R>>, n: nat, i: nat)
    requires i < n <= |steps|
    ensures GivesUp(steps[..n], i) <==> GivesUp(steps, i)
    ensures forall v :: Brings(steps[..n], i, v) <==> Brings(steps, i, v)
  {
    assert steps[..n][..i] == steps[..i];
  }

  // While nothing has decided it, nothing has.
  lemma NotBefore<R>(steps: seq<Step<R>>, i: nat)
    requires Undecided(steps) && i < |steps|
    ensures !GivesUp(steps, i) && forall v :: !Brings(steps, i, v)
  {
  }

  // Over every run, whatever the order of messages: a call is given up if and only if some
  // message does not mention its goal after that has been seen and before it has ended,
  // nothing else having decided the call by then.
  lemma {:induction false} LostExactly<R>(steps: seq<Step<R>>)
    ensures After(Start<R>(), steps).lost <==> exists i :: 0 <= i < |steps| && GivesUp(steps, i)
    decreases |steps|
  {
    hide Feed, Next, Abandons, Reported, Awaits, Undecided, Brings;
    if steps != [] {
      var n := |steps| - 1;
      var before := steps[..n];
      LostExactly(before);
      AfterSnoc(steps);
      OpenExactly(before);
      forall i | 0 <= i < n
        ensures GivesUp(before, i) <==> GivesUp(steps, i)
      {
        Earlier(steps, n, i);
      }
      if Undecided(before) {
        OpenStep(After(Start<R>(), before), Seen(before), steps[n]);
        forall i | 0 <= i < n
          ensures !GivesUp(steps, i)
        {
          NotBefore(before, i);
        }
        NotGivenUp(After(Start<R>(), steps), Seen(before) + Reported(steps[n]));
        assert GivesUp(steps, n) <==> Abandons(Seen(before), steps[n]);
      } else {
        Closed(before, steps[n]);
        assert !GivesUp(steps, n);
      }
    }
  }

  lemma NotGivenUp<R>(a: Call<R>, obs: seq<GoalState>)
    ensures Awaits(a, obs) ==> !a.lost && a.result == None
  {
  }

  // And the answer is the value of the first result that comes before the call has been
  // decided otherwise, if the state that it reports can be.
  lemma {:induction false} AnswerExactly<R>(steps: seq<Step<R>>, value: R)
    ensures After(Start<R>(), steps).result == Some(value) <==>
            exists i :: 0 <= i < |steps| && Brings(steps, i, value)
    decreases |steps|
  {
    hide Feed, Next, Abandons, Reported, Awaits, Undecided, Accepts, GivesUp;
    if steps != [] {
      var n := |steps| - 1;
      var before := steps[..n];
      AnswerExactly(before, value);
      AfterSnoc(steps);
      OpenExactly(before);
      forall i | 0 <= i < n
        ensures Brings(before, i, value) <==> Brings(steps, i, value)
      {
        Earlier(steps, n, i);
      }
      if Undecided(before) {
        OpenStep(After(Start<R>(), before), Seen(before), steps[n]);
        forall i | 0 <= i < n
          ensures !Brings(steps, i, value)
        {
          NotBefore(before, i);
        }
        NotGivenUp(After(Start<R>(), steps), Seen(before) + Reported(steps[n]));
        assert Brings(steps, n, value) <==>
               Answers(steps[n]) && Accepts(Seen(before), steps[n]) && steps[n].value == value;
      } else {
        Closed(before, steps[n]);
        assert !Brings(steps, n, value);
      }
    }
  }

  class ActionCall<R> {
    const sm: CommStateMachine
    var terminated: bool
    var result: Option<R>
    var watching: bool
    var awaiting: bool
    ghost var lost: bool
    var failed: bool

    constructor (goalId: string)
      ensures Abs() == Start<R>() && fresh(sm)
    {
      sm := new CommStateMachine(goalId);
      terminated, result, watching, awaiting, lost, failed := false, None, true, true, false, false;
    }

    ghost function Abs(): Call<R>
      reads this, sm
    {
      Call(sm.Abs(), terminated, result, watching, awaiting, lost, failed)
    }

    // An iteration of _track_status.
    method TrackStatus(statusList: seq<GoalStatus>)
      requires watching && !failed
      modifies this, sm
      ensures Abs() == AfterStatus(old(Abs()), FirstStatus(statusList, sm.goalId))
    {
      hide Transition;
      ghost var o := OnStatus(sm.Abs(), FirstStatus(statusList, sm.goalId));
      var r := sm.UpdateStatus(statusList);
      if r.Err? {
        failed := true;
        return;
      }
      if FirstStatus(statusList, sm.goalId) == None && o.steps != [] {
        lost := true;
      }
      if IsTerminal(sm.commState) {
        terminated := true;
        watching := false;
      }
    }

    // An iteration of _track_result.
    method TrackResult(status: GoalStatus, value: R)
      requires awaiting && !failed
      modifies this, sm
      ensures Abs() == if status.goalId == sm.goalId then AfterResult(old(Abs()), status.status, value) else old(Abs())
    {
      hide Transition;
      if status.goalId == sm.goalId {
        var r := sm.UpdateOnResultStatus(status);
        if r.Err? {
          failed := true;
          return;
        }
        if r.value {
          result := Some(value);
          terminated := true;
          awaiting := false;
        }
      }
    }
  }
}
