/**
 How a process owner completes: the goroutine that reaps the leader, callers of Terminate and Wait, and
 the termination goroutines, in every interleaving of their critical sections.
 */
module ProcessRace {
  import opened Types

  /** Where a call of terminate stands: polling the group, waiting for the leader, then completing. */
  datatype Stage = Polling | Draining | Completing | Closing | Gone

  /** The reaping goroutine; it may go on to terminate the rest of the group itself. */
  datatype Reaper = Waiting | Reaped | Stored | Signalled | Terminating(stage: Stage) | Left

  /** The guarded body of Terminate: not entered, entered, about to start the helper, through. */
  datatype Once = Fresh | Entered | Starting | Through

  datatype Owner<R> = Owner(
    leader: Option<R>,
    reaper: Reaper,
    once: Once,
    helper: Option<Stage>,
    terminating: bool,
    completed: bool,
    result: Option<R>,
    reaped: bool,
    closes: nat,
    returned: seq<R>)

  /** A process that has just been started. */
  predicate Begins<R(==)>(o: Owner<R>) {
    o == Owner(None, Waiting, Fresh, None, false, false, None, false, 0, [])
  }

  datatype Turn<R> = LeaderExits(outcome: R) | ReaperMoves | HelperMoves | CallTerminate | OnceMoves | WaitReturns

  /** One move of a call of terminate. */
  predicate StageReady<R>(o: Owner<R>, s: Stage) {
    match s
    case Draining => o.reaped
    case Gone => false
    case _ => true
  }

  function StageAfter(s: Stage): Stage {
    match s
    case Polling => Draining
    case Draining => Completing
    case Completing => Closing
    case _ => Gone
  }

  /** What that move does to the owner: complete sets the flag, then done is closed once. */
  function StageEffect<R>(o: Owner<R>, s: Stage): Owner<R> {
    match s
    case Completing => o.(completed := true)
    case Closing => o.(closes := if o.closes == 0 then 1 else o.closes)
    case _ => o
  }

  predicate Possible<R>(o: Owner<R>, t: Turn<R>) {
    match t
    case LeaderExits(_) => o.leader.None?
    case ReaperMoves =>
      (match o.reaper
       case Waiting => o.leader.Some?
       case Terminating(s) => StageReady(o, s)
       case Left => false
       case _ => true)
    case HelperMoves => o.helper.Some? && StageReady(o, o.helper.value)
    case CallTerminate => o.once.Fresh?
    case OnceMoves => o.once.Entered? || o.once.Starting?
    case WaitReturns => o.closes > 0 && o.result.Some?
  }

  function Next<R>(o: Owner<R>, t: Turn<R>): Owner<R>
    requires Possible(o, t)
  {
    match t
    case LeaderExits(outcome) => o.(leader := Some(outcome))
    case ReaperMoves =>
      (match o.reaper
       case Waiting => o.(reaper := Reaped)
       case Reaped => o.(reaper := Stored, result := o.leader)
       case Stored => o.(reaper := Signalled, reaped := true)
       case Signalled => if o.terminating then o.(reaper := Left) else o.(reaper := Terminating(Polling), terminating := true)
       case Terminating(s) => StageEffect(o, s).(reaper := Terminating(StageAfter(s)))
       case Left => o)
    case HelperMoves => StageEffect(o, o.helper.value).(helper := Some(StageAfter(o.helper.value)))
    case CallTerminate => o.(once := Entered)
    case OnceMoves =>
      if o.once.Starting? then o.(once := Through, helper := Some(Polling))
      else if o.completed then o.(once := Through)
      else o.(once := Starting, terminating := true)
    case WaitReturns => o.(returned := o.returned + [o.result.value])
  }

  predicate Moves<R(==)>(o: Owner<R>, t: Turn<R>, o': Owner<R>) {
    Possible(o, t) && o' == Next(o, t)
  }

  predicate Run<R(==)>(trace: seq<Owner<R>>, turns: seq<Turn<R>>) {
    && |trace| == |turns| + 1 && Begins(trace[0])
    && forall i :: 0 <= i < |turns| ==> Moves(trace[i], turns[i], trace[i + 1])
  }

  // ----- the invariant

  predicate StageOk<R>(o: Owner<R>, s: Stage) {
    && (s.Completing? || s.Closing? || s.Gone? ==> o.reaped)
    && (s.Gone? ==> o.closes == 1)
  }

  /** The reaper has written the leader's outcome down. */
  predicate Written(r: Reaper) {
    r.Stored? || r.Signalled? || r.Terminating? || r.Left?
  }

  /** Somebody is on the way to closing done. */
  predicate Committed<R>(o: Owner<R>) {
    || (o.reaper.Terminating? && !o.reaper.stage.Gone?)
    || (o.helper.Some? && !o.helper.value.Gone?)
    || o.once.Starting?
  }

  predicate Inv<R(==)>(o: Owner<R>) {
    && (!o.reaper.Waiting? ==> o.leader.Some?)
    && (if Written(o.reaper) then o.result.Some? && o.result == o.leader else o.result.None?)
    && (o.reaped <==> o.reaper.Signalled? || o.reaper.Terminating? || o.reaper.Left?)
    && (o.reaper.Terminating? ==> StageOk(o, o.reaper.stage))
    && (o.helper.Some? ==> o.once.Through? && StageOk(o, o.helper.value))
    && o.closes <= 1 && (o.closes == 1 || o.completed ==> o.reaped)
    && (o.terminating ==> o.closes == 1 || Committed(o))
    && (o.reaper.Left? || o.reaper.Terminating? || o.once.Starting? ==> o.terminating)
    && (forall i :: 0 <= i < |o.returned| ==> Some(o.returned[i]) == o.leader)
  }

  lemma StepKeeps<R>(o: Owner<R>, t: Turn<R>)
    requires Inv(o) && Possible(o, t)
    ensures Inv(Next(o, t))
  {
  }

  lemma {:induction false} RunKeeps<R>(trace: seq<Owner<R>>, turns: seq<Turn<R>>, i: nat)
    requires Run(trace, turns) && i < |trace|
    ensures Inv(trace[i])
  {
    if i > 0 {
      RunKeeps(trace, turns, i - 1);
      assert Moves(trace[i - 1], turns[i - 1], trace[i]);
      StepKeeps(trace[i - 1], turns[i - 1]);
    }
  }

  /**
   In every interleaving done closes at most once, and only after the leader was reaped and its result
   stored; every Wait returns that result; and once the leader is reaped somebody is always on the way
   to closing done.
   */
  lemma CompletesRight<R>(trace: seq<Owner<R>>, turns: seq<Turn<R>>, i: nat)
    requires Run(trace, turns) && i < |trace|
    ensures var o := trace[i];
            && o.closes <= 1
            && (o.closes == 1 ==> o.leader.Some? && o.result == o.leader && o.reaped)
            && (forall k :: 0 <= k < |o.returned| ==> Some(o.returned[k]) == o.leader)
            && (o.reaped ==> o.closes == 1 || o.reaper.Signalled? || Committed(o))
  {
    RunKeeps(trace, turns, i);
  }

  /** Before done is closed there is always a next move, if only the leader's exit. */
  lemma NeverStuck<R>(o: Owner<R>, outcome: R)
    requires Inv(o) && o.closes == 0
    ensures Possible(o, LeaderExits(outcome)) || Possible(o, ReaperMoves) || Possible(o, HelperMoves) || Possible(o, OnceMoves)
  {
  }

  // ----- every run closes done

  function StageWork(s: Stage): nat {
    match s
    case Polling => 4
    case Draining => 3
    case Completing => 2
    case Closing => 1
    case Gone => 0
  }

  function ReaperWork(r: Reaper): nat {
    match r
    case Waiting => 8
    case Reaped => 7
    case Stored => 6
    case Signalled => 5
    case Terminating(s) => StageWork(s)
    case Left => 0
  }

  function OnceWork(o: Once): nat {
    match o
    case Fresh => 7
    case Entered => 6
    case Starting => 5
    case Through => 0
  }

  function Work<R>(o: Owner<R>): nat {
    (if o.leader.None? then 1 else 0) + ReaperWork(o.reaper) + OnceWork(o.once) + (if o.helper.Some? then StageWork(o.helper.value) else 0)
  }

  /** Every move but the return of a Wait brings the end nearer. */
  lemma WorkShrinks<R>(o: Owner<R>, t: Turn<R>)
    requires Inv(o) && Possible(o, t) && !t.WaitReturns?
    ensures Work(Next(o, t)) < Work(o)
  {
  }
}
