/** What one process can do on its own: paths made of its steps only. */
module Paths {
  import opened Types
  import opened Sequential
  import opened Tables
  import opened Protocol

  /**
   * The connection of a publish: steady; broken at the first try, before or after the message
   * reached the broker; or lost, when the second try raises too although the message got through,
   * once or twice. (If it did not get through at all, the publish is just a call that raises.)
   */
  datatype Connection = Steady | Broken(reached: bool) | Lost(twice: bool)

  predicate Twice(connection: Connection) {
    connection == Broken(true) || connection == Lost(true)
  }

  /**
   * A process, with what its surroundings will do to it. For a worker: at which positions the
   * next call raises, whether the second statement of `start_chunk`, the put of the part or the
   * completion of the chunk raises after its effect, and its connection.
   * For an API process: the id its new job gets, where a call raises, and after how many
   * messages its connection breaks.
   */
  datatype Actor =
    | WorkerActor(w: nat, raises: Pc -> bool, startRaises: bool, putRaises: bool, commitRaises: bool, connection: Connection)
    | ProducerActor(p: nat, job: JobId, fails: Producer -> bool, breakAt: Option<nat>)

  /** The call before this position raised after its effect: `start_chunk`, the put, the completion, or the publish of a parked message. */
  predicate RaisedLate(me: Actor, pc: Pc)
    requires me.WorkerActor?
  {
    || (me.startRaises && pc.Converting?)
    || (me.putRaises && pc.PartStored?)
    || (me.commitRaises && pc == Assembling(Counted))
    || (me.connection.Lost? && pc.Parked?)
  }

  /** No call raises at this position. */
  predicate Smooth(me: Actor, pc: Pc)
    requires me.WorkerActor?
  {
    !me.raises(pc) && !RaisedLate(me, pc)
  }

  /** The next step of a worker: its next statement, or the exception it meets. */
  function WorkerStep(me: Actor, pc: Pc): Step
    requires me.WorkerActor?
  {
    if Smooth(me, pc) then Work(me.w, Twice(me.connection))
    else if (pc.Converting? && !me.startRaises) || pc.Converted? || (pc.PartStored? && me.putRaises) then ConversionRaises(me.w)
    else if pc.Assembling? && !RaisedLate(me, pc) then AssemblyRaises(me.w)
    else HandlerRaises(me.w)
  }

  /** The worker stands at `pc` with this message. */
  ghost predicate At(s: State, me: Actor, task: Task, pc: Pc) {
    me.WorkerActor? && IsBusy(s, me.w) && s.workers[me.w].task == task && s.workers[me.w].pc == pc
  }

  predicate Working(producer: Producer) {
    !producer.Free? && !producer.Served? && !producer.Submitted?
  }

  /** The next step of an API process; it gives up where a call raises, and an id in use makes `create_job` raise. */
  function ProducerStep(me: Actor, db: Db, producer: Producer): Step
    requires me.ProducerActor? && Working(producer)
  {
    if me.fails(producer) then GiveUp(me.p)
    else match producer
      case Uncached(_) => if me.job in db.jobs || me.job in db.chunks then GiveUp(me.p) else Create(me.p, me.job)
      case Sending(_, next, again) => if !again && me.breakAt == Some(next) then PublishAgain(me.p) else Publish(me.p)
      case _ => Lookup(me.p)
  }

  /** The steps a process makes itself; it does not acknowledge its own message or take up the next request. */
  predicate OwnStep(s: State, step: Step, actor: Actor) {
    match actor
    case WorkerActor(w, _, _, _, _, _) =>
      IsBusy(s, w) && !s.workers[w].pc.Acking? && step == WorkerStep(actor, s.workers[w].pc)
    case ProducerActor(p, _, _, _) =>
      p < |s.producers| && Working(s.producers[p]) && step == ProducerStep(actor, s.db, s.producers[p])
  }

  ghost predicate IsPath(e: Setup, states: seq<State>, steps: seq<Step>, actor: Actor) {
    && |states| == |steps| + 1
    && forall k :: 0 <= k < |steps| ==>
         OwnStep(states[k], steps[k], actor) && Enabled(states[k], steps[k]) && states[k + 1] == Next(e, states[k], steps[k])
  }

  /** Steps of one process alone lead from one state to the other. */
  ghost predicate Reaches(e: Setup, actor: Actor, s: State, t: State) {
    exists states, steps :: IsPath(e, states, steps, actor) && states[0] == s && states[|steps|] == t
  }

  // ---- A process left alone has one outcome ----

  /** The process has come to its end. */
  predicate AtRest(s: State, actor: Actor) {
    match actor
    case WorkerActor(w, _, _, _, _, _) => IsBusy(s, w) && s.workers[w].pc.Acking?
    case ProducerActor(p, _, _, _) => p < |s.producers| && !Working(s.producers[p])
  }

  /** At any point a process has at most one step to make, and at its end none. */
  lemma OneOwnStep(s: State, a: Step, b: Step, actor: Actor)
    requires OwnStep(s, a, actor) && Enabled(s, a)
    ensures !AtRest(s, actor)
    ensures OwnStep(s, b, actor) && Enabled(s, b) ==> a == b
  {
  }

  lemma {:induction false} SamePath(e: Setup, a: seq<State>, x: seq<Step>, b: seq<State>, y: seq<Step>, actor: Actor, k: nat)
    requires IsPath(e, a, x, actor) && IsPath(e, b, y, actor) && a[0] == b[0] && k <= |x| && k <= |y|
    ensures a[k] == b[k]
  {
    hide Next, Enabled, OwnStep;
    if k > 0 {
      SamePath(e, a, x, b, y, actor, k - 1);
      OneOwnStep(a[k - 1], x[k - 1], y[k - 1], actor);
    }
  }

  /** So where a process comes to its end is determined by where it started. */
  lemma OneOutcome(e: Setup, actor: Actor, s: State, t: State, u: State)
    requires Reaches(e, actor, s, t) && AtRest(t, actor) && Reaches(e, actor, s, u) && AtRest(u, actor)
    ensures t == u
  {
    hide Next, Enabled, OwnStep, AtRest;
    var a, x :| IsPath(e, a, x, actor) && a[0] == s && a[|x|] == t;
    var b, y :| IsPath(e, b, y, actor) && b[0] == s && b[|y|] == u;
    var k := if |x| <= |y| then |x| else |y|;
    SamePath(e, a, x, b, y, actor, k);
    if k < |x| {
      OneOwnStep(a[k], x[k], x[k], actor);
    } else if k < |y| {
      OneOwnStep(b[k], y[k], y[k], actor);
    }
  }

  /** What every own step of a process keeps, its paths keep. */
  lemma PathKeeps(e: Setup, actor: Actor, s: State, t: State, inv: State -> bool)
    requires Reaches(e, actor, s, t) && inv(s)
    requires forall x, step :: inv(x) && OwnStep(x, step, actor) && Enabled(x, step) ==> inv(Next(e, x, step))
    ensures inv(t)
  {
    hide Next, Enabled, OwnStep;
    var states, steps :| IsPath(e, states, steps, actor) && states[0] == s && states[|steps|] == t;
    PathKeepsAt(e, actor, states, steps, |steps|, inv);
  }

  lemma {:induction false} PathKeepsAt(e: Setup, actor: Actor, states: seq<State>, steps: seq<Step>, k: nat, inv: State -> bool)
    requires IsPath(e, states, steps, actor) && k <= |steps| && inv(states[0])
    requires forall x, step :: inv(x) && OwnStep(x, step, actor) && Enabled(x, step) ==> inv(Next(e, x, step))
    ensures inv(states[k])
  {
    hide Next, Enabled, OwnStep;
    if k > 0 {
      PathKeepsAt(e, actor, states, steps, k - 1, inv);
      assert OwnStep(states[k - 1], steps[k - 1], actor);
    }
  }

  // ---- Putting paths together ----

  lemma ReachesItself(e: Setup, actor: Actor, s: State)
    ensures Reaches(e, actor, s, s)
  {
    var states, steps: seq<Step> := [s], [];
    assert IsPath(e, states, steps, actor) && states[0] == s && states[|steps|] == s;
  }

  lemma ReachesNext(e: Setup, actor: Actor, s: State, t: State, step: Step)
    requires Reaches(e, actor, s, t) && OwnStep(t, step, actor) && Enabled(t, step)
    ensures Reaches(e, actor, s, Next(e, t, step))
  {
    hide Next, Enabled, OwnStep;
    var states, steps :| IsPath(e, states, steps, actor) && states[0] == s && states[|steps|] == t;
    var after := Next(e, t, step);
    assert IsPath(e, [t, after], [step], actor) && [t, after][0] == t && [t, after][|[step]|] == after;
    PathsJoin(e, actor, states, steps, [t, after], [step]);
    var states', steps' := states + [t, after][1..], steps + [step];
    assert IsPath(e, states', steps', actor) && states'[0] == s && states'[|steps'|] == after;
  }

  lemma PathsJoin(e: Setup, actor: Actor, a: seq<State>, x: seq<Step>, b: seq<State>, y: seq<Step>)
    requires IsPath(e, a, x, actor) && IsPath(e, b, y, actor) && a[|x|] == b[0]
    ensures IsPath(e, a + b[1..], x + y, actor)
  {
    hide Next, Enabled, OwnStep;
    var states, steps := a + b[1..], x + y;
    forall k | 0 <= k < |steps|
      ensures OwnStep(states[k], steps[k], actor) && Enabled(states[k], steps[k]) && states[k + 1] == Next(e, states[k], steps[k])
    {
      if k < |x| {
        assert states[k] == a[k] && states[k + 1] == a[k + 1] && steps[k] == x[k];
      } else {
        assert states[k] == b[k - |x|] && states[k + 1] == b[k - |x| + 1] && steps[k] == y[k - |x|];
      }
    }
  }

  lemma ReachesOn(e: Setup, actor: Actor, s: State, t: State, u: State)
    requires Reaches(e, actor, s, t) && Reaches(e, actor, t, u)
    ensures Reaches(e, actor, s, u)
  {
    hide Next, Enabled, OwnStep;
    var a, x :| IsPath(e, a, x, actor) && a[0] == s && a[|x|] == t;
    var b, y :| IsPath(e, b, y, actor) && b[0] == t && b[|y|] == u;
    PathsJoin(e, actor, a, x, b, y);
    hide IsPath;
    var states, steps := a + b[1..], x + y;
    assert IsPath(e, states, steps, actor) && states[0] == s && states[|steps|] == u;
  }
}
