// The restartable supervisor (src/proxy/mod.rs). Control operations run one
// after another; the spawned tasks run beside them, and every read or write of a
// shared field is a step of its own.

module Runtime {
  import opened Arithmetic
  import opened Wrappers

  datatype RuntimeState = Stopped | Starting | Running | Paused | Draining | Blocked | Error

  datatype Op = Start | Stop | Pause | Resume | MarkBlocked

  // What the control operation does next, by operation.
  datatype StartPc =
    | StartCheck | StartRouter | StartAccepting | StartError | StartState | StartSpawn | StartStore(task: nat)

  datatype StopPc =
    | StopCheck | StopEarly | StopState | StopAccepting | StopDrain | StopTake | StopAwait(handle: Option<nat>)
    | StopSetStopped | StopSetRunning

  datatype TogglePc = ToggleRouter | ToggleCheck | ToggleState

  datatype BlockPc = BlockError | BlockState | BlockRunning

  datatype Control =
    | Idle
    | InStart(start: StartPc)
    | InStop(stop: StopPc)
    | InToggle(pausing: bool, toggle: TogglePc)
    | InBlock(block: BlockPc)

  // What a spawned task does next. The last two come after its last write of `state`.
  datatype Pc =
    | SetRunning | SetState | EnterServe | Serving
    | NoteError | WriteError | ReadState | WriteStopped
    | ClearRunning | Ended

  datatype System = System(
    state: RuntimeState,
    running: bool,
    accepting: bool,
    routerPaused: bool,
    lastError: bool,
    handle: Option<nat>,
    tasks: map<nat, Pc>,
    control: Control)

  const INITIAL: System := System(Stopped, false, true, false, false, None, map[], Idle)

  // A fresh task number comes with the step that spawns; a task step says
  // whether serve fails.
  datatype Step =
    | Begin(op: Op)
    | Advance(task: nat)
    | TaskStep(task: nat, fails: bool)

  predicate Settled(pc: Pc) {
    pc.ClearRunning? || pc.Ended?
  }

  // Tasks that may still enter or be inside serve, or still write `state`.
  function Unsettled(tasks: map<nat, Pc>): set<nat> {
    set t | t in tasks && !Settled(tasks[t])
  }

  predicate Enabled(s: System, p: Step) {
    match p
    case Begin(op) => s.control.Idle? && (op.MarkBlocked? ==> Unsettled(s.tasks) == {})
    case Advance(task) =>
      && !s.control.Idle?
      && (s.control == InStart(StartSpawn) ==> task !in s.tasks)
      && (s.control.InStop? ==> MayGoOn(s, s.control.stop))
    case TaskStep(task, fails) =>
      && task in s.tasks && !s.tasks[task].Ended?
      && (s.tasks[task].Serving? && !fails ==> !s.accepting)
  }

  // A stop waits for the task whose handle it took.
  predicate MayGoOn(s: System, pc: StopPc) {
    pc.StopAwait? && pc.handle.Some? ==> pc.handle.value in s.tasks && s.tasks[pc.handle.value].Ended?
  }

  predicate Busy(state: RuntimeState) {
    state == Starting || state == Running || state == RuntimeState.Paused
  }

  predicate AtRest(state: RuntimeState) {
    state == Stopped || state == Blocked
  }

  function BeginOp(op: Op): Control {
    match op
    case Start => InStart(StartCheck)
    case Stop => InStop(StopCheck)
    case Pause => InToggle(true, ToggleRouter)
    case Resume => InToggle(false, ToggleRouter)
    case MarkBlocked => InBlock(BlockError)
  }

  function AdvanceStart(s: System, pc: StartPc, task: nat): System {
    match pc
    case StartCheck => s.(control := if Busy(s.state) then Idle else InStart(StartRouter))
    case StartRouter => s.(routerPaused := false, control := InStart(StartAccepting))
    case StartAccepting => s.(accepting := true, control := InStart(StartError))
    case StartError => s.(lastError := false, control := InStart(StartState))
    case StartState => s.(state := Starting, control := InStart(StartSpawn))
    case StartSpawn => s.(tasks := s.tasks[task := SetRunning], control := InStart(StartStore(task)))
    case StartStore(t) => s.(handle := Some(t), control := Idle)
  }

  function AdvanceStop(s: System, pc: StopPc): System {
    match pc
    case StopCheck => s.(control := InStop(if AtRest(s.state) then StopEarly else StopState))
    case StopEarly => s.(state := Stopped, control := Idle)
    case StopState => s.(state := Draining, control := InStop(StopAccepting))
    case StopAccepting => s.(accepting := false, control := InStop(StopDrain))
    case StopDrain => s.(control := InStop(StopTake))
    case StopTake => s.(handle := None, control := InStop(StopAwait(s.handle)))
    case StopAwait(_) => s.(control := InStop(StopSetStopped))
    case StopSetStopped => s.(state := Stopped, control := InStop(StopSetRunning))
    case StopSetRunning => s.(running := false, control := Idle)
  }

  // Pause and resume: the router flag, then a check, then the state.
  function AdvanceToggle(s: System, pausing: bool, pc: TogglePc): System {
    match pc
    case ToggleRouter => s.(routerPaused := pausing, control := InToggle(pausing, ToggleCheck))
    case ToggleCheck =>
      var due := s.state == if pausing then Running else RuntimeState.Paused;
      s.(control := if due then InToggle(pausing, ToggleState) else Idle)
    case ToggleState => s.(state := if pausing then RuntimeState.Paused else Running, control := Idle)
  }

  function AdvanceBlock(s: System, pc: BlockPc): System {
    match pc
    case BlockError => s.(lastError := true, control := InBlock(BlockState))
    case BlockState => s.(state := Blocked, control := InBlock(BlockRunning))
    case BlockRunning => s.(running := false, control := Idle)
  }

  function AdvanceControl(s: System, task: nat): System {
    match s.control
    case Idle => s
    case InStart(pc) => AdvanceStart(s, pc, task)
    case InStop(pc) => AdvanceStop(s, pc)
    case InToggle(pausing, pc) => AdvanceToggle(s, pausing, pc)
    case InBlock(pc) => AdvanceBlock(s, pc)
  }

  function AdvanceTask(s: System, t: nat, fails: bool): System
    requires t in s.tasks
  {
    match s.tasks[t]
    case SetRunning => s.(running := true, tasks := s.tasks[t := SetState])
    case SetState => s.(state := Running, tasks := s.tasks[t := EnterServe])
    case EnterServe => s.(tasks := s.tasks[t := if fails then NoteError else Serving])
    case Serving => s.(tasks := s.tasks[t := if fails then NoteError else ReadState])
    case NoteError => s.(lastError := true, tasks := s.tasks[t := WriteError])
    case WriteError => s.(state := Error, tasks := s.tasks[t := ClearRunning])
    case ReadState => s.(tasks := s.tasks[t := if s.state == Draining then ClearRunning else WriteStopped])
    case WriteStopped => s.(state := Stopped, tasks := s.tasks[t := ClearRunning])
    case ClearRunning => s.(running := false, tasks := s.tasks[t := Ended])
    case Ended => s
  }

  function Next(s: System, p: Step): System
    requires Enabled(s, p)
  {
    match p
    case Begin(op) => s.(control := BeginOp(op))
    case Advance(task) => AdvanceControl(s, task)
    case TaskStep(t, fails) => AdvanceTask(s, t, fails)
  }

  // ---------------------------------------------------------------- invariant

  predicate Live(state: RuntimeState) {
    Busy(state) || state == Draining
  }

  ghost predicate Single(tasks: map<nat, Pc>) {
    forall t, u :: t in Unsettled(tasks) && u in Unsettled(tasks) ==> t == u
  }

  // The unsettled task, if any, is the one whose handle is kept, and the state
  // shows that it is there.
  ghost predicate Kept(s: System) {
    forall t :: t in Unsettled(s.tasks) ==> s.handle == Some(t) && Live(s.state)
  }

  // Every handle is that of a task that was spawned.
  ghost predicate HandlesKnown(s: System) {
    && (s.handle.Some? ==> s.handle.value in s.tasks)
    && (s.control.InStart? && s.control.start.StartStore? ==> s.control.start.task in s.tasks)
    && (s.control.InStop? && s.control.stop.StopAwait? && s.control.stop.handle.Some? ==>
          s.control.stop.handle.value in s.tasks)
  }

  ghost predicate Inv(s: System) {
    && Single(s.tasks) && HandlesKnown(s)
    && match s.control
       case Idle => Kept(s) && s.state != Draining
       case InStart(pc) => StartInv(s, pc)
       case InStop(pc) => StopInv(s, pc)
       case InToggle(_, _) => Kept(s) && s.state != Draining
       case InBlock(_) => Unsettled(s.tasks) == {} && s.state != Draining
  }

  ghost predicate StartInv(s: System, pc: StartPc) {
    && s.state != Draining
    && match pc
       case StartCheck => Kept(s)
       case StartSpawn => Unsettled(s.tasks) == {} && s.state == Starting
       case StartStore(task) => (forall t :: t in Unsettled(s.tasks) ==> t == task && Live(s.state))
       case _ => Unsettled(s.tasks) == {}
  }

  ghost predicate StopInv(s: System, pc: StopPc) {
    match pc
    case StopCheck => Kept(s) && s.state != Draining
    case StopEarly => Unsettled(s.tasks) == {} && s.state != Draining
    case StopState => Kept(s) && s.state != Draining
    case StopAwait(handle) => forall t :: t in Unsettled(s.tasks) ==> handle == Some(t) && Live(s.state)
    case StopSetStopped => Unsettled(s.tasks) == {}
    case StopSetRunning => Unsettled(s.tasks) == {} && s.state == Stopped
    case _ => Kept(s)
  }

  lemma SettledTaskKeepsInv(s: System, t: nat, fails: bool)
    requires Inv(s) && Enabled(s, TaskStep(t, fails)) && Settled(s.tasks[t])
    ensures Inv(AdvanceTask(s, t, fails))
  {
    assert Unsettled(AdvanceTask(s, t, fails).tasks) == Unsettled(s.tasks);
  }

  // What an unsettled task can do to the state.
  lemma TaskWrites(s: System, t: nat, fails: bool)
    requires t in s.tasks && !Settled(s.tasks[t])
    ensures var n := AdvanceTask(s, t, fails);
      && n.control == s.control && n.handle == s.handle
      && t in n.tasks && n.tasks == s.tasks[t := n.tasks[t]]
      && (Settled(n.tasks[t]) || n.state == s.state || Live(n.state)) && (n.state == Draining ==> s.state == Draining)
  {
  }

  lemma UnsettledTaskKeepsInv(s: System, t: nat, fails: bool)
    requires Inv(s) && Enabled(s, TaskStep(t, fails)) && !Settled(s.tasks[t])
    ensures Inv(AdvanceTask(s, t, fails))
  {
    var n := AdvanceTask(s, t, fails);
    TaskWrites(s, t, fails);
    assert t in Unsettled(s.tasks);
    forall u ensures u in Unsettled(n.tasks) <==> u == t && !Settled(n.tasks[t]) {
      assert u in Unsettled(s.tasks) ==> u == t;
    }
  }

  lemma NotLiveIsSettled(s: System)
    requires Kept(s) && !Live(s.state)
    ensures Unsettled(s.tasks) == {}
  {
    forall t ensures t !in Unsettled(s.tasks) {
      assert t in Unsettled(s.tasks) ==> Live(s.state);
    }
  }

  lemma StartKeepsInv(s: System, pc: StartPc, task: nat)
    requires Inv(s) && s.control == InStart(pc) && Enabled(s, Advance(task))
    ensures Inv(AdvanceStart(s, pc, task))
  {
    if pc.StartSpawn? {
      assert Unsettled(s.tasks[task := SetRunning]) == {task};
    } else if pc.StartCheck? && !Live(s.state) {
      NotLiveIsSettled(s);
    }
  }

  lemma StopKeepsInv(s: System, pc: StopPc)
    requires Inv(s) && s.control == InStop(pc) && Enabled(s, Advance(0))
    ensures Inv(AdvanceStop(s, pc))
  {
    match pc
    case StopCheck =>
      if AtRest(s.state) {
        NotLiveIsSettled(s);
      }
    case StopAwait(handle) =>
      forall t ensures t !in Unsettled(s.tasks) {
        assert t in Unsettled(s.tasks) ==> handle == Some(t);
      }
    case _ =>
  }

  lemma ToggleKeepsInv(s: System, pausing: bool, pc: TogglePc)
    requires Inv(s) && s.control == InToggle(pausing, pc)
    ensures Inv(AdvanceToggle(s, pausing, pc))
  {
  }

  lemma BlockKeepsInv(s: System, pc: BlockPc)
    requires Inv(s) && s.control == InBlock(pc)
    ensures Inv(AdvanceBlock(s, pc))
  {
  }

  lemma ControlKeepsInv(s: System, task: nat)
    requires Inv(s) && Enabled(s, Advance(task))
    ensures Inv(AdvanceControl(s, task))
  {
    match s.control
    case InStart(pc) => StartKeepsInv(s, pc, task);
    case InStop(pc) => StopKeepsInv(s, pc);
    case InToggle(pausing, pc) => ToggleKeepsInv(s, pausing, pc);
    case InBlock(pc) => BlockKeepsInv(s, pc);
  }

  lemma TaskKeepsInv(s: System, t: nat, fails: bool)
    requires Inv(s) && Enabled(s, TaskStep(t, fails))
    ensures Inv(AdvanceTask(s, t, fails))
  {
    if Settled(s.tasks[t]) {
      SettledTaskKeepsInv(s, t, fails);
    } else {
      UnsettledTaskKeepsInv(s, t, fails);
    }
  }

  lemma BeginKeepsInv(s: System, op: Op)
    requires Inv(s) && Enabled(s, Begin(op))
    ensures Inv(Next(s, Begin(op)))
  {
  }

  lemma StepKeepsInv(s: System, p: Step)
    requires Inv(s) && Enabled(s, p)
    ensures Inv(Next(s, p))
  {
    match p
    case Begin(op) => BeginKeepsInv(s, op);
    case Advance(task) => ControlKeepsInv(s, task);
    case TaskStep(t, fails) => TaskKeepsInv(s, t, fails);
  }

  // ---------------------------------------------------------------- runs

  predicate Runs(s: System, ps: seq<Step>)
    decreases |ps|
  {
    ps == [] || (Enabled(s, ps[0]) && Runs(Next(s, ps[0]), ps[1..]))
  }

  function End(s: System, ps: seq<Step>): System
    requires Runs(s, ps)
    decreases |ps|
  {
    if ps == [] then s else End(Next(s, ps[0]), ps[1..])
  }

  function InServe(tasks: map<nat, Pc>): set<nat> {
    set t | t in tasks && tasks[t].Serving?
  }

  lemma AtMostOne(a: set<nat>)
    requires forall t, u :: t in a && u in a ==> t == u
    ensures |a| <= 1
  {
    if t :| t in a {
      assert a == {t};
    }
  }

  // In every reachable state at most one task is inside serve, and while one is
  // there, or on its way, a start does nothing.
  lemma {:induction false} SingleServer(s: System, ps: seq<Step>)
    requires Inv(s) && Runs(s, ps)
    ensures Inv(End(s, ps)) && |InServe(End(s, ps).tasks)| <= 1
    ensures var t := End(s, ps);
      Unsettled(t.tasks) != {} && t.control == InStart(StartCheck) ==>
        forall task :: AdvanceControl(t, task) == t.(control := Idle)
    decreases |ps|
  {
    if ps == [] {
      assert InServe(s.tasks) <= Unsettled(s.tasks);
      AtMostOne(InServe(s.tasks));
    } else {
      StepKeepsInv(s, ps[0]);
      SingleServer(Next(s, ps[0]), ps[1..]);
    }
  }

  lemma InitialInv()
    ensures Inv(INITIAL)
  {
    assert Unsettled(INITIAL.tasks) == {};
  }

  // The step that ends a stop which waited for its task leaves the runtime
  // stopped and not running, with nothing serving or about to, whatever the
  // task wrote in between.
  lemma StopEndsStopped(s: System, ps: seq<Step>, task: nat)
    requires Inv(s) && Runs(s, ps) && End(s, ps).control == InStop(StopSetRunning)
    ensures var t := Next(End(s, ps), Advance(task));
      t.control.Idle? && t.state == Stopped && !t.running && Unsettled(t.tasks) == {} && InServe(t.tasks) == {}
  {
    SingleServer(s, ps);
    var t := Next(End(s, ps), Advance(task));
    assert Unsettled(t.tasks) == Unsettled(End(s, ps).tasks);
    assert InServe(t.tasks) <= Unsettled(t.tasks);
  }

  // A stop that finds nothing to stop leaves the same, except that a finished
  // task may still have to clear `running`.
  lemma EarlyStopEndsStopped(s: System, ps: seq<Step>, task: nat)
    requires Inv(s) && Runs(s, ps) && End(s, ps).control == InStop(StopEarly)
    ensures var t := Next(End(s, ps), Advance(task));
      t.control.Idle? && t.state == Stopped && Unsettled(t.tasks) == {} && InServe(t.tasks) == {}
  {
    SingleServer(s, ps);
    var t := Next(End(s, ps), Advance(task));
    assert Unsettled(t.tasks) == Unsettled(End(s, ps).tasks);
    assert InServe(t.tasks) <= Unsettled(t.tasks);
  }

  // The task's own write of Running may land after the stop's write of Draining;
  // the task, once it leaves serve, then does not see the drain, and writes
  // Stopped itself.
  lemma StopRacesWithStarting(s: System, t: nat, task: nat)
    requires s.control == InStop(StopAccepting) && t in s.tasks && s.tasks[t].SetState?
    ensures Enabled(s, TaskStep(t, false))
    ensures var s1 := Next(s, TaskStep(t, false));
      && s1.state == Running && Enabled(s1, Advance(task))
      && var s2 := Next(s1, Advance(task));
         && s2.control == InStop(StopDrain) && Enabled(s2, TaskStep(t, false))
         && var s3 := Next(s2, TaskStep(t, false));
            && Enabled(s3, TaskStep(t, false))
            && var s4 := Next(s3, TaskStep(t, false));
               && Enabled(s4, TaskStep(t, false))
               && Next(s4, TaskStep(t, false)).tasks[t].WriteStopped?
  {
  }

  // ---------------------------------------------------------------- what can follow

  ghost predicate Leads(s: System, t: System) {
    exists ps :: Runs(s, ps) && End(s, ps) == t
  }

  lemma {:induction false} RunsConcat(s: System, a: seq<Step>, b: seq<Step>)
    requires Runs(s, a) && Runs(End(s, a), b)
    ensures Runs(s, a + b) && End(s, a + b) == End(End(s, a), b)
    decreases |a|
  {
    if a == [] {
      assert a + b == b;
    } else {
      RunsConcat(Next(s, a[0]), a[1..], b);
      assert (a + b)[0] == a[0] && (a + b)[1..] == a[1..] + b;
    }
  }

  lemma LeadsSelf(s: System)
    ensures Leads(s, s)
  {
    assert Runs(s, []) && End(s, []) == s;
  }

  lemma LeadsTrans(s: System, t: System, u: System)
    requires Leads(s, t) && Leads(t, u)
    ensures Leads(s, u)
  {
    var a :| Runs(s, a) && End(s, a) == t;
    var b :| Runs(t, b) && End(t, b) == u;
    RunsConcat(s, a, b);
  }

  lemma OneStep(s: System, p: Step)
    requires Enabled(s, p)
    ensures Leads(s, Next(s, p))
  {
    var ps, t := [p], Next(s, p);
    var rest := ps[1..];
    assert ps[0] == p && rest == [];
    assert Runs(t, rest) && End(t, rest) == t;
    assert Runs(s, ps);
    assert End(s, ps) == End(t, rest);
  }

  lemma LeadsOn(s: System, t: System, p: Step)
    requires Leads(s, t) && Enabled(t, p)
    ensures Leads(s, Next(t, p))
  {
    OneStep(t, p);
    LeadsTrans(s, t, Next(t, p));
  }

  // Whatever follows a state that satisfies the invariant satisfies it too.
  lemma LeadsKeepsInv(s: System, t: System)
    requires Inv(s) && Leads(s, t)
    ensures Inv(t) && |InServe(t.tasks)| <= 1
  {
    var ps :| Runs(s, ps) && End(s, ps) == t;
    SingleServer(s, ps);
  }

  // The state a start leaves when it spawns the task.
  function Spawned(s: System, task: nat): System {
    s.(routerPaused := false, accepting := true, lastError := false, state := Starting,
       tasks := s.tasks[task := SetRunning], handle := Some(task))
  }

  lemma StartLeads(s: System, task: nat)
    requires s.control.Idle? && task !in s.tasks
    ensures Leads(s, if Busy(s.state) then s else Spawned(s, task))
  {
    LeadsSelf(s);
    LeadsOn(s, s, Begin(Start));
    var t := s.(control := InStart(StartCheck));
    LeadsOn(s, t, Advance(task));
    if !Busy(s.state) {
      SpawnLeads(s, t.(control := InStart(StartRouter)), task);
    }
  }

  lemma SpawnLeads(s: System, t: System, task: nat)
    requires Leads(s, t) && t.control == InStart(StartRouter) && task !in t.tasks
    ensures Leads(s, Spawned(t, task).(control := Idle))
  {
    LeadsOn(s, t, Advance(task));
    var t1 := t.(routerPaused := false, control := InStart(StartAccepting));
    LeadsOn(s, t1, Advance(task));
    var t2 := t1.(accepting := true, control := InStart(StartError));
    LeadsOn(s, t2, Advance(task));
    var t3 := t2.(lastError := false, control := InStart(StartState));
    LeadsOn(s, t3, Advance(task));
    var t4 := t3.(state := Starting, control := InStart(StartSpawn));
    LeadsOn(s, t4, Advance(task));
    LeadsOn(s, t4.(tasks := t4.tasks[task := SetRunning], control := InStart(StartStore(task))), Advance(task));
  }

  // A mark_blocked that was let in, whatever the tasks are doing.
  function Marking(s: System): System {
    s.(control := InBlock(BlockError))
  }

  function Marked(s: System): System {
    s.(lastError := true, state := Blocked, running := false)
  }

  lemma MarkLeads(s: System)
    requires s.control.Idle?
    ensures Leads(Marking(s), Marked(s))
  {
    var t := Marking(s);
    LeadsSelf(t);
    LeadsOn(t, t, Advance(0));
    var t1 := t.(lastError := true, control := InBlock(BlockState));
    LeadsOn(t, t1, Advance(0));
    LeadsOn(t, t1.(state := Blocked, control := InBlock(BlockRunning)), Advance(0));
  }

  // A spawned task that is not disturbed says that it runs, and serves ..
  lemma TaskStarts(s: System, t: nat)
    requires t in s.tasks && s.tasks[t].SetRunning?
    ensures Leads(s, s.(running := true, state := Running, tasks := s.tasks[t := Serving]))
  {
    var p := TaskStep(t, false);
    OneStep(s, p);
    var u := Next(s, p);
    LeadsOn(s, u, p);
    var v := Next(u, p);
    LeadsOn(s, v, p);
    assert Next(v, p).tasks == s.tasks[t := Serving];
  }

  // .. until nothing more is accepted, or it fails, at once or later: a failure
  // is recorded, an end is Stopped unless a stop is under way, and it no longer runs.
  lemma TaskFinishes(s: System, t: nat, fails: bool)
    requires t in s.tasks && (s.tasks[t].Serving? || (s.tasks[t].EnterServe? && fails)) && (fails || !s.accepting)
    ensures var state := if fails then Error else if s.state == Draining then Draining else Stopped;
      Leads(s, s.(running := false, lastError := s.lastError || fails, state := state, tasks := s.tasks[t := Ended]))
  {
    OneStep(s, TaskStep(t, fails));
    var u := Next(s, TaskStep(t, fails));
    LeadsOn(s, u, TaskStep(t, false));
    var v := Next(u, TaskStep(t, false));
    if v.tasks[t] != ClearRunning {
      LeadsOn(s, v, TaskStep(t, false));
      v := Next(v, TaskStep(t, false));
    }
    LeadsOn(s, v, TaskStep(t, false));
    assert Next(v, TaskStep(t, false)).tasks == s.tasks[t := Ended];
  }

  // A task on its way gets into serve, with no step of another in between.
  lemma ServeLeads(s: System, t: nat) returns (v: System)
    requires t in s.tasks && s.tasks[t] in {SetRunning, SetState, EnterServe, Serving}
    ensures Leads(s, v) && v.tasks == s.tasks[t := Serving] && v.control == s.control
    ensures s.state != Draining ==> v.state != Draining
  {
    LeadsSelf(s);
    v := s;
    if v.tasks[t] == SetRunning {
      LeadsOn(s, v, TaskStep(t, false));
      v := Next(v, TaskStep(t, false));
    }
    if v.tasks[t] == SetState {
      LeadsOn(s, v, TaskStep(t, false));
      v := Next(v, TaskStep(t, false));
    }
    if v.tasks[t] == EnterServe {
      LeadsOn(s, v, TaskStep(t, false));
      v := Next(v, TaskStep(t, false));
    }
    assert v.tasks == s.tasks[t := Serving];
  }

  // A task that left serve writes its last state.
  lemma LeaveLeads(s: System, t: nat) returns (v: System)
    requires t in s.tasks && s.tasks[t] in {NoteError, WriteError, ReadState, WriteStopped} && s.state != Draining
    ensures Leads(s, v) && v.tasks == s.tasks[t := ClearRunning] && v.control == s.control && !Busy(v.state)
  {
    LeadsSelf(s);
    v := s;
    if v.tasks[t] == NoteError || v.tasks[t] == ReadState {
      LeadsOn(s, v, TaskStep(t, false));
      v := Next(v, TaskStep(t, false));
    }
    assert v.tasks[t] == WriteError || v.tasks[t] == WriteStopped;
    LeadsOn(s, v, TaskStep(t, false));
    v := Next(v, TaskStep(t, false));
    assert v.tasks == s.tasks[t := ClearRunning];
  }

  lemma TwoServing(tasks: map<nat, Pc>, t: nat, u: nat)
    requires t != u && t in InServe(tasks) && u in InServe(tasks)
    ensures |InServe(tasks)| >= 2
  {
    assert {t, u} <= InServe(tasks) && |{t, u}| == 2;
    assert InServe(tasks) == {t, u} + (InServe(tasks) - {t, u});
  }

  // From an idle runtime that has started since, a task that is still on its way
  // ends up in serve beside the new one ..
  lemma BesideTheNew(s: System, t: nat, u: nat) returns (v: System)
    requires t in s.tasks && u in s.tasks && t != u && s.tasks[u] == SetRunning
    requires s.tasks[t] in {SetRunning, SetState, EnterServe, Serving}
    ensures Leads(s, v) && |InServe(v.tasks)| >= 2
  {
    var w := ServeLeads(s, t);
    v := ServeLeads(w, u);
    LeadsTrans(s, w, v);
    TwoServing(v.tasks, t, u);
  }

  // .. and one that is on its way out makes room for a third.
  lemma BesideTheNext(s: System, t: nat, u: nat) returns (v: System)
    requires s.control.Idle? && s.state != Draining
    requires t in s.tasks && u in s.tasks && t != u && s.tasks[u] == SetRunning
    requires s.tasks[t] in {NoteError, WriteError, ReadState, WriteStopped}
    ensures Leads(s, v) && |InServe(v.tasks)| >= 2
  {
    var serving := ServeLeads(s, u);
    var left := LeaveLeads(serving, t);
    LeadsTrans(s, serving, left);
    var w := Above(left.tasks.Keys);
    StartLeads(left, w);
    var again := Spawned(left, w);
    LeadsTrans(s, left, again);
    v := ServeLeads(again, w);
    LeadsTrans(s, again, v);
    assert u in InServe(v.tasks) && w in InServe(v.tasks);
    TwoServing(v.tasks, u, w);
  }

  // However far the unsettled task is, marking blocked lets two tasks serve at
  // once a little later, although every later operation keeps to the rule.
  lemma SecondServer(s: System, t: nat) returns (v: System)
    requires s.control.Idle? && t in Unsettled(s.tasks)
    ensures Leads(Marking(s), v) && |InServe(v.tasks)| >= 2
  {
    MarkLeads(s);
    var u := Above(s.tasks.Keys);
    StartLeads(Marked(s), u);
    var spawned := Spawned(Marked(s), u);
    LeadsTrans(Marking(s), Marked(s), spawned);
    if s.tasks[t] in {SetRunning, SetState, EnterServe, Serving} {
      v := BesideTheNew(spawned, t, u);
    } else {
      v := BesideTheNext(spawned, t, u);
    }
    LeadsTrans(Marking(s), spawned, v);
  }

  // Marking blocked keeps to one server in everything that can follow if and only
  // if every task has settled: ended, or past its last write of the state.
  lemma MarkBlockedIsSafeIff(s: System)
    requires Inv(s) && s.control.Idle?
    ensures Unsettled(s.tasks) == {} <==> forall v :: Leads(Marking(s), v) ==> |InServe(v.tasks)| <= 1
  {
    if Unsettled(s.tasks) == {} {
      BeginKeepsInv(s, MarkBlocked);
      forall v | Leads(Marking(s), v) ensures |InServe(v.tasks)| <= 1 {
        var ps :| Runs(Marking(s), ps) && End(Marking(s), ps) == v;
        SingleServer(Marking(s), ps);
      }
    } else {
      var t :| t in Unsettled(s.tasks);
      var v := SecondServer(s, t);
    }
  }

  // ---------------------------------------------------------------- the runtime object

  // Steps of tasks alone, as they happen while a control operation waits.
  predicate OnlyTasks(ps: seq<Step>) {
    forall i :: 0 <= i < |ps| ==> ps[i].TaskStep?
  }

  lemma {:induction false} TasksKeepControl(s: System, ps: seq<Step>)
    requires OnlyTasks(ps) && Runs(s, ps)
    ensures End(s, ps).control == s.control && s.tasks.Keys <= End(s, ps).tasks.Keys
    decreases |ps|
  {
    if ps != [] {
      TaskKeepsControl(s, ps[0]);
      TasksKeepControl(Next(s, ps[0]), ps[1..]);
    }
  }

  lemma TaskKeepsControl(s: System, p: Step)
    requires p.TaskStep? && Enabled(s, p)
    ensures Next(s, p).control == s.control && s.tasks.Keys <= Next(s, p).tasks.Keys
  {
  }

  // A stop up to its first wait, for the requests to drain.
  function Drains(s: System): System {
    s.(state := Draining, accepting := false, control := InStop(StopDrain))
  }

  // From there to its second wait, for the task.
  function Awaits(s: System): System {
    s.(handle := None, control := InStop(StopAwait(s.handle)))
  }

  // The stop may run through: the tasks take these steps during the two waits,
  // and the awaited one has ended.
  predicate Passes(s: System, draining: seq<Step>, awaiting: seq<Step>) {
    && OnlyTasks(draining) && Runs(Drains(s), draining)
    && var awaits := Awaits(End(Drains(s), draining));
       && OnlyTasks(awaiting) && Runs(awaits, awaiting)
       && MayGoOn(End(awaits, awaiting), awaits.control.stop)
  }

  function Rank(pc: Pc): nat {
    match pc
    case SetRunning => 8
    case SetState => 7
    case EnterServe => 6
    case Serving => 5
    case NoteError => 4
    case WriteError => 3
    case ReadState => 3
    case WriteStopped => 2
    case ClearRunning => 1
    case Ended => 0
  }

  // Once nothing more is accepted a task comes to its end without failing.
  lemma {:induction false} TaskEnds(s: System, t: nat) returns (ps: seq<Step>)
    requires t in s.tasks && !s.accepting
    ensures OnlyTasks(ps) && Runs(s, ps) && t in End(s, ps).tasks && End(s, ps).tasks[t].Ended?
    decreases Rank(s.tasks[t])
  {
    if s.tasks[t].Ended? {
      ps := [];
    } else {
      var p := TaskStep(t, false);
      var rest := TaskEnds(Next(s, p), t);
      ps := [p] + rest;
      assert ps[0] == p && ps[1..] == rest;
    }
  }

  // So every stop of a proxy that runs can come to its end: nothing it waits for
  // is kept from happening.
  lemma StopCanComplete(s: System) returns (draining: seq<Step>, awaiting: seq<Step>)
    requires Inv(s) && s.control.Idle? && !AtRest(s.state)
    ensures Passes(s, draining, awaiting)
  {
    draining, awaiting := [], [];
    var awaits := Awaits(Drains(s));
    if s.handle.Some? {
      awaiting := TaskEnds(awaits, s.handle.value);
    }
  }

  // A task in serve stays there while requests are accepted, unless it fails.
  lemma ServingStays(s: System, t: nat, p: Step)
    requires t in s.tasks && s.tasks[t].Serving? && s.accepting && Enabled(s, p) && p != TaskStep(t, true)
    ensures t in Next(s, p).tasks && Next(s, p).tasks[t].Serving?
  {
    if p.Advance? { ControlKeepsTask(s, t, p.task); }
  }

  lemma ControlKeepsTask(s: System, t: nat, task: nat)
    requires t in s.tasks && Enabled(s, Advance(task))
    ensures var after := AdvanceControl(s, task).tasks; t in after && after[t] == s.tasks[t]
  {
    match s.control
    case InStart(pc) =>
    case InStop(pc) =>
    case InToggle(_, pc) =>
    case InBlock(pc) =>
    case Idle =>
  }

  function StopsAt(s: System, draining: seq<Step>, awaiting: seq<Step>): System
    requires Passes(s, draining, awaiting)
  {
    End(Awaits(End(Drains(s), draining)), awaiting).(state := Stopped, running := false, control := Idle)
  }

  lemma DrainsLeads(s: System)
    requires s.control.Idle? && !AtRest(s.state)
    ensures Leads(s, Drains(s))
  {
    LeadsSelf(s);
    LeadsOn(s, s, Begin(Stop));
    var t := s.(control := InStop(StopCheck));
    LeadsOn(s, t, Advance(0));
    var t1 := t.(control := InStop(StopState));
    LeadsOn(s, t1, Advance(0));
    LeadsOn(s, t1.(state := Draining, control := InStop(StopAccepting)), Advance(0));
  }

  lemma AwaitsLeads(s: System, t: System)
    requires Leads(s, t) && t.control == InStop(StopDrain)
    ensures Leads(s, Awaits(t))
  {
    LeadsOn(s, t, Advance(0));
    LeadsOn(s, t.(control := InStop(StopTake)), Advance(0));
  }

  lemma WaitsLead(s: System, draining: seq<Step>, awaiting: seq<Step>)
    requires s.control.Idle? && !AtRest(s.state) && Passes(s, draining, awaiting)
    ensures var drained := End(Drains(s), draining);
      Leads(s, End(Awaits(drained), awaiting)) && End(Awaits(drained), awaiting).control == Awaits(drained).control
  {
    var drained := End(Drains(s), draining);
    DrainsLeads(s);
    assert Leads(Drains(s), drained);
    LeadsTrans(s, Drains(s), drained);
    TasksKeepControl(Drains(s), draining);
    AwaitsLeads(s, drained);
    var awaited := End(Awaits(drained), awaiting);
    assert Leads(Awaits(drained), awaited);
    LeadsTrans(s, Awaits(drained), awaited);
    TasksKeepControl(Awaits(drained), awaiting);
  }

  // Past its second wait a stop writes Stopped and that nothing runs.
  lemma AwaitedStops(s: System, t: System)
    requires Inv(s) && Leads(s, t) && t.control.InStop? && t.control.stop.StopAwait? && MayGoOn(t, t.control.stop)
    ensures var u := t.(state := Stopped, running := false, control := Idle);
      Leads(s, u) && Unsettled(u.tasks) == {} && InServe(u.tasks) == {}
  {
    LeadsOn(s, t, Advance(0));
    LeadsOn(s, t.(control := InStop(StopSetStopped)), Advance(0));
    var last := t.(state := Stopped, control := InStop(StopSetRunning));
    var ps :| Runs(s, ps) && End(s, ps) == last;
    StopEndsStopped(s, ps, 0);
    LeadsOn(s, last, Advance(0));
  }

  // Such a stop is a run of the system, and ends as StopEndsStopped says.
  lemma StopLeads(s: System, draining: seq<Step>, awaiting: seq<Step>)
    requires Inv(s) && s.control.Idle? && !AtRest(s.state) && Passes(s, draining, awaiting)
    ensures var t := StopsAt(s, draining, awaiting);
      Leads(s, t) && Unsettled(t.tasks) == {} && InServe(t.tasks) == {}
  {
    WaitsLead(s, draining, awaiting);
    AwaitedStops(s, End(Awaits(End(Drains(s), draining)), awaiting));
  }

  lemma ToggleLeads(s: System, pausing: bool)
    requires s.control.Idle?
    ensures Leads(s, Toggled(s, pausing))
  {
    LeadsSelf(s);
    LeadsOn(s, s, Begin(if pausing then Pause else Resume));
    var t := s.(control := InToggle(pausing, ToggleRouter));
    LeadsOn(s, t, Advance(0));
    var t1 := t.(routerPaused := pausing, control := InToggle(pausing, ToggleCheck));
    LeadsOn(s, t1, Advance(0));
    if s.state == if pausing then Running else RuntimeState.Paused {
      LeadsOn(s, t1.(control := InToggle(pausing, ToggleState)), Advance(0));
    }
  }

  function Toggled(s: System, pausing: bool): System {
    var due := s.state == if pausing then Running else RuntimeState.Paused;
    s.(routerPaused := pausing, state := if !due then s.state else if pausing then RuntimeState.Paused else Running)
  }

  // The object between control operations. Each method is one run of the system.
  class ProxyRuntime {
    var state: RuntimeState
    var running: bool
    var accepting: bool
    var routerPaused: bool
    var lastError: bool
    var handle: Option<nat>
    var tasks: map<nat, Pc>

    function View(control: Control): System
      reads this
    {
      System(state, running, accepting, routerPaused, lastError, handle, tasks, control)
    }

    constructor ()
      ensures View(Idle) == INITIAL
    {
      state, running, accepting, routerPaused, lastError := Stopped, false, true, false, false;
      handle, tasks := None, map[];
    }

    method Start(task: nat) returns (started: bool)
      requires task !in tasks
      modifies this
      ensures View(Idle) == if Busy(old(state)) then old(View(Idle)) else Spawned(old(View(Idle)), task)
      ensures Leads(old(View(Idle)), View(Idle)) && (started <==> !Busy(old(state)))
    {
      StartLeads(View(Idle), task);
      if Busy(state) {
        return false;
      }
      routerPaused := false;
      accepting := true;
      lastError := false;
      state := Starting;
      tasks := tasks[task := SetRunning];
      handle := Some(task);
      started := true;
    }

    method Pause()
      modifies this`routerPaused, this`state
      ensures View(Idle) == Toggled(old(View(Idle)), true) && Leads(old(View(Idle)), View(Idle))
    {
      ToggleLeads(View(Idle), true);
      routerPaused := true;
      if state == Running {
        state := RuntimeState.Paused;
      }
    }

    method Resume()
      modifies this`routerPaused, this`state
      ensures View(Idle) == Toggled(old(View(Idle)), false) && Leads(old(View(Idle)), View(Idle))
    {
      ToggleLeads(View(Idle), false);
      routerPaused := false;
      if state == RuntimeState.Paused {
        state := Running;
      }
    }

    method MarkBlocked()
      modifies this`lastError, this`state, this`running
      ensures View(Idle) == Marked(old(View(Idle))) && Leads(Marking(old(View(Idle))), View(Idle))
    {
      MarkLeads(View(Idle));
      lastError := true;
      state := Blocked;
      running := false;
    }

    // `draining` and `awaiting` are the steps the tasks take during the two waits,
    // and `drained` is what the tracker reported.
    method Stop(draining: seq<Step>, awaiting: seq<Step>, drained: bool) returns (r: bool)
      requires Inv(View(Idle)) && (AtRest(state) || Passes(View(Idle), draining, awaiting))
      modifies this
      ensures r <==> AtRest(old(state)) || drained
      ensures state == Stopped && Unsettled(tasks) == {} && InServe(tasks) == {}
      ensures if AtRest(old(state)) then View(Idle) == old(View(Idle)).(state := Stopped)
        else View(Idle) == StopsAt(old(View(Idle)), draining, awaiting) && !running
      ensures Leads(old(View(Idle)), View(Idle))
    {
      ghost var before := View(Idle);
      if AtRest(state) {
        EarlyStopLeads(before);
        state := Stopped;
        return true;
      }
      StopLeads(before, draining, awaiting);
      state := Draining;
      accepting := false;
      TasksRun(InStop(StopDrain), draining);
      var awaited := handle;
      handle := None;
      TasksRun(InStop(StopAwait(awaited)), awaiting);
      state := Stopped;
      running := false;
      r := drained;
    }

    // What the tasks do while a control operation waits.
    method TasksRun(control: Control, ps: seq<Step>)
      requires OnlyTasks(ps) && Runs(View(control), ps)
      modifies this
      ensures View(control) == End(old(View(control)), ps)
    {
      TasksKeepControl(View(control), ps);
      var after := End(View(control), ps);
      state, running, accepting, routerPaused := after.state, after.running, after.accepting, after.routerPaused;
      lastError, handle, tasks := after.lastError, after.handle, after.tasks;
    }
  }

  lemma EarlyStopLeads(s: System)
    requires Inv(s) && s.control.Idle? && AtRest(s.state)
    ensures Leads(s, s.(state := Stopped)) && Unsettled(s.tasks) == {} && InServe(s.tasks) == {}
  {
    LeadsSelf(s);
    LeadsOn(s, s, Begin(Stop));
    var t := s.(control := InStop(StopCheck));
    LeadsOn(s, t, Advance(0));
    var t1 := t.(control := InStop(StopEarly));
    var ps :| Runs(s, ps) && End(s, ps) == t1;
    EarlyStopEndsStopped(s, ps, 0);
    LeadsOn(s, t1, Advance(0));
  }
}
