/** The durable turn protocol of one session, one step at a time, with every crash it must survive. */
module System {
  import opened Hop
  import opened EventLog
  import opened Controller
  import opened Runtime
  import opened Substrate
  import opened Relay
  import opened Session

  /** A session as its client created it. */
  datatype World = World(p: Params, bootstrap: Envelope)

  ghost predicate ValidWorld(w: World) {
    WellFormed(w.p) && FromClient(w.p, w.bootstrap)
  }

  // ---------- state ----------

  /** A turn the driver is after: `want` is the message execA2A sends, None when completing an interrupted turn. */
  datatype Job = Job(agent: string, want: Option<Envelope>, inputs: seq<Step>)

  /** Where the driver's Exec call stands; `pre` is the snapshot's name when the turn started. */
  datatype Stage =
    | Trying
    | Started(plan: ExecPlan, pre: nat)
    | Ready(queued: seq<Step>, pre: nat)
    | Awaiting(msg: Envelope, pre: nat)
    | Got(out: Envelope, pre: nat)
    | Kept(out: Envelope)

  /** checkpointd's own volatile state: gone after a crash. */
  datatype Driver = Down | Relaying(res: Envelope) | Turning(job: Job, stage: Stage)

  /** The open turn, as the log shows it. */
  datatype Open = Open(agent: string, inputs: seq<Step>, msg: Envelope, logged: Option<Envelope>)

  /**
   * log and actors are durable, driver is volatile, uris counts snapshots. The other fields only record what has
   * been committed: the open turn, the finished turns with the runtimes they left, and the hops that led there.
   */
  datatype Sys = Sys(
    log: seq<StepEvent>,
    actors: map<string, Actor>,
    driver: Driver,
    uris: nat,
    open: Option<Open>,
    cfg: Config,
    segs: seq<Segment>)

  function BootMemory(w: World, a: string): Memory
    requires a in w.p.locals
  {
    Memory(Boot(w.p.locals[a]), map[])
  }

  function Init(w: World): Sys
    requires w.p.locals.Keys == w.p.agents.Keys
  {
    Sys([], map a | a in w.p.agents :: Absent, Down, 0, None, BootConfig(w.p), [])
  }

  // ---------- steps ----------

  datatype Label =
    // checkpointd
    | Restart | NextMessage(data: Data) | Send(mint: string) | Stop
    | StartTurn(fate: Fate) | LogIn(lands: bool) | Connect | LoseConnection | Receive
    | SaveState(suspend: SuspendFate) | CommitNext(lands: bool)
    | DriverCrash
    // actors
    | RoundEnds(a: string, stepID: string, choice: Choice)
    | WorkerCrash(a: string) | ProcessDies(a: string) | SuspendEnds(a: string, recorded: bool)

  function Retry(s: Sys): Sys
    requires s.driver.Turning?
  {
    s.(driver := Turning(s.driver.job, Trying))
  }

  /** establishRelayState: the bootstrap, the last committed hop, or the one turn to complete first. */
  function DoRestart(w: World, s: Sys): Sys {
    if !s.driver.Down? then s
    else if LastHop(s.log).None? then s.(driver := Relaying(w.bootstrap))
    else
      var last := s.log[|s.log| - 1];
      if last.state == StateCompleted then s.(driver := Relaying(LastHop(s.log).value))
      else s.(driver := Turning(Job(last.conversationID, None, []), Trying))
  }

  /** continueRelayLoop: a new client message, taken only when the newest hop is a final reply. */
  function DoNextMessage(s: Sys, data: Data): Sys {
    if s.driver.Down? && LastHop(s.log).Some? && IsTerminalReply(LastHop(s.log).value) then
      s.(driver := Relaying(Envelope("", LastHop(s.log).value.from, "", "", false, data)))
    else s
  }

  /** The head of driveRelayLoop and of execA2A: address the next turn and give it a step id. */
  function DoSend(s: Sys, mint: string): Sys {
    if !s.driver.Relaying? || IsTerminalReply(s.driver.res) then s
    else
      var res := s.driver.res;
      var events := Conv(s.log, res.to);
      var used := StepIDs(events);
      if !UsableID(used, res.stepID) && !UsableID(used, mint) then s.(driver := Down)
      else
        var msg := if UsableID(used, res.stepID) then res else res.(stepID := mint);
        s.(driver := Turning(Job(res.to, Some(msg), TurnInputs(s.log, res.to, msg)), Trying))
  }

  /** driveRelayLoop's exit: a hop without recipient ends it. */
  function DoStop(s: Sys): Sys {
    if s.driver.Relaying? && IsTerminalReply(s.driver.res) then s.(driver := Down) else s
  }

  /** execA2A names its agent; establishRelayState leaves it to the log. */
  function PlanFor(w: World, log: seq<StepEvent>, job: Job): ExecPlan {
    PlanExec(Conv(log, job.agent), if job.want.Some? then job.agent else "", job.inputs, w.p.agents.Keys, "")
  }

  function DoStartTurn(w: World, s: Sys, fate: Fate): Sys {
    if !s.driver.Turning? || !s.driver.stage.Trying? then s
    else
      var job := s.driver.job;
      var plan := PlanFor(w, s.log, job);
      if plan.Reject? || job.agent !in s.actors || job.agent !in w.p.locals then s
      else AfterStart(s, plan, Start(s.actors[job.agent], BootMemory(w, job.agent), fate, s.uris + 1))
  }

  function AfterStart(s: Sys, plan: ExecPlan, r: (Actor, bool)): Sys
    requires s.driver.Turning?
  {
    var job := s.driver.job;
    var s' := s.(actors := s.actors[job.agent := r.0], uris := s.uris + 1);
    if r.1 then s'.(driver := Turning(job, Started(plan, URI(r.0)))) else s'
  }

  /** The envelope a turn is about: the last of its input steps. */
  function Current(inputs: seq<Step>): Option<Envelope> {
    if inputs == [] then None else Parse(inputs[|inputs| - 1].text)
  }

  /** A new turn logs its inputs before anything runs; an interrupted one reuses the logged ones. */
  function DoLogIn(w: World, s: Sys, lands: bool): Sys {
    if !s.driver.Turning? || !s.driver.stage.Started? then s
    else
      var job, plan, pre := s.driver.job, s.driver.stage.plan, s.driver.stage.pre;
      match plan
      case Reject(_) => s
      case Redo(_, inputs) => s.(driver := Turning(job, Ready(inputs, pre)))
      case Fresh(harness, inputs) =>
        if !lands || Current(inputs).None? then Retry(s)
        else
          s.(log := s.log + [InputEvent(w.p.session, job.agent, harness, inputs)],
             open := Some(Open(job.agent, inputs, Current(inputs).value, None)),
             driver := Turning(job, Ready(inputs, pre)))
  }

  function DoConnect(s: Sys): Sys {
    if !s.driver.Turning? || !s.driver.stage.Ready? then s
    else
      var job, stage := s.driver.job, s.driver.stage;
      if Current(stage.queued).None? || Current(stage.queued).value.stepID == "" || job.agent !in s.actors then Retry(s)
      else
        var act := s.actors[job.agent];
        if act.Absent? || act.state != Running || act.mem.None? then Retry(s)
        else
          var msg := Current(stage.queued).value;
          s.(actors := s.actors[job.agent := act.(mem := Some(Arrive(act.mem.value, msg)))],
             driver := Turning(job, Awaiting(msg, stage.pre)))
  }

  function DoLoseConnection(s: Sys): Sys {
    if s.driver.Turning? && s.driver.stage.Awaiting? then Retry(s) else s
  }

  /** The round's own result, or the stored one of the latest step id. */
  function DoReceive(s: Sys): Sys {
    if !s.driver.Turning? || !s.driver.stage.Awaiting? || s.driver.job.agent !in s.actors then s
    else
      var job, stage, act := s.driver.job, s.driver.stage, s.actors[s.driver.job.agent];
      if act.Absent? || act.mem.None? || act.mem.value.rt.lastInputID != stage.msg.stepID || act.mem.value.rt.last.None?
      then s
      else
        match act.mem.value.rt.last.value
        case Err(_) => Retry(s)
        case Ok(out) => s.(driver := Turning(job, Got(out, stage.pre)))
  }

  function DoSaveState(s: Sys, suspend: SuspendFate): Sys {
    if !s.driver.Turning? || !s.driver.stage.Got? || s.driver.job.agent !in s.actors then s
    else
      var job, stage := s.driver.job, s.driver.stage;
      var (act, ok) := Checkpoint(s.actors[job.agent], stage.pre, suspend, s.uris + 1);
      s.(actors := s.actors[job.agent := act], uris := s.uris + 1,
         driver := Turning(job, if ok then Kept(stage.out) else Trying))
  }

  /** commit's own check of what is already logged. */
  predicate CommitAccepts(s: Sys) {
    s.driver.Turning? && s.driver.stage.Kept? &&
    IsPrefixOf(PendingOutputs(Conv(s.log, s.driver.job.agent)), [ReplyStep(s.driver.stage.out)])
  }

  /** The next append of commit: the output, if the log lacks it, then COMPLETED. */
  function DoCommitNext(w: World, s: Sys, lands: bool): Sys {
    if !s.driver.Turning? || !s.driver.stage.Kept? then s
    else if !CommitAccepts(s) || !lands then Retry(s)
    else
      var job, out := s.driver.job, s.driver.stage.out;
      var already := PendingOutputs(Conv(s.log, job.agent));
      var ev := CommitPlan(w.p.session, job.agent, |already|, [ReplyStep(out)])[0];
      var s' := s.(log := s.log + [ev]);
      if ev.state != StateCompleted then
        if s.open.None? then s' else s'.(open := Some(s.open.value.(logged := Some(out))))
      else
        // execA2A keeps asking until the reply is stamped with its own step id
        var done := if job.want.Some? && job.want.value.stepID != out.stepID then Turning(job, Trying)
            else Relaying(out);
        TurnDone(w, s'.(driver := done), job.agent, out)
  }

  /** The record of a turn whose COMPLETED has landed. */
  function TurnDone(w: World, s: Sys, a: string, out: Envelope): Sys {
    if s.open.None? || a !in s.actors || s.actors[a].Absent? || s.actors[a].snap.None? || s.actors[a].snap.value.mem.rt.rounds == []
    then s
    else
      var rt := s.actors[a].snap.value.mem.rt;
      var turn := Turn(a, s.open.value.inputs, s.open.value.msg, out);
      s.(open := None,
         cfg := Config(s.cfg.rts[a := rt], s.cfg.turns + [turn], out),
         segs := ExtendSegs(s.segs, s.open.value.msg, rt.rounds[|rt.rounds| - 1].choice))
  }

  function ExtendSegs(segs: seq<Segment>, msg: Envelope, choice: Choice): seq<Segment> {
    var hop := HopItem(msg.stepID, choice);
    if msg.from == "" || segs == [] then segs + [Segment(msg, [hop])]
    else
      var last := segs[|segs| - 1];
      segs[..|segs| - 1] + [last.(hops := last.hops + [hop])]
  }

  function OnActor(s: Sys, a: string, act: Actor): Sys {
    s.(actors := s.actors[a := act])
  }

  function DoRoundEnds(w: World, s: Sys, a: string, stepID: string, choice: Choice): Sys {
    if a !in s.actors || a !in w.p.agents || s.actors[a].Absent? || s.actors[a].mem.None? || s.actors[a].state != Running
       || stepID !in s.actors[a].mem.value.inFlight
    then s
    else
      var act := s.actors[a];
      OnActor(s, a, act.(mem := Some(Finish(w.p.agents[a], a, act.mem.value, stepID, choice))))
  }

  function DoWorkerCrash(s: Sys, a: string): Sys {
    if a in s.actors && s.actors[a].Actor? && s.actors[a].state in {Running, Resuming, Suspending}
    then OnActor(s, a, Dead(s.actors[a], Crashed))
    else s
  }

  /** The process dies while the actor still looks as it did. */
  function DoProcessDies(s: Sys, a: string): Sys {
    if a in s.actors && s.actors[a].Actor? then OnActor(s, a, s.actors[a].(mem := None)) else s
  }

  /** A suspend nobody is waiting for any more completes, with or without recording anything. */
  function DoSuspendEnds(s: Sys, a: string, recorded: bool): Sys {
    if a in s.actors && s.actors[a].Actor? && s.actors[a].state == Suspending
    then
      OnActor(s, a, if recorded then Recorded(s.actors[a], s.uris + 1) else Dead(s.actors[a], Suspended))
        .(uris := s.uris + 1)
    else s
  }

  function Take(w: World, s: Sys, l: Label): Sys {
    match l
    case Restart => DoRestart(w, s)
    case NextMessage(data) => DoNextMessage(s, data)
    case Send(mint) => DoSend(s, mint)
    case Stop => DoStop(s)
    case StartTurn(fate) => DoStartTurn(w, s, fate)
    case LogIn(lands) => DoLogIn(w, s, lands)
    case Connect => DoConnect(s)
    case LoseConnection => DoLoseConnection(s)
    case Receive => DoReceive(s)
    case SaveState(suspend) => DoSaveState(s, suspend)
    case CommitNext(lands) => DoCommitNext(w, s, lands)
    case DriverCrash => s.(driver := Down)
    case RoundEnds(a, stepID, choice) => DoRoundEnds(w, s, a, stepID, choice)
    case WorkerCrash(a) => DoWorkerCrash(s, a)
    case ProcessDies(a) => DoProcessDies(s, a)
    case SuspendEnds(a, recorded) => DoSuspendEnds(s, a, recorded)
  }

  /** The state after any interleaving of steps whatsoever. */
  function Run(w: World, labels: seq<Label>): Sys
    requires w.p.locals.Keys == w.p.agents.Keys
  {
    if labels == [] then Init(w) else Take(w, Run(w, labels[..|labels| - 1]), labels[|labels| - 1])
  }

  /** The states a run goes through, one label apart, from the first one on. */
  ghost predicate IsTrace(w: World, trace: seq<Sys>, labels: seq<Label>)
    requires w.p.locals.Keys == w.p.agents.Keys
  {
    && |trace| == |labels| + 1 && trace[0] == Init(w)
    && forall i :: 0 <= i < |labels| ==> trace[i + 1] == Take(w, trace[i], labels[i])
  }

  /** Some run, with any crashes at any points, ends in `s`. */
  ghost predicate Reachable(w: World, s: Sys)
    requires w.p.locals.Keys == w.p.agents.Keys
  {
    exists trace, labels :: IsTrace(w, trace, labels) && s == trace[|labels|]
  }

  lemma {:induction false} RunHasTrace(w: World, labels: seq<Label>) returns (trace: seq<Sys>)
    requires w.p.locals.Keys == w.p.agents.Keys
    ensures IsTrace(w, trace, labels) && trace[|labels|] == Run(w, labels)
  {
    hide Take;
    if labels == [] {
      trace := [Init(w)];
    } else {
      var n := |labels| - 1;
      trace := RunHasTrace(w, labels[..n]);
      trace := trace + [Take(w, trace[n], labels[n])];
    }
  }

  lemma {:induction false} TraceIsRun(w: World, trace: seq<Sys>, labels: seq<Label>)
    requires w.p.locals.Keys == w.p.agents.Keys && IsTrace(w, trace, labels)
    ensures trace[|labels|] == Run(w, labels)
  {
    hide Take;
    if labels != [] {
      var n := |labels| - 1;
      TraceIsRun(w, trace[..n + 1], labels[..n]);
    }
  }

  /** The reachable states are exactly those that runs end in. */
  lemma {:induction false} ReachableIsRun(w: World, s: Sys) returns (labels: seq<Label>)
    requires w.p.locals.Keys == w.p.agents.Keys && Reachable(w, s)
    ensures Run(w, labels) == s
  {
    hide Take, Run;
    var trace, l :| IsTrace(w, trace, l) && s == trace[|l|];
    TraceIsRun(w, trace, l);
    labels := l;
  }

  // ---------- the invariant ----------

  function OpenAt(open: Option<Open>, a: string): Option<Open> {
    if open.Some? && open.value.agent == a then open else None
  }

  function OpenMsg(open: Option<Open>, a: string): Option<Envelope> {
    if OpenAt(open, a).Some? then Some(open.value.msg) else None
  }

  /** `rt` is `base` having lived through the open turn's one execution. */
  ghost predicate Executed(p: Params, a: string, base: Runtime, msg: Envelope, rt: Runtime) {
    && a in p.agents
    && rt.rounds != []
    && rt == Route(p.agents[a], a, base, msg, rt.rounds[|rt.rounds| - 1].choice)
  }

  ghost predicate ExecutedWith(p: Params, a: string, base: Runtime, msg: Envelope, rt: Runtime, out: Envelope) {
    Executed(p, a, base, msg, rt) && rt.last == Some(Ok(out))
  }

  ghost predicate ExecutedOk(p: Params, a: string, base: Runtime, msg: Envelope, rt: Runtime) {
    Executed(p, a, base, msg, rt) && rt.last.Some? && rt.last.value.Ok?
  }

  /** The snapshot holds the finished turns, or those and the open one. */
  ghost predicate SnapshotOK(p: Params, a: string, base: Runtime, om: Option<Envelope>, snap: Memory) {
    snap.inFlight == map[] && (snap.rt == base || (om.Some? && ExecutedOk(p, a, base, om.value, snap.rt)))
  }

  /** A live process is what its snapshot says, or a turn further on, or in the middle of that turn. */
  ghost predicate MemoryOK(p: Params, a: string, base: Runtime, om: Option<Envelope>, snap: Memory, mem: Memory) {
    if snap.rt != base then mem == snap
    else
      || mem == Memory(base, map[])
      || (om.Some? && mem == Memory(base, map[om.value.stepID := om.value]))
      || (om.Some? && mem.inFlight == map[] && Executed(p, a, base, om.value, mem.rt))
  }

  ghost predicate ActorOK(p: Params, a: string, base: Runtime, om: Option<Envelope>, boot: Memory, act: Actor,
                          uris: nat) {
    && SnapshotOK(p, a, base, om, Saved(act, boot))
    && URI(act) <= uris
    && (act.Actor? && act.snap.Some? ==> act.snap.value.uri != 0)
    && (act.Actor? && act.mem.Some? ==>
          act.state in {Running, Suspending} && MemoryOK(p, a, base, om, Saved(act, boot), act.mem.value))
    && (act.Actor? && act.state == Suspending && act.mem.Some? ==>
          && act.mem.value.inFlight == map[]
          && om.Some? && ExecutedOk(p, a, base, om.value, act.mem.value.rt))
  }

  ghost predicate ActorsOK(w: World, actors: map<string, Actor>, rts: map<string, Runtime>, open: Option<Open>,
                           uris: nat) {
    && w.p.locals.Keys == w.p.agents.Keys
    && actors.Keys == w.p.agents.Keys && rts.Keys == w.p.agents.Keys
    && forall a :: a in w.p.agents ==> ActorOK(w.p, a, rts[a], OpenMsg(open, a), BootMemory(w, a), actors[a], uris)
  }

  /** The session's first message: the client's own, under its own step id if it has one. */
  ghost predicate IsBootstrap(w: World, msg: Envelope) {
    msg == w.bootstrap.(stepID := msg.stepID) && (w.bootstrap.stepID != "" ==> msg == w.bootstrap)
  }

  /** `msg` is what a crash-free relay would deliver next. */
  ghost predicate LegalNext(w: World, cfg: Config, msg: Envelope) {
    && msg.to in w.p.agents && msg.to in cfg.rts
    && UsableID(Served(cfg.rts[msg.to]), msg.stepID)
    && if IsTerminalReply(cfg.env) then
         FromClient(w.p, msg) && (cfg.turns == [] ==> IsBootstrap(w, msg))
       else
         && msg.from != ""
         && msg == cfg.env.(stepID := msg.stepID)
         && (UsableID(Served(cfg.rts[msg.to]), cfg.env.stepID) ==> msg.stepID == cfg.env.stepID)
  }

  ghost predicate CfgOK(w: World, cfg: Config, segs: seq<Segment>)
    requires w.p.locals.Keys == w.p.agents.Keys
  {
    && SessionRun(w.p, segs) == Some(cfg)
    && (forall i :: 0 <= i < |segs| ==> segs[i].hops != [])
    && if segs == [] then cfg == BootConfig(w.p)
       else
         && cfg.turns != [] && cfg.env.from in w.p.agents
         && IsBootstrap(w, segs[0].ext)
  }

  function LoggedSteps(o: Open): seq<EventLog.Step> {
    if o.logged.Some? then [ReplyStep(o.logged.value)] else []
  }

  /** The events of the open turn. */
  function OpenLog(w: World, open: Option<Open>): seq<StepEvent> {
    if open.None? then []
    else
      [InputEvent(w.p.session, open.value.agent, open.value.agent, open.value.inputs)] +
      (if open.value.logged.Some?
       then [OutputEvent(w.p.session, open.value.agent, LoggedSteps(open.value), StatePending)] else [])
  }

  /** What one conversation of the log reads as, with `o` open in it and `served` the ids it finished. */
  ghost predicate ConvReads(c: seq<StepEvent>, a: string, o: Option<Open>, served: set<string>) {
    && (StateOf(c) == StatePending <==> o.Some?)
    && HarnessOf(c) in {"", a}
    && (o.Some? ==> HarnessOf(c) == a && PendingInputs(c) == o.value.inputs && PendingOutputs(c) == LoggedSteps(o.value))
    && StepIDs(c) == served + if o.Some? then {o.value.msg.stepID} else {}
  }

  ghost predicate ConvsRead(w: World, log: seq<StepEvent>, rts: map<string, Runtime>, open: Option<Open>) {
    forall a :: a in w.p.agents && a in rts ==> ConvReads(Conv(log, a), a, OpenAt(open, a), Served(rts[a]))
  }

  /** The newest envelope and the newest state of the whole session's log. */
  ghost predicate EndsAs(log: seq<StepEvent>, env: Envelope, open: Option<Open>) {
    && (log == [] ==> open.None? && LastHop(log) == None)
    && (log != [] ==>
          var last := log[|log| - 1];
          if open.None? then last.state == StateCompleted && LastHop(log) == Some(env)
          else
            && last.state == StatePending && last.conversationID == open.value.agent
            && LastHop(log) == Some(if open.value.logged.Some? then open.value.logged.value else open.value.msg))
  }

  ghost predicate LogOK(w: World, log: seq<StepEvent>, cfg: Config, open: Option<Open>) {
    && log == TurnLog(w.p, cfg.turns) + OpenLog(w, open)
    && ConvsRead(w, log, cfg.rts, open)
    && EndsAs(log, cfg.env, open)
  }

  ghost predicate OpenOK(w: World, actors: map<string, Actor>, cfg: Config, open: Option<Open>)
    requires w.p.locals.Keys == w.p.agents.Keys && actors.Keys == w.p.agents.Keys && cfg.rts.Keys == w.p.agents.Keys
  {
    open.Some? ==>
      var o := open.value;
      && o.agent == o.msg.to
      && LegalNext(w, cfg, o.msg)
      && o.inputs == TurnInputs(TurnLog(w.p, cfg.turns), o.agent, o.msg)
      && (o.logged.Some? ==>
            ExecutedWith(w.p, o.agent, cfg.rts[o.agent], o.msg, Saved(actors[o.agent], BootMemory(w, o.agent)).rt,
                         o.logged.value))
  }

  /** The open turn has its final reply logged, lacking only COMPLETED, when a client message overtakes it. */
  ghost predicate Overtaken(w: World, open: Option<Open>, msg: Envelope) {
    && open.Some? && open.value.logged.Some? && IsTerminalReply(open.value.logged.value)
    && FromClient(w.p, msg)
  }

  ghost predicate ResOK(w: World, cfg: Config, open: Option<Open>, res: Envelope) {
    || (open.None? && cfg.turns != [] && res == cfg.env)
    || (open.None? && IsTerminalReply(cfg.env) && FromClient(w.p, res) && (cfg.turns == [] ==> res == w.bootstrap))
    || Overtaken(w, open, res)
  }

  ghost predicate JobOK(w: World, log: seq<StepEvent>, cfg: Config, open: Option<Open>, job: Job) {
    && job.agent != ""
    && (open.Some? ==> open.value.agent == job.agent)
    && match job.want
       case None => open.Some?
       case Some(msg) =>
         && msg.to == job.agent
         && if open.None? then
              job.inputs == TurnInputs(log, job.agent, msg) && (job.agent in w.p.agents ==> LegalNext(w, cfg, msg))
            else
              || open.value.msg == msg
              || (Overtaken(w, open, msg) && UsableID(StepIDs(Conv(log, job.agent)), msg.stepID) &&
                  job.inputs == TurnInputs(log, job.agent, msg))
  }

  /** The actor a turn runs on has not moved its snapshot since the turn started. */
  ghost predicate ActorAt(act: Actor, pre: nat) {
    act.Actor? && URI(act) == pre && act.state in {Running, Crashed}
  }

  ghost predicate StageOK(w: World, act: Actor, base: Runtime, open: Option<Open>, job: Job, stage: Stage) {
    var a := job.agent;
    match stage
    case Trying => true
    case Started(plan, pre) =>
      ActorAt(act, pre) && plan == (if open.Some? then Redo(a, open.value.inputs) else Fresh(a, job.inputs))
    case Ready(queued, pre) => ActorAt(act, pre) && open.Some? && queued == open.value.inputs
    case Awaiting(msg, pre) => ActorAt(act, pre) && open.Some? && msg == open.value.msg
    case Got(out, pre) =>
      && ActorAt(act, pre) && open.Some?
      && (act.mem.Some? ==>
            && act.mem.value.inFlight == map[]
            && ExecutedWith(w.p, a, base, open.value.msg, act.mem.value.rt, out))
    case Kept(out) =>
      && open.Some? && act.Actor? && act.state == Suspended && act.snap.Some?
      && ExecutedWith(w.p, a, base, open.value.msg, act.snap.value.mem.rt, out)
  }

  ghost predicate DriverOK(w: World, s: Sys) {
    match s.driver
    case Down => true
    case Relaying(res) => ResOK(w, s.cfg, s.open, res)
    case Turning(job, stage) =>
      && JobOK(w, s.log, s.cfg, s.open, job)
      && (stage.Trying? ||
          (job.agent in w.p.agents && job.agent in s.actors && job.agent in s.cfg.rts &&
           StageOK(w, s.actors[job.agent], s.cfg.rts[job.agent], s.open, job, stage)))
  }

  ghost predicate Inv(w: World, s: Sys) {
    && ActorsOK(w, s.actors, s.cfg.rts, s.open, s.uris)
    && CfgOK(w, s.cfg, s.segs)
    && LogOK(w, s.log, s.cfg, s.open)
    && OpenOK(w, s.actors, s.cfg, s.open)
    && DriverOK(w, s)
  }
}
