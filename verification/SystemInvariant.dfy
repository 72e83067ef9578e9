/** Every step of the turn protocol keeps its invariant. */
module SystemInvariant {
  import opened Hop
  import opened EventLog
  import opened Controller
  import opened Runtime
  import opened Substrate
  import opened Relay
  import opened Session
  import opened System

  // ---------- runtimes ----------

  lemma {:induction false} ExecutedFacts(p: Params, a: string, base: Runtime, msg: Envelope, rt: Runtime)
    requires Executed(p, a, base, msg, rt)
    ensures rt != base && |rt.rounds| == |base.rounds| + 1
    ensures rt.lastInputID == msg.stepID && rt.last.Some?
    ensures Served(rt) == Served(base) + {msg.stepID}
    ensures rt.last.value.Ok? ==> rt.last.value.env.stepID == msg.stepID && rt.last.value.env.from == a
  {
    RouteServed(p.agents[a], a, base, msg, rt.rounds[|rt.rounds| - 1].choice);
  }

  /** A process never remembers an id it has not served. */
  ghost predicate RemembersServed(rt: Runtime) {
    rt.lastInputID == "" || rt.lastInputID in Served(rt)
  }

  // ---------- actors ----------

  /** A change to one actor, and to nothing the other actors depend on. */
  lemma {:induction false} OneActor(w: World, actors: map<string, Actor>, rts: map<string, Runtime>,
                                    open: Option<Open>, uris: nat, a: string, act: Actor, uris': nat)
    requires ActorsOK(w, actors, rts, open, uris) && a in w.p.agents && uris <= uris'
    requires ActorOK(w.p, a, rts[a], OpenMsg(open, a), BootMemory(w, a), act, uris')
    ensures ActorsOK(w, actors[a := act], rts, open, uris')
  {
  }

  /** A snapshot that holds the open turn is never exchanged for another. */
  ghost predicate KeepsTurn(base: Runtime, boot: Memory, act: Actor, act': Actor) {
    Saved(act, boot).rt != base ==> Saved(act', boot) == Saved(act, boot)
  }

  /** Losing the process is always allowed. */
  lemma {:induction false} DeadOK(p: Params, a: string, base: Runtime, om: Option<Envelope>, boot: Memory,
                                  act: Actor, uris: nat, state: ActorState)
    requires ActorOK(p, a, base, om, boot, act, uris) && act.Actor?
    ensures ActorOK(p, a, base, om, boot, Dead(act, state), uris)
    ensures ActorOK(p, a, base, om, boot, act.(mem := None), uris)
  {
  }

  /** So is recording what a suspend was called for. */
  lemma {:induction false} RecordedOK(p: Params, a: string, base: Runtime, om: Option<Envelope>, boot: Memory,
                                      act: Actor, uris: nat)
    requires ActorOK(p, a, base, om, boot, act, uris) && act.Actor?
    requires act.mem.Some? ==> act.mem.value.inFlight == map[] && om.Some? && ExecutedOk(p, a, base, om.value, act.mem.value.rt)
    ensures ActorOK(p, a, base, om, boot, Recorded(act, uris + 1), uris + 1)
    ensures KeepsTurn(base, boot, act, Recorded(act, uris + 1))
  {
  }

  lemma {:induction false} RecordlessOK(p: Params, a: string, base: Runtime, om: Option<Envelope>, boot: Memory,
                                        act: Actor, act': Actor, uris: nat)
    requires ActorOK(p, a, base, om, boot, act, uris) && boot.inFlight == map[]
    requires Recordless(act, act', boot)
    requires act'.Actor? && act'.snap.Some? ==> act'.snap.value.uri == URI(act) && URI(act) != 0
    ensures ActorOK(p, a, base, om, boot, act', uris)
  {
  }

  /** What one Start may do to the actor a turn runs on. */
  ghost predicate StartedWell(p: Params, a: string, base: Runtime, om: Option<Envelope>, boot: Memory, act: Actor,
                              uris: nat, r: (Actor, bool))
  {
    && ActorOK(p, a, base, om, boot, r.0, uris + 1)
    && KeepsTurn(base, boot, act, r.0)
    && (r.1 ==> ActorAt(r.0, URI(r.0)))
  }

  lemma {:induction false} StartOK(p: Params, a: string, base: Runtime, om: Option<Envelope>, boot: Memory,
                                   act: Actor, uris: nat, fate: Fate)
    requires ActorOK(p, a, base, om, boot, act, uris) && boot.inFlight == map[]
    ensures StartedWell(p, a, base, om, boot, act, uris, Start(act, boot, fate, uris + 1))
  {
    hide Start;
    StartKeepsHistory(act, boot, fate, uris + 1);
    var (act', ok) := Start(act, boot, fate, uris + 1);
    StartKeepsNames(act, boot, fate, uris + 1);
    if Recordless(act, act', boot) {
      RecordlessOK(p, a, base, om, boot, act, act', uris);
    } else {
      var mid :| CompletedSuspend(act, mid, uris + 1) && Recordless(mid, act', boot);
      RecordedOK(p, a, base, om, boot, act, uris);
      RecordlessOK(p, a, base, om, boot, mid, act', uris + 1);
    }
  }

  lemma {:induction false} SuspendOK(p: Params, a: string, base: Runtime, om: Option<Envelope>, boot: Memory,
                                     act: Actor, uris: nat, fate: SuspendFate)
    requires ActorOK(p, a, base, om, boot, act, uris)
    requires act.Actor? && act.mem.Some? ==>
               act.mem.value.inFlight == map[] && om.Some? && ExecutedOk(p, a, base, om.value, act.mem.value.rt)
    ensures ActorOK(p, a, base, om, boot, SuspendActor(act, fate, uris + 1).0, uris + 1)
    ensures KeepsTurn(base, boot, act, SuspendActor(act, fate, uris + 1).0)
  {
    if act.Actor? {
      DeadOK(p, a, base, om, boot, act, uris, Suspended);
      DeadOK(p, a, base, om, boot, act, uris, Crashed);
      RecordedOK(p, a, base, om, boot, act, uris);
    }
  }

  lemma {:induction false} ArriveOK(p: Params, a: string, base: Runtime, msg: Envelope, boot: Memory, act: Actor,
                                    uris: nat)
    requires ActorOK(p, a, base, Some(msg), boot, act, uris)
    requires act.Actor? && act.mem.Some? && act.state == Running
    requires UsableID(Served(base), msg.stepID) && RemembersServed(base)
    ensures ActorOK(p, a, base, Some(msg), boot, act.(mem := Some(Arrive(act.mem.value, msg))), uris)
  {
    var mem := act.mem.value;
    if Executed(p, a, base, msg, mem.rt) {
      ExecutedFacts(p, a, base, msg, mem.rt);
    }
    var snap := Saved(act, boot);
    if Executed(p, a, base, msg, snap.rt) {
      ExecutedFacts(p, a, base, msg, snap.rt);
    }
  }

  lemma {:induction false} FinishOK(p: Params, a: string, base: Runtime, om: Option<Envelope>, boot: Memory,
                                    act: Actor, uris: nat, stepID: string, c: Choice)
    requires ActorOK(p, a, base, om, boot, act, uris) && a in p.agents
    requires act.Actor? && act.mem.Some? && act.state == Running && stepID in act.mem.value.inFlight
    ensures ActorOK(p, a, base, om, boot, act.(mem := Some(Finish(p.agents[a], a, act.mem.value, stepID, c))), uris)
  {
    assert act.mem.value == Memory(base, map[om.value.stepID := om.value]);
    var mem' := Finish(p.agents[a], a, act.mem.value, stepID, c);
    assert mem'.inFlight == map[];
    assert mem'.rt.rounds[|mem'.rt.rounds| - 1] == Round(om.value, c);
  }

  // ---------- configurations ----------

  /** The turns of one agent, in order. */
  function TurnsOf(turns: seq<Turn>, a: string): seq<Turn> {
    if turns == [] then []
    else
      var rest := TurnsOf(turns[..|turns| - 1], a);
      if turns[|turns| - 1].agent == a then rest + [turns[|turns| - 1]] else rest
  }

  lemma {:induction false} TurnsOfAppend(turns: seq<Turn>, t: Turn, a: string)
    ensures TurnsOf(turns + [t], a) == TurnsOf(turns, a) + if t.agent == a then [t] else []
  {
    assert (turns + [t])[..|turns|] == turns;
  }

  /** A runtime has lived exactly `turns`: one round each, in order, under distinct ids, the last one remembered. */
  ghost predicate Lived(rt: Runtime, turns: seq<Turn>) {
    && |rt.rounds| == |turns|
    && (forall i :: 0 <= i < |turns| ==> rt.rounds[i].msg == turns[i].msg && rt.rounds[i].msg.stepID != "")
    && (forall i, j :: 0 <= i < j < |turns| ==> rt.rounds[i].msg.stepID != rt.rounds[j].msg.stepID)
    && if turns == [] then rt.lastInputID == "" && rt.last == None
       else rt.lastInputID == turns[|turns| - 1].msg.stepID && rt.last == Some(Ok(turns[|turns| - 1].out))
  }

  ghost predicate AllLived(cfg: Config) {
    forall a :: a in cfg.rts ==> Lived(cfg.rts[a], TurnsOf(cfg.turns, a))
  }

  lemma {:induction false} LivedStep(agent: Agent, a: string, rt: Runtime, turns: seq<Turn>, msg: Envelope,
                                     c: Choice, t: Turn)
    requires Lived(rt, turns) && UsableID(Served(rt), msg.stepID)
    requires Route(agent, a, rt, msg, c).last == Some(Ok(t.out)) && t.msg == msg
    ensures Lived(Route(agent, a, rt, msg, c), turns + [t])
  {
    forall i | 0 <= i < |rt.rounds| ensures rt.rounds[i].msg.stepID != msg.stepID {
      assert rt.rounds[i] in rt.rounds;
    }
  }

  lemma {:induction false} HopLived(p: Params, cfg: Config, h: HopItem)
    requires AllLived(cfg) && RelayHop(p, cfg, h).Some?
    ensures AllLived(RelayHop(p, cfg, h).value)
  {
    var a := cfg.env.to;
    var cfg' := RelayHop(p, cfg, h).value;
    var t := cfg'.turns[|cfg.turns|];
    LivedStep(p.agents[a], a, cfg.rts[a], TurnsOf(cfg.turns, a), t.msg, h.choice, t);
    forall b | b in cfg'.rts ensures Lived(cfg'.rts[b], TurnsOf(cfg'.turns, b)) {
      TurnsOfAppend(cfg.turns, t, b);
    }
  }

  lemma {:induction false} RunLived(p: Params, cfg: Config, hops: seq<HopItem>)
    requires AllLived(cfg) && RelayRun(p, cfg, hops).Some?
    ensures AllLived(RelayRun(p, cfg, hops).value)
  {
    if hops != [] {
      RunLived(p, cfg, hops[..|hops| - 1]);
      HopLived(p, RelayRun(p, cfg, hops[..|hops| - 1]).value, hops[|hops| - 1]);
    }
  }

  /** In every crash-free session an actor's process has lived exactly its finished turns. */
  lemma {:induction false} SessionLived(p: Params, segs: seq<Segment>)
    requires p.locals.Keys == p.agents.Keys && SessionRun(p, segs).Some?
    ensures AllLived(SessionRun(p, segs).value)
  {
    if segs != [] {
      var init := segs[..|segs| - 1];
      SessionLived(p, init);
      RunLived(p, SessionRun(p, init).value.(env := segs[|segs| - 1].ext), segs[|segs| - 1].hops);
    }
  }

  lemma {:induction false} LivedRemembers(rt: Runtime, turns: seq<Turn>)
    requires Lived(rt, turns)
    ensures RemembersServed(rt)
  {
    if turns != [] {
      assert rt.rounds[|turns| - 1] in rt.rounds;
    }
  }

  /** Delivering a legal message is what a crash-free relay does next. */
  lemma {:induction false} LegalHop(w: World, cfg: Config, msg: Envelope, rt: Runtime, out: Envelope)
    requires LegalNext(w, cfg, msg) && ExecutedWith(w.p, msg.to, cfg.rts[msg.to], msg, rt, out)
    ensures var hand := if IsTerminalReply(cfg.env) then cfg.(env := msg) else cfg;
            var turn := Turn(msg.to, TurnInputs(TurnLog(w.p, cfg.turns), msg.to, msg), msg, out);
            RelayHop(w.p, hand, HopItem(msg.stepID, rt.rounds[|rt.rounds| - 1].choice)) ==
            Some(Config(cfg.rts[msg.to := rt], cfg.turns + [turn], out))
  {
    hide DeliverOnce;
  }

  lemma {:induction false} FreshSegment(p: Params, segs: seq<Segment>, cfg: Config, msg: Envelope, hop: HopItem,
                                        next: Config)
    requires p.locals.Keys == p.agents.Keys && SessionRun(p, segs) == Some(cfg)
    requires IsTerminalReply(cfg.env) && FromClient(p, msg)
    requires RelayHop(p, cfg.(env := msg), hop) == Some(next)
    ensures SessionRun(p, segs + [Segment(msg, [hop])]) == Some(next)
  {
    hide RelayHop;
    assert (segs + [Segment(msg, [hop])])[..|segs|] == segs;
    assert [hop][..0] == [];
    assert RelayRun(p, cfg.(env := msg), [hop]) == RelayHop(p, cfg.(env := msg), hop);
  }

  lemma {:induction false} LongerSegment(p: Params, segs: seq<Segment>, cfg: Config, hop: HopItem, next: Config)
    requires p.locals.Keys == p.agents.Keys && SessionRun(p, segs) == Some(cfg)
    requires segs != [] && RelayHop(p, cfg, hop) == Some(next)
    ensures var last := segs[|segs| - 1];
            SessionRun(p, segs[..|segs| - 1] + [last.(hops := last.hops + [hop])]) == Some(next)
  {
    hide RelayHop;
    var last := segs[|segs| - 1];
    assert (segs[..|segs| - 1] + [last.(hops := last.hops + [hop])])[..|segs| - 1] == segs[..|segs| - 1];
    assert (last.hops + [hop])[..|last.hops|] == last.hops;
  }

  /** Committing a legal turn is exactly one more crash-free hop. */
  lemma {:induction false} CommitIsHop(w: World, segs: seq<Segment>, cfg: Config, msg: Envelope, rt: Runtime,
                                       out: Envelope)
    requires ValidWorld(w) && CfgOK(w, cfg, segs)
    requires LegalNext(w, cfg, msg) && ExecutedWith(w.p, msg.to, cfg.rts[msg.to], msg, rt, out)
    ensures var turn := Turn(msg.to, TurnInputs(TurnLog(w.p, cfg.turns), msg.to, msg), msg, out);
            CfgOK(w, Config(cfg.rts[msg.to := rt], cfg.turns + [turn], out),
                  ExtendSegs(segs, msg, rt.rounds[|rt.rounds| - 1].choice))
  {
    hide Route, RelayHop, TurnInputs, TurnLog, SessionRun;
    LegalHop(w, cfg, msg, rt, out);
    ExecutedFacts(w.p, msg.to, cfg.rts[msg.to], msg, rt);
    var hop := HopItem(msg.stepID, rt.rounds[|rt.rounds| - 1].choice);
    var turn := Turn(msg.to, TurnInputs(TurnLog(w.p, cfg.turns), msg.to, msg), msg, out);
    var next := Config(cfg.rts[msg.to := rt], cfg.turns + [turn], out);
    if IsTerminalReply(cfg.env) {
      FreshSegment(w.p, segs, cfg, msg, hop, next);
    } else {
      LongerSegment(w.p, segs, cfg, hop, next);
    }
  }

  /** A final reply always comes from the agent the client talks to. */
  lemma {:induction false} FinalReplyFromOwner(w: World, segs: seq<Segment>)
    requires ValidWorld(w) && SessionRun(w.p, segs).Some?
    ensures var env := SessionRun(w.p, segs).value.env;
            IsTerminalReply(env) ==> env.from in {w.p.owner, ""}
  {
    var stack := SessionChained(w.p, segs);
    assert stack != [] ==> stack[|stack| - 1].agent in w.p.agents;
  }

  // ---------- the log ----------

  lemma {:induction false} InputReads(w: World, c: seq<StepEvent>, a: string, inputs: seq<EventLog.Step>,
                                      msg: Envelope, served: set<string>)
    requires ConvReads(c, a, None, served) && a != ""
    requires NewestText(inputs) == Json(msg)
    ensures ConvReads(c + [InputEvent(w.p.session, a, a, inputs)], a, Some(Open(a, inputs, msg, None)), served)
  {
    var ev := InputEvent(w.p.session, a, a, inputs);
    ScanAppend(c, ev);
    StepIDsAppend(c, ev);
  }

  lemma {:induction false} OutputReads(w: World, c: seq<StepEvent>, a: string, o: Open, out: Envelope,
                                       served: set<string>)
    requires ConvReads(c, a, Some(o), served) && o.logged.None? && out.stepID == o.msg.stepID
    ensures ConvReads(c + [OutputEvent(w.p.session, a, [ReplyStep(out)], StatePending)], a,
                      Some(o.(logged := Some(out))), served)
  {
    var ev := OutputEvent(w.p.session, a, [ReplyStep(out)], StatePending);
    ScanAppend(c, ev);
    StepIDsAppend(c, ev);
    assert Reverse(ev.steps) == [ReplyStep(out)];
  }

  lemma {:induction false} CompletedReads(w: World, c: seq<StepEvent>, a: string, o: Open, served: set<string>)
    requires ConvReads(c, a, Some(o), served)
    ensures ConvReads(c + [OutputEvent(w.p.session, a, [], StateCompleted)], a, None, served + {o.msg.stepID})
  {
    var ev := OutputEvent(w.p.session, a, [], StateCompleted);
    ScanAppend(c, ev);
    StepIDsAppend(c, ev);
  }

  /** A COMPLETED event adds nothing to what the next turn is sent. */
  lemma {:induction false} CompletedKeepsInputs(w: World, log: seq<StepEvent>, a: string, msg: Envelope)
    ensures TurnInputs(log + [OutputEvent(w.p.session, a, [], StateCompleted)], a, msg) == TurnInputs(log, a, msg)
  {
    var ev := OutputEvent(w.p.session, a, [], StateCompleted);
    ConvAppend(log, ev, a);
    HistoryStepsAppend(Conv(log, a), ev);
  }

  // ---------- the driver's steps ----------

  lemma {:induction false} DriverOnly(w: World, s: Sys, d: Driver)
    requires ValidWorld(w) && Inv(w, s)
    requires DriverOK(w, s.(driver := d))
    ensures Inv(w, s.(driver := d))
  {
  }

  lemma {:induction false} RestartKeeps(w: World, s: Sys)
    requires ValidWorld(w) && Inv(w, s)
    ensures Inv(w, DoRestart(w, s))
  {
    hide SessionRun, ActorOK, ConvsRead;
    DriverOnly(w, s, DoRestart(w, s).driver);
  }

  lemma {:induction false} LoggedReplyFromOwner(w: World, s: Sys)
    requires ValidWorld(w) && Inv(w, s) && s.open.Some? && s.open.value.logged.Some?
    requires IsTerminalReply(s.open.value.logged.value)
    ensures s.open.value.logged.value.from == w.p.owner == s.open.value.agent
  {
    var o := s.open.value;
    var rt := Saved(s.actors[o.agent], BootMemory(w, o.agent)).rt;
    CommitIsHop(w, s.segs, s.cfg, o.msg, rt, o.logged.value);
    ExecutedFacts(w.p, o.agent, s.cfg.rts[o.agent], o.msg, rt);
    FinalReplyFromOwner(w, ExtendSegs(s.segs, o.msg, rt.rounds[|rt.rounds| - 1].choice));
  }

  lemma {:induction false} NextMessageKeeps(w: World, s: Sys, data: Data)
    requires ValidWorld(w) && Inv(w, s)
    ensures Inv(w, DoNextMessage(s, data))
  {
    hide SessionRun, ActorOK, ConvsRead;
    FinalReplyFromOwner(w, s.segs);
    if s.open.Some? && s.open.value.logged.Some? && IsTerminalReply(s.open.value.logged.value) {
      LoggedReplyFromOwner(w, s);
    }
    DriverOnly(w, s, DoNextMessage(s, data).driver);
  }

  /** The message a hop is turned into is the one a crash-free relay would deliver. */
  lemma {:induction false} SentIsLegal(w: World, s: Sys, msg: Envelope)
    requires ValidWorld(w) && Inv(w, s) && s.driver.Relaying? && s.open.None?
    requires s.driver.res.to in w.p.agents
    requires var used := StepIDs(Conv(s.log, s.driver.res.to));
             && msg == s.driver.res.(stepID := msg.stepID) && UsableID(used, msg.stepID)
             && (UsableID(used, s.driver.res.stepID) ==> msg == s.driver.res)
    ensures LegalNext(w, s.cfg, msg)
  {
    hide SessionRun, ActorOK, TurnLog, OpenLog, Conv, EndsAs, StateOf, HarnessOf, StepIDs, TurnInputs;
    assert ConvReads(Conv(s.log, msg.to), msg.to, None, Served(s.cfg.rts[msg.to]));
  }

  lemma {:induction false} SentJobOK(w: World, s: Sys, msg: Envelope)
    requires ValidWorld(w) && Inv(w, s) && s.driver.Relaying?
    requires var used := StepIDs(Conv(s.log, s.driver.res.to));
             && msg == s.driver.res.(stepID := msg.stepID) && UsableID(used, msg.stepID)
             && (UsableID(used, s.driver.res.stepID) ==> msg == s.driver.res)
    requires !IsTerminalReply(s.driver.res)
    ensures JobOK(w, s.log, s.cfg, s.open, Job(msg.to, Some(msg), TurnInputs(s.log, msg.to, msg)))
  {
    if s.open.Some? {
      LoggedReplyFromOwner(w, s);
    } else if msg.to in w.p.agents {
      SentIsLegal(w, s, msg);
    }
  }

  lemma {:induction false} SendKeeps(w: World, s: Sys, mint: string)
    requires ValidWorld(w) && Inv(w, s)
    ensures Inv(w, DoSend(s, mint))
  {
    if s.driver.Relaying? && !IsTerminalReply(s.driver.res) {
      var res := s.driver.res;
      var used := StepIDs(Conv(s.log, res.to));
      if !UsableID(used, res.stepID) && !UsableID(used, mint) {
        DriverOnly(w, s, Down);
      } else {
        var msg := if UsableID(used, res.stepID) then res else res.(stepID := mint);
        SentJobOK(w, s, msg);
        DriverOnly(w, s, Turning(Job(msg.to, Some(msg), TurnInputs(s.log, msg.to, msg)), Trying));
      }
    }
  }

  lemma {:induction false} StopKeeps(w: World, s: Sys)
    requires ValidWorld(w) && Inv(w, s)
    ensures Inv(w, DoStop(s))
    ensures Inv(w, s.(driver := Down))
    ensures s.driver.Turning? ==> Inv(w, Retry(s))
  {
    DriverOnly(w, s, DoStop(s).driver);
    DriverOnly(w, s, Down);
    if s.driver.Turning? {
      DriverOnly(w, s, Turning(s.driver.job, Trying));
    }
  }

  // ---------- steps that change one actor ----------

  function WithActor(s: Sys, a: string, act: Actor, uris: nat, d: Driver): Sys {
    s.(actors := s.actors[a := act], uris := uris, driver := d)
  }

  lemma {:induction false} ActorStep(w: World, s: Sys, a: string, act: Actor, uris: nat, d: Driver)
    requires ValidWorld(w) && Inv(w, s) && a in w.p.agents && s.uris <= uris
    requires ActorOK(w.p, a, s.cfg.rts[a], OpenMsg(s.open, a), BootMemory(w, a), act, uris)
    requires KeepsTurn(s.cfg.rts[a], BootMemory(w, a), s.actors[a], act)
    requires DriverOK(w, WithActor(s, a, act, uris, d))
    ensures Inv(w, WithActor(s, a, act, uris, d))
  {
    hide CfgOK, LogOK, ActorOK, LegalNext, DriverOK;
    OneActor(w, s.actors, s.cfg.rts, s.open, s.uris, a, act, uris);
    if s.open.Some? && s.open.value.logged.Some? && s.open.value.agent == a {
      ExecutedFacts(w.p, a, s.cfg.rts[a], s.open.value.msg, Saved(s.actors[a], BootMemory(w, a)).rt);
    }
  }

  lemma {:induction false} PlanReads(c: seq<StepEvent>, a: string, o: Option<Open>, served: set<string>,
                                     named: bool, inputs: seq<EventLog.Step>, registered: set<string>)
    requires ConvReads(c, a, o, served)
    requires !named ==> o.Some?
    ensures var plan := PlanExec(c, if named then a else "", inputs, registered, "");
            !plan.Reject? ==> a in registered && plan == (if o.Some? then Redo(a, o.value.inputs) else Fresh(a, inputs))
  {
  }

  /** Exec redoes the open turn with the inputs it was logged with, or starts the one it was asked for. */
  lemma {:induction false} PlanFollowsLog(w: World, log: seq<StepEvent>, rts: map<string, Runtime>,
                                          open: Option<Open>, job: Job)
    requires ConvsRead(w, log, rts, open) && rts.Keys == w.p.agents.Keys
    requires open.Some? ==> open.value.agent == job.agent && job.agent in w.p.agents
    requires job.want.None? ==> open.Some?
    requires job.agent != ""
    ensures var plan := PlanFor(w, log, job);
            !plan.Reject? ==>
              && job.agent in w.p.agents
              && plan == (if open.Some? then Redo(job.agent, open.value.inputs) else Fresh(job.agent, job.inputs))
  {
    if job.agent in w.p.agents {
      PlanReads(Conv(log, job.agent), job.agent, OpenAt(open, job.agent), Served(rts[job.agent]),
                job.want.Some?, job.inputs, w.p.agents.Keys);
    }
  }

  lemma {:induction false} AfterStartKeeps(w: World, s: Sys, plan: ExecPlan, r: (Actor, bool))
    requires ValidWorld(w) && Inv(w, s)
    requires s.driver.Turning? && s.driver.stage.Trying? && s.driver.job.agent in w.p.agents
    requires var job := s.driver.job;
             plan == if s.open.Some? then Redo(job.agent, s.open.value.inputs) else Fresh(job.agent, job.inputs)
    requires var a := s.driver.job.agent;
             StartedWell(w.p, a, s.cfg.rts[a], OpenMsg(s.open, a), BootMemory(w, a), s.actors[a], s.uris, r)
    ensures Inv(w, AfterStart(s, plan, r))
  {
    hide CfgOK, LogOK, OpenOK, ActorOK;
    var job := s.driver.job;
    ActorStep(w, s, job.agent, r.0, s.uris + 1, if r.1 then Turning(job, Started(plan, URI(r.0))) else s.driver);
  }

  lemma {:induction false} StartOutcome(w: World, s: Sys, fate: Fate) returns (plan: ExecPlan, r: (Actor, bool))
    requires s.driver.Turning? && s.driver.stage.Trying?
    requires ActorsOK(w, s.actors, s.cfg.rts, s.open, s.uris) && ConvsRead(w, s.log, s.cfg.rts, s.open)
    requires s.open.Some? ==> s.open.value.agent == s.driver.job.agent && s.driver.job.agent in w.p.agents
    requires (s.driver.job.want.None? ==> s.open.Some?) && s.driver.job.agent != ""
    ensures DoStartTurn(w, s, fate) != s ==>
              var a := s.driver.job.agent;
              && DoStartTurn(w, s, fate) == AfterStart(s, plan, r)
              && a in w.p.agents
              && plan == (if s.open.Some? then Redo(a, s.open.value.inputs) else Fresh(a, s.driver.job.inputs))
              && StartedWell(w.p, a, s.cfg.rts[a], OpenMsg(s.open, a), BootMemory(w, a), s.actors[a], s.uris, r)
  {
    hide Start, StartedWell, ActorOK, ConvsRead, PlanFor;
    var a := s.driver.job.agent;
    plan, r := PlanFor(w, s.log, s.driver.job), (Absent, false);
    PlanFollowsLog(w, s.log, s.cfg.rts, s.open, s.driver.job);
    if !plan.Reject? {
      StartOK(w.p, a, s.cfg.rts[a], OpenMsg(s.open, a), BootMemory(w, a), s.actors[a], s.uris, fate);
      r := Start(s.actors[a], BootMemory(w, a), fate, s.uris + 1);
    }
  }

  lemma {:induction false} StartTurnKeeps(w: World, s: Sys, fate: Fate)
    requires ValidWorld(w) && Inv(w, s)
    ensures Inv(w, DoStartTurn(w, s, fate))
  {
    if s.driver.Turning? && s.driver.stage.Trying? {
      var plan, r := StartOutcome(w, s, fate);
      if DoStartTurn(w, s, fate) != s {
        AfterStartKeeps(w, s, plan, r);
      }
    }
  }

  /** The open turn's inputs end in the message it is about. */
  lemma {:induction false} CurrentOfTurn(log: seq<StepEvent>, a: string, msg: Envelope)
    ensures Current(TurnInputs(log, a, msg)) == Some(msg)
    ensures NewestText(TurnInputs(log, a, msg)) == Json(msg)
  {
  }

  lemma {:induction false} ServedRemembered(w: World, s: Sys, a: string)
    requires ValidWorld(w) && Inv(w, s) && a in w.p.agents
    ensures RemembersServed(s.cfg.rts[a])
  {
    hide SessionRun, ActorOK, ConvsRead, LegalNext, OpenOK;
    SessionLived(w.p, s.segs);
    LivedRemembers(s.cfg.rts[a], TurnsOf(s.cfg.turns, a));
  }

  lemma {:induction false} ConnectKeeps(w: World, s: Sys)
    requires ValidWorld(w) && Inv(w, s)
    ensures Inv(w, DoConnect(s))
  {
    hide SessionRun, ActorOK, ConvsRead, LogOK, Arrive, CfgOK, WellFormed, TurnInputs, RemembersServed, ExecutedWith;
    StopKeeps(w, s);
    if DoConnect(s) != s && s.driver.Turning? && DoConnect(s) != Retry(s) {
      var job, stage := s.driver.job, s.driver.stage;
      var a, act, msg := job.agent, s.actors[job.agent], s.open.value.msg;
      CurrentOfTurn(TurnLog(w.p, s.cfg.turns), a, msg);
      ServedRemembered(w, s, a);
      ArriveOK(w.p, a, s.cfg.rts[a], msg, BootMemory(w, a), act, s.uris);
      ActorStep(w, s, a, act.(mem := Some(Arrive(act.mem.value, msg))), s.uris, Turning(job, Awaiting(msg, stage.pre)));
    }
  }

  /** A process that remembers the open turn's id has executed that turn, once. */
  lemma {:induction false} RememberedIsExecuted(p: Params, a: string, base: Runtime, msg: Envelope, boot: Memory,
                                                act: Actor, uris: nat)
    requires ActorOK(p, a, base, Some(msg), boot, act, uris)
    requires UsableID(Served(base), msg.stepID) && RemembersServed(base)
    requires act.Actor? && act.mem.Some? && act.mem.value.rt.lastInputID == msg.stepID
    ensures act.mem.value.inFlight == map[] && Executed(p, a, base, msg, act.mem.value.rt)
  {
    hide Route;
  }

  lemma {:induction false} ReceiveKeeps(w: World, s: Sys)
    requires ValidWorld(w) && Inv(w, s)
    ensures Inv(w, DoReceive(s))
  {
    hide SessionRun, ActorOK, ConvsRead, LogOK, CfgOK, Route;
    StopKeeps(w, s);
    if DoReceive(s) != s && DoReceive(s) != Retry(s) {
      var a, msg := s.driver.job.agent, s.open.value.msg;
      ServedRemembered(w, s, a);
      RememberedIsExecuted(w.p, a, s.cfg.rts[a], msg, BootMemory(w, a), s.actors[a], s.uris);
      DriverOnly(w, s, DoReceive(s).driver);
    }
  }

  /** A checkpoint after the turn's reply: what it does to the actor, and what a success records. */
  lemma {:induction false} SavedOutcome(w: World, a: string, base: Runtime, open: Option<Open>, job: Job,
                                        boot: Memory, act: Actor, uris: nat, out: Envelope, pre: nat,
                                        suspend: SuspendFate)
    requires ActorOK(w.p, a, base, OpenMsg(open, a), boot, act, uris)
    requires job.agent == a && StageOK(w, act, base, open, job, Got(out, pre)) && OpenAt(open, a).Some?
    ensures var (act', ok) := Checkpoint(act, pre, suspend, uris + 1);
            && ActorOK(w.p, a, base, OpenMsg(open, a), boot, act', uris + 1)
            && KeepsTurn(base, boot, act, act')
            && (ok ==> StageOK(w, act', base, open, job, Kept(out)))
  {
    hide Route, MemoryOK, SnapshotOK;
    assert act.mem.Some? ==> ExecutedOk(w.p, a, base, open.value.msg, act.mem.value.rt);
    SuspendOK(w.p, a, base, OpenMsg(open, a), boot, act, uris, suspend);
    CheckpointRecords(act, suspend, uris + 1);
  }

  lemma {:induction false} SaveStateKeeps(w: World, s: Sys, suspend: SuspendFate)
    requires ValidWorld(w) && Inv(w, s)
    ensures Inv(w, DoSaveState(s, suspend))
  {
    hide SessionRun, ConvsRead, LogOK, CfgOK, ActorOK, LegalNext, StageOK, Checkpoint;
    if s.driver.Turning? && s.driver.stage.Got? {
      var job, stage := s.driver.job, s.driver.stage;
      var a := job.agent;
      assert s.open.Some? by {
        GotIsOpen(w, s);
      }
      SavedOutcome(w, a, s.cfg.rts[a], s.open, job, BootMemory(w, a), s.actors[a], s.uris, stage.out, stage.pre,
                   suspend);
      var (act', ok) := Checkpoint(s.actors[a], stage.pre, suspend, s.uris + 1);
      TryingOK(w, act', s.cfg.rts[a], s.open, job);
      ActorStep(w, s, a, act', s.uris + 1, Turning(job, if ok then Kept(stage.out) else Trying));
    }
  }

  lemma {:induction false} GotIsOpen(w: World, s: Sys)
    requires DriverOK(w, s) && s.driver.Turning? && s.driver.stage.Got?
    ensures s.open.Some?
  {
  }

  lemma {:induction false} TryingOK(w: World, act: Actor, base: Runtime, open: Option<Open>, job: Job)
    ensures StageOK(w, act, base, open, job, Trying)
  {
  }

  // ---------- the actors' own steps ----------

  /** A step of one actor that leaves the driver's stage standing. */
  lemma {:induction false} ActorAlone(w: World, s: Sys, a: string, act: Actor, uris: nat)
    requires ValidWorld(w) && Inv(w, s) && a in w.p.agents && s.uris <= uris
    requires ActorOK(w.p, a, s.cfg.rts[a], OpenMsg(s.open, a), BootMemory(w, a), act, uris)
    requires KeepsTurn(s.cfg.rts[a], BootMemory(w, a), s.actors[a], act)
    requires s.driver.Turning? && s.driver.job.agent == a && !s.driver.stage.Trying? ==>
               StageOK(w, act, s.cfg.rts[a], s.open, s.driver.job, s.driver.stage)
    ensures Inv(w, OnActor(s, a, act).(uris := uris))
  {
    hide SessionRun, ConvsRead, LogOK, CfgOK, ActorOK, LegalNext, StageOK, JobOK, OpenOK;
    ActorStep(w, s, a, act, uris, s.driver);
  }

  lemma {:induction false} RoundEndsKeeps(w: World, s: Sys, a: string, stepID: string, c: Choice)
    requires ValidWorld(w) && Inv(w, s)
    ensures Inv(w, DoRoundEnds(w, s, a, stepID, c))
  {
    hide SessionRun, ConvsRead, LogOK, CfgOK, Route, LegalNext, ActorOK, Finish, JobOK, OpenOK;
    if DoRoundEnds(w, s, a, stepID, c) != s {
      var act := s.actors[a];
      FinishOK(w.p, a, s.cfg.rts[a], OpenMsg(s.open, a), BootMemory(w, a), act, s.uris, stepID, c);
      ActorAlone(w, s, a, act.(mem := Some(Finish(w.p.agents[a], a, act.mem.value, stepID, c))), s.uris);
    }
  }

  lemma {:induction false} LossKeeps(w: World, s: Sys, a: string)
    requires ValidWorld(w) && Inv(w, s)
    ensures Inv(w, DoWorkerCrash(s, a))
    ensures Inv(w, DoProcessDies(s, a))
  {
    hide SessionRun, ConvsRead, LogOK, CfgOK, Route, LegalNext, ActorOK, JobOK, OpenOK;
    if a in s.actors && s.actors[a].Actor? {
      var act := s.actors[a];
      DeadOK(w.p, a, s.cfg.rts[a], OpenMsg(s.open, a), BootMemory(w, a), act, s.uris, Crashed);
      ActorAlone(w, s, a, act.(mem := None), s.uris);
      if act.state in {Running, Resuming, Suspending} {
        ActorAlone(w, s, a, Dead(act, Crashed), s.uris);
      }
    }
  }

  lemma {:induction false} SuspendEnded(p: Params, a: string, base: Runtime, om: Option<Envelope>, boot: Memory,
                                        act: Actor, uris: nat, recorded: bool)
    requires ActorOK(p, a, base, om, boot, act, uris) && act.Actor? && act.state == Suspending
    ensures var act' := if recorded then Recorded(act, uris + 1) else Dead(act, Suspended);
            && ActorOK(p, a, base, om, boot, act', uris + 1)
            && KeepsTurn(base, boot, act, act')
  {
    hide Route, MemoryOK, SnapshotOK;
    DeadOK(p, a, base, om, boot, act, uris, Suspended);
    RecordedOK(p, a, base, om, boot, act, uris);
  }

  lemma {:induction false} SuspendEndsKeeps(w: World, s: Sys, a: string, recorded: bool)
    requires ValidWorld(w) && Inv(w, s)
    ensures Inv(w, DoSuspendEnds(s, a, recorded))
  {
    hide SessionRun, ConvsRead, LogOK, CfgOK, Route, LegalNext, JobOK, OpenOK, ActorOK;
    if a in s.actors && s.actors[a].Actor? && s.actors[a].state == Suspending {
      var act := s.actors[a];
      SuspendEnded(w.p, a, s.cfg.rts[a], OpenMsg(s.open, a), BootMemory(w, a), act, s.uris, recorded);
      ActorAlone(w, s, a, if recorded then Recorded(act, s.uris + 1) else Dead(act, Suspended), s.uris + 1);
    }
  }

  // ---------- steps that append to the log ----------

  /** Opening a turn changes nothing any actor's invariant said before. */
  lemma {:induction false} OpeningKeepsActors(w: World, actors: map<string, Actor>, rts: map<string, Runtime>,
                                              o: Open, uris: nat)
    requires ActorsOK(w, actors, rts, None, uris)
    ensures ActorsOK(w, actors, rts, Some(o), uris)
  {
    hide Route;
    forall a | a in w.p.agents
      ensures ActorOK(w.p, a, rts[a], OpenMsg(Some(o), a), BootMemory(w, a), actors[a], uris)
    {
      assert ActorOK(w.p, a, rts[a], OpenMsg(None, a), BootMemory(w, a), actors[a], uris);
    }
  }

  /** One append to conversation `a` leaves every other conversation reading as it did. */
  lemma {:induction false} OtherConvsRead(w: World, log: seq<StepEvent>, ev: StepEvent, rts: map<string, Runtime>,
                                          rts': map<string, Runtime>, open: Option<Open>, open': Option<Open>,
                                          a: string)
    requires ConvsRead(w, log, rts, open) && ev.conversationID == a
    requires forall b :: b in rts' && b != a ==> b in rts && rts'[b] == rts[b] && OpenAt(open', b) == OpenAt(open, b)
    requires a in w.p.agents && a in rts' ==>
               ConvReads(Conv(log, a) + [ev], a, OpenAt(open', a), Served(rts'[a]))
    ensures ConvsRead(w, log + [ev], rts', open')
  {
    hide ConvReads, OpenAt, Conv;
    forall b | b in w.p.agents && b in rts'
      ensures ConvReads(Conv(log + [ev], b), b, OpenAt(open', b), Served(rts'[b]))
    {
      ConvAppend(log, ev, b);
      assert b != a ==> Conv(log, b) + [] == Conv(log, b);
    }
  }

  lemma {:induction false} InputLogged(w: World, log: seq<StepEvent>, cfg: Config, a: string,
                                       inputs: seq<EventLog.Step>, msg: Envelope)
    requires LogOK(w, log, cfg, None) && a in w.p.agents && a in cfg.rts && a != ""
    requires NewestText(inputs) == Json(msg)
    ensures LogOK(w, log + [InputEvent(w.p.session, a, a, inputs)], cfg, Some(Open(a, inputs, msg, None)))
  {
    hide ConvsRead, ConvReads, TurnLog, LastHop, NewestText, Conv;
    var ev := InputEvent(w.p.session, a, a, inputs);
    var o := Open(a, inputs, msg, None);
    assert ConvReads(Conv(log, a), a, None, Served(cfg.rts[a])) by {
      ConvAt(w, log, cfg.rts, None, a);
    }
    InputReads(w, Conv(log, a), a, inputs, msg, Served(cfg.rts[a]));
    OtherConvsRead(w, log, ev, cfg.rts, cfg.rts, None, Some(o), a);
    LastHopAppend(log, ev);
  }

  lemma {:induction false} ConvAt(w: World, log: seq<StepEvent>, rts: map<string, Runtime>, open: Option<Open>,
                                  a: string)
    requires ConvsRead(w, log, rts, open) && a in w.p.agents && a in rts
    ensures ConvReads(Conv(log, a), a, OpenAt(open, a), Served(rts[a]))
  {
  }


  lemma {:induction false} TurnOpened(w: World, s: Sys, job: Job, pre: nat)
    requires ValidWorld(w) && ActorsOK(w, s.actors, s.cfg.rts, None, s.uris)
    requires CfgOK(w, s.cfg, s.segs) && LogOK(w, s.log, s.cfg, None)
    requires job.agent in w.p.agents && ActorAt(s.actors[job.agent], pre)
    requires job.want.Some? && JobOK(w, s.log, s.cfg, None, job)
    ensures var o := Open(job.agent, job.inputs, job.want.value, None);
            Inv(w, s.(log := s.log + [InputEvent(w.p.session, job.agent, job.agent, job.inputs)],
                      open := Some(o),
                      driver := Turning(job, Ready(job.inputs, pre))))
  {
    hide SessionRun, ConvsRead, CfgOK, ActorOK, TurnLog, LegalNext, TurnInputs, EndsAs;
    var msg := job.want.value;
    var o := Open(job.agent, job.inputs, msg, None);
    assert TurnLog(w.p, s.cfg.turns) == s.log;
    CurrentOfTurn(s.log, job.agent, msg);
    InputLogged(w, s.log, s.cfg, job.agent, job.inputs, msg);
    OpeningKeepsActors(w, s.actors, s.cfg.rts, o, s.uris);
    assert OpenOK(w, s.actors, s.cfg, Some(o));
  }

  lemma {:induction false} LogInKeeps(w: World, s: Sys, lands: bool)
    requires ValidWorld(w) && Inv(w, s)
    ensures Inv(w, DoLogIn(w, s, lands))
  {
    hide SessionRun, ConvsRead, CfgOK, ActorOK, LogOK, LegalNext, OpenOK, TurnInputs;
    StopKeeps(w, s);
    if s.driver.Turning? && s.driver.stage.Started? {
      var job, stage := s.driver.job, s.driver.stage;
      if stage.plan.Redo? {
        DriverOnly(w, s, Turning(job, Ready(stage.plan.inputs, stage.pre)));
      } else if stage.plan.Fresh? {
        CurrentOfTurn(s.log, job.agent, job.want.value);
        TurnOpened(w, s, job, stage.pre);
      }
    }
  }

  lemma {:induction false} OutputLogged(w: World, log: seq<StepEvent>, cfg: Config, o: Open, out: Envelope)
    requires LogOK(w, log, cfg, Some(o)) && o.agent in w.p.agents && o.agent in cfg.rts
    requires o.logged.None? && out.stepID == o.msg.stepID
    ensures LogOK(w, log + [OutputEvent(w.p.session, o.agent, [ReplyStep(out)], StatePending)], cfg,
                  Some(o.(logged := Some(out))))
  {
    hide ConvsRead, ConvReads, TurnLog, LastHop, Conv;
    var a := o.agent;
    var ev := OutputEvent(w.p.session, a, [ReplyStep(out)], StatePending);
    ConvAt(w, log, cfg.rts, Some(o), a);
    OutputReads(w, Conv(log, a), a, o, out, Served(cfg.rts[a]));
    OtherConvsRead(w, log, ev, cfg.rts, cfg.rts, Some(o), Some(o.(logged := Some(out))), a);
    LastHopAppend(log, ev);
    assert NewestText(ev.steps) == Json(out);
    var o' := o.(logged := Some(out));
    assert OpenLog(w, Some(o')) == OpenLog(w, Some(o)) + [ev];
  }

  lemma {:induction false} CompletedLogged(w: World, log: seq<StepEvent>, cfg: Config, o: Open, out: Envelope,
                                           rt: Runtime, cfg': Config)
    requires LogOK(w, log, cfg, Some(o)) && o.agent in w.p.agents && o.agent in cfg.rts
    requires o.logged == Some(out) && Served(rt) == Served(cfg.rts[o.agent]) + {o.msg.stepID}
    requires cfg' == Config(cfg.rts[o.agent := rt], cfg.turns + [Turn(o.agent, o.inputs, o.msg, out)], out)
    ensures LogOK(w, log + [OutputEvent(w.p.session, o.agent, [], StateCompleted)], cfg', None)
  {
    hide ConvsRead, ConvReads, LastHop, Conv;
    var a := o.agent;
    var ev := OutputEvent(w.p.session, a, [], StateCompleted);
    ConvAt(w, log, cfg.rts, Some(o), a);
    CompletedReads(w, Conv(log, a), a, o, Served(cfg.rts[a]));
    OtherConvsRead(w, log, ev, cfg.rts, cfg'.rts, Some(o), None, a);
    LastHopAppend(log, ev);
    var t := Turn(a, o.inputs, o.msg, out);
    assert cfg'.turns[..|cfg.turns|] == cfg.turns;
    assert OpenLog(w, Some(o)) + [ev] == TurnEvents(w.p, t);
  }

  /** Whatever the log already holds of the turn being committed is exactly how the kept output starts. */
  lemma {:induction false} KeptAgreesWithLog(w: World, s: Sys)
    requires ValidWorld(w) && Inv(w, s) && s.driver.Turning? && s.driver.stage.Kept?
    ensures CommitAccepts(s) && s.open.Some?
    ensures s.open.value.logged.Some? ==> s.open.value.logged.value == s.driver.stage.out
    ensures PendingOutputs(Conv(s.log, s.driver.job.agent)) == LoggedSteps(s.open.value)
  {
    hide SessionRun, CfgOK, ActorOK, LegalNext, Route, Conv, TurnLog, EndsAs, WellFormed, ConvsRead, StateOf,
         HarnessOf, PendingInputs,
         StepIDs, TurnInputs, FromClient;
    ConvAt(w, s.log, s.cfg.rts, s.open, s.driver.job.agent);
  }

  lemma {:induction false} OutputCommitted(w: World, s: Sys)
    requires ValidWorld(w) && Inv(w, s) && s.driver.Turning? && s.driver.stage.Kept?
    requires s.open.Some? && s.open.value.logged.None?
    ensures Inv(w, s.(log := s.log + [OutputEvent(w.p.session, s.driver.job.agent, [ReplyStep(s.driver.stage.out)],
                                                  StatePending)],
                      open := Some(s.open.value.(logged := Some(s.driver.stage.out)))))
  {
    hide SessionRun, CfgOK, ActorOK, LegalNext, Route, Conv, TurnLog, EndsAs, LogOK;
    var a, out := s.driver.job.agent, s.driver.stage.out;
    ExecutedFacts(w.p, a, s.cfg.rts[a], s.open.value.msg, s.actors[a].snap.value.mem.rt);
    OutputLogged(w, s.log, s.cfg, s.open.value, out);
    var o' := s.open.value.(logged := Some(out));
    forall b ensures OpenMsg(Some(o'), b) == OpenMsg(s.open, b) {
    }
  }

  /** The actors once the open turn is a finished one: its runtime is the new base. */
  lemma {:induction false} FinishingKeepsActors(w: World, actors: map<string, Actor>, rts: map<string, Runtime>,
                                                o: Open, uris: nat)
    requires ActorsOK(w, actors, rts, Some(o), uris) && o.agent in w.p.agents
    requires var act := actors[o.agent]; act.Actor? && act.state == Suspended && act.snap.Some?
    ensures ActorsOK(w, actors, rts[o.agent := actors[o.agent].snap.value.mem.rt], None, uris)
  {
    hide Executed;
    var rts' := rts[o.agent := actors[o.agent].snap.value.mem.rt];
    forall a | a in w.p.agents
      ensures ActorOK(w.p, a, rts'[a], None, BootMemory(w, a), actors[a], uris)
    {
      assert ActorOK(w.p, a, rts[a], OpenMsg(Some(o), a), BootMemory(w, a), actors[a], uris);
    }
  }

  /** The caller whose message was overtaken by the finished turn may send it next. */
  lemma {:induction false} OvertakenJob(w: World, log: seq<StepEvent>, cfg: Config, o: Open, job: Job, cfg': Config)
    requires ConvsRead(w, log, cfg.rts, Some(o)) && o.agent in w.p.agents && o.agent in cfg.rts
    requires JobOK(w, log, cfg, Some(o), job) && o.logged.Some?
    requires job.want.Some? && job.want.value != o.msg
    requires cfg'.env == o.logged.value && cfg'.turns != [] && cfg'.rts.Keys == cfg.rts.Keys
    requires Served(cfg'.rts[o.agent]) == Served(cfg.rts[o.agent]) + {o.msg.stepID}
    ensures JobOK(w, log + [OutputEvent(w.p.session, o.agent, [], StateCompleted)], cfg', None, job)
  {
    hide TurnInputs, StateOf, HarnessOf, PendingInputs, PendingOutputs;
    ConvAt(w, log, cfg.rts, Some(o), o.agent);
    CompletedKeepsInputs(w, log, o.agent, job.want.value);
  }

  lemma {:induction false} TurnCommitted(w: World, s: Sys)
    requires ValidWorld(w) && Inv(w, s) && s.driver.Turning? && s.driver.stage.Kept?
    requires s.open.Some? && s.open.value.logged == Some(s.driver.stage.out)
    ensures var job, out := s.driver.job, s.driver.stage.out;
            var done := if job.want.Some? && job.want.value.stepID != out.stepID then Turning(job, Trying)
                else Relaying(out);
            var log := s.log + [OutputEvent(w.p.session, job.agent, [], StateCompleted)];
            Inv(w, TurnDone(w, s.(log := log, driver := done), job.agent, out))
  {
    hide SessionRun, ActorOK, LegalNext, Route, Conv, TurnLog, EndsAs, LogOK, ConvsRead, ActorsOK, WellFormed;
    var job, out, o := s.driver.job, s.driver.stage.out, s.open.value;
    var a := job.agent;
    var rt := s.actors[a].snap.value.mem.rt;
    var c := rt.rounds[|rt.rounds| - 1].choice;
    var cfg' := Config(s.cfg.rts[a := rt], s.cfg.turns + [Turn(a, o.inputs, o.msg, out)], out);
    ExecutedFacts(w.p, a, s.cfg.rts[a], o.msg, rt);
    CommitIsHop(w, s.segs, s.cfg, o.msg, rt, out);
    CompletedLogged(w, s.log, s.cfg, o, out, rt, cfg');
    FinishingKeepsActors(w, s.actors, s.cfg.rts, o, s.uris);
    if job.want.Some? && job.want.value.stepID != out.stepID {
      ConvsOf(w, s);
      OvertakenJob(w, s.log, s.cfg, o, job, cfg');
    }
  }

  lemma {:induction false} ConvsOf(w: World, s: Sys)
    requires Inv(w, s)
    ensures ConvsRead(w, s.log, s.cfg.rts, s.open)
  {
  }

  lemma {:induction false} CommitNextKeeps(w: World, s: Sys, lands: bool)
    requires ValidWorld(w) && Inv(w, s)
    ensures Inv(w, DoCommitNext(w, s, lands))
  {
    hide Inv, PendingOutputs, Conv, TurnDone;
    if s.driver.Turning? && s.driver.stage.Kept? {
      StopKeeps(w, s);
      KeptAgreesWithLog(w, s);
      if lands {
        if s.open.value.logged.None? {
          OutputCommitted(w, s);
        } else {
          TurnCommitted(w, s);
        }
      }
    }
  }

  // ---------- every run ----------

  lemma {:induction false} StepKeeps(w: World, s: Sys, l: Label)
    requires ValidWorld(w) && Inv(w, s)
    ensures Inv(w, Take(w, s, l))
  {
    hide Inv, DoRestart, DoNextMessage, DoSend, DoStop, DoStartTurn, DoLogIn, DoConnect, DoReceive, DoSaveState,
         DoCommitNext,
         DoRoundEnds, DoWorkerCrash, DoProcessDies, DoSuspendEnds;
    match l
    case Restart => RestartKeeps(w, s);
    case NextMessage(data) => NextMessageKeeps(w, s, data);
    case Send(mint) => SendKeeps(w, s, mint);
    case Stop => StopKeeps(w, s);
    case StartTurn(fate) => StartTurnKeeps(w, s, fate);
    case LogIn(lands) => LogInKeeps(w, s, lands);
    case Connect => ConnectKeeps(w, s);
    case LoseConnection => StopKeeps(w, s);
    case Receive => ReceiveKeeps(w, s);
    case SaveState(suspend) => SaveStateKeeps(w, s, suspend);
    case CommitNext(lands) => CommitNextKeeps(w, s, lands);
    case DriverCrash => StopKeeps(w, s);
    case RoundEnds(a, stepID, choice) => RoundEndsKeeps(w, s, a, stepID, choice);
    case WorkerCrash(a) => LossKeeps(w, s, a);
    case ProcessDies(a) => LossKeeps(w, s, a);
    case SuspendEnds(a, recorded) => SuspendEndsKeeps(w, s, a, recorded);
  }

  lemma {:induction false} InitOK(w: World)
    requires ValidWorld(w)
    ensures Inv(w, Init(w))
  {
  }

  lemma {:induction false} RunKeeps(w: World, labels: seq<Label>)
    requires ValidWorld(w)
    ensures Inv(w, Run(w, labels))
  {
    hide Inv, Take;
    if labels == [] {
      InitOK(w);
    } else {
      RunKeeps(w, labels[..|labels| - 1]);
      StepKeeps(w, Run(w, labels[..|labels| - 1]), labels[|labels| - 1]);
    }
  }

  /** The invariant holds in every reachable state. */
  lemma {:induction false} ReachableKeeps(w: World, s: Sys)
    requires ValidWorld(w) && Reachable(w, s)
    ensures Inv(w, s)
  {
    hide Inv, Run, Reachable;
    var labels := ReachableIsRun(w, s);
    RunKeeps(w, labels);
  }
}
