/** Runs in which nothing goes wrong reach whatever the crash-free relay reaches. */
module FaultFree {
  import opened Hop
  import opened EventLog
  import opened Controller
  import opened Runtime
  import opened Substrate
  import opened Relay
  import opened Session
  import opened System
  import opened SystemInvariant

  /** A step that involves no crash, no failed call and no lost connection. */
  predicate Calm(l: Label) {
    match l
    case StartTurn(fate) => fate == ALL_GOOD
    case LogIn(lands) => lands
    case SaveState(suspend) => suspend == Lands
    case CommitNext(lands) => lands
    case LoseConnection => false
    case DriverCrash => false
    case WorkerCrash(_) => false
    case ProcessDies(_) => false
    case SuspendEnds(_, _) => false
    case _ => true
  }

  /** Nothing goes wrong, and checkpointd is started once. */
  predicate NoFaults(labels: seq<Label>) {
    forall i :: 0 <= i < |labels| ==> Calm(labels[i]) && (labels[i].Restart? ==> i == 0)
  }

  lemma {:induction false} OneMore(w: World, labels: seq<Label>, l: Label)
    requires ValidWorld(w) && NoFaults(labels) && Calm(l) && (l.Restart? ==> labels == [])
    ensures NoFaults(labels + [l]) && Run(w, labels + [l]) == Take(w, Run(w, labels), l)
  {
    hide Take;
    assert (labels + [l])[..|labels|] == labels;
  }

  predicate AtRest(act: Actor) {
    act.Absent? || (act.state == Suspended && act.mem == None)
  }

  /** Between two turns: nothing open, every actor suspended, the newest hop in the driver's hand. */
  ghost predicate Quiet(w: World, s: Sys) {
    && Inv(w, s) && s.open.None?
    && s.driver == (if s.cfg.turns == [] then Down else Relaying(s.cfg.env))
    && forall a :: a in s.actors ==> AtRest(s.actors[a])
  }

  /** The actor a turn of `a` is run on, once Start is done with it. */
  function Up(act: Actor, base: Runtime): Actor {
    Actor(Running, Some(Memory(base, map[])), if act.Absent? then None else act.snap, true)
  }

  function JobFor(s: Sys, msg: Envelope): Job {
    Job(msg.to, Some(msg), TurnInputs(s.log, msg.to, msg))
  }

  lemma {:induction false} RestIsSaved(w: World, s: Sys, a: string)
    requires ActorsOK(w, s.actors, s.cfg.rts, None, s.uris) && a in w.p.agents && AtRest(s.actors[a])
    ensures Saved(s.actors[a], BootMemory(w, a)) == Memory(s.cfg.rts[a], map[])
    ensures Start(s.actors[a], BootMemory(w, a), ALL_GOOD, s.uris + 1) == (Up(s.actors[a], s.cfg.rts[a]), true)
  {
    hide Route;
  }

  /** The three ways to the next message: the bootstrap, another client message, the hop in hand. */
  lemma {:induction false} Addressed(w: World, labels: seq<Label>, msg: Envelope) returns (labels': seq<Label>)
    requires ValidWorld(w) && NoFaults(labels) && Quiet(w, Run(w, labels))
    requires LegalNext(w, Run(w, labels).cfg, msg)
    requires labels != [] <==> Run(w, labels).cfg.turns != []
    ensures NoFaults(labels') && labels' != []
    ensures var s := Run(w, labels);
            var s' := Run(w, labels');
            && s'.driver.Relaying? && s' == s.(driver := s'.driver)
            && msg == s'.driver.res.(stepID := msg.stepID)
            && (UsableID(Served(s.cfg.rts[msg.to]), s'.driver.res.stepID) ==> msg == s'.driver.res)
  {
    hide Run, ActorsOK, SessionRun, ConvsRead;
    var s := Run(w, labels);
    labels' := labels;
    if s.cfg.turns == [] {
      labels' := labels + [Restart];
      OneMore(w, labels, Restart);
    } else if IsTerminalReply(s.cfg.env) {
      FinalReplyFromOwner(w, s.segs);
      OneMore(w, labels, Stop);
      OneMore(w, labels + [Stop], NextMessage(msg.data));
      labels' := labels + [Stop] + [NextMessage(msg.data)];
    }
  }

  /** The state with turn `o` open on actor `act`, the driver at `stage`. */
  function Midway(s: Sys, log: seq<StepEvent>, o: Open, act: Actor, uris: nat, stage: Stage): Sys {
    s.(log := log, actors := s.actors[o.agent := act], uris := uris, open := Some(o),
       driver := Turning(Job(o.agent, Some(o.msg), o.inputs), stage))
  }

  function NewTurn(s: Sys, msg: Envelope): Open {
    Open(msg.to, TurnInputs(s.log, msg.to, msg), msg, None)
  }

  function WithInput(w: World, s: Sys, msg: Envelope): seq<StepEvent> {
    s.log + [InputEvent(w.p.session, msg.to, msg.to, TurnInputs(s.log, msg.to, msg))]
  }

  /** A quiet state whose driver has just been handed what becomes `msg`. */
  ghost predicate Handed(w: World, s: Sys, msg: Envelope) {
    && ValidWorld(w) && Inv(w, s) && s.open.None?
    && (forall a :: a in s.actors ==> AtRest(s.actors[a]))
    && LegalNext(w, s.cfg, msg)
    && s.driver.Relaying? && msg == s.driver.res.(stepID := msg.stepID)
    && (UsableID(Served(s.cfg.rts[msg.to]), s.driver.res.stepID) ==> msg == s.driver.res)
  }

  lemma {:induction false} SendStep(w: World, s: Sys, msg: Envelope)
    requires Handed(w, s, msg)
    ensures DoSend(s, msg.stepID) == s.(driver := Turning(JobFor(s, msg), Trying))
    ensures StateOf(Conv(s.log, msg.to)) != StatePending && HarnessOf(Conv(s.log, msg.to)) in {"", msg.to}
  {
    hide ActorsOK, SessionRun, ConvsRead, EndsAs, OpenOK, DriverOK, CfgOK;
    ConvAt(w, s.log, s.cfg.rts, s.open, msg.to);
  }

  lemma {:induction false} StartStep(w: World, s: Sys, msg: Envelope)
    requires Handed(w, s, msg)
    ensures var act := Up(s.actors[msg.to], s.cfg.rts[msg.to]);
            var s' := DoStartTurn(w, s.(driver := Turning(JobFor(s, msg), Trying)), ALL_GOOD);
            s' == s.(actors := s.actors[msg.to := act], uris := s.uris + 1,
                     driver := Turning(JobFor(s, msg),
                                       Started(Fresh(msg.to, TurnInputs(s.log, msg.to, msg)), URI(act))))
  {
    hide ActorOK, SessionRun, ConvsRead, EndsAs, OpenOK, DriverOK, CfgOK, Start, LogOK;
    SendStep(w, s, msg);
    RestIsSaved(w, s, msg.to);
  }

  lemma {:induction false} LogStep(w: World, s: Sys, msg: Envelope)
    requires Handed(w, s, msg)
    ensures var act := Up(s.actors[msg.to], s.cfg.rts[msg.to]);
            var s' := DoLogIn(w, DoStartTurn(w, DoSend(s, msg.stepID), ALL_GOOD), true);
            s' == Midway(s, WithInput(w, s, msg), NewTurn(s, msg), act, s.uris + 1,
                         Ready(TurnInputs(s.log, msg.to, msg), URI(act)))
  {
    hide Inv, DoSend, DoStartTurn;
    SendStep(w, s, msg);
    StartStep(w, s, msg);
    CurrentOfTurn(s.log, msg.to, msg);
  }

  /** Delivery, execution and reply of the open turn, in a state where nothing else is going on. */
  lemma {:induction false} RunStep(w: World, s: Sys, log: seq<StepEvent>, o: Open, snap: Option<Snapshot>,
                                   uris: nat, base: Runtime, pre: nat, c: Choice, out: Envelope)
    requires o.agent in s.actors && o.agent in w.p.agents
    requires Current(o.inputs) == Some(o.msg) && o.msg.stepID != "" && base.lastInputID != o.msg.stepID
    requires Route(w.p.agents[o.agent], o.agent, base, o.msg, c).last == Some(Ok(out))
    ensures var a := o.agent;
            var up := Actor(Running, Some(Memory(base, map[])), snap, true);
            var done := Actor(Running, Some(Memory(Route(w.p.agents[a], a, base, o.msg, c), map[])), snap, true);
            DoReceive(DoRoundEnds(w, DoConnect(Midway(s, log, o, up, uris, Ready(o.inputs, pre))), a, o.msg.stepID,
                                  c)) ==
            Midway(s, log, o, done, uris, Got(out, pre))
  {
    hide DeliverOnce;
    var a := o.agent;
    var up := Actor(Running, Some(Memory(base, map[])), snap, true);
    var busy := Actor(Running, Some(Memory(base, map[o.msg.stepID := o.msg])), snap, true);
    var rt := Route(w.p.agents[a], a, base, o.msg, c);
    var done := Actor(Running, Some(Memory(rt, map[])), snap, true);
    var s1 := Midway(s, log, o, busy, uris, Awaiting(o.msg, pre));
    assert map[][o.msg.stepID := o.msg] == map[o.msg.stepID := o.msg];
    assert DoConnect(Midway(s, log, o, up, uris, Ready(o.inputs, pre))) == s1;
    assert map[o.msg.stepID := o.msg] - {o.msg.stepID} == map[];
    assert DoRoundEnds(w, s1, a, o.msg.stepID, c) == Midway(s, log, o, done, uris, Awaiting(o.msg, pre));
  }

  function Recording(uri: nat, rt: Runtime): Actor {
    Actor(Suspended, None, Some(Snapshot(uri, Memory(rt, map[]))), false)
  }

  lemma {:induction false} SaveStep(s: Sys, log: seq<StepEvent>, o: Open, snap: Option<Snapshot>, uris: nat,
                                    rt: Runtime, out: Envelope)
    requires o.agent in s.actors
    requires var act := Actor(Running, Some(Memory(rt, map[])), snap, true); URI(act) <= uris
    ensures var act := Actor(Running, Some(Memory(rt, map[])), snap, true);
            DoSaveState(Midway(s, log, o, act, uris, Got(out, URI(act))), Lands) ==
            Midway(s, log, o, Recording(uris + 1, rt), uris + 1, Kept(out))
  {
    var act := Actor(Running, Some(Memory(rt, map[])), snap, true);
    assert Checkpoint(act, URI(act), Lands, uris + 1) == (Recording(uris + 1, rt), true);
  }

  /** The first append of the commit: the turn's one output. */
  lemma {:induction false} OutputStep(w: World, s: Sys, log: seq<StepEvent>, o: Open, uris: nat, rt: Runtime,
                                      out: Envelope)
    requires o.agent in s.actors && o.logged.None?
    requires PendingOutputs(Conv(log, o.agent)) == []
    ensures var ev := OutputEvent(w.p.session, o.agent, [ReplyStep(out)], StatePending);
            && DoCommitNext(w, Midway(s, log, o, Recording(uris, rt), uris, Kept(out)), true) ==
               Midway(s, log + [ev], o.(logged := Some(out)), Recording(uris, rt), uris, Kept(out))
            && PendingOutputs(Conv(log + [ev], o.agent)) == [ReplyStep(out)]
  {
    var a := o.agent;
    var ev := OutputEvent(w.p.session, a, [ReplyStep(out)], StatePending);
    assert CommitPlan(w.p.session, a, 0, [ReplyStep(out)])[0] == ev;
    ConvAppend(log, ev, a);
    ScanAppend(Conv(log, a), ev);
    assert Reverse(ev.steps) == [ReplyStep(out)];
  }

  /** The second: COMPLETED. */
  lemma {:induction false} CompletedStep(w: World, s: Sys, log: seq<StepEvent>, o: Open, uris: nat, rt: Runtime,
                                         out: Envelope)
    requires o.agent in s.actors && o.logged == Some(out) && rt.rounds != [] && out.stepID == o.msg.stepID
    requires PendingOutputs(Conv(log, o.agent)) == [ReplyStep(out)]
    ensures var s' := DoCommitNext(w, Midway(s, log, o, Recording(uris, rt), uris, Kept(out)), true);
            && s'.cfg == Config(s.cfg.rts[o.agent := rt], s.cfg.turns + [Turn(o.agent, o.inputs, o.msg, out)], out)
            && s'.actors == s.actors[o.agent := Recording(uris, rt)]
            && s'.open.None? && s'.driver == Relaying(out)
  {
    hide PendingOutputs, Conv, ExtendSegs;
    assert CommitPlan(w.p.session, o.agent, 1, [ReplyStep(out)])[0] ==
        OutputEvent(w.p.session, o.agent, [], StateCompleted);
  }

  lemma {:induction false} LoggedInputPending(w: World, s: Sys, msg: Envelope)
    requires msg.to != ""
    ensures PendingOutputs(Conv(WithInput(w, s, msg), msg.to)) == []
  {
    var ev := InputEvent(w.p.session, msg.to, msg.to, TurnInputs(s.log, msg.to, msg));
    ConvAppend(s.log, ev, msg.to);
    ScanAppend(Conv(s.log, msg.to), ev);
  }

  /** The steps of one turn delivered to `a` under `id`, from the hop in hand to the committed reply. */
  function TurnLabels(a: string, id: string, c: Choice): seq<Label> {
    [Send(id), StartTurn(ALL_GOOD), LogIn(true)] +
    ([Connect, RoundEnds(a, id, c), Receive] + ([SaveState(Lands), CommitNext(true), CommitNext(true)] + []))
  }

  function TakeAll(w: World, s: Sys, labels: seq<Label>): Sys
    decreases |labels|
  {
    if labels == [] then s else TakeAll(w, Take(w, s, labels[0]), labels[1..])
  }

  lemma {:induction false} More(w: World, labels: seq<Label>, more: seq<Label>)
    requires ValidWorld(w) && NoFaults(labels)
    requires forall l :: l in more ==> Calm(l) && !l.Restart?
    ensures NoFaults(labels + more) && Run(w, labels + more) == TakeAll(w, Run(w, labels), more)
    decreases |more|
  {
    hide Take, Run;
    if more == [] {
      assert labels + more == labels;
    } else {
      OneMore(w, labels, more[0]);
      More(w, labels + [more[0]], more[1..]);
      assert labels + more == labels + [more[0]] + more[1..];
    }
  }

  lemma {:induction false} TakeOne(w: World, s: Sys, a: Label, rest: seq<Label>)
    ensures TakeAll(w, s, [a] + rest) == TakeAll(w, Take(w, s, a), rest)
  {
    hide Take;
    assert ([a] + rest)[1..] == rest;
  }

  lemma {:induction false} TakeThree(w: World, s: Sys, a: Label, b: Label, c: Label, rest: seq<Label>)
    ensures TakeAll(w, s, [a, b, c] + rest) == TakeAll(w, Take(w, Take(w, Take(w, s, a), b), c), rest)
  {
    hide Take, TakeAll;
    TakeOne(w, s, a, [b] + ([c] + rest));
    TakeOne(w, Take(w, s, a), b, [c] + rest);
    TakeOne(w, Take(w, Take(w, s, a), b), c, rest);
    assert [a, b, c] + rest == [a] + ([b] + ([c] + rest));
  }

  lemma {:induction false} TakeTurn(w: World, s: Sys, a: string, id: string, c: Choice)
    ensures TakeAll(w, s, TurnLabels(a, id, c)) ==
            DoCommitNext(w, DoCommitNext(w, DoSaveState(DoReceive(DoRoundEnds(w, DoConnect(DoLogIn(w,
              DoStartTurn(w, DoSend(s, id), ALL_GOOD), true)), a, id, c)), Lands), true), true)
  {
    hide DoSend, DoStartTurn, DoLogIn, DoConnect, DoRoundEnds, DoReceive, DoSaveState, DoCommitNext;
    var third := [SaveState(Lands), CommitNext(true), CommitNext(true)];
    var second := [Connect, RoundEnds(a, id, c), Receive];
    var s3 := DoLogIn(w, DoStartTurn(w, DoSend(s, id), ALL_GOOD), true);
    var s6 := DoReceive(DoRoundEnds(w, DoConnect(s3), a, id, c));
    TakeThree(w, s, Send(id), StartTurn(ALL_GOOD), LogIn(true), second + (third + []));
    TakeThree(w, s3, Connect, RoundEnds(a, id, c), Receive, third + []);
    TakeThree(w, s6, SaveState(Lands), CommitNext(true), CommitNext(true), []);
  }

  /** Everything one fault-free turn does, from a handed-out message to the committed reply. */
  lemma {:induction false} TurnRuns(w: World, s: Sys, msg: Envelope, c: Choice, out: Envelope)
    requires Handed(w, s, msg)
    requires Route(w.p.agents[msg.to], msg.to, s.cfg.rts[msg.to], msg, c).last == Some(Ok(out))
    ensures var a := msg.to;
            var rt := Route(w.p.agents[a], a, s.cfg.rts[a], msg, c);
            var s' := TakeAll(w, s, TurnLabels(a, msg.stepID, c));
            && s'.cfg == Config(s.cfg.rts[a := rt], s.cfg.turns + [Turn(a, TurnInputs(s.log, a, msg), msg, out)], out)
            && s'.open.None? && s'.driver == Relaying(out)
            && (forall b :: b in s'.actors ==> AtRest(s'.actors[b]))
  {
    hide Inv, DoSend, DoStartTurn, DoLogIn, DoConnect, DoRoundEnds, DoReceive, DoSaveState, DoCommitNext, DeliverOnce,
         TurnInputs, PendingOutputs, Conv, WellFormed;
    HandedFacts(w, s, msg);
    var a, base := msg.to, s.cfg.rts[msg.to];
    var rt := Route(w.p.agents[a], a, base, msg, c);
    var log, o, act := WithInput(w, s, msg), NewTurn(s, msg), Up(s.actors[a], base);
    assert Executed(w.p, a, base, msg, rt);
    ExecutedFacts(w.p, a, base, msg, rt);
    TakeTurn(w, s, a, msg.stepID, c);
    LogStep(w, s, msg);
    CurrentOfTurn(s.log, a, msg);
    RunStep(w, s, log, o, act.snap, s.uris + 1, base, URI(act), c, out);
    SaveStep(s, log, o, act.snap, s.uris + 1, rt, out);
    LoggedInputPending(w, s, msg);
    OutputStep(w, s, log, o, s.uris + 2, rt, out);
    CompletedStep(w, s, log + [OutputEvent(w.p.session, a, [ReplyStep(out)], StatePending)],
                  o.(logged := Some(out)), s.uris + 2, rt, out);
  }

  lemma {:induction false} HandedFacts(w: World, s: Sys, msg: Envelope)
    requires Handed(w, s, msg)
    ensures msg.to in s.actors && msg.to in w.p.agents && msg.to in s.cfg.rts && msg.to != "" && msg.stepID != ""
    ensures URI(Up(s.actors[msg.to], s.cfg.rts[msg.to])) <= s.uris
    ensures s.cfg.rts[msg.to].lastInputID != msg.stepID
  {
    hide SessionRun, ConvsRead, LogOK, CfgOK, OpenOK, DriverOK;
    ServedRemembered(w, s, msg.to);
  }

  /** From a quiet state, one more turn without faults: any legal message, any choice that does not fail. */
  lemma {:induction false} TurnRealized(w: World, labels: seq<Label>, msg: Envelope, c: Choice, out: Envelope)
    returns (labels': seq<Label>)
    requires ValidWorld(w) && NoFaults(labels) && Quiet(w, Run(w, labels))
    requires LegalNext(w, Run(w, labels).cfg, msg)
    requires labels != [] <==> Run(w, labels).cfg.turns != []
    requires Route(w.p.agents[msg.to], msg.to, Run(w, labels).cfg.rts[msg.to], msg, c).last == Some(Ok(out))
    ensures NoFaults(labels') && labels' != [] && Quiet(w, Run(w, labels'))
    ensures var cfg := Run(w, labels).cfg;
            var rt := Route(w.p.agents[msg.to], msg.to, cfg.rts[msg.to], msg, c);
            Run(w, labels').cfg == Config(cfg.rts[msg.to := rt],
              cfg.turns + [Turn(msg.to, TurnInputs(TurnLog(w.p, cfg.turns), msg.to, msg), msg, out)], out)
  {
    hide Run, Route, SessionRun, ConvsRead, ActorOK, LegalNext, TurnLabels, TakeAll, TurnLog, TurnInputs, WellFormed;
    var ls := Addressed(w, labels, msg);
    var s := Run(w, ls);
    RunKeeps(w, ls);
    TurnRuns(w, s, msg, c, out);
    labels' := ls + TurnLabels(msg.to, msg.stepID, c);
    OnlyCalm(msg.to, msg.stepID, c);
    More(w, ls, TurnLabels(msg.to, msg.stepID, c));
    RunKeeps(w, labels');
    assert s.log == TurnLog(w.p, s.cfg.turns);
  }

  lemma {:induction false} OnlyCalm(a: string, id: string, c: Choice)
    ensures forall l :: l in TurnLabels(a, id, c) ==> Calm(l) && !l.Restart?
  {
  }

  /** The message a crash-free hop delivers is a legal one. */
  lemma {:induction false} HopIsLegal(w: World, s: Sys, hand: Config, h: HopItem)
    requires ValidWorld(w) && Inv(w, s)
    requires if IsTerminalReply(s.cfg.env) then
               hand == s.cfg.(env := hand.env) && FromClient(w.p, hand.env)
                   && (s.cfg.turns == [] ==> IsBootstrap(w, hand.env))
             else hand == s.cfg
    requires RelayHop(w.p, hand, h).Some?
    ensures LegalNext(w, s.cfg, hand.env.(stepID := PickID(Served(hand.rts[hand.env.to]), hand.env.stepID, h.mint)))
  {
    hide SessionRun, ConvsRead, ActorOK, DeliverOnce, LogOK, OpenOK, DriverOK, TurnLog, TurnInputs;
    if s.cfg.turns == [] {
      SessionLived(w.p, s.segs);
      assert Lived(s.cfg.rts[w.p.owner], []);
      assert Served(s.cfg.rts[w.p.owner]) == {};
    }
  }

  lemma {:induction false} HopRealized(w: World, labels: seq<Label>, hand: Config, h: HopItem)
    returns (labels': seq<Label>)
    requires ValidWorld(w) && NoFaults(labels) && Quiet(w, Run(w, labels))
    requires labels != [] <==> Run(w, labels).cfg.turns != []
    requires var cfg := Run(w, labels).cfg;
             if IsTerminalReply(cfg.env) then
               hand == cfg.(env := hand.env) && FromClient(w.p, hand.env)
                   && (cfg.turns == [] ==> IsBootstrap(w, hand.env))
             else hand == cfg
    requires RelayHop(w.p, hand, h).Some?
    ensures NoFaults(labels') && labels' != [] && Quiet(w, Run(w, labels'))
    ensures RelayHop(w.p, hand, h) == Some(Run(w, labels').cfg) && Run(w, labels').cfg.turns != []
  {
    hide Run, SessionRun, ConvsRead, ActorOK, DeliverOnce, LogOK, OpenOK, LegalNext, TurnLog, TurnInputs, WellFormed;
    var s := Run(w, labels);
    HopIsLegal(w, s, hand, h);
    var a := hand.env.to;
    var msg := hand.env.(stepID := PickID(Served(hand.rts[a]), hand.env.stepID, h.mint));
    var out := RelayHop(w.p, hand, h).value.env;
    labels' := TurnRealized(w, labels, msg, h.choice, out);
  }

  lemma {:induction false} HopsRealized(w: World, labels: seq<Label>, ext: Envelope, hops: seq<HopItem>)
    returns (labels': seq<Label>)
    requires ValidWorld(w) && NoFaults(labels) && Quiet(w, Run(w, labels)) && hops != []
    requires labels != [] <==> Run(w, labels).cfg.turns != []
    requires var cfg := Run(w, labels).cfg;
             && IsTerminalReply(cfg.env) && FromClient(w.p, ext) && (cfg.turns == [] ==> IsBootstrap(w, ext))
             && RelayRun(w.p, cfg.(env := ext), hops).Some?
    ensures NoFaults(labels') && labels' != [] && Quiet(w, Run(w, labels'))
    ensures RelayRun(w.p, Run(w, labels).cfg.(env := ext), hops) == Some(Run(w, labels').cfg)
    ensures Run(w, labels').cfg.turns != []
  {
    hide Run, Quiet, RelayHop;
    var cfg := Run(w, labels).cfg;
    var init, h := hops[..|hops| - 1], hops[|hops| - 1];
    if init == [] {
      labels' := HopRealized(w, labels, cfg.(env := ext), h);
    } else {
      var before := HopsRealized(w, labels, ext, init);
      HopNotTerminal(w, Run(w, before).cfg, h);
      labels' := HopRealized(w, before, Run(w, before).cfg, h);
    }
  }

  lemma {:induction false} HopNotTerminal(w: World, cfg: Config, h: HopItem)
    requires ValidWorld(w) && RelayHop(w.p, cfg, h).Some?
    ensures !IsTerminalReply(cfg.env)
  {
  }

  /** Everything the crash-free relay can do, the full protocol can do without a fault. */
  lemma {:induction false} SessionRealized(w: World, segs: seq<Segment>) returns (labels: seq<Label>)
    requires ValidWorld(w) && SessionRun(w.p, segs).Some?
    requires forall i :: 0 <= i < |segs| ==> segs[i].hops != []
    requires segs != [] ==> IsBootstrap(w, segs[0].ext)
    ensures NoFaults(labels) && Quiet(w, Run(w, labels))
    ensures SessionRun(w.p, segs) == Some(Run(w, labels).cfg)
    ensures labels != [] <==> Run(w, labels).cfg.turns != []
    ensures segs != [] ==> labels != []
  {
    hide RelayRun, Take, IsBootstrap;
    labels := [];
    if segs == [] {
      InitOK(w);
    } else {
      var init, seg := segs[..|segs| - 1], segs[|segs| - 1];
      var before := SessionRealized(w, init);
      labels := HopsRealized(w, before, seg.ext, seg.hops);
    }
  }

  /** Some run without a single fault ends in `s`. */
  ghost predicate ReachableWithoutFaults(w: World, s: Sys)
    requires w.p.locals.Keys == w.p.agents.Keys
  {
    exists trace, labels :: IsTrace(w, trace, labels) && NoFaults(labels) && s == trace[|labels|]
  }

  lemma {:induction false} CalmRun(w: World, labels: seq<Label>)
    requires w.p.locals.Keys == w.p.agents.Keys && NoFaults(labels)
    ensures ReachableWithoutFaults(w, Run(w, labels))
  {
    hide Run, IsTrace, NoFaults;
    var trace := RunHasTrace(w, labels);
  }
}
