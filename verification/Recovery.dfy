/** What crashes leave behind: the open turn can always be completed, unless its failure is remembered. */
module Recovery {
  import opened Hop
  import opened EventLog
  import opened Controller
  import opened Runtime
  import opened Substrate
  import opened Relay
  import opened Session
  import opened System
  import opened SystemInvariant
  import opened FaultFree
  import opened CrashSafety

  // ---------- actors that can be brought back ----------

  ghost predicate ActorsRecoverable(s: Sys) {
    forall a :: a in s.actors ==> Recoverable(s.actors[a])
  }

  lemma {:induction false} StepStaysRecoverable(w: World, s: Sys, l: Label)
    requires ActorsRecoverable(s)
    ensures ActorsRecoverable(Take(w, s, l))
  {
    hide Start, PlanFor, Conv, PendingOutputs, CommitPlan, Finish, Arrive, LastHop, StepIDs, TurnInputs, ExtendSegs;
    if l.StartTurn? && s.driver.Turning? && s.driver.job.agent in s.actors && s.driver.job.agent in w.p.locals {
      var a := s.driver.job.agent;
      StartStaysRecoverable(s.actors[a], BootMemory(w, a), l.fate, s.uris + 1);
    }
  }

  lemma {:induction false} RunStaysRecoverable(w: World, labels: seq<Label>)
    requires ValidWorld(w)
    ensures ActorsRecoverable(Run(w, labels))
  {
    hide Take;
    if labels != [] {
      RunStaysRecoverable(w, labels[..|labels| - 1]);
      StepStaysRecoverable(w, Run(w, labels[..|labels| - 1]), labels[|labels| - 1]);
    }
  }

  // ---------- the open turn's prospects ----------

  /** The process that would be asked for the open turn has run it, failed, and answers every retry with that. */
  ghost predicate FailureRemembered(s: Sys) {
    && s.open.Some? && s.open.value.agent in s.actors
    && var act := s.actors[s.open.value.agent];
    && act.Actor? && act.mem.Some? && act.mem.value.rt.lastInputID == s.open.value.msg.stepID
    && act.mem.value.rt.last.Some? && act.mem.value.rt.last.value.Err?
  }

  /** With choice `c` the open turn's invocation does not fail. */
  ghost predicate SucceedsWith(w: World, s: Sys, c: Choice) {
    && s.open.Some? && s.open.value.agent in w.p.agents && s.open.value.agent in s.cfg.rts
    && var a := s.open.value.agent;
    Route(w.p.agents[a], a, s.cfg.rts[a], s.open.value.msg, c).last.value.Ok?
  }

  ghost predicate Hopeful(w: World, s: Sys, c: Choice) {
    && ValidWorld(w) && Inv(w, s) && ActorsRecoverable(s)
    && s.open.Some? && !FailureRemembered(s) && SucceedsWith(w, s, c)
  }

  ghost predicate SameTurn(s: Sys, s': Sys) {
    s'.log == s.log && s'.open == s.open && s'.cfg == s.cfg
  }

  lemma {:induction false} StillHopeful(w: World, s: Sys, l: Label, c: Choice)
    requires Hopeful(w, s, c) && SameTurn(s, Take(w, s, l)) && !FailureRemembered(Take(w, s, l))
    ensures Hopeful(w, Take(w, s, l), c)
  {
    hide Take, Inv, FailureRemembered, Recoverable, Route;
    StepKeeps(w, s, l);
    StepStaysRecoverable(w, s, l);
  }

  /** What the invariant says about the open turn and the actor it is for. */
  lemma {:induction false} OpenFacts(w: World, s: Sys)
    requires ValidWorld(w) && Inv(w, s) && s.open.Some?
    ensures var o := s.open.value;
            && o.agent == o.msg.to && o.agent in w.p.agents && o.agent in s.actors && o.agent in s.cfg.rts
            && o.agent in w.p.locals && o.agent != ""
            && UsableID(Served(s.cfg.rts[o.agent]), o.msg.stepID) && RemembersServed(s.cfg.rts[o.agent])
            && Current(o.inputs) == Some(o.msg)
            && ActorOK(w.p, o.agent, s.cfg.rts[o.agent], Some(o.msg), BootMemory(w, o.agent), s.actors[o.agent], s.uris)
  {
    hide SessionRun, ActorOK, LogOK, CfgOK, DriverOK, TurnLog, TurnInputs, RemembersServed, ExecutedWith;
    var o := s.open.value;
    ServedRemembered(w, s, o.agent);
    CurrentOfTurn(TurnLog(w.p, s.cfg.turns), o.agent, o.msg);
  }

  /** A retry redoes the open turn with the inputs it was logged with. */
  lemma {:induction false} RetryRedoes(w: World, s: Sys)
    requires ValidWorld(w) && Inv(w, s) && s.open.Some? && s.driver.Turning?
    ensures var o := s.open.value;
            s.driver.job.agent == o.agent && PlanFor(w, s.log, s.driver.job) == Redo(o.agent, o.inputs)
  {
    hide SessionRun, ActorOK, EndsAs, CfgOK, TurnLog, OpenLog, TurnInputs, Conv, StageOK, StepIDs, PendingOutputs,
         ConvsRead, LegalNext, ExecutedWith, StateOf, HarnessOf, PendingInputs, WellFormed;
    OpenFacts(w, s);
    ConvAt(w, s.log, s.cfg.rts, s.open, s.open.value.agent);
  }

  // ---------- back to a fresh attempt ----------

  /** A driver brought up again finds the open turn; one with a client's message at hand finds it in its way. */
  lemma {:induction false} DriverTurns(w: World, s: Sys, mint: string, c: Choice)
    requires Hopeful(w, s, c) && UsableID(StepIDs(Conv(s.log, w.p.owner)), mint)
    ensures var s' := DoSend(DoRestart(w, s), mint);
            && SameTurn(s, s') && s'.driver.Turning? && !FailureRemembered(s') && !FailureRemembered(DoRestart(w, s))
            && SameTurn(s, DoRestart(w, s)) && SameTurn(DoRestart(w, s), s')
  {
    hide SessionRun, ActorsOK, CfgOK, TurnLog, OpenLog, TurnInputs, Conv, StageOK, ConvsRead, LegalNext, ExecutedWith,
         StepIDs, JobOK;
  }

  lemma {:induction false} LogInMovesOn(w: World, s: Sys, lands: bool)
    requires Inv(w, s) && s.open.Some?
    ensures var s' := DoLogIn(w, s, lands);
            && SameTurn(s, s') && s'.actors == s.actors
            && (!s.driver.Turning? || !s.driver.stage.Started? ==> s' == s)
            && (s.driver.Turning? && s.driver.stage.Started? ==>
                  && s'.driver.Turning? && s'.driver.stage.Ready? && s'.driver.job == s.driver.job
                  && s'.driver.stage.pre == s.driver.stage.pre)
  {
    hide SessionRun, ActorsOK, CfgOK, LogOK, OpenOK, JobOK, Route;
  }

  /** The open turn's actor has a live process. */
  predicate Up(s: Sys) {
    && s.open.Some? && s.open.value.agent in s.actors
    && var act := s.actors[s.open.value.agent];
    act.Actor? && act.state == Running && act.mem.Some?
  }

  function OpenRuntime(s: Sys): Runtime
    requires Up(s)
  {
    s.actors[s.open.value.agent].mem.value.rt
  }

  /** The process has the open turn in hand, or has run it. */
  predicate Asked(s: Sys)
    requires Up(s)
  {
    OpenRuntime(s).lastInputID == s.open.value.msg.stepID ||
    s.open.value.msg.stepID in s.actors[s.open.value.agent].mem.value.inFlight
  }

  lemma {:induction false} ConnectMovesOn(w: World, s: Sys, c: Choice)
    requires Hopeful(w, s, c) && s.driver.Turning?
    ensures var s' := DoConnect(s);
            && SameTurn(s, s') && s'.driver.Turning? && !s'.driver.stage.Ready? && !FailureRemembered(s')
            && (s.driver.stage.Started? <==> s'.driver.stage.Started?)
            && (!s.driver.stage.Ready? ==> s' == s)
            && (s.driver.stage.Ready? && Up(s) ==>
                  && s'.driver.stage == Awaiting(s.open.value.msg, s.driver.stage.pre) && Up(s') && Asked(s'))
  {
    hide SessionRun, ActorsOK, CfgOK, LogOK, OpenOK, JobOK, Route, Current, Inv;
    OpenFacts(w, s);
    if s.driver.stage.Ready? {
      ReadyQueue(w, s);
    }
  }

  lemma {:induction false} ReadyQueue(w: World, s: Sys)
    requires Inv(w, s) && s.open.Some? && s.driver.Turning? && s.driver.stage.Ready?
    ensures s.driver.job.agent == s.open.value.agent && s.driver.stage.queued == s.open.value.inputs
  {
    hide SessionRun, ActorsOK, CfgOK, LogOK, OpenOK;
  }

  lemma {:induction false} SaveMovesOn(w: World, s: Sys, c: Choice)
    requires Hopeful(w, s, c) && s.driver.Turning?
    ensures var s' := DoSaveState(s, Lands);
            && SameTurn(s, s') && s'.driver.Turning? && !s'.driver.stage.Got? && !FailureRemembered(s')
            && (!s.driver.stage.Got? ==> s' == s)
            && (s.driver.stage.Got? ==> s'.driver.stage.Trying? || s'.driver.stage.Kept?)
            && (s.driver.stage.Got? && Up(s) ==> s'.driver.stage.Kept?)
  {
    hide SessionRun, ActorsOK, CfgOK, LogOK, OpenOK, Route, ActorOK, Inv;
    OpenFacts(w, s);
    if s.driver.stage.Got? {
      GotAt(w, s);
    }
  }

  lemma {:induction false} GotAt(w: World, s: Sys)
    requires ValidWorld(w) && Inv(w, s) && s.open.Some? && s.driver.Turning? && s.driver.stage.Got?
    ensures var a := s.open.value.agent;
            && s.driver.job.agent == a && a in s.actors && s.actors[a].Actor?
            && URI(s.actors[a]) == s.driver.stage.pre <= s.uris
  {
    hide SessionRun, CfgOK, LogOK, OpenOK, Route, MemoryOK, SnapshotOK;
    OpenFacts(w, s);
  }

  // ---------- the attempt itself ----------

  /** If the runtime's latest turn is `stepID`, that did not fail. */
  predicate NotFailed(rt: Runtime, stepID: string) {
    rt.lastInputID == stepID && rt.last.Some? ==> rt.last.value.Ok?
  }

  /** No memory an actor can be started with remembers the open turn as failed, unless its own process did. */
  lemma {:induction false} StartForgets(p: Params, a: string, base: Runtime, msg: Envelope, boot: Memory,
                                        act: Actor, uris: nat, fate: Fate)
    requires ActorOK(p, a, base, Some(msg), boot, act, uris)
    requires UsableID(Served(base), msg.stepID) && RemembersServed(base)
    requires act.Actor? && act.mem.Some? ==> NotFailed(act.mem.value.rt, msg.stepID)
    ensures NotFailed(StartedWith(act, boot, fate).rt, msg.stepID)
  {
    hide Route, MemoryOK, Served;
  }

  lemma {:induction false} StartMovesOn(w: World, s: Sys, c: Choice)
    requires Hopeful(w, s, c) && s.driver.Turning?
    ensures var a := s.open.value.agent;
            var s' := DoStartTurn(w, s, ALL_GOOD);
            && SameTurn(s, s') && s'.driver.Turning? && !FailureRemembered(s') && a in s.actors && a in s'.actors
            && (!s.driver.stage.Trying? ==> s' == s)
            && (s.driver.stage.Trying? && !RunsNothing(s.actors[a]) ==> s'.driver.stage.Started? && Up(s'))
            && (s.driver.stage.Trying? && RunsNothing(s.actors[a]) ==>
                  s'.driver.stage.Trying? && !RunsNothing(s'.actors[a]))
  {
    hide Inv, Start, PlanFor, Served, RemembersServed, ActorOK, WellFormed, Route;
    OpenFacts(w, s);
    RetryRedoes(w, s);
    var a := s.open.value.agent;
    var act := s.actors[a];
    StartRecovers(act, BootMemory(w, a), ALL_GOOD, s.uris + 1);
    SecondStartRecovers(act, BootMemory(w, a), s.uris + 1, s.uris + 2);
    StartForgets(w.p, a, s.cfg.rts[a], s.open.value.msg, BootMemory(w, a), act, s.uris, ALL_GOOD);
    RunningIsRecovered(w, s);
  }

  lemma {:induction false} RunningIsRecovered(w: World, s: Sys)
    requires ValidWorld(w) && Inv(w, s) && ActorsRecoverable(s) && s.open.Some? && s.open.value.agent in s.actors
    ensures Recoverable(s.actors[s.open.value.agent]) && CanRun(s.actors[s.open.value.agent], ALL_GOOD)
  {
  }

  lemma {:induction false} RunningIsOpen(p: Params, a: string, base: Runtime, msg: Envelope, boot: Memory,
                                         act: Actor, uris: nat)
    requires ActorOK(p, a, base, Some(msg), boot, act, uris)
    requires act.Actor? && act.mem.Some? && msg.stepID in act.mem.value.inFlight
    ensures act.mem.value == Memory(base, map[msg.stepID := msg])
  {
    hide Executed;
  }

  lemma {:induction false} RoundMovesOn(w: World, s: Sys, c: Choice)
    requires Hopeful(w, s, c) && Up(s) && Asked(s)
    ensures var o := s.open.value;
            var s' := DoRoundEnds(w, s, o.agent, o.msg.stepID, c);
            && SameTurn(s, s') && s'.driver == s.driver && Up(s') && !FailureRemembered(s')
            && OpenRuntime(s').lastInputID == o.msg.stepID && OpenRuntime(s').last.Some?
  {
    hide Inv, DeliverOnce, Served, WellFormed, ActorOK, Recoverable;
    OpenFacts(w, s);
    var a, msg := s.open.value.agent, s.open.value.msg;
    var base, mem := s.cfg.rts[a], s.actors[a].mem.value;
    if msg.stepID in mem.inFlight {
      RunningIsOpen(w.p, a, base, msg, BootMemory(w, a), s.actors[a], s.uris);
    } else {
      RememberedIsExecuted(w.p, a, base, msg, BootMemory(w, a), s.actors[a], s.uris);
    }
  }

  lemma {:induction false} ReceiveMovesOn(w: World, s: Sys, c: Choice)
    requires Hopeful(w, s, c) && s.driver.Turning? && s.driver.stage.Awaiting? && Up(s)
    requires OpenRuntime(s).lastInputID == s.open.value.msg.stepID && OpenRuntime(s).last.Some?
    ensures var s' := DoReceive(s);
            SameTurn(s, s') && s'.driver.Turning? && s'.driver.stage.Got? && s'.actors == s.actors
  {
    hide SessionRun, ActorsOK, CfgOK, LogOK, OpenOK, Route;
  }

  /** The turn that was open in `s` is finished in `s'`. */
  ghost predicate TurnFinished(s: Sys, s': Sys)
    requires s.open.Some?
  {
    var o := s.open.value;
    && s'.open.None? && |s'.cfg.turns| == |s.cfg.turns| + 1 && s.cfg.turns <= s'.cfg.turns
    && var t := s'.cfg.turns[|s.cfg.turns|];
    && t.agent == o.agent && t.inputs == o.inputs && t.msg == o.msg && (o.logged.Some? ==> t.out == o.logged.value)
  }

  lemma {:induction false} CommitMovesOn(w: World, s: Sys)
    requires ValidWorld(w) && Inv(w, s) && s.open.Some? && s.driver.Turning? && s.driver.stage.Kept?
    ensures var s' := DoCommitNext(w, s, true);
            if s.open.value.logged.Some? then TurnFinished(s, s') && (s'.driver.Turning? ==> s'.driver.stage.Trying?)
            else
              && s'.open.Some? && s'.open == Some(s.open.value.(logged := s'.open.value.logged))
              && s'.open.value.logged.Some? && s'.cfg == s.cfg && s'.driver == s.driver
  {
    hide SessionRun, ActorOK, LegalNext, Route, Conv, TurnLog, EndsAs, ConvsRead, StepIDs, TurnInputs, WellFormed,
         PendingOutputs, ExtendSegs, Executed;
    KeptAgreesWithLog(w, s);
    KeptRuntime(w, s);
  }

  // ---------- all of it ----------

  /** A step in which nothing fails or crashes; a driver may give up a connection that an earlier crash has cut. */
  predicate Recovering(l: Label) {
    Calm(l) || l.LoseConnection?
  }

  /** Whatever the driver was at, it is back at the open turn, before an attempt or with a reply to commit. */
  function Regrouped(w: World, s: Sys, mint: string): Sys {
    DoSaveState(DoLoseConnection(DoConnect(DoLogIn(w, DoSend(DoRestart(w, s), mint), true))), Lands)
  }

  lemma {:induction false} Regroups(w: World, s: Sys, mint: string, c: Choice)
    requires Hopeful(w, s, c) && UsableID(StepIDs(Conv(s.log, w.p.owner)), mint)
    ensures var s' := Regrouped(w, s, mint);
            && Hopeful(w, s', c) && SameTurn(s, s')
            && s'.driver.Turning? && (s'.driver.stage.Trying? || s'.driver.stage.Kept?)
  {
    hide Inv, SucceedsWith, ActorsRecoverable, FailureRemembered, DoRestart, DoSend, DoLogIn, DoConnect, DoSaveState,
         UsableID;
    DriverTurns(w, s, mint, c);
    StillHopeful(w, s, Restart, c);
    var s1 := DoRestart(w, s);
    StillHopeful(w, s1, Send(mint), c);
    var s2 := DoSend(s1, mint);
    LogInMovesOn(w, s2, true);
    SameActorsSameProspects(s2, DoLogIn(w, s2, true));
    StillHopeful(w, s2, LogIn(true), c);
    var s3 := DoLogIn(w, s2, true);
    ConnectMovesOn(w, s3, c);
    StillHopeful(w, s3, Connect, c);
    var s4 := DoConnect(s3);
    SameActorsSameProspects(s4, DoLoseConnection(s4));
    StillHopeful(w, s4, LoseConnection, c);
    var s5 := DoLoseConnection(s4);
    SaveMovesOn(w, s5, c);
    StillHopeful(w, s5, SaveState(Lands), c);
  }

  lemma {:induction false} SameActorsSameProspects(s: Sys, s': Sys)
    requires s'.actors == s.actors && s'.open == s.open
    ensures FailureRemembered(s') == FailureRemembered(s)
    ensures Up(s') == Up(s) && (Up(s) ==> OpenRuntime(s') == OpenRuntime(s))
  {
  }

  /** One attempt, from Start to the checkpoint. */
  function Attempted(w: World, s: Sys, a: string, id: string, c: Choice): Sys {
    var started := DoStartTurn(w, DoStartTurn(w, s, ALL_GOOD), ALL_GOOD);
    DoSaveState(DoReceive(DoRoundEnds(w, DoConnect(DoLogIn(w, started, true)), a, id, c)), Lands)
  }

  lemma {:induction false} StartsUp(w: World, s: Sys, c: Choice)
    requires Hopeful(w, s, c) && s.driver.Turning? && s.driver.stage.Trying?
    ensures var s' := DoStartTurn(w, DoStartTurn(w, s, ALL_GOOD), ALL_GOOD);
            && Hopeful(w, s', c) && SameTurn(s, s') && s'.driver.Turning? && s'.driver.stage.Started? && Up(s')
  {
    hide Hopeful, FailureRemembered, DoStartTurn, Up, RunsNothing;
    StartMovesOn(w, s, c);
    StillHopeful(w, s, StartTurn(ALL_GOOD), c);
    var s1 := DoStartTurn(w, s, ALL_GOOD);
    StartMovesOn(w, s1, c);
    StillHopeful(w, s1, StartTurn(ALL_GOOD), c);
  }

  lemma {:induction false} RunsThrough(w: World, s: Sys, c: Choice)
    requires Hopeful(w, s, c) && s.driver.Turning? && s.driver.stage.Started? && Up(s)
    ensures var o := s.open.value;
            var s' := DoSaveState(DoReceive(DoRoundEnds(w, DoConnect(DoLogIn(w, s, true)), o.agent, o.msg.stepID,
                                                        c)), Lands);
            && Hopeful(w, s', c) && SameTurn(s, s') && s'.driver.Turning? && s'.driver.stage.Kept?
  {
    hide Inv, SucceedsWith, ActorsRecoverable, FailureRemembered, DoLogIn, DoConnect, DoRoundEnds, DoReceive,
        DoSaveState,
         Up, Asked, OpenRuntime;
    var o := s.open.value;
    LogInMovesOn(w, s, true);
    SameActorsSameProspects(s, DoLogIn(w, s, true));
    StillHopeful(w, s, LogIn(true), c);
    var s1 := DoLogIn(w, s, true);
    ConnectMovesOn(w, s1, c);
    StillHopeful(w, s1, Connect, c);
    var s2 := DoConnect(s1);
    RoundMovesOn(w, s2, c);
    StillHopeful(w, s2, RoundEnds(o.agent, o.msg.stepID, c), c);
    var s3 := DoRoundEnds(w, s2, o.agent, o.msg.stepID, c);
    ReceiveMovesOn(w, s3, c);
    SameActorsSameProspects(s3, DoReceive(s3));
    StillHopeful(w, s3, Receive, c);
    var s4 := DoReceive(s3);
    SaveMovesOn(w, s4, c);
    StillHopeful(w, s4, SaveState(Lands), c);
  }

  /** A reply already kept is left alone. */
  lemma {:induction false} KeptStays(w: World, s: Sys, c: Choice)
    requires Hopeful(w, s, c) && s.driver.Turning? && s.driver.stage.Kept?
    ensures Attempted(w, s, s.open.value.agent, s.open.value.msg.stepID, c) == s
  {
    hide Inv, Recoverable, Route;
    KeptRuntime(w, s);
  }

  lemma {:induction false} AttemptKeeps(w: World, s: Sys, c: Choice)
    requires Hopeful(w, s, c) && s.driver.Turning? && (s.driver.stage.Trying? || s.driver.stage.Kept?)
    ensures var s' := Attempted(w, s, s.open.value.agent, s.open.value.msg.stepID, c);
            && Hopeful(w, s', c) && SameTurn(s, s') && s'.driver.Turning? && s'.driver.stage.Kept?
  {
    hide Hopeful, Up, DoStartTurn, DoLogIn, DoConnect, DoRoundEnds, DoReceive, DoSaveState;
    if s.driver.stage.Kept? {
      KeptStays(w, s, c);
    } else {
      StartsUp(w, s, c);
      RunsThrough(w, DoStartTurn(w, DoStartTurn(w, s, ALL_GOOD), ALL_GOOD), c);
    }
  }

  lemma {:induction false} CommitsTwice(w: World, s: Sys)
    requires ValidWorld(w) && Inv(w, s) && s.open.Some? && s.driver.Turning? && s.driver.stage.Kept?
    ensures TurnFinished(s, DoCommitNext(w, DoCommitNext(w, s, true), true))
  {
    hide Inv, DoCommitNext;
    CommitMovesOn(w, s);
    StepKeeps(w, s, CommitNext(true));
    var s1 := DoCommitNext(w, s, true);
    if s.open.value.logged.Some? {
      NothingToCommit(w, s1);
    } else {
      CommitMovesOn(w, s1);
    }
  }

  lemma {:induction false} NothingToCommit(w: World, s: Sys)
    requires s.driver.Turning? ==> s.driver.stage.Trying?
    ensures DoCommitNext(w, s, true) == s
  {
  }

  /** The same fifteen steps whatever state the crashes left: those that do not apply change nothing. */
  function RecoveryLabels(o: Open, mint: string, c: Choice): seq<Label> {
    [Restart, Send(mint), LogIn(true)] + ([Connect, LoseConnection, SaveState(Lands)] +
    ([StartTurn(ALL_GOOD), StartTurn(ALL_GOOD), LogIn(true)] +
     ([Connect, RoundEnds(o.agent, o.msg.stepID, c), Receive] +
      ([SaveState(Lands), CommitNext(true), CommitNext(true)] + []))))
  }

  lemma {:induction false} RecoveryTaken(w: World, s: Sys, o: Open, mint: string, c: Choice)
    ensures TakeAll(w, s, RecoveryLabels(o, mint, c)) ==
            DoCommitNext(w, DoCommitNext(w, Attempted(w, Regrouped(w, s, mint), o.agent, o.msg.stepID, c), true), true)
  {
    hide DoRestart, DoSend, DoStartTurn, DoLogIn, DoConnect, DoRoundEnds, DoReceive, DoSaveState, DoCommitNext,
         DoLoseConnection, TakeAll;
    var last := [SaveState(Lands), CommitNext(true), CommitNext(true)] + [];
    var ask := [Connect, RoundEnds(o.agent, o.msg.stepID, c), Receive] + last;
    var start := [StartTurn(ALL_GOOD), StartTurn(ALL_GOOD), LogIn(true)] + ask;
    var back := [Connect, LoseConnection, SaveState(Lands)] + start;
    TakeThree(w, s, Restart, Send(mint), LogIn(true), back);
    var s1 := DoLogIn(w, DoSend(DoRestart(w, s), mint), true);
    TakeThree(w, s1, Connect, LoseConnection, SaveState(Lands), start);
    var s2 := Regrouped(w, s, mint);
    TakeThree(w, s2, StartTurn(ALL_GOOD), StartTurn(ALL_GOOD), LogIn(true), ask);
    var s3 := DoLogIn(w, DoStartTurn(w, DoStartTurn(w, s2, ALL_GOOD), ALL_GOOD), true);
    TakeThree(w, s3, Connect, RoundEnds(o.agent, o.msg.stepID, c), Receive, last);
    var s4 := DoReceive(DoRoundEnds(w, DoConnect(s3), o.agent, o.msg.stepID, c));
    TakeThree(w, s4, SaveState(Lands), CommitNext(true), CommitNext(true), []);
    TakeNone(w, DoCommitNext(w, DoCommitNext(w, Attempted(w, s2, o.agent, o.msg.stepID, c), true), true));
  }

  lemma {:induction false} TakeNone(w: World, s: Sys)
    ensures TakeAll(w, s, []) == s
  {
  }

  lemma {:induction false} RecoveryIsCalm(o: Open, mint: string, c: Choice)
    ensures forall l :: l in RecoveryLabels(o, mint, c) ==> Recovering(l)
  {
  }

  lemma {:induction false} ReachableIsRecoverable(w: World, s: Sys)
    requires ValidWorld(w) && Reachable(w, s)
    ensures Inv(w, s) && ActorsRecoverable(s)
  {
    hide Inv, Reachable, Run, ActorsRecoverable;
    ReachableKeeps(w, s);
    var labels := ReachableIsRun(w, s);
    RunStaysRecoverable(w, labels);
  }

  lemma {:induction false} RunOn(w: World, labels: seq<Label>, more: seq<Label>)
    requires w.p.locals.Keys == w.p.agents.Keys
    ensures Run(w, labels + more) == TakeAll(w, Run(w, labels), more)
    decreases |more|
  {
    hide Take;
    if more == [] {
      assert labels + more == labels;
    } else {
      assert (labels + [more[0]])[..|labels|] == labels;
      RunOn(w, labels + [more[0]], more[1..]);
      assert labels + more == labels + [more[0]] + more[1..];
    }
  }

  lemma {:induction false} StaysReachable(w: World, s: Sys, more: seq<Label>)
    requires ValidWorld(w) && Reachable(w, s)
    ensures Reachable(w, TakeAll(w, s, more)) && Inv(w, TakeAll(w, s, more))
  {
    hide Inv, Run, TakeAll, IsTrace;
    var labels := ReachableIsRun(w, s);
    RunOn(w, labels, more);
    var trace := RunHasTrace(w, labels + more);
    ReachableKeeps(w, TakeAll(w, s, more));
  }

  lemma {:induction false} FinishedTurnIsLogged(w: World, s: Sys, s': Sys)
    requires Inv(w, s) && Inv(w, s') && s.open.Some? && TurnFinished(s, s')
    ensures CommittedPart(s'.log) == s'.log
    ensures s'.log == CommittedPart(s.log) + TurnEvents(w.p, s'.cfg.turns[|s.cfg.turns|])
  {
    hide Inv, CommittedPart;
    LogIsTurns(w, s);
    LogIsTurns(w, s');
    assert s'.cfg.turns[..|s.cfg.turns|] == s.cfg.turns;
  }

  /**
   * Whatever crashed, and wherever everyone was: the open turn's invocation only has to succeed for some choice, and not
   * to be remembered as failed, and steps without a further fault complete it -- the log then ends in that turn, with
   * the output already logged if there was one.
   */
  lemma {:induction false} OpenTurnCompletes(w: World, s: Sys, c: Choice) returns (more: seq<Label>)
    requires ValidWorld(w) && Reachable(w, s) && s.open.Some?
    requires !FailureRemembered(s) && SucceedsWith(w, s, c)
    ensures forall l :: l in more ==> Recovering(l)
    ensures var s' := TakeAll(w, s, more);
            && Reachable(w, s') && TurnFinished(s, s')
            && s'.log == CommittedPart(s'.log) == CommittedPart(s.log) + TurnEvents(w.p, s'.cfg.turns[|s.cfg.turns|])
  {
    hide Inv, Reachable, ActorsRecoverable, FailureRemembered, SucceedsWith, TakeAll, Regrouped, Attempted,
        DoCommitNext,
         RecoveryLabels, Recovering, CommittedPart;
    ReachableIsRecoverable(w, s);
    UnusedIDExists(StepIDs(Conv(s.log, w.p.owner)));
    var mint :| mint != "" && mint !in StepIDs(Conv(s.log, w.p.owner));
    var o := s.open.value;
    more := RecoveryLabels(o, mint, c);
    RecoveryIsCalm(o, mint, c);
    RecoveryTaken(w, s, o, mint, c);
    Regroups(w, s, mint, c);
    var s1 := Regrouped(w, s, mint);
    AttemptKeeps(w, s1, c);
    CommitsTwice(w, Attempted(w, s1, o.agent, o.msg.stepID, c));
    StaysReachable(w, s, more);
    FinishedTurnIsLogged(w, s, TakeAll(w, s, more));
  }

  // ---------- and when it cannot ----------

  predicate OfDriverAlone(l: Label) {
    l.Restart? || l.NextMessage? || l.Send? || l.Stop? || l.LoseConnection? || l.Receive? || l.DriverCrash?
  }

  lemma {:induction false} DriverAlone(w: World, s: Sys, l: Label)
    requires OfDriverAlone(l)
    ensures Take(w, s, l) == s.(driver := Take(w, s, l).driver)
  {
    hide StepIDs, TurnInputs, Conv, LastHop;
  }

  /** While the failure is remembered nobody can have a reply in hand. */
  lemma {:induction false} NoReplyYet(w: World, s: Sys)
    requires ValidWorld(w) && Inv(w, s) && FailureRemembered(s)
    ensures var a := s.open.value.agent;
            s.actors[a].state == Running && s.actors[a].mem.value.inFlight == map[]
    ensures s.driver.Turning? ==>
              s.driver.job.agent == s.open.value.agent && !s.driver.stage.Got? && !s.driver.stage.Kept?
  {
    hide SessionRun, CfgOK, LogOK, OpenOK, Route, MemoryOK, SnapshotOK, RemembersServed, Served;
    OpenFacts(w, s);
    var o := s.open.value;
    RememberedIsExecuted(w.p, o.agent, s.cfg.rts[o.agent], o.msg, BootMemory(w, o.agent), s.actors[o.agent], s.uris);
  }

  /** A process that remembers the failure answers with it for as long as it lives, whatever checkpointd does. */
  lemma {:induction false} FailureStays(w: World, s: Sys, l: Label)
    requires ValidWorld(w) && Inv(w, s) && FailureRemembered(s) && (Recovering(l) || l.DriverCrash?)
    ensures var s' := Take(w, s, l); SameTurn(s, s') && FailureRemembered(s')
  {
    hide Start, PlanFor, Inv, DoRestart, DoNextMessage, DoSend, DoStop, DoLogIn, DoReceive, PendingOutputs,
        CommitPlan, Conv,
         Finish, Current;
    NoReplyYet(w, s);
    if OfDriverAlone(l) {
      hide Take;
      DriverAlone(w, s, l);
    } else if l.LogIn? {
      LogInMovesOn(w, s, true);
    } else {
      OpenFacts(w, s);
      var a := s.open.value.agent;
      StartRecovers(s.actors[a], BootMemory(w, a), ALL_GOOD, s.uris + 1);
      if l.Connect? && s.driver.Turning? && s.driver.stage.Ready? {
        ReadyQueue(w, s);
      }
    }
  }

  /** Any reply to the open turn, saved or logged, comes of a choice with which it succeeds. */
  lemma {:induction false} RepliesSucceed(w: World, s: Sys)
    requires ValidWorld(w) && Inv(w, s) && s.open.Some?
    requires s.open.value.logged.Some? || (s.driver.Turning? && s.driver.stage.Kept?)
    ensures exists c :: SucceedsWith(w, s, c)
  {
    hide SessionRun, CfgOK, LogOK, ActorOK, Route, LegalNext, RemembersServed;
    OpenFacts(w, s);
    var o := s.open.value;
    if o.logged.Some? {
      var rt := Saved(s.actors[o.agent], BootMemory(w, o.agent)).rt;
      assert SucceedsWith(w, s, rt.rounds[|rt.rounds| - 1].choice);
    } else {
      var rt := s.actors[o.agent].snap.value.mem.rt;
      assert SucceedsWith(w, s, rt.rounds[|rt.rounds| - 1].choice);
    }
  }

  /** A turn that fails for every choice stays open through any steps at all. */
  lemma {:induction false} HopelessStays(w: World, s: Sys, l: Label)
    requires ValidWorld(w) && Inv(w, s) && s.open.Some? && forall c :: !SucceedsWith(w, s, c)
    ensures var s' := Take(w, s, l); s'.open == s.open && s'.cfg == s.cfg
  {
    hide Inv, DoLogIn, Start, PlanFor, PendingOutputs, CommitPlan, Conv, Finish, Arrive, Current, LastHop, StepIDs,
         SucceedsWith;
    if s.open.value.logged.Some? || (s.driver.Turning? && s.driver.stage.Kept?) {
      RepliesSucceed(w, s);
    }
    if l.LogIn? {
      LogInMovesOn(w, s, l.lands);
    }
  }

  lemma {:induction false} FailureStaysOn(w: World, s: Sys, more: seq<Label>)
    requires ValidWorld(w) && Inv(w, s) && FailureRemembered(s)
    requires forall l :: l in more ==> Recovering(l) || l.DriverCrash?
    ensures TakeAll(w, s, more).open == s.open
    decreases |more|
  {
    hide Inv, Take, FailureRemembered, Recovering;
    if more != [] {
      assert more[0] in more;
      FailureStays(w, s, more[0]);
      StepKeeps(w, s, more[0]);
      FailureStaysOn(w, Take(w, s, more[0]), more[1..]);
    }
  }

  lemma {:induction false} HopelessStaysOn(w: World, s: Sys, more: seq<Label>)
    requires ValidWorld(w) && Inv(w, s) && s.open.Some? && forall c :: !SucceedsWith(w, s, c)
    ensures TakeAll(w, s, more).open == s.open
    decreases |more|
  {
    hide Inv, Take, SucceedsWith;
    if more != [] {
      var s' := Take(w, s, more[0]);
      HopelessStays(w, s, more[0]);
      StepKeeps(w, s, more[0]);
      forall c ensures !SucceedsWith(w, s', c) {
        SameProspects(w, s, s', c);
      }
      HopelessStaysOn(w, s', more[1..]);
    }
  }

  lemma {:induction false} SameProspects(w: World, s: Sys, s': Sys, c: Choice)
    requires s'.open == s.open && s'.cfg == s.cfg
    ensures SucceedsWith(w, s', c) == SucceedsWith(w, s, c)
  {
  }

  /** Some steps without a further fault complete the open turn. */
  ghost predicate Completable(w: World, s: Sys)
    requires s.open.Some?
  {
    exists more: seq<Label> :: (forall l :: l in more ==> Recovering(l)) && TurnFinished(s, TakeAll(w, s, more))
  }

  /**
   * Exactly when an open turn can be completed without a further fault, from every reachable state: its invocation must
   * be able to succeed, and no live process may remember that it failed -- such a process answers every retry with the
   * failure, so that only losing it lets the turn be run again.
   */
  lemma {:induction false} OpenTurnCompletesIff(w: World, s: Sys)
    requires ValidWorld(w) && Reachable(w, s) && s.open.Some?
    ensures Completable(w, s) <==> !FailureRemembered(s) && exists c :: SucceedsWith(w, s, c)
  {
    hide Inv, Reachable, FailureRemembered, SucceedsWith, TakeAll, Recovering;
    ReachableKeeps(w, s);
    if !FailureRemembered(s) && exists c :: SucceedsWith(w, s, c) {
      var c :| SucceedsWith(w, s, c);
      var more := OpenTurnCompletes(w, s, c);
      assert TurnFinished(s, TakeAll(w, s, more));
    } else if Completable(w, s) {
      var more :| (forall l :: l in more ==> Recovering(l)) && TurnFinished(s, TakeAll(w, s, more));
      if FailureRemembered(s) {
        FailureStaysOn(w, s, more);
      } else {
        HopelessStaysOn(w, s, more);
      }
    }
  }
}
