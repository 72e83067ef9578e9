/** What a session's client gets: the same as without crashes, and the same as from plain calls. */
module CrashSafety {
  import opened Hop
  import opened EventLog
  import opened Controller
  import opened Runtime
  import opened Substrate
  import opened Relay
  import opened Session
  import opened System
  import opened SystemInvariant
  import opened Durability
  import opened FaultFree

  /** The log up to its last COMPLETED event. */
  function CommittedPart(log: seq<StepEvent>): seq<StepEvent> {
    if log == [] || log[|log| - 1].state == StateCompleted then log else CommittedPart(log[..|log| - 1])
  }

  /** What resuming actor `a` would bring back. */
  function SavedState(w: World, s: Sys, a: string): Memory
    requires a in w.p.locals && a in s.actors
  {
    Saved(s.actors[a], BootMemory(w, a))
  }

  lemma {:induction false} UncommittedEvent(log: seq<StepEvent>, ev: StepEvent)
    requires ev.state != StateCompleted
    ensures CommittedPart(log + [ev]) == CommittedPart(log)
  {
    assert (log + [ev])[..|log|] == log;
  }

  lemma {:induction false} CommittedIsTurns(w: World, turns: seq<Turn>, open: Option<Open>)
    ensures CommittedPart(TurnLog(w.p, turns) + OpenLog(w, open)) == TurnLog(w.p, turns)
  {
    var log, evs := TurnLog(w.p, turns), OpenLog(w, open);
    assert turns != [] ==> log[|log| - 1].state == StateCompleted;
    assert log + [] == log;
    if open.Some? {
      UncommittedEvent(log, evs[0]);
      if |evs| == 2 {
        UncommittedEvent(log + [evs[0]], evs[1]);
        assert log + evs == log + [evs[0]] + [evs[1]];
      }
    }
  }

  lemma {:induction false} LogIsTurns(w: World, s: Sys)
    requires Inv(w, s)
    ensures s.log == TurnLog(w.p, s.cfg.turns) + OpenLog(w, s.open)
    ensures CommittedPart(s.log) == TurnLog(w.p, s.cfg.turns)
    ensures (s.open.None? <==> CommittedPart(s.log) == s.log)
  {
    hide ActorsOK, CfgOK, OpenOK, DriverOK, ConvsRead;
    CommittedIsTurns(w, s.cfg.turns, s.open);
  }

  lemma {:induction false} SavedIsBase(w: World, s: Sys, a: string)
    requires Inv(w, s) && a in w.p.agents && s.open.None?
    ensures SavedState(w, s, a) == Memory(s.cfg.rts[a], map[])
  {
    hide LogOK, CfgOK, DriverOK, MemoryOK;
  }

  /**
   * Crash transparency: whatever crashes, failed calls and retries a run goes through, some run without a single
   * fault commits the very same log, and whenever no turn is open leaves every actor's saved state the same too.
   */
  lemma {:induction false} CrashTransparency(w: World, s: Sys) returns (calm: Sys)
    requires ValidWorld(w) && Reachable(w, s)
    ensures ReachableWithoutFaults(w, calm)
    ensures calm.log == CommittedPart(s.log)
    ensures calm.log == s.log ==>
              forall a :: a in w.p.agents ==>
                a in calm.actors && a in s.actors && SavedState(w, calm, a) == SavedState(w, s, a)
  {
    hide Reachable, ReachableWithoutFaults, SessionRun, LogOK, ActorOK, TurnLog, OpenLog, CommittedPart, DriverOK,
         OpenOK,
         SavedState, WellFormed, Run;
    ReachableKeeps(w, s);
    var labels := SessionRealized(w, s.segs);
    CalmRun(w, labels);
    calm := Run(w, labels);
    LogIsTurns(w, s);
    LogIsTurns(w, calm);
    if s.open.None? {
      forall a | a in w.p.agents
        ensures a in calm.actors && a in s.actors && SavedState(w, calm, a) == SavedState(w, s, a)
      {
        SavedIsBase(w, s, a);
        SavedIsBase(w, calm, a);
      }
    }
  }

  /** The log's newest hop, when no turn is open after it. */
  function NewestHop(log: seq<StepEvent>): Option<Envelope> {
    if log != [] && log[|log| - 1].state == StateCompleted then LastHop(log) else None
  }

  lemma {:induction false} NewestIsHand(w: World, s: Sys)
    requires Inv(w, s) && NewestHop(s.log).Some?
    ensures s.open.None? && NewestHop(s.log) == Some(s.cfg.env) && s.segs != []
  {
    hide ActorsOK, OpenOK, DriverOK, ConvsRead, SessionRun;
  }

  /** Every agent's saved process state. */
  function SavedLocals(w: World, s: Sys): map<string, Local>
    requires w.p.locals.Keys == w.p.agents.Keys && s.actors.Keys == w.p.agents.Keys
  {
    map a | a in w.p.agents :: SavedState(w, s, a).rt.local
  }

  /** What the log shows the client to have sent: the data of every input from outside, in order. */
  function ClientSaid(log: seq<StepEvent>): seq<Data> {
    if log == [] then []
    else
      var rest := ClientSaid(log[..|log| - 1]);
      var ev := log[|log| - 1];
      var env := Parse(NewestText(ev.steps));
      if IsInputMarker(ev) && env.Some? && env.value.from == "" then rest + [env.value.data] else rest
  }

  lemma {:induction false} ClientSaidAppend(log: seq<StepEvent>, ev: StepEvent)
    ensures ClientSaid(log + [ev]) == ClientSaid(log) +
              var env := Parse(NewestText(ev.steps));
              if IsInputMarker(ev) && env.Some? && env.value.from == "" then [env.value.data] else []
  {
    assert (log + [ev])[..|log|] == log;
  }

  function FromOutside(turns: seq<Turn>): seq<Data> {
    if turns == [] then []
    else
      var msg := turns[|turns| - 1].msg;
      FromOutside(turns[..|turns| - 1]) + if msg.from == "" then [msg.data] else []
  }

  /** The client's side of a conversation. */
  function Messages(segs: seq<Segment>): (data: seq<Data>)
    ensures |data| == |segs|
    ensures forall i :: 0 <= i < |segs| ==> data[i] == segs[i].ext.data
  {
    seq(|segs|, i requires 0 <= i < |segs| => segs[i].ext.data)
  }

  lemma {:induction false} LogShowsClient(p: Params, turns: seq<Turn>)
    requires TurnsOK(p, turns) && "" !in p.agents
    ensures ClientSaid(TurnLog(p, turns)) == FromOutside(turns)
  {
    if turns != [] {
      var init, t := turns[..|turns| - 1], turns[|turns| - 1];
      LogShowsClient(p, init);
      var log, evs := TurnLog(p, init), TurnEvents(p, t);
      ClientSaidAppend(log, evs[0]);
      ClientSaidAppend(log + [evs[0]], evs[1]);
      ClientSaidAppend(log + [evs[0]] + [evs[1]], evs[2]);
      assert log + evs == log + [evs[0]] + [evs[1]] + [evs[2]];
    }
  }

  lemma {:induction false} HopFromOutside(p: Params, cfg: Config, h: HopItem)
    requires RelayHop(p, cfg, h).Some?
    ensures var next := RelayHop(p, cfg, h).value;
            && FromOutside(next.turns) == FromOutside(cfg.turns) + (if cfg.env.from == "" then [cfg.env.data] else [])
            && next.env.from in p.agents
  {
    hide DeliverOnce;
    var a := cfg.env.to;
    var next := RelayHop(p, cfg, h).value;
    var msg := next.turns[|cfg.turns|].msg;
    assert next.turns[..|cfg.turns|] == cfg.turns;
    assert Executed(p, a, cfg.rts[a], msg, Route(p.agents[a], a, cfg.rts[a], msg, h.choice)) by {
      assert Route(p.agents[a], a, cfg.rts[a], msg, h.choice).rounds == cfg.rts[a].rounds + [Round(msg, h.choice)];
    }
    ExecutedFacts(p, a, cfg.rts[a], msg, Route(p.agents[a], a, cfg.rts[a], msg, h.choice));
  }

  /** One segment brings exactly one message from outside: every later hop comes from an agent. */
  lemma {:induction false} HopsFromOutside(p: Params, cfg: Config, hops: seq<HopItem>)
    requires "" !in p.agents && RelayRun(p, cfg, hops).Some? && cfg.env.from == ""
    ensures var run := RelayRun(p, cfg, hops).value;
            && FromOutside(run.turns) == FromOutside(cfg.turns) + (if hops == [] then [] else [cfg.env.data])
            && (hops != [] ==> run.env.from != "")
  {
    hide RelayHop;
    if hops != [] {
      HopsFromOutside(p, cfg, hops[..|hops| - 1]);
      HopFromOutside(p, RelayRun(p, cfg, hops[..|hops| - 1]).value, hops[|hops| - 1]);
      assert hops[..|hops| - 1] == [] ==> RelayRun(p, cfg, hops[..|hops| - 1]).value == cfg;
    }
  }

  /** A crash-free session has delivered exactly its client's messages from outside, in order. */
  lemma {:induction false} SessionFromOutside(p: Params, segs: seq<Segment>)
    requires p.locals.Keys == p.agents.Keys && "" !in p.agents && SessionRun(p, segs).Some?
    requires forall i :: 0 <= i < |segs| ==> segs[i].hops != []
    ensures FromOutside(SessionRun(p, segs).value.turns) == Messages(segs)
  {
    hide RelayRun;
    if segs != [] {
      var init, seg := segs[..|segs| - 1], segs[|segs| - 1];
      SessionFromOutside(p, init);
      HopsFromOutside(p, SessionRun(p, init).value.(env := seg.ext), seg.hops);
      assert Messages(segs) == Messages(init) + [seg.ext.data];
    }
  }

  /** The log of a state with no open turn shows exactly the messages of its crash-free session. */
  lemma {:induction false} LogShowsMessages(w: World, s: Sys, segs: seq<Segment>)
    requires ValidWorld(w) && Inv(w, s) && s.open.None?
    requires SessionRun(w.p, segs) == Some(s.cfg) && forall i :: 0 <= i < |segs| ==> segs[i].hops != []
    ensures ClientSaid(s.log) == Messages(segs)
  {
    hide SessionRun, ActorsOK, OpenOK, DriverOK, ConvsRead, TurnLog;
    SessionTurnsOK(w.p, segs);
    SessionFromOutside(w.p, segs);
    LogIsTurns(w, s);
    assert TurnLog(w.p, s.cfg.turns) + [] == TurnLog(w.p, s.cfg.turns);
    LogShowsClient(w.p, s.cfg.turns);
  }

  /** What the log's output events say, one each, whoever said it. */
  function Uttering(log: seq<StepEvent>): seq<Utterance> {
    if log == [] then []
    else
      var rest := Uttering(log[..|log| - 1]);
      var ev := log[|log| - 1];
      var env := Parse(NewestText(ev.steps));
      if IsOutputOfOpenTurn(ev) && env.Some? then rest + [Said(env.value)] else rest
  }

  lemma {:induction false} UtteringAppend(log: seq<StepEvent>, ev: StepEvent)
    ensures Uttering(log + [ev]) == Uttering(log) +
              var env := Parse(NewestText(ev.steps));
              if IsOutputOfOpenTurn(ev) && env.Some? then [Said(env.value)] else []
  {
    assert (log + [ev])[..|log|] == log;
  }

  lemma {:induction false} TurnUtters(p: Params, log: seq<StepEvent>, t: Turn)
    requires t.agent != ""
    ensures Uttering(log + TurnEvents(p, t)) == Uttering(log) + [Said(t.out)]
  {
    hide Uttering;
    var evs := TurnEvents(p, t);
    UtteringAppend(log, evs[0]);
    UtteringAppend(log + [evs[0]], evs[1]);
    UtteringAppend(log + [evs[0]] + [evs[1]], evs[2]);
    assert log + evs == log + [evs[0]] + [evs[1]] + [evs[2]];
  }

  lemma {:induction false} LogShowsOutputs(p: Params, turns: seq<Turn>)
    requires forall i :: 0 <= i < |turns| ==> turns[i].agent != ""
    ensures Uttering(TurnLog(p, turns)) == Outs(turns)
  {
    if turns != [] {
      var init, t := turns[..|turns| - 1], turns[|turns| - 1];
      LogShowsOutputs(p, init);
      TurnUtters(p, TurnLog(p, init), t);
      assert Outs(turns) == Outs(init) + [Said(t.out)];
    }
  }

  /** `segs` is the conversation that `log` shows: the same client messages in order, the bootstrap first. */
  ghost predicate Conversation(w: World, log: seq<StepEvent>, segs: seq<Segment>) {
    && segs != [] && segs[0].ext.data == w.bootstrap.data
    && (forall i :: 0 <= i < |segs| ==> FromClient(w.p, segs[i].ext))
    && ClientSaid(log) == Messages(segs)
  }

  lemma {:induction false} SegmentsFromClient(p: Params, segs: seq<Segment>)
    requires p.locals.Keys == p.agents.Keys && SessionRun(p, segs).Some?
    ensures forall i :: 0 <= i < |segs| ==> FromClient(p, segs[i].ext)
  {
    if segs != [] {
      SegmentsFromClient(p, segs[..|segs| - 1]);
    }
  }

  /**
   * Across any crashes: once the log's newest hop is a final reply, that reply and every actor's saved state are
   * exactly what plain recursive calls of the owner compute, one per client message; no call is left waiting.
   */
  lemma {:induction false} FinalReplyIsCalls(w: World, s: Sys) returns (segs: seq<Segment>)
    requires ValidWorld(w) && Reachable(w, s)
    requires var hop := NewestHop(s.log); hop.Some? && IsTerminalReply(hop.value)
    ensures Conversation(w, s.log, segs)
    ensures var reply := NewestHop(s.log).value;
            && s.actors.Keys == w.p.agents.Keys
            && Serve(w.p, segs) == Some((SavedLocals(w, s), reply.data))
            && reply.reply && reply.from == w.p.owner
            && forall a :: a in w.p.agents ==> SavedState(w, s, a).rt.waiting == map[]
  {
    hide Reachable, SessionRun, LogOK, ActorOK, TurnLog, OpenLog, DriverOK, OpenOK, SavedState, Serve, WellFormed;
    ReachableKeeps(w, s);
    segs := s.segs;
    NewestIsHand(w, s);
    LogShowsMessages(w, s, segs);
    SegmentsFromClient(w.p, segs);
    forall seg | seg in segs ensures FromClient(w.p, seg.ext) {
    }
    SessionIsCalls(w.p, segs);
    forall a | a in w.p.agents ensures SavedState(w, s, a) == Memory(s.cfg.rts[a], map[]) {
      SavedIsBase(w, s, a);
    }
    assert SavedLocals(w, s) == Locals(s.cfg.rts);
  }

  /**
   * In every reachable state, in the middle of any call: the outputs that the log has committed are, one for one and in
   * order, what plain calls of the owner say on the client messages it shows -- each flush with the data flushed, each
   * call with its message, each answer to its own caller.
   */
  lemma {:induction false} LogSaysCalls(w: World, s: Sys) returns (segs: seq<Segment>)
    requires ValidWorld(w) && Reachable(w, s)
    ensures forall i :: 0 <= i < |segs| ==> FromClient(w.p, segs[i].ext)
    ensures ClientSaid(CommittedPart(s.log)) == Messages(segs)
    ensures Uttering(CommittedPart(s.log)) == ServeSays(w.p, segs)
  {
    hide Reachable, SessionRun, ActorsOK, OpenOK, DriverOK, ConvsRead, TurnLog, ServeSays, Serve, CommittedPart,
        OpenLog,
         EndsAs, NamesTarget;
    ReachableKeeps(w, s);
    segs := s.segs;
    LogIsTurns(w, s);
    SegmentsFromClient(w.p, segs);
    forall seg | seg in segs ensures FromClient(w.p, seg.ext) {
    }
    SessionIsCalls(w.p, segs);
    SessionTurnsOK(w.p, segs);
    SessionFromOutside(w.p, segs);
    LogShowsClient(w.p, s.cfg.turns);
    LogShowsOutputs(w.p, s.cfg.turns);
  }

  /** And no answer is lost: whatever plain calls compute, for any choices, the protocol can reach and log. */
  lemma {:induction false} CallsAreAnswered(w: World, segs: seq<Segment>) returns (s: Sys)
    requires ValidWorld(w) && segs != [] && IsBootstrap(w, segs[0].ext)
    requires forall i :: 0 <= i < |segs| ==> FromClient(w.p, segs[i].ext) && segs[i].hops != []
    requires Serve(w.p, segs).Some?
    ensures ReachableWithoutFaults(w, s)
    ensures Conversation(w, s.log, segs)
    ensures s.actors.Keys == w.p.agents.Keys
    ensures NewestHop(s.log).Some? && IsTerminalReply(NewestHop(s.log).value)
    ensures Serve(w.p, segs) == Some((SavedLocals(w, s), NewestHop(s.log).value.data))
  {
    hide Run, ReachableWithoutFaults, SessionRun, ActorOK, DriverOK, OpenOK, SavedState, Serve, ConvsRead, WellFormed;
    forall seg | seg in segs ensures FromClient(w.p, seg.ext) {
    }
    SessionIsCalls(w.p, segs);
    var labels := SessionRealized(w, segs);
    CalmRun(w, labels);
    s := Run(w, labels);
    LogShowsMessages(w, s, segs);
    forall a | a in w.p.agents ensures SavedState(w, s, a) == Memory(s.cfg.rts[a], map[]) {
      SavedIsBase(w, s, a);
    }
    assert SavedLocals(w, s) == Locals(s.cfg.rts);
  }

  // ---------- the driver ----------

  /** What checkpointd may relay: a message its client sent, or the log's newest hop. */
  ghost predicate Relayable(w: World, log: seq<StepEvent>, res: Envelope) {
    FromClient(w.p, res) || NewestHop(log) == Some(res)
  }

  /** No uncommitted output ever reaches the relay. */
  lemma {:induction false} OnlyCommittedHopsAreRelayed(w: World, s: Sys)
    requires ValidWorld(w) && Reachable(w, s)
    ensures s.driver.Relaying? ==> Relayable(w, s.log, s.driver.res)
  {
    hide Reachable, SessionRun, ActorsOK, OpenOK, ConvsRead;
    ReachableKeeps(w, s);
  }

  /** commit's mismatch and too-short errors never fire, however its agents choose and whatever crashes. */
  lemma {:induction false} CommitNeverContradictsLog(w: World, s: Sys)
    requires ValidWorld(w) && Reachable(w, s)
    ensures s.driver.Turning? && s.driver.stage.Kept? ==>
              CommitAccepts(s) && StateOf(Conv(s.log, s.driver.job.agent)) == StatePending
  {
    hide Inv, Reachable, Conv, StateOf;
    ReachableKeeps(w, s);
    if s.driver.Turning? && s.driver.stage.Kept? {
      KeptAgreesWithLog(w, s);
      KeptIsPending(w, s);
    }
  }

  lemma {:induction false} KeptIsPending(w: World, s: Sys)
    requires Inv(w, s) && s.driver.Turning? && s.driver.stage.Kept?
    ensures StateOf(Conv(s.log, s.driver.job.agent)) == StatePending
  {
    hide SessionRun, ActorOK, OpenOK, ConvsRead, CfgOK, EndsAs;
    ConvAt(w, s.log, s.cfg.rts, s.open, s.driver.job.agent);
  }

  /**
   * execA2A hands back only the reply to its own message: the commit step that lets it return has just completed
   * the turn of exactly that message, and one that completed an older turn sends it round again.
   */
  lemma {:induction false} ReplyIsToOwnMessage(w: World, s: Sys, msg: Envelope)
    requires ValidWorld(w) && Reachable(w, s)
    requires s.driver.Turning? && s.driver.job.want == Some(msg)
    ensures var s' := Take(w, s, CommitNext(true));
            && (s'.driver.Relaying? ==>
                  && s'.driver.res.stepID == msg.stepID && s'.driver.res.from == msg.to
                  && exists inputs :: CommittedPart(s'.log) == s'.log == CommittedPart(s.log)
                                      + TurnEvents(w.p, Turn(msg.to, inputs, msg, s'.driver.res)))
            && (s'.log != s.log && NewestHop(s'.log).Some? && !s'.driver.Relaying? ==>
                  s'.driver == Turning(s.driver.job, Trying) && NewestHop(s'.log).value.stepID != msg.stepID)
  {
    hide Inv, Reachable, CommittedPart, DoCommitNext, NewestHop;
    ReachableKeeps(w, s);
    StepKeeps(w, s, CommitNext(true));
    var s' := Take(w, s, CommitNext(true));
    CommitOutcome(w, s, msg);
    LogIsTurns(w, s);
    LogIsTurns(w, s');
    if s'.log != s.log && NewestHop(s'.log).Some? {
      NewestIsHand(w, s');
    }
    if s'.driver.Relaying? {
      assert s'.cfg.turns[..|s.cfg.turns|] == s.cfg.turns;
      var t := s'.cfg.turns[|s.cfg.turns|];
      assert TurnLog(w.p, s'.cfg.turns) == TurnLog(w.p, s.cfg.turns) + TurnEvents(w.p, t);
    }
  }

  /** What the invariant says of a turn whose reply is kept, ready to be committed. */
  lemma {:induction false} KeptRuntime(w: World, s: Sys)
    requires Inv(w, s) && s.open.Some? && s.driver.Turning? && s.driver.stage.Kept?
    ensures var a, out := s.driver.job.agent, s.driver.stage.out;
            && a == s.open.value.agent == s.open.value.msg.to && a in s.actors
            && s.actors[a].Actor? && s.actors[a].snap.Some? && s.actors[a].state == Suspended
            && s.actors[a].snap.value.mem.rt.rounds != []
            && out.stepID == s.open.value.msg.stepID && out.from == a
  {
    hide SessionRun, ActorOK, CfgOK, LogOK, Route, LegalNext, TurnInputs;
    var a := s.driver.job.agent;
    ExecutedFacts(w.p, a, s.cfg.rts[a], s.open.value.msg, s.actors[a].snap.value.mem.rt);
  }

  lemma {:induction false} CommitOutcome(w: World, s: Sys, msg: Envelope)
    requires ValidWorld(w) && Inv(w, s) && s.driver.Turning? && s.driver.job.want == Some(msg)
    ensures var s' := DoCommitNext(w, s, true);
            && (s'.driver.Relaying? ==>
                  && s.open.Some? && s'.open.None? && s'.driver.res.stepID == msg.stepID && s'.driver.res.from == msg.to
                  && s'.cfg.turns == s.cfg.turns + [Turn(msg.to, s.open.value.inputs, msg, s'.driver.res)])
            && (s'.log != s.log && s'.open.None? && !s'.driver.Relaying? ==>
                  s'.driver == Turning(s.driver.job, Trying) && s'.cfg.env.stepID != msg.stepID)
  {
    hide Inv, Conv, PendingOutputs, ExtendSegs;
    if s.driver.stage.Kept? {
      KeptAgreesWithLog(w, s);
      KeptRuntime(w, s);
      if s.open.value.msg != msg {
        OvertakenDiffers(w, s, msg);
      } else {
        assert msg.to == s.driver.job.agent;
      }
    }
  }

  lemma {:induction false} OvertakenDiffers(w: World, s: Sys, msg: Envelope)
    requires Inv(w, s) && s.driver.Turning? && s.driver.stage.Kept? && s.driver.job.want == Some(msg)
    requires s.open.Some? && s.open.value.msg != msg
    ensures msg.stepID != s.open.value.msg.stepID
  {
    hide SessionRun, ActorOK, LegalNext, Route, Conv, TurnLog, EndsAs, ConvsRead, TurnInputs, StateOf, HarnessOf,
         PendingInputs;
    ConvAt(w, s.log, s.cfg.rts, s.open, s.driver.job.agent);
  }
}
