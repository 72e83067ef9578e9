/** What holds in every state a session can reach, whatever crashes on the way. */
module Durability {
  import opened Hop
  import opened EventLog
  import opened EventStore
  import opened Controller
  import opened Runtime
  import opened Substrate
  import opened Relay
  import opened Session
  import opened System
  import opened SystemInvariant

  // ---------- finished turns and the log they leave ----------

  /** A turn is logged with inputs that end in its message, and answered under that message's id by its own agent. */
  ghost predicate TurnOK(p: Params, t: Turn) {
    && t.agent in p.agents && t.msg.to == t.agent
    && t.inputs != [] && t.inputs[|t.inputs| - 1] == UserStep(t.msg)
    && NewestText(t.inputs) == Json(t.msg)
    && t.out.stepID == t.msg.stepID && t.out.from == t.agent
  }

  ghost predicate TurnsOK(p: Params, turns: seq<Turn>) {
    forall i :: 0 <= i < |turns| ==> TurnOK(p, turns[i])
  }

  lemma {:induction false} HopTurnsOK(p: Params, cfg: Config, h: HopItem)
    requires TurnsOK(p, cfg.turns) && RelayHop(p, cfg, h).Some?
    ensures TurnsOK(p, RelayHop(p, cfg, h).value.turns)
  {
    hide DeliverOnce;
    var a := cfg.env.to;
    var t := RelayHop(p, cfg, h).value.turns[|cfg.turns|];
    CurrentOfTurn(TurnLog(p, cfg.turns), a, t.msg);
    var rt := Route(p.agents[a], a, cfg.rts[a], t.msg, h.choice);
    assert rt.rounds[|rt.rounds| - 1] == Round(t.msg, h.choice);
    assert Executed(p, a, cfg.rts[a], t.msg, rt);
    ExecutedFacts(p, a, cfg.rts[a], t.msg, rt);
  }

  lemma {:induction false} RunTurnsOK(p: Params, cfg: Config, hops: seq<HopItem>)
    requires TurnsOK(p, cfg.turns) && RelayRun(p, cfg, hops).Some?
    ensures TurnsOK(p, RelayRun(p, cfg, hops).value.turns)
  {
    if hops != [] {
      RunTurnsOK(p, cfg, hops[..|hops| - 1]);
      HopTurnsOK(p, RelayRun(p, cfg, hops[..|hops| - 1]).value, hops[|hops| - 1]);
    }
  }

  lemma {:induction false} SessionTurnsOK(p: Params, segs: seq<Segment>)
    requires p.locals.Keys == p.agents.Keys && SessionRun(p, segs).Some?
    ensures TurnsOK(p, SessionRun(p, segs).value.turns)
  {
    if segs != [] {
      var init := segs[..|segs| - 1];
      SessionTurnsOK(p, init);
      RunTurnsOK(p, SessionRun(p, init).value.(env := segs[|segs| - 1].ext), segs[|segs| - 1].hops);
    }
  }

  function AsLogged(t: Turn): LoggedTurn {
    LoggedTurn(t.agent, t.inputs, [ReplyStep(t.out)])
  }

  function AllAsLogged(turns: seq<Turn>): (r: seq<LoggedTurn>)
    ensures |r| == |turns|
    ensures forall i :: 0 <= i < |turns| ==> r[i] == AsLogged(turns[i])
  {
    seq(|turns|, i requires 0 <= i < |turns| => AsLogged(turns[i]))
  }

  lemma {:induction false} ConvOfTurn(p: Params, log: seq<StepEvent>, t: Turn, a: string)
    ensures Conv(log + TurnEvents(p, t), a) == Conv(log, a) + if t.agent == a then TurnEvents(p, t) else []
  {
    var evs := TurnEvents(p, t);
    ConvAppend(log, evs[0], a);
    ConvAppend(log + [evs[0]], evs[1], a);
    ConvAppend(log + [evs[0]] + [evs[1]], evs[2], a);
    assert log + evs == log + [evs[0]] + [evs[1]] + [evs[2]];
  }

  /** Each conversation of a log of finished turns is a closed log of that agent's own turns. */
  lemma {:induction false} ConvIsClosedLog(p: Params, turns: seq<Turn>, a: string)
    ensures Conv(TurnLog(p, turns), a) == ClosedLog(p.session, a, AllAsLogged(TurnsOf(turns, a)))
  {
    hide ClosedLog, OpenEvents, TurnEvents, Conv;
    if turns == [] {
      NothingClosed(p, a);
    } else {
      var init, t := turns[..|turns| - 1], turns[|turns| - 1];
      ConvIsClosedLog(p, init, a);
      ConvOfTurn(p, TurnLog(p, init), t, a);
      if t.agent == a {
        var mine := TurnsOf(init, a);
        assert AllAsLogged(mine + [t]) == AllAsLogged(mine) + [AsLogged(t)];
        OneMoreClosed(p, AllAsLogged(mine), t);
      }
    }
  }

  lemma {:induction false} NothingClosed(p: Params, a: string)
    ensures Conv(TurnLog(p, []), a) == ClosedLog(p.session, a, AllAsLogged(TurnsOf([], a)))
  {
  }

  lemma {:induction false} OneMoreClosed(p: Params, logged: seq<LoggedTurn>, t: Turn)
    ensures ClosedLog(p.session, t.agent, logged + [AsLogged(t)]) ==
        ClosedLog(p.session, t.agent, logged) + TurnEvents(p, t)
  {
    assert (logged + [AsLogged(t)])[..|logged|] == logged;
    assert OpenEvents(p.session, t.agent, AsLogged(t)) + [OutputEvent(p.session, t.agent, [], StateCompleted)]
           == TurnEvents(p, t);
  }

  function AsOpenLogged(o: Open): LoggedTurn {
    LoggedTurn(o.agent, o.inputs, LoggedSteps(o))
  }

  lemma {:induction false} TurnsOfAgent(turns: seq<Turn>, a: string)
    ensures forall i :: 0 <= i < |TurnsOf(turns, a)| ==>
              TurnsOf(turns, a)[i].agent == a && TurnsOf(turns, a)[i] in turns
  {
    if turns != [] {
      TurnsOfAgent(turns[..|turns| - 1], a);
    }
  }

  lemma {:induction false} ConvOfOpen(w: World, log: seq<StepEvent>, open: Option<Open>, a: string)
    ensures Conv(log + OpenLog(w, open), a) ==
            Conv(log, a) + if OpenAt(open, a).Some? then OpenEvents(w.p.session, a, AsOpenLogged(open.value)) else []
  {
    var evs := OpenLog(w, open);
    assert log + [] == log;
    if open.Some? {
      ConvAppend(log, evs[0], a);
      if |evs| == 2 {
        ConvAppend(log + [evs[0]], evs[1], a);
        assert log + evs == log + [evs[0]] + [evs[1]];
      }
      if open.value.agent == a {
        assert OpenEvents(w.p.session, a, AsOpenLogged(open.value)) == evs;
      }
    }
  }

  /**
   * Log grammar: in every reachable state each conversation is (INPUT OUTPUT* COMPLETED)* and at most one open
   * INPUT OUTPUT*, every INPUT naming the conversation's own agent; and reading it back gives that open turn.
   */
  lemma {:induction false} LogGrammar(w: World, s: Sys, a: string)
    returns (turns: seq<LoggedTurn>, open: Option<LoggedTurn>)
    requires ValidWorld(w) && Reachable(w, s) && a in w.p.agents
    ensures var c := Conv(s.log, a);
            && c == ClosedLog(w.p.session, a, turns) + (if open.Some? then OpenEvents(w.p.session, a, open.value)
                                                        else [])
            && NamesHarness(turns + (if open.Some? then [open.value] else []), a)
            && (open.Some? <==> StateOf(c) == StatePending)
            && (open.Some? ==> PendingInputs(c) == open.value.inputs && PendingOutputs(c) == open.value.outputs)
  {
    hide ActorsOK, CfgOK, OpenOK, DriverOK, Reachable, ConvsRead, TurnLog, OpenLog, ClosedLog, OpenEvents, Conv,
         EndsAs;
    ReachableKeeps(w, s);
    var mine := TurnsOf(s.cfg.turns, a);
    turns := AllAsLogged(mine);
    open := if OpenAt(s.open, a).Some? then Some(AsOpenLogged(s.open.value)) else None;
    ConvOfOpen(w, TurnLog(w.p, s.cfg.turns), s.open, a);
    ConvIsClosedLog(w.p, s.cfg.turns, a);
    TurnsOfAgent(s.cfg.turns, a);
    if open.Some? {
      OpenLogReads(w.p.session, a, turns, open.value, a);
    } else {
      assert Conv(s.log, a) == ClosedLog(w.p.session, a, turns);
      ClosedLogReads(w.p.session, a, turns, a);
    }
  }

  // ---------- the snapshots and the log ----------

  /** The step ids a conversation's input markers were logged under, oldest first. */
  function MarkedIDs(c: seq<StepEvent>): seq<string> {
    if c == [] then []
    else
      var rest := MarkedIDs(c[..|c| - 1]);
      var ev := c[|c| - 1];
      if IsInputMarker(ev) && Parse(NewestText(ev.steps)).Some?
      then rest + [Parse(NewestText(ev.steps)).value.stepID] else rest
  }

  lemma {:induction false} MarkedIDsAppend(c: seq<StepEvent>, ev: StepEvent)
    ensures MarkedIDs(c + [ev]) == MarkedIDs(c) +
              if IsInputMarker(ev) && Parse(NewestText(ev.steps)).Some?
              then [Parse(NewestText(ev.steps)).value.stepID] else []
  {
    assert (c + [ev])[..|c|] == c;
  }

  /** The ids of the rounds a process has lived through, oldest first. */
  function RoundIDs(rt: Runtime): (ids: seq<string>)
    ensures |ids| == |rt.rounds|
    ensures forall i :: 0 <= i < |ids| ==> ids[i] == rt.rounds[i].msg.stepID
  {
    seq(|rt.rounds|, i requires 0 <= i < |rt.rounds| => rt.rounds[i].msg.stepID)
  }

  function TurnIDs(turns: seq<Turn>): (ids: seq<string>)
    ensures |ids| == |turns|
    ensures forall i :: 0 <= i < |ids| ==> ids[i] == turns[i].msg.stepID
  {
    seq(|turns|, i requires 0 <= i < |turns| => turns[i].msg.stepID)
  }

  /** The newest output a conversation holds. */
  function LastReply(c: seq<StepEvent>): Option<Envelope> {
    if c == [] then None
    else
      var ev := c[|c| - 1];
      if ev.agentID == "" && Parse(NewestText(ev.steps)).Some? then Parse(NewestText(ev.steps))
      else LastReply(c[..|c| - 1])
  }

  lemma {:induction false} LastReplyAppend(c: seq<StepEvent>, ev: StepEvent)
    ensures LastReply(c + [ev]) ==
            if ev.agentID == "" && Parse(NewestText(ev.steps)).Some? then Parse(NewestText(ev.steps)) else LastReply(c)
  {
    assert (c + [ev])[..|c|] == c;
  }

  /** What a finished turn adds to its conversation: its own id, and its reply as the newest envelope. */
  lemma {:induction false} TurnMarks(p: Params, c: seq<StepEvent>, t: Turn)
    requires TurnOK(p, t) && t.agent != ""
    ensures MarkedIDs(c + TurnEvents(p, t)) == MarkedIDs(c) + [t.msg.stepID]
    ensures LastHop(c + TurnEvents(p, t)) == Some(t.out)
    ensures LastReply(c + TurnEvents(p, t)) == Some(t.out)
  {
    var evs := TurnEvents(p, t);
    LastReplyAppend(c, evs[0]);
    LastReplyAppend(c + [evs[0]], evs[1]);
    LastReplyAppend(c + [evs[0]] + [evs[1]], evs[2]);
    MarkedIDsAppend(c, evs[0]);
    MarkedIDsAppend(c + [evs[0]], evs[1]);
    MarkedIDsAppend(c + [evs[0]] + [evs[1]], evs[2]);
    LastHopAppend(c, evs[0]);
    LastHopAppend(c + [evs[0]], evs[1]);
    LastHopAppend(c + [evs[0]] + [evs[1]], evs[2]);
    assert NewestText(evs[1].steps) == Json(t.out);
    assert c + evs == c + [evs[0]] + [evs[1]] + [evs[2]];
  }

  function NewestOut(turns: seq<Turn>): Option<Envelope> {
    if turns == [] then None else Some(turns[|turns| - 1].out)
  }

  lemma {:induction false} TurnsMark(p: Params, turns: seq<Turn>, a: string)
    requires TurnsOK(p, turns) && "" !in p.agents
    ensures var c := Conv(TurnLog(p, turns), a);
            && MarkedIDs(c) == TurnIDs(TurnsOf(turns, a))
            && LastHop(c) == NewestOut(TurnsOf(turns, a)) && LastReply(c) == NewestOut(TurnsOf(turns, a))
  {
    hide TurnEvents;
    if turns != [] {
      var init, t := turns[..|turns| - 1], turns[|turns| - 1];
      TurnsMark(p, init, a);
      ConvOfTurn(p, TurnLog(p, init), t, a);
      TurnsOfAppend(init, t, a);
      assert turns == init + [t];
      assert Conv(TurnLog(p, init), a) + [] == Conv(TurnLog(p, init), a);
      if t.agent == a {
        assert TurnIDs(TurnsOf(turns, a)) == TurnIDs(TurnsOf(init, a)) + [t.msg.stepID];
        TurnMarks(p, Conv(TurnLog(p, init), a), t);
      }
    }
  }

  /** What the open turn adds to its conversation. */
  lemma {:induction false} OpenMarks(w: World, c: seq<StepEvent>, o: Open)
    requires o.agent != "" && NewestText(o.inputs) == Json(o.msg)
    ensures var log := c + OpenEvents(w.p.session, o.agent, AsOpenLogged(o));
            MarkedIDs(log) == MarkedIDs(c) + [o.msg.stepID] && (o.logged.None? ==> LastReply(log) == LastReply(c))
  {
    var evs := OpenEvents(w.p.session, o.agent, AsOpenLogged(o));
    MarkedIDsAppend(c, evs[0]);
    LastReplyAppend(c, evs[0]);
    if |evs| == 2 {
      MarkedIDsAppend(c + [evs[0]], evs[1]);
      assert c + evs == c + [evs[0]] + [evs[1]];
    } else {
      assert evs == [evs[0]];
    }
  }

  /**
   * Snapshot `rt` holds exactly the turns its conversation `c` finished, the newest one's reply in its cache, or those and
   * the one open in it.
   */
  ghost predicate SnapshotFollowsLog(rt: Runtime, c: seq<StepEvent>) {
    var pending := StateOf(c) == StatePending;
    var marked := MarkedIDs(c);
    && (pending ==> marked != [])
    && (var holdsOpen := pending && RoundIDs(rt) == marked && rt.lastInputID == marked[|marked| - 1];
        && (holdsOpen || RoundIDs(rt) == if pending then marked[..|marked| - 1] else marked)
        && (pending && PendingOutputs(c) != [] ==>
              holdsOpen && rt.last.Some? && rt.last.value.Ok? && PendingOutputs(c) == [ReplyStep(rt.last.value.env)])
        && (!holdsOpen ==> rt.last == (if LastReply(c).Some? then Some(Ok(LastReply(c).value)) else None))
        && (!pending ==> LastHop(c) == LastReply(c)))
  }

  lemma {:induction false} FollowsClosed(rt: Runtime, turns: seq<Turn>, c: seq<StepEvent>)
    requires Lived(rt, turns) && StateOf(c) != StatePending
    requires MarkedIDs(c) == TurnIDs(turns)
    requires LastHop(c) == LastReply(c) == NewestOut(turns)
    ensures SnapshotFollowsLog(rt, c)
  {
  }

  lemma {:induction false} FollowsOpen(p: Params, a: string, base: Runtime, turns: seq<Turn>, rt: Runtime, o: Open,
                                       c: seq<StepEvent>)
    requires Lived(base, turns) && StateOf(c) == StatePending
    requires MarkedIDs(c) == TurnIDs(turns) + [o.msg.stepID]
    requires PendingOutputs(c) == LoggedSteps(o)
    requires rt == base || Executed(p, a, base, o.msg, rt)
    requires o.logged.Some? ==> ExecutedWith(p, a, base, o.msg, rt, o.logged.value)
    requires o.logged.None? ==> LastReply(c) == NewestOut(turns)
    ensures SnapshotFollowsLog(rt, c)
  {
    assert (TurnIDs(turns) + [o.msg.stepID])[..|turns|] == TurnIDs(turns);
    if Executed(p, a, base, o.msg, rt) {
      ExecutedFacts(p, a, base, o.msg, rt);
    }
  }

  lemma {:induction false} SnapshotOf(w: World, s: Sys, a: string)
    requires ValidWorld(w) && Inv(w, s) && a in w.p.agents
    ensures var rt := Saved(s.actors[a], BootMemory(w, a)).rt;
            var base := s.cfg.rts[a];
            && Lived(base, TurnsOf(s.cfg.turns, a)) && TurnsOK(w.p, s.cfg.turns)
            && (rt == base || (OpenAt(s.open, a).Some? && Executed(w.p, a, base, s.open.value.msg, rt)))
            && (OpenAt(s.open, a).Some? ==>
                  && NewestText(s.open.value.inputs) == Json(s.open.value.msg)
                  && (s.open.value.logged.Some? ==>
                        ExecutedWith(w.p, a, base, s.open.value.msg, rt, s.open.value.logged.value)))
  {
    hide SessionRun, Route, LogOK, DriverOK, MemoryOK, LegalNext, TurnLog, NewestText;
    SessionLived(w.p, s.segs);
    SessionTurnsOK(w.p, s.segs);
    if s.open.Some? {
      CurrentOfTurn(TurnLog(w.p, s.cfg.turns), s.open.value.agent, s.open.value.msg);
    }
  }

  /**
   * The snapshot is never behind the log, in any reachable state: it holds exactly the COMPLETED turns with the
   * newest one's logged reply in its cache, or those and the open turn, under whose id it answers a redo; and once
   * the open turn has an output logged, it is the one the snapshot would answer with.
   */
  lemma {:induction false} SnapshotNeverBehindLog(w: World, s: Sys, a: string)
    requires ValidWorld(w) && Reachable(w, s) && a in w.p.agents
    ensures a in s.actors
    ensures SnapshotFollowsLog(Saved(s.actors[a], BootMemory(w, a)).rt, Conv(s.log, a))
  {
    hide DriverOK, Reachable, TurnLog, OpenLog, OpenEvents, Conv, EndsAs, Executed, ExecutedWith, ActorOK, Lived,
         SnapshotFollowsLog,
         SessionRun, OpenOK, MarkedIDs, StepIDs, HarnessOf, PendingInputs, StateOf, PendingOutputs, ConvsRead, TurnsOf,
         LastHop, LastReply, RoundIDs, TurnIDs;
    ReachableKeeps(w, s);
    SnapshotOf(w, s, a);
    var rt := Saved(s.actors[a], BootMemory(w, a)).rt;
    var c := Conv(s.log, a);
    var mine := TurnsOf(s.cfg.turns, a);
    ConvOfOpen(w, TurnLog(w.p, s.cfg.turns), s.open, a);
    TurnsMark(w.p, s.cfg.turns, a);
    ConvAt(w, s.log, s.cfg.rts, s.open, a);
    if OpenAt(s.open, a).Some? {
      OpenMarks(w, Conv(TurnLog(w.p, s.cfg.turns), a), s.open.value);
      FollowsOpen(w.p, a, s.cfg.rts[a], mine, rt, s.open.value, c);
    } else {
      assert c == Conv(TurnLog(w.p, s.cfg.turns), a);
      FollowsClosed(rt, mine, c);
    }
  }

  lemma {:induction false} OpenIsNew(rt: Runtime, turns: seq<Turn>, id: string)
    requires Lived(rt, turns) && UsableID(Served(rt), id)
    ensures forall i, j :: 0 <= i < j < |TurnIDs(turns) + [id]| ==>
        (TurnIDs(turns) + [id])[i] != (TurnIDs(turns) + [id])[j]
    ensures forall i :: 0 <= i < |TurnIDs(turns) + [id]| ==> (TurnIDs(turns) + [id])[i] != ""
  {
    forall i | 0 <= i < |turns| ensures TurnIDs(turns)[i] != id && TurnIDs(turns)[i] != "" {
      assert rt.rounds[i] in rt.rounds && rt.rounds[i].msg.stepID == turns[i].msg.stepID;
    }
  }

  /**
   * The step ids one actor's turns are delivered under are non-empty and pairwise distinct, in every reachable state.
   */
  lemma {:induction false} DeliveredIDsAreDistinct(w: World, s: Sys, a: string)
    requires ValidWorld(w) && Reachable(w, s) && a in w.p.agents
    ensures var ids := MarkedIDs(Conv(s.log, a));
            && (forall i :: 0 <= i < |ids| ==> ids[i] != "")
            && (forall i, j :: 0 <= i < j < |ids| ==> ids[i] != ids[j])
  {
    hide DriverOK, Reachable, TurnLog, OpenLog, OpenEvents, Conv, EndsAs, ActorOK, SessionRun, MarkedIDs, StepIDs,
         HarnessOf,
         PendingInputs, StateOf, PendingOutputs, ConvsRead, Executed, TurnsOf;
    ReachableKeeps(w, s);
    SnapshotOf(w, s, a);
    var mine := TurnsOf(s.cfg.turns, a);
    ConvOfOpen(w, TurnLog(w.p, s.cfg.turns), s.open, a);
    TurnsMark(w.p, s.cfg.turns, a);
    if OpenAt(s.open, a).Some? {
      OpenMarks(w, Conv(TurnLog(w.p, s.cfg.turns), a), s.open.value);
      OpenIsNew(s.cfg.rts[a], mine, s.open.value.msg.stepID);
    } else {
      assert Conv(s.log, a) == Conv(TurnLog(w.p, s.cfg.turns), a);
      LivedNonEmpty(s.cfg.rts[a], mine);
    }
  }

  lemma {:induction false} LivedNonEmpty(rt: Runtime, turns: seq<Turn>)
    requires Lived(rt, turns)
    ensures forall i :: 0 <= i < |turns| ==> TurnIDs(turns)[i] != ""
    ensures forall i, j :: 0 <= i < j < |turns| ==> TurnIDs(turns)[i] != TurnIDs(turns)[j]
  {
    forall i | 0 <= i < |turns| ensures TurnIDs(turns)[i] == rt.rounds[i].msg.stepID {
    }
  }

  // ---------- reading a session's log by its id ----------

  ghost predicate OfSession(log: seq<StepEvent>, id: string) {
    forall ev :: ev in log ==> ev.sessionID == id
  }

  lemma {:induction false} TurnsOfSession(p: Params, turns: seq<Turn>)
    ensures OfSession(TurnLog(p, turns), p.session)
  {
    if turns != [] {
      TurnsOfSession(p, turns[..|turns| - 1]);
    }
  }

  lemma {:induction false} ReadBack(log: seq<StepEvent>, session: string, id: string)
    requires OfSession(log, session) && session != ""
    ensures BySession(log, id) == if id == session then log else []
  {
    if log != [] {
      var init := log[..|log| - 1];
      assert log[|log| - 1] in log;
      ReadBack(init, session, id);
      assert init + [log[|log| - 1]] == log;
    }
  }

  /** A session's log is read back whole under its id, and under no other one is anything of it found. */
  lemma {:induction false} SessionReadsBack(w: World, s: Sys, id: string)
    requires ValidWorld(w) && Reachable(w, s) && w.p.session != ""
    ensures BySession(s.log, id) == if id == w.p.session then s.log else []
  {
    hide Reachable, ActorsOK, CfgOK, OpenOK, DriverOK, ConvsRead, EndsAs, TurnLog, BySession;
    ReachableKeeps(w, s);
    TurnsOfSession(w.p, s.cfg.turns);
    ReadBack(s.log, w.p.session, id);
  }
}
