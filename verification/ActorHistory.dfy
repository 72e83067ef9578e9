/** What every live process and every snapshot has been through, whatever crashes. */
module ActorHistory {
  import opened Hop
  import opened Runtime
  import opened Relay
  import opened Session
  import opened System
  import opened SystemInvariant
  import opened CrashSafety

  /** Everything a process may be: as its last finished turn left it, in the open turn, or just past it. */
  ghost predicate History(p: Params, a: string, base: Runtime, om: Option<Envelope>, mem: Memory) {
    || mem == Memory(base, map[])
    || (om.Some? && mem == Memory(base, map[om.value.stepID := om.value]))
    || (om.Some? && mem.inFlight == map[] && Executed(p, a, base, om.value, mem.rt))
  }

  lemma {:induction false} HistoryOf(w: World, s: Sys, a: string)
    requires ValidWorld(w) && Inv(w, s) && a in w.p.agents
    ensures History(w.p, a, s.cfg.rts[a], OpenMsg(s.open, a), SavedState(w, s, a))
    ensures s.actors[a].Actor? && s.actors[a].mem.Some? ==>
              History(w.p, a, s.cfg.rts[a], OpenMsg(s.open, a), s.actors[a].mem.value)
    ensures OpenMsg(s.open, a).Some? ==>
              s.open.value.msg.to == a && LegalNext(w, s.cfg, s.open.value.msg)
    ensures Lived(s.cfg.rts[a], TurnsOf(s.cfg.turns, a))
  {
    hide SessionRun, LogOK, DriverOK, Executed, LegalNext;
    SessionLived(w.p, s.segs);
    assert ActorOK(w.p, a, s.cfg.rts[a], OpenMsg(s.open, a), BootMemory(w, a), s.actors[a], s.uris);
  }

  lemma {:induction false} HistoryServedOnce(w: World, cfg: Config, a: string, turns: seq<Turn>,
                                             om: Option<Envelope>, mem: Memory)
    requires a in cfg.rts && Lived(cfg.rts[a], turns)
    requires om.Some? ==> om.value.to == a && LegalNext(w, cfg, om.value)
    requires History(w.p, a, cfg.rts[a], om, mem)
    ensures ServedOnce(mem)
  {
    var base := cfg.rts[a];
    if om.Some? && Executed(w.p, a, base, om.value, mem.rt) {
      ExecutedFacts(w.p, a, base, om.value, mem.rt);
      assert mem.rt.rounds[..|base.rounds|] == base.rounds;
      forall i | 0 <= i < |base.rounds| ensures base.rounds[i].msg.stepID != om.value.stepID {
        assert base.rounds[i] in base.rounds;
      }
      assert mem.rt.rounds[|base.rounds|].msg == om.value;
    }
  }

  /**
   * At most one execution per step id: in every reachable state no live process and no snapshot has an id twice
   * in its history, or runs one it has finished.
   */
  lemma {:induction false} ExecutedAtMostOnce(w: World, s: Sys, a: string)
    requires ValidWorld(w) && Reachable(w, s) && a in w.p.agents
    ensures && a in s.actors
            && ServedOnce(SavedState(w, s, a))
            && (s.actors[a].Actor? && s.actors[a].mem.Some? ==> ServedOnce(s.actors[a].mem.value))
  {
    hide Reachable, Lived, History, ServedOnce, SessionRun, LogOK, DriverOK, LegalNext, ActorOK;
    ReachableKeeps(w, s);
    HistoryOf(w, s, a);
    HistoryServedOnce(w, s.cfg, a, TurnsOf(s.cfg.turns, a), OpenMsg(s.open, a), SavedState(w, s, a));
    if s.actors[a].Actor? && s.actors[a].mem.Some? {
      HistoryServedOnce(w, s.cfg, a, TurnsOf(s.cfg.turns, a), OpenMsg(s.open, a), s.actors[a].mem.value);
    }
  }

  /** The delivery a process has in hand or behind it found its invocation waiting. */
  lemma {:induction false} LegalReplyFindsWaiter(w: World, segs: seq<Segment>, cfg: Config, msg: Envelope)
    requires ValidWorld(w) && SessionRun(w.p, segs) == Some(cfg) && LegalNext(w, cfg, msg) && msg.reply
    ensures msg.correlation in cfg.rts[msg.to].waiting
  {
    hide SessionRun, Linked, WellFormed;
    var stack := SessionChained(w.p, segs);
    ReplyFindsTop(w.p, cfg, stack);
  }

  lemma {:induction false} HistoryFindsWaiter(w: World, segs: seq<Segment>, cfg: Config, a: string,
                                              turns: seq<Turn>, om: Option<Envelope>, mem: Memory)
    requires ValidWorld(w) && SessionRun(w.p, segs) == Some(cfg)
    requires a in cfg.rts && Lived(cfg.rts[a], turns)
    requires om.Some? ==> om.value.to == a && LegalNext(w, cfg, om.value)
    requires History(w.p, a, cfg.rts[a], om, mem)
    ensures mem.rt.last != Some(Err(NoWaiter))
  {
    hide SessionRun, LegalNext, Linked, WellFormed;
    if om.Some? && om.value.reply {
      LegalReplyFindsWaiter(w, segs, cfg, om.value);
    }
  }

  /** No delivery, in any reachable state, ever fails for want of the invocation it answers. */
  lemma {:induction false} RepliesAlwaysFindTheirCall(w: World, s: Sys, a: string)
    requires ValidWorld(w) && Reachable(w, s) && a in w.p.agents
    ensures && a in s.actors
            && SavedState(w, s, a).rt.last != Some(Err(NoWaiter))
            && (s.actors[a].Actor? && s.actors[a].mem.Some? ==> s.actors[a].mem.value.rt.last != Some(Err(NoWaiter)))
  {
    hide Reachable, Lived, History, SessionRun, LogOK, DriverOK, LegalNext, ActorOK;
    ReachableKeeps(w, s);
    HistoryOf(w, s, a);
    HistoryFindsWaiter(w, s.segs, s.cfg, a, TurnsOf(s.cfg.turns, a), OpenMsg(s.open, a), SavedState(w, s, a));
    if s.actors[a].Actor? && s.actors[a].mem.Some? {
      HistoryFindsWaiter(w, s.segs, s.cfg, a, TurnsOf(s.cfg.turns, a), OpenMsg(s.open, a), s.actors[a].mem.value);
    }
  }

  // ---------- tokens ----------

  /** Every token a process waits on is the id of a turn it has finished, so no running turn can register it again. */
  ghost predicate TokensFree(mem: Memory) {
    && mem.rt.waiting.Keys <= Served(mem.rt)
    && forall id :: id in mem.inFlight ==> id !in mem.rt.waiting
  }

  lemma {:induction false} RouteTokens(agent: Agent, a: string, rt: Runtime, msg: Envelope, c: Choice)
    requires rt.waiting.Keys <= Served(rt)
    ensures var rt' := Route(agent, a, rt, msg, c); rt'.waiting.Keys <= Served(rt')
  {
    hide Served;
    RouteServed(agent, a, rt, msg, c);
  }

  lemma {:induction false} HistoryTokensFree(w: World, segs: seq<Segment>, cfg: Config, a: string,
                                             om: Option<Envelope>, mem: Memory)
    requires ValidWorld(w) && SessionRun(w.p, segs) == Some(cfg) && a in w.p.agents && a in cfg.rts
    requires om.Some? ==> om.value.to == a && LegalNext(w, cfg, om.value)
    requires History(w.p, a, cfg.rts[a], om, mem)
    ensures TokensFree(mem)
  {
    hide SessionRun, Linked, WellFormed, Route, Served;
    var stack := SessionChained(w.p, segs);
    if om.Some? && mem.rt != cfg.rts[a] {
      RouteTokens(w.p.agents[a], a, cfg.rts[a], om.value, mem.rt.rounds[|mem.rt.rounds| - 1].choice);
    }
  }

  /** In every reachable state, of every live process and every snapshot: tokens are never issued twice. */
  lemma {:induction false} TokensNeverClash(w: World, s: Sys, a: string)
    requires ValidWorld(w) && Reachable(w, s) && a in w.p.agents
    ensures && a in s.actors
            && TokensFree(SavedState(w, s, a))
            && (s.actors[a].Actor? && s.actors[a].mem.Some? ==> TokensFree(s.actors[a].mem.value))
  {
    hide Reachable, Lived, History, TokensFree, SessionRun, LogOK, DriverOK, LegalNext, ActorOK;
    ReachableKeeps(w, s);
    HistoryOf(w, s, a);
    HistoryTokensFree(w, s.segs, s.cfg, a, OpenMsg(s.open, a), SavedState(w, s, a));
    if s.actors[a].Actor? && s.actors[a].mem.Some? {
      HistoryTokensFree(w, s.segs, s.cfg, a, OpenMsg(s.open, a), s.actors[a].mem.value);
    }
  }

  // ---------- the call stack ----------

  /** The invocations suspended in the saved states, one table per actor. */
  function SavedWaiting(w: World, s: Sys): map<string, map<string, Waiter>>
    requires w.p.locals.Keys == w.p.agents.Keys && s.actors.Keys == w.p.agents.Keys
  {
    map a | a in w.p.agents :: SavedState(w, s, a).rt.waiting
  }

  /** The configuration the saved states amount to: the finished turns, and the open one if its actor saved it. */
  lemma {:induction false} SavedIsConfig(w: World, s: Sys) returns (segs: seq<Segment>, cfg: Config)
    requires ValidWorld(w) && Inv(w, s)
    ensures SessionRun(w.p, segs) == Some(cfg) && cfg.rts.Keys == w.p.agents.Keys
    ensures forall a :: a in w.p.agents ==> cfg.rts[a] == SavedState(w, s, a).rt
    ensures s.open.None? ==> cfg == s.cfg
  {
    hide SessionRun, LogOK, DriverOK, Route, TurnLog, TurnInputs, WellFormed, ExtendSegs, MemoryOK;
    segs, cfg := s.segs, s.cfg;
    if s.open.Some? {
      var o := s.open.value;
      var rt := SavedState(w, s, o.agent).rt;
      if rt != s.cfg.rts[o.agent] {
        CommitIsHop(w, s.segs, s.cfg, o.msg, rt, rt.last.value.env);
        segs := ExtendSegs(s.segs, o.msg, rt.rounds[|rt.rounds| - 1].choice);
        cfg := Config(s.cfg.rts[o.agent := rt],
                      s.cfg.turns + [Turn(o.agent, TurnInputs(TurnLog(w.p, s.cfg.turns), o.agent, o.msg), o.msg,
                                          rt.last.value.env)],
                      rt.last.value.env);
      }
    }
  }

  /**
   * Call-stack discipline across crashes: in every reachable state the invocations suspended in the saved actor
   * states are exactly the frames of one chain of calls, whose top is what the newest hop is about.
   */
  lemma {:induction false} SavedCallsFormOneChain(w: World, s: Sys) returns (stack: seq<Frame>)
    requires ValidWorld(w) && Reachable(w, s)
    ensures && s.actors.Keys == w.p.agents.Keys
            && Linked(w.p, stack) && SavedWaiting(w, s) == Tables(w.p, stack)
            && (NewestHop(s.log).Some? ==> EnvelopeFits(w.p, stack, NewestHop(s.log).value))
  {
    hide Reachable, SessionRun, LogOK, DriverOK, ActorOK, OpenOK, Linked, EnvelopeFits, Tables, WellFormed,
         NewestHop, SavedState;
    ReachableKeeps(w, s);
    var segs, cfg := SavedIsConfig(w, s);
    stack := SessionChained(w.p, segs);
    assert SavedWaiting(w, s) == Waiting(cfg.rts);
    if NewestHop(s.log).Some? {
      NewestIsHand(w, s);
    }
  }
}
