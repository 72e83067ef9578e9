/** The history a turn is sent along with: every turn's first input and its reply, as the agent will read them. */
module History {
  import opened Hop
  import opened EventLog
  import opened Controller
  import opened Runtime
  import opened Relay
  import opened Session
  import opened System
  import opened SystemInvariant
  import opened Durability

  /** Two user steps per finished turn of one agent: the first envelope it was logged with, then its reply. */
  ghost predicate Told(mine: seq<Turn>, history: seq<EventLog.Step>) {
    && |history| == 2 * |mine|
    && forall i :: 0 <= i < |mine| ==>
         && mine[i].inputs != [] && history[2 * i] == mine[i].inputs[0] == EventLog.Step(User, Json(mine[0].msg))
         && history[2 * i + 1] == EventLog.Step(User, Json(mine[i].out))
  }

  /** `inputs` is the agent's next turn on `msg`, behind all of its turns so far. */
  ghost predicate SentAlong(mine: seq<Turn>, inputs: seq<EventLog.Step>, msg: Envelope) {
    && |inputs| == 2 * |mine| + 1 && inputs[2 * |mine|] == EventLog.Step(User, Json(msg))
    && Told(mine, inputs[..2 * |mine|])
  }

  ghost predicate AllSentAlong(turns: seq<Turn>) {
    forall n :: 0 <= n < |turns| ==> SentAlong(TurnsOf(turns[..n], turns[n].agent), turns[n].inputs, turns[n].msg)
  }

  lemma {:induction false} OneMoreTold(mine: seq<Turn>, history: seq<EventLog.Step>, t: Turn)
    requires Told(mine, history) && SentAlong(mine, t.inputs, t.msg)
    ensures t.inputs[0].text != Blank && t.inputs[0].role == User
    ensures Told(mine + [t], history + [t.inputs[0], EventLog.Step(User, Json(t.out))])
  {
    if mine != [] {
      assert t.inputs[0] == t.inputs[..2 * |mine|][2 * 0];
    }
  }

  /** One finished turn adds its first input and its reply to what the next one is sent along with. */
  lemma {:induction false} TurnTells(p: Params, c: seq<StepEvent>, t: Turn)
    requires t.inputs != [] && t.inputs[0].text != Blank && t.inputs[0].role == User
    ensures HistorySteps(c + TurnEvents(p, t)) ==
        HistorySteps(c) + [t.inputs[0], EventLog.Step(User, Json(t.out))]
  {
    hide HistorySteps;
    var evs := TurnEvents(p, t);
    HistoryStepsAppend(c, evs[0]);
    HistoryStepsAppend(c + [evs[0]], evs[1]);
    HistoryStepsAppend(c + [evs[0]] + [evs[1]], evs[2]);
    assert c + evs == c + [evs[0]] + [evs[1]] + [evs[2]];
  }

  lemma {:induction false} HistoryIsTold(p: Params, turns: seq<Turn>, a: string)
    requires AllSentAlong(turns)
    ensures Told(TurnsOf(turns, a), HistorySteps(Conv(TurnLog(p, turns), a)))
  {
    hide Told, SentAlong, TurnEvents, HistorySteps, Conv;
    if turns == [] {
      NothingTold(a);
    } else {
      var init, t := turns[..|turns| - 1], turns[|turns| - 1];
      forall n | 0 <= n < |init| ensures SentAlong(TurnsOf(init[..n], init[n].agent), init[n].inputs, init[n].msg) {
        assert init[..n] == turns[..n];
      }
      HistoryIsTold(p, init, a);
      ConvOfTurn(p, TurnLog(p, init), t, a);
      TurnsOfAppend(init, t, a);
      assert init + [t] == turns;
      assert Conv(TurnLog(p, init), a) + [] == Conv(TurnLog(p, init), a);
      if t.agent == a {
        assert SentAlong(TurnsOf(turns[..|turns| - 1], t.agent), t.inputs, t.msg);
        InputsNotEmpty(TurnsOf(init, a), t);
        OneMoreTold(TurnsOf(init, a), HistorySteps(Conv(TurnLog(p, init), a)), t);
        TurnTells(p, Conv(TurnLog(p, init), a), t);
      }
    }
  }

  lemma {:induction false} NothingTold(a: string)
    ensures Told(TurnsOf([], a), HistorySteps(Conv([], a)))
  {
  }

  lemma {:induction false} InputsNotEmpty(mine: seq<Turn>, t: Turn)
    requires SentAlong(mine, t.inputs, t.msg)
    ensures t.inputs != []
  {
  }

  lemma {:induction false} NextIsSentAlong(p: Params, turns: seq<Turn>, a: string, msg: Envelope)
    requires AllSentAlong(turns)
    ensures SentAlong(TurnsOf(turns, a), TurnInputs(TurnLog(p, turns), a, msg), msg)
  {
    hide TurnLog, TurnsOf, Conv, HistorySteps, AllSentAlong;
    HistoryIsTold(p, turns, a);
    var mine := TurnsOf(turns, a);
    var history := HistorySteps(Conv(TurnLog(p, turns), a));
    assert TurnInputs(TurnLog(p, turns), a, msg)[..2 * |mine|] == history;
  }

  lemma {:induction false} HopSentAlong(p: Params, cfg: Config, h: HopItem)
    requires AllSentAlong(cfg.turns) && RelayHop(p, cfg, h).Some?
    ensures AllSentAlong(RelayHop(p, cfg, h).value.turns)
  {
    hide Route, SentAlong, TurnsOf, TurnLog, TurnInputs, Served;
    var turns := RelayHop(p, cfg, h).value.turns;
    var t := turns[|cfg.turns|];
    NextIsSentAlong(p, cfg.turns, t.agent, t.msg);
    forall n | 0 <= n < |turns| ensures SentAlong(TurnsOf(turns[..n], turns[n].agent), turns[n].inputs, turns[n].msg) {
      assert turns[..n] == cfg.turns[..n];
      assert n == |cfg.turns| ==> cfg.turns[..n] == cfg.turns;
    }
  }

  lemma {:induction false} RunSentAlong(p: Params, cfg: Config, hops: seq<HopItem>)
    requires AllSentAlong(cfg.turns) && RelayRun(p, cfg, hops).Some?
    ensures AllSentAlong(RelayRun(p, cfg, hops).value.turns)
  {
    hide AllSentAlong, RelayHop;
    if hops != [] {
      RunSentAlong(p, cfg, hops[..|hops| - 1]);
      HopSentAlong(p, RelayRun(p, cfg, hops[..|hops| - 1]).value, hops[|hops| - 1]);
    }
  }

  lemma {:induction false} SessionSentAlong(p: Params, segs: seq<Segment>)
    requires p.locals.Keys == p.agents.Keys && SessionRun(p, segs).Some?
    ensures AllSentAlong(SessionRun(p, segs).value.turns)
  {
    hide RelayRun;
    if segs != [] {
      var init := segs[..|segs| - 1];
      SessionSentAlong(p, init);
      RunSentAlong(p, SessionRun(p, init).value.(env := segs[|segs| - 1].ext), segs[|segs| - 1].hops);
    }
  }

  /** The open turn as it will be finished, once its output is logged. */
  function AsFinished(o: Open): Turn
    requires o.logged.Some?
  {
    Turn(o.agent, o.inputs, o.msg, o.logged.value)
  }

  lemma {:induction false} OpenTells(w: World, log: seq<StepEvent>, o: Open)
    requires o.logged.Some?
    ensures HistorySteps(Conv(log + OpenLog(w, Some(o)), o.agent)) ==
            HistorySteps(Conv(log + TurnEvents(w.p, AsFinished(o)), o.agent))
  {
    hide HistorySteps, Conv;
    var ev := OutputEvent(w.p.session, o.agent, [], StateCompleted);
    var before := log + OpenLog(w, Some(o));
    assert log + TurnEvents(w.p, AsFinished(o)) == before + [ev];
    ConvAppend(before, ev, o.agent);
    HistoryStepsAppend(Conv(before, o.agent), ev);
  }

  /** What the message that overtook the open turn is sent along with: that turn counts as finished. */
  lemma {:induction false} OvertakerSentAlong(w: World, s: Sys, msg: Envelope)
    requires AllSentAlong(s.cfg.turns) && s.open.Some? && s.open.value.logged.Some?
    requires s.log == TurnLog(w.p, s.cfg.turns) + OpenLog(w, s.open)
    requires SentAlong(TurnsOf(s.cfg.turns, s.open.value.agent), s.open.value.inputs, s.open.value.msg)
    ensures var o := s.open.value;
            SentAlong(TurnsOf(s.cfg.turns, o.agent) + [AsFinished(o)], TurnInputs(s.log, o.agent, msg), msg)
  {
    hide TurnsOf, TurnLog, OpenLog, HistorySteps, Conv, SentAlong, AllSentAlong;
    var o := s.open.value;
    var turns := s.cfg.turns + [AsFinished(o)];
    OneMoreSentAlong(s.cfg.turns, AsFinished(o));
    NextIsSentAlong(w.p, turns, o.agent, msg);
    TurnsOfAppend(s.cfg.turns, AsFinished(o), o.agent);
    OneMoreLogged(w.p, s.cfg.turns, AsFinished(o));
    OpenTells(w, TurnLog(w.p, s.cfg.turns), o);
  }

  lemma {:induction false} OneMoreLogged(p: Params, turns: seq<Turn>, t: Turn)
    ensures TurnLog(p, turns + [t]) == TurnLog(p, turns) + TurnEvents(p, t)
  {
    assert (turns + [t])[..|turns|] == turns;
  }

  lemma {:induction false} OneMoreSentAlong(turns: seq<Turn>, t: Turn)
    requires AllSentAlong(turns) && SentAlong(TurnsOf(turns, t.agent), t.inputs, t.msg)
    ensures AllSentAlong(turns + [t])
  {
    hide SentAlong, TurnsOf;
    var more := turns + [t];
    forall n | 0 <= n < |more| ensures SentAlong(TurnsOf(more[..n], more[n].agent), more[n].inputs, more[n].msg) {
      assert more[..n] == turns[..n];
      assert n == |turns| ==> turns[..n] == turns;
    }
  }

  /**
   * In every reachable state, every finished turn, the open one, and the one the driver asks for came or goes along with
   * exactly two user steps for each earlier turn of its agent, in order: the first envelope that turn was logged with,
   * which is always the agent's first message, and that turn's reply; then its own message.
   */
  lemma {:induction false} HistoryIsSent(w: World, s: Sys)
    requires ValidWorld(w) && Reachable(w, s)
    ensures AllSentAlong(s.cfg.turns)
    ensures s.open.Some? ==>
              SentAlong(TurnsOf(s.cfg.turns, s.open.value.agent), s.open.value.inputs, s.open.value.msg)
    ensures s.driver.Turning? && s.driver.job.want.Some? ==>
              var job := s.driver.job;
              && (s.open.None? ==> SentAlong(TurnsOf(s.cfg.turns, job.agent), job.inputs, job.want.value))
              && (s.open.Some? && s.open.value.msg != job.want.value ==>
                    && s.open.value.logged.Some?
                    && SentAlong(TurnsOf(s.cfg.turns, job.agent) + [AsFinished(s.open.value)], job.inputs,
                                 job.want.value))
  {
    hide Reachable, SessionRun, ActorsOK, ConvsRead, EndsAs, SentAlong, AllSentAlong, TurnsOf, TurnLog, OpenLog,
        TurnInputs,
         LegalNext, StageOK, ExecutedWith;
    ReachableKeeps(w, s);
    SessionSentAlong(w.p, s.segs);
    assert s.open.None? ==> TurnLog(w.p, s.cfg.turns) + OpenLog(w, s.open) == TurnLog(w.p, s.cfg.turns) by {
      if s.open.None? {
        NothingOpen(w);
      }
    }
    if s.open.Some? {
      NextIsSentAlong(w.p, s.cfg.turns, s.open.value.agent, s.open.value.msg);
    }
    if s.driver.Turning? && s.driver.job.want.Some? {
      NextIsSentAlong(w.p, s.cfg.turns, s.driver.job.agent, s.driver.job.want.value);
      if s.open.Some? && s.open.value.logged.Some? {
        OvertakerSentAlong(w, s, s.driver.job.want.value);
      }
    }
  }

  lemma {:induction false} NothingOpen(w: World)
    ensures OpenLog(w, None) == []
  {
  }
}
