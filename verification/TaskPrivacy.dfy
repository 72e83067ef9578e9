/** Whose words a task's view shows: the client's own invocations of the owner, and exactly when others as well. */
module TaskPrivacy {
  import opened Hop
  import opened EventLog
  import opened Controller
  import opened Runtime
  import opened Relay
  import opened Session
  import opened System
  import opened SystemInvariant
  import opened Durability
  import opened CrashSafety
  import opened TaskView

  // ---------- deliveries, read off the log ----------

  /** One turn as the log shows it: delivered to `agent`, and answered unless it is still open. */
  datatype Delivery = Delivery(agent: string, msg: Envelope, out: Option<Envelope>)

  function DeliveriesOf(log: seq<StepEvent>): seq<Delivery> {
    if log == [] then []
    else
      var rest := DeliveriesOf(log[..|log| - 1]);
      var ev := log[|log| - 1];
      var env := Parse(NewestText(ev.steps));
      if env.None? then rest
      else if IsInputMarker(ev) then rest + [Delivery(ev.agentID, env.value, None)]
      else if IsOutputOfOpenTurn(ev) && rest != [] then rest[..|rest| - 1] + [rest[|rest| - 1].(out := env)]
      else rest
  }

  lemma {:induction false} DeliveriesAppend(log: seq<StepEvent>, ev: StepEvent)
    ensures var rest := DeliveriesOf(log);
            var env := Parse(NewestText(ev.steps));
            DeliveriesOf(log + [ev]) ==
              if env.None? then rest
              else if IsInputMarker(ev) then rest + [Delivery(ev.agentID, env.value, None)]
              else if IsOutputOfOpenTurn(ev) && rest != [] then rest[..|rest| - 1] + [rest[|rest| - 1].(out := env)]
              else rest
  {
    assert (log + [ev])[..|log|] == log;
  }

  // ---------- what the view shows of them ----------

  function ClientPart(msg: Envelope): seq<Entry> {
    if msg.from != "" then []
    else if msg.data.task.Some? then [Client(msg.data.task.value.statusMessage)]
    else if msg.data.message.Some? then [Client(msg.data.message)]
    else []
  }

  /** An output of the owner to the client or to itself that carries a Task. */
  function ClaimPart(d: Delivery, owner: string): seq<Entry> {
    if d.agent == owner && d.out.Some? && d.out.value.to in {"", owner} && d.out.value.data.task.Some?
    then [Claim(d.out.value.data.task.value)] else []
  }

  function ShownBy(ds: seq<Delivery>, owner: string): seq<Entry> {
    if ds == [] then []
    else
      var d := ds[|ds| - 1];
      ShownBy(ds[..|ds| - 1], owner) + ClientPart(d.msg) + ClaimPart(d, owner)
  }

  lemma {:induction false} ShownAppends(ds: seq<Delivery>, d: Delivery, owner: string)
    ensures ShownBy(ds + [d], owner) == ShownBy(ds, owner) + ClientPart(d.msg) + ClaimPart(d, owner)
  {
    assert (ds + [d])[..|ds|] == ds;
  }

  function AsDelivery(t: Turn): Delivery {
    Delivery(t.agent, t.msg, Some(t.out))
  }

  function AsDeliveries(turns: seq<Turn>): (ds: seq<Delivery>)
    ensures |ds| == |turns|
    ensures forall i :: 0 <= i < |ds| ==> ds[i] == AsDelivery(turns[i])
  {
    seq(|turns|, i requires 0 <= i < |turns| => AsDelivery(turns[i]))
  }

  function OpenDelivery(open: Option<Open>): seq<Delivery> {
    if open.None? then [] else [Delivery(open.value.agent, open.value.msg, open.value.logged)]
  }

  /** One input event, then the output event if there is one: one delivery, and what it shows. */
  lemma {:induction false} InputShows(w: World, log: seq<StepEvent>, a: string, inputs: seq<EventLog.Step>,
                                      msg: Envelope)
    requires a != "" && inputs != [] && inputs[|inputs| - 1] == UserStep(msg) && NewestText(inputs) == Json(msg)
    ensures var log' := log + [InputEvent(w.p.session, a, a, inputs)];
            && DeliveriesOf(log') == DeliveriesOf(log) + [Delivery(a, msg, None)]
            && Entries(log', w.p.owner) == Entries(log, w.p.owner) + ClientPart(msg)
  {
    var ev := InputEvent(w.p.session, a, a, inputs);
    DeliveriesAppend(log, ev);
    EntriesAppend(log, ev, w.p.owner);
    assert ev.steps[|inputs| - 1].role == User;
  }

  lemma {:induction false} OutputShows(w: World, log: seq<StepEvent>, ds: seq<Delivery>, d: Delivery, out: Envelope)
    requires DeliveriesOf(log) == ds + [d] && d.out.None? && out.from == d.agent
    ensures var log' := log + [OutputEvent(w.p.session, d.agent, [ReplyStep(out)], StatePending)];
            && DeliveriesOf(log') == ds + [d.(out := Some(out))]
            && Entries(log', w.p.owner) == Entries(log, w.p.owner) + ClaimPart(d.(out := Some(out)), w.p.owner)
  {
    var ev := OutputEvent(w.p.session, d.agent, [ReplyStep(out)], StatePending);
    assert NewestText(ev.steps) == Json(out);
    DeliveriesAppend(log, ev);
    EntriesAppend(log, ev, w.p.owner);
    assert (ds + [d])[..|ds|] == ds;
  }

  lemma {:induction false} CompletedShows(w: World, log: seq<StepEvent>, a: string)
    ensures var log' := log + [OutputEvent(w.p.session, a, [], StateCompleted)];
            DeliveriesOf(log') == DeliveriesOf(log) && Entries(log', w.p.owner) == Entries(log, w.p.owner)
  {
    var ev := OutputEvent(w.p.session, a, [], StateCompleted);
    DeliveriesAppend(log, ev);
    EntriesAppend(log, ev, w.p.owner);
  }

  lemma {:induction false} TurnShows(w: World, log: seq<StepEvent>, t: Turn)
    requires TurnOK(w.p, t) && t.agent != ""
    ensures var log' := log + TurnEvents(w.p, t);
            && DeliveriesOf(log') == DeliveriesOf(log) + [AsDelivery(t)]
            && Entries(log', w.p.owner) ==
                Entries(log, w.p.owner) + ClientPart(t.msg) + ClaimPart(AsDelivery(t), w.p.owner)
  {
    hide DeliveriesOf, Entries, NewestText;
    var evs := TurnEvents(w.p, t);
    InputShows(w, log, t.agent, t.inputs, t.msg);
    OutputShows(w, log + [evs[0]], DeliveriesOf(log), Delivery(t.agent, t.msg, None), t.out);
    CompletedShows(w, log + [evs[0]] + [evs[1]], t.agent);
    assert log + evs == log + [evs[0]] + [evs[1]] + [evs[2]];
  }

  lemma {:induction false} NothingShown(w: World)
    ensures DeliveriesOf(TurnLog(w.p, [])) == [] && Entries(TurnLog(w.p, []), w.p.owner) == [] == ShownBy([], w.p.owner)
  {
  }

  lemma {:induction false} TurnHasAgent(w: World, turns: seq<Turn>)
    requires TurnsOK(w.p, turns) && turns != [] && "" !in w.p.agents
    ensures TurnOK(w.p, turns[|turns| - 1]) && turns[|turns| - 1].agent != ""
  {
  }

  lemma {:induction false} TurnsShow(w: World, turns: seq<Turn>)
    requires TurnsOK(w.p, turns) && "" !in w.p.agents
    ensures DeliveriesOf(TurnLog(w.p, turns)) == AsDeliveries(turns)
    ensures Entries(TurnLog(w.p, turns), w.p.owner) == ShownBy(AsDeliveries(turns), w.p.owner)
  {
    hide TurnEvents, DeliveriesOf, Entries, ShownBy, ClientPart, ClaimPart, TurnOK;
    if turns == [] {
      NothingShown(w);
    } else {
      var init, t := turns[..|turns| - 1], turns[|turns| - 1];
      assert TurnOK(w.p, t) && t.agent != "" by {
        TurnHasAgent(w, turns);
      }
      TurnsShow(w, init);
      TurnShows(w, TurnLog(w.p, init), t);
      assert AsDeliveries(turns) == AsDeliveries(init) + [AsDelivery(t)];
      ShownAppends(AsDeliveries(init), AsDelivery(t), w.p.owner);
    }
  }

  lemma {:induction false} OpenShows(w: World, log: seq<StepEvent>, open: Option<Open>)
    requires open.Some? ==>
               var o := open.value;
               && o.agent != "" && o.inputs != [] && o.inputs[|o.inputs| - 1] == UserStep(o.msg)
               && NewestText(o.inputs) == Json(o.msg) && (o.logged.Some? ==> o.logged.value.from == o.agent)
    requires Entries(log, w.p.owner) == ShownBy(DeliveriesOf(log), w.p.owner)
    ensures var log' := log + OpenLog(w, open);
            && DeliveriesOf(log') == DeliveriesOf(log) + OpenDelivery(open)
            && Entries(log', w.p.owner) == ShownBy(DeliveriesOf(log'), w.p.owner)
  {
    hide DeliveriesOf, Entries, NewestText, ShownBy;
    if open.None? {
      assert log + [] == log && DeliveriesOf(log) + [] == DeliveriesOf(log);
    } else {
      var o, evs := open.value, OpenLog(w, open);
      var d := Delivery(o.agent, o.msg, None);
      InputShows(w, log, o.agent, o.inputs, o.msg);
      ShownAppends(DeliveriesOf(log), d, w.p.owner);
      if o.logged.Some? {
        OutputShows(w, log + [evs[0]], DeliveriesOf(log), d, o.logged.value);
        ShownAppends(DeliveriesOf(log), d.(out := o.logged), w.p.owner);
        assert log + evs == log + [evs[0]] + [evs[1]];
        assert ClaimPart(d, w.p.owner) == [];
      } else {
        assert evs == [evs[0]];
      }
    }
  }

  lemma {:induction false} OpenIsShown(w: World, s: Sys)
    requires ValidWorld(w) && Inv(w, s) && s.open.Some?
    ensures var o := s.open.value;
            && o.agent != "" && o.inputs != [] && o.inputs[|o.inputs| - 1] == UserStep(o.msg)
            && NewestText(o.inputs) == Json(o.msg) && (o.logged.Some? ==> o.logged.value.from == o.agent)
  {
    hide SessionRun, ActorOK, DriverOK, LogOK, TurnLog, Route;
    var o := s.open.value;
    CurrentOfTurn(TurnLog(w.p, s.cfg.turns), o.agent, o.msg);
    if o.logged.Some? {
      ExecutedFacts(w.p, o.agent, s.cfg.rts[o.agent], o.msg, SavedState(w, s, o.agent).rt);
    }
  }

  /** In every reachable state the view of the whole log is what its deliveries show, the open one included. */
  lemma {:induction false} ViewOfDeliveries(w: World, s: Sys)
    requires ValidWorld(w) && Reachable(w, s)
    ensures Entries(s.log, w.p.owner) == ShownBy(DeliveriesOf(s.log), w.p.owner)
    ensures DeliveriesOf(s.log) == AsDeliveries(s.cfg.turns) + OpenDelivery(s.open)
  {
    hide Reachable, ActorsOK, OpenOK, DriverOK, SessionRun, ConvsRead, Entries, DeliveriesOf, ShownBy, TurnLog,
        OpenLog, EndsAs;
    ReachableKeeps(w, s);
    SessionTurnsOK(w.p, s.segs);
    TurnsShow(w, s.cfg.turns);
    if s.open.Some? {
      OpenIsShown(w, s);
    }
    OpenShows(w, TurnLog(w.p, s.cfg.turns), s.open);
  }

  // ---------- whom each delivery serves ----------

  /** Who called the invocation that the newest delivery runs: for a reply, the caller of the one it wakes. */
  function CallerOf(ds: seq<Delivery>): string
    requires ds != []
    decreases |ds|, 0
  {
    var d := ds[|ds| - 1];
    if d.msg.reply then FindCaller(ds[..|ds| - 1], d.agent, d.msg.correlation) else d.msg.from
  }

  /** Who called the invocation that `agent` suspended under `token`. */
  function FindCaller(ds: seq<Delivery>, agent: string, token: string): string
    decreases |ds|, 1
  {
    if ds == [] then ""
    else if ds[|ds| - 1].agent == agent && ds[|ds| - 1].msg.stepID == token then CallerOf(ds)
    else FindCaller(ds[..|ds| - 1], agent, token)
  }

  /** The newest output is a bare call, a flush of its own invocation, or the answer to that invocation's caller. */
  ghost predicate AnswersCaller(ds: seq<Delivery>)
    requires ds != []
  {
    var d := ds[|ds| - 1];
    d.out.Some? ==>
      var out := d.out.value;
      if !out.reply then out.to != "" && out.data.task.None?
      else out.to == CallerOf(ds) || (out.to == d.agent && out.correlation == d.msg.stepID)
  }

  /** What the waiting tables know of their callers, the deliveries know too. */
  ghost predicate CallersFound(ds: seq<Delivery>, a: string, waiting: map<string, Waiter>) {
    forall token :: token in waiting ==> FindCaller(ds, a, token) == waiting[token].from
  }

  lemma {:induction false} RegisterFinds(ds: seq<Delivery>, d: Delivery, waiting: map<string, Waiter>, act: Action,
                                         correlation: string)
    requires CallersFound(ds, d.agent, waiting) && d.msg.stepID !in waiting
    ensures CallersFound(ds + [d], d.agent, Register(waiting, act, d.msg.stepID, CallerOf(ds + [d]), correlation))
  {
    assert (ds + [d])[..|ds|] == ds;
  }

  lemma {:induction false} RoundAnswers(p: Params, rt: Runtime, ds: seq<Delivery>, a: string, msg: Envelope,
                                        c: Choice, out: Envelope)
    requires WellFormed(p) && a in p.agents && CallersFound(ds, a, rt.waiting) && msg.stepID !in rt.waiting
    requires Route(p.agents[a], a, rt, msg, c).last == Some(Ok(out))
    ensures var ds' := ds + [Delivery(a, msg, Some(out))];
            AnswersCaller(ds') && CallersFound(ds', a, Route(p.agents[a], a, rt, msg, c).waiting)
  {
    var agent := p.agents[a];
    var d := Delivery(a, msg, Some(out));
    assert (ds + [d])[..|ds|] == ds;
    if msg.reply {
      WakeRound(agent, a, rt, msg, c);
      var w := rt.waiting[msg.correlation];
      var act := agent.resume(rt.local, w.k, WakeData(w, msg), c).1;
      assert NamesTarget(act);
      RegisterFinds(ds, d, rt.waiting - {msg.correlation}, act, w.correlation);
    } else {
      SpawnRound(agent, a, rt, msg, c);
      var act := agent.start(rt.local, HopMessage(msg.data), c).1;
      assert NamesTarget(act);
      RegisterFinds(ds, d, rt.waiting, act, msg.correlation);
    }
  }

  ghost predicate AllAnswer(ds: seq<Delivery>) {
    forall i :: 0 < i <= |ds| ==> AnswersCaller(ds[..i])
  }

  lemma {:induction false} AllAnswerGrows(ds: seq<Delivery>, d: Delivery)
    requires AllAnswer(ds) && AnswersCaller(ds + [d])
    ensures AllAnswer(ds + [d])
  {
    var ds' := ds + [d];
    forall i | 0 < i <= |ds'| ensures AnswersCaller(ds'[..i]) {
      if i <= |ds| {
        assert ds'[..i] == ds[..i];
      } else {
        assert ds'[..i] == ds';
      }
    }
  }

  ghost predicate CallersKnown(p: Params, cfg: Config) {
    && TokensServed(p, cfg)
    && AllAnswer(AsDeliveries(cfg.turns))
    && forall a :: a in cfg.rts ==> CallersFound(AsDeliveries(cfg.turns), a, cfg.rts[a].waiting)
  }

  lemma {:induction false} OthersFind(ds: seq<Delivery>, d: Delivery, a: string, waiting: map<string, Waiter>)
    requires CallersFound(ds, a, waiting) && a != d.agent
    ensures CallersFound(ds + [d], a, waiting)
  {
    assert (ds + [d])[..|ds|] == ds;
  }

  lemma {:induction false} RouteKeys(agent: Agent, a: string, rt: Runtime, msg: Envelope, c: Choice)
    ensures Route(agent, a, rt, msg, c).waiting.Keys <= rt.waiting.Keys + {msg.stepID}
  {
  }

  lemma {:induction false} HopCallers(p: Params, cfg: Config, h: HopItem)
    requires WellFormed(p) && CallersKnown(p, cfg) && RelayHop(p, cfg, h).Some?
    ensures CallersKnown(p, RelayHop(p, cfg, h).value)
  {
    hide Route, FindCaller, TurnLog, TurnInputs, AllAnswer, AnswersCaller, CallersFound, WellFormed, Served;
    var next := RelayHop(p, cfg, h).value;
    var a, ds := cfg.env.to, AsDeliveries(cfg.turns);
    var msg := cfg.env.(stepID := PickID(Served(cfg.rts[a]), cfg.env.stepID, h.mint));
    RoundAnswers(p, cfg.rts[a], ds, a, msg, h.choice, next.env);
    RouteServed(p.agents[a], a, cfg.rts[a], msg, h.choice);
    RouteKeys(p.agents[a], a, cfg.rts[a], msg, h.choice);
    var d := Delivery(a, msg, Some(next.env));
    assert AsDeliveries(next.turns) == ds + [d];
    AllAnswerGrows(ds, d);
    forall b | b in next.rts && b != a ensures CallersFound(ds + [d], b, next.rts[b].waiting) {
      OthersFind(ds, d, b, next.rts[b].waiting);
    }
  }

  lemma {:induction false} RunCallers(p: Params, cfg: Config, hops: seq<HopItem>)
    requires WellFormed(p) && CallersKnown(p, cfg) && RelayRun(p, cfg, hops).Some?
    ensures CallersKnown(p, RelayRun(p, cfg, hops).value)
  {
    hide RelayHop, CallersKnown, WellFormed;
    if hops != [] {
      RunCallers(p, cfg, hops[..|hops| - 1]);
      HopCallers(p, RelayRun(p, cfg, hops[..|hops| - 1]).value, hops[|hops| - 1]);
    }
  }

  lemma {:induction false} SessionCallers(p: Params, segs: seq<Segment>)
    requires WellFormed(p) && SessionRun(p, segs).Some?
    ensures CallersKnown(p, SessionRun(p, segs).value)
  {
    hide RelayRun;
    if segs != [] {
      var init, seg := segs[..|segs| - 1], segs[|segs| - 1];
      SessionCallers(p, init);
      RunCallers(p, SessionRun(p, init).value.(env := seg.ext), seg.hops);
    }
  }

  lemma {:induction false} OpenAnswers(w: World, s: Sys, ds: seq<Delivery>)
    requires ValidWorld(w) && Inv(w, s) && s.open.Some?
    requires ds == AsDeliveries(s.cfg.turns) && CallersKnown(w.p, s.cfg)
    ensures AllAnswer(ds + OpenDelivery(s.open))
  {
    hide CallerOf, FindCaller, SessionRun, ConvsRead, ActorOK, DriverOK, LogOK, TurnLog, TurnInputs, Route, CfgOK,
        AllAnswer,
         Served, CallersFound, WellFormed;
    var o := s.open.value;
    var d := Delivery(o.agent, o.msg, o.logged);
    if o.logged.Some? {
      var rt := SavedState(w, s, o.agent).rt;
      RoundAnswers(w.p, s.cfg.rts[o.agent], ds, o.agent, o.msg, rt.rounds[|rt.rounds| - 1].choice, o.logged.value);
    }
    AllAnswerGrows(ds, d);
  }

  /**
   * The callers read off the log are the real ones: in every reachable state each logged answer goes to its caller,
   * and between turns every invocation that an actor has saved as waiting has the caller the log names.
   */
  lemma {:induction false} LogNamesCallers(w: World, s: Sys)
    requires ValidWorld(w) && Reachable(w, s)
    ensures AllAnswer(DeliveriesOf(s.log))
    ensures s.actors.Keys == w.p.agents.Keys
    ensures s.open.None? ==>
              forall a :: a in w.p.agents ==> CallersFound(DeliveriesOf(s.log), a, SavedState(w, s, a).rt.waiting)
  {
    hide Reachable, OpenOK, DriverOK, SessionRun, ConvsRead, LogOK, DeliveriesOf, AllAnswer, CallersFound, SavedState,
         WellFormed, ActorOK;
    ReachableKeeps(w, s);
    ViewOfDeliveries(w, s);
    SessionCallers(w.p, s.segs);
    var ds := AsDeliveries(s.cfg.turns);
    if s.open.Some? {
      OpenAnswers(w, s, ds);
    } else {
      assert ds + [] == ds;
      forall a | a in w.p.agents ensures CallersFound(ds, a, SavedState(w, s, a).rt.waiting) {
        SavedIsBase(w, s, a);
      }
    }
  }

  // ---------- when the view is the client's own call only ----------

  /** What the client said, and what the owner claimed in invocations that the client itself called. */
  function PublicEntries(ds: seq<Delivery>, owner: string): seq<Entry> {
    if ds == [] then []
    else
      var d := ds[|ds| - 1];
      PublicEntries(ds[..|ds| - 1], owner) + ClientPart(d.msg) + if CallerOf(ds) == "" then ClaimPart(d, owner) else []
  }

  /** A claim out of an invocation of the owner that some agent called. */
  predicate PrivateClaim(ds: seq<Delivery>, owner: string, i: nat)
    requires i < |ds|
  {
    ClaimPart(ds[i], owner) != [] && CallerOf(ds[..i + 1]) != ""
  }

  ghost predicate AllPublic(ds: seq<Delivery>, owner: string) {
    forall i :: 0 <= i < |ds| ==> !PrivateClaim(ds, owner, i)
  }

  lemma {:induction false} PrivateClaimsAddUp(ds: seq<Delivery>, owner: string)
    ensures AllPublic(ds, owner) ==> ShownBy(ds, owner) == PublicEntries(ds, owner)
    ensures !AllPublic(ds, owner) ==> |ShownBy(ds, owner)| > |PublicEntries(ds, owner)|
  {
    hide CallerOf;
    if ds != [] {
      var n := |ds| - 1;
      var init := ds[..n];
      PrivateClaimsAddUp(init, owner);
      assert ds[..n + 1] == ds;
      forall i | 0 <= i < n ensures PrivateClaim(init, owner, i) <==> PrivateClaim(ds, owner, i) {
        assert init[..i + 1] == ds[..i + 1];
      }
      assert PrivateClaim(ds, owner, n) <==> ClaimPart(ds[n], owner) != [] && CallerOf(ds) != "";
      if AllPublic(init, owner) && !AllPublic(ds, owner) {
        var i :| 0 <= i < |ds| && PrivateClaim(ds, owner, i);
        assert i == n;
      }
      if !AllPublic(init, owner) {
        var i :| 0 <= i < n && PrivateClaim(init, owner, i);
        assert PrivateClaim(ds, owner, i);
      }
    }
  }

  /** How an invocation that an agent called gets a claim into the view: by an output from the owner to the owner. */
  ghost predicate OwnerToOwner(ds: seq<Delivery>, owner: string, i: nat)
    requires i < |ds|
  {
    && ds[i].out.Some? && ds[i].out.value.reply && ds[i].out.value.to == owner
    && (CallerOf(ds[..i + 1]) == owner || ds[i].out.value.correlation == ds[i].msg.stepID)
  }

  /**
   * The view of any reachable log is the client's own conversation with the owner if and only if no claim comes out of
   * an invocation that an agent called. Such a claim is the owner's answer to a call of its own, or a flush.
   */
  lemma {:induction false} ViewIsPublicIff(w: World, s: Sys)
    requires ValidWorld(w) && Reachable(w, s)
    ensures var ds := DeliveriesOf(s.log);
            && (Entries(s.log, w.p.owner) == PublicEntries(ds, w.p.owner) <==> AllPublic(ds, w.p.owner))
            && forall i :: 0 <= i < |ds| && PrivateClaim(ds, w.p.owner, i) ==> OwnerToOwner(ds, w.p.owner, i)
  {
    hide Reachable, CallerOf, ShownBy, DeliveriesOf, Entries, AllPublic, PublicEntries;
    var ds := DeliveriesOf(s.log);
    ViewOfDeliveries(w, s);
    LogNamesCallers(w, s);
    PrivateClaimsAddUp(ds, w.p.owner);
    forall i | 0 <= i < |ds| && PrivateClaim(ds, w.p.owner, i) ensures OwnerToOwner(ds, w.p.owner, i) {
      assert AnswersCaller(ds[..i + 1]) && ds[..i + 1][i] == ds[i];
    }
  }

  /** No logged call that is addressed to the owner comes from an agent. */
  predicate OnlyClientCallsOwner(ds: seq<Delivery>, owner: string) {
    forall i :: 0 <= i < |ds| ==> ds[i].agent == owner && !ds[i].msg.reply ==> ds[i].msg.from == ""
  }

  lemma {:induction false} OwnerCalledByClient(ds: seq<Delivery>, owner: string)
    requires OnlyClientCallsOwner(ds, owner)
    ensures ds != [] && ds[|ds| - 1].agent == owner ==> CallerOf(ds) == ""
    ensures forall token :: FindCaller(ds, owner, token) == ""
  {
    if ds != [] {
      OwnerCalledByClient(ds[..|ds| - 1], owner);
    }
  }

  /**
   * A guard to check on the log alone: with nobody but the client calling the owner, the view holds nothing private.
   */
  lemma {:induction false} ViewIsPublic(w: World, s: Sys)
    requires ValidWorld(w) && Reachable(w, s)
    requires OnlyClientCallsOwner(DeliveriesOf(s.log), w.p.owner)
    ensures Entries(s.log, w.p.owner) == PublicEntries(DeliveriesOf(s.log), w.p.owner)
  {
    hide Reachable, CallerOf, ShownBy, DeliveriesOf, Entries, PublicEntries;
    var ds := DeliveriesOf(s.log);
    ViewIsPublicIff(w, s);
    forall i | 0 <= i < |ds| ensures !PrivateClaim(ds, w.p.owner, i) {
      OwnerCalledByClient(ds[..i + 1], w.p.owner);
    }
  }
}
