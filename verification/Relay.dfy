/** The relay loop as a fold over hops, and the plain recursive calls it must compute. */
module Relay {
  import opened Hop
  import opened EventLog
  import opened Controller
  import opened Runtime

  /** One session: its agents, their initial process state, and the agent its client talks to. */
  datatype Params = Params(session: string, agents: map<string, Agent>, locals: map<string, Local>, owner: string)

  predicate NamesTarget(act: Action) {
    act.SendMessage? ==> act.target != ""
  }

  /** Registered agents have non-empty ids and address only non-empty ids. */
  ghost predicate WellFormed(p: Params) {
    && p.locals.Keys == p.agents.Keys
    && p.owner in p.agents
    && "" !in p.agents
    && (forall a, l, m, c :: a in p.agents ==> NamesTarget(p.agents[a].start(l, m, c).1))
    && (forall a, l, k, d, c :: a in p.agents ==> NamesTarget(p.agents[a].resume(l, k, d, c).1))
  }

  // ---------- plain recursive calls ----------

  datatype Result = Returned(locals: map<string, Local>, data: Data, rest: seq<Choice>) | Short | Stuck

  /** Agent `a` called on `data` as an ordinary function; each blocking point consumes one choice. */
  function Invoke(p: Params, locals: map<string, Local>, a: string, data: Data, cs: seq<Choice>): (r: Result)
    requires locals.Keys == p.agents.Keys
    ensures r.Returned? ==> |r.rest| < |cs| && r.locals.Keys == p.agents.Keys
    decreases |cs|, 0
  {
    if cs == [] then Short
    else if a !in p.agents then Stuck
    else
      var (l, act) := p.agents[a].start(locals[a], HopMessage(data), cs[0]);
      Continue(p, locals[a := l], a, act, cs[1..])
  }

  /** The rest of that call, from its next action on. A flush is no call at all. */
  function Continue(p: Params, locals: map<string, Local>, a: string, act: Action, cs: seq<Choice>): (r: Result)
    requires locals.Keys == p.agents.Keys && a in p.agents
    ensures r.Returned? ==> |r.rest| <= |cs| && r.locals.Keys == p.agents.Keys
    decreases |cs|, 1
  {
    match act
    case Return(data) => Returned(locals, data, cs)
    case Fail => Stuck
    case FlushSelf(_, k) =>
      if cs == [] then Short
      else
        var (l, next) := p.agents[a].resume(locals[a], k, None, cs[0]);
        Continue(p, locals[a := l], a, next, cs[1..])
    case SendMessage(target, message, k) =>
      var r := Invoke(p, locals, target, MessageData(message), cs);
      if !r.Returned? then r
      else if r.rest == [] then Short
      else
        var (l, next) := p.agents[a].resume(r.locals[a], k, Some(r.data), r.rest[0]);
        Continue(p, r.locals[a := l], a, next, r.rest[1..])
  }

  // ---------- what a plain call says ----------

  /** One thing said: by whom, to whom, as a call or as an answer. */
  datatype Utterance = Utterance(from: string, to: string, reply: bool, data: Data)

  /** What an action makes agent `a` say in a call that `caller` made. */
  function Says(a: string, caller: string, act: Action): seq<Utterance> {
    match act
    case SendMessage(target, message, _) => [Utterance(a, target, false, Data(Some(message), None, DataMessage))]
    case FlushSelf(data, _) => [Utterance(a, a, true, data)]
    case Return(data) => [Utterance(a, caller, true, data)]
    case Fail => []
  }

  /** Everything said during the call that Invoke evaluates, its nested calls included, in order. */
  function InvokeSays(p: Params, locals: map<string, Local>, a: string, caller: string, data: Data, cs: seq<Choice>)
    : seq<Utterance>
    requires locals.Keys == p.agents.Keys
    decreases |cs|, 0
  {
    if cs == [] || a !in p.agents then []
    else
      var (l, act) := p.agents[a].start(locals[a], HopMessage(data), cs[0]);
      Says(a, caller, act) + ThenSays(p, locals[a := l], a, caller, act, cs[1..])
  }

  /** Everything said in that call behind its action `act`. */
  function ThenSays(p: Params, locals: map<string, Local>, a: string, caller: string, act: Action, cs: seq<Choice>)
    : seq<Utterance>
    requires locals.Keys == p.agents.Keys && a in p.agents
    decreases |cs|, 1
  {
    match act
    case Return(_) => []
    case Fail => []
    case FlushSelf(_, k) => WokenSays(p, locals, a, caller, k, None, cs)
    case SendMessage(target, message, k) =>
      var r := Invoke(p, locals, target, MessageData(message), cs);
      InvokeSays(p, locals, target, a, MessageData(message), cs) +
      if r.Returned? then WokenSays(p, r.locals, a, caller, k, Some(r.data), r.rest) else []
  }

  /** Everything said in that call once its suspended invocation goes on. */
  function WokenSays(p: Params, locals: map<string, Local>, a: string, caller: string, k: Cont, data: Option<Data>,
                     cs: seq<Choice>): seq<Utterance>
    requires locals.Keys == p.agents.Keys && a in p.agents
    decreases |cs|, 0
  {
    if cs == [] then []
    else
      var (l, next) := p.agents[a].resume(locals[a], k, data, cs[0]);
      Says(a, caller, next) + ThenSays(p, locals[a := l], a, caller, next, cs[1..])
  }

  /** A call goes to somebody and brings no task along; only answers and flushes do. */
  ghost predicate CallsAreBare(said: seq<Utterance>) {
    forall u :: u in said ==> u.reply || (u.to != "" && u.data.task.None?)
  }

  lemma {:induction false} InvokeSaysBare(p: Params, locals: map<string, Local>, a: string, caller: string,
                                          data: Data, cs: seq<Choice>)
    requires WellFormed(p) && locals.Keys == p.agents.Keys
    ensures CallsAreBare(InvokeSays(p, locals, a, caller, data, cs))
    decreases |cs|, 0
  {
    if cs != [] && a in p.agents {
      var (l, act) := p.agents[a].start(locals[a], HopMessage(data), cs[0]);
      assert NamesTarget(act);
      ThenSaysBare(p, locals[a := l], a, caller, act, cs[1..]);
    }
  }

  lemma {:induction false} ThenSaysBare(p: Params, locals: map<string, Local>, a: string, caller: string,
                                        act: Action, cs: seq<Choice>)
    requires WellFormed(p) && locals.Keys == p.agents.Keys && a in p.agents
    ensures CallsAreBare(ThenSays(p, locals, a, caller, act, cs))
    decreases |cs|, 1
  {
    match act
    case Return(_) =>
    case Fail =>
    case FlushSelf(_, k) => WokenSaysBare(p, locals, a, caller, k, None, cs);
    case SendMessage(target, message, k) =>
      InvokeSaysBare(p, locals, target, a, MessageData(message), cs);
      var r := Invoke(p, locals, target, MessageData(message), cs);
      if r.Returned? {
        WokenSaysBare(p, r.locals, a, caller, k, Some(r.data), r.rest);
      }
  }

  lemma {:induction false} WokenSaysBare(p: Params, locals: map<string, Local>, a: string, caller: string, k: Cont,
                                         data: Option<Data>, cs: seq<Choice>)
    requires WellFormed(p) && locals.Keys == p.agents.Keys && a in p.agents
    ensures CallsAreBare(WokenSays(p, locals, a, caller, k, data, cs))
    decreases |cs|, 0
  {
    if cs != [] {
      var (l, next) := p.agents[a].resume(locals[a], k, data, cs[0]);
      assert NamesTarget(next);
      ThenSaysBare(p, locals[a := l], a, caller, next, cs[1..]);
    }
  }

  // ---------- the relay ----------

  datatype Turn = Turn(agent: string, inputs: seq<Step>, msg: Envelope, out: Envelope)

  function TurnEvents(p: Params, t: Turn): seq<StepEvent> {
    [InputEvent(p.session, t.agent, t.agent, t.inputs),
     OutputEvent(p.session, t.agent, [ReplyStep(t.out)], StatePending),
     OutputEvent(p.session, t.agent, [], StateCompleted)]
  }

  /** The log a sequence of finished turns leaves behind. */
  function TurnLog(p: Params, turns: seq<Turn>): seq<StepEvent> {
    if turns == [] then [] else TurnLog(p, turns[..|turns| - 1]) + TurnEvents(p, turns[|turns| - 1])
  }

  /** What a new turn of `a` is logged with: the conversation so far, then the message. */
  function TurnInputs(log: seq<StepEvent>, a: string, msg: Envelope): seq<Step> {
    HistorySteps(Conv(log, a)) + [UserStep(msg)]
  }

  /** The runtimes as of the last finished turn, the turns, and the envelope in hand. */
  datatype Config = Config(rts: map<string, Runtime>, turns: seq<Turn>, env: Envelope)

  datatype HopItem = HopItem(mint: string, choice: Choice)

  /** A step id no element of `used` equals: longer than every one of them. */
  lemma {:induction false} UnusedIDExists(used: set<string>)
    ensures exists id: string :: id != "" && id !in used
  {
    var n := LongerThanAll(used);
    var id: string := seq(n + 1, _ => 'x');
    assert id != "" && id !in used;
  }

  lemma {:induction false} LongerThanAll(used: set<string>) returns (n: nat)
    ensures forall id :: id in used ==> |id| <= n
  {
    if used == {} {
      n := 0;
    } else {
      var id :| id in used;
      var m := LongerThanAll(used - {id});
      n := if |id| > m then |id| else m;
    }
  }

  predicate UsableID(used: set<string>, id: string) {
    id != "" && id !in used
  }

  /** The id a turn is delivered under: the envelope's own when usable, else the minted one, else a fresh one. */
  ghost function PickID(used: set<string>, own: string, mint: string): (id: string)
    ensures UsableID(used, id)
    ensures UsableID(used, own) ==> id == own
  {
    if UsableID(used, own) then own
    else if UsableID(used, mint) then mint
    else
      UnusedIDExists(used);
      var id :| id != "" && id !in used;
      id
  }

  /** One crash-free hop: the envelope in hand delivered to its recipient as one turn. */
  ghost function RelayHop(p: Params, cfg: Config, h: HopItem): Option<Config> {
    if cfg.env.to !in p.agents || cfg.env.to !in cfg.rts then None
    else
      var a := cfg.env.to;
      var msg := cfg.env.(stepID := PickID(Served(cfg.rts[a]), cfg.env.stepID, h.mint));
      var rt := Route(p.agents[a], a, cfg.rts[a], msg, h.choice);
      if rt.last.value.Err? then None
      else
        var out := rt.last.value.env;
        Some(Config(cfg.rts[a := rt],
                    cfg.turns + [Turn(a, TurnInputs(TurnLog(p, cfg.turns), a, msg), msg, out)],
                    out))
  }

  /** A crash-free run of the relay loop over `hops`. */
  ghost function RelayRun(p: Params, cfg: Config, hops: seq<HopItem>): Option<Config> {
    if hops == [] then Some(cfg)
    else
      match RelayRun(p, cfg, hops[..|hops| - 1])
      case None => None
      case Some(c) => RelayHop(p, c, hops[|hops| - 1])
  }

  function Choices(hops: seq<HopItem>): (cs: seq<Choice>)
    ensures |cs| == |hops|
    ensures forall i :: 0 <= i < |hops| ==> cs[i] == hops[i].choice
  {
    seq(|hops|, i requires 0 <= i < |hops| => hops[i].choice)
  }

  lemma {:induction false} RelayRunSplit(p: Params, cfg: Config, hops: seq<HopItem>, n: nat)
    requires n <= |hops|
    ensures RelayRun(p, cfg, hops) ==
            match RelayRun(p, cfg, hops[..n]) {
              case None => None
              case Some(c) => RelayRun(p, c, hops[n..])
            }
  {
    if n == |hops| {
      assert hops[..n] == hops && hops[n..] == [];
    } else {
      var init := hops[..|hops| - 1];
      RelayRunSplit(p, cfg, init, n);
      assert init[..n] == hops[..n] && init[n..] == hops[n..][..|hops| - n - 1];
    }
  }

  // ---------- the relay computes exactly the recursive calls ----------

  function Said(env: Envelope): Utterance {
    Utterance(env.from, env.to, env.reply, env.data)
  }

  /** What the outputs of finished turns say, one each. */
  function Outs(turns: seq<Turn>): (said: seq<Utterance>)
    ensures |said| == |turns|
  {
    seq(|turns|, i requires 0 <= i < |turns| => Said(turns[i].out))
  }

  /** From `cfg` to `next` the relay's turns have said exactly `said`. */
  ghost predicate Uttered(cfg: Config, next: Config, said: seq<Utterance>) {
    cfg.turns <= next.turns && Outs(next.turns[|cfg.turns|..]) == said
  }

  lemma {:induction false} UtteredOn(cfg: Config, mid: Config, next: Config, said: seq<Utterance>,
                                     more: seq<Utterance>)
    requires Uttered(cfg, mid, said) && Uttered(mid, next, more)
    ensures Uttered(cfg, next, said + more)
  {
    var n, m := |cfg.turns|, |mid.turns|;
    assert mid.turns == next.turns[..m];
    assert next.turns[n..] == mid.turns[n..] + next.turns[m..];
  }

  lemma {:induction false} HopUtters(p: Params, cfg: Config, h: HopItem)
    requires RelayHop(p, cfg, h).Some?
    ensures var next := RelayHop(p, cfg, h).value; Uttered(cfg, next, [Said(next.env)])
  {
    hide Route, TurnLog, TurnInputs, Served;
    var next := RelayHop(p, cfg, h).value;
    assert next.turns[|cfg.turns|..] == [next.turns[|cfg.turns|]];
  }

  function Locals(rts: map<string, Runtime>): map<string, Local> {
    map a | a in rts :: rts[a].local
  }

  function Waiting(rts: map<string, Runtime>): map<string, map<string, Waiter>> {
    map a | a in rts :: rts[a].waiting
  }

  /** Every registered token is the id of a turn its actor has served. */
  ghost predicate TokensServed(p: Params, cfg: Config) {
    && cfg.rts.Keys == p.agents.Keys
    && forall a :: a in cfg.rts ==> cfg.rts[a].waiting.Keys <= Served(cfg.rts[a])
  }

  lemma {:induction false} RouteServed(agent: Agent, id: string, rt: Runtime, cur: Envelope, c: Choice)
    ensures Served(Route(agent, id, rt, cur, c)) == Served(rt) + {cur.stepID}
  {
    var rt' := Route(agent, id, rt, cur, c);
    assert rt'.rounds[|rt.rounds|] == Round(cur, c);
    forall r | r in rt.rounds ensures r in rt'.rounds {
    }
  }

  /** The state right after invocation (from, correlation) of `a` performed `act` in the turn `stepID`. */
  ghost predicate Acted(p: Params, cfg: Config, w: map<string, map<string, Waiter>>, a: string, act: Action,
                        stepID: string, from: string, correlation: string)
  {
    && TokensServed(p, cfg)
    && a in p.agents && !act.Fail?
    && NamesTarget(act)
    && cfg.env == ActionEnvelope(a, act, stepID, from, correlation)
    && w.Keys == p.agents.Keys
    && stepID !in w[a]
    && Waiting(cfg.rts) == w[a := Register(w[a], act, stepID, from, correlation)]
  }

  lemma {:induction false} ActedSays(p: Params, cfg: Config, w: map<string, map<string, Waiter>>, a: string,
                                     act: Action, stepID: string, from: string, correlation: string)
    requires Acted(p, cfg, w, a, act, stepID, from, correlation)
    ensures Says(a, from, act) == [Said(cfg.env)]
  {
  }

  /** The runtime after a round that performed `act` on top of `waiting`. */
  ghost predicate RoundDone(rt': Runtime, a: string, l: Local, waiting: map<string, Waiter>, act: Action,
                            stepID: string, from: string, correlation: string)
  {
    && rt'.local == l && rt'.waiting == Register(waiting, act, stepID, from, correlation)
    && rt'.last == Some(if act.Fail? then Err(InvocationFailed)
                        else Ok(ActionEnvelope(a, act, stepID, from, correlation)))
  }

  lemma {:induction false} SpawnRound(agent: Agent, a: string, rt: Runtime, cur: Envelope, c: Choice)
    requires !cur.reply
    ensures var (l, act) := agent.start(rt.local, HopMessage(cur.data), c);
            RoundDone(Route(agent, a, rt, cur, c), a, l, rt.waiting, act, cur.stepID, cur.from, cur.correlation)
  {
  }

  lemma {:induction false} WakeRound(agent: Agent, a: string, rt: Runtime, cur: Envelope, c: Choice)
    requires cur.reply && cur.correlation in rt.waiting
    ensures var w := rt.waiting[cur.correlation];
            var (l, act) := agent.resume(rt.local, w.k, WakeData(w, cur), c);
            RoundDone(Route(agent, a, rt, cur, c), a, l, rt.waiting - {cur.correlation}, act, cur.stepID, w.from,
                      w.correlation)
  {
  }

  lemma {:induction false} OneRuntime(rts: map<string, Runtime>, a: string, rt: Runtime)
    requires a in rts
    ensures Waiting(rts[a := rt]) == Waiting(rts)[a := rt.waiting]
    ensures Locals(rts[a := rt]) == Locals(rts)[a := rt.local]
    ensures Waiting(rts).Keys == rts.Keys && Waiting(rts)[a] == rts[a].waiting
  {
  }

  /** The hop that delivers `msg`, once its round is known to perform `act` on top of the table `waiting`. */
  lemma {:induction false} HopOfRound(p: Params, cfg: Config, h: HopItem, msg: Envelope, rt: Runtime, l: Local,
                                      waiting: map<string, Waiter>, act: Action, from: string, correlation: string)
    requires TokensServed(p, cfg) && cfg.env.to in p.agents && NamesTarget(act)
    requires var a := cfg.env.to;
             && msg == cfg.env.(stepID := PickID(Served(cfg.rts[a]), cfg.env.stepID, h.mint))
             && rt == Route(p.agents[a], a, cfg.rts[a], msg, h.choice)
             && RoundDone(rt, a, l, waiting, act, msg.stepID, from, correlation)
             && waiting.Keys <= Served(cfg.rts[a])
    ensures var a := cfg.env.to;
            var r := RelayHop(p, cfg, h);
            if act.Fail? then r == None
            else r.Some? && Locals(r.value.rts) == Locals(cfg.rts)[a := l] && r.value.env.stepID == msg.stepID &&
                 Acted(p, r.value, Waiting(cfg.rts)[a := waiting], a, act, msg.stepID, from, correlation)
  {
    hide TurnLog, TurnInputs, Route, Waiting, Locals, Served;
    var a := cfg.env.to;
    RouteServed(p.agents[a], a, cfg.rts[a], msg, h.choice);
    OneRuntime(cfg.rts, a, rt);
    RegisterKeys(waiting, act, msg.stepID, from, correlation);
  }

  lemma {:induction false} RegisterKeys(waiting: map<string, Waiter>, act: Action, stepID: string, from: string,
                                        correlation: string)
    ensures Register(waiting, act, stepID, from, correlation).Keys <= waiting.Keys + {stepID}
  {
  }

  /** What a hop does when its recipient starts a new invocation. */
  lemma {:induction false} SpawnHop(p: Params, cfg: Config, h: HopItem)
    requires WellFormed(p) && TokensServed(p, cfg) && !cfg.env.reply && cfg.env.to in p.agents
    ensures var a := cfg.env.to;
            var (l, act) := p.agents[a].start(cfg.rts[a].local, HopMessage(cfg.env.data), h.choice);
            var r := RelayHop(p, cfg, h);
            if act.Fail? then r == None
            else r.Some? && Locals(r.value.rts) == Locals(cfg.rts)[a := l] &&
                 Acted(p, r.value, Waiting(cfg.rts), a, act, r.value.env.stepID, cfg.env.from, cfg.env.correlation)
  {
    hide RelayHop, Route, Waiting, Locals, Acted, RoundDone;
    var a := cfg.env.to;
    var rt := cfg.rts[a];
    var msg := cfg.env.(stepID := PickID(Served(rt), cfg.env.stepID, h.mint));
    var (l, act) := p.agents[a].start(rt.local, HopMessage(cfg.env.data), h.choice);
    SpawnRound(p.agents[a], a, rt, msg, h.choice);
    HopOfRound(p, cfg, h, msg, Route(p.agents[a], a, rt, msg, h.choice), l, rt.waiting, act, msg.from, msg.correlation);
    OneRuntime(cfg.rts, a, rt);
    assert Waiting(cfg.rts)[a := rt.waiting] == Waiting(cfg.rts);
  }

  /** What a hop does when it wakes the invocation waiting on its token. */
  lemma {:induction false} WakeHop(p: Params, cfg: Config, h: HopItem)
    requires WellFormed(p) && TokensServed(p, cfg)
    requires cfg.env.reply && cfg.env.to in p.agents
    requires cfg.env.correlation in cfg.rts[cfg.env.to].waiting
    ensures var a := cfg.env.to;
            var token := cfg.env.correlation;
            var w := cfg.rts[a].waiting[token];
            var (l, act) := p.agents[a].resume(cfg.rts[a].local, w.k, WakeData(w, cfg.env), h.choice);
            var r := RelayHop(p, cfg, h);
            if act.Fail? then r == None
            else r.Some? && Locals(r.value.rts) == Locals(cfg.rts)[a := l] &&
                 Acted(p, r.value, Waiting(cfg.rts)[a := cfg.rts[a].waiting - {token}], a, act, r.value.env.stepID,
                       w.from, w.correlation)
  {
    hide RelayHop, Route, Waiting, Locals, Acted, RoundDone;
    var a := cfg.env.to;
    var rt := cfg.rts[a];
    var msg := cfg.env.(stepID := PickID(Served(rt), cfg.env.stepID, h.mint));
    var w := rt.waiting[cfg.env.correlation];
    var (l, act) := p.agents[a].resume(rt.local, w.k, WakeData(w, cfg.env), h.choice);
    WakeRound(p.agents[a], a, rt, msg, h.choice);
    HopOfRound(p, cfg, h, msg, Route(p.agents[a], a, rt, msg, h.choice), l, rt.waiting - {cfg.env.correlation}, act,
               w.from, w.correlation);
  }

  /** Running the relay one hop, then the rest. */
  lemma {:induction false} RelayRunHead(p: Params, cfg: Config, hops: seq<HopItem>)
    requires hops != []
    ensures RelayRun(p, cfg, hops) ==
            match RelayHop(p, cfg, hops[0]) {
              case None => None
              case Some(c) => RelayRun(p, c, hops[1..])
            }
  {
    RelayRunSplit(p, cfg, hops, 1);
    assert hops[..1] == [hops[0]];
    assert RelayRun(p, cfg, hops[..1][..0]) == Some(cfg);
  }

  /** The relay, having run a call that returned, holds its reply and has every waiting table back. */
  ghost predicate Replied(p: Params, cfg: Config, w: map<string, map<string, Waiter>>, a: string, from: string,
                          correlation: string, r: Result)
    requires r.Returned?
  {
    && TokensServed(p, cfg)
    && cfg.env == Envelope(a, from, correlation, cfg.env.stepID, true, r.data)
    && Locals(cfg.rts) == r.locals
    && Waiting(cfg.rts) == w
  }

  /**
   * What running `hops` from `cfg` must look like when the direct evaluation gives `r`: a returned call is a
   * reply after exactly as many hops as it consumed choices, a call still going is a relay still going, and a
   * call that never gets an answer is a relay that never gets one. `says` is what is said on the way.
   */
  ghost predicate Agrees(p: Params, cfg: Config, hops: seq<HopItem>, w: map<string, map<string, Waiter>>, a: string,
                         from: string, correlation: string, r: Result, mid: Config, says: seq<Utterance>)
    requires r.Returned? ==> |r.rest| <= |hops|
  {
    match r
    case Returned(_, _, rest) =>
      var n := |hops| - |rest|;
      && rest == Choices(hops)[n..]
      && RelayRun(p, cfg, hops[..n]) == Some(mid)
      && Replied(p, mid, w, a, from, correlation, r)
      && Uttered(cfg, mid, says)
    case Short =>
      var run := RelayRun(p, cfg, hops);
      run.Some? && !IsTerminalReply(run.value.env) && Uttered(cfg, run.value, says)
    case Stuck =>
      RelayRun(p, cfg, hops) == None
  }

  lemma {:induction false} ChoicesTail(hops: seq<HopItem>, n: nat)
    requires n <= |hops|
    ensures Choices(hops)[n..] == Choices(hops[n..])
  {
  }

  /** Prepending the hops that led from `cfg` to `next` keeps the agreement. */
  lemma {:induction false} AgreesPrepend(p: Params, cfg: Config, hops: seq<HopItem>, n: nat, next: Config,
                                         w: map<string, map<string, Waiter>>, a: string, from: string,
                                         correlation: string, r: Result, mid: Config, said: seq<Utterance>,
                                         says: seq<Utterance>)
    requires n <= |hops|
    requires RelayRun(p, cfg, hops[..n]) == Some(next) && Uttered(cfg, next, said)
    requires r.Returned? ==> |r.rest| <= |hops| - n
    requires Agrees(p, next, hops[n..], w, a, from, correlation, r, mid, says)
    ensures Agrees(p, cfg, hops, w, a, from, correlation, r, mid, said + says)
  {
    hide RelayRun, Replied, Choices, Uttered;
    if r.Returned? {
      UtteredOn(cfg, next, mid, said, says);
      RunPrefix(p, cfg, hops, n, next, |hops| - |r.rest|);
      RestIsSuffix(hops, n, |r.rest|);
      assert |hops[n..]| - |r.rest| == |hops| - |r.rest| - n;
    } else {
      RunPrefix(p, cfg, hops, n, next, |hops|);
      assert hops[..|hops|] == hops && hops[n..][..|hops| - n] == hops[n..];
      if r.Short? {
        UtteredOn(cfg, next, RelayRun(p, cfg, hops).value, said, says);
      }
    }
  }

  lemma {:induction false} RunPrefix(p: Params, cfg: Config, hops: seq<HopItem>, n: nat, next: Config, k: nat)
    requires n <= k <= |hops|
    requires RelayRun(p, cfg, hops[..n]) == Some(next)
    ensures RelayRun(p, cfg, hops[..k]) == RelayRun(p, next, hops[n..][..k - n])
  {
    RelayRunSplit(p, cfg, hops[..k], n);
    assert hops[..k][..n] == hops[..n];
    assert hops[..k][n..] == hops[n..][..k - n];
  }

  lemma {:induction false} RestIsSuffix(hops: seq<HopItem>, n: nat, left: nat)
    requires n + left <= |hops|
    ensures Choices(hops[n..])[|hops[n..]| - left..] == Choices(hops)[|hops| - left..]
  {
    ChoicesTail(hops, n);
    assert Choices(hops)[n..][|hops| - n - left..] == Choices(hops)[|hops| - left..];
  }

  lemma {:induction false} InvokeSim(p: Params, cfg: Config, hops: seq<HopItem>) returns (mid: Config)
    requires WellFormed(p) && TokensServed(p, cfg)
    requires !cfg.env.reply && cfg.env.to != ""
    ensures Agrees(p, cfg, hops, Waiting(cfg.rts), cfg.env.to, cfg.env.from, cfg.env.correlation,
                   Invoke(p, Locals(cfg.rts), cfg.env.to, cfg.env.data, Choices(hops)), mid,
                   InvokeSays(p, Locals(cfg.rts), cfg.env.to, cfg.env.from, cfg.env.data, Choices(hops)))
    decreases |hops|, 0
  {
    hide WellFormed;
    mid := cfg;
    var a := cfg.env.to;
    if hops != [] {
      RelayRunHead(p, cfg, hops);
      ChoicesTail(hops, 1);
      if a in p.agents {
        SpawnHop(p, cfg, hops[0]);
        var (l, act) := p.agents[a].start(cfg.rts[a].local, HopMessage(cfg.env.data), hops[0].choice);
        if !act.Fail? {
          var next := RelayHop(p, cfg, hops[0]).value;
          mid := ContinueSim(p, next, hops[1..], Waiting(cfg.rts), a, act, next.env.stepID, cfg.env.from,
                             cfg.env.correlation);
          OneHop(p, cfg, hops);
          HopUtters(p, cfg, hops[0]);
          AgreesPrepend(p, cfg, hops, 1, next, Waiting(cfg.rts), a, cfg.env.from, cfg.env.correlation,
                        Continue(p, Locals(next.rts), a, act, Choices(hops[1..])), mid, [Said(next.env)],
                        ThenSays(p, Locals(next.rts), a, cfg.env.from, act, Choices(hops[1..])));
        }
      }
    }
  }

  lemma {:induction false} OneHop(p: Params, cfg: Config, hops: seq<HopItem>)
    requires hops != []
    ensures RelayRun(p, cfg, hops[..1]) == RelayHop(p, cfg, hops[0])
  {
    assert hops[..1] == [hops[0]] && hops[..1][..0] == [];
  }

  lemma {:induction false} ContinueSim(p: Params, cfg: Config, hops: seq<HopItem>,
                                       w: map<string, map<string, Waiter>>, a: string, act: Action, stepID: string,
                                       from: string, correlation: string) returns (mid: Config)
    requires WellFormed(p) && Acted(p, cfg, w, a, act, stepID, from, correlation)
    ensures Agrees(p, cfg, hops, w, a, from, correlation,
                   Continue(p, Locals(cfg.rts), a, act, Choices(hops)), mid,
                   ThenSays(p, Locals(cfg.rts), a, from, act, Choices(hops)))
    decreases |hops|, 1
  {
    mid := cfg;
    match act
    case Return(_) =>
      assert hops[..0] == [];
    case Fail =>
    case FlushSelf(_, _) =>
      mid := ResumeSim(p, cfg, hops, w, a, act, stepID, from, correlation);
    case SendMessage(target, message, k) =>
      var r := Invoke(p, Locals(cfg.rts), target, MessageData(message), Choices(hops));
      var replied := InvokeSim(p, cfg, hops);
      if r.Returned? {
        var n := |hops| - |r.rest|;
        ChoicesTail(hops, n);
        mid := ResumeSim(p, replied, hops[n..], w, a, act, stepID, from, correlation);
        RelayRunSplit(p, cfg, hops, n);
        AgreesPrepend(p, cfg, hops, n, replied, w, a, from, correlation,
                      Continue(p, Locals(cfg.rts), a, act, Choices(hops)), mid,
                      InvokeSays(p, Locals(cfg.rts), target, a, MessageData(message), Choices(hops)),
                      WokenSays(p, r.locals, a, from, k, Some(r.data), r.rest));
      }
  }

  /** Consuming the one token an action registered restores the table from before it. */
  lemma {:induction false} Unregister(rts: map<string, Runtime>, w: map<string, map<string, Waiter>>, a: string,
                                      act: Action, stepID: string, from: string, correlation: string)
    requires act.SendMessage? || act.FlushSelf?
    requires a in w && a in rts && stepID !in w[a]
    requires Waiting(rts) == w[a := Register(w[a], act, stepID, from, correlation)]
    ensures stepID in rts[a].waiting
    ensures rts[a].waiting[stepID] == Waiter(act.k, act.FlushSelf?, from, correlation)
    ensures Waiting(rts)[a := rts[a].waiting - {stepID}] == w
  {
    assert Waiting(rts)[a] == rts[a].waiting;
    assert rts[a].waiting - {stepID} == w[a];
  }

  /** The suspended invocation's own reply is in hand. */
  ghost predicate Answered(p: Params, cfg: Config, w: map<string, map<string, Waiter>>, a: string, act: Action,
                           stepID: string, from: string, correlation: string)
  {
    && TokensServed(p, cfg)
    && a in p.agents && (act.SendMessage? || act.FlushSelf?)
    && w.Keys == p.agents.Keys && stepID !in w[a]
    && Waiting(cfg.rts) == w[a := Register(w[a], act, stepID, from, correlation)]
    && cfg.env.reply && cfg.env.to == a && cfg.env.correlation == stepID
  }

  /** The next hop wakes exactly that invocation. */
  lemma {:induction false} AnsweredHop(p: Params, cfg: Config, h: HopItem, w: map<string, map<string, Waiter>>,
                                       a: string, act: Action, stepID: string, from: string, correlation: string)
    requires WellFormed(p) && Answered(p, cfg, w, a, act, stepID, from, correlation)
    ensures var data := if act.FlushSelf? then None else Some(cfg.env.data);
            var (l, next) := p.agents[a].resume(cfg.rts[a].local, act.k, data, h.choice);
            var r := RelayHop(p, cfg, h);
            if next.Fail? then r == None
            else r.Some? && Locals(r.value.rts) == Locals(cfg.rts)[a := l] &&
                 Acted(p, r.value, w, a, next, r.value.env.stepID, from, correlation)
  {
    hide RelayHop, WellFormed, Acted, Waiting, Locals, Register;
    Unregister(cfg.rts, w, a, act, stepID, from, correlation);
    WakeHop(p, cfg, h);
  }

  lemma {:induction false} ResumeSim(p: Params, cfg: Config, hops: seq<HopItem>,
                                     w: map<string, map<string, Waiter>>, a: string, act: Action, stepID: string,
                                     from: string, correlation: string) returns (mid: Config)
    requires WellFormed(p) && Answered(p, cfg, w, a, act, stepID, from, correlation)
    ensures Agrees(p, cfg, hops, w, a, from, correlation,
                   AfterReply(p, Locals(cfg.rts), a, act, cfg.env.data, Choices(hops)), mid,
                   WokenSays(p, Locals(cfg.rts), a, from, act.k,
                             if act.FlushSelf? then None else Some(cfg.env.data), Choices(hops)))
    decreases |hops|, 0
  {
    hide RelayHop, Invoke, Waiting, Register, Acted;
    mid := cfg;
    if hops != [] {
      RelayRunHead(p, cfg, hops);
      ChoicesTail(hops, 1);
      AnsweredHop(p, cfg, hops[0], w, a, act, stepID, from, correlation);
      var data := if act.FlushSelf? then None else Some(cfg.env.data);
      var (l, next) := p.agents[a].resume(cfg.rts[a].local, act.k, data, hops[0].choice);
      if !next.Fail? {
        var after := RelayHop(p, cfg, hops[0]).value;
        mid := ContinueSim(p, after, hops[1..], w, a, next, after.env.stepID, from, correlation);
        OneHop(p, cfg, hops);
        ActedSays(p, after, w, a, next, after.env.stepID, from, correlation);
        HopUtters(p, cfg, hops[0]);
        AgreesPrepend(p, cfg, hops, 1, after, w, a, from, correlation,
                      Continue(p, Locals(after.rts), a, next, Choices(hops[1..])), mid, [Said(after.env)],
                      ThenSays(p, Locals(after.rts), a, from, next, Choices(hops[1..])));
      }
    }
  }

  /** The direct evaluation from the moment a suspended invocation's answer is there. */
  function AfterReply(p: Params, locals: map<string, Local>, a: string, act: Action, data: Data, cs: seq<Choice>)
    : (r: Result)
    requires locals.Keys == p.agents.Keys && a in p.agents
    requires act.SendMessage? || act.FlushSelf?
    ensures r.Returned? ==> |r.rest| <= |cs| && r.locals.Keys == p.agents.Keys
  {
    if cs == [] then Short
    else
      var (l, next) := p.agents[a].resume(locals[a], act.k, if act.FlushSelf? then None else Some(data), cs[0]);
      Continue(p, locals[a := l], a, next, cs[1..])
  }
}
