/** Whole client sessions of the relay: their recursive-call meaning and their call-stack discipline. */
module Session {
  import opened Hop
  import opened Runtime
  import opened Relay

  /** One message of the external client and the hops relayed on its behalf. */
  datatype Segment = Segment(ext: Envelope, hops: seq<HopItem>)

  const NO_HOP := Envelope("", "", "", "", true, Data(None, None, DataUnspecified))

  function BootConfig(p: Params): Config
    requires p.locals.Keys == p.agents.Keys
  {
    Config(map a | a in p.agents :: Boot(p.locals[a]), [], NO_HOP)
  }

  /** A bootstrap or a continuation: from checkpointd itself, to the owner, answering nothing. */
  predicate FromClient(p: Params, env: Envelope) {
    env.from == "" && env.to == p.owner && !env.reply && env.correlation == ""
  }

  /** The crash-free relay over a session's client messages: the next one is taken only at a final reply. */
  ghost function SessionRun(p: Params, segs: seq<Segment>): Option<Config>
    requires p.locals.Keys == p.agents.Keys
  {
    if segs == [] then Some(BootConfig(p))
    else
      var seg := segs[|segs| - 1];
      match SessionRun(p, segs[..|segs| - 1])
      case None => None
      case Some(c) =>
        if IsTerminalReply(c.env) && FromClient(p, seg.ext) then RelayRun(p, c.(env := seg.ext), seg.hops)
        else None
  }

  /** The same session as plain calls of the owner, one per client message, threading every agent's state. */
  function Serve(p: Params, segs: seq<Segment>): (r: Option<(map<string, Local>, Data)>)
    requires p.locals.Keys == p.agents.Keys
    ensures r.Some? ==> r.value.0.Keys == p.agents.Keys
  {
    if segs == [] then Some((p.locals, NO_HOP.data))
    else
      var seg := segs[|segs| - 1];
      match Serve(p, segs[..|segs| - 1])
      case None => None
      case Some((locals, _)) =>
        match Invoke(p, locals, p.owner, seg.ext.data, Choices(seg.hops))
        case Returned(locals', data, rest) => if rest == [] then Some((locals', data)) else None
        case Short => None
        case Stuck => None
  }

  /** Everything said during those calls, in order. */
  function ServeSays(p: Params, segs: seq<Segment>): seq<Utterance>
    requires p.locals.Keys == p.agents.Keys
  {
    if segs == [] then []
    else
      var init, seg := segs[..|segs| - 1], segs[|segs| - 1];
      match Serve(p, init)
      case None => []
      case Some((locals, _)) =>
        ServeSays(p, init) + InvokeSays(p, locals, p.owner, "", seg.ext.data, Choices(seg.hops))
  }

  ghost predicate NobodyWaits(cfg: Config) {
    forall a :: a in cfg.rts ==> cfg.rts[a].waiting == map[]
  }

  lemma {:induction false} RunPastTheEnd(p: Params, cfg: Config, hops: seq<HopItem>, n: nat)
    requires WellFormed(p) && n < |hops|
    requires RelayRun(p, cfg, hops[..n]).Some?
    requires IsTerminalReply(RelayRun(p, cfg, hops[..n]).value.env)
    ensures RelayRun(p, cfg, hops) == None
  {
    RelayRunSplit(p, cfg, hops, n);
    RelayRunHead(p, RelayRun(p, cfg, hops[..n]).value, hops[n..]);
  }

  lemma {:induction false} EmptyTables(cfg: Config, w: map<string, map<string, Waiter>>)
    requires Waiting(cfg.rts) == w
    ensures NobodyWaits(cfg) <==> forall a :: a in w ==> w[a] == map[]
  {
    forall a | a in cfg.rts ensures Waiting(cfg.rts)[a] == cfg.rts[a].waiting {
    }
    if NobodyWaits(cfg) {
      forall a | a in w ensures w[a] == map[] {
        assert w[a] == cfg.rts[a].waiting;
      }
    } else {
      var a :| a in cfg.rts && cfg.rts[a].waiting != map[];
      assert w[a] != map[];
    }
  }

  /**
   * One client message: the relay ends at a final reply exactly when the direct call returns, and alike; and at every hop
   * its turns have put out exactly what the call has said by then.
   */
  lemma {:induction false} RelayIsCall(p: Params, cfg: Config, hops: seq<HopItem>)
    requires WellFormed(p) && TokensServed(p, cfg) && NobodyWaits(cfg)
    requires FromClient(p, cfg.env)
    ensures var r := Invoke(p, Locals(cfg.rts), p.owner, cfg.env.data, Choices(hops));
            var run := RelayRun(p, cfg, hops);
            && (r.Returned? && r.rest == [] <==> run.Some? && IsTerminalReply(run.value.env))
            && (run.Some? && IsTerminalReply(run.value.env) ==>
                  && TokensServed(p, run.value) && NobodyWaits(run.value)
                  && run.value.env == Envelope(p.owner, "", "", run.value.env.stepID, true, r.data)
                  && Locals(run.value.rts) == r.locals)
            && (run.Some? ==> Uttered(cfg, run.value,
                                      InvokeSays(p, Locals(cfg.rts), p.owner, "", cfg.env.data, Choices(hops))))
  {
    hide RelayHop, InvokeSays, Uttered;
    var r := Invoke(p, Locals(cfg.rts), p.owner, cfg.env.data, Choices(hops));
    var mid := InvokeSim(p, cfg, hops);
    EmptyTables(cfg, Waiting(cfg.rts));
    if r.Returned? {
      EmptyTables(mid, Waiting(cfg.rts));
      if r.rest == [] {
        assert hops[..|hops|] == hops;
      } else {
        RunPastTheEnd(p, cfg, hops, |hops| - |r.rest|);
      }
    }
  }

  lemma {:induction false} OutsOn(turns: seq<Turn>, more: seq<Turn>)
    requires turns <= more
    ensures Outs(more) == Outs(turns) + Outs(more[|turns|..])
  {
  }

  /**
   * A whole session, over every choice its agents make: the relay stands at a final reply exactly when the plain
   * recursive calls all return, and then it carries the same answer and left every agent in the same state. At every hop,
   * in the middle of a call too, the turns' outputs are exactly what those calls have said.
   */
  lemma {:induction false} SessionIsCalls(p: Params, segs: seq<Segment>)
    requires WellFormed(p)
    requires forall seg :: seg in segs ==> FromClient(p, seg.ext)
    ensures var run := SessionRun(p, segs);
            && (Serve(p, segs).Some? <==> run.Some? && IsTerminalReply(run.value.env))
            && (run.Some? && IsTerminalReply(run.value.env) ==>
                  && Serve(p, segs) == Some((Locals(run.value.rts), run.value.env.data))
                  && TokensServed(p, run.value) && NobodyWaits(run.value)
                  && run.value.env.reply && (segs != [] ==> run.value.env.from == p.owner))
            && (run.Some? ==> Outs(run.value.turns) == ServeSays(p, segs))
  {
    hide InvokeSays, Outs;
    if segs == [] {
      assert Locals(BootConfig(p).rts) == p.locals;
    } else {
      var init := segs[..|segs| - 1];
      var seg := segs[|segs| - 1];
      SessionIsCalls(p, init);
      var before := SessionRun(p, init);
      if before.Some? && IsTerminalReply(before.value.env) {
        RelayIsCall(p, before.value.(env := seg.ext), seg.hops);
        if SessionRun(p, segs).Some? {
          OutsOn(before.value.turns, SessionRun(p, segs).value.turns);
        }
      }
    }
  }

  lemma {:induction false} ServeSaysBare(p: Params, segs: seq<Segment>)
    requires WellFormed(p)
    ensures CallsAreBare(ServeSays(p, segs))
  {
    hide InvokeSays, NamesTarget;
    if segs != [] && Serve(p, segs[..|segs| - 1]).Some? {
      var init, seg := segs[..|segs| - 1], segs[|segs| - 1];
      ServeSaysBare(p, init);
      InvokeSaysBare(p, Serve(p, init).value.0, p.owner, "", seg.ext.data, Choices(seg.hops));
    }
  }

  /** In every crash-free session an output that is a call goes to somebody and brings no task along. */
  lemma {:induction false} SessionCallsAreBare(p: Params, segs: seq<Segment>)
    requires WellFormed(p) && SessionRun(p, segs).Some?
    requires forall seg :: seg in segs ==> FromClient(p, seg.ext)
    ensures forall t :: t in SessionRun(p, segs).value.turns ==>
        t.out.reply || (t.out.to != "" && t.out.data.task.None?)
  {
    hide NamesTarget, SessionRun, ServeSays;
    SessionIsCalls(p, segs);
    ServeSaysBare(p, segs);
    var turns := SessionRun(p, segs).value.turns;
    forall t | t in turns ensures t.out.reply || (t.out.to != "" && t.out.data.task.None?) {
      var i :| 0 <= i < |turns| && turns[i] == t;
      assert Outs(turns)[i] in Outs(turns);
    }
  }

  /** What the invocation that a hop runs does next, and the caller it will answer. */
  function Performed(p: Params, cfg: Config, h: HopItem): (Action, string)
    requires cfg.env.to in p.agents && cfg.env.to in cfg.rts
    requires cfg.env.reply ==> cfg.env.correlation in cfg.rts[cfg.env.to].waiting
  {
    var agent, rt := p.agents[cfg.env.to], cfg.rts[cfg.env.to];
    if cfg.env.reply then
      var w := rt.waiting[cfg.env.correlation];
      (agent.resume(rt.local, w.k, WakeData(w, cfg.env), h.choice).1, w.from)
    else (agent.start(rt.local, HopMessage(cfg.env.data), h.choice).1, cfg.env.from)
  }

  /** The plain call of nobody does not return, whatever it was called for. */
  lemma {:induction false} NobodyReturns(p: Params, locals: map<string, Local>, a: string, act: Action,
                                         cs: seq<Choice>)
    requires locals.Keys == p.agents.Keys && a in p.agents && "" !in p.agents && act.SendMessage? && act.target == ""
    ensures !Continue(p, locals, a, act, cs).Returned?
  {
    assert !Invoke(p, locals, "", MessageData(act.message), cs).Returned?;
  }

  /**
   * Why agents must name whom they call: the relay takes any envelope without recipient for the final answer. Any hop of
   * any session ends the relay if and only if its invocation answers the client or calls nobody; in the second case the
   * caller is left waiting, while the plain call does not return.
   */
  lemma {:induction false} CallOfNobodyEndsTheRelay(p: Params, cfg: Config, h: HopItem)
    requires p.locals.Keys == p.agents.Keys && "" !in p.agents && RelayHop(p, cfg, h).Some?
    ensures cfg.env.to in p.agents && cfg.env.to in cfg.rts
    ensures cfg.env.reply ==> cfg.env.correlation in cfg.rts[cfg.env.to].waiting
    ensures var a, next := cfg.env.to, RelayHop(p, cfg, h).value;
            var (act, caller) := Performed(p, cfg, h);
            && (IsTerminalReply(next.env) <==> (act.Return? && caller == "") || (act.SendMessage? && act.target == ""))
            && (act.SendMessage? && act.target == "" ==>
                  && next.env.stepID in next.rts[a].waiting
                  && forall locals: map<string, Local>, cs: seq<Choice> :: locals.Keys == p.agents.Keys ==>
                       !Continue(p, locals, a, act, cs).Returned?)
  {
    hide TurnLog, TurnInputs, Continue, Served;
    var a := cfg.env.to;
    var msg := cfg.env.(stepID := PickID(Served(cfg.rts[a]), cfg.env.stepID, h.mint));
    if cfg.env.reply {
      WakeRound(p.agents[a], a, cfg.rts[a], msg, h.choice);
    } else {
      SpawnRound(p.agents[a], a, cfg.rts[a], msg, h.choice);
    }
    var act := Performed(p, cfg, h).0;
    if act.SendMessage? && act.target == "" {
      forall locals: map<string, Local>, cs: seq<Choice> | locals.Keys == p.agents.Keys
        ensures !Continue(p, locals, a, act, cs).Returned?
      {
        NobodyReturns(p, locals, a, act, cs);
      }
    }
  }

  // ---------- the call stack ----------

  /** A suspended invocation of `agent`, registered under `token`. */
  datatype Frame = Frame(agent: string, token: string, waiter: Waiter)

  /** The waiting table the frames of one agent amount to. */
  function Table(stack: seq<Frame>, a: string): map<string, Waiter> {
    if stack == [] then map[]
    else
      var rest := Table(stack[..|stack| - 1], a);
      var top := stack[|stack| - 1];
      if top.agent == a then rest[top.token := top.waiter] else rest
  }

  /** Each frame was called by the one below it, the bottom one by the client; only the top one may be flushing. */
  ghost predicate Linked(p: Params, stack: seq<Frame>) {
    && (forall i :: 0 <= i < |stack| ==> stack[i].agent in p.agents)
    && (stack != [] ==> stack[0].agent == p.owner && stack[0].waiter.from == "")
    && (forall i :: 0 < i < |stack| ==>
          && stack[i].waiter.from == stack[i - 1].agent
          && stack[i].waiter.correlation == stack[i - 1].token)
    && (forall i, j :: 0 <= i < j < |stack| && stack[i].agent == stack[j].agent ==> stack[i].token != stack[j].token)
  }

  /** The envelope in hand concerns the top of the stack and nothing else. */
  ghost predicate EnvelopeFits(p: Params, stack: seq<Frame>, env: Envelope) {
    if env.reply then
      if stack == [] then env.to == "" && env.from in {p.owner, ""}
      else env.to == stack[|stack| - 1].agent && env.correlation == stack[|stack| - 1].token
    else
      if stack == [] then env.from == "" && env.to == p.owner
      else env.to != "" && env.from == stack[|stack| - 1].agent && env.correlation == stack[|stack| - 1].token
  }

  /** The waiting tables a chain of calls amounts to, over all actors. */
  function Tables(p: Params, stack: seq<Frame>): map<string, map<string, Waiter>> {
    map a | a in p.agents :: Table(stack, a)
  }

  /** Every waiting entry of every actor is a frame of one chain of calls, and the other way round. */
  ghost predicate Chained(p: Params, cfg: Config, stack: seq<Frame>) {
    && TokensServed(p, cfg)
    && Linked(p, stack)
    && EnvelopeFits(p, stack, cfg.env)
    && Waiting(cfg.rts) == Tables(p, stack)
  }

  lemma {:induction false} TableKeys(stack: seq<Frame>, a: string)
    ensures forall t :: t in Table(stack, a) <==>
                        exists i :: 0 <= i < |stack| && stack[i].agent == a && stack[i].token == t
  {
    if stack != [] {
      var init := stack[..|stack| - 1];
      TableKeys(init, a);
      forall t ensures t in Table(stack, a) <==>
                       exists i :: 0 <= i < |stack| && stack[i].agent == a && stack[i].token == t
      {
        if exists i :: 0 <= i < |init| && init[i].agent == a && init[i].token == t {
          var i :| 0 <= i < |init| && init[i].agent == a && init[i].token == t;
          assert stack[i].agent == a;
        }
      }
    }
  }

  lemma {:induction false} TablePush(stack: seq<Frame>, f: Frame, a: string)
    ensures Table(stack + [f], a) == if f.agent == a then Table(stack, a)[f.token := f.waiter] else Table(stack, a)
  {
    assert (stack + [f])[..|stack|] == stack;
  }

  /** Popping the top frame removes exactly its own token. */
  lemma {:induction false} TablePop(p: Params, stack: seq<Frame>, a: string)
    requires stack != [] && Linked(p, stack)
    ensures var top := stack[|stack| - 1];
            var rest := stack[..|stack| - 1];
            && Linked(p, rest)
            && Table(rest, a) == (if top.agent == a then Table(stack, a) - {top.token} else Table(stack, a))
            && (top.agent == a ==> top.token in Table(stack, a) && Table(stack, a)[top.token] == top.waiter)
  {
    TableKeys(stack[..|stack| - 1], a);
  }

  /** A token its agent does not wait on belongs to no frame of that agent. */
  lemma {:induction false} FreshToken(stack: seq<Frame>, f: Frame)
    requires f.token !in Table(stack, f.agent)
    ensures forall i :: 0 <= i < |stack| && stack[i].agent == f.agent ==> stack[i].token != f.token
  {
    TableKeys(stack, f.agent);
  }

  lemma {:induction false} LinkedGrows(p: Params, stack: seq<Frame>, f: Frame)
    requires Linked(p, stack) && f.agent in p.agents
    requires forall i :: 0 <= i < |stack| && stack[i].agent == f.agent ==> stack[i].token != f.token
    requires if stack == [] then f.waiter.from == "" && f.agent == p.owner
             else f.waiter.from == stack[|stack| - 1].agent && f.waiter.correlation == stack[|stack| - 1].token
    ensures Linked(p, stack + [f])
  {
    var s := stack + [f];
    forall i | 0 <= i < |stack| ensures s[i] == stack[i] {
    }
    forall i | 0 < i < |s|
      ensures s[i].waiter.from == s[i - 1].agent && s[i].waiter.correlation == s[i - 1].token
    {
      if i == |stack| {
        assert s[i] == f && s[i - 1] == stack[|stack| - 1];
      }
    }
    forall i, j | 0 <= i < j < |s| && s[i].agent == s[j].agent ensures s[i].token != s[j].token {
      if j == |stack| {
        assert s[j] == f;
      }
    }
  }

  lemma {:induction false} TablesGrow(p: Params, stack: seq<Frame>, f: Frame)
    requires f.agent in p.agents
    ensures Tables(p, stack + [f]) == Tables(p, stack)[f.agent := Table(stack, f.agent)[f.token := f.waiter]]
  {
    hide Table;
    var t := Tables(p, stack)[f.agent := Table(stack, f.agent)[f.token := f.waiter]];
    forall a | a in p.agents ensures Tables(p, stack + [f])[a] == t[a] {
      TablePush(stack, f, a);
    }
  }

  lemma {:induction false} LinkedPush(p: Params, stack: seq<Frame>, f: Frame)
    requires Linked(p, stack) && f.agent in p.agents && f.token !in Table(stack, f.agent)
    requires if stack == [] then f.waiter.from == "" && f.agent == p.owner
             else f.waiter.from == stack[|stack| - 1].agent && f.waiter.correlation == stack[|stack| - 1].token
    ensures Linked(p, stack + [f])
    ensures Tables(p, stack + [f]) == Tables(p, stack)[f.agent := Table(stack, f.agent)[f.token := f.waiter]]
  {
    hide Linked, Table, Tables;
    FreshToken(stack, f);
    LinkedGrows(p, stack, f);
    TablesGrow(p, stack, f);
  }

  /** Popping the top frame, over all actors. */
  lemma {:induction false} TablesPop(p: Params, stack: seq<Frame>)
    requires stack != [] && Linked(p, stack)
    ensures var top := stack[|stack| - 1];
            && Tables(p, stack[..|stack| - 1]) == Tables(p, stack)[top.agent := Table(stack, top.agent) - {top.token}]
            && top.token in Table(stack, top.agent) && Table(stack, top.agent)[top.token] == top.waiter
            && Linked(p, stack[..|stack| - 1])
  {
    hide Table;
    var top := stack[|stack| - 1];
    TablePop(p, stack, top.agent);
    forall a | a in p.agents
      ensures Tables(p, stack[..|stack| - 1])[a] ==
          Tables(p, stack)[top.agent := Table(stack, top.agent) - {top.token}][a]
    {
      TablePop(p, stack, a);
    }
  }

  /** The caller an invocation will answer, seen from the stack it runs on. */
  ghost predicate RunsOn(p: Params, stack: seq<Frame>, a: string, from: string, correlation: string) {
    if stack == [] then from == "" && a == p.owner
    else from == stack[|stack| - 1].agent && correlation == stack[|stack| - 1].token
  }

  /** The stack after the invocation running on top of it performed `act`. */
  function Act(stack: seq<Frame>, a: string, act: Action, stepID: string, from: string, correlation: string)
    : seq<Frame>
  {
    match act
    case Return(_) => stack
    case Fail => stack
    case SendMessage(_, _, k) => stack + [Frame(a, stepID, Waiter(k, false, from, correlation))]
    case FlushSelf(_, k) => stack + [Frame(a, stepID, Waiter(k, true, from, correlation))]
  }

  lemma {:induction false} ChainAct(p: Params, cfg: Config, stack: seq<Frame>, a: string, act: Action,
                                    stepID: string, from: string, correlation: string)
    requires WellFormed(p) && Linked(p, stack) && RunsOn(p, stack, a, from, correlation)
    requires Acted(p, cfg, Tables(p, stack), a, act, stepID, from, correlation)
    ensures Chained(p, cfg, Act(stack, a, act, stepID, from, correlation))
  {
    if act.Return? {
      assert Tables(p, stack)[a := Table(stack, a)] == Tables(p, stack);
      if stack != [] {
        assert stack[|stack| - 1].agent in p.agents;
      }
    } else {
      var f := Frame(a, stepID, Waiter(act.k, act.FlushSelf?, from, correlation));
      LinkedPush(p, stack, f);
    }
  }

  /** A reply finds its own invocation waiting, and it is the one on top. */
  lemma {:induction false} ReplyFindsTop(p: Params, cfg: Config, stack: seq<Frame>)
    requires Chained(p, cfg, stack) && cfg.env.reply && !IsTerminalReply(cfg.env)
    ensures stack != [] && cfg.env.to in p.agents && cfg.env.to in cfg.rts
    ensures cfg.env.correlation in cfg.rts[cfg.env.to].waiting
    ensures cfg.rts[cfg.env.to].waiting[cfg.env.correlation] == stack[|stack| - 1].waiter
    ensures Waiting(cfg.rts)[cfg.env.to := cfg.rts[cfg.env.to].waiting - {cfg.env.correlation}] ==
            Tables(p, stack[..|stack| - 1])
    ensures Linked(p, stack[..|stack| - 1])
  {
    TablesPop(p, stack);
    assert Waiting(cfg.rts)[cfg.env.to] == cfg.rts[cfg.env.to].waiting;
  }

  lemma {:induction false} ChainWake(p: Params, cfg: Config, stack: seq<Frame>, h: HopItem)
    returns (stack': seq<Frame>)
    requires WellFormed(p) && Chained(p, cfg, stack) && !IsTerminalReply(cfg.env) && cfg.env.reply
    ensures RelayHop(p, cfg, h).Some? ==> Chained(p, RelayHop(p, cfg, h).value, stack')
  {
    var a := cfg.env.to;
    ReplyFindsTop(p, cfg, stack);
    WakeHop(p, cfg, h);
    var w := cfg.rts[a].waiting[cfg.env.correlation];
    var rest := stack[..|stack| - 1];
    var (l, act) := p.agents[a].resume(cfg.rts[a].local, w.k, WakeData(w, cfg.env), h.choice);
    stack' := rest;
    if !act.Fail? {
      var next := RelayHop(p, cfg, h).value;
      ChainAct(p, next, rest, a, act, next.env.stepID, w.from, w.correlation);
      stack' := Act(rest, a, act, next.env.stepID, w.from, w.correlation);
    }
  }

  lemma {:induction false} ChainSpawn(p: Params, cfg: Config, stack: seq<Frame>, h: HopItem)
    returns (stack': seq<Frame>)
    requires WellFormed(p) && Chained(p, cfg, stack) && cfg.env.to in p.agents && !cfg.env.reply
    ensures RelayHop(p, cfg, h).Some? ==> Chained(p, RelayHop(p, cfg, h).value, stack')
  {
    var a := cfg.env.to;
    SpawnHop(p, cfg, h);
    var (l, act) := p.agents[a].start(cfg.rts[a].local, HopMessage(cfg.env.data), h.choice);
    stack' := stack;
    if !act.Fail? {
      var next := RelayHop(p, cfg, h).value;
      ChainAct(p, next, stack, a, act, next.env.stepID, cfg.env.from, cfg.env.correlation);
      stack' := Act(stack, a, act, next.env.stepID, cfg.env.from, cfg.env.correlation);
    }
  }

  /** One hop of the relay keeps the chain. */
  lemma {:induction false} ChainHop(p: Params, cfg: Config, stack: seq<Frame>, h: HopItem)
    returns (stack': seq<Frame>)
    requires WellFormed(p) && Chained(p, cfg, stack) && cfg.env.to in p.agents
    ensures RelayHop(p, cfg, h).Some? ==> Chained(p, RelayHop(p, cfg, h).value, stack')
  {
    if cfg.env.reply {
      stack' := ChainWake(p, cfg, stack, h);
    } else {
      stack' := ChainSpawn(p, cfg, stack, h);
    }
  }

  lemma {:induction false} ChainRun(p: Params, cfg: Config, stack: seq<Frame>, hops: seq<HopItem>)
    returns (stack': seq<Frame>)
    requires WellFormed(p) && Chained(p, cfg, stack)
    ensures RelayRun(p, cfg, hops).Some? ==> Chained(p, RelayRun(p, cfg, hops).value, stack')
  {
    stack' := stack;
    if hops != [] {
      var before := RelayRun(p, cfg, hops[..|hops| - 1]);
      stack' := ChainRun(p, cfg, stack, hops[..|hops| - 1]);
      if before.Some? && before.value.env.to in p.agents {
        stack' := ChainHop(p, before.value, stack', hops[|hops| - 1]);
      }
    }
  }

  /** In every crash-free run of a session, at every hop, the suspended invocations form one chain of calls. */
  lemma {:induction false} SessionChained(p: Params, segs: seq<Segment>) returns (stack: seq<Frame>)
    requires WellFormed(p)
    ensures SessionRun(p, segs).Some? ==> Chained(p, SessionRun(p, segs).value, stack)
  {
    stack := [];
    if segs != [] {
      var init := segs[..|segs| - 1];
      var seg := segs[|segs| - 1];
      stack := SessionChained(p, init);
      var before := SessionRun(p, init);
      if before.Some? && IsTerminalReply(before.value.env) && FromClient(p, seg.ext) {
        assert stack == [];
        stack := ChainRun(p, before.value.(env := seg.ext), stack, seg.hops);
      }
    }
  }
}
