/** What the task view shows beyond its promise: two short sessions without any fault. */
module ViewLimits {
  import opened Hop
  import opened Runtime
  import opened Relay
  import opened Session
  import opened System
  import opened FaultFree
  import opened TaskView
  import opened TaskPrivacy

  /** A session with one agent, which is its owner. */
  function Alone(agent: Agent, l: Local): Params {
    Params("session", map["owner" := agent], map["owner" := l], "owner")
  }

  function FirstMessage(m: Message): Envelope {
    Envelope("", "owner", "", "", false, MessageData(m))
  }

  lemma {:induction false} AloneIsValid(agent: Agent, l: Local, m: Message)
    requires forall l, m, c :: NamesTarget(agent.start(l, m, c).1)
    requires forall l, k, d, c :: NamesTarget(agent.resume(l, k, d, c).1)
    ensures ValidWorld(World(Alone(agent, l), FirstMessage(m)))
  {
  }

  /** A hop that starts a new invocation of the owner, and the turn it leaves behind. */
  lemma {:induction false} StartsOwner(p: Params, cfg: Config, h: HopItem)
    requires WellFormed(p) && TokensServed(p, cfg) && !cfg.env.reply && cfg.env.to in p.agents
    requires !p.agents[cfg.env.to].start(cfg.rts[cfg.env.to].local, HopMessage(cfg.env.data), h.choice).1.Fail?
    ensures var a := cfg.env.to;
            var (l, act) := p.agents[a].start(cfg.rts[a].local, HopMessage(cfg.env.data), h.choice);
            var r := RelayHop(p, cfg, h);
            && r.Some? && TokensServed(p, r.value)
            && r.value.env == ActionEnvelope(a, act, r.value.env.stepID, cfg.env.from, cfg.env.correlation)
            && AsDeliveries(r.value.turns) ==
               AsDeliveries(cfg.turns) + [Delivery(a, cfg.env.(stepID := r.value.env.stepID), Some(r.value.env))]
  {
    hide TurnLog, TurnInputs, Served, WellFormed;
    SpawnHop(p, cfg, h);
    var a := cfg.env.to;
    var msg := cfg.env.(stepID := PickID(Served(cfg.rts[a]), cfg.env.stepID, h.mint));
    SpawnRound(p.agents[a], a, cfg.rts[a], msg, h.choice);
  }

  /** What a crash-free session shows, once it has been run through. */
  lemma {:induction false} SessionView(w: World, segs: seq<Segment>) returns (s: Sys)
    requires ValidWorld(w) && SessionRun(w.p, segs).Some? && segs != [] && IsBootstrap(w, segs[0].ext)
    requires forall i :: 0 <= i < |segs| ==> segs[i].hops != []
    ensures ReachableWithoutFaults(w, s)
    ensures var ds := AsDeliveries(SessionRun(w.p, segs).value.turns);
            DeliveriesOf(s.log) == ds && Entries(s.log, w.p.owner) == ShownBy(ds, w.p.owner)
  {
    hide Run, ReachableWithoutFaults, SessionRun, NoFaults, DeliveriesOf, Entries, ShownBy, WellFormed;
    var labels := SessionRealized(w, segs);
    CalmRun(w, labels);
    s := Run(w, labels);
    assert Reachable(w, s) by {
      var trace := RunHasTrace(w, labels);
    }
    ViewOfDeliveries(w, s);
    assert AsDeliveries(s.cfg.turns) + [] == AsDeliveries(s.cfg.turns);
  }

  lemma {:induction false} BootHand(p: Params, ext: Envelope)
    requires p.locals.Keys == p.agents.Keys
    ensures TokensServed(p, BootConfig(p).(env := ext))
    ensures AsDeliveries(BootConfig(p).turns) == []
  {
  }

  lemma {:induction false} OneHop(p: Params, cfg: Config, h: HopItem)
    ensures RelayRun(p, cfg, [h]) == RelayHop(p, cfg, h)
  {
    hide RelayHop;
    assert [h][..0] == [];
  }

  lemma {:induction false} TwoHops(p: Params, cfg: Config, h: HopItem)
    requires RelayHop(p, cfg, h).Some?
    ensures RelayRun(p, cfg, [h, h]) == RelayHop(p, RelayHop(p, cfg, h).value, h)
  {
    hide RelayHop;
    OneHop(p, cfg, h);
    assert [h, h][..1] == [h];
  }

  /** One more client message, taken at a final reply. */
  lemma {:induction false} SessionGrows(p: Params, segs: seq<Segment>, seg: Segment)
    requires p.locals.Keys == p.agents.Keys && SessionRun(p, segs).Some?
    requires IsTerminalReply(SessionRun(p, segs).value.env) && FromClient(p, seg.ext)
    ensures SessionRun(p, segs + [seg]) == RelayRun(p, SessionRun(p, segs).value.(env := seg.ext), seg.hops)
  {
    hide RelayRun;
    assert (segs + [seg])[..|segs|] == segs;
  }

  /** An owner that calls itself with `inner` on the client's message, and answers `inner` by `act`. */
  function CallsItself(inner: Message, k: Cont, act: Action): Agent {
    Agent(
      (l, m, _) => (l, if m == Some(inner) then act else SendMessage("owner", inner, k)),
      (l, _, _, _) => (l, Fail))
  }

  /**
   * A private claim in the view: the owner calls itself, and what the inner call returns to it, or reports while it
   * still works, is shown to the client as the task's own status.
   */
  lemma {:induction false} InnerClaimIsShown(l: Local, k: Cont, c: Choice, said: Message, inner: Message,
                                             act: Action) returns (w: World, s: Sys)
    requires said != inner && (act.Return? || act.FlushSelf?) && act.data.task.Some?
    ensures ValidWorld(w) && ReachableWithoutFaults(w, s)
    ensures Entries(s.log, w.p.owner) == [Client(Some(said)), Claim(act.data.task.value)]
    ensures PublicEntries(DeliveriesOf(s.log), w.p.owner) == [Client(Some(said))]
  {
    hide SessionRun, RelayHop, RelayRun, TokensServed, ReachableWithoutFaults, Entries, DeliveriesOf, ShownBy,
        PublicEntries,
         WellFormed;
    AloneIsValid(CallsItself(inner, k, act), l, said);
    var p := Alone(CallsItself(inner, k, act), l);
    var ext, h := FirstMessage(said), HopItem("", c);
    w := World(p, ext);
    var boot := BootConfig(p).(env := ext);
    BootHand(p, ext);
    StartsOwner(p, boot, h);
    var cfg := RelayHop(p, boot, h).value;
    StartsOwner(p, cfg, h);
    TwoHops(p, boot, h);
    BootRun(p);
    var seg := Segment(ext, [h, h]);
    SessionGrows(p, [], seg);
    assert [] + [seg] == [seg];
    s := SessionView(w, [seg]);
    var ds := DeliveriesOf(s.log);
    assert ds == [Delivery("owner", ext.(stepID := ds[0].msg.stepID), ds[0].out), ds[1]];
    TwoDeliveries(ds[0], ds[1], "owner");
  }

  lemma {:induction false} BootRun(p: Params)
    requires p.locals.Keys == p.agents.Keys
    ensures var r := SessionRun(p, []);
            && r == Some(BootConfig(p)) && TokensServed(p, r.value) && IsTerminalReply(r.value.env)
            && AsDeliveries(r.value.turns) == []
  {
  }

  /** Two calls delivered one after the other. */
  lemma {:induction false} TwoDeliveries(d: Delivery, e: Delivery, owner: string)
    requires !d.msg.reply && !e.msg.reply
    ensures ShownBy([d, e], owner) == ClientPart(d.msg) + ClaimPart(d, owner) + ClientPart(e.msg) + ClaimPart(e, owner)
    ensures PublicEntries([d, e], owner) ==
            ClientPart(d.msg) + (if d.msg.from == "" then ClaimPart(d, owner) else []) +
            ClientPart(e.msg) + (if e.msg.from == "" then ClaimPart(e, owner) else [])
  {
    ShownAppends([], d, owner);
    ShownAppends([d], e, owner);
    assert [] + [d] == [d] && [d] + [e] == [d, e];
    assert [d, e][..1] == [d] && [d][..0] == [];
    assert PublicEntries([d], owner) == ClientPart(d.msg) + if d.msg.from == "" then ClaimPart(d, owner) else [];
  }

  /** An owner that answers its first message with `first` and any other with `second`. */
  function Reports(said: Message, first: Task, second: Task): Agent {
    Agent(
      (l, m, _) => (l, Return(Data(None, Some(if m == Some(said) then first else second), DataTask))),
      (l, _, _, _) => (l, Fail))
  }

  /**
   * A history out of order: the owner asks for input, the client gives it, the owner completes. The question is shown
   * behind its own answer, because it enters the history only when the next claim supersedes it.
   */
  lemma {:induction false} AnswerIsShownBeforeQuestion(l: Local, c: Choice, said: Message, more: Message,
          asks: Task, done: Task) returns (w: World, s: Sys)
    requires said != more && asks.state == InputRequired && done.state == Completed
    ensures ValidWorld(w) && ReachableWithoutFaults(w, s)
    ensures var entries := Entries(s.log, w.p.owner);
            && entries == [Client(Some(said)), Claim(asks), Client(Some(more)), Claim(done)]
            && Shown(entries) == [0, 2, 1]
  {
    hide SessionRun, TokensServed, ReachableWithoutFaults, Entries, DeliveriesOf, ShownBy, ClientPart, ClaimPart, Shown,
         PublicEntries, WellFormed, BootConfig;
    AloneIsValid(Reports(said, asks, done), l, said);
    var p := Alone(Reports(said, asks, done), l);
    w := World(p, FirstMessage(said));
    var seg0, seg1 := Segment(FirstMessage(said), [HopItem("", c)]), Segment(FirstMessage(more), [HopItem("", c)]);
    BootRun(p);
    var d0 := OwnerReports(p, l, [], said, said, asks, done, c);
    assert [] + [seg0] == [seg0];
    var d1 := OwnerReports(p, l, [seg0], said, more, asks, done, c);
    assert [seg0] + [seg1] == [seg0, seg1];
    s := SessionView(w, [seg0, seg1]);
    assert DeliveriesOf(s.log) == [d0, d1];
    TwoDeliveries(d0, d1, "owner");
    FourEntries(Client(Some(said)), Claim(asks), Client(Some(more)), Claim(done));
  }

  /** One more message to such an owner: one hop, and one more claim. */
  lemma {:induction false} OwnerReports(p: Params, l: Local, segs: seq<Segment>, said: Message, m: Message,
                                        asks: Task, done: Task, c: Choice) returns (d: Delivery)
    requires p == Alone(Reports(said, asks, done), l) && SessionRun(p, segs).Some?
    requires TokensServed(p, SessionRun(p, segs).value) && IsTerminalReply(SessionRun(p, segs).value.env)
    ensures var r := SessionRun(p, segs + [Segment(FirstMessage(m), [HopItem("", c)])]);
            && r.Some? && TokensServed(p, r.value) && IsTerminalReply(r.value.env)
            && AsDeliveries(r.value.turns) == AsDeliveries(SessionRun(p, segs).value.turns) + [d]
    ensures !d.msg.reply && ClientPart(d.msg) == [Client(Some(m))]
    ensures ClaimPart(d, "owner") == [Claim(if m == said then asks else done)]
  {
    hide SessionRun, RelayHop, RelayRun, TokensServed;
    var cfg, h := SessionRun(p, segs).value.(env := FirstMessage(m)), HopItem("", c);
    StillServed(p, SessionRun(p, segs).value, FirstMessage(m));
    StartsOwner(p, cfg, h);
    OneHop(p, cfg, h);
    SessionGrows(p, segs, Segment(FirstMessage(m), [h]));
    var out := RelayHop(p, cfg, h).value.env;
    d := Delivery("owner", FirstMessage(m).(stepID := out.stepID), Some(out));
  }

  lemma {:induction false} StillServed(p: Params, cfg: Config, ext: Envelope)
    requires TokensServed(p, cfg)
    ensures TokensServed(p, cfg.(env := ext))
  {
  }

  lemma {:induction false} FourEntries(a: Entry, b: Entry, c: Entry, d: Entry)
    requires a.Client? && b.Claim? && c.Client? && d.Claim?
    ensures Shown([a, b, c, d]) == [0, 2, 1]
  {
    assert [] + [a] == [a] && [a] + [b] == [a, b] && [a, b] + [c] == [a, b, c] && [a, b, c] + [d] == [a, b, c, d];
    ShownGrows([], a);
    ShownGrows([a], b);
    ShownGrows([a, b], c);
    ShownGrows([a, b, c], d);
    assert Newest([a]) == None && Newest([a, b, c][..2]) == Some(1);
  }
}
