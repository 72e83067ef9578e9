/** What a session makes of the messages its client sends: none is invented, altered, repeated or reordered. */
module ClientSide {
  import opened Hop
  import opened EventLog
  import opened Controller
  import opened Runtime
  import opened Relay
  import opened Session
  import opened System
  import opened SystemInvariant
  import opened Durability
  import opened CrashSafety

  /** The client messages of a run, accepted or not, in the order they were sent. */
  function Sent(labels: seq<Label>): seq<Data> {
    if labels == [] then []
    else
      var l := labels[|labels| - 1];
      Sent(labels[..|labels| - 1]) + if l.NextMessage? then [l.data] else []
  }

  /** `part` is `whole` with some elements left out. */
  ghost predicate Subsequence(part: seq<Data>, whole: seq<Data>) {
    if part == [] then true
    else if whole == [] then false
    else
      var p, q := part[..|part| - 1], whole[..|whole| - 1];
      Subsequence(part, q) || (part[|part| - 1] == whole[|whole| - 1] && Subsequence(p, q))
  }

  lemma {:induction false} PrefixOfSubsequence(part: seq<Data>, whole: seq<Data>)
    requires part != [] && Subsequence(part, whole)
    ensures Subsequence(part[..|part| - 1], whole)
  {
    var q := whole[..|whole| - 1];
    var p := part[..|part| - 1];
    if p != [] {
      if Subsequence(part, q) {
        PrefixOfSubsequence(part, q);
      } else {
        assert Subsequence(p, q);
      }
    }
  }

  lemma {:induction false} OneMoreSent(part: seq<Data>, whole: seq<Data>, d: Data)
    requires Subsequence(part, whole)
    ensures Subsequence(part, whole + [d]) && Subsequence(part + [d], whole + [d])
  {
    assert (whole + [d])[..|whole|] == whole;
    assert (part + [d])[..|part|] == part;
  }

  /** The client message the driver has in hand and the log does not show yet. */
  function InHand(s: Sys): (d: seq<Data>)
    ensures |d| <= 1
  {
    match s.driver
    case Down => []
    case Relaying(res) => if res.from == "" then [res.data] else []
    case Turning(job, _) =>
      if job.want.Some? && job.want.value.from == "" && (s.open.None? || s.open.value.msg != job.want.value)
      then [job.want.value.data] else []
  }

  /** The bootstrap first, then only messages that were sent, in order. */
  ghost predicate Faithful(w: World, said: seq<Data>, sent: seq<Data>) {
    said == [] || (said[0] == w.bootstrap.data && Subsequence(said[1..], sent))
  }

  lemma {:induction false} FaithfulPrefix(w: World, said: seq<Data>, d: Data, sent: seq<Data>)
    requires Faithful(w, said + [d], sent)
    ensures Faithful(w, said, sent)
  {
    if said != [] {
      assert (said + [d])[1..] == said[1..] + [d];
      PrefixOfSubsequence(said[1..] + [d], sent);
      assert (said[1..] + [d])[..|said[1..]|] == said[1..];
    }
  }

  lemma {:induction false} FaithfulMore(w: World, said: seq<Data>, sent: seq<Data>, d: Data)
    requires Faithful(w, said, sent) && said != []
    ensures Faithful(w, said, sent + [d]) && Faithful(w, said + [d], sent + [d])
  {
    OneMoreSent(said[1..], sent, d);
    assert (said + [d])[1..] == said[1..] + [d];
  }

  /** A log that is not empty shows the bootstrap at least. */
  lemma {:induction false} LogShowsBootstrap(w: World, s: Sys)
    requires ValidWorld(w) && Inv(w, s) && s.log != []
    ensures ClientSaid(s.log) != []
  {
    hide SessionRun, ActorsOK, DriverOK, ConvsRead, ClientSaid;
    SessionTurnsOK(w.p, s.segs);
    SessionFromOutside(w.p, s.segs);
    LogShowsClient(w.p, s.cfg.turns);
    LogIsTurns(w, s);
    if s.open.None? {
      assert TurnLog(w.p, s.cfg.turns) + [] == s.log;
    } else {
      OpenShows(w, TurnLog(w.p, s.cfg.turns), s.open.value);
      CurrentOfTurn(TurnLog(w.p, s.cfg.turns), s.open.value.agent, s.open.value.msg);
    }
  }

  lemma {:induction false} OpenShows(w: World, log: seq<StepEvent>, o: Open)
    requires o.agent != "" && NewestText(o.inputs) == Json(o.msg)
    ensures ClientSaid(log + OpenLog(w, Some(o))) == ClientSaid(log) + if o.msg.from == "" then [o.msg.data] else []
  {
    var evs := OpenLog(w, Some(o));
    ClientSaidAppend(log, evs[0]);
    if |evs| == 2 {
      ClientSaidAppend(log + [evs[0]], evs[1]);
      assert log + evs == log + [evs[0]] + [evs[1]];
    } else {
      assert evs == [evs[0]];
    }
  }

  /** What the log shows and what is still in hand, together. */
  function SaidAndInHand(s: Sys): seq<Data> {
    ClientSaid(s.log) + InHand(s)
  }

  /** One step that takes no new message adds nothing, and loses at most what was in hand. */
  ghost predicate Carries(w: World, s: Sys, s': Sys) {
    || SaidAndInHand(s') == SaidAndInHand(s)
    || SaidAndInHand(s') == ClientSaid(s.log)
    || (ClientSaid(s.log) == [] && SaidAndInHand(s') == [w.bootstrap.data])
  }

  /** Steps that leave log and open turn alone, and the driver's job with them. */
  lemma {:induction false} SameJobCarries(w: World, s: Sys, s': Sys)
    requires s'.log == s.log && s'.open == s.open
    requires s'.driver == s.driver || s'.driver.Down? ||
             (s.driver.Turning? && s'.driver.Turning? && s'.driver.job == s.driver.job)
    ensures Carries(w, s, s')
  {
  }

  lemma {:induction false} RestartCarries(w: World, s: Sys)
    requires ValidWorld(w) && Inv(w, s)
    ensures Carries(w, s, DoRestart(w, s))
  {
    hide SessionRun, ActorsOK, ConvsRead, TurnLog, OpenLog, LegalNext;
    if s.driver.Down? {
      NewestFromAgent(w, s);
    }
  }

  /** Whatever the newest hop of a closed log is, an agent sent it. */
  lemma {:induction false} NewestFromAgent(w: World, s: Sys)
    requires ValidWorld(w) && Inv(w, s)
    ensures s.log == [] ==> ClientSaid(s.log) == [] && LastHop(s.log) == None
    ensures s.log != [] ==> LastHop(s.log).Some?
    ensures s.log != [] && s.log[|s.log| - 1].state == StateCompleted ==> LastHop(s.log).value.from != ""
    ensures s.cfg.turns != [] ==> s.cfg.env.from != ""
  {
    hide SessionRun, ActorsOK, ConvsRead, OpenOK, DriverOK;
  }

  lemma {:induction false} SendCarries(w: World, s: Sys, mint: string)
    requires ValidWorld(w) && Inv(w, s)
    ensures Carries(w, s, DoSend(s, mint))
  {
    hide SessionRun, ActorsOK, TurnLog, OpenLog, LegalNext, TurnInputs, ClientSaid, EndsAs, CfgOK;
    if s.driver.Relaying? && s.open.Some? {
      var res := s.driver.res;
      ConvAtOwner(w, s, res.to);
    }
  }

  /** The open turn's id is among those its actor's conversation mentions. */
  lemma {:induction false} ConvAtOwner(w: World, s: Sys, a: string)
    requires ValidWorld(w) && Inv(w, s) && s.open.Some?
    ensures s.open.value.agent == a ==> s.open.value.msg.stepID in StepIDs(Conv(s.log, a))
    ensures s.driver.Relaying? ==> s.driver.res.to == w.p.owner == s.open.value.agent
  {
    hide SessionRun, ActorOK, TurnLog, OpenLog, Conv, EndsAs, CfgOK, StateOf, HarnessOf, PendingInputs,
        PendingOutputs, StepIDs;
    if s.open.value.agent == a {
      ConvAt(w, s.log, s.cfg.rts, s.open, a);
    }
    if s.driver.Relaying? {
      LoggedReplyFromOwner(w, s);
    }
  }

  lemma {:induction false} LogInCarries(w: World, s: Sys, lands: bool)
    requires ValidWorld(w) && Inv(w, s)
    ensures Carries(w, s, DoLogIn(w, s, lands))
  {
    hide SessionRun, ActorsOK, TurnLog, OpenLog, LegalNext, EndsAs, CfgOK, ConvsRead, Conv, LogOK;
    if s.driver.Turning? && s.driver.stage.Started? {
      var job := s.driver.job;
      if s.driver.stage.plan.Fresh? {
        CurrentOfTurn(s.log, job.agent, job.want.value);
        ClientSaidAppend(s.log, InputEvent(w.p.session, job.agent, job.agent, job.inputs));
      }
    }
  }

  /** What a landing commit step does to log, open turn and driver. */
  lemma {:induction false} CommitShape(w: World, s: Sys)
    requires ValidWorld(w) && Inv(w, s) && s.driver.Turning? && s.driver.stage.Kept?
    ensures var s' := DoCommitNext(w, s, true);
            var job, out := s.driver.job, s.driver.stage.out;
            && s.open.Some? && out.from == job.agent != "" && out.stepID == s.open.value.msg.stepID
            && if s.open.value.logged.None? then
                 && s'.log == s.log + [OutputEvent(w.p.session, job.agent, [ReplyStep(out)], StatePending)]
                 && s'.open.Some? && s'.open.value.msg == s.open.value.msg && s'.driver == s.driver
               else
                 && s'.log == s.log + [OutputEvent(w.p.session, job.agent, [], StateCompleted)]
                 && s'.open.None?
                 && s'.driver == if job.want.Some? && job.want.value.stepID != out.stepID then Turning(job, Trying)
                                 else Relaying(out)
  {
    hide SessionRun, TurnLog, OpenLog, LegalNext, EndsAs, CfgOK, ConvsRead, Conv, LogOK, ActorOK, Route, TurnInputs,
         StepIDs, ExtendSegs, PendingOutputs;
    var a := s.driver.job.agent;
    KeptAgreesWithLog(w, s);
    ExecutedFacts(w.p, a, s.cfg.rts[a], s.open.value.msg, s.actors[a].snap.value.mem.rt);
  }

  lemma {:induction false} CommitCarries(w: World, s: Sys, lands: bool)
    requires ValidWorld(w) && Inv(w, s)
    ensures Carries(w, s, DoCommitNext(w, s, lands))
  {
    hide Inv, ValidWorld, NewestText;
    if s.driver.Turning? && s.driver.stage.Kept? {
      if lands {
        hide DoCommitNext;
        CommitShape(w, s);
        var a, out := s.driver.job.agent, s.driver.stage.out;
        ClientSaidAppend(s.log, OutputEvent(w.p.session, a, [ReplyStep(out)], StatePending));
        ClientSaidAppend(s.log, OutputEvent(w.p.session, a, [], StateCompleted));
      } else {
        SameJobCarries(w, s, Retry(s));
      }
    }
  }

  lemma {:induction false} StepCarries(w: World, s: Sys, l: Label)
    requires ValidWorld(w) && Inv(w, s) && !l.NextMessage?
    ensures Carries(w, s, Take(w, s, l))
  {
    hide Inv, ValidWorld, Carries;
    match l
    case Restart => RestartCarries(w, s);
    case Send(mint) => SendCarries(w, s, mint);
    case LogIn(lands) => LogInCarries(w, s, lands);
    case CommitNext(lands) => CommitCarries(w, s, lands);
    case _ => SameJobCarries(w, s, Take(w, s, l));
  }

  lemma {:induction false} CarriesFaithful(w: World, s: Sys, s': Sys, sent: seq<Data>)
    requires Faithful(w, SaidAndInHand(s), sent) && Carries(w, s, s')
    ensures Faithful(w, SaidAndInHand(s'), sent)
  {
    hide ClientSaid, InHand, Subsequence;
    if InHand(s) != [] {
      assert InHand(s) == [InHand(s)[0]];
      FaithfulPrefix(w, ClientSaid(s.log), InHand(s)[0], sent);
    } else {
      assert ClientSaid(s.log) + [] == ClientSaid(s.log);
    }
    BootstrapOnly(w, sent);
  }

  lemma {:induction false} BootstrapOnly(w: World, sent: seq<Data>)
    ensures Faithful(w, [w.bootstrap.data], sent)
  {
    assert [w.bootstrap.data][1..] == [];
  }

  lemma {:induction false} NewMessageFaithful(w: World, s: Sys, data: Data, sent: seq<Data>)
    requires ValidWorld(w) && Inv(w, s) && Faithful(w, SaidAndInHand(s), sent)
    ensures Faithful(w, SaidAndInHand(DoNextMessage(s, data)), sent + [data])
  {
    hide Inv, ValidWorld;
    if s.driver.Down? && LastHop(s.log).Some? && IsTerminalReply(LastHop(s.log).value) {
      LogShowsBootstrap(w, s);
      assert SaidAndInHand(s) == ClientSaid(s.log);
      FaithfulMore(w, ClientSaid(s.log), sent, data);
    } else if SaidAndInHand(s) != [] {
      FaithfulMore(w, SaidAndInHand(s), sent, data);
    }
  }

  lemma {:induction false} RunFaithful(w: World, labels: seq<Label>)
    requires ValidWorld(w)
    ensures Faithful(w, SaidAndInHand(Run(w, labels)), Sent(labels))
  {
    hide Take, Faithful, SaidAndInHand, Inv, Carries;
    if labels == [] {
      NothingSaid(w);
    } else {
      var init, l := labels[..|labels| - 1], labels[|labels| - 1];
      RunFaithful(w, init);
      RunKeeps(w, init);
      if l.NextMessage? {
        NewMessageFaithful(w, Run(w, init), l.data, Sent(init));
        TakesMessage(w, Run(w, init), l.data);
      } else {
        StepCarries(w, Run(w, init), l);
        CarriesFaithful(w, Run(w, init), Take(w, Run(w, init), l), Sent(init));
        assert Sent(init) + [] == Sent(init);
      }
    }
  }

  lemma {:induction false} TakesMessage(w: World, s: Sys, data: Data)
    ensures Take(w, s, NextMessage(data)) == DoNextMessage(s, data)
  {
  }

  lemma {:induction false} NothingSaid(w: World)
    requires w.p.locals.Keys == w.p.agents.Keys
    ensures Faithful(w, SaidAndInHand(Init(w)), [])
  {
  }

  /**
   * Across any crashes the log shows the session's bootstrap first, and then only messages its client really sent,
   * each as it was sent, at most as often, and in that order.
   */
  lemma {:induction false} LogIsFaithfulToClient(w: World, trace: seq<Sys>, labels: seq<Label>)
    requires ValidWorld(w) && IsTrace(w, trace, labels)
    ensures Faithful(w, ClientSaid(trace[|labels|].log), Sent(labels))
  {
    hide Run, Faithful, Take;
    var s := trace[|labels|];
    TraceIsRun(w, trace, labels);
    RunFaithful(w, labels);
    if InHand(s) != [] {
      FaithfulPrefix(w, ClientSaid(s.log), InHand(s)[0], Sent(labels));
      assert ClientSaid(s.log) + [InHand(s)[0]] == SaidAndInHand(s);
    } else {
      assert SaidAndInHand(s) == ClientSaid(s.log);
    }
  }
}
