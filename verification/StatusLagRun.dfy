/** A run in which the task's row stays behind the log for good: checkpointd dies between a commit and its record. */
module StatusLagRun {
  import opened Hop
  import opened EventLog
  import opened Controller
  import opened Runtime
  import opened Relay
  import opened Session
  import opened Substrate
  import opened System
  import opened FaultFree
  import opened CrashSafety
  import opened RelayLoop
  import opened ViewLimits
  import opened StatusLag

  function Moves(labels: seq<Label>): (moves: seq<Move>)
    ensures |moves| == |labels|
    ensures forall i :: 0 <= i < |moves| ==> moves[i] == Do(labels[i])
  {
    seq(|labels|, i requires 0 <= i < |labels| => Do(labels[i]))
  }

  predicate KeepsTurns(l: Label) {
    !l.CommitNext? && !l.DriverCrash?
  }

  /** With nothing due, steps that complete no turn just happen. */
  lemma {:induction false} PlaysOn(w: World, moves: seq<Move>, labels: seq<Label>)
    requires w.p.locals.Keys == w.p.agents.Keys
    requires Course(w, moves).due.None? && forall l :: l in labels ==> KeepsTurns(l)
    ensures var r := Course(w, moves);
            Course(w, moves + Moves(labels)) == r.(sys := TakeAll(w, r.sys, labels))
    decreases |labels|
  {
    hide Take, Course;
    var r := Course(w, moves);
    if labels == [] {
      assert moves + Moves(labels) == moves;
    } else {
      assert KeepsTurns(labels[0]);
      CourseAppend(w, moves, Do(labels[0]));
      TurnsGrow(w, r.sys, labels[0]);
      PlaysOn(w, moves + [Do(labels[0])], labels[1..]);
      assert moves + Moves(labels) == moves + [Do(labels[0])] + Moves(labels[1..]);
    }
  }

  function BeforeCommit(a: string, id: string, c: Choice): seq<Label> {
    [Send(id), StartTurn(ALL_GOOD), LogIn(true)] + ([Connect, RoundEnds(a, id, c), Receive] + ([SaveState(Lands)] + []))
  }

  lemma {:induction false} TurnSplits(w: World, s: Sys, a: string, id: string, c: Choice)
    ensures TakeAll(w, s, TurnLabels(a, id, c)) ==
            Take(w, Take(w, TakeAll(w, s, BeforeCommit(a, id, c)), CommitNext(true)), CommitNext(true))
  {
    hide Take;
    var second := [Connect, RoundEnds(a, id, c), Receive];
    TakeTurn(w, s, a, id, c);
    TakeThree(w, s, Send(id), StartTurn(ALL_GOOD), LogIn(true), second + ([SaveState(Lands)] + []));
    var s3 := Take(w, Take(w, Take(w, s, Send(id)), StartTurn(ALL_GOOD)), LogIn(true));
    TakeThree(w, s3, Connect, RoundEnds(a, id, c), Receive, [SaveState(Lands)] + []);
    var s6 := Take(w, Take(w, Take(w, s3, Connect), RoundEnds(a, id, c)), Receive);
    TakeOne(w, s6, SaveState(Lands), []);
    TakesAre(w, s, a, id, c);
  }

  lemma {:induction false} TakesAre(w: World, s: Sys, a: string, id: string, c: Choice)
    ensures Take(w, s, Send(id)) == DoSend(s, id)
    ensures forall s :: Take(w, s, StartTurn(ALL_GOOD)) == DoStartTurn(w, s, ALL_GOOD)
    ensures forall s :: Take(w, s, LogIn(true)) == DoLogIn(w, s, true)
    ensures forall s :: Take(w, s, Connect) == DoConnect(s)
    ensures forall s :: Take(w, s, RoundEnds(a, id, c)) == DoRoundEnds(w, s, a, id, c)
    ensures forall s :: Take(w, s, Receive) == DoReceive(s)
    ensures forall s :: Take(w, s, SaveState(Lands)) == DoSaveState(s, Lands)
    ensures forall s :: Take(w, s, CommitNext(true)) == DoCommitNext(w, s, true)
  {
  }

  /**
   * The two appends of a commit, with nothing due before: whichever of them completes the turn, its reply is due
   * then.
   */
  lemma {:induction false} CommitPlays(w: World, moves: seq<Move>, out: Envelope)
    requires w.p.locals.Keys == w.p.agents.Keys && Course(w, moves).due.None?
    requires var s := Course(w, moves).sys;
             var s' := Take(w, Take(w, s, CommitNext(true)), CommitNext(true));
             |s'.cfg.turns| == |s.cfg.turns| + 1 && s'.driver == Relaying(out)
    ensures var r := Course(w, moves);
            Course(w, moves + [Do(CommitNext(true))] + [Do(CommitNext(true))]) ==
            Ledger(Take(w, Take(w, r.sys, CommitNext(true)), CommitNext(true)), r.row, Some(out), r.recorded + [false])
  {
    hide Take, Course;
    var r := Course(w, moves);
    CourseAppend(w, moves, Do(CommitNext(true)));
    CourseAppend(w, moves + [Do(CommitNext(true))], Do(CommitNext(true)));
    var s1 := Take(w, r.sys, CommitNext(true));
    TurnsGrow(w, r.sys, CommitNext(true));
    TurnsGrow(w, s1, CommitNext(true));
    if |s1.cfg.turns| > |r.sys.cfg.turns| {
      AfterTheCommit(w, r.sys);
    }
  }

  /** Once a turn is complete there is nothing left to commit. */
  lemma {:induction false} AfterTheCommit(w: World, s: Sys)
    requires |Take(w, s, CommitNext(true)).cfg.turns| > |s.cfg.turns|
    ensures var s1 := Take(w, s, CommitNext(true)); Take(w, s1, CommitNext(true)) == s1
  {
    hide PendingOutputs, Conv, ExtendSegs;
  }

  /** One turn without a fault, up to its commit: its reply is due. */
  lemma {:induction false} TurnPlays(w: World, moves: seq<Move>, msg: Envelope, c: Choice, out: Envelope)
    returns (moves': seq<Move>)
    requires ValidWorld(w) && Course(w, moves).due.None? && Handed(w, Course(w, moves).sys, msg)
    requires Route(w.p.agents[msg.to], msg.to, Course(w, moves).sys.cfg.rts[msg.to], msg, c).last == Some(Ok(out))
    ensures var r, r' := Course(w, moves), Course(w, moves');
            var a := msg.to;
            var rt := Route(w.p.agents[a], a, r.sys.cfg.rts[a], msg, c);
            && r'.due == Some(out) && r'.recorded == r.recorded + [false] && r'.row == r.row
            && r'.sys.cfg == Config(r.sys.cfg.rts[a := rt],
                                    r.sys.cfg.turns + [Turn(a, TurnInputs(r.sys.log, a, msg), msg, out)], out)
            && r'.sys.open.None? && r'.sys.driver == Relaying(out)
            && forall b :: b in r'.sys.actors ==> AtRest(r'.sys.actors[b])
  {
    hide Take, Course, TakeAll, TurnLabels, Handed, Route, TurnInputs, BeforeCommit;
    var r := Course(w, moves);
    TurnRuns(w, r.sys, msg, c, out);
    TurnSplits(w, r.sys, msg.to, msg.stepID, c);
    OnlyBefore(msg.to, msg.stepID, c);
    PlaysOn(w, moves, BeforeCommit(msg.to, msg.stepID, c));
    KeptTurns(w, r.sys, BeforeCommit(msg.to, msg.stepID, c));
    var before := moves + Moves(BeforeCommit(msg.to, msg.stepID, c));
    CommitPlays(w, before, out);
    moves' := before + [Do(CommitNext(true))] + [Do(CommitNext(true))];
  }

  lemma {:induction false} OnlyBefore(a: string, id: string, c: Choice)
    ensures forall l :: l in BeforeCommit(a, id, c) ==> KeepsTurns(l)
  {
  }

  lemma {:induction false} KeptTurns(w: World, s: Sys, labels: seq<Label>)
    requires forall l :: l in labels ==> KeepsTurns(l)
    ensures TakeAll(w, s, labels).cfg.turns == s.cfg.turns
    decreases |labels|
  {
    hide Take;
    if labels != [] {
      assert KeepsTurns(labels[0]);
      TurnsGrow(w, s, labels[0]);
      KeptTurns(w, Take(w, s, labels[0]), labels[1..]);
    }
  }

  // ---------- the session ----------

  function Asking(l: Local, said: Message, asks: Task, done: Task): World {
    World(Alone(Reports(said, asks, done), l), FirstMessage(said))
  }

  function Reply(id: string, t: Task): Envelope {
    Envelope("owner", "", "", id, true, Data(None, Some(t), DataTask))
  }

  lemma {:induction false} ReportsReply(said: Message, m: Message, asks: Task, done: Task, rt: Runtime, id: string,
                                        c: Choice)
    ensures var rt' := Route(Reports(said, asks, done), "owner", rt, FirstMessage(m).(stepID := id), c);
            && rt'.last == Some(Ok(Reply(id, if m == said then asks else done)))
            && rt'.rounds == rt.rounds + [Round(FirstMessage(m).(stepID := id), c)]
  {
  }

  /** Started, checkpointd holds the session's first message. */
  lemma {:induction false} FirstHanded(w: World, id: string)
    requires ValidWorld(w) && w.bootstrap.stepID == "" && id != ""
    ensures var r := Course(w, [Do(Restart)]);
            && r == Opening(w).(sys := Init(w).(driver := Relaying(w.bootstrap)))
            && Handed(w, r.sys, w.bootstrap.(stepID := id))
  {
    hide SessionRun, ConvsRead, ActorOK;
    assert [Do(Restart)] == [] + [Do(Restart)];
    CourseAppend(w, [], Do(Restart));
    OpeningIs(w);
    CourseOK(w, [Do(Restart)]);
    FirstLegal(w, id);
  }

  lemma {:induction false} OpeningIs(w: World)
    requires w.p.locals.Keys == w.p.agents.Keys
    ensures Course(w, []) == Opening(w)
    ensures Next(w, Opening(w), Do(Restart)) == Opening(w).(sys := Init(w).(driver := Relaying(w.bootstrap)))
  {
  }

  lemma {:induction false} FirstLegal(w: World, id: string)
    requires ValidWorld(w) && w.bootstrap.stepID == "" && id != ""
    ensures LegalNext(w, BootConfig(w.p), w.bootstrap.(stepID := id))
  {
    assert Served(BootConfig(w.p).rts[w.p.owner]) == {};
  }

  /** The log of a session between two turns ends in the newest reply. */
  lemma {:induction false} EndsInReply(w: World, s: Sys)
    requires Inv(w, s) && s.open.None? && s.cfg.turns != []
    ensures s.log != [] && s.log[|s.log| - 1].state == StateCompleted && LastHop(s.log) == Some(s.cfg.env)
  {
    hide SessionRun, ConvsRead, ActorsOK, OpenOK, DriverOK;
  }

  /** The loop ends at a final reply, and a client message starts it again. */
  lemma {:induction false} ClientContinues(w: World, s: Sys, data: Data)
    requires Inv(w, s) && s.open.None? && s.cfg.turns != [] && IsTerminalReply(s.cfg.env) && s.driver ==
        Relaying(s.cfg.env)
    ensures Take(w, Take(w, s, Stop), NextMessage(data)) ==
            s.(driver := Relaying(Envelope("", s.cfg.env.from, "", "", false, data)))
  {
    hide Inv;
    EndsInReply(w, s);
  }

  /** After a crash it starts from the newest reply, and is over at once. */
  lemma {:induction false} RestartsAndStops(w: World, s: Sys)
    requires Inv(w, s) && s.open.None? && s.cfg.turns != [] && IsTerminalReply(s.cfg.env)
    ensures Take(w, Take(w, Take(w, s, DriverCrash), Restart), Stop) == s.(driver := Down)
  {
    hide Inv;
    EndsInReply(w, s);
  }

  /** A second message of the client is a legal one, under any id not yet used. */
  lemma {:induction false} SecondHanded(w: World, moves: seq<Move>, m: Message, id: string)
    requires ValidWorld(w)
    requires var s := Course(w, moves).sys;
             && s.open.None? && s.cfg.turns != [] && IsTerminalReply(s.cfg.env)
             && s.driver == Relaying(FirstMessage(m)) && w.p.owner == "owner"
             && (forall b :: b in s.actors ==> AtRest(s.actors[b]))
             && "owner" in s.cfg.rts && id != "" && id !in Served(s.cfg.rts["owner"])
    ensures Handed(w, Course(w, moves).sys, FirstMessage(m).(stepID := id))
  {
    hide SessionRun, ConvsRead, ActorOK, Course, LogOK, OpenOK, DriverOK;
    CourseOK(w, moves);
  }

  /** What one recorded Task makes of an empty table, and of a row that exists. */
  lemma {:induction false} TaskRecorded(id: string, t: Task)
    requires t.id != "" && t.state == InputRequired
    ensures Recordable(TaskRows("", map[]), Reply(id, t), "owner")
    ensures Follow(TaskRows("", map[]), Reply(id, t), "owner") == TaskRows(t.id, map[t.id := InputRequired])
  {
    assert map[][t.id := InputRequired] == map[t.id := InputRequired];
  }

  /** The first message is answered by a question, and that is recorded. */
  lemma {:induction false} QuestionRecorded(w: World, l: Local, c: Choice, said: Message, asks: Task, done: Task)
    returns (moves: seq<Move>)
    requires w == Asking(l, said, asks, done) && asks.state == InputRequired && asks.id != ""
    ensures ValidWorld(w)
    ensures var r := Course(w, moves);
            && r.due.None? && r.recorded == [true] && r.row == TaskRows(asks.id, map[asks.id := InputRequired])
            && r.sys.cfg.env == Reply("a", asks) && |r.sys.cfg.turns| == 1 && r.sys.cfg.turns[0].out == Reply("a", asks)
            && r.sys.open.None? && r.sys.driver == Relaying(r.sys.cfg.env)
            && "owner" in r.sys.cfg.rts && Served(r.sys.cfg.rts["owner"]) == {"a"}
            && forall b :: b in r.sys.actors ==> AtRest(r.sys.actors[b])
  {
    hide Course, Handed, Route, WellFormed, AtRest, Follow, Recordable;
    AloneIsValid(Reports(said, asks, done), l, said);
    var msg := FirstMessage(said).(stepID := "a");
    FirstHanded(w, "a");
    var base := BootConfig(w.p).rts["owner"];
    ReportsReply(said, said, asks, done, base, "a", c);
    var due := TurnPlays(w, [Do(Restart)], msg, c, Reply("a", asks));
    RouteServed(w.p.agents["owner"], "owner", base, msg, c);
    TaskRecorded("a", asks);
    moves := due + [Record(true)];
    CourseAppend(w, due, Record(true));
  }

  /** The client answers, the task is completed and committed: its reply is due. */
  lemma {:induction false} AnswerCommitted(w: World, l: Local, c: Choice, said: Message, more: Message, asks: Task,
                                           done: Task) returns (moves: seq<Move>)
    requires w == Asking(l, said, asks, done) && asks.state == InputRequired && asks.id != "" && said != more
    ensures ValidWorld(w)
    ensures var r := Course(w, moves);
            && r.due == Some(Reply("b", done)) && r.recorded == [true, false]
            && r.row == TaskRows(asks.id, map[asks.id := InputRequired])
            && r.sys.cfg.env == Reply("b", done) && |r.sys.cfg.turns| == 2 && r.sys.cfg.turns[1].out == Reply("b", done)
            && r.sys.open.None?
  {
    hide Course, Handed, Route, WellFormed, AtRest, Take, LedgerOK, Inv, TurnInputs, Served, Reports;
    var asked := QuestionRecorded(w, l, c, said, asks, done);
    CourseOK(w, asked);
    LedgerIsInv(w, Course(w, asked));
    var continued := asked + [Do(Stop)] + [Do(NextMessage(MessageData(more)))];
    ClientMove(w, asked, more);
    SecondHanded(w, continued, more, "b");
    ReportsReply(said, more, asks, done, Course(w, continued).sys.cfg.rts["owner"], "b", c);
    moves := TurnPlays(w, continued, FirstMessage(more).(stepID := "b"), c, Reply("b", done));
  }

  lemma {:induction false} LedgerIsInv(w: World, r: Ledger)
    requires w.p.locals.Keys == w.p.agents.Keys && LedgerOK(w, r)
    ensures Inv(w, r.sys) && |r.recorded| == |r.sys.cfg.turns|
  {
  }

  /** With nothing due, the loop stops and a client message starts it again. */
  lemma {:induction false} ClientMove(w: World, moves: seq<Move>, m: Message)
    requires ValidWorld(w) && Course(w, moves).due.None?
    requires var s := Course(w, moves).sys;
             && Inv(w, s) && s.open.None? && s.cfg.turns != [] && s.driver == Relaying(s.cfg.env)
             && IsTerminalReply(s.cfg.env) && s.cfg.env.from == "owner"
    ensures var r := Course(w, moves);
            Course(w, moves + [Do(Stop)] + [Do(NextMessage(MessageData(m)))]) ==
            r.(sys := r.sys.(driver := Relaying(FirstMessage(m))))
  {
    hide Course, Inv, Take;
    var s := Course(w, moves).sys;
    ClientContinues(w, s, MessageData(m));
    TurnsGrow(w, s, Stop);
    TurnsGrow(w, Take(w, s, Stop), NextMessage(MessageData(m)));
    CourseAppend(w, moves, Do(Stop));
    CourseAppend(w, moves + [Do(Stop)], Do(NextMessage(MessageData(m))));
  }

  /**
   * A row left behind: the owner asks, which is recorded, the client answers, the owner completes the task and the reply
   * is committed; there checkpointd dies. Restarted, it finds the final reply in the log and stops. Nothing is left to
   * do, the log ends in a completed task, and the row still says that the task waits for input.
   */
  lemma {:induction false} CompletionIsNeverRecorded(l: Local, c: Choice, said: Message, more: Message, asks: Task,
          done: Task) returns (w: World, moves: seq<Move>)
    requires asks.state == InputRequired && asks.id != "" && done.state == Completed && said != more
    ensures ValidWorld(w)
    ensures var r := Course(w, moves);
            && r.sys.driver.Down? && r.due.None? && r.sys.open.None?
            && NewestHop(r.sys.log) == Some(Reply("b", done)) && ReconstructState(Reply("b", done)) == Completed
            && r.row == TaskRows(asks.id, map[asks.id := InputRequired]) && r.recorded == [true, false]
  {
    hide Course, WellFormed, Take, LedgerOK, Inv;
    w := Asking(l, said, asks, done);
    var committed := AnswerCommitted(w, l, c, said, more, asks, done);
    var s := Course(w, committed).sys;
    CourseOK(w, committed);
    LedgerIsInv(w, Course(w, committed));
    RestartsAndStops(w, s);
    EndsInReply(w, s);
    TurnsGrow(w, s, DriverCrash);
    TurnsGrow(w, Take(w, s, DriverCrash), Restart);
    TurnsGrow(w, Take(w, Take(w, s, DriverCrash), Restart), Stop);
    CourseAppend(w, committed, Do(DriverCrash));
    CourseAppend(w, committed + [Do(DriverCrash)], Do(Restart));
    CourseAppend(w, committed + [Do(DriverCrash)] + [Do(Restart)], Do(Stop));
    moves := committed + [Do(DriverCrash)] + [Do(Restart)] + [Do(Stop)];
  }
}
