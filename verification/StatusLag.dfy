/** The task's status row over a session's whole run: when it is behind the log, and by which step it fell behind. */
module StatusLag {
  import opened Hop
  import opened Controller
  import opened Relay
  import opened System
  import opened SystemInvariant
  import opened RelayLoop
  import opened Session
  import opened CrashSafety

  /**
   * The protocol's state, the task's row, and the reply that a driver has in hand between committing its turn and
   * recording it. `recorded` keeps, for each finished turn, whether its reply was recorded.
   */
  datatype Ledger = Ledger(sys: Sys, row: TaskRows, due: Option<Envelope>, recorded: seq<bool>)

  datatype Move = Do(l: Label) | Record(lands: bool)

  function Opening(w: World): Ledger
    requires w.p.locals.Keys == w.p.agents.Keys
  {
    Ledger(Init(w), TaskRows("", map[]), None, [])
  }

  /** A step that checkpointd takes itself. */
  predicate ByDriver(l: Label) {
    !(l.DriverCrash? || l.RoundEnds? || l.WorkerCrash? || l.ProcessDies? || l.SuspendEnds?)
  }

  /** The first own Task must carry an id. */
  predicate Recordable(t: TaskRows, env: Envelope, first: string) {
    env.from == first && t.taskID == "" && env.data.kind == DataTask ==>
      env.data.task.Some? && env.data.task.value.id != ""
  }

  /** The step of the protocol that completes a turn. */
  predicate Completes(w: World, r: Ledger, m: Move) {
    m.Do? && !(r.due.Some? && ByDriver(m.l)) && |Take(w, r.sys, m.l).cfg.turns| > |r.sys.cfg.turns|
  }

  /** A driver records the reply to its own message, and that of a turn it completes at a restart, before it goes on. */
  function Next(w: World, r: Ledger, m: Move): Ledger {
    match m
    case Do(l) =>
      if r.due.Some? && ByDriver(l) then r
      else
        var s := Take(w, r.sys, l);
        if Completes(w, r, m) then
          Ledger(s, r.row, if s.driver.Relaying? then Some(s.driver.res) else None, r.recorded + [false])
        else r.(sys := s, due := if l.DriverCrash? then None else r.due)
    case Record(lands) =>
      if r.due.None? || r.recorded == [] then r
      else if lands && Recordable(r.row, r.due.value, w.p.owner) then
        r.(row := Follow(r.row, r.due.value, w.p.owner), due := None, recorded := r.recorded[|r.recorded| - 1 := true])
      else r.(sys := Take(w, r.sys, DriverCrash), due := None)
  }

  function Course(w: World, moves: seq<Move>): Ledger
    requires w.p.locals.Keys == w.p.agents.Keys
  {
    if moves == [] then Opening(w) else Next(w, Course(w, moves[..|moves| - 1]), moves[|moves| - 1])
  }

  // ---------- the row is what has been recorded ----------

  /** The replies that were recorded, in order. */
  function RecordedOuts(turns: seq<Turn>, recorded: seq<bool>): seq<Envelope>
    requires |turns| == |recorded|
  {
    if turns == [] then []
    else
      var n := |turns| - 1;
      RecordedOuts(turns[..n], recorded[..n]) + if recorded[n] then [turns[n].out] else []
  }

  ghost predicate LedgerOK(w: World, r: Ledger)
    requires w.p.locals.Keys == w.p.agents.Keys
  {
    && Inv(w, r.sys)
    && |r.recorded| == |r.sys.cfg.turns|
    && (r.due.Some? ==>
          && r.recorded != [] && !r.recorded[|r.recorded| - 1]
          && r.due.value == r.sys.cfg.turns[|r.recorded| - 1].out
          && r.sys.driver == Relaying(r.due.value))
    && r.row == FollowAll(TaskRows("", map[]), RecordedOuts(r.sys.cfg.turns, r.recorded), w.p.owner)
  }

  /** The one step that finishes a turn, and what it leaves in the driver's hand. */
  lemma {:induction false} TurnsGrow(w: World, s: Sys, l: Label)
    ensures var s' := Take(w, s, l);
            || s'.cfg.turns == s.cfg.turns
            || (l.CommitNext? && |s'.cfg.turns| == |s.cfg.turns| + 1 && s'.cfg.turns[..|s.cfg.turns|] == s.cfg.turns
                && (s'.driver.Relaying? ==> s'.driver.res == s'.cfg.turns[|s.cfg.turns|].out))
  {
    hide PendingOutputs, ExtendSegs, DoStartTurn;
    if l.StartTurn? {
      StartKeepsTurns(w, s, l.fate);
    }
  }

  lemma {:induction false} StartKeepsTurns(w: World, s: Sys, fate: Substrate.Fate)
    ensures DoStartTurn(w, s, fate).cfg == s.cfg
  {
  }

  /** What happens on the actors' side leaves the driver alone. */
  lemma {:induction false} ActorsAside(w: World, s: Sys, l: Label)
    requires !ByDriver(l) && !l.DriverCrash?
    ensures Take(w, s, l).driver == s.driver && Take(w, s, l).cfg == s.cfg
  {
  }

  lemma {:induction false} NextOK(w: World, r: Ledger, m: Move)
    requires ValidWorld(w) && LedgerOK(w, r)
    ensures LedgerOK(w, Next(w, r, m))
  {
    hide Inv, Take, FollowAll;
    match m
    case Do(l) =>
      StepKeeps(w, r.sys, l);
      TurnsGrow(w, r.sys, l);
      if r.due.Some? && !ByDriver(l) && !l.DriverCrash? {
        ActorsAside(w, r.sys, l);
      }
      if Completes(w, r, m) {
        var s := Take(w, r.sys, l);
        assert (r.recorded + [false])[..|r.recorded|] == r.recorded;
        OutsSkip(s.cfg.turns, r.recorded + [false]);
      }
    case Record(lands) =>
      StepKeeps(w, r.sys, DriverCrash);
      CrashOnly(w, r.sys);
      if r.due.Some? && r.recorded != [] {
        OutsRecord(r.sys.cfg.turns, r.recorded);
        FollowAppend(TaskRows("", map[]), RecordedOuts(r.sys.cfg.turns, r.recorded), r.due.value, w.p.owner);
      }
  }

  lemma {:induction false} OutsSkip(turns: seq<Turn>, recorded: seq<bool>)
    requires |turns| == |recorded| > 0 && !recorded[|turns| - 1]
    ensures RecordedOuts(turns, recorded) == RecordedOuts(turns[..|turns| - 1], recorded[..|turns| - 1])
  {
  }

  lemma {:induction false} OutsRecord(turns: seq<Turn>, recorded: seq<bool>)
    requires |turns| == |recorded| > 0 && !recorded[|turns| - 1]
    ensures var n := |turns| - 1;
            RecordedOuts(turns, recorded[n := true]) == RecordedOuts(turns, recorded) + [turns[n].out]
  {
    var n := |turns| - 1;
    assert recorded[n := true][..n] == recorded[..n];
    OutsSkip(turns, recorded);
  }

  lemma {:induction false} CrashOnly(w: World, s: Sys)
    ensures Take(w, s, DriverCrash) == s.(driver := Down)
  {
  }

  lemma {:induction false} CourseOK(w: World, moves: seq<Move>)
    requires ValidWorld(w)
    ensures LedgerOK(w, Course(w, moves))
  {
    hide LedgerOK, Next;
    if moves == [] {
      OpeningOK(w);
    } else {
      CourseOK(w, moves[..|moves| - 1]);
      NextOK(w, Course(w, moves[..|moves| - 1]), moves[|moves| - 1]);
    }
  }

  lemma {:induction false} OpeningOK(w: World)
    requires ValidWorld(w)
    ensures LedgerOK(w, Opening(w))
  {
    InitOK(w);
  }

  // ---------- how a reply goes unrecorded ----------

  /** A due reply is dropped: its driver dies, finds the session unfit to record in, or fails to write. */
  predicate Drops(w: World, r: Ledger, m: Move) {
    r.due.Some? && (m == Do(DriverCrash) || (m.Record? && !(m.lands && Recordable(r.row, r.due.value, w.p.owner))))
  }

  /** Turn `i` is completed on the way to the reply to another message, which is the one the driver records. */
  predicate Overtakes(w: World, r: Ledger, m: Move) {
    Completes(w, r, m) && !Take(w, r.sys, m.l).driver.Relaying?
  }

  /** The `n`-th move is the one that leaves turn `i`'s reply unrecorded. */
  ghost predicate LostAt(w: World, moves: seq<Move>, i: nat, n: nat)
    requires w.p.locals.Keys == w.p.agents.Keys
  {
    n < |moves| &&
    var r := Course(w, moves[..n]);
    || (|r.recorded| == i + 1 && Drops(w, r, moves[n]))
    || (|r.recorded| == i && Overtakes(w, r, moves[n]))
  }

  ghost predicate Lost(w: World, moves: seq<Move>, i: nat)
    requires w.p.locals.Keys == w.p.agents.Keys
  {
    exists n: nat :: LostAt(w, moves, i, n)
  }

  ghost predicate DueNow(r: Ledger, i: nat) {
    r.due.Some? && i + 1 == |r.recorded|
  }

  lemma {:induction false} CourseGrows(w: World, moves: seq<Move>, n: nat)
    requires ValidWorld(w) && n <= |moves|
    ensures |Course(w, moves[..n]).recorded| <= |Course(w, moves).recorded|
  {
    hide Next;
    if n < |moves| {
      var init := moves[..|moves| - 1];
      CourseGrows(w, init, n);
      assert init[..n] == moves[..n];
      NextRecords(w, Course(w, init), moves[|moves| - 1]);
    } else {
      assert moves[..n] == moves;
    }
  }

  /** What one move does to the record. */
  lemma {:induction false} NextRecords(w: World, r: Ledger, m: Move)
    ensures var r' := Next(w, r, m);
            && |r'.recorded| == |r.recorded| + (if Completes(w, r, m) then 1 else 0)
            && (forall i :: 0 <= i < |r.recorded| && !DueNow(r, i) ==> r'.recorded[i] == r.recorded[i])
            && (Completes(w, r, m) ==> !r'.recorded[|r.recorded|] && (r'.due.None? <==> Overtakes(w, r, m)))
            && (r.due.None? && !Completes(w, r, m) ==> r'.due.None?)
  {
    hide Take;
  }

  lemma {:induction false} NextDue(w: World, r: Ledger, m: Move)
    requires r.due.Some? && r.recorded != []
    ensures var r' := Next(w, r, m);
            && !Completes(w, r, m)
            && (Drops(w, r, m) ==> r'.due.None? && r'.recorded == r.recorded)
            && (!Drops(w, r, m) && r'.due.Some? ==> r'.recorded == r.recorded)
            && (!Drops(w, r, m) && r'.due.None? ==> r'.recorded[|r.recorded| - 1])
  {
    hide Take;
    if m.Do? {
      TurnsGrow(w, r.sys, m.l);
    }
  }

  lemma {:induction false} DueHasTurn(w: World, r: Ledger)
    requires w.p.locals.Keys == w.p.agents.Keys && LedgerOK(w, r) && r.due.Some?
    ensures r.recorded != []
  {
  }

  lemma {:induction false} LostEarlier(w: World, moves: seq<Move>, m: Move, i: nat, n: nat)
    requires w.p.locals.Keys == w.p.agents.Keys && n < |moves|
    ensures LostAt(w, moves + [m], i, n) <==> LostAt(w, moves, i, n)
  {
    hide Course;
    assert (moves + [m])[..n] == moves[..n];
  }

  lemma {:induction false} LostNow(w: World, moves: seq<Move>, m: Move, i: nat)
    requires w.p.locals.Keys == w.p.agents.Keys
    ensures var r := Course(w, moves);
            LostAt(w, moves + [m], i, |moves|) <==>
            (|r.recorded| == i + 1 && Drops(w, r, m)) || (|r.recorded| == i && Overtakes(w, r, m))
  {
    hide Course, Drops, Overtakes;
    assert (moves + [m])[..|moves|] == moves;
  }

  lemma {:induction false} LostGrows(w: World, moves: seq<Move>, m: Move, i: nat)
    requires w.p.locals.Keys == w.p.agents.Keys
    ensures var r := Course(w, moves);
            Lost(w, moves + [m], i) <==>
            Lost(w, moves, i) || (|r.recorded| == i + 1 && Drops(w, r, m)) || (|r.recorded| == i && Overtakes(w, r, m))
  {
    hide Course, Drops, Overtakes, LostAt;
    LostNow(w, moves, m, i);
    forall n | 0 <= n < |moves| ensures LostAt(w, moves + [m], i, n) <==> LostAt(w, moves, i, n) {
      LostEarlier(w, moves, m, i, n);
    }
    LostInRange(w, moves, i);
    LostInRange(w, moves + [m], i);
    if Lost(w, moves + [m], i) {
      var n: nat :| LostAt(w, moves + [m], i, n);
      assert n < |moves| ==> LostAt(w, moves, i, n);
    }
    if Lost(w, moves, i) {
      var n: nat :| LostAt(w, moves, i, n);
      assert LostAt(w, moves + [m], i, n);
    }
  }

  lemma {:induction false} LostInRange(w: World, moves: seq<Move>, i: nat)
    requires w.p.locals.Keys == w.p.agents.Keys
    ensures forall n: nat :: LostAt(w, moves, i, n) ==> n < |moves|
  {
  }

  /** Nothing is lost of a turn that is not finished yet. */
  lemma {:induction false} NotLostYet(w: World, moves: seq<Move>, i: nat)
    requires ValidWorld(w) && i >= |Course(w, moves).recorded|
    ensures !Lost(w, moves, i)
  {
    hide Next, Course, Drops;
    if Lost(w, moves, i) {
      var n: nat :| LostAt(w, moves, i, n);
      CourseGrows(w, moves, n);
      CourseGrows(w, moves, n + 1);
      assert moves[..n + 1][..n] == moves[..n] && moves[..n + 1] == moves[..n] + [moves[n]];
      CourseAppend(w, moves[..n], moves[n]);
      NextRecords(w, Course(w, moves[..n]), moves[n]);
    }
  }

  lemma {:induction false} CourseAppend(w: World, moves: seq<Move>, m: Move)
    requires w.p.locals.Keys == w.p.agents.Keys
    ensures Course(w, moves + [m]) == Next(w, Course(w, moves), m)
  {
    hide Next;
    assert (moves + [m])[..|moves|] == moves;
  }

  /**
   * A finished turn's reply is unrecorded if and only if it is about to be recorded, or its driver died or failed between
   * the commit and the record, or the turn was completed on the way to the reply to another message.
   */
  lemma {:induction false} UnrecordedIffLost(w: World, moves: seq<Move>, i: nat)
    requires ValidWorld(w) && i < |Course(w, moves).recorded|
    ensures !Course(w, moves).recorded[i] <==> DueNow(Course(w, moves), i) || Lost(w, moves, i)
    ensures !(DueNow(Course(w, moves), i) && Lost(w, moves, i))
    decreases |moves|
  {
    hide Next, Recordable, Overtakes, LedgerOK, Lost, Take;
    var init, m := moves[..|moves| - 1], moves[|moves| - 1];
    var r := Course(w, init);
    assert init + [m] == moves;
    CourseOK(w, init);
    LostGrows(w, init, m, i);
    NextRecords(w, r, m);
    if r.due.Some? {
      DueHasTurn(w, r);
      NextDue(w, r, m);
    }
    assert Course(w, moves) == Next(w, r, m);
    if i < |r.recorded| {
      UnrecordedIffLost(w, init, i);
    } else {
      NotLostYet(w, init, i);
    }
  }

  // ---------- when the row is behind ----------

  /** The newest finished turn whose reply is the first agent's own. */
  function NewestOwnTurn(turns: seq<Turn>, first: string): Option<nat> {
    if turns == [] then None
    else if turns[|turns| - 1].out.from == first then Some(|turns| - 1)
    else NewestOwnTurn(turns[..|turns| - 1], first)
  }

  function NewestRecorded(turns: seq<Turn>, recorded: seq<bool>, first: string): Option<nat>
    requires |turns| == |recorded|
  {
    if turns == [] then None
    else
      var n := |turns| - 1;
      if recorded[n] && turns[n].out.from == first then Some(n) else NewestRecorded(turns[..n], recorded[..n], first)
  }

  lemma {:induction false} NewestRecordedIs(turns: seq<Turn>, recorded: seq<bool>, first: string)
    requires |turns| == |recorded|
    ensures match NewestRecorded(turns, recorded, first)
            case None => true
            case Some(j) => j < |turns| && recorded[j] && turns[j].out.from == first
    ensures match NewestOwnTurn(turns, first)
            case None => NewestRecorded(turns, recorded, first).None?
            case Some(i) =>
              && i < |turns| && turns[i].out.from == first
              && (recorded[i] ==> NewestRecorded(turns, recorded, first) == Some(i))
              && (NewestRecorded(turns, recorded, first).Some? ==> NewestRecorded(turns, recorded, first).value <= i)
  {
    if turns != [] {
      NewestRecordedIs(turns[..|turns| - 1], recorded[..|turns| - 1], first);
    }
  }

  /** A row that exists shows the newest recorded own reply. */
  lemma {:induction false} RowShowsNewestRecorded(turns: seq<Turn>, recorded: seq<bool>, first: string)
    requires |turns| == |recorded|
    ensures var t := FollowAll(TaskRows("", map[]), RecordedOuts(turns, recorded), first);
            t.taskID != "" ==>
              && NewestRecorded(turns, recorded, first).Some? && NewestRecorded(turns, recorded, first).value < |turns|
              && t.taskID in t.rows
              && t.rows[t.taskID] == ReconstructState(turns[NewestRecorded(turns, recorded, first).value].out)
  {
    hide ReconstructState;
    if turns != [] {
      var n := |turns| - 1;
      RowShowsNewestRecorded(turns[..n], recorded[..n], first);
      if recorded[n] {
        FollowAppend(TaskRows("", map[]), RecordedOuts(turns[..n], recorded[..n]), turns[n].out, first);
      } else {
        OutsSkip(turns, recorded);
      }
    }
  }

  /**
   * In every run, with whatever crashes and failures: a task's row that exists differs from the first agent's newest
   * committed reply if and only if that reply was not recorded and the last one that was recorded says something else.
   */
  lemma {:induction false} RowLagsIff(w: World, moves: seq<Move>)
    requires ValidWorld(w)
    ensures var r := Course(w, moves);
            var turns := r.sys.cfg.turns;
            r.row.taskID != "" ==>
              && |r.recorded| == |turns| && r.row.taskID in r.row.rows
              && var i := NewestOwnTurn(turns, w.p.owner);
                 var j := NewestRecorded(turns, r.recorded, w.p.owner);
                 && i.Some? && j.Some? && j.value <= i.value < |turns|
                 && (r.row.rows[r.row.taskID] != ReconstructState(turns[i.value].out) <==>
                       && !r.recorded[i.value]
                       && ReconstructState(turns[j.value].out) != ReconstructState(turns[i.value].out))
  {
    hide Inv, FollowAll, ReconstructState, Course;
    CourseOK(w, moves);
    var r := Course(w, moves);
    RowShowsNewestRecorded(r.sys.cfg.turns, r.recorded, w.p.owner);
    NewestRecordedIs(r.sys.cfg.turns, r.recorded, w.p.owner);
  }

  /** Turn `i` is the newest of the first agent's own. */
  ghost predicate NewestOwn(turns: seq<Turn>, first: string, i: nat) {
    i < |turns| && turns[i].out.from == first && forall k :: i < k < |turns| ==> turns[k].out.from != first
  }

  lemma {:induction false} NewestOwnIs(turns: seq<Turn>, first: string, i: nat)
    requires NewestOwn(turns, first, i)
    ensures NewestOwnTurn(turns, first) == Some(i)
  {
    if i < |turns| - 1 {
      assert turns[|turns| - 1].out.from != first;
      NewestOwnIs(turns[..|turns| - 1], first, i);
    }
  }

  /**
   * What an existing row says of the first agent's newest reply, once that is recorded: the state of its Task, if it
   * carries one; else Completed if it went to the client and Working if it did not. So the row is Working whenever the
   * agent has just called another one, and terminal only behind a final reply or a Task that says so.
   */
  lemma {:induction false} RowFitsNewestReply(w: World, moves: seq<Move>, i: nat)
    requires ValidWorld(w)
    requires var r := Course(w, moves);
             && r.row.taskID != "" && NewestOwn(r.sys.cfg.turns, w.p.owner, i)
             && i < |r.recorded| && r.recorded[i]
    ensures var r := Course(w, moves);
            && r.row.taskID in r.row.rows
            && var status, out := r.row.rows[r.row.taskID], r.sys.cfg.turns[i].out;
            && StatusFits(status, out)
            && (!out.reply ==> status == Working)
            && (status.Terminal() ==>
                  out.to == "" || (out.data.task.Some? && out.data.task.value.state == status))
  {
    hide Inv, FollowAll, Course, NamesTarget;
    CourseOK(w, moves);
    var r := Course(w, moves);
    RowShowsNewestRecorded(r.sys.cfg.turns, r.recorded, w.p.owner);
    NewestRecordedIs(r.sys.cfg.turns, r.recorded, w.p.owner);
    NewestOwnIs(r.sys.cfg.turns, w.p.owner, i);
    assert r.sys.cfg.turns[i] in r.sys.cfg.turns;
    TurnCallsAreBare(w, r.sys);
  }

  lemma {:induction false} TurnCallsAreBare(w: World, s: Sys)
    requires ValidWorld(w) && Inv(w, s)
    ensures forall t :: t in s.cfg.turns ==> t.out.reply || (t.out.to != "" && t.out.data.task.None?)
  {
    hide ActorsOK, LogOK, OpenOK, DriverOK, SessionRun, NamesTarget;
    SegmentsFromClient(w.p, s.segs);
    forall seg | seg in s.segs ensures FromClient(w.p, seg.ext) {
    }
    SessionCallsAreBare(w.p, s.segs);
  }
}
