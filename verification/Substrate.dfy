/** Actors on Agent Substrate: the control API's transitions, and how the harness resumes and checkpoints one. */
module Substrate {
  import opened Hop
  import opened Runtime

  datatype ActorState = Suspended | Running | Resuming | Crashed | Reverting | Suspending | Deleting | Transient

  /** A completed checkpoint: the whole process memory under a name never used before. */
  datatype Snapshot = Snapshot(uri: nat, mem: Memory)

  /** `mem` is None when no live process backs the actor, whatever its state says. */
  datatype Actor = Absent | Actor(state: ActorState, mem: Option<Memory>, snap: Option<Snapshot>, worker: bool)

  /** The snapshot's name, 0 standing for none. */
  function URI(act: Actor): nat {
    if act.Absent? || act.snap.None? then 0 else act.snap.value.uri
  }

  /** What resuming a suspended actor brings back: its snapshot, or a fresh process. */
  function Saved(act: Actor, boot: Memory): Memory {
    if act.Absent? || act.snap.None? then boot else act.snap.value.mem
  }

  // ---------- the control API ----------

  datatype CallFate = Succeeds | Fails | CutShort

  datatype SuspendFate =
    | Lands         // succeeds, and the snapshot advanced
    | Stale         // succeeds, but nothing was recorded
    | Refused       // fails, nothing changed
    | Aborted       // fails, the suspend still running
    | LandsUnseen   // fails, but the snapshot advanced
    | Lost          // fails, and the actor crashed

  function Dead(act: Actor, state: ActorState): Actor
    requires act.Actor?
  {
    Actor(state, None, act.snap, false)
  }

  /** The actor once its memory is recorded under `uri`, if there is a live process to record. */
  function Recorded(act: Actor, uri: nat): Actor
    requires act.Actor?
  {
    Actor(Suspended, None, if act.mem.Some? then Some(Snapshot(uri, act.mem.value)) else act.snap, false)
  }

  function SuspendActor(act: Actor, fate: SuspendFate, uri: nat): (Actor, bool) {
    if act.Absent? then (act, false)
    else if act.state == Suspended then (act, fate == Lands || fate == Stale)
    else if act.state != Running && act.state != Suspending then (act, false)
    else
      match fate
      case Lands => (Recorded(act, uri), true)
      case Stale => (Dead(act, Suspended), true)
      case Refused => (act, false)
      case Aborted => (act.(state := Suspending), false)
      case LandsUnseen => (Recorded(act, uri), false)
      case Lost => (Dead(act, Crashed), false)
  }

  function RevertActor(act: Actor, fate: CallFate): (Actor, bool) {
    if act.Absent? || act.state !in {Running, Crashed, Reverting} then (act, false)
    else
      match fate
      case Succeeds => (Dead(act, Suspended), true)
      case Fails => (act, false)
      case CutShort => (Dead(act, Reverting), false)
  }

  function ResumeActor(act: Actor, boot: Memory, fate: CallFate): (Actor, bool) {
    if act.Absent? || act.state !in {Suspended, Running, Resuming} then (act, false)
    else
      match fate
      case Succeeds =>
        (if act.state == Running then act else Actor(Running, Some(Saved(act, boot)), act.snap, true), true)
      case Fails => (act, false)
      case CutShort => (if act.state == Running then act else Dead(act, Resuming), false)
  }

  /** Deregistering the worker crashes whatever unsuspended actor it hosts. */
  function DeleteWorker(act: Actor, fate: CallFate): (Actor, bool) {
    if fate != Succeeds then (act, false)
    else if act.Absent? || !act.worker || act.state == Suspended then (act, true)
    else (Dead(act, Crashed), true)
  }

  // ---------- the harness ----------

  /** How each control API call of one Start turns out. */
  datatype Fate = Fate(create: CallFate, revert: CallFate, suspend: SuspendFate, release: CallFate,
                       resume: CallFate, healthy: bool)

  /** No call fails and the worker answers. */
  const ALL_GOOD := Fate(Succeeds, Succeeds, Lands, Succeeds, Succeeds, true)

  /** resumeActor: whatever state the actor is in, one attempt at getting it running. */
  function EnsureRunning(act: Actor, boot: Memory, fate: Fate, uri: nat): (Actor, bool) {
    if act.Absent? then
      if fate.create != Succeeds then (act, false)
      else ResumeActor(Actor(Suspended, None, None, false), boot, fate.resume)
    else
      match act.state
      case Suspended => ResumeActor(act, boot, fate.resume)
      case Running => ResumeActor(act, boot, fate.resume)
      case Resuming => ResumeActor(act, boot, fate.resume)
      case Crashed => RevertThenResume(act, boot, fate)
      case Reverting => RevertThenResume(act, boot, fate)
      case Suspending =>
        var (act', ok) := SuspendActor(act, fate.suspend, uri);
        if ok then ResumeActor(act', boot, fate.resume)
        else if fate.suspend == Aborted || !act.worker then (act', false)
        else
          var (released, done) := DeleteWorker(act', fate.release);
          if done then RevertThenResume(released, boot, fate) else (released, false)
      case Deleting => (act, false)
      case Transient => (act, false)
  }

  function RevertThenResume(act: Actor, boot: Memory, fate: Fate): (Actor, bool) {
    var (act', ok) := RevertActor(act, fate.revert);
    if ok then ResumeActor(act', boot, fate.resume) else (act', false)
  }

  /** Start: running and reachable, or the unreachable worker is released and the attempt failed. */
  function Start(act: Actor, boot: Memory, fate: Fate, uri: nat): (Actor, bool) {
    var (act', ok) := EnsureRunning(act, boot, fate, uri);
    if !ok then (act', false)
    else if fate.healthy && act'.Actor? && act'.mem.Some? then (act', true)
    else (DeleteWorker(act', fate.release).0, false)
  }

  /** Checkpoint: a suspend that reports success and whose snapshot is not the one this turn started from. */
  function Checkpoint(act: Actor, pre: nat, fate: SuspendFate, uri: nat): (Actor, bool) {
    var (act', ok) := SuspendActor(act, fate, uri);
    (act', ok && URI(act') != 0 && URI(act') != pre)
  }

  /** A call that records nothing: the snapshot stays, and memory is kept, lost, or brought back from it. */
  ghost predicate Recordless(act: Actor, act': Actor, boot: Memory) {
    && Saved(act', boot) == Saved(act, boot) && URI(act') == URI(act)
    && (act'.Actor? && act'.mem.Some? ==>
          && act'.state in {Running, Suspending}
          && (act'.mem.value == Saved(act, boot) || (act.Actor? && act'.mem == act.mem)))
    && (act'.Actor? && act'.state == Suspending ==> act.Actor? && act.state == Suspending && act'.mem == act.mem)
  }

  /** An interrupted suspend that completed: its own memory is the snapshot now. */
  ghost predicate CompletedSuspend(act: Actor, act': Actor, uri: nat) {
    act.Actor? && act.state == Suspending && act.mem.Some? && act' == Recorded(act, uri)
  }

  ghost predicate LiveOnlyWhenUp(act: Actor) {
    act.Actor? && act.mem.Some? ==> act.state in {Running, Suspending}
  }

  lemma {:induction false} CallsRecordNothing(act: Actor, boot: Memory, fate: CallFate)
    requires LiveOnlyWhenUp(act)
    ensures Recordless(act, RevertActor(act, fate).0, boot)
    ensures Recordless(act, ResumeActor(act, boot, fate).0, boot)
    ensures Recordless(act, DeleteWorker(act, fate).0, boot)
    ensures RevertActor(act, fate).1 ==> RevertActor(act, fate).0.state == Suspended
    ensures var (act', ok) := ResumeActor(act, boot, fate); ok ==> act'.Actor? && act'.state == Running
  {
  }

  lemma {:induction false} SuspendAgain(act: Actor, boot: Memory, fate: SuspendFate, uri: nat)
    requires LiveOnlyWhenUp(act) && act.Actor? && act.state == Suspending
    ensures var act' := SuspendActor(act, fate, uri).0;
            && LiveOnlyWhenUp(act')
            && (Recordless(act, act', boot) || CompletedSuspend(act, act', uri))
  {
  }

  lemma {:induction false} RevertThenResumeRecordsNothing(act: Actor, boot: Memory, fate: Fate)
    requires LiveOnlyWhenUp(act)
    ensures var (act', ok) := RevertThenResume(act, boot, fate);
            Recordless(act, act', boot) && (ok ==> act'.Actor? && act'.state == Running)
  {
    CallsRecordNothing(act, boot, fate.revert);
    CallsRecordNothing(RevertActor(act, fate.revert).0, boot, fate.resume);
  }

  /**
   * Whatever state an actor is found in and however the calls turn out, getting it running discards at most the
   * memory since its snapshot, and moves the snapshot only to the memory of a suspend that was under way.
   */
  lemma {:induction false} EnsureRunningKeepsHistory(act: Actor, boot: Memory, fate: Fate, uri: nat)
    requires LiveOnlyWhenUp(act)
    ensures var (act', ok) := EnsureRunning(act, boot, fate, uri);
            && (Recordless(act, act', boot) ||
                exists mid :: CompletedSuspend(act, mid, uri) && Recordless(mid, act', boot))
            && (ok ==> act'.Actor? && act'.state == Running)
  {
    if act.Absent? {
      CallsRecordNothing(Actor(Suspended, None, None, false), boot, fate.resume);
    } else if act.state in {Suspended, Running, Resuming} {
      CallsRecordNothing(act, boot, fate.resume);
    } else if act.state in {Crashed, Reverting} {
      RevertThenResumeRecordsNothing(act, boot, fate);
    } else if act.state == Suspending {
      SuspendAgain(act, boot, fate.suspend, uri);
      var (mid, ok) := SuspendActor(act, fate.suspend, uri);
      CallsRecordNothing(mid, boot, fate.resume);
      CallsRecordNothing(mid, boot, fate.release);
      var released := DeleteWorker(mid, fate.release).0;
      RevertThenResumeRecordsNothing(released, boot, fate);
      assert Recordless(mid, EnsureRunning(act, boot, fate, uri).0, boot);
    }
  }

  lemma {:induction false} StartKeepsHistory(act: Actor, boot: Memory, fate: Fate, uri: nat)
    requires LiveOnlyWhenUp(act)
    ensures var (act', ok) := Start(act, boot, fate, uri);
            && (Recordless(act, act', boot) ||
                exists mid :: CompletedSuspend(act, mid, uri) && Recordless(mid, act', boot))
            && (ok ==> act'.Actor? && act'.state == Running && act'.mem.Some?)
  {
    EnsureRunningKeepsHistory(act, boot, fate, uri);
    var mid := EnsureRunning(act, boot, fate, uri).0;
    CallsRecordNothing(mid, boot, fate.release);
  }

  /** A checkpoint that reports success recorded exactly the memory the turn left behind. */
  lemma {:induction false} CheckpointRecords(act: Actor, fate: SuspendFate, uri: nat)
    requires uri != 0 && uri != URI(act)
    ensures var (act', ok) := Checkpoint(act, URI(act), fate, uri);
            ok ==> act.Actor? && act.mem.Some? && act' == Recorded(act, uri)
  {
  }

  /** A Start names no snapshot 0 and renames none: the one left is the old one or the new one. */
  lemma {:induction false} StartKeepsNames(act: Actor, boot: Memory, fate: Fate, uri: nat)
    requires act.Actor? && act.snap.Some? ==> act.snap.value.uri != 0
    requires uri != 0
    ensures var act' := Start(act, boot, fate, uri).0; act'.Actor? && act'.snap.Some? ==> act'.snap.value.uri != 0
  {
  }

  // ---------- recovery ----------

  /** A suspend under way fails, but leaves the actor to be crashed by releasing its worker, and reverted. */
  predicate SuspendGivenUp(act: Actor, fate: Fate)
    requires act.Actor?
  {
    act.worker && fate.suspend in {Refused, Lost} && fate.release == Succeeds && fate.revert == Succeeds
  }

  /** Which calls have to succeed to get an actor running, from each state it can be found in. */
  predicate CanRun(act: Actor, fate: Fate) {
    && fate.resume == Succeeds
    && if act.Absent? then fate.create == Succeeds
       else
         match act.state
         case Suspended => true
         case Resuming => true
         case Running => true
         case Crashed => fate.revert == Succeeds
         case Reverting => fate.revert == Succeeds
         case Suspending => fate.suspend in {Lands, Stale} || SuspendGivenUp(act, fate)
         case Deleting => false
         case Transient => false
  }

  /** The actor says it runs, but no process backs it. */
  predicate RunsNothing(act: Actor) {
    act.Actor? && act.state == Running && act.mem.None?
  }

  /** The memory a started actor runs with: its own where a process is kept, else its snapshot, else a fresh one. */
  function StartedWith(act: Actor, boot: Memory, fate: Fate): Memory {
    if act.Actor? && act.mem.Some? && (act.state == Running || (act.state == Suspending && fate.suspend == Lands))
    then act.mem.value
    else if act.Actor? && act.snap.Some? then act.snap.value.mem
    else boot
  }

  /** A Start succeeds exactly then, and its actor is up with that memory; the snapshot moves with a suspend only. */
  lemma {:induction false} StartRecovers(act: Actor, boot: Memory, fate: Fate, uri: nat)
    ensures var (act', ok) := Start(act, boot, fate, uri);
            && (ok <==> CanRun(act, fate) && fate.healthy && !RunsNothing(act))
            && (ok ==>
                  && act'.Actor? && act'.state == Running && act'.mem == Some(StartedWith(act, boot, fate))
                  && (act.Actor? && act.state == Running ==> act' == act)
                  && (act.Absent? || act.state != Running ==> act'.worker)
                  && act'.snap == if act.Absent? then None
                                  else if act.state == Suspending && act.mem.Some? && fate.suspend == Lands
                                  then Some(Snapshot(uri, act.mem.value))
                                  else act.snap)
  {
  }

  /** No deletion is under way, and whatever claims to run has a worker. */
  predicate Recoverable(act: Actor) {
    act.Actor? ==> act.state !in {Deleting, Transient} && (act.state == Running ==> act.worker)
  }

  /**
   * Nothing is lost for good: once calls succeed again and the worker answers, the first or the second Start succeeds.
   * It takes two where the actor claims to run without a process: the first one gives up its worker.
   */
  lemma {:induction false} SecondStartRecovers(act: Actor, boot: Memory, uri: nat, uri': nat)
    requires Recoverable(act)
    ensures var (first, ok) := Start(act, boot, ALL_GOOD, uri);
            && (!ok <==> RunsNothing(act))
            && (!ok ==>
                  && first == Actor(Crashed, None, act.snap, false)
                  && Start(first, boot, ALL_GOOD, uri') ==
                      (Actor(Running, Some(Saved(act, boot)), act.snap, true), true))
  {
  }

  /** A worker that cannot be reached is released, and the next Start comes up from the snapshot elsewhere. */
  lemma {:induction false} UnreachableIsReleased(act: Actor, boot: Memory, fate: Fate, uri: nat, uri': nat)
    requires act.Actor? && act.state == Running && act.worker
    requires fate.resume == Succeeds && fate.release == Succeeds && (!fate.healthy || act.mem.None?)
    ensures Start(act, boot, fate, uri) == (Actor(Crashed, None, act.snap, false), false)
    ensures Start(Start(act, boot, fate, uri).0, boot, ALL_GOOD, uri') ==
            (Actor(Running, Some(if act.snap.Some? then act.snap.value.mem else boot), act.snap, true), true)
  {
  }

  /** However the calls turn out, a Start leaves an actor that a later one can get running. */
  lemma {:induction false} StartStaysRecoverable(act: Actor, boot: Memory, fate: Fate, uri: nat)
    requires Recoverable(act)
    ensures Recoverable(Start(act, boot, fate, uri).0)
  {
  }
}
