/**
 * Who drives one session, over any number of replicas: database claims and in-process registries, interleaved at
 * one step per SQL statement or lock section.
 */
module Ownership {
  import opened Hop

  datatype SessionState = Running | Terminating | Terminated

  function Rank(st: SessionState): nat {
    match st
    case Running => 0
    case Terminating => 1
    case Terminated => 2
  }

  /** The session's row; an empty owner pod means nobody drives it. */
  datatype Row = Row(state: SessionState, pod: string, uid: string)

  /** How a goroutine came by its claim; a salvage remembers the dead owner and the state it was listed with. */
  datatype Origin = ByStart | ByContinue | ByAdoption(dead: string, listed: SessionState)

  datatype PC =
    // before any claim
    | Creating | ClaimingToContinue | Cancelling | ClaimingToCleanUp | Adopting(dead: string, listed: SessionState)
    // claimed in the database, not yet in the registry
    | Acquiring(origin: Origin) | AwaitingRegistry | GivingBack | Reverting(dead: string)
    // driving: between hops, in one, about to check the row; then tearing down
    | Ready | InHop | Checking | Marking | Finishing(markFailed: bool) | Releasing
    // the row is released, the registry entry is not
    | Released

  /** `began` is the row's state when this goroutine claimed it, `late` its hops started after RUNNING ended. */
  datatype Thread = Thread(uid: string, pc: PC, began: SessionState, late: nat)

  /** `pods` names every process incarnation ever started; the dead among them never run again. */
  datatype State = State(
    row: Option<Row>,
    pods: map<string, string>,
    alive: set<string>,
    registry: map<string, nat>,
    threads: map<nat, Thread>)

  const START := State(None, map[], {}, map[], map[])

  predicate Driving(pc: PC) {
    pc.Ready? || pc.InHop? || pc.Checking? || pc.Marking? || pc.Finishing? || pc.Releasing?
  }

  predicate Holds(pc: PC) {
    Driving(pc) || pc.Acquiring? || pc.AwaitingRegistry? || pc.GivingBack? || pc.Reverting?
  }

  predicate Registered(pc: PC) {
    Driving(pc) || pc.Released?
  }

  // ---------- SQL statements ----------

  /** ClaimSession: only while nobody owns the row. */
  function ClaimSession(row: Row, pod: string, uid: string): (Row, bool) {
    if row.pod == "" then (row.(pod := pod, uid := uid), true) else (row, false)
  }

  /** ClaimOrphanedSession: only while `expected` still owns the row. */
  function ClaimOrphanedSession(row: Row, pod: string, uid: string, expected: string): (Row, bool) {
    if row.uid == expected then (row.(pod := pod, uid := uid), true) else (row, false)
  }

  function ReleaseSession(row: Row): Row {
    row.(pod := "", uid := "")
  }

  function MarkTerminating(row: Row): Row {
    if row.state == Running then row.(state := Terminating) else row
  }

  function TerminateSession(row: Row): Row {
    row.(state := Terminated)
  }

  // ---------- steps ----------

  datatype Op = StartTask | ContinueTask | CancelTask | Adopt(dead: string) | Restamp

  /** How a step turns out; between hops, Ends is a final answer and Fails a pause for the client or an error. */
  datatype How = Succeeds | Fails | Ends

  datatype Label =
    | Boot(uid: string, pod: string)
    | Die(uid: string)
    | Begin(g: nat, uid: string, op: Op)
    | Go(g: nat, how: How)

  function At(s: State, g: nat, pc: PC): State
    requires g in s.threads
  {
    s.(threads := s.threads[g := s.threads[g].(pc := pc)])
  }

  function Gone(s: State, g: nat): State {
    s.(threads := s.threads - {g})
  }

  function DoBoot(s: State, uid: string, pod: string): State {
    if uid == "" || pod == "" || uid in s.pods then s
    else s.(pods := s.pods[uid := pod], alive := s.alive + {uid})
  }

  /** A process takes its goroutines and its registry with it; the row stays as it is. */
  function DoDie(s: State, uid: string): State {
    s.(alive := s.alive - {uid},
       registry := s.registry - {uid},
       threads := map g | g in s.threads && s.threads[g].uid != uid :: s.threads[g])
  }

  /** A new goroutine; an adoption has seen that the row's recorded owner is dead. */
  function DoBegin(s: State, g: nat, uid: string, op: Op): State {
    if g in s.threads || uid !in s.alive then s
    else
      var pc :=
        match op
        case StartTask => if s.row.None? then Some(Creating) else None
        case ContinueTask => if s.row.Some? then Some(ClaimingToContinue) else None
        case CancelTask => if s.row.Some? then Some(Cancelling) else None
        case Adopt(dead) =>
          if s.row.Some? && dead in s.pods && dead !in s.alive && s.row.value.uid == dead
              && s.row.value.state != Terminated
          then Some(Adopting(dead, s.row.value.state)) else None
        case Restamp =>
          // startup resume meeting its own row: the claim changes nothing
          if s.row.Some? && s.row.value.uid == uid && s.row.value.state != Terminated
          then Some(Acquiring(ByAdoption(uid, s.row.value.state))) else None;
      if pc.None? then s
      else s.(threads := s.threads[g := Thread(uid, pc.value, if s.row.Some? then s.row.value.state else Running, 0)])
  }

  /** The goroutine after a claim of the row. */
  function Claimed(s: State, g: nat, r: (Row, bool), pc: PC): State
    requires g in s.threads
  {
    if !r.1 then Gone(s, g)
    else s.(row := Some(r.0), threads := s.threads[g := s.threads[g].(pc := pc, began := r.0.state)])
  }

  function DoGo(s: State, g: nat, how: How): State {
    if g !in s.threads || s.threads[g].uid !in s.pods then s
    else if Holds(s.threads[g].pc) || s.threads[g].pc.Released? then DoHold(s, g, how)
    else DoClaim(s, g, how)
  }

  /** The steps of a goroutine that has no claim on the row yet. */
  function DoClaim(s: State, g: nat, how: How): State
    requires g in s.threads && s.threads[g].uid in s.pods
  {
    var t := s.threads[g];
    var pod := s.pods[t.uid];
    var ok := how == Succeeds;
    if t.pc.Creating? then
      if s.row.Some? || !ok then Gone(s, g) else Claimed(s, g, (Row(Running, pod, t.uid), true), Acquiring(ByStart))
    else if s.row.None? then s
    else if !ok then Gone(s, g)
    else
      var row := s.row.value;
      match t.pc
      case ClaimingToContinue => Claimed(s, g, ClaimSession(row, pod, t.uid), Acquiring(ByContinue))
      case Cancelling => At(s.(row := Some(MarkTerminating(row))), g, ClaimingToCleanUp)
      case ClaimingToCleanUp => Claimed(s, g, ClaimSession(row, pod, t.uid), AwaitingRegistry)
      case Adopting(dead, listed) =>
        Claimed(s, g, ClaimOrphanedSession(row, pod, t.uid, dead), Acquiring(ByAdoption(dead, listed)))
      case _ => s
  }

  /** The steps of a goroutine from its claim to its last release. */
  function DoHold(s: State, g: nat, how: How): State
    requires g in s.threads && s.threads[g].uid in s.pods
  {
    if s.row.None? then s
    else
      var t := s.threads[g];
      var ok := how == Succeeds;
      var row := s.row.value;
      match t.pc
      case Acquiring(origin) => DoAcquire(s, g, origin, ok)
      case AwaitingRegistry => if t.uid in s.registry then s else Enter(s, g, Finishing(false))
      case GivingBack => Gone(s.(row := Some(ReleaseSession(row))), g)
      case Reverting(dead) =>
        if dead !in s.pods then s
        else Gone(s.(row := Some(ClaimOrphanedSession(row, s.pods[dead], dead, t.uid).0)), g)
      case Ready => if ok then StartHop(s, g) else At(s, g, if how == Ends then Marking else Releasing)
      case InHop => At(s, g, if ok then Checking else Releasing)
      case Checking =>
        At(s, g, if !ok then Releasing else if row.state == Terminating then Finishing(false) else Ready)
      case Marking => DoMark(s, g, ok)
      case Finishing(_) => At(if ok then s.(row := Some(TerminateSession(row))) else s, g, Releasing)
      case Releasing => At(s.(row := Some(ReleaseSession(row))), g, Released)
      case Released => Gone(s.(registry := s.registry - {t.uid}), g)
      case _ => s
  }

  /** registry.acquire succeeded: from here on the goroutine drives. */
  function Enter(s: State, g: nat, pc: PC): State
    requires g in s.threads
  {
    At(s.(registry := s.registry[s.threads[g].uid := g]), g, pc)
  }

  /** A busy registry: a continuation gives its claim back, an adoption panics. `ok` is loading the session. */
  function DoAcquire(s: State, g: nat, origin: Origin, ok: bool): State
    requires g in s.threads
  {
    var t := s.threads[g];
    match origin
    case ByStart => if t.uid in s.registry then Gone(s, g) else Enter(s, g, Ready)
    case ByContinue => if t.uid in s.registry then At(s, g, GivingBack) else Enter(s, g, Ready)
    case ByAdoption(dead, listed) =>
      if !ok then At(s, g, Reverting(dead))
      else if t.uid in s.registry then (if dead == t.uid then Gone(s, g) else DoDie(s, t.uid))
      else Enter(s, g, if listed == Terminating then Finishing(false) else Ready)
  }

  function StartHop(s: State, g: nat): State
    requires g in s.threads && s.row.Some?
  {
    var t := s.threads[g];
    s.(threads := s.threads[g := t.(pc := InHop, late := t.late + if s.row.value.state == Running then 0 else 1)])
  }

  /** A finished session is marked before it is torn down, best effort. */
  function DoMark(s: State, g: nat, ok: bool): State
    requires g in s.threads && s.row.Some?
  {
    if ok then At(s.(row := Some(MarkTerminating(s.row.value))), g, Finishing(false))
    else At(s, g, Finishing(true))
  }

  function Take(s: State, l: Label): State {
    match l
    case Boot(uid, pod) => DoBoot(s, uid, pod)
    case Die(uid) => DoDie(s, uid)
    case Begin(g, uid, op) => DoBegin(s, g, uid, op)
    case Go(g, how) => DoGo(s, g, how)
  }

  function Run(labels: seq<Label>): State {
    if labels == [] then START else Take(Run(labels[..|labels| - 1]), labels[|labels| - 1])
  }

  // ---------- the invariant ----------

  ghost predicate PodsOK(s: State) {
    && s.alive <= s.pods.Keys
    && forall uid :: uid in s.pods ==> uid != "" && s.pods[uid] != ""
  }

  /** The row names an incarnation with its own pod, or nobody. */
  ghost predicate RowOK(s: State) {
    s.row.Some? ==>
      if s.row.value.uid == "" then s.row.value.pod == ""
      else s.row.value.uid in s.pods && s.row.value.pod == s.pods[s.row.value.uid]
  }

  /** A goroutine's own view of things is right. */
  ghost predicate ThreadOK(s: State, g: nat)
    requires g in s.threads
  {
    var t := s.threads[g];
    && t.uid in s.alive && t.uid in s.pods
    // whoever holds the claim owns the row
    && (Holds(t.pc) ==> s.row.Some? && s.row.value.uid == t.uid && s.row.value.pod == s.pods[t.uid])
    // its registry entry is its own
    && (Registered(t.pc) ==> t.uid in s.registry && s.registry[t.uid] == g)
    // an adopted owner is dead
    && (t.pc.Adopting? ==> t.pc.dead in s.pods && t.pc.dead !in s.alive)
    && (t.pc.Reverting? ==> t.pc.dead in s.pods && t.pc.dead !in s.alive)
    && (t.pc.Acquiring? && t.pc.origin.ByAdoption? ==> t.pc.origin.dead in s.pods && t.pc.origin.dead !in s.alive)
    && (t.pc.Acquiring? && t.pc.origin.ByStart? ==> s.registry == map[])
    && (!t.pc.Creating? ==> s.row.Some?)
  }

  ghost predicate Inv(s: State) {
    && PodsOK(s) && RowOK(s)
    && (forall g :: g in s.threads ==> ThreadOK(s, g))
    && (forall g, h :: g in s.threads && h in s.threads && Holds(s.threads[g].pc) && Holds(s.threads[h].pc) ==> g == h)
    && (forall uid :: uid in s.registry ==>
          && s.registry[uid] in s.threads
          && s.threads[s.registry[uid]].uid == uid && Registered(s.threads[s.registry[uid]].pc))
    && (s.row.None? ==> s.registry == map[])
  }

  predicate NoRestamp(l: Label) {
    l.Begin? ==> !l.op.Restamp?
  }

  lemma {:induction false} BootKeeps(s: State, uid: string, pod: string)
    requires Inv(s)
    ensures Inv(DoBoot(s, uid, pod))
  {
    var s' := DoBoot(s, uid, pod);
    forall g | g in s'.threads ensures ThreadOK(s', g) {
      assert ThreadOK(s, g);
    }
  }

  lemma {:induction false} DieKeeps(s: State, uid: string)
    requires Inv(s)
    ensures Inv(DoDie(s, uid))
  {
    var s' := DoDie(s, uid);
    forall g | g in s'.threads ensures ThreadOK(s', g) {
      assert ThreadOK(s, g);
    }
  }

  lemma {:induction false} BeginKeeps(s: State, g: nat, uid: string, op: Op)
    requires Inv(s) && !op.Restamp?
    ensures Inv(DoBegin(s, g, uid, op))
  {
    var s' := DoBegin(s, g, uid, op);
    forall h | h in s'.threads ensures ThreadOK(s', h) {
      assert h in s.threads ==> ThreadOK(s, h);
    }
  }

  /** A goroutine that ends without holding or being registered leaves everything in order. */
  lemma {:induction false} GoneKeeps(s: State, g: nat)
    requires Inv(s) && g in s.threads && !Registered(s.threads[g].pc)
    ensures Inv(Gone(s, g))
  {
    var s' := Gone(s, g);
    forall h | h in s'.threads ensures ThreadOK(s', h) {
      assert ThreadOK(s, h);
    }
  }

  /** Nobody holds a row that is nobody's, or a dead process's. */
  lemma {:induction false} UnownedIsUnheld(s: State)
    requires Inv(s) && s.row.Some?
    requires s.row.value.pod == "" || s.row.value.uid !in s.alive
    ensures forall g :: g in s.threads ==> !Holds(s.threads[g].pc)
  {
    forall g | g in s.threads ensures !Holds(s.threads[g].pc) {
      assert ThreadOK(s, g);
    }
  }

  lemma {:induction false} ClaimKeeps(s: State, g: nat, row: Row, pc: PC)
    requires Inv(s) && g in s.threads && !Registered(s.threads[g].pc) && !Holds(s.threads[g].pc)
    requires forall h :: h in s.threads ==> !Holds(s.threads[h].pc)
    requires s.threads[g].uid in s.pods && row.uid == s.threads[g].uid && row.pod == s.pods[row.uid]
    requires pc.AwaitingRegistry? || pc.Acquiring?
    requires pc.Acquiring? && pc.origin.ByStart? ==> s.registry == map[]
    requires pc.Acquiring? && pc.origin.ByAdoption? ==> pc.origin.dead in s.pods && pc.origin.dead !in s.alive
    ensures Inv(Claimed(s, g, (row, true), pc))
  {
    var s' := Claimed(s, g, (row, true), pc);
    assert ThreadOK(s, g);
    forall h | h in s'.threads ensures ThreadOK(s', h) {
      assert ThreadOK(s, h);
    }
  }

  /** Moving on while keeping or dropping the claim, the row's state changing or not. */
  lemma {:induction false} MoveKeeps(s: State, g: nat, st: SessionState, pc: PC)
    requires Inv(s) && g in s.threads && s.row.Some?
    requires Holds(pc) ==> Holds(s.threads[g].pc)
    requires Registered(pc) <==> Registered(s.threads[g].pc)
    requires !pc.Creating? && !pc.Adopting? && !pc.Acquiring?
    requires pc.Reverting? ==> pc.dead in s.pods && pc.dead !in s.alive
    ensures Inv(At(s.(row := Some(s.row.value.(state := st))), g, pc))
  {
    var s' := At(s.(row := Some(s.row.value.(state := st))), g, pc);
    forall h | h in s'.threads ensures ThreadOK(s', h) {
      assert ThreadOK(s, h);
    }
  }

  lemma {:induction false} LateCounts(s: State, g: nat)
    requires Inv(s) && g in s.threads && s.row.Some? && s.threads[g].pc.Ready?
    ensures Inv(StartHop(s, g))
  {
    var s' := StartHop(s, g);
    forall h | h in s'.threads ensures ThreadOK(s', h) {
      assert ThreadOK(s, h);
    }
  }

  /** Giving the claim up: only the holder's own row is touched. */
  lemma {:induction false} GiveUpKeeps(s: State, g: nat, row: Row)
    requires Inv(s) && g in s.threads && Holds(s.threads[g].pc) && !Registered(s.threads[g].pc) && s.row.Some?
    requires if row.uid == "" then row.pod == "" else row.uid in s.pods && row.pod == s.pods[row.uid]
    ensures Inv(Gone(s.(row := Some(row)), g))
  {
    var s' := Gone(s.(row := Some(row)), g);
    forall h | h in s'.threads ensures ThreadOK(s', h) {
      assert ThreadOK(s, h);
    }
  }

  lemma {:induction false} ReleaseKeeps(s: State, g: nat)
    requires Inv(s) && g in s.threads && s.threads[g].pc.Releasing? && s.row.Some?
    ensures Inv(At(s.(row := Some(ReleaseSession(s.row.value))), g, Released))
  {
    var s' := At(s.(row := Some(ReleaseSession(s.row.value))), g, Released);
    forall h | h in s'.threads ensures ThreadOK(s', h) {
      assert ThreadOK(s, h);
    }
  }

  lemma {:induction false} UnregisterKeeps(s: State, g: nat)
    requires Inv(s) && g in s.threads && s.threads[g].pc.Released?
    ensures Inv(Gone(s.(registry := s.registry - {s.threads[g].uid}), g))
  {
    var s' := Gone(s.(registry := s.registry - {s.threads[g].uid}), g);
    assert ThreadOK(s, g);
    forall h | h in s'.threads ensures ThreadOK(s', h) {
      assert ThreadOK(s, h);
    }
  }

  /** Entering the registry with the claim in hand. */
  lemma {:induction false} EnterKeeps(s: State, g: nat, pc: PC)
    requires Inv(s) && g in s.threads && Holds(s.threads[g].pc) && !Registered(s.threads[g].pc)
    requires Driving(pc) && s.threads[g].uid !in s.registry
    ensures Inv(Enter(s, g, pc))
  {
    var s' := Enter(s, g, pc);
    assert ThreadOK(s, g);
    forall h | h in s'.threads ensures ThreadOK(s', h) {
      assert ThreadOK(s, h);
    }
  }

  lemma {:induction false} AcquireKeeps(s: State, g: nat, ok: bool)
    requires Inv(s) && g in s.threads && s.threads[g].pc.Acquiring? && s.row.Some?
    ensures Inv(DoAcquire(s, g, s.threads[g].pc.origin, ok))
  {
    hide Inv, Gone, Enter, At, DoDie;
    var t := s.threads[g];
    AcquiringFacts(s, g);
    match t.pc.origin
    case ByStart =>
      GoneKeeps(s, g);
      if t.uid !in s.registry { EnterKeeps(s, g, Ready); }
    case ByContinue =>
      StayPut(s, g, GivingBack);
      if t.uid !in s.registry { EnterKeeps(s, g, Ready); }
    case ByAdoption(dead, listed) =>
      StayPut(s, g, Reverting(dead));
      DieKeeps(s, t.uid);
      if t.uid !in s.registry { EnterKeeps(s, g, if listed == Terminating then Finishing(false) else Ready); }
  }

  lemma {:induction false} AcquiringFacts(s: State, g: nat)
    requires Inv(s) && g in s.threads && s.threads[g].pc.Acquiring?
    ensures var o := s.threads[g].pc.origin;
            o.ByAdoption? ==> o.dead in s.pods && o.dead !in s.alive && o.dead != s.threads[g].uid
  {
    assert ThreadOK(s, g);
  }

  /** The row unchanged, one goroutine moved on. */
  lemma {:induction false} StayPut(s: State, g: nat, pc: PC)
    requires Inv(s) && g in s.threads && s.row.Some?
    requires Holds(pc) ==> Holds(s.threads[g].pc)
    requires Registered(pc) <==> Registered(s.threads[g].pc)
    requires !pc.Creating? && !pc.Adopting? && !pc.Acquiring?
    requires pc.Reverting? ==> pc.dead in s.pods && pc.dead !in s.alive
    ensures Inv(At(s, g, pc))
  {
    hide Inv;
    MoveKeeps(s, g, s.row.value.state, pc);
    assert s.(row := Some(s.row.value.(state := s.row.value.state))) == s;
  }

  /** Claims: each succeeds only on a row nobody holds. */
  lemma {:induction false} ClaimStepKeeps(s: State, g: nat, how: How)
    requires Inv(s) && g in s.threads
    requires s.threads[g].pc.Creating? || s.threads[g].pc.ClaimingToContinue? || s.threads[g].pc.ClaimingToCleanUp?
             || s.threads[g].pc.Adopting?
    ensures Inv(DoGo(s, g, how))
  {
    hide Inv, Gone;
    ClaimantFacts(s, g);
    var t := s.threads[g];
    var pod := s.pods[t.uid];
    GoneKeeps(s, g);
    if t.pc.Creating? {
      if s.row.None? {
        NothingHeld(s);
        ClaimKeeps(s, g, Row(Running, pod, t.uid), Acquiring(ByStart));
      }
    } else {
      var row := s.row.value;
      if row.pod == "" || (t.pc.Adopting? && row.uid == t.pc.dead) {
        UnownedIsUnheld(s);
        var pc := match t.pc
          case ClaimingToContinue => Acquiring(ByContinue)
          case Adopting(dead, listed) => Acquiring(ByAdoption(dead, listed))
          case _ => AwaitingRegistry;
        ClaimKeeps(s, g, row.(pod := pod, uid := t.uid), pc);
      }
    }
  }

  lemma {:induction false} ClaimantFacts(s: State, g: nat)
    requires Inv(s) && g in s.threads
    ensures s.threads[g].uid in s.pods
    ensures !s.threads[g].pc.Creating? ==> s.row.Some?
    ensures s.threads[g].pc.Adopting? ==> s.threads[g].pc.dead in s.pods && s.threads[g].pc.dead !in s.alive
    ensures s.threads[g].pc.Reverting? ==> s.threads[g].pc.dead in s.pods && s.threads[g].pc.dead !in s.alive
  {
    assert ThreadOK(s, g);
  }

  lemma {:induction false} RevertFacts(s: State, g: nat)
    requires Inv(s) && g in s.threads && s.threads[g].pc.Reverting?
    ensures s.row.Some? && s.row.value.uid == s.threads[g].uid
    ensures var dead := s.threads[g].pc.dead; dead in s.pods && dead != ""
  {
    assert ThreadOK(s, g);
  }

  lemma {:induction false} NothingHeld(s: State)
    requires Inv(s) && s.row.None?
    ensures s.registry == map[] && forall g :: g in s.threads ==> !Holds(s.threads[g].pc)
  {
    forall g | g in s.threads ensures !Holds(s.threads[g].pc) {
      assert ThreadOK(s, g);
    }
  }

  lemma {:induction false} GoKeeps(s: State, g: nat, how: How)
    requires Inv(s)
    ensures Inv(DoGo(s, g, how))
  {
    hide Inv, Gone, Claimed, Enter, At, DoDie, DoAcquire, StartHop;
    if g in s.threads {
      ClaimantFacts(s, g);
      var t := s.threads[g];
      if t.pc.Creating? || t.pc.ClaimingToContinue? || t.pc.ClaimingToCleanUp? || t.pc.Adopting? {
        ClaimStepKeeps(s, g, how);
      } else {
        var row := s.row.value;
        match t.pc
        case Cancelling =>
          GoneKeeps(s, g);
          MoveKeeps(s, g, MarkTerminating(row).state, ClaimingToCleanUp);
        case Acquiring(origin) => AcquireKeeps(s, g, how == Succeeds);
        case AwaitingRegistry =>
          if t.uid !in s.registry { EnterKeeps(s, g, Finishing(false)); }
        case GivingBack => GiveUpKeeps(s, g, ReleaseSession(row));
        case Reverting(dead) =>
          RevertFacts(s, g);
          GiveUpKeeps(s, g, ClaimOrphanedSession(row, s.pods[dead], dead, t.uid).0);
        case Ready =>
          LateCounts(s, g);
          StayPut(s, g, Marking);
          StayPut(s, g, Releasing);
        case InHop =>
          StayPut(s, g, Checking);
          StayPut(s, g, Releasing);
        case Checking =>
          StayPut(s, g, Releasing);
          StayPut(s, g, Finishing(false));
          StayPut(s, g, Ready);
        case Marking =>
          MoveKeeps(s, g, MarkTerminating(row).state, Finishing(false));
          StayPut(s, g, Finishing(true));
        case Finishing(_) =>
          MoveKeeps(s, g, Terminated, Releasing);
          StayPut(s, g, Releasing);
        case Releasing => ReleaseKeeps(s, g);
        case Released => UnregisterKeeps(s, g);
      }
    }
  }

  /** No goroutine of these labels re-stamps a row its own process owns. */
  ghost predicate NoRestamps(labels: seq<Label>) {
    forall l :: l in labels ==> NoRestamp(l)
  }

  lemma {:induction false} StepKeeps(s: State, l: Label)
    requires Inv(s) && NoRestamp(l)
    ensures Inv(Take(s, l))
  {
    hide Inv, DoBoot, DoDie, DoBegin, DoGo;
    match l
    case Boot(uid, pod) => BootKeeps(s, uid, pod);
    case Die(uid) => DieKeeps(s, uid);
    case Begin(g, uid, op) => BeginKeeps(s, g, uid, op);
    case Go(g, how) => GoKeeps(s, g, how);
  }

  lemma {:induction false} RunKeeps(labels: seq<Label>)
    requires NoRestamps(labels)
    ensures Inv(Run(labels))
  {
    hide Take, Inv;
    if labels != [] {
      RunKeeps(labels[..|labels| - 1]);
      StepKeeps(Run(labels[..|labels| - 1]), labels[|labels| - 1]);
    } else {
      StartOK();
    }
  }

  lemma {:induction false} StartOK()
    ensures Inv(START)
  {
  }

  /**
   * One driver per session: in every interleaving, over all replicas, at most one goroutine drives, and while it
   * does the row names its process as owner and its process's registry holds its entry.
   */
  lemma {:induction false} OneDriver(labels: seq<Label>, g: nat, h: nat)
    requires NoRestamps(labels)
    requires var s := Run(labels);
             g in s.threads && Driving(s.threads[g].pc) && h in s.threads && Driving(s.threads[h].pc)
    ensures g == h
    ensures var s := Run(labels);
            var uid := s.threads[g].uid;
            && uid in s.alive && uid in s.pods
            && s.row.Some? && s.row.value.uid == uid && s.row.value.pod == s.pods[uid]
            && uid in s.registry && s.registry[uid] == g
  {
    RunKeeps(labels);
    assert ThreadOK(Run(labels), g);
  }

  // ---------- the session's lifecycle ----------

  /** Whatever anyone does, the state only moves forward. */
  lemma {:induction false} StateNeverGoesBack(labels: seq<Label>, l: Label)
    requires Run(labels).row.Some?
    ensures Run(labels + [l]).row.Some?
    ensures Rank(Run(labels).row.value.state) <= Rank(Run(labels + [l]).row.value.state)
  {
    hide DoGo;
    assert (labels + [l])[..|labels|] == labels;
    if l.Go? {
      OthersUntouched(Run(labels), l.g, l.how);
    }
  }

  /** What a goroutine knows of the state, and what it has done since it left RUNNING. */
  ghost predicate LifeOK(s: State, t: Thread) {
    var running := s.row.Some? && s.row.value.state == Running;
    var over := s.row.Some? && s.row.value.state == Terminated;
    // cleaning up only what is no longer RUNNING, unless marking it failed
    && (t.pc == Finishing(false) || t.pc.AwaitingRegistry? || t.pc.ClaimingToCleanUp? ==> !running)
    && (t.pc.Adopting? && t.pc.listed == Terminating ==> !running)
    && (t.pc.Acquiring? && t.pc.origin.ByAdoption? && t.pc.origin.listed == Terminating ==> !running)
    // one hop too many at most, for a claim made before the end
    && (Holds(t.pc) && t.began != Terminated ==>
          && t.late <= 1
          && (t.late > 0 ==> !running)
          && (t.pc.Ready? ==> t.late == 0)
          && (over ==> t.pc.Releasing? || t.pc.GivingBack? || t.pc.Reverting?))
    && (!Driving(t.pc) && !t.pc.Released? ==> t.late == 0)
  }

  ghost predicate LifeInv(s: State) {
    forall g :: g in s.threads ==> LifeOK(s, s.threads[g])
  }

  /** Everybody but `g` sees the same state, or one that has only moved forward with nobody else holding. */
  lemma {:induction false} OthersLive(s: State, s': State, g: nat)
    requires Inv(s) && LifeInv(s)
    requires forall h :: h in s'.threads && h != g ==> h in s.threads && s'.threads[h] == s.threads[h]
    requires s.row.Some? ==> s'.row.Some? && Rank(s.row.value.state) <= Rank(s'.row.value.state)
    requires s.row.None? && s'.row.Some? ==> s'.row.value.state == Running
    requires s'.row.Some? && s'.row.value.state == Terminated && s.row.value.state != Terminated ==>
               g in s.threads && Holds(s.threads[g].pc)
    requires g in s'.threads ==> LifeOK(s', s'.threads[g])
    ensures LifeInv(s')
  {
    forall h | h in s'.threads ensures LifeOK(s', s'.threads[h]) {
      if h != g {
        assert LifeOK(s, s.threads[h]) && ThreadOK(s, h);
      }
    }
  }

  lemma {:induction false} GoLives(s: State, g: nat, how: How)
    requires Inv(s) && LifeInv(s)
    ensures LifeInv(DoGo(s, g, how))
  {
    if g in s.threads {
      var s' := DoGo(s, g, how);
      assert ThreadOK(s, g) && LifeOK(s, s.threads[g]);
      OwnLife(s, g, how);
      hide Inv, LifeInv, LifeOK, ThreadOK, Holds;
      OthersUntouched(s, g, how);
      OthersLive(s, s', g);
    }
  }

  /** What a step of `g` may do to the row and to everybody else. */
  ghost predicate Untouched(s: State, s': State, g: nat) {
    && (forall h :: h in s'.threads && h != g ==> h in s.threads && s'.threads[h] == s.threads[h])
    && (s.row.Some? ==> s'.row.Some? && Rank(s.row.value.state) <= Rank(s'.row.value.state))
    && (s.row.None? && s'.row.Some? ==> s'.row.value.state == Running)
    && (s'.row.Some? && s'.row.value.state == Terminated && (s.row.None? || s.row.value.state != Terminated) ==>
          g in s.threads && Holds(s.threads[g].pc))
  }

  lemma {:induction false} ClaimTouches(s: State, g: nat, how: How)
    requires g in s.threads && s.threads[g].uid in s.pods
    ensures Untouched(s, DoClaim(s, g, how), g)
  {
  }

  lemma {:induction false} HoldTouches(s: State, g: nat, how: How)
    requires g in s.threads && s.threads[g].uid in s.pods && (Holds(s.threads[g].pc) || s.threads[g].pc.Released?)
    ensures Untouched(s, DoHold(s, g, how), g)
  {
  }

  lemma {:induction false} OthersUntouched(s: State, g: nat, how: How)
    ensures Untouched(s, DoGo(s, g, how), g)
  {
    hide DoClaim, DoHold, Holds;
    if g in s.threads && s.threads[g].uid in s.pods {
      ClaimTouches(s, g, how);
      if Holds(s.threads[g].pc) || s.threads[g].pc.Released? {
        HoldTouches(s, g, how);
      }
    }
  }

  lemma {:induction false} OwnClaimLife(s: State, g: nat, how: How)
    requires g in s.threads && LifeOK(s, s.threads[g]) && ThreadOK(s, g)
    requires !Holds(s.threads[g].pc) && !s.threads[g].pc.Released?
    ensures var s' := DoClaim(s, g, how); g in s'.threads ==> LifeOK(s', s'.threads[g])
  {
  }

  lemma {:induction false} OwnHoldLife(s: State, g: nat, how: How)
    requires g in s.threads && LifeOK(s, s.threads[g]) && ThreadOK(s, g)
    requires Holds(s.threads[g].pc) || s.threads[g].pc.Released?
    ensures var s' := DoHold(s, g, how); g in s'.threads ==> LifeOK(s', s'.threads[g])
  {
    hide DoHold, LifeOK, ThreadOK;
    if Registered(s.threads[g].pc) {
      OwnDriveLife(s, g, how);
    } else {
      OwnEntryLife(s, g, how);
    }
  }

  lemma {:induction false} OwnDriveLife(s: State, g: nat, how: How)
    requires g in s.threads && LifeOK(s, s.threads[g]) && ThreadOK(s, g) && Registered(s.threads[g].pc)
    ensures var s' := DoHold(s, g, how); g in s'.threads ==> LifeOK(s', s'.threads[g])
  {
  }

  lemma {:induction false} OwnEntryLife(s: State, g: nat, how: How)
    requires g in s.threads && LifeOK(s, s.threads[g]) && ThreadOK(s, g)
    requires Holds(s.threads[g].pc) && !Registered(s.threads[g].pc)
    ensures var s' := DoHold(s, g, how); g in s'.threads ==> LifeOK(s', s'.threads[g])
  {
  }

  lemma {:induction false} OwnLife(s: State, g: nat, how: How)
    requires g in s.threads && LifeOK(s, s.threads[g]) && ThreadOK(s, g)
    ensures var s' := DoGo(s, g, how); g in s'.threads ==> LifeOK(s', s'.threads[g])
  {
    hide DoClaim, DoHold, Holds, LifeOK;
    if Holds(s.threads[g].pc) || s.threads[g].pc.Released? {
      OwnHoldLife(s, g, how);
    } else {
      OwnClaimLife(s, g, how);
    }
  }

  lemma {:induction false} RunLives(labels: seq<Label>)
    requires NoRestamps(labels)
    ensures LifeInv(Run(labels))
  {
    if labels != [] {
      hide DoGo, LifeOK, ThreadOK;
      var init, l := labels[..|labels| - 1], labels[|labels| - 1];
      RunLives(init);
      RunKeeps(init);
      var s := Run(init);
      assert NoRestamp(l);
      match l
      case Boot(uid, pod) => LivesUnchanged(s, DoBoot(s, uid, pod));
      case Die(uid) => LivesUnchanged(s, DoDie(s, uid));
      case Begin(g, uid, op) => BeginLives(s, g, uid, op);
      case Go(g, how) => GoLives(s, g, how);
    }
  }

  lemma {:induction false} BeginLives(s: State, g: nat, uid: string, op: Op)
    requires Inv(s) && LifeInv(s) && !op.Restamp?
    ensures LifeInv(DoBegin(s, g, uid, op))
  {
    hide Inv;
    if DoBegin(s, g, uid, op) != s {
      OthersLive(s, DoBegin(s, g, uid, op), g);
    }
  }

  lemma {:induction false} LivesUnchanged(s: State, s': State)
    requires LifeInv(s) && s'.row == s.row
    requires forall g :: g in s'.threads ==> g in s.threads && s'.threads[g] == s.threads[g]
    ensures LifeInv(s')
  {
  }

  /**
   * TERMINATED comes after TERMINATING, with one exact exception: the holder's own best-effort mark failed and
   * its final write then succeeds.
   */
  lemma {:induction false} TerminatedSkipsOnlyAfterFailedMark(labels: seq<Label>, l: Label)
    requires NoRestamps(labels)
    requires var s := Run(labels); s.row.Some? && s.row.value.state == Running
    ensures Take(Run(labels), l).row.value.state == Terminated <==>
              && l.Go? && l.how == Succeeds && l.g in Run(labels).threads
              && Run(labels).threads[l.g].pc == Finishing(true)
  {
    hide DoGo, Inv, LifeOK;
    var s := Run(labels);
    RunLives(labels);
    RunKeeps(labels);
    if l.Go? {
      if l.g in s.threads {
        assert ThreadOK(s, l.g) && LifeOK(s, s.threads[l.g]) by {
          assert Inv(s) && LifeInv(s);
          OneThreadOK(s, l.g);
        }
        EndsBy(s, l.g, l.how);
      } else {
        NobodyGoes(s, l.g, l.how);
      }
    }
  }

  lemma {:induction false} OneThreadOK(s: State, g: nat)
    requires Inv(s) && LifeInv(s) && g in s.threads
    ensures ThreadOK(s, g) && LifeOK(s, s.threads[g])
  {
  }

  lemma {:induction false} NobodyGoes(s: State, g: nat, how: How)
    requires g !in s.threads
    ensures DoGo(s, g, how) == s
  {
  }

  lemma {:induction false} EndsByClaim(s: State, g: nat, how: How)
    requires g in s.threads && s.threads[g].uid in s.pods && s.row.Some? && s.row.value.state == Running
    ensures DoClaim(s, g, how).row.value.state != Terminated
  {
  }

  lemma {:induction false} EndsByHold(s: State, g: nat, how: How)
    requires g in s.threads && s.threads[g].uid in s.pods && s.row.Some? && s.row.value.state == Running
    requires s.threads[g].pc != Finishing(false)
    ensures DoHold(s, g, how).row.value.state == Terminated <==> how == Succeeds && s.threads[g].pc == Finishing(true)
  {
  }

  lemma {:induction false} EndsBy(s: State, g: nat, how: How)
    requires g in s.threads && ThreadOK(s, g) && LifeOK(s, s.threads[g]) && s.row.Some? && s.row.value.state == Running
    ensures DoGo(s, g, how).row.value.state == Terminated <==> how == Succeeds && s.threads[g].pc == Finishing(true)
  {
    hide DoClaim, DoHold;
    EndsByClaim(s, g, how);
    EndsByHold(s, g, how);
  }

  /** Once the session is no longer RUNNING, whoever claimed it before TERMINATED starts at most one more hop. */
  lemma {:induction false} AtMostOneLateHop(labels: seq<Label>, g: nat)
    requires NoRestamps(labels)
    requires var s := Run(labels); g in s.threads && Driving(s.threads[g].pc) && s.threads[g].began != Terminated
    ensures Run(labels).threads[g].late <= 1
  {
    RunLives(labels);
    assert LifeOK(Run(labels), Run(labels).threads[g]);
  }
}
