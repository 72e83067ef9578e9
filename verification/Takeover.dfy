/** What a dead or departed driver leaves of a session's ownership can be taken up again, and brought to its end. */
module Takeover {
  import opened Hop
  import opened Ownership

  function TakeAll(s: State, labels: seq<Label>): State
    decreases |labels|
  {
    if labels == [] then s else TakeAll(Take(s, labels[0]), labels[1..])
  }

  lemma {:induction false} TakeThree(s: State, a: Label, b: Label, c: Label)
    ensures TakeAll(s, [a, b, c]) == Take(Take(Take(s, a), b), c)
  {
    hide Take;
    assert [a, b, c][1..] == [b, c] && [b, c][1..] == [c] && [c][1..] == [];
    assert TakeAll(Take(Take(Take(s, a), b), c), []) == Take(Take(Take(s, a), b), c);
    assert TakeAll(Take(Take(s, a), b), [c]) == TakeAll(Take(Take(Take(s, a), b), c), []);
    assert TakeAll(Take(s, a), [b, c]) == TakeAll(Take(Take(s, a), b), [c]);
  }

  /**
   * Goroutine `g` of process `uid` owns the row and is registered, at `pc`; the row's state and all others are as
   * before.
   */
  ghost predicate TookOver(s: State, s': State, g: nat, uid: string, pc: PC)
    requires s.row.Some? && uid in s.pods
  {
    && s'.row == Some(Row(s.row.value.state, s.pods[uid], uid))
    && s'.registry == s.registry[uid := g]
    && s'.threads == s.threads[g := Thread(uid, pc, s.row.value.state, 0)]
    && s'.alive == s.alive && s'.pods == s.pods
  }

  /**
   * From every state of every interleaving: a session that is not TERMINATED and whose owner is dead is taken over by
   * any live process that does not drive it yet -- to go on with its relay if it is RUNNING, to tear it down if it is
   * TERMINATING.
   */
  lemma {:induction false} OrphanIsTakenOver(labels: seq<Label>, g: nat, uid: string)
    requires NoRestamps(labels)
    requires var s := Run(labels);
             && s.row.Some? && s.row.value.state != Terminated && s.row.value.uid != "" && s.row.value.uid !in s.alive
             && uid in s.alive && uid !in s.registry && g !in s.threads
    ensures var s := Run(labels);
            var dead := s.row.value.uid;
            && uid in s.pods
            && TookOver(s, TakeAll(s, [Begin(g, uid, Adopt(dead)), Go(g, Succeeds), Go(g, Succeeds)]), g, uid,
                        if s.row.value.state == Terminating then Finishing(false) else Ready)
  {
    var s := Run(labels);
    RunKeeps(labels);
    var dead := s.row.value.uid;
    TakeThree(s, Begin(g, uid, Adopt(dead)), Go(g, Succeeds), Go(g, Succeeds));
    AdoptionDrives(s, g, uid);
  }

  lemma {:induction false} OwnersHavePods(s: State, uid: string)
    requires Inv(s) && uid in s.alive
    ensures uid in s.pods && s.pods[uid] != ""
    ensures s.row.Some? && s.row.value.uid != "" ==> s.row.value.uid in s.pods
  {
  }

  lemma {:induction false} AdoptionDrives(s: State, g: nat, uid: string)
    requires Inv(s) && s.row.Some? && s.row.value.state != Terminated
    requires s.row.value.uid != "" && s.row.value.uid !in s.alive
    requires uid in s.alive && uid !in s.registry && g !in s.threads
    ensures uid in s.pods
    ensures TookOver(s, Take(Take(Take(s, Begin(g, uid, Adopt(s.row.value.uid))), Go(g, Succeeds)), Go(g, Succeeds)),
                     g, uid,
                     if s.row.value.state == Terminating then Finishing(false) else Ready)
  {
    hide Inv;
    OwnersHavePods(s, uid);
    var row := s.row.value;
    var s1 := Take(s, Begin(g, uid, Adopt(row.uid)));
    assert s1 == s.(threads := s.threads[g := Thread(uid, Adopting(row.uid, row.state), row.state, 0)]);
    var s2 := Take(s1, Go(g, Succeeds));
    assert s2 == s.(row := Some(Row(row.state, s.pods[uid], uid)),
                    threads := s.threads[g := Thread(uid, Acquiring(ByAdoption(row.uid, row.state)), row.state, 0)]);
  }

  /** A session that nobody owns is claimed by a client's next message, at any live process not driving it already. */
  lemma {:induction false} ReleasedIsContinued(labels: seq<Label>, g: nat, uid: string)
    requires NoRestamps(labels)
    requires var s := Run(labels);
             && s.row.Some? && s.row.value.pod == "" && uid in s.alive && uid !in s.registry && g !in s.threads
    ensures var s := Run(labels);
            && uid in s.pods
            && TookOver(s, TakeAll(s, [Begin(g, uid, ContinueTask), Go(g, Succeeds), Go(g, Succeeds)]), g, uid, Ready)
  {
    var s := Run(labels);
    RunKeeps(labels);
    TakeThree(s, Begin(g, uid, ContinueTask), Go(g, Succeeds), Go(g, Succeeds));
    ContinuationDrives(s, g, uid);
  }

  lemma {:induction false} ContinuationDrives(s: State, g: nat, uid: string)
    requires Inv(s) && s.row.Some? && s.row.value.pod == ""
    requires uid in s.alive && uid !in s.registry && g !in s.threads
    ensures uid in s.pods
    ensures TookOver(s, Take(Take(Take(s, Begin(g, uid, ContinueTask)), Go(g, Succeeds)), Go(g, Succeeds)), g, uid,
                     Ready)
  {
    hide Inv;
    OwnersHavePods(s, uid);
    var row := s.row.value;
    var s1 := Take(s, Begin(g, uid, ContinueTask));
    assert s1 == s.(threads := s.threads[g := Thread(uid, ClaimingToContinue, row.state, 0)]);
    var s2 := Take(s1, Go(g, Succeeds));
    assert s2 == s.(row := Some(Row(row.state, s.pods[uid], uid)),
                    threads := s.threads[g := Thread(uid, Acquiring(ByContinue), row.state, 0)]);
  }

  /** How many successful steps a driver between hops, or past its last one, is away from its end. */
  function Left(pc: PC): nat {
    match pc
    case Marking => 4
    case Finishing(_) => 3
    case Releasing => 2
    case Released => 1
    case _ => 0
  }

  /** A driver that has come to the end leaves the session TERMINATED, nobody's, and its process free for another. */
  lemma {:induction false} DriverFinishes(labels: seq<Label>, g: nat) returns (s': State)
    requires NoRestamps(labels)
    requires var s := Run(labels); g in s.threads && (s.threads[g].pc.Marking? || s.threads[g].pc.Finishing?)
    ensures var s := Run(labels);
            && s' == TakeAll(s, seq(Left(s.threads[g].pc), _ => Go(g, Succeeds)))
            && s'.row == Some(Row(Terminated, "", "")) && s'.threads == s.threads - {g}
            && s'.registry == s.registry - {s.threads[g].uid} && s'.alive == s.alive
  {
    var s := Run(labels);
    RunKeeps(labels);
    s' := TakeAll(s, seq(Left(s.threads[g].pc), _ => Go(g, Succeeds)));
    Finishes(s, g);
  }

  lemma {:induction false} Finishes(s: State, g: nat)
    requires Inv(s) && g in s.threads && Left(s.threads[g].pc) > 0
    requires s.row.Some?
    requires s.threads[g].pc.Releasing? ==> s.row.value.state == Terminated
    requires s.threads[g].pc.Released? ==> s.row.value == Row(Terminated, "", "")
    ensures var s' := TakeAll(s, seq(Left(s.threads[g].pc), _ => Go(g, Succeeds)));
            && s'.row == Some(Row(Terminated, "", "")) && s'.threads == s.threads - {g}
            && s'.registry == s.registry - {s.threads[g].uid} && s'.alive == s.alive
    decreases Left(s.threads[g].pc)
  {
    hide Inv;
    var n := Left(s.threads[g].pc);
    var labels := seq(n, _ => Go(g, Succeeds));
    var s1 := Take(s, Go(g, Succeeds));
    assert labels[0] == Go(g, Succeeds) && labels[1..] == seq(n - 1, _ => Go(g, Succeeds));
    DriverInPods(s, g);
    if n > 1 {
      StepKeeps(s, Go(g, Succeeds));
      Finishes(s1, g);
    } else {
      assert labels[1..] == [];
    }
  }

  lemma {:induction false} DriverInPods(s: State, g: nat)
    requires Inv(s) && g in s.threads
    ensures s.threads[g].uid in s.pods
  {
    assert ThreadOK(s, g);
  }
}
