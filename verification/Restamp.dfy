/** Startup resume of a row its own process owns: exactly when the session still has one driver ever after. */
module Restamp {
  import opened Hop
  import opened Ownership
  import opened Relay

  /** The state after any further interleaving from `s` on. */
  function RunFrom(s: State, labels: seq<Label>): State {
    if labels == [] then s else Take(RunFrom(s, labels[..|labels| - 1]), labels[|labels| - 1])
  }

  predicate OneDrives(s: State) {
    forall g, h :: g in s.threads && h in s.threads && Driving(s.threads[g].pc) && Driving(s.threads[h].pc) ==> g == h
  }

  /** However the run goes on, without another resume of an own row, there is at most one driver. */
  ghost predicate Safe(s: State) {
    forall labels :: NoRestamps(labels) ==> OneDrives(RunFrom(s, labels))
  }

  /** A resume of the row by its own process `uid`, listed as `listed` and claimed, about to ask the registry. */
  function Resuming(s: State, g: nat, uid: string, listed: SessionState): State {
    s.(threads := s.threads[g := Thread(uid, Acquiring(ByAdoption(uid, listed)), listed, 0)])
  }

  /** What the resume amounts to once it has asked, whatever the others did since its claim. */
  function Resumed(s: State, g: nat, uid: string, listed: SessionState): State {
    DoGo(Resuming(s, g, uid, listed), g, Succeeds)
  }

  lemma {:induction false} InPods(s: State, uid: string)
    requires Inv(s) && uid in s.alive
    ensures uid in s.pods
  {
  }

  /** The claim of an own row changes nothing. */
  lemma {:induction false} ClaimIsNoChange(s: State, g: nat, uid: string)
    requires Inv(s) && g !in s.threads && uid in s.alive
    requires s.row.Some? && s.row.value.uid == uid && s.row.value.state != Terminated
    ensures DoBegin(s, g, uid, Op.Restamp) == Resuming(s, g, uid, s.row.value.state)
    ensures ClaimOrphanedSession(s.row.value, s.pods[uid], uid, uid) == (s.row.value, true)
  {
  }

  lemma {:induction false} ResumesAtOnce(s: State, g: nat, uid: string)
    requires s.row.Some?
    ensures Resumed(s, g, uid, s.row.value.state) == DoGo(Resuming(s, g, uid, s.row.value.state), g, Succeeds)
  {
  }

  /** With the entry taken the resume backs off, otherwise it drives. */
  lemma {:induction false} ResumeEnters(s: State, g: nat, uid: string, listed: SessionState)
    requires g !in s.threads && uid in s.pods && s.row.Some?
    ensures Resumed(s, g, uid, listed) ==
            if uid in s.registry then s
            else
              var pc := if listed == Terminating then Finishing(false) else Ready;
              s.(registry := s.registry[uid := g], threads := s.threads[g := Thread(uid, pc, listed, 0)])
  {
    if uid in s.registry {
      assert Resumed(s, g, uid, listed).threads == s.threads;
    }
  }

  // ---------- runs ----------

  lemma {:induction false} RunOn(s: State, labels: seq<Label>, more: seq<Label>)
    ensures RunFrom(s, labels + more) == RunFrom(RunFrom(s, labels), more)
  {
    hide Take;
    if more == [] {
      assert labels + more == labels;
    } else {
      RunOn(s, labels, more[..|more| - 1]);
      assert (labels + more)[..|labels + more| - 1] == labels + more[..|more| - 1];
    }
  }

  /** An unsafe state makes every state that leads to it unsafe. */
  lemma {:induction false} LeadsTo(s: State, labels: seq<Label>)
    requires NoRestamps(labels) && !Safe(RunFrom(s, labels))
    ensures !Safe(s)
  {
    hide RunFrom, OneDrives;
    var more :| NoRestamps(more) && !OneDrives(RunFrom(RunFrom(s, labels), more));
    RunOn(s, labels, more);
    assert NoRestamps(labels + more);
  }

  lemma {:induction false} LeadsToOne(s: State, l: Label)
    requires NoRestamp(l) && !Safe(Take(s, l))
    ensures !Safe(s)
  {
    hide Take, Safe;
    assert [l][..0] == [];
    assert RunFrom(s, [l]) == Take(s, l);
    LeadsTo(s, [l]);
  }

  lemma {:induction false} NotSafeNow(s: State, g: nat, h: nat)
    requires g in s.threads && h in s.threads && g != h && Driving(s.threads[g].pc) && Driving(s.threads[h].pc)
    ensures !Safe(s)
  {
    assert RunFrom(s, []) == s;
    assert !OneDrives(RunFrom(s, []));
  }

  lemma {:induction false} InvStaysSafe(s: State, labels: seq<Label>)
    requires Inv(s) && NoRestamps(labels)
    ensures Inv(RunFrom(s, labels))
  {
    hide Inv, Take;
    if labels != [] {
      InvStaysSafe(s, labels[..|labels| - 1]);
      StepKeeps(RunFrom(s, labels[..|labels| - 1]), labels[|labels| - 1]);
    }
  }

  lemma {:induction false} InvIsSafe(s: State)
    requires Inv(s)
    ensures Safe(s)
  {
    hide RunFrom;
    forall labels | NoRestamps(labels) ensures OneDrives(RunFrom(s, labels)) {
      InvStaysSafe(s, labels);
    }
  }

  // ---------- how a second driver comes in ----------

  /** A goroutine id not in use. */
  lemma {:induction false} UnusedThread(threads: map<nat, Thread>) returns (g: nat)
    ensures g !in threads
  {
    var ids := threads.Keys;
    g := 0;
    while exists h :: h in ids && h >= g
      invariant ids <= threads.Keys
      invariant forall h :: h in threads && h !in ids ==> h < g
      decreases ids
    {
      var h :| h in ids && h >= g;
      g := h + 1;
      ids := ids - {h};
    }
  }

  /** Some goroutine drives a row that is not its own; every registry entry is of a known process. */
  ghost predicate Astray(s: State, g: nat) {
    && g in s.threads && Driving(s.threads[g].pc)
    && s.registry.Keys <= s.pods.Keys
    && s.row.Some?
  }

  /** A process that starts up, beginning `op` with a goroutine of its own. */
  lemma {:induction false} Newcomer(s: State, g: nat) returns (uid: string, h: nat)
    requires Astray(s, g)
    ensures h !in s.threads && uid !in s.registry && uid !in s.pods
    ensures Take(s, Boot(uid, "pod")) == s.(pods := s.pods[uid := "pod"], alive := s.alive + {uid})
  {
    UnusedIDExists(s.pods.Keys);
    uid :| uid != "" && uid !in s.pods.Keys;
    h := UnusedThread(s.threads);
  }

  /** A goroutine with the claim in hand and no registry entry in its way becomes a second driver. */
  lemma {:induction false} SecondEnters(s: State, g: nat, h: nat)
    requires g in s.threads && Driving(s.threads[g].pc) && h in s.threads && h != g && s.row.Some?
    requires s.threads[h].pc.Acquiring? && s.threads[h].uid in s.pods && s.threads[h].uid !in s.registry
    ensures !Safe(s)
  {
    hide Safe;
    NotSafeNow(Take(s, Go(h, Succeeds)), g, h);
    LeadsToOne(s, Go(h, Succeeds));
  }

  /** Another process starts up and takes an unowned row. */
  lemma {:induction false} OtherContinues(s: State, g: nat)
    requires Astray(s, g) && s.row.value.pod == ""
    ensures !Safe(s)
  {
    hide Safe;
    var uid, h := Newcomer(s, g);
    var s1 := Take(s, Boot(uid, "pod"));
    var s2 := Take(s1, Begin(h, uid, ContinueTask));
    var s3 := Take(s2, Go(h, Succeeds));
    assert s2 == s1.(threads := s.threads[h := Thread(uid, ClaimingToContinue, s.row.value.state, 0)]);
    assert s3.threads[h].pc == Acquiring(ByContinue) && s3.threads[g] == s.threads[g];
    SecondEnters(s3, g, h);
    LeadsToOne(s2, Go(h, Succeeds));
    LeadsToOne(s1, Begin(h, uid, ContinueTask));
    LeadsToOne(s, Boot(uid, "pod"));
  }

  /** Another process starts up and adopts a dead owner's row. */
  lemma {:induction false} OtherAdopts(s: State, g: nat)
    requires Astray(s, g) && s.row.value.uid in s.pods && s.row.value.uid !in s.alive && s.row.value.state != Terminated
    ensures !Safe(s)
  {
    hide Safe;
    var uid, h := Newcomer(s, g);
    var dead, st := s.row.value.uid, s.row.value.state;
    var s1 := Take(s, Boot(uid, "pod"));
    var s2 := Take(s1, Begin(h, uid, Adopt(dead)));
    var s3 := Take(s2, Go(h, Succeeds));
    assert s2 == s1.(threads := s.threads[h := Thread(uid, Adopting(dead, st), st, 0)]);
    assert s3.threads[h].pc == Acquiring(ByAdoption(dead, st)) && s3.threads[g] == s.threads[g];
    SecondEnters(s3, g, h);
    LeadsToOne(s2, Go(h, Succeeds));
    LeadsToOne(s1, Begin(h, uid, Adopt(dead)));
    LeadsToOne(s, Boot(uid, "pod"));
  }

  // ---------- the losing runs ----------

  /** The row is nobody's, a dead process's, or another live one's, which then dies. */
  lemma {:induction false} RowNotOwn(s: State, g: nat, uid: string, listed: SessionState)
    requires Inv(s) && g !in s.threads && uid in s.alive && uid !in s.registry
    requires s.row.Some? && s.row.value.state != Terminated && s.row.value.uid != uid
    ensures !Safe(Resumed(s, g, uid, listed))
  {
    hide Safe, Resumed, DoBegin, DoGo, DoBoot;
    InPods(s, uid);
    ResumeEnters(s, g, uid, listed);
    var s' := Resumed(s, g, uid, listed);
    RegistryKnown(s);
    var owner := s.row.value.uid;
    if owner == "" {
      OtherContinues(s', g);
    } else if owner !in s.alive {
      OtherAdopts(s', g);
    } else {
      var s1 := Take(s', Die(owner));
      OtherAdopts(s1, g);
      LeadsToOne(s', Die(owner));
    }
  }

  lemma {:induction false} RegistryKnown(s: State)
    requires Inv(s)
    ensures s.registry.Keys <= s.pods.Keys
  {
    forall uid | uid in s.registry ensures uid in s.pods {
      assert ThreadOK(s, s.registry[uid]);
    }
  }

  /** The row unchanged but for its owner, and `g`'s registry entry and goroutine as given. */
  function WithDriver(s: State, row: Row, g: nat, t: Thread): State {
    s.(row := Some(row), registry := s.registry[t.uid := g], threads := s.threads[g := t])
  }

  lemma {:induction false} DriverFails(s: State, row: Row, g: nat, t: Thread)
    requires t.uid in s.pods && (t.pc.Ready? || t.pc.Finishing?)
    ensures Take(WithDriver(s, row, g, t), Go(g, Fails)) == WithDriver(s, row, g, t.(pc := Releasing))
    ensures Take(WithDriver(s, row, g, t.(pc := Releasing)), Go(g, Fails)) ==
            WithDriver(s, ReleaseSession(row), g, t.(pc := Released))
  {
  }

  lemma {:induction false} DriverUnregisters(s: State, row: Row, g: nat, t: Thread)
    requires g !in s.threads && t.uid in s.pods && t.uid !in s.registry && t.pc.Released?
    ensures Take(WithDriver(s, row, g, t), Go(g, Fails)) == s.(row := Some(row))
  {
    var s' := Take(WithDriver(s, row, g, t), Go(g, Fails));
    assert s'.registry == s.registry && s'.threads == s.threads;
  }

  /** The driver fails at once, releases the row and frees the entry: all is as before, but for the row. */
  lemma {:induction false} ResumedGivesUp(s: State, g: nat, uid: string, listed: SessionState)
    requires g !in s.threads && uid in s.pods && uid !in s.registry && s.row.Some?
    ensures var s1 := Take(Resumed(s, g, uid, listed), Go(g, Fails));
            Take(Take(s1, Go(g, Fails)), Go(g, Fails)) == s.(row := Some(ReleaseSession(s.row.value)))
  {
    hide Resumed, Take;
    ResumeEnters(s, g, uid, listed);
    var t := Thread(uid, if listed == Terminating then Finishing(false) else Ready, listed, 0);
    assert Resumed(s, g, uid, listed) == WithDriver(s, s.row.value, g, t);
    DriverFails(s, s.row.value, g, t);
    DriverUnregisters(s, ReleaseSession(s.row.value), g, t.(pc := Released));
  }

  /** The one with the claim in hand, entering the registry after the resume has given everything up. */
  lemma {:induction false} HolderEnters(s: State, h: nat)
    requires h in s.threads && s.threads[h].uid in s.pods && s.threads[h].uid !in s.registry && s.row.Some?
    requires s.threads[h].pc.Acquiring? || s.threads[h].pc.AwaitingRegistry?
    ensures var s' := Take(s, Go(h, Succeeds));
            && h in s'.threads && Driving(s'.threads[h].pc) && s'.row == s.row && s'.pods == s.pods
            && s'.registry.Keys == s.registry.Keys + {s.threads[h].uid}
  {
  }

  lemma {:induction false} HolderTakesOver(s: State, g: nat, uid: string, listed: SessionState, h: nat)
    requires Inv(s) && g !in s.threads && uid in s.alive && uid !in s.registry && s.row.Some?
    requires h in s.threads && s.threads[h].uid == uid
    requires s.threads[h].pc.Acquiring? || s.threads[h].pc.AwaitingRegistry?
    ensures !Safe(Resumed(s, g, uid, listed))
  {
    hide Safe, Resumed, Take;
    InPods(s, uid);
    RegistryKnown(s);
    ResumedGivesUp(s, g, uid, listed);
    var s' := Resumed(s, g, uid, listed);
    var s1 := Take(s', Go(g, Fails));
    var s2 := Take(s1, Go(g, Fails));
    var s3 := Take(s2, Go(g, Fails));
    HolderEnters(s3, h);
    OtherContinues(Take(s3, Go(h, Succeeds)), h);
    LeadsToOne(s3, Go(h, Succeeds));
    LeadsToOne(s2, Go(g, Fails));
    LeadsToOne(s1, Go(g, Fails));
    LeadsToOne(s', Go(g, Fails));
  }

  /** The one with the claim in hand gives the row back, to nobody or to its dead owner, under the resume's driver. */
  lemma {:induction false} HolderGivesAway(s: State, g: nat, uid: string, listed: SessionState, h: nat)
    requires Inv(s) && g !in s.threads && uid in s.alive && uid !in s.registry
    requires s.row.Some? && s.row.value.state != Terminated && s.row.value.uid == uid
    requires h in s.threads && s.threads[h].uid == uid && (s.threads[h].pc.GivingBack? || s.threads[h].pc.Reverting?)
    ensures !Safe(Resumed(s, g, uid, listed))
  {
    hide Safe, Resumed;
    InPods(s, uid);
    RegistryKnown(s);
    ClaimantFacts(s, h);
    ResumeEnters(s, g, uid, listed);
    var s' := Resumed(s, g, uid, listed);
    var s1 := Take(s', Go(h, Succeeds));
    assert s1.threads == s'.threads - {h} && g in s1.threads;
    if s.threads[h].pc.GivingBack? {
      OtherContinues(s1, g);
    } else {
      OtherAdopts(s1, g);
    }
    LeadsToOne(s', Go(h, Succeeds));
  }

  lemma {:induction false} ResumedKeeps(s: State, g: nat, uid: string, listed: SessionState)
    requires Inv(s) && g !in s.threads && uid in s.alive && uid !in s.registry
    requires s.row.Some? && s.row.value.uid == uid
    requires forall h :: h in s.threads ==> !Holds(s.threads[h].pc)
    ensures Inv(Resumed(s, g, uid, listed))
  {
    hide Resumed;
    ResumeEnters(s, g, uid, listed);
    var s' := Resumed(s, g, uid, listed);
    forall h | h in s'.threads ensures ThreadOK(s', h) {
      assert h != g ==> ThreadOK(s, h);
    }
  }

  /**
   * A resume that gets the registry entry keeps the session to one driver, in every run from there on, if and only if
   * at that moment the row is still its process's and none of the process's goroutines has the claim in hand. With
   * the entry taken it changes nothing. Listing and claim, with nothing in between, are the claim step of Ownership.
   */
  lemma {:induction false} RestampIsSafeIffUnclaimed(s: State, g: nat, uid: string, listed: SessionState)
    requires Inv(s) && g !in s.threads && uid in s.alive && s.row.Some? && s.row.value.state != Terminated
    ensures var s' := Resumed(s, g, uid, listed);
            if uid in s.registry then s' == s
            else Safe(s') <==> s.row.value.uid == uid && forall h :: h in s.threads ==> !Holds(s.threads[h].pc)
    ensures s.row.value.uid == uid ==>
              Resumed(s, g, uid, s.row.value.state) == DoGo(DoBegin(s, g, uid, Op.Restamp), g, Succeeds)
  {
    hide Safe, Resumed;
    InPods(s, uid);
    if s.row.value.uid == uid {
      ClaimIsNoChange(s, g, uid);
      ResumesAtOnce(s, g, uid);
    }
    ResumeEnters(s, g, uid, listed);
    if uid !in s.registry {
      if s.row.value.uid != uid {
        RowNotOwn(s, g, uid, listed);
      } else if h :| h in s.threads && Holds(s.threads[h].pc) {
        assert ThreadOK(s, h);
        if s.threads[h].pc.Acquiring? || s.threads[h].pc.AwaitingRegistry? {
          HolderTakesOver(s, g, uid, listed, h);
        } else {
          HolderGivesAway(s, g, uid, listed, h);
        }
      } else {
        ResumedKeeps(s, g, uid, listed);
        InvIsSafe(Resumed(s, g, uid, listed));
      }
    }
  }
}
