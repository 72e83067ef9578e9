/**
 * Where the one-driver and one-late-hop guarantees end, exactly: startup resume of an own row, a claim after the end.
 */
module OwnershipLimits {
  import opened Hop
  import opened Ownership

  lemma {:induction false} One(labels: seq<Label>, l: Label)
    ensures Run(labels + [l]) == Take(Run(labels), l)
  {
    assert (labels + [l])[..|labels|] == labels;
  }

  lemma {:induction false} Four(labels: seq<Label>, a: Label, b: Label, c: Label, d: Label)
    ensures Run(labels + [a, b, c, d]) == Take(Take(Take(Take(Run(labels), a), b), c), d)
  {
    hide Take, Run;
    One(labels, a);
    One(labels + [a], b);
    One(labels + [a] + [b], c);
    One(labels + [a] + [b] + [c], d);
    assert labels + [a, b, c, d] == labels + [a] + [b] + [c] + [d];
  }

  lemma {:induction false} EmptyRun()
    ensures Run([]) == START
  {
  }

  /** Two live processes. */
  datatype Pair = Pair(a: string, b: string, podA: string, podB: string) {
    predicate Valid() {
      a != b && a != "" && b != "" && podA != "" && podB != ""
    }

    function Pods(): map<string, string> {
      map[a := podA, b := podB]
    }

    /** A state of one session with both of them alive. */
    function With(row: Row, registry: map<string, nat>, threads: map<nat, Thread>): State {
      State(Some(row), Pods(), {a, b}, registry, threads)
    }
  }

  lemma {:induction false} BootsBoth(p: Pair)
    requires p.Valid()
    ensures Take(Take(START, Boot(p.a, p.podA)), Boot(p.b, p.podB)) == State(None, p.Pods(), {p.a, p.b}, map[], map[])
  {
  }

  /** A session created by the first process, its goroutine about to enter the registry. */
  lemma {:induction false} StartedSession(p: Pair) returns (labels: seq<Label>)
    requires p.Valid()
    ensures NoRestamps(labels)
    ensures Run(labels) ==
        p.With(Row(Running, p.podA, p.a), map[], map[0 := Thread(p.a, Acquiring(ByStart), Running, 0)])
  {
    hide Run;
    EmptyRun();
    labels := [Boot(p.a, p.podA), Boot(p.b, p.podB), Begin(0, p.a, StartTask), Go(0, Succeeds)];
    Four([], labels[0], labels[1], labels[2], labels[3]);
    assert [] + labels == labels;
    BootsBoth(p);
    StartsTask(p);
  }

  /** A session started by the first process, paused for its client and released. */
  lemma {:induction false} PausedSession(p: Pair) returns (labels: seq<Label>)
    requires p.Valid()
    ensures NoRestamps(labels)
    ensures Run(labels) == p.With(Row(Running, "", ""), map[], map[])
  {
    hide Run;
    var first := StartedSession(p);
    labels := first + [Go(0, Succeeds), Go(0, Fails), Go(0, Succeeds), Go(0, Succeeds)];
    Four(first, Go(0, Succeeds), Go(0, Fails), Go(0, Succeeds), Go(0, Succeeds));
    StartsDriving(p);
    PausesAndReleases(p);
  }

  lemma {:induction false} StartsTask(p: Pair)
    requires p.Valid()
    ensures Take(Take(State(None, p.Pods(), {p.a, p.b}, map[], map[]), Begin(0, p.a, StartTask)), Go(0, Succeeds)) ==
            p.With(Row(Running, p.podA, p.a), map[], map[0 := Thread(p.a, Acquiring(ByStart), Running, 0)])
  {
  }

  lemma {:induction false} StartsDriving(p: Pair)
    requires p.Valid()
    ensures var s := p.With(Row(Running, p.podA, p.a), map[], map[0 := Thread(p.a, Acquiring(ByStart), Running, 0)]);
            Take(Take(s, Go(0, Succeeds)), Go(0, Fails)) ==
            p.With(Row(Running, p.podA, p.a), map[p.a := 0], map[0 := Thread(p.a, Releasing, Running, 0)])
  {
    var s := p.With(Row(Running, p.podA, p.a), map[], map[0 := Thread(p.a, Acquiring(ByStart), Running, 0)]);
    var s1 := p.With(Row(Running, p.podA, p.a), map[p.a := 0], map[0 := Thread(p.a, Ready, Running, 0)]);
    assert Take(s, Go(0, Succeeds)) == s1;
  }

  lemma {:induction false} PausesAndReleases(p: Pair)
    requires p.Valid()
    ensures var s := p.With(Row(Running, p.podA, p.a), map[p.a := 0], map[0 := Thread(p.a, Releasing, Running, 0)]);
            Take(Take(s, Go(0, Succeeds)), Go(0, Succeeds)) == p.With(Row(Running, "", ""), map[], map[])
  {
    PauseReleases(p);
  }

  lemma {:induction false} PauseReleases(p: Pair)
    requires p.Valid()
    ensures var s := p.With(Row(Running, p.podA, p.a), map[p.a := 0], map[0 := Thread(p.a, Releasing, Running, 0)]);
            var s1 := p.With(Row(Running, "", ""), map[p.a := 0], map[0 := Thread(p.a, Released, Running, 0)]);
            Take(s, Go(0, Succeeds)) == s1
  {
  }

  lemma {:induction false} RequestClaims(p: Pair)
    requires p.Valid()
    ensures Take(Take(p.With(Row(Running, "", ""), map[], map[]), Begin(1, p.a, ContinueTask)), Go(1, Succeeds)) ==
            p.With(Row(Running, p.podA, p.a), map[], map[1 := Thread(p.a, Acquiring(ByContinue), Running, 0)])
  {
    var s1 := p.With(Row(Running, "", ""), map[], map[1 := Thread(p.a, ClaimingToContinue, Running, 0)]);
    assert Take(p.With(Row(Running, "", ""), map[], map[]), Begin(1, p.a, ContinueTask)) == s1;
  }

  /** A re-stamp takes the registry entry before the request that claimed does. */
  lemma {:induction false} RestampSteals(p: Pair)
    requires p.Valid()
    ensures var waiting := Thread(p.a, Acquiring(ByContinue), Running, 0);
            Take(Take(p.With(Row(Running, p.podA, p.a), map[], map[1 := waiting]), Begin(2, p.a, Restamp)),
                 Go(2, Succeeds)) ==
            p.With(Row(Running, p.podA, p.a), map[p.a := 2], map[1 := waiting, 2 := Thread(p.a, Ready, Running, 0)])
  {
    RestampBegins(p);
  }

  lemma {:induction false} RestampBegins(p: Pair)
    requires p.Valid()
    ensures var waiting := Thread(p.a, Acquiring(ByContinue), Running, 0);
            var s := p.With(Row(Running, p.podA, p.a), map[], map[1 := waiting]);
            var s1 := p.With(Row(Running, p.podA, p.a), map[],
                             map[1 := waiting, 2 := Thread(p.a, Acquiring(ByAdoption(p.a, Running)), Running, 0)]);
            Take(s, Begin(2, p.a, Restamp)) == s1
  {
  }

  /** The request gives its claim back, and with it the re-stamp's. */
  lemma {:induction false} ClaimGivenAway(p: Pair)
    requires p.Valid()
    ensures var waiting := Thread(p.a, Acquiring(ByContinue), Running, 0);
            var driving := Thread(p.a, Ready, Running, 0);
            Take(Take(p.With(Row(Running, p.podA, p.a), map[p.a := 2], map[1 := waiting, 2 := driving]),
                      Go(1, Succeeds)), Go(1, Succeeds)) ==
            p.With(Row(Running, "", ""), map[p.a := 2], map[2 := driving])
  {
    EntryIsTaken(p);
  }

  lemma {:induction false} EntryIsTaken(p: Pair)
    requires p.Valid()
    ensures var waiting := Thread(p.a, Acquiring(ByContinue), Running, 0);
            var driving := Thread(p.a, Ready, Running, 0);
            var s := p.With(Row(Running, p.podA, p.a), map[p.a := 2], map[1 := waiting, 2 := driving]);
            var s1 := p.With(Row(Running, p.podA, p.a), map[p.a := 2],
                             map[1 := Thread(p.a, GivingBack, Running, 0), 2 := driving]);
            Take(s, Go(1, Succeeds)) == s1
  {
  }

  /** Another process claims. */
  lemma {:induction false} OtherClaims(p: Pair)
    requires p.Valid()
    ensures var driving := Thread(p.a, Ready, Running, 0);
            Take(Take(p.With(Row(Running, "", ""), map[p.a := 2], map[2 := driving]), Begin(3, p.b, ContinueTask)),
                 Go(3, Succeeds)) ==
            p.With(Row(Running, p.podB, p.b), map[p.a := 2],
                   map[2 := driving, 3 := Thread(p.b, Acquiring(ByContinue), Running, 0)])
  {
    var driving := Thread(p.a, Ready, Running, 0);
    var s := p.With(Row(Running, "", ""), map[p.a := 2], map[2 := driving]);
    var s1 := p.With(Row(Running, "", ""), map[p.a := 2],
                     map[2 := driving, 3 := Thread(p.b, ClaimingToContinue, Running, 0)]);
    assert Take(s, Begin(3, p.b, ContinueTask)) == s1;
  }

  lemma {:induction false} OtherEnters(p: Pair)
    requires p.Valid()
    ensures var driving := Thread(p.a, Ready, Running, 0);
            Take(p.With(Row(Running, p.podB, p.b), map[p.a := 2],
                        map[2 := driving, 3 := Thread(p.b, Acquiring(ByContinue), Running, 0)]), Go(3, Succeeds)) ==
            p.With(Row(Running, p.podB, p.b), map[p.a := 2, p.b := 3],
                   map[2 := driving, 3 := Thread(p.b, Ready, Running, 0)])
  {
  }

  /** Without the restriction on startup resume, two replicas can drive one session at once. */
  lemma {:induction false} RestampCanBreakOneDriver(p: Pair) returns (labels: seq<Label>)
    requires p.Valid()
    ensures var s := Run(labels);
            && 2 in s.threads && Driving(s.threads[2].pc) && s.threads[2].uid == p.a
            && 3 in s.threads && Driving(s.threads[3].pc) && s.threads[3].uid == p.b
  {
    hide Run, Take;
    var paused := PausedSession(p);
    var claimed := paused + [Begin(1, p.a, ContinueTask), Go(1, Succeeds), Begin(2, p.a, Restamp), Go(2, Succeeds)];
    Four(paused, Begin(1, p.a, ContinueTask), Go(1, Succeeds), Begin(2, p.a, Restamp), Go(2, Succeeds));
    RequestClaims(p);
    RestampSteals(p);
    var given := claimed + [Go(1, Succeeds), Go(1, Succeeds), Begin(3, p.b, ContinueTask), Go(3, Succeeds)];
    Four(claimed, Go(1, Succeeds), Go(1, Succeeds), Begin(3, p.b, ContinueTask), Go(3, Succeeds));
    ClaimGivenAway(p);
    OtherClaims(p);
    labels := given + [Go(3, Succeeds)];
    One(given, Go(3, Succeeds));
    OtherEnters(p);
  }

  /** A continuation passes its checks, then a cancellation begins. */
  lemma {:induction false} CancelBegins(p: Pair)
    requires p.Valid()
    ensures var admitted := Thread(p.a, ClaimingToContinue, Running, 0);
            Take(Take(p.With(Row(Running, "", ""), map[], map[]), Begin(1, p.a, ContinueTask)),
                 Begin(2, p.a, CancelTask)) ==
            p.With(Row(Running, "", ""), map[], map[1 := admitted, 2 := Thread(p.a, Cancelling, Running, 0)])
  {
    var s1 := p.With(Row(Running, "", ""), map[], map[1 := Thread(p.a, ClaimingToContinue, Running, 0)]);
    assert Take(p.With(Row(Running, "", ""), map[], map[]), Begin(1, p.a, ContinueTask)) == s1;
  }

  /** It marks the session TERMINATING and claims it. */
  lemma {:induction false} CancelOvertakes(p: Pair)
    requires p.Valid()
    ensures var admitted := Thread(p.a, ClaimingToContinue, Running, 0);
            Take(Take(p.With(Row(Running, "", ""), map[], map[1 := admitted, 2 := Thread(p.a, Cancelling, Running, 0)]),
                      Go(2, Succeeds)), Go(2, Succeeds)) ==
            p.With(Row(Terminating, p.podA, p.a), map[],
                   map[1 := admitted, 2 := Thread(p.a, AwaitingRegistry, Terminating, 0)])
  {
    var admitted := Thread(p.a, ClaimingToContinue, Running, 0);
    CancelMarks(p);
    var s1 := p.With(Row(Terminating, "", ""), map[],
                     map[1 := admitted, 2 := Thread(p.a, ClaimingToCleanUp, Running, 0)]);
    var row := Row(Terminating, p.podA, p.a);
    assert Take(s1, Go(2, Succeeds)) ==
           s1.(row := Some(row), threads := s1.threads[2 := Thread(p.a, AwaitingRegistry, Terminating, 0)]);
  }

  lemma {:induction false} CancelMarks(p: Pair)
    requires p.Valid()
    ensures var admitted := Thread(p.a, ClaimingToContinue, Running, 0);
            Take(p.With(Row(Running, "", ""), map[], map[1 := admitted, 2 := Thread(p.a, Cancelling, Running, 0)]),
                 Go(2, Succeeds)) ==
            p.With(Row(Terminating, "", ""), map[], map[1 := admitted, 2 := Thread(p.a, ClaimingToCleanUp, Running, 0)])
  {
  }

  /** It cleans up and terminates the session. */
  lemma {:induction false} CancelTerminates(p: Pair)
    requires p.Valid()
    ensures var admitted := Thread(p.a, ClaimingToContinue, Running, 0);
            Take(Take(p.With(Row(Terminating, p.podA, p.a), map[],
                             map[1 := admitted, 2 := Thread(p.a, AwaitingRegistry, Terminating, 0)]),
                      Go(2, Succeeds)), Go(2, Succeeds)) ==
            p.With(Row(Terminated, p.podA, p.a), map[p.a := 2],
                   map[1 := admitted, 2 := Thread(p.a, Releasing, Terminating, 0)])
  {
    CancelEnters(p);
  }

  lemma {:induction false} CancelEnters(p: Pair)
    requires p.Valid()
    ensures var admitted := Thread(p.a, ClaimingToContinue, Running, 0);
            var s := p.With(Row(Terminating, p.podA, p.a), map[],
                            map[1 := admitted, 2 := Thread(p.a, AwaitingRegistry, Terminating, 0)]);
            var s1 := p.With(Row(Terminating, p.podA, p.a), map[p.a := 2],
                             map[1 := admitted, 2 := Thread(p.a, Finishing(false), Terminating, 0)]);
            Take(s, Go(2, Succeeds)) == s1
  {
  }

  /** And releases it. */
  lemma {:induction false} CancelFinishes(p: Pair)
    requires p.Valid()
    ensures var admitted := Thread(p.a, ClaimingToContinue, Running, 0);
            Take(Take(p.With(Row(Terminated, p.podA, p.a), map[p.a := 2],
                             map[1 := admitted, 2 := Thread(p.a, Releasing, Terminating, 0)]),
                      Go(2, Succeeds)), Go(2, Succeeds)) ==
            p.With(Row(Terminated, "", ""), map[], map[1 := admitted])
  {
    CancelReleases(p);
  }

  lemma {:induction false} CancelReleases(p: Pair)
    requires p.Valid()
    ensures var admitted := Thread(p.a, ClaimingToContinue, Running, 0);
            var s := p.With(Row(Terminated, p.podA, p.a), map[p.a := 2],
                            map[1 := admitted, 2 := Thread(p.a, Releasing, Terminating, 0)]);
            var s1 := p.With(Row(Terminated, "", ""), map[p.a := 2],
                             map[1 := admitted, 2 := Thread(p.a, Released, Terminating, 0)]);
            Take(s, Go(2, Succeeds)) == s1
  {
  }

  /** The session's end does not stop the continuation's claim. */
  lemma {:induction false} ClaimsAfterTheEnd(p: Pair)
    requires p.Valid()
    ensures var admitted := Thread(p.a, ClaimingToContinue, Running, 0);
            Take(Take(p.With(Row(Terminated, "", ""), map[], map[1 := admitted]), Go(1, Succeeds)), Go(1, Succeeds)) ==
            p.With(Row(Terminated, p.podA, p.a), map[p.a := 1], map[1 := Thread(p.a, Ready, Terminated, 0)])
  {
    var admitted := Thread(p.a, ClaimingToContinue, Running, 0);
    var s := p.With(Row(Terminated, "", ""), map[], map[1 := admitted]);
    var s1 := p.With(Row(Terminated, p.podA, p.a), map[], map[1 := Thread(p.a, Acquiring(ByContinue), Terminated, 0)]);
    assert Take(s, Go(1, Succeeds)) == s1;
  }

  /** Nor does the check after a hop. */
  lemma {:induction false} HopsAfterTheEnd(p: Pair, n: nat)
    requires p.Valid()
    ensures var s := p.With(Row(Terminated, p.podA, p.a), map[p.a := 1], map[1 := Thread(p.a, Ready, Terminated, n)]);
            Take(Take(Take(s, Go(1, Succeeds)), Go(1, Succeeds)), Go(1, Succeeds)) ==
            p.With(Row(Terminated, p.podA, p.a), map[p.a := 1], map[1 := Thread(p.a, Ready, Terminated, n + 1)])
  {
    HopStartsAfterTheEnd(p, n);
    HopEndsAfterTheEnd(p, n);
  }

  lemma {:induction false} HopEndsAfterTheEnd(p: Pair, n: nat)
    requires p.Valid()
    ensures var s := p.With(Row(Terminated, p.podA, p.a), map[p.a := 1],
                            map[1 := Thread(p.a, InHop, Terminated, n + 1)]);
            Take(Take(s, Go(1, Succeeds)), Go(1, Succeeds)) ==
            p.With(Row(Terminated, p.podA, p.a), map[p.a := 1], map[1 := Thread(p.a, Ready, Terminated, n + 1)])
  {
    var s := p.With(Row(Terminated, p.podA, p.a), map[p.a := 1], map[1 := Thread(p.a, InHop, Terminated, n + 1)]);
    var s1 := p.With(Row(Terminated, p.podA, p.a), map[p.a := 1], map[1 := Thread(p.a, Checking, Terminated, n + 1)]);
    assert Take(s, Go(1, Succeeds)) == s1;
  }

  lemma {:induction false} HopStartsAfterTheEnd(p: Pair, n: nat)
    requires p.Valid()
    ensures var s := p.With(Row(Terminated, p.podA, p.a), map[p.a := 1], map[1 := Thread(p.a, Ready, Terminated, n)]);
            var s1 := p.With(Row(Terminated, p.podA, p.a), map[p.a := 1],
                             map[1 := Thread(p.a, InHop, Terminated, n + 1)]);
            Take(s, Go(1, Succeeds)) == s1
  {
  }

  /**
   * A continuation admitted before a cancellation may claim the session after its end, and nothing stops its loop:
   * it can start any number of hops.
   */
  lemma {:induction false} ClaimAfterTheEndRunsOn(p: Pair, n: nat) returns (labels: seq<Label>)
    requires p.Valid()
    ensures NoRestamps(labels)
    ensures Run(labels) ==
            p.With(Row(Terminated, p.podA, p.a), map[p.a := 1], map[1 := Thread(p.a, Ready, Terminated, n)])
  {
    hide Run, Take;
    if n == 0 {
      var paused := PausedSession(p);
      Four(paused, Begin(1, p.a, ContinueTask), Begin(2, p.a, CancelTask), Go(2, Succeeds), Go(2, Succeeds));
      CancelBegins(p);
      CancelOvertakes(p);
      var marked := paused + [Begin(1, p.a, ContinueTask), Begin(2, p.a, CancelTask), Go(2, Succeeds), Go(2, Succeeds)];
      Four(marked, Go(2, Succeeds), Go(2, Succeeds), Go(2, Succeeds), Go(2, Succeeds));
      CancelTerminates(p);
      CancelFinishes(p);
      var over := marked + [Go(2, Succeeds), Go(2, Succeeds), Go(2, Succeeds), Go(2, Succeeds)];
      One(over, Go(1, Succeeds));
      One(over + [Go(1, Succeeds)], Go(1, Succeeds));
      ClaimsAfterTheEnd(p);
      labels := over + [Go(1, Succeeds)] + [Go(1, Succeeds)];
    } else {
      var before := ClaimAfterTheEndRunsOn(p, n - 1);
      var hop := Go(1, Succeeds);
      One(before, hop);
      One(before + [hop], hop);
      One(before + [hop] + [hop], hop);
      HopsAfterTheEnd(p, n - 1);
      labels := before + [hop] + [hop] + [hop];
    }
  }

  lemma {:induction false} MarkFails(p: Pair)
    requires p.Valid()
    ensures var s := p.With(Row(Running, p.podA, p.a), map[], map[0 := Thread(p.a, Acquiring(ByStart), Running, 0)]);
            Take(Take(Take(s, Go(0, Succeeds)), Go(0, Ends)), Go(0, Fails)) ==
            p.With(Row(Running, p.podA, p.a), map[p.a := 0], map[0 := Thread(p.a, Finishing(true), Running, 0)])
  {
    var s := p.With(Row(Running, p.podA, p.a), map[], map[0 := Thread(p.a, Acquiring(ByStart), Running, 0)]);
    var s1 := p.With(Row(Running, p.podA, p.a), map[p.a := 0], map[0 := Thread(p.a, Ready, Running, 0)]);
    assert Take(s, Go(0, Succeeds)) == s1;
    AnswersAtOnce(p);
  }

  lemma {:induction false} AnswersAtOnce(p: Pair)
    requires p.Valid()
    ensures Take(Take(p.With(Row(Running, p.podA, p.a), map[p.a := 0], map[0 := Thread(p.a, Ready, Running, 0)]),
                      Go(0, Ends)), Go(0, Fails)) ==
            p.With(Row(Running, p.podA, p.a), map[p.a := 0], map[0 := Thread(p.a, Finishing(true), Running, 0)])
  {
    AnswersFinally(p);
  }

  lemma {:induction false} AnswersFinally(p: Pair)
    requires p.Valid()
    ensures var s := p.With(Row(Running, p.podA, p.a), map[p.a := 0], map[0 := Thread(p.a, Ready, Running, 0)]);
            var s1 := p.With(Row(Running, p.podA, p.a), map[p.a := 0], map[0 := Thread(p.a, Marking, Running, 0)]);
            Take(s, Go(0, Ends)) == s1
  {
  }

  lemma {:induction false} LastWriteLands(p: Pair)
    requires p.Valid()
    ensures Take(p.With(Row(Running, p.podA, p.a), map[p.a := 0],
                        map[0 := Thread(p.a, Finishing(true), Running, 0)]), Go(0, Succeeds)) ==
            p.With(Row(Terminated, p.podA, p.a), map[p.a := 0], map[0 := Thread(p.a, Releasing, Running, 0)])
  {
  }

  /** A session that ends with its mark failing goes from RUNNING straight to TERMINATED. */
  lemma {:induction false} EndSkipsTerminating(p: Pair) returns (labels: seq<Label>)
    requires p.Valid()
    ensures NoRestamps(labels)
    ensures Run(labels).row == Some(Row(Running, p.podA, p.a))
    ensures Run(labels + [Go(0, Succeeds)]).row == Some(Row(Terminated, p.podA, p.a))
  {
    hide Run, Take;
    var first := StartedSession(p);
    One(first, Go(0, Succeeds));
    One(first + [Go(0, Succeeds)], Go(0, Ends));
    One(first + [Go(0, Succeeds)] + [Go(0, Ends)], Go(0, Fails));
    MarkFails(p);
    labels := first + [Go(0, Succeeds)] + [Go(0, Ends)] + [Go(0, Fails)];
    One(labels, Go(0, Succeeds));
    LastWriteLands(p);
  }
}
