/**
 * Mutual exclusion of the features of a list: exactly which families of lists
 * the feature manager keeps exclusive in every run.
 */
module FeatureExclusion {
  import opened Common
  import opened FeatureManager

  /** Some list puts g before h. */
  ghost predicate Above(lists: Lists, g: Feature, h: Feature) {
    exists l :: 0 <= l < |lists| && Before(lists[l], g, h)
  }

  ghost predicate Before(list: seq<Feature>, g: Feature, h: Feature) {
    exists p, q :: 0 <= p < q < |list| && list[p] == g && list[q] == h
  }

  ghost predicate Distinct(list: seq<Feature>) {
    forall p, q :: 0 <= p < q < |list| ==> list[p] != list[q]
  }

  /** Known features, each at most once per list, lists the index search can
      address, and no two features ordered both ways. */
  ghost predicate Proper(lists: Lists, n: nat) {
    && (forall l :: 0 <= l < |lists| ==> |lists[l]| <= INDEX_NOT_FOUND && Distinct(lists[l]))
    && (forall l, p :: 0 <= l < |lists| && 0 <= p < |lists[l]| ==> lists[l][p] < n)
    && (forall g, h :: Above(lists, g, h) ==> !Above(lists, h, g))
  }

  /** No two features of one list run together. */
  ghost predicate Exclusive(lists: Lists, c: Clients) {
    forall l, p, q :: 0 <= l < |lists| && 0 <= p < q < |lists[l]|
                      ==> !(In(c, lists[l][p], Running) && In(c, lists[l][q], Running))
  }

  ghost predicate Transitive(lists: Lists) {
    forall g, h, k :: Above(lists, g, h) && Above(lists, h, k) ==> Above(lists, g, k)
  }

  /** When f stops, a feature is visited before every feature below it. */
  ghost predicate VisitsTopDown(lists: Lists, f: Feature) {
    forall h, k, m :: Above(lists, f, h) && Above(lists, h, k) && 0 <= m < |Lower(lists, f)| && Lower(lists, f)[m] == k
                      ==> h in Lower(lists, f)[..m]
  }

  ghost predicate VisitOrdered(lists: Lists) {
    forall f :: VisitsTopDown(lists, f)
  }

  // ----- indices and orders --------------------------------------------------

  lemma {:induction false} IndexOf(list: seq<Feature>, p: nat)
    requires |list| <= INDEX_NOT_FOUND && Distinct(list) && p < |list|
    ensures Index(list, list[p]) == p
  {
    var i := Index(list, list[p]);
    assert list[0..] == list;
  }

  lemma {:induction false} TailIsBelow(list: seq<Feature>, g: Feature, h: Feature)
    requires |list| <= INDEX_NOT_FOUND && Distinct(list)
    ensures h in TailAfter(list, g) <==> Before(list, g, h)
  {
    var i := Index(list, g);
    if Before(list, g, h) {
      var p, q :| 0 <= p < q < |list| && list[p] == g && list[q] == h;
      IndexOf(list, p);
      assert list[p + 1..][q - p - 1] == h;
    }
    if h in TailAfter(list, g) {
      var k :| 0 <= k < |list[i + 1..]| && list[i + 1..][k] == h;
      assert list[i] == g && list[i + 1 + k] == h;
    }
  }

  lemma {:induction false} LowerIsBelow(lists: Lists, g: Feature, h: Feature)
    requires forall l :: 0 <= l < |lists| ==> |lists[l]| <= INDEX_NOT_FOUND && Distinct(lists[l])
    ensures h in Lower(lists, g) <==> Above(lists, g, h)
  {
    if lists != [] {
      var rest := lists[1..];
      LowerIsBelow(rest, g, h);
      TailIsBelow(lists[0], g, h);
      if Above(lists, g, h) {
        var l :| 0 <= l < |lists| && Before(lists[l], g, h);
        if l > 0 { assert rest[l - 1] == lists[l]; }
      }
      if Above(rest, g, h) {
        var l :| 0 <= l < |rest| && Before(rest[l], g, h);
        assert lists[l + 1] == rest[l];
      }
    }
  }

  /** Some feature above h runs. */
  ghost predicate RunsAbove(lists: Lists, c: Clients, h: Feature) {
    exists g :: Above(lists, g, h) && In(c, g, Running)
  }

  lemma {:induction false} HigherRunningIsAbove(lists: Lists, n: nat, c: Clients, f: Feature)
    requires Proper(lists, n)
    ensures HigherRunning(lists, c, f) <==> RunsAbove(lists, c, f)
  {
    if HigherRunning(lists, c, f) {
      var l :| 0 <= l < |lists| && HigherRunningIn(lists[l], c, f);
      var p :| 0 <= p < Index(lists[l], f) && In(c, lists[l][p], Running);
      assert Before(lists[l], lists[l][p], f);
      assert Above(lists, lists[l][p], f);
    }
    if g :| Above(lists, g, f) && In(c, g, Running) {
      var l :| 0 <= l < |lists| && Before(lists[l], g, f);
      var p, q :| 0 <= p < q < |lists[l]| && lists[l][p] == g && lists[l][q] == f;
      IndexOf(lists[l], q);
      assert HigherRunningIn(lists[l], c, f);
    }
  }

  lemma {:induction false} ExclusiveByOrder(lists: Lists, c: Clients)
    ensures Exclusive(lists, c) <==>
            forall g, h :: Above(lists, g, h) ==> !(In(c, g, Running) && In(c, h, Running))
  {
    if Exclusive(lists, c) {
      forall g, h | Above(lists, g, h) ensures !(In(c, g, Running) && In(c, h, Running)) {
        var l :| 0 <= l < |lists| && Before(lists[l], g, h);
      }
    }
    if forall g, h :: Above(lists, g, h) ==> !(In(c, g, Running) && In(c, h, Running)) {
      forall l, p, q | 0 <= l < |lists| && 0 <= p < q < |lists[l]|
        ensures !(In(c, lists[l][p], Running) && In(c, lists[l][q], Running))
      {
        assert Before(lists[l], lists[l][p], lists[l][q]);
        assert Above(lists, lists[l][p], lists[l][q]);
      }
    }
  }

  // ----- invariant -----------------------------------------------------------

  /** A suspended feature has some higher-priority feature running. */
  ghost predicate Backed(lists: Lists, c: Clients) {
    forall h :: In(c, h, Suspended) ==> RunsAbove(lists, c, h)
  }

  /** A registered feature that something is above has both callbacks. */
  ghost predicate Equipped(lists: Lists, c: Clients) {
    forall g, h: Feature :: Above(lists, g, h) && Registered(c, h) ==> c[h].value.canSuspend && c[h].value.canResume
  }

  ghost predicate Sound(lists: Lists, c: Clients) {
    && (forall g, h :: Above(lists, g, h) ==> !(In(c, g, Running) && In(c, h, Running)))
    && Backed(lists, c)
    && Equipped(lists, c)
  }

  ghost predicate SameEquipment(c: Clients, d: Clients) {
    && |c| == |d|
    && forall f :: 0 <= f < |c| ==>
         && (c[f].Some? <==> d[f].Some?)
         && (c[f].Some? ==> c[f].value.canSuspend == d[f].value.canSuspend)
         && (c[f].Some? ==> c[f].value.canResume == d[f].value.canResume)
  }

  lemma {:induction false} ActOnAllEquipment(lists: Lists, c: Clients, visits: seq<Feature>, act: Act)
    ensures SameEquipment(c, ActOnAll(lists, c, visits, act))
    decreases |visits|
  {
    if visits != [] {
      ActOnAllEquipment(lists, ActOn(lists, c, visits[0], act), visits[1..], act);
    }
  }

  lemma {:induction false} SuspendAll(lists: Lists, c: Clients, visits: seq<Feature>, h: Feature)
    requires Registered(c, h)
    ensures var d := ActOnAll(lists, c, visits, Suspend);
            d[h] == if h in visits && c[h].value.canSuspend && c[h].value.state == Running
                    then Some(c[h].value.(state := Suspended)) else c[h]
    decreases |visits|
  {
    if visits != [] {
      SuspendAll(lists, ActOn(lists, c, visits[0], Suspend), visits[1..], h);
      assert visits == [visits[0]] + visits[1..];
    }
  }

  lemma {:induction false} StartKeepsSound(lists: Lists, n: nat, c: Clients, f: Feature)
    requires Proper(lists, n) && Transitive(lists) && |c| == n && Sound(lists, c) && Registered(c, f)
    ensures Sound(lists, Step(lists, c, Start(f)).value)
  {
    var d := Step(lists, c, Start(f)).value;
    HigherRunningIsAbove(lists, n, c, f);
    if !HigherRunning(lists, c, f) {
      var c' := StartRequest(lists, c, f).1;
      ActOnAllEquipment(lists, c, Lower(lists, f), Suspend);
      forall h: Feature | Registered(c, h)
        ensures d[h].Some? && d[h].value.state == if h == f then Running
                else if Above(lists, f, h) && c[h].value.state == Running then Suspended else c[h].value.state
      {
        SuspendAll(lists, c, Lower(lists, f), h);
        LowerIsBelow(lists, f, h);
      }
      forall h | In(d, h, Suspended) ensures RunsAbove(lists, d, h) {
        assert In(d, f, Running);
        if !Above(lists, f, h) {
          assert Registered(c, h) && In(c, h, Suspended);
          var g :| Above(lists, g, h) && In(c, g, Running);
          assert In(d, g, Running);
        }
      }
    }
  }

  /** The features among the first m visits. */
  ghost function Seen(visits: seq<Feature>, m: nat): set<Feature>
    requires m <= |visits|
  {
    if m == 0 then {} else Seen(visits, m - 1) + {visits[m - 1]}
  }

  lemma {:induction false} SeenIn(visits: seq<Feature>, m: nat, x: Feature)
    requires m <= |visits|
    ensures x in Seen(visits, m) <==> x in visits[..m]
  {
    if m > 0 {
      SeenIn(visits, m - 1, x);
      assert visits[..m] == visits[..m - 1] + [visits[m - 1]];
    }
  }

  /** d is c with some suspended features of `done` running. */
  ghost predicate OnlyResumed(c: Clients, d: Clients, done: set<Feature>) {
    && SameEquipment(c, d)
    && (forall k :: In(c, k, Running) ==> In(d, k, Running))
    && (forall k :: In(d, k, Suspended) ==> In(c, k, Suspended))
    && (forall k {:trigger In(d, k, Running)} :: In(d, k, Running) && !In(c, k, Running) ==> k in done)
  }

  lemma {:induction false} ResumeOnly(lists: Lists, c: Clients, d: Clients, done: set<Feature>, h: Feature)
    requires OnlyResumed(c, d, done)
    ensures OnlyResumed(c, ActOn(lists, d, h, Resume), done + {h})
  {
    var d' := ActOn(lists, d, h, Resume);
    assert forall k :: In(d', k, Running) ==> In(d, k, Running) || k == h;
  }

  /** Part way through the resumes of a stop of f that began in state c. */
  ghost predicate Resuming(lists: Lists, c: Clients, d: Clients, done: set<Feature>) {
    && (forall g, h :: Above(lists, g, h) ==> !(In(d, g, Running) && In(d, h, Running)))
    && OnlyResumed(c, d, done)
    && (forall h {:trigger In(d, h, Suspended)} :: In(d, h, Suspended) && h in done ==> RunsAbove(lists, d, h))
  }

  /** No feature below a suspended one runs. */
  ghost predicate Held(lists: Lists, c: Clients) {
    forall h, k :: In(c, h, Suspended) && Above(lists, h, k) ==> !In(c, k, Running)
  }

  lemma {:induction false} VisitedEarlier(lists: Lists, f: Feature, m: nat, k: Feature)
    requires VisitOrdered(lists) && m < |Lower(lists, f)|
    requires Above(lists, f, Lower(lists, f)[m]) && Above(lists, Lower(lists, f)[m], k)
    ensures k in Seen(Lower(lists, f), m) ==> Lower(lists, f)[m] in Seen(Lower(lists, f), m)
  {
    var visits := Lower(lists, f);
    assert VisitsTopDown(lists, f);
    SeenIn(visits, m, k);
    SeenIn(visits, m, visits[m]);
    if k in visits[..m] {
      var j :| 0 <= j < m && visits[j] == k;
      assert visits[m] in visits[..j];
      assert visits[..j] <= visits[..m];
    }
  }

  /** When a visit resumes h, nothing below h runs. */
  lemma {:induction false} ResumedAlone(lists: Lists, n: nat, f: Feature, c: Clients, d: Clients, m: nat, k: Feature)
    requires Proper(lists, n) && VisitOrdered(lists) && |c| == n && Held(lists, c)
    requires m < |Lower(lists, f)| && Resuming(lists, c, d, Seen(Lower(lists, f), m))
    requires In(d, Lower(lists, f)[m], Suspended) && !HigherRunning(lists, d, Lower(lists, f)[m])
    requires Above(lists, Lower(lists, f)[m], k)
    ensures !In(d, k, Running)
  {
    var visits := Lower(lists, f);
    var h := visits[m];
    assert h in visits;
    LowerIsBelow(lists, f, h);
    HigherRunningIsAbove(lists, n, d, h);
    assert In(c, h, Suspended);
    VisitedEarlier(lists, f, m, k);
  }

  lemma {:induction false} ResumeExclusive(lists: Lists, n: nat, f: Feature, c: Clients, d: Clients, m: nat)
    requires Proper(lists, n) && VisitOrdered(lists) && |c| == n && Held(lists, c)
    requires m < |Lower(lists, f)| && Resuming(lists, c, d, Seen(Lower(lists, f), m))
    ensures var d' := ActOn(lists, d, Lower(lists, f)[m], Resume);
            forall g, k :: Above(lists, g, k) ==> !(In(d', g, Running) && In(d', k, Running))
  {
    var h := Lower(lists, f)[m];
    HigherRunningIsAbove(lists, n, d, h);
    if In(d, h, Suspended) && !HigherRunning(lists, d, h) {
      forall k | Above(lists, h, k) ensures !In(d, k, Running) { ResumedAlone(lists, n, f, c, d, m, k); }
    }
  }

  lemma {:induction false} ResumeOne(lists: Lists, n: nat, f: Feature, c: Clients, d: Clients, m: nat)
    requires Proper(lists, n) && VisitOrdered(lists) && |c| == n && Equipped(lists, c) && Held(lists, c)
    requires m < |Lower(lists, f)| && Resuming(lists, c, d, Seen(Lower(lists, f), m))
    ensures Resuming(lists, c, ActOn(lists, d, Lower(lists, f)[m], Resume), Seen(Lower(lists, f), m + 1))
  {
    var visits := Lower(lists, f);
    var h := visits[m];
    ResumeExclusive(lists, n, f, c, d, m);
    ResumeOnly(lists, c, d, Seen(visits, m), h);
    assert Registered(d, h) ==> d[h].value.canResume by {
      assert h in visits;
      LowerIsBelow(lists, f, h);
    }
    ResumeBacks(lists, n, d, Seen(visits, m), h);
  }

  lemma {:induction false} ResumeBacks(lists: Lists, n: nat, d: Clients, done: set<Feature>, h: Feature)
    requires Proper(lists, n) && (Registered(d, h) ==> d[h].value.canResume)
    requires forall k {:trigger In(d, k, Suspended)} :: In(d, k, Suspended) && k in done ==> RunsAbove(lists, d, k)
    ensures var d' := ActOn(lists, d, h, Resume);
            forall k {:trigger In(d', k, Suspended)} ::
              In(d', k, Suspended) && k in done + {h} ==> RunsAbove(lists, d', k)
  {
    HigherRunningIsAbove(lists, n, d, h);
    BackingKept(lists, d, ActOn(lists, d, h, Resume), h);
  }

  /** A resume leaves in place what backs the other suspended features. */
  lemma {:induction false} BackingKept(lists: Lists, d: Clients, d': Clients, h: Feature)
    requires d' == ActOn(lists, d, h, Resume)
    ensures forall k, g :: Above(lists, g, k) && In(d, g, Running) ==> In(d', g, Running)
    ensures forall k :: k != h && In(d', k, Suspended) ==> In(d, k, Suspended)
    ensures forall k :: In(d', k, Suspended) && RunsAbove(lists, d, k)
                        ==> RunsAbove(lists, d', k)
  {
    forall k | In(d', k, Suspended) && RunsAbove(lists, d, k)
      ensures RunsAbove(lists, d', k)
    {
      var g :| Above(lists, g, k) && In(d, g, Running);
      assert In(d', g, Running);
    }
  }

  /** e is d after the visits from the m-th on. */
  lemma {:induction false} ResumeAll(lists: Lists, n: nat, f: Feature, c: Clients, d: Clients, m: nat, e: Clients)
    requires Proper(lists, n) && VisitOrdered(lists) && |c| == n && Equipped(lists, c) && Held(lists, c)
    requires m <= |Lower(lists, f)| && Resuming(lists, c, d, Seen(Lower(lists, f), m))
    requires e == ActOnAll(lists, d, Lower(lists, f)[m..], Resume)
    ensures Resuming(lists, c, e, Seen(Lower(lists, f), |Lower(lists, f)|))
    decreases |Lower(lists, f)| - m
  {
    var visits := Lower(lists, f);
    if m == |visits| {
      assert e == d;
    } else {
      ResumeOne(lists, n, f, c, d, m);
      ActOnNext(lists, d, visits, m, Resume);
      ResumeAll(lists, n, f, c, ActOn(lists, d, visits[m], Resume), m + 1, e);
    }
  }

  lemma {:induction false} SoundHolds(lists: Lists, c: Clients, f: Feature)
    requires Transitive(lists) && Sound(lists, c) && Registered(c, f)
    ensures Held(lists, Set(c, f, Idle)) && Equipped(lists, Set(c, f, Idle))
  {
    var c' := Set(c, f, Idle);
    forall h, k | In(c', h, Suspended) && Above(lists, h, k) ensures !In(c', k, Running) {
      assert In(c, h, Suspended);
      var g :| Above(lists, g, h) && In(c, g, Running);
      assert Above(lists, g, k);
    }
  }

  lemma {:induction false} StopKeepsSound(lists: Lists, n: nat, c: Clients, f: Feature)
    requires Proper(lists, n) && Transitive(lists) && VisitOrdered(lists)
    requires |c| == n && Sound(lists, c) && Registered(c, f)
    ensures Sound(lists, Step(lists, c, Stop(f)).value)
  {
    var c' := Set(c, f, Idle);
    var visits := Lower(lists, f);
    SoundHolds(lists, c, f);
    assert visits[0..] == visits;
    assert Resuming(lists, c', c', Seen(visits, 0));
    var d := ActOnAll(lists, c', visits, Resume);
    ResumeAll(lists, n, f, c', c', 0, d);
    forall h | In(d, h, Suspended) ensures RunsAbove(lists, d, h) {
      StillBacked(lists, n, c, d, f, h);
    }
  }

  lemma {:induction false} StillBacked(lists: Lists, n: nat, c: Clients, d: Clients, f: Feature, h: Feature)
    requires Proper(lists, n) && Backed(lists, c) && Registered(c, f)
    requires Resuming(lists, Set(c, f, Idle), d, Seen(Lower(lists, f), |Lower(lists, f)|)) && In(d, h, Suspended)
    ensures RunsAbove(lists, d, h)
  {
    assert In(Set(c, f, Idle), h, Suspended);
    assert In(c, h, Suspended);
    var g :| Above(lists, g, h) && In(c, g, Running);
    if g == f {
      LowerIsBelow(lists, f, h);
      SeenIn(Lower(lists, f), |Lower(lists, f)|, h);
      assert Lower(lists, f)[..|Lower(lists, f)|] == Lower(lists, f);
    } else {
      assert In(Set(c, f, Idle), g, Running);
    }
  }

  /** Registration panics exactly for a feature already registered, or one that some
      list puts below another and that lacks a callback; otherwise it adds that one
      client, idle, with its callbacks. */
  lemma {:induction false} RegistrationIff(
      lists: Lists, n: nat, c: Clients, f: Feature, canSuspend: bool, canResume: bool)
    requires Proper(lists, n) && |c| == n && f < n
    ensures var d := Step(lists, c, Register(f, canSuspend, canResume));
            && (d.Some? <==> !Registered(c, f) && ((canSuspend && canResume) || forall g :: !Above(lists, g, f)))
            && (d.Some? ==> d.value == c[f := Some(Client(Idle, canSuspend, canResume))])
  {
    TopIsNotBelow(lists, n, f);
  }

  lemma {:induction false} TopIsNotBelow(lists: Lists, n: nat, f: Feature)
    requires Proper(lists, n)
    ensures TopEverywhere(lists, f) <==> forall g :: !Above(lists, g, f)
  {
    if TopEverywhere(lists, f) {
      forall g ensures !Above(lists, g, f) {
        if Above(lists, g, f) { NotFirst(lists, n, g, f); }
      }
    } else {
      var l :| 0 <= l < |lists| && Index(lists[l], f) != INDEX_NOT_FOUND && Index(lists[l], f) != 0;
      assert Before(lists[l], lists[l][0], f);
      assert Above(lists, lists[l][0], f);
    }
  }

  lemma {:induction false} NotFirst(lists: Lists, n: nat, g: Feature, f: Feature)
    requires Proper(lists, n) && Above(lists, g, f)
    ensures !TopEverywhere(lists, f)
  {
    var l :| 0 <= l < |lists| && Before(lists[l], g, f);
    var p, q :| 0 <= p < q < |lists[l]| && lists[l][p] == g && lists[l][q] == f;
    IndexOf(lists[l], q);
  }

  lemma {:induction false} RegisterKeepsSound(
      lists: Lists, n: nat, c: Clients, f: Feature, canSuspend: bool, canResume: bool)
    requires Proper(lists, n) && |c| == n && Sound(lists, c) && f < n
    requires Registration(lists, c, f, canSuspend, canResume).Some?
    ensures Sound(lists, Registration(lists, c, f, canSuspend, canResume).value)
  {
    var d := Registration(lists, c, f, canSuspend, canResume).value;
    forall g | Above(lists, g, f) ensures canSuspend && canResume {
      var l :| 0 <= l < |lists| && Before(lists[l], g, f);
      var p, q :| 0 <= p < q < |lists[l]| && lists[l][p] == g && lists[l][q] == f;
      IndexOf(lists[l], q);
    }
    forall h | In(d, h, Suspended) ensures RunsAbove(lists, d, h) {
      assert In(c, h, Suspended);
      var g :| Above(lists, g, h) && In(c, g, Running);
      assert In(d, g, Running);
    }
  }

  /** For lists whose order is transitive and visited top down, every run keeps
      the features of a list exclusive, and in every state it reaches a suspended
      feature has some higher-priority feature running. */
  lemma {:induction false} RunsStayExclusive(lists: Lists, n: nat, moves: seq<Move>)
    requires Proper(lists, n) && Transitive(lists) && VisitOrdered(lists)
    requires RunMoves(lists, n, moves).Some?
    ensures var c := RunMoves(lists, n, moves).value;
            Sound(lists, c) && Exclusive(lists, c) && Backed(lists, c)
  {
    if moves != [] {
      var c := RunMoves(lists, n, moves[..|moves| - 1]).value;
      RunsStayExclusive(lists, n, moves[..|moves| - 1]);
      match moves[|moves| - 1]
      case Register(f, canSuspend, canResume) =>
        if f < n { RegisterKeepsSound(lists, n, c, f, canSuspend, canResume); }
      case Start(f) => if Registered(c, f) { StartKeepsSound(lists, n, c, f); }
      case Stop(f) => if Registered(c, f) { StopKeepsSound(lists, n, c, f); }
    }
    ExclusiveByOrder(lists, RunMoves(lists, n, moves).value);
  }
}
