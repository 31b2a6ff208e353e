/**
 * The converse: lists that are not transitive, or not visited top down, have a
 * run in which two features of one list run together. And the shapes of lists
 * that the products use, which meet both conditions.
 */
module FeatureLimits {
  import opened FeatureManager
  import opened FeatureExclusion

  /** Only these three have registered, with all callbacks, in these states. */
  ghost predicate Trio(c: Clients, f: Feature, fs: State, h: Feature, hs: State, k: Feature, ks: State) {
    && In(c, f, fs) && In(c, h, hs) && In(c, k, ks)
    && (forall x: Feature :: Registered(c, x) ==> x in {f, h, k} && c[x].value.canSuspend && c[x].value.canResume)
  }

  lemma {:induction false} StartInTrio(lists: Lists, n: nat, c: Clients, f: Feature)
    requires Proper(lists, n) && Registered(c, f)
    requires forall x: Feature :: Registered(c, x) ==> c[x].value.canSuspend
    requires forall g :: In(c, g, Running) ==> !Above(lists, g, f)
    ensures var d := Step(lists, c, Start(f)).value;
            && SameEquipment(c, d) && In(d, f, Running)
            && forall x: Feature :: Registered(c, x) && x != f ==>
                 d[x].value.state ==
                 if Above(lists, f, x) && c[x].value.state == Running then Suspended else c[x].value.state
  {
    HigherRunningIsAbove(lists, n, c, f);
    ActOnAllEquipment(lists, c, Lower(lists, f), Suspend);
    forall x: Feature | Registered(c, x) && x != f
      ensures Step(lists, c, Start(f)).value[x].value.state ==
              if Above(lists, f, x) && c[x].value.state == Running then Suspended else c[x].value.state
    {
      SuspendAll(lists, c, Lower(lists, f), x);
      LowerIsBelow(lists, f, x);
    }
  }

  /** While k runs and nothing above h does, visiting h resumes it. */
  lemma {:induction false} ResumesAnyway(
      lists: Lists, n: nat, c: Clients, f: Feature, h: Feature, k: Feature, visits: seq<Feature>)
    requires Proper(lists, n) && !Above(lists, k, h) && f != h && h != k
    requires Trio(c, f, Idle, h, Running, k, Running) || (h in visits && Trio(c, f, Idle, h, Suspended, k, Running))
    ensures Trio(ActOnAll(lists, c, visits, Resume), f, Idle, h, Running, k, Running)
    decreases |visits|
  {
    if visits != [] {
      assert In(c, h, Suspended) ==> forall g :: In(c, g, Running) ==> g == k;
      HigherRunningIsAbove(lists, n, c, h);
      var d := ActOn(lists, c, visits[0], Resume);
      assert visits == [visits[0]] + visits[1..];
      assert Trio(d, f, Idle, h, if In(c, h, Suspended) && visits[0] != h then Suspended else Running, k, Running);
      ResumesAnyway(lists, n, d, f, h, k, visits[1..]);
    }
  }

  ghost function Registering(f: Feature, h: Feature, k: Feature): seq<Move> {
    [Register(f, true, true), Register(h, true, true), Register(k, true, true)]
  }

  lemma {:induction false} Extend(lists: Lists, n: nat, moves: seq<Move>, m: Move)
    requires RunMoves(lists, n, moves).Some?
    ensures RunMoves(lists, n, moves + [m]) == Step(lists, RunMoves(lists, n, moves).value, m)
  {
    assert (moves + [m])[..|moves + [m]| - 1] == moves;
  }

  lemma {:induction false} TrioRegisters(lists: Lists, n: nat, f: Feature, h: Feature, k: Feature)
    requires f < n && h < n && k < n && f != h && h != k && f != k
    ensures var r := RunMoves(lists, n, Registering(f, h, k));
            r.Some? && Trio(r.value, f, Idle, h, Idle, k, Idle)
  {
    var m0, m1, m2 := Register(f, true, true), Register(h, true, true), Register(k, true, true);
    Extend(lists, n, [], m0);
    assert [] + [m0] == [m0];
    Extend(lists, n, [m0], m1);
    assert [m0] + [m1] == [m0, m1];
    Extend(lists, n, [m0, m1], m2);
    assert [m0, m1] + [m2] == Registering(f, h, k);
  }

  /** A granted start among three features. */
  lemma {:induction false} TrioStarts(
      lists: Lists, n: nat, moves: seq<Move>,
      a: Feature, sa: State, b: Feature, sb: State, c: Feature, sc: State)
    requires Proper(lists, n) && a != b && b != c && a != c
    requires RunMoves(lists, n, moves).Some? && Trio(RunMoves(lists, n, moves).value, a, sa, b, sb, c, sc)
    requires (sb == Running ==> !Above(lists, b, a)) && (sc == Running ==> !Above(lists, c, a)) && sa != Running
    ensures var r := RunMoves(lists, n, moves + [Start(a)]);
            r.Some? && Trio(r.value, a, Running,
                            b, if Above(lists, a, b) && sb == Running then Suspended else sb,
                            c, if Above(lists, a, c) && sc == Running then Suspended else sc)
  {
    StartInTrio(lists, n, RunMoves(lists, n, moves).value, a);
    Extend(lists, n, moves, Start(a));
  }

  lemma {:induction false} AboveBounds(lists: Lists, n: nat, g: Feature, h: Feature)
    requires Proper(lists, n) && Above(lists, g, h)
    ensures g < n && h < n && g != h
  {
    var l :| 0 <= l < |lists| && Before(lists[l], g, h);
  }

  ghost predicate Clash(lists: Lists, c: Clients, h: Feature, k: Feature) {
    Above(lists, h, k) && In(c, h, Running) && In(c, k, Running)
  }

  /** g is above h and h above k but g is not above k: start h, then g, then k,
      and stop g. The stop resumes h while k, below it, still runs. */
  lemma {:induction false} GapBreaksExclusion(lists: Lists, n: nat, g: Feature, h: Feature, k: Feature)
    returns (moves: seq<Move>)
    requires Proper(lists, n) && Above(lists, g, h) && Above(lists, h, k) && !Above(lists, g, k)
    ensures RunMoves(lists, n, moves).Some? && Clash(lists, RunMoves(lists, n, moves).value, h, k)
  {
    AboveBounds(lists, n, g, h);
    AboveBounds(lists, n, h, k);
    moves := Registering(g, h, k);
    TrioRegisters(lists, n, g, h, k);
    TrioStarts(lists, n, moves, h, Idle, g, Idle, k, Idle);
    moves := moves + [Start(h)];
    TrioStarts(lists, n, moves, g, Idle, h, Running, k, Idle);
    moves := moves + [Start(g)];
    TrioStarts(lists, n, moves, k, Idle, g, Running, h, Suspended);
    moves := moves + [Start(k)];
    Extend(lists, n, moves, Stop(g));
    var sg := if Above(lists, k, g) then Suspended else Running;
    StopsTooEarly(lists, n, RunMoves(lists, n, moves).value, g, sg, h, k);
    moves := moves + [Stop(g)];
  }

  lemma {:induction false} StopsTooEarly(
      lists: Lists, n: nat, c: Clients, g: Feature, sg: State, h: Feature, k: Feature)
    requires Proper(lists, n) && Above(lists, g, h) && Above(lists, h, k) && g != h && h != k && g != k
    requires Trio(c, g, sg, h, Suspended, k, Running)
    ensures Clash(lists, Step(lists, c, Stop(g)).value, h, k)
  {
    var c' := Set(c, g, Idle);
    assert Trio(c', g, Idle, h, Suspended, k, Running);
    assert h in Lower(lists, g) by { LowerIsBelow(lists, g, h); }
    assert !Above(lists, k, h);
    ResumesAnyway(lists, n, c', g, h, k, Lower(lists, g));
  }

  lemma {:induction false} Untouched(lists: Lists, c: Clients, f: Feature, h: Feature, k: Feature, visits: seq<Feature>)
    requires Trio(c, f, Idle, h, Suspended, k, Suspended) && h !in visits && k !in visits
    ensures ActOnAll(lists, c, visits, Resume) == c
    decreases |visits|
  {
    if visits != [] {
      assert visits[0] in visits && forall x :: x in visits[1..] ==> x in visits;
      Untouched(lists, c, f, h, k, visits[1..]);
    }
  }

  lemma {:induction false} FirstVisit(visits: seq<Feature>, k: Feature, m: nat) returns (j: nat)
    requires m < |visits| && visits[m] == k
    ensures j <= m && visits[j] == k && k !in visits[..j]
  {
    j := 0;
    while visits[j] != k
      invariant j <= m && k !in visits[..j]
      decreases m - j
    {
      j := j + 1;
    }
  }

  lemma {:induction false} SplitAtFirst(visits: seq<Feature>, h: Feature, k: Feature, m: nat)
    returns (early: seq<Feature>, rest: seq<Feature>)
    requires m < |visits| && visits[m] == k && h != k && h in visits && h !in visits[..m]
    ensures visits == early + ([k] + rest) && h !in early && k !in early && h in rest
  {
    var j := FirstVisit(visits, k, m);
    early, rest := visits[..j], visits[j + 1..];
    assert early <= visits[..m];
    assert visits == early + ([k] + rest);
  }

  /** Starting k, then h above it, then f above both leaves only f running. */
  lemma {:induction false} StartsFromBelow(lists: Lists, n: nat, f: Feature, h: Feature, k: Feature)
    returns (moves: seq<Move>)
    requires Proper(lists, n) && Above(lists, f, h) && Above(lists, h, k) && Above(lists, f, k)
    ensures f != h && h != k && f != k
    ensures RunMoves(lists, n, moves).Some?
    ensures Trio(RunMoves(lists, n, moves).value, f, Running, h, Suspended, k, Suspended)
  {
    AboveBounds(lists, n, f, h);
    AboveBounds(lists, n, h, k);
    AboveBounds(lists, n, f, k);
    moves := Registering(f, h, k);
    TrioRegisters(lists, n, f, h, k);
    TrioStarts(lists, n, moves, k, Idle, h, Idle, f, Idle);
    moves := moves + [Start(k)];
    TrioStarts(lists, n, moves, h, Idle, k, Running, f, Idle);
    moves := moves + [Start(h)];
    TrioStarts(lists, n, moves, f, Idle, h, Running, k, Suspended);
    moves := moves + [Start(f)];
  }

  /** f above h above k, and a stop of f visits k before h: start k, h, f and stop
      f. The stop resumes k, which nothing running is above, and then h. */
  lemma {:induction false} EarlyVisitBreaksExclusion(lists: Lists, n: nat, f: Feature, h: Feature, k: Feature, m: nat)
    returns (moves: seq<Move>)
    requires Proper(lists, n) && Transitive(lists) && Above(lists, f, h) && Above(lists, h, k)
    requires m < |Lower(lists, f)| && Lower(lists, f)[m] == k && h !in Lower(lists, f)[..m]
    ensures RunMoves(lists, n, moves).Some? && Clash(lists, RunMoves(lists, n, moves).value, h, k)
  {
    var starts := StartsFromBelow(lists, n, f, h, k);
    StoppedTrio(lists, n, RunMoves(lists, n, starts).value, f, h, k, m);
    Extend(lists, n, starts, Stop(f));
    moves := starts + [Stop(f)];
  }

  lemma {:induction false} TopGoesIdle(c: Clients, f: Feature, h: Feature, k: Feature)
    requires Trio(c, f, Running, h, Suspended, k, Suspended) && f != h && f != k
    ensures Trio(Set(c, f, Idle), f, Idle, h, Suspended, k, Suspended)
  {
  }

  lemma {:induction false} StoppedTrio(lists: Lists, n: nat, c: Clients, f: Feature, h: Feature, k: Feature, m: nat)
    requires Proper(lists, n) && Above(lists, f, h) && Above(lists, h, k) && f != h && h != k && f != k
    requires Trio(c, f, Running, h, Suspended, k, Suspended)
    requires m < |Lower(lists, f)| && Lower(lists, f)[m] == k && h !in Lower(lists, f)[..m]
    ensures Step(lists, c, Stop(f)).Some? && Clash(lists, Step(lists, c, Stop(f)).value, h, k)
  {
    TopGoesIdle(c, f, h, k);
    ResumedInWrongOrder(lists, n, Set(c, f, Idle), f, h, k, m);
  }

  lemma {:induction false} ResumedInWrongOrder(
      lists: Lists, n: nat, c: Clients, f: Feature, h: Feature, k: Feature, m: nat)
    requires Proper(lists, n) && Above(lists, f, h) && Above(lists, h, k) && f != h && h != k && f != k
    requires Trio(c, f, Idle, h, Suspended, k, Suspended)
    requires m < |Lower(lists, f)| && Lower(lists, f)[m] == k && h !in Lower(lists, f)[..m]
    ensures Trio(StopIndication(lists, c, f), f, Idle, h, Running, k, Running)
  {
    LowerIsBelow(lists, f, h);
    var early, rest := SplitAtFirst(Lower(lists, f), h, k, m);
    ActInTwo(lists, c, early, [k] + rest, Resume);
    Untouched(lists, c, f, h, k, early);
    FirstThenRest(lists, n, c, f, h, k, rest);
  }

  lemma {:induction false} FirstThenRest(
      lists: Lists, n: nat, c: Clients, f: Feature, h: Feature, k: Feature, rest: seq<Feature>)
    requires Proper(lists, n) && Above(lists, h, k) && f != h && h != k && f != k
    requires Trio(c, f, Idle, h, Suspended, k, Suspended) && h in rest
    ensures Trio(ActOnAll(lists, c, [k] + rest, Resume), f, Idle, h, Running, k, Running)
  {
    HigherRunningIsAbove(lists, n, c, k);
    var d := ActOn(lists, c, k, Resume);
    assert ([k] + rest)[1..] == rest;
    assert Trio(d, f, Idle, h, Suspended, k, Running);
    ResumesAnyway(lists, n, d, f, h, k, rest);
  }

  /** Exactly the transitive, top-down lists are kept exclusive by every run. */
  lemma {:induction false} ExclusiveInEveryRun(lists: Lists, n: nat)
    requires Proper(lists, n)
    ensures (forall moves :: RunMoves(lists, n, moves).Some? ==> Exclusive(lists, RunMoves(lists, n, moves).value))
            <==> Transitive(lists) && VisitOrdered(lists)
  {
    if Transitive(lists) && VisitOrdered(lists) {
      forall moves | RunMoves(lists, n, moves).Some? ensures Exclusive(lists, RunMoves(lists, n, moves).value) {
        RunsStayExclusive(lists, n, moves);
      }
    } else if !Transitive(lists) {
      var g, h, k :| Above(lists, g, h) && Above(lists, h, k) && !Above(lists, g, k);
      var moves := GapBreaksExclusion(lists, n, g, h, k);
      ExclusiveByOrder(lists, RunMoves(lists, n, moves).value);
    } else {
      var f :| !VisitsTopDown(lists, f);
      var h, k, m :| Above(lists, f, h) && Above(lists, h, k) && 0 <= m < |Lower(lists, f)|
                     && Lower(lists, f)[m] == k && h !in Lower(lists, f)[..m];
      var moves := EarlyVisitBreaksExclusion(lists, n, f, h, k, m);
      ExclusiveByOrder(lists, RunMoves(lists, n, moves).value);
    }
  }

  // ----- shapes --------------------------------------------------------------

  /** Two different lists share at most their last feature. One list and pairwise
      disjoint lists are special cases. */
  ghost predicate ShareOnlyLast(lists: Lists, n: nat) {
    && (forall l :: 0 <= l < |lists| ==> |lists[l]| <= INDEX_NOT_FOUND && Distinct(lists[l]))
    && (forall l, p :: 0 <= l < |lists| && 0 <= p < |lists[l]| ==> lists[l][p] < n)
    && (forall l, m, p, q ::
          (0 <= l < |lists| && 0 <= m < |lists| && l != m && 0 <= p < |lists[l]| && 0 <= q < |lists[m]|
           && lists[l][p] == lists[m][q])
          ==> p == |lists[l]| - 1 && q == |lists[m]| - 1)
  }

  /** A feature that is not last in its list is in no other list. */
  lemma {:induction false} OneList(lists: Lists, n: nat, h: Feature, k: Feature, l: nat, q: nat)
    requires ShareOnlyLast(lists, n) && l < |lists| && q < |lists[l]| && lists[l][q] == h && Above(lists, h, k)
    requires Before(lists[l], h, k)
    ensures forall m, p :: 0 <= m < |lists| && 0 <= p < |lists[m]| && lists[m][p] == h ==> m == l && p == q
  {
    var i, r :| 0 <= i < r < |lists[l]| && lists[l][i] == h && lists[l][r] == k;
    forall m, p | 0 <= m < |lists| && 0 <= p < |lists[m]| && lists[m][p] == h ensures m == l && p == q {
    }
  }

  lemma {:induction false} OrderInOneList(lists: Lists, n: nat, g: Feature, h: Feature, k: Feature)
    returns (l: nat, i: nat, p: nat, q: nat)
    requires ShareOnlyLast(lists, n) && Above(lists, g, h) && Above(lists, h, k)
    ensures l < |lists| && i < p < q < |lists[l]| && lists[l][i] == g && lists[l][p] == h && lists[l][q] == k
  {
    var m :| 0 <= m < |lists| && Before(lists[m], g, h);
    var i', p' :| 0 <= i' < p' < |lists[m]| && lists[m][i'] == g && lists[m][p'] == h;
    var l' :| 0 <= l' < |lists| && Before(lists[l'], h, k);
    var p'', q'' :| 0 <= p'' < q'' < |lists[l']| && lists[l'][p''] == h && lists[l'][q''] == k;
    OneList(lists, n, h, k, l', p'');
    l, i, p, q := l', i', p'', q'';
  }

  /** Such lists meet the conditions of RunsStayExclusive. */
  lemma {:induction false} SharedLastIsTopDown(lists: Lists, n: nat)
    requires ShareOnlyLast(lists, n)
    ensures Proper(lists, n) && Transitive(lists) && VisitOrdered(lists)
  {
    forall g, h | Above(lists, g, h) ensures !Above(lists, h, g) {
      if Above(lists, h, g) { var l, i, p, q := OrderInOneList(lists, n, g, h, g); }
    }
    forall g, h, k | Above(lists, g, h) && Above(lists, h, k) ensures Above(lists, g, k) {
      var l, i, p, q := OrderInOneList(lists, n, g, h, k);
      assert Before(lists[l], g, k);
    }
    forall f ensures VisitsTopDown(lists, f) { SharedLastVisits(lists, n, f); }
  }

  lemma {:induction false} SharedLastVisits(lists: Lists, n: nat, f: Feature)
    requires ShareOnlyLast(lists, n)
    ensures VisitsTopDown(lists, f)
  {
    forall h, k, m | Above(lists, f, h) && Above(lists, h, k) && 0 <= m < |Lower(lists, f)| && Lower(lists, f)[m] == k
      ensures h in Lower(lists, f)[..m]
    {
      VisitedBefore(lists, n, f, h, k, m);
    }
  }

  lemma {:induction false} VisitedBefore(lists: Lists, n: nat, f: Feature, h: Feature, k: Feature, m: nat)
    requires ShareOnlyLast(lists, n) && Above(lists, f, h) && Above(lists, h, k)
    requires m < |Lower(lists, f)| && Lower(lists, f)[m] == k
    ensures h in Lower(lists, f)[..m]
  {
    var l, i, p, q := OrderInOneList(lists, n, f, h, k);
    LowerOfOneList(lists, n, f, l, i);
    SlicePositions(lists[l], i, p, q, m);
    assert Lower(lists, f)[..m][p - i - 1] == h;
  }

  /** Past position i, an entry keeps its distance. */
  lemma {:induction false} SlicePositions(list: seq<Feature>, i: nat, p: nat, q: nat, m: nat)
    requires i < p < q < |list| && Distinct(list) && m < |list| - i - 1 && list[i + 1..][m] == list[q]
    ensures m == q - i - 1 && p - i - 1 < m && list[i + 1..][p - i - 1] == list[p]
  {
    assert list[i + 1 + m] == list[q];
  }

  /** A feature that is not last is visited in its one list only. */
  lemma {:induction false} LowerOfOneList(lists: Lists, n: nat, f: Feature, l: nat, i: nat)
    requires ShareOnlyLast(lists, n) && l < |lists| && i < |lists[l]| - 1 && lists[l][i] == f
    ensures Lower(lists, f) == lists[l][i + 1..]
  {
    LowerSplit(lists, f, l, i);
    assert lists == lists[..l] + [lists[l]] + lists[l + 1..];
  }

  lemma {:induction false} LowerSplit(lists: Lists, f: Feature, l: nat, i: nat)
    requires forall m :: 0 <= m < |lists| ==> |lists[m]| <= INDEX_NOT_FOUND && Distinct(lists[m])
    requires l < |lists| && i < |lists[l]| && lists[l][i] == f
    requires forall m :: 0 <= m < |lists| && m != l ==> f !in lists[m]
    ensures Lower(lists, f) == lists[l][i + 1..]
  {
    if l == 0 {
      IndexOf(lists[0], i);
      LowerOfAbsent(lists[1..], f);
    } else {
      assert lists[0][0..] == lists[0];
      assert TailAfter(lists[0], f) == [];
      LowerSplit(lists[1..], f, l - 1, i);
    }
  }

  lemma {:induction false} LowerOfAbsent(lists: Lists, f: Feature)
    requires forall m :: 0 <= m < |lists| ==> f !in lists[m]
    ensures Lower(lists, f) == []
  {
    if lists != [] {
      LowerOfAbsent(lists[1..], f);
    }
  }

  /** One list, disjoint lists, or lists sharing only their last feature: in every
      run no two features of a list run together, and no feature is left
      suspended with nothing above it running. */
  lemma {:induction false} SharedLastStaysExclusive(lists: Lists, n: nat, moves: seq<Move>)
    requires ShareOnlyLast(lists, n) && RunMoves(lists, n, moves).Some?
    ensures Exclusive(lists, RunMoves(lists, n, moves).value) && Backed(lists, RunMoves(lists, n, moves).value)
  {
    SharedLastIsTopDown(lists, n);
    RunsStayExclusive(lists, n, moves);
  }

  /** The headset's lists: calls over the voice assistant, wired audio over the
      voice assistant. */
  const SCO: Feature := 0
  const VA: Feature := 1
  const WIRED_ANALOG_AUDIO: Feature := 3
  const HEADSET_LISTS: Lists := [[SCO, VA], [WIRED_ANALOG_AUDIO, VA]]

  lemma {:induction false} HeadsetStaysExclusive(moves: seq<Move>)
    requires RunMoves(HEADSET_LISTS, 4, moves).Some?
    ensures var c := RunMoves(HEADSET_LISTS, 4, moves).value;
            In(c, VA, Running) ==> !In(c, SCO, Running) && !In(c, WIRED_ANALOG_AUDIO, Running)
  {
    SharedLastStaysExclusive(HEADSET_LISTS, 4, moves);
    var c := RunMoves(HEADSET_LISTS, 4, moves).value;
    assert HEADSET_LISTS[0][0] == SCO && HEADSET_LISTS[0][1] == VA;
    assert HEADSET_LISTS[1][0] == WIRED_ANALOG_AUDIO && HEADSET_LISTS[1][1] == VA;
  }

  const OVERLAPPING: Lists := [[0, 2], [0, 1], [1, 2]]

  lemma {:induction false} OverlappingPairs(g: Feature, h: Feature)
    ensures Above(OVERLAPPING, g, h) <==> g < h < 3
  {
    var lists := OVERLAPPING;
    if Above(lists, g, h) { var l :| 0 <= l < |lists| && Before(lists[l], g, h); }
    assert lists[0][0] == 0 && lists[0][1] == 2 && Before(lists[0], 0, 2);
    assert lists[1][0] == 0 && lists[1][1] == 1 && Before(lists[1], 0, 1);
    assert lists[2][0] == 1 && lists[2][1] == 2 && Before(lists[2], 1, 2);
  }

  lemma {:induction false} OverlappingOrder()
    ensures Proper(OVERLAPPING, 3) && Transitive(OVERLAPPING)
    ensures Above(OVERLAPPING, 0, 1) && Above(OVERLAPPING, 1, 2)
    ensures Lower(OVERLAPPING, 0) != [] && Lower(OVERLAPPING, 0)[0] == 2
  {
    forall g: Feature, h: Feature ensures Above(OVERLAPPING, g, h) <==> g < h < 3 { OverlappingPairs(g, h); }
    assert TailAfter(OVERLAPPING[0], 0) == [2];
  }

  /** Overlapping lists in general are not safe: with [a,x], [a,v], [v,x] a stop of
      a resumes x before v, and both run. */
  lemma {:induction false} OverlapBreaksExclusion() returns (moves: seq<Move>)
    ensures RunMoves(OVERLAPPING, 3, moves).Some? && !Exclusive(OVERLAPPING, RunMoves(OVERLAPPING, 3, moves).value)
  {
    OverlappingOrder();
    moves := EarlyVisitBreaksExclusion(OVERLAPPING, 3, 0, 1, 2, 0);
    ExclusiveByOrder(OVERLAPPING, RunMoves(OVERLAPPING, 3, moves).value);
  }
}
