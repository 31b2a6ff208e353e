/**
 * What the feature manager answers to a start and to a stop, for any family of
 * lists: who is refused, who is suspended, who is resumed, and that nobody else is.
 */
module FeatureAnswers {
  import opened Common
  import opened FeatureManager
  import opened FeatureExclusion

  /** A start is refused, and changes nothing, exactly if a feature above runs.
      Otherwise the feature runs, the running features below it that can be suspended
      are suspended, and all others stay as they were. */
  lemma {:induction false} StartAnswers(lists: Lists, n: nat, c: Clients, f: Feature)
    requires Proper(lists, n) && |c| == n && Registered(c, f)
    ensures StartRequest(lists, c, f).0 <==> !RunsAbove(lists, c, f)
    ensures RunsAbove(lists, c, f) ==> StartRequest(lists, c, f).1 == c && Step(lists, c, Start(f)) == Some(c)
    ensures !RunsAbove(lists, c, f) ==>
              var d := Step(lists, c, Start(f)).value;
              && d[f] == Some(c[f].value.(state := Running))
              && forall x :: 0 <= x < n && x != f ==>
                   d[x] == if In(c, x, Running) && c[x].value.canSuspend && Above(lists, f, x)
                           then Some(c[x].value.(state := Suspended)) else c[x]
  {
    HigherRunningIsAbove(lists, n, c, f);
    if !RunsAbove(lists, c, f) { GrantedStart(lists, n, c, f); }
  }

  lemma {:induction false} GrantedStart(lists: Lists, n: nat, c: Clients, f: Feature)
    requires Proper(lists, n) && |c| == n && Registered(c, f) && !HigherRunning(lists, c, f)
    ensures var d := Step(lists, c, Start(f)).value;
            && d[f] == Some(c[f].value.(state := Running))
            && forall x :: 0 <= x < n && x != f ==>
                 d[x] == if In(c, x, Running) && c[x].value.canSuspend && Above(lists, f, x)
                         then Some(c[x].value.(state := Suspended)) else c[x]
  {
    var visits := Lower(lists, f);
    ActOnAllEquipment(lists, c, visits, Suspend);
    LowerIsBelow(lists, f, f);
    SuspendAll(lists, c, visits, f);
    var d := ActOnAll(lists, c, visits, Suspend);
    forall x | 0 <= x < n && x != f
      ensures d[x] == if In(c, x, Running) && c[x].value.canSuspend && Above(lists, f, x)
                      then Some(c[x].value.(state := Suspended)) else c[x]
    {
      if Registered(c, x) {
        SuspendAll(lists, c, visits, x);
        LowerIsBelow(lists, f, x);
      }
    }
  }

  /** d is c with some suspended features of `done` that can be resumed running; those
      of them still suspended have a feature above them running. */
  ghost predicate Resumed(lists: Lists, c: Clients, d: Clients, done: set<Feature>) {
    && |c| == |d|
    && (forall x :: 0 <= x < |c| ==>
          || d[x] == c[x]
          || (x in done && In(c, x, Suspended) && c[x].value.canResume
              && d[x] == Some(c[x].value.(state := Running))))
    && (forall x: Feature {:trigger In(d, x, Suspended)} ::
          In(d, x, Suspended) && x in done && d[x].value.canResume ==> RunsAbove(lists, d, x))
  }

  lemma {:induction false} ResumedNext(lists: Lists, n: nat, c: Clients, d: Clients, done: set<Feature>, h: Feature)
    requires Proper(lists, n) && Resumed(lists, c, d, done)
    ensures Resumed(lists, c, ActOn(lists, d, h, Resume), done + {h})
  {
    var d' := ActOn(lists, d, h, Resume);
    HigherRunningIsAbove(lists, n, d, h);
    BackingKept(lists, d, d', h);
    forall x: Feature | In(d', x, Suspended) && x in done + {h} && d'[x].value.canResume
      ensures RunsAbove(lists, d', x)
    {
      assert In(d, x, Suspended);
      if x == h { assert d' == d; }
    }
  }

  lemma {:induction false} ResumedAll(
      lists: Lists, n: nat, c: Clients, d: Clients, visits: seq<Feature>, m: nat, e: Clients)
    requires Proper(lists, n) && m <= |visits| && Resumed(lists, c, d, Seen(visits, m))
    requires e == ActOnAll(lists, d, visits[m..], Resume)
    ensures Resumed(lists, c, e, Seen(visits, |visits|))
    decreases |visits| - m
  {
    if m == |visits| {
      assert e == d;
    } else {
      ResumedNext(lists, n, c, d, Seen(visits, m), visits[m]);
      ActOnNext(lists, d, visits, m, Resume);
      ResumedAll(lists, n, c, ActOn(lists, d, visits[m], Resume), visits, m + 1, e);
    }
  }

  /** A feature below f that was suspended and can be resumed is running. */
  ghost predicate ResumedBelow(lists: Lists, c: Clients, d: Clients, f: Feature, x: Feature) {
    && Above(lists, f, x) && In(c, x, Suspended) && c[x].value.canResume
    && x < |d| && d[x] == Some(c[x].value.(state := Running))
  }

  /** No feature below f that can be resumed is suspended without one above it running. */
  ghost predicate NoneForgotten(lists: Lists, d: Clients, f: Feature) {
    forall x: Feature {:trigger In(d, x, Suspended)} ::
      In(d, x, Suspended) && Above(lists, f, x) && d[x].value.canResume ==> RunsAbove(lists, d, x)
  }

  /** A stop leaves the feature idle; of the features below it, suspended ones that can
      be resumed are resumed, unless some feature above them then runs; all others
      stay as they were. */
  lemma {:induction false} StopAnswers(lists: Lists, n: nat, c: Clients, f: Feature)
    requires Proper(lists, n) && |c| == n && Registered(c, f)
    ensures var d := Step(lists, c, Stop(f)).value;
            && d[f] == Some(c[f].value.(state := Idle))
            && (forall x :: 0 <= x < n && x != f ==> d[x] == c[x] || ResumedBelow(lists, c, d, f, x))
            && NoneForgotten(lists, d, f)
  {
    var c', visits := Set(c, f, Idle), Lower(lists, f);
    var d := ActOnAll(lists, c', visits, Resume);
    assert visits[0..] == visits && visits[..|visits|] == visits;
    ResumedAll(lists, n, c', c', visits, 0, d);
    forall x: Feature ensures x in Seen(visits, |visits|) <==> Above(lists, f, x) {
      SeenIn(visits, |visits|, x);
      LowerIsBelow(lists, f, x);
    }
  }

  /** Moves by features that are not registered change nothing. */
  lemma {:induction false} UnregisteredIgnored(lists: Lists, c: Clients, f: Feature)
    requires !Registered(c, f)
    ensures Step(lists, c, Start(f)) == Some(c) && Step(lists, c, Stop(f)) == Some(c)
  {
  }
}
