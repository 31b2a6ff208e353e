/**
 * Tables of one-event rules in runs that never defer: exactly when every rule in
 * progress has its event active.
 */
module RulesEngineUndeferred {
  import opened Common
  import opened RulesEngine
  import opened RulesEngineChains
  import opened RulesEngineLimits
  import Runs = RulesEngineRuns
  import Reach = RulesEngineReach

  ghost predicate LastOf(rules: seq<Rule>, n: int, e: Event) {
    Lists(rules, n, e) && forall k :: n < k < |rules| ==> e !in rules[k].events
  }

  /** The last rule of an event shares its message with no other rule of it. */
  ghost predicate LastAlone(rules: seq<Rule>) {
    forall e: Event, n, i ::
      LastOf(rules, n, e) && Lists(rules, i, e) && i != n ==> rules[i].message != rules[n].message
  }

  // ----- with such tables ----------------------------------------------------

  /** What the rules of one event keep: not done if it is inactive; and if the last
      one is not, the others are complete and it is in progress. */
  ghost predicate Kept(rules: seq<Rule>, s: Engine, e: Event)
    requires Fits(rules, s)
  {
    && (forall i :: Lists(rules, i, e) ==> s.status[i] in {NotDone, InProgress, Complete})
    && (e !in s.events ==> forall i :: Lists(rules, i, e) ==> s.status[i] == NotDone)
    && (forall n :: LastOf(rules, n, e) ==>
          && s.status[n] != Complete
          && (s.status[n] == InProgress ==> forall i :: Lists(rules, i, e) && i != n ==> s.status[i] == Complete))
  }

  /** Part way through a pass, at rule i. */
  ghost predicate Passing(rules: seq<Rule>, p: Pass, i: nat, e: Event)
    requires Fits(rules, p.engine)
  {
    && Kept(rules, p.engine, e)
    && (e in p.local && e in p.engine.events ==>
          forall j :: Lists(rules, j, e) && j < i ==> p.engine.status[j] == Complete)
    && (e in p.local && e !in p.engine.events ==> forall j :: Lists(rules, j, e) ==> j < i)
  }

  lemma {:induction false} LastOfEvent(rules: seq<Rule>, i: nat, e: Event) returns (n: nat)
    requires Lists(rules, i, e)
    ensures i <= n && LastOf(rules, n, e)
    decreases |rules| - i
  {
    n := i;
    if k :| i < k < |rules| && e in rules[k].events {
      n := LastOfEvent(rules, k, e);
    }
  }

  lemma {:induction false} CompletionKeeps(rules: seq<Rule>, s: Engine, message: nat, event: Mask, e: Event)
    requires SingleEvents(rules) && Fits(rules, s) && Kept(rules, s, e)
    ensures Update(rules, s, message, InProgress, event).Some?
    ensures Kept(rules, Update(rules, s, message, InProgress, event).value, e)
  {
    UpdateOfEvent(rules, s, message, InProgress, event, e);
  }

  /** What finishing rule i does to the rules of its event. */
  lemma {:induction false} FinishMarks(rules: seq<Rule>, s: Engine, i: nat, e: Event)
    requires SingleEvents(rules) && Fits(rules, s) && Lists(rules, i, e)
    ensures var m := Mark(rules, s.status, rules[i].message, NotDone, rules[i].events);
            forall j :: Lists(rules, j, e) ==>
              m[j] == if rules[j].message == rules[i].message && s.status[j] == NotDone then Complete else s.status[j]
  {
    forall j | Lists(rules, j, e) ensures rules[j].events * rules[i].events != {} {
      SingleEvent(rules, i, e);
      OverlapsSingle(rules, j, e, rules[i].events);
    }
  }

  lemma {:induction false} FinishKeepsOwn(rules: seq<Rule>, p: Pass, i: nat, e: Event)
    requires SingleEvents(rules) && LastAlone(rules) && Fits(rules, p.engine) && Lists(rules, i, e)
    requires e in p.local && p.engine.status[i] == NotDone && Passing(rules, p, i, e)
    ensures var u := Update(rules, p.engine, rules[i].message, NotDone, rules[i].events);
            u.Some? && Passing(rules, p.(engine := u.value), i + 1, e)
  {
    var s := p.engine;
    var n := LastOfEvent(rules, i, e);
    FinishMarks(rules, s, i, e);
    UpdateOfEvent(rules, s, rules[i].message, NotDone, rules[i].events, e);
    OverlapsSingle(rules, i, e, rules[i].events);
    assert Hits(rules[i], s.status[i], rules[i].message, NotDone, rules[i].events);
    if i != n {
      assert s.status[n] == NotDone && rules[i].message != rules[n].message;
    }
  }

  lemma {:induction false} FinishKeepsOther(rules: seq<Rule>, p: Pass, i: nat, x: Event, e: Event)
    requires SingleEvents(rules) && Fits(rules, p.engine) && Lists(rules, i, x) && e != x
    requires Passing(rules, p, i, e)
    ensures var u := Update(rules, p.engine, rules[i].message, NotDone, rules[i].events);
            u.Some? && Passing(rules, p.(engine := u.value), i + 1, e)
  {
    SingleEvent(rules, i, x);
    UpdateOfEvent(rules, p.engine, rules[i].message, NotDone, rules[i].events, e);
    forall j | Lists(rules, j, e) ensures j != i && rules[j].events * rules[i].events == {} {
      OverlapsSingle(rules, j, e, rules[i].events);
      SingleEvent(rules, j, e);
    }
  }

  lemma {:induction false} RunKeepsPassing(rules: seq<Rule>, p: Pass, q: Pass, i: nat, x: Event, e: Event)
    requires SingleEvents(rules) && Fits(rules, p.engine) && Lists(rules, i, x)
    requires x in p.local && p.engine.status[i] == NotDone && Passing(rules, p, i, x) && Passing(rules, p, i, e)
    requires q.local == p.local - rules[i].events && q.engine.events == p.engine.events
    requires q.engine.status == p.engine.status[i := InProgress]
    ensures Fits(rules, q.engine) && Passing(rules, q, i + 1, e)
  {
    SingleEvent(rules, i, x);
    if e != x {
      forall j | Lists(rules, j, e) ensures j != i { SingleEvent(rules, j, e); }
    }
  }

  lemma {:induction false} VisitKeepsPassing(rules: seq<Rule>, p: Pass, i: nat, a: Answer, e: Event)
    requires SingleEvents(rules) && LastAlone(rules) && Fits(rules, p.engine) && i < |rules| && a.action != Defer
    requires forall e' :: Passing(rules, p, i, e')
    requires Visit(rules, p, i, a).Some?
    ensures Passing(rules, Visit(rules, p, i, a).value, i + 1, e)
  {
    var x :| rules[i].events == {x};
    assert Lists(rules, i, x) && Passing(rules, p, i, x) && Passing(rules, p, i, e);
    assert Lists(rules, i, e) ==> e == x;
    if x in p.local && p.engine.status[i] == NotDone {
      var q := p.(engine := CopyAll(p.engine, a.copies).value);
      assert Passing(rules, q, i, x) && Passing(rules, q, i, e);
      if a.action == Run || a.action == RunWithParam {
        RunKeepsPassing(rules, q, Visit(rules, p, i, a).value, i, x, e);
      } else if e == x {
        FinishKeepsOwn(rules, q, i, e);
      } else {
        FinishKeepsOther(rules, q, i, x, e);
      }
    }
  }

  lemma {:induction false} PassKeepsKept(rules: seq<Rule>, p: Pass, i: nat, oracle: Oracle)
    requires SingleEvents(rules) && LastAlone(rules) && Fits(rules, p.engine) && i <= |rules|
    requires forall k :: oracle(k).action != Defer
    requires forall e :: Passing(rules, p, i, e)
    requires PassFrom(rules, p, i, oracle).Some?
    ensures forall e :: Kept(rules, PassFrom(rules, p, i, oracle).value.engine, e)
    decreases |rules| - i
  {
    if i < |rules| {
      var q, next := Visit(rules, p, i, oracle(i)).value, i + 1;
      forall e: Event ensures Passing(rules, q, next, e) { VisitKeepsPassing(rules, p, i, oracle(i), e); }
      PassKeepsKept(rules, q, next, oracle);
    } else {
      forall e: Event ensures Kept(rules, p.engine, e) { assert Passing(rules, p, i, e); }
    }
  }

  lemma {:induction false} CheckKeeps(rules: seq<Rule>, s: Engine, oracle: Oracle)
    requires SingleEvents(rules) && LastAlone(rules) && Fits(rules, s) && forall e :: Kept(rules, s, e)
    requires forall k :: oracle(k).action != Defer
    requires Check(rules, s, oracle).Some?
    ensures forall e :: Kept(rules, Check(rules, s, oracle).value, e)
  {
    var p := Pass(s, s.events, []);
    forall e: Event ensures Passing(rules, p, 0, e) { assert Kept(rules, s, e); }
    PassKeepsKept(rules, p, 0, oracle);
  }

  lemma {:induction false} CompletedKeeps(rules: seq<Rule>, s: Engine, message: nat, event: Mask)
    requires SingleEvents(rules) && Fits(rules, s) && forall e :: Kept(rules, s, e)
    ensures Completed(rules, s, message, event).Some?
    ensures forall e :: Kept(rules, Completed(rules, s, message, event).value, e)
  {
    UpdateOfEvent(rules, s, message, InProgress, event, 0);
    Reach.CompletedIsUpdate(rules, s, message, event);
    var t := Completed(rules, s, message, event).value;
    forall e: Event ensures Kept(rules, t, e) {
      assert Kept(rules, s, e);
      CompletionKeeps(rules, s, message, event, e);
    }
  }

  lemma {:induction false} ResetKeeps(rules: seq<Rule>, s: Engine, mask: Mask, e: Event)
    requires SingleEvents(rules) && Fits(rules, s) && Kept(rules, s, e)
    ensures Kept(rules, Reset(rules, s, mask), e)
  {
    forall i | Lists(rules, i, e) ensures rules[i].events * mask != {} <==> e in mask {
      OverlapsSingle(rules, i, e, mask);
    }
  }

  lemma {:induction false} StepKeeps(rules: seq<Rule>, s: Engine, c: Call)
    requires SingleEvents(rules) && LastAlone(rules) && Fits(rules, s) && forall e :: Kept(rules, s, e)
    requires NeverDefers(c) && Step(rules, s, c).Some?
    ensures forall e :: Kept(rules, Step(rules, s, c).value, e)
  {
    match c
    case SetEvent(mask, oracle) =>
      var t := s.(events := s.events + mask);
      forall e: Event ensures Kept(rules, t, e) { assert Kept(rules, s, e); }
      CheckKeeps(rules, t, oracle);
    case ResetEvent(mask) =>
      forall e: Event ensures Kept(rules, Reset(rules, s, mask), e) {
        assert Kept(rules, s, e);
        ResetKeeps(rules, s, mask, e);
      }
    case SetRuleComplete(message, oracle) =>
      CompletedKeeps(rules, s, message, ALL_EVENTS);
      CheckKeeps(rules, Completed(rules, s, message, ALL_EVENTS).value, oracle);
    case SetRuleWithEventComplete(message, event, oracle) =>
      CompletedKeeps(rules, s, message, event);
      CheckKeeps(rules, Completed(rules, s, message, event).value, oracle);
    case CopyRunParams(data) =>
      forall e: Event ensures Kept(rules, Step(rules, s, c).value, e) { assert Kept(rules, s, e); }
  }

  lemma {:induction false} RunKeeps(rules: seq<Rule>, calls: seq<Call>)
    requires SingleEvents(rules) && LastAlone(rules) && forall k :: 0 <= k < |calls| ==> NeverDefers(calls[k])
    requires RunCalls(rules, calls).Some?
    ensures forall e :: Kept(rules, RunCalls(rules, calls).value, e)
  {
    if calls != [] {
      var before := calls[..|calls| - 1];
      RunKeeps(rules, before);
      StepKeeps(rules, RunCalls(rules, before).value, calls[|calls| - 1]);
    }
  }

  lemma {:induction false} KeptIsActive(rules: seq<Rule>, s: Engine)
    requires SingleEvents(rules) && Fits(rules, s) && forall e :: Kept(rules, s, e)
    ensures ProgressActive(rules, s)
  {
    forall r | 0 <= r < |rules| && s.status[r] == InProgress ensures rules[r].events <= s.events {
      var e :| rules[r].events == {e};
      assert Kept(rules, s, e) && Lists(rules, r, e);
    }
  }

  // ----- with any other table ------------------------------------------------

  /** A rule of e before i has the message. */
  ghost predicate Said(rules: seq<Rule>, i: nat, e: Event, message: nat) {
    exists r :: Lists(rules, r, e) && r < i && rules[r].message == message
  }

  /** Rules up to j finish, the later ones run. */
  function FinishUpTo(j: nat): Oracle { (i: nat) => Answer([], if i <= j then Finish else Run) }

  /** Rule j of e is the last to bring a new message. */
  ghost predicate LastNews(rules: seq<Rule>, j: nat, e: Event) {
    && Lists(rules, j, e) && !Said(rules, j, e, rules[j].message)
    && forall k :: Lists(rules, k, e) ==> Said(rules, j + 1, e, rules[k].message)
  }

  lemma {:induction false} FindLastNews(rules: seq<Rule>, n: nat, e: Event) returns (j: nat)
    requires n <= |rules| && (exists r :: Lists(rules, r, e) && r < n)
    requires forall k :: Lists(rules, k, e) ==> Said(rules, n, e, rules[k].message)
    ensures j < n && LastNews(rules, j, e)
  {
    var m := n - 1;
    if Lists(rules, m, e) && !Said(rules, m, e, rules[m].message) {
      j := m;
    } else {
      forall k | Lists(rules, k, e) ensures Said(rules, m, e, rules[k].message) {
        var r :| Lists(rules, r, e) && r < n && rules[r].message == rules[k].message;
        if r == m {
          var r' :| Lists(rules, r', e) && r' < m && rules[r'].message == rules[m].message;
        }
      }
      var r :| Lists(rules, r, e) && r < n;
      assert Said(rules, m, e, rules[r].message);
      j := FindLastNews(rules, m, e);
    }
  }

  /** The first part of the pass on e alone: exactly the rules of e whose message a
      rule behind has brought are complete. */
  ghost predicate Finishing(rules: seq<Rule>, p: Pass, i: nat, e: Event) {
    && Fits(rules, p.engine) && p.local == {e} && p.engine.events == {e}
    && p.engine.data.None? && p.engine.size == 0
    && forall r :: Lists(rules, r, e) ==>
         p.engine.status[r] == if Said(rules, i, e, rules[r].message) then Complete else NotDone
  }

  lemma {:induction false} SaidNext(rules: seq<Rule>, i: nat, e: Event, message: nat)
    requires i < |rules|
    ensures Said(rules, i + 1, e, message)
       <==> Said(rules, i, e, message) || (Lists(rules, i, e) && rules[i].message == message)
  {
    if r :| Lists(rules, r, e) && r < i + 1 && rules[r].message == message {
      assert r < i || r == i;
    }
    if r :| Lists(rules, r, e) && r < i && rules[r].message == message {
      assert r < i + 1;
    }
  }

  lemma {:induction false} NotYetSaid(rules: seq<Rule>, i: nat, j: nat, e: Event)
    requires i < j && Lists(rules, i, e) && Lists(rules, j, e) && !Said(rules, j, e, rules[j].message)
    ensures !Said(rules, i, e, rules[j].message) && rules[i].message != rules[j].message
  {
    forall r | Lists(rules, r, e) && r < j ensures rules[r].message != rules[j].message {
    }
  }

  /** A new message before the last one completes its rules and clears nothing. */
  lemma {:induction false} NewsFinishes(rules: seq<Rule>, p: Pass, i: nat, j: nat, e: Event)
    requires SingleEvents(rules) && i < j && LastNews(rules, j, e) && Finishing(rules, p, i, e)
    requires Lists(rules, i, e) && !Said(rules, i, e, rules[i].message)
    ensures var q := Visit(rules, p, i, Answer([], Finish));
            q.Some? && Finishing(rules, q.value, i + 1, e)
  {
    SingleEvent(rules, i, e);
    FinishMarks(rules, p.engine, i, e);
    UpdateOfEvent(rules, p.engine, rules[i].message, NotDone, rules[i].events, e);
    forall r | Lists(rules, r, e)
      ensures Said(rules, i + 1, e, rules[r].message)
         <==> Said(rules, i, e, rules[r].message) || rules[i].message == rules[r].message
    {
      SaidNext(rules, i, e, rules[r].message);
    }
    NotYetSaid(rules, i, j, e);
    var q := Visit(rules, p, i, Answer([], Finish)).value;
    ClearsOnlyOwn(rules, p.engine, i, e);
    assert q.engine.events == {e};
  }

  /** A finishing rule clears no event but its own. */
  lemma {:induction false} ClearsOnlyOwn(rules: seq<Rule>, s: Engine, i: nat, e: Event)
    requires SingleEvents(rules) && Fits(rules, s) && Lists(rules, i, e)
    ensures Cleared(rules, s.status, rules[i].message, s.status[i], rules[i].events) <= {e}
  {
    var cleared := Cleared(rules, s.status, rules[i].message, s.status[i], rules[i].events);
    SingleEvent(rules, i, e);
    forall x | x in cleared ensures x == e {
      Runs.ClearedExactly(rules, s.status, rules[i].message, s.status[i], rules[i].events, x);
      var r :| 0 <= r < |rules| && x in rules[r].events
               && Hits(rules[r], s.status[r], rules[i].message, s.status[i], rules[i].events);
      SingleEvent(rules, r, x);
    }
  }

  lemma {:induction false} OldNewsSkips(rules: seq<Rule>, p: Pass, i: nat, e: Event)
    requires SingleEvents(rules) && i < |rules| && Finishing(rules, p, i, e)
    requires Lists(rules, i, e) ==> Said(rules, i, e, rules[i].message)
    ensures forall a :: Visit(rules, p, i, a) == Some(p)
    ensures Finishing(rules, p, i + 1, e)
  {
    var x :| rules[i].events == {x};
    assert x in rules[i].events && (x == e ==> Lists(rules, i, e));
    forall r | Lists(rules, r, e)
      ensures Said(rules, i + 1, e, rules[r].message) <==> Said(rules, i, e, rules[r].message)
    {
      SaidNext(rules, i, e, rules[r].message);
    }
  }

  lemma {:induction false} FinishVisit(rules: seq<Rule>, p: Pass, i: nat, j: nat, e: Event) returns (q: Pass)
    requires SingleEvents(rules) && i < j && LastNews(rules, j, e) && Finishing(rules, p, i, e)
    ensures Visit(rules, p, i, Answer([], Finish)) == Some(q) && Finishing(rules, q, i + 1, e)
  {
    if Lists(rules, i, e) && !Said(rules, i, e, rules[i].message) {
      NewsFinishes(rules, p, i, j, e);
    } else {
      OldNewsSkips(rules, p, i, e);
    }
    q := Visit(rules, p, i, Answer([], Finish)).value;
  }

  lemma {:induction false} FinishStretch(rules: seq<Rule>, p: Pass, i: nat, j: nat, e: Event) returns (q: Pass)
    requires SingleEvents(rules) && i <= j && LastNews(rules, j, e) && Finishing(rules, p, i, e)
    ensures Finishing(rules, q, j, e)
    ensures PassFrom(rules, p, i, FinishUpTo(j)) == PassFrom(rules, q, j, FinishUpTo(j))
    decreases j - i
  {
    if i == j {
      q := p;
    } else {
      var next := FinishVisit(rules, p, i, j, e);
      q := FinishStretch(rules, next, i + 1, j, e);
    }
  }

  /** The last new message completes every rule of e, which clears it. */
  lemma {:induction false} LastNewsClears(rules: seq<Rule>, p: Pass, j: nat, e: Event) returns (q: Pass)
    requires SingleEvents(rules) && LastNews(rules, j, e) && Finishing(rules, p, j, e)
    ensures Visit(rules, p, j, Answer([], Finish)) == Some(q)
    ensures Fits(rules, q.engine) && q.local == {e} && e !in q.engine.events
    ensures q.engine.data.None? && q.engine.size == 0
    ensures forall r :: Lists(rules, r, e) ==> q.engine.status[r] == NotDone
  {
    SingleEvent(rules, j, e);
    FinishMarks(rules, p.engine, j, e);
    UpdateOfEvent(rules, p.engine, rules[j].message, NotDone, rules[j].events, e);
    forall r | Lists(rules, r, e) ensures Said(rules, j, e, rules[r].message) || rules[r].message == rules[j].message {
      SaidNext(rules, j, e, rules[r].message);
    }
    OverlapsSingle(rules, j, e, rules[j].events);
    assert Hits(rules[j], p.engine.status[j], rules[j].message, NotDone, rules[j].events);
    q := Visit(rules, p, j, Answer([], Finish)).value;
  }

  lemma {:induction false} NothingEligible(rules: seq<Rule>, p: Pass, i: nat, oracle: Oracle)
    requires SingleEvents(rules) && Fits(rules, p.engine) && i <= |rules| && p.local == {}
    ensures PassFrom(rules, p, i, oracle) == Some(p)
    decreases |rules| - i
  {
    if i < |rules| {
      var x :| rules[i].events == {x};
      assert x in rules[i].events && x !in p.local;
      NothingEligible(rules, p, i + 1, oracle);
    }
  }

  /** The next rule of e then runs although e is inactive. */
  lemma {:induction false} NextRunsStale(rules: seq<Rule>, p: Pass, i: nat, j: nat, e: Event)
    requires SingleEvents(rules) && j < i <= |rules| && Fits(rules, p.engine)
    requires p.local == {e} && e !in p.engine.events && p.engine.data.None? && p.engine.size == 0
    requires forall r :: Lists(rules, r, e) ==> p.engine.status[r] == NotDone
    requires exists r :: Lists(rules, r, e) && i <= r
    ensures var q := PassFrom(rules, p, i, FinishUpTo(j));
            q.Some? && !ProgressActive(rules, q.value.engine)
    decreases |rules| - i
  {
    var x :| rules[i].events == {x};
    assert x in rules[i].events;
    var q := Visit(rules, p, i, FinishUpTo(j)(i));
    if x == e {
      assert Lists(rules, i, e);
      assert q.value.local == {};
      NothingEligible(rules, q.value, i + 1, FinishUpTo(j));
      assert q.value.engine.status[i] == InProgress && !(rules[i].events <= q.value.engine.events);
    } else {
      assert q == Some(p);
      var r :| Lists(rules, r, e) && i <= r;
      assert r != i;
      NextRunsStale(rules, p, i + 1, j, e);
    }
  }

  /** A shared last message breaks the property in one call, with no deferral. */
  lemma {:induction false} SharedLastIsStale(rules: seq<Rule>, n: nat, i: nat, e: Event) returns (calls: seq<Call>)
    requires SingleEvents(rules) && LastOf(rules, n, e)
    requires Lists(rules, i, e) && i != n && rules[i].message == rules[n].message
    ensures RunCalls(rules, calls).Some? && !ProgressActive(rules, RunCalls(rules, calls).value)
    ensures forall k :: 0 <= k < |calls| ==> NeverDefers(calls[k])
  {
    assert i < n;
    forall k | Lists(rules, k, e) ensures Said(rules, n, e, rules[k].message) {
      assert k <= n;
      assert k == n ==> rules[i].message == rules[k].message;
    }
    var j := FindLastNews(rules, n, e);
    var c := SetEvent({e}, FinishUpTo(j));
    Reach.Extend(rules, [], c);
    calls := [] + [c];
    var s := Fresh(rules).(events := {e});
    assert Fresh(rules).events + {e} == {e};
    var p := Pass(s, s.events, []);
    assert Finishing(rules, p, 0, e);
    var q := FinishStretch(rules, p, 0, j, e);
    var cleared := LastNewsClears(rules, q, j, e);
    NextRunsStale(rules, cleared, j + 1, j, e);
  }

  /** For tables of one-event rules and runs that never defer: every rule in progress
      has its event active in every state, if and only if the last rule of each event
      shares its message with no other rule of the event. */
  lemma {:induction false} UndeferredActiveIff(rules: seq<Rule>)
    requires SingleEvents(rules)
    ensures (forall calls :: RunCalls(rules, calls).Some? && (forall k :: 0 <= k < |calls| ==> NeverDefers(calls[k]))
                             ==> ProgressActive(rules, RunCalls(rules, calls).value))
            <==> LastAlone(rules)
  {
    if LastAlone(rules) {
      forall calls | RunCalls(rules, calls).Some? && (forall k :: 0 <= k < |calls| ==> NeverDefers(calls[k]))
        ensures ProgressActive(rules, RunCalls(rules, calls).value)
      {
        RunKeeps(rules, calls);
        KeptIsActive(rules, RunCalls(rules, calls).value);
      }
    } else {
      var e: Event, n, i :| LastOf(rules, n, e) && Lists(rules, i, e) && i != n && rules[i].message == rules[n].message;
      var calls := SharedLastIsStale(rules, n, i, e);
    }
  }
}
