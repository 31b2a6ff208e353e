/**
 * Tables in which every rule lists one event, no two rules of an event share a
 * message, no rule is always evaluated and no rule defers: each event's rules
 * are worked through in table order, one at a time, and no event stalls.
 */
module RulesEngineChains {
  import opened RulesEngine
  import Runs = RulesEngineRuns

  /** Each rule lists one event and none is always evaluated. */
  ghost predicate SingleEvents(rules: seq<Rule>) {
    forall i :: 0 <= i < |rules| ==> !rules[i].Always() && exists e :: rules[i].events == {e}
  }

  ghost predicate Sequential(rules: seq<Rule>) {
    && SingleEvents(rules)
    && (forall i, j :: 0 <= i < j < |rules| && rules[i].events == rules[j].events
                       ==> rules[i].message != rules[j].message)
  }

  ghost predicate NeverDefers(c: Call) {
    (c.SetEvent? || c.SetRuleComplete? || c.SetRuleWithEventComplete?)
      ==> forall i :: c.oracle(i).action != Defer
  }

  ghost predicate Lists(rules: seq<Rule>, i: int, e: Event) {
    0 <= i < |rules| && e in rules[i].events
  }

  ghost predicate HasRules(rules: seq<Rule>, e: Event) { exists i :: Lists(rules, i, e) }

  /** Each event's rules read complete*, at most one in progress, not-done*. */
  ghost predicate Chained(rules: seq<Rule>, status: seq<Status>)
    requires |status| == |rules|
  {
    && (forall i :: 0 <= i < |status| ==> status[i] in {NotDone, InProgress, Complete})
    && (forall e: Event, i, j :: i < j && Lists(rules, i, e) && Lists(rules, j, e) && status[j] != NotDone
                                 ==> status[i] == Complete)
  }

  /** Rules of an inactive event are not done. */
  ghost predicate Quiet(rules: seq<Rule>, s: Engine)
    requires Fits(rules, s)
  {
    forall e: Event, i :: Lists(rules, i, e) && e !in s.events ==> s.status[i] == NotDone
  }

  /** No active event has all its rules complete. */
  ghost predicate Unfinished(rules: seq<Rule>, s: Engine)
    requires Fits(rules, s)
  {
    forall e: Event :: e in s.events && HasRules(rules, e)
                       ==> exists j :: Lists(rules, j, e) && s.status[j] != Complete
  }

  ghost predicate Shape(rules: seq<Rule>, s: Engine)
    requires Fits(rules, s)
  {
    Chained(rules, s.status) && Quiet(rules, s) && Unfinished(rules, s)
  }

  /** Every active event that has rules has one in progress. */
  ghost predicate Moving(rules: seq<Rule>, s: Engine)
    requires Fits(rules, s)
  {
    forall e: Event :: e in s.events && HasRules(rules, e)
                       ==> exists j :: Lists(rules, j, e) && s.status[j] == InProgress
  }

  // ----- status updates ------------------------------------------------------

  lemma {:induction false} SingleEvent(rules: seq<Rule>, i: nat, e: Event)
    requires SingleEvents(rules) && Lists(rules, i, e)
    ensures rules[i].events == {e}
  {
  }

  lemma {:induction false} OverlapsSingle(rules: seq<Rule>, i: nat, e: Event, mask: Mask)
    requires SingleEvents(rules) && Lists(rules, i, e)
    ensures rules[i].events * mask != {} <==> e in mask
  {
    SingleEvent(rules, i, e);
    if e in mask { assert e in rules[i].events * mask; }
  }

  /** What an update does to the rules of one event. */
  lemma {:induction false} UpdateOfEvent(rules: seq<Rule>, s: Engine, message: nat, from: Status, event: Mask, e: Event)
    requires SingleEvents(rules) && Fits(rules, s)
    ensures var m := Mark(rules, s.status, message, from, event);
            var t := Update(rules, s, message, from, event);
            && t.Some?
            && (e in t.value.events ==> e in s.events)
            && if (exists i :: Lists(rules, i, e) && Hits(rules[i], s.status[i], message, from, event))
                  && (forall i :: Lists(rules, i, e) ==> m[i] == Complete)
               then e !in t.value.events && forall i :: Lists(rules, i, e) ==> t.value.status[i] == NotDone
               else (e in s.events ==> e in t.value.events)
                    && forall i :: Lists(rules, i, e) ==> t.value.status[i] == m[i]
  {
    var cleared := Cleared(rules, s.status, message, from, event);
    Runs.ClearedExactly(rules, s.status, message, from, event, e);
    forall i | Lists(rules, i, e)
      ensures rules[i].events * cleared != {} <==> e in cleared
      ensures rules[i].events * event != {} <==> e in event
    {
      OverlapsSingle(rules, i, e, cleared);
      OverlapsSingle(rules, i, e, event);
    }
  }

  ghost predicate EventShape(rules: seq<Rule>, s: Engine, e: Event)
    requires Fits(rules, s)
  {
    && (forall i :: Lists(rules, i, e) ==> s.status[i] in {NotDone, InProgress, Complete})
    && (forall i, j :: i < j && Lists(rules, i, e) && Lists(rules, j, e) && s.status[j] != NotDone
                       ==> s.status[i] == Complete)
    && (e !in s.events ==> forall i :: Lists(rules, i, e) ==> s.status[i] == NotDone)
    && (e in s.events && HasRules(rules, e) ==> exists j :: Lists(rules, j, e) && s.status[j] != Complete)
  }

  lemma {:induction false} ShapeByEvent(rules: seq<Rule>, s: Engine)
    requires Sequential(rules) && Fits(rules, s)
    ensures Shape(rules, s) <==> forall e: Event :: EventShape(rules, s, e)
  {
    if forall e: Event :: EventShape(rules, s, e) {
      forall i | 0 <= i < |rules| ensures s.status[i] in {NotDone, InProgress, Complete} {
        var e :| rules[i].events == {e};
        assert EventShape(rules, s, e) && Lists(rules, i, e);
      }
      forall e: Event, i, j | i < j && Lists(rules, i, e) && Lists(rules, j, e) && s.status[j] != NotDone
        ensures s.status[i] == Complete
      {
        assert EventShape(rules, s, e);
      }
      forall e: Event, i | Lists(rules, i, e) && e !in s.events ensures s.status[i] == NotDone {
        assert EventShape(rules, s, e);
      }
      forall e: Event | e in s.events && HasRules(rules, e)
        ensures exists j :: Lists(rules, j, e) && s.status[j] != Complete
      {
        assert EventShape(rules, s, e);
      }
    }
  }

  /** Completing rules in progress keeps the shape. */
  lemma {:induction false} CompletionKeepsShape(rules: seq<Rule>, s: Engine, message: nat, event: Mask)
    requires Sequential(rules) && Fits(rules, s) && Shape(rules, s)
    ensures Update(rules, s, message, InProgress, event).Some?
    ensures Shape(rules, Update(rules, s, message, InProgress, event).value)
  {
    ShapeByEvent(rules, s);
    UpdateOfEvent(rules, s, message, InProgress, event, 0);
    var t := Update(rules, s, message, InProgress, event).value;
    forall e: Event ensures EventShape(rules, t, e) {
      assert EventShape(rules, s, e);
      UpdateOfEvent(rules, s, message, InProgress, event, e);
    }
    ShapeByEvent(rules, t);
  }

  // ----- one pass ------------------------------------------------------------

  /** Part way through a pass, at rule i: an event still considered has only
      complete rules behind i, or has just been cleared and has none ahead; an
      active event no longer considered has a rule in progress. */
  ghost predicate Sweeping(rules: seq<Rule>, p: Pass, i: nat, e: Event)
    requires Fits(rules, p.engine)
  {
    && EventShape(rules, p.engine, e)
    && (e in p.local && e in p.engine.events ==>
          forall j :: Lists(rules, j, e) && j < i ==> p.engine.status[j] == Complete)
    && (e in p.local && e !in p.engine.events ==> forall j :: Lists(rules, j, e) ==> j < i)
    && (e in p.engine.events && e !in p.local ==>
          exists j :: Lists(rules, j, e) && p.engine.status[j] == InProgress)
  }

  /** A visit that ends the rule at i without a message. */
  lemma {:induction false} FinishKeepsSweeping(rules: seq<Rule>, p: Pass, i: nat, e: Event)
    requires Sequential(rules) && Fits(rules, p.engine) && i < |rules|
    requires rules[i].events <= p.local && p.engine.status[i] == NotDone
    requires forall e' :: Sweeping(rules, p, i, e')
    ensures var u := Update(rules, p.engine, rules[i].message, NotDone, rules[i].events);
            u.Some? && Sweeping(rules, p.(engine := u.value), i + 1, e)
  {
    var s := p.engine;
    var x :| rules[i].events == {x};
    assert Lists(rules, i, x);
    assert Sweeping(rules, p, i, x) && Sweeping(rules, p, i, e);
    var m := Mark(rules, s.status, rules[i].message, NotDone, rules[i].events);
    forall j | Lists(rules, j, x) ensures m[j] == if j == i then Complete else s.status[j] {
      SingleEvent(rules, j, x);
      if j == i { assert x in rules[i].events * rules[i].events; }
    }
    assert x in rules[i].events * rules[i].events;
    assert Hits(rules[i], s.status[i], rules[i].message, NotDone, rules[i].events);
    UpdateOfEvent(rules, s, rules[i].message, NotDone, rules[i].events, e);
    if e != x {
      forall j | Lists(rules, j, e) ensures !Hits(rules[j], s.status[j], rules[i].message, NotDone, rules[i].events) {
        OverlapsSingle(rules, j, e, rules[i].events);
      }
    }
  }

  lemma {:induction false} RunKeepsSweeping(rules: seq<Rule>, p: Pass, i: nat, withParam: bool, e: Event)
    requires Sequential(rules) && Fits(rules, p.engine) && i < |rules|
    requires rules[i].events <= p.local && p.engine.status[i] == NotDone
    requires forall e' :: Sweeping(rules, p, i, e')
    ensures var u := Obey(rules, p, i, if withParam then RunWithParam else Run);
            u.Some? ==> Sweeping(rules, u.value, i + 1, e)
  {
    var x :| rules[i].events == {x};
    assert Lists(rules, i, x);
    assert Sweeping(rules, p, i, x) && Sweeping(rules, p, i, e);
    var u := Obey(rules, p, i, if withParam then RunWithParam else Run);
    if u.Some? {
      assert u.value.engine.status == p.engine.status[i := InProgress];
      if e == x {
        assert u.value.engine.status[i] == InProgress;
      } else {
        forall j | Lists(rules, j, e) ensures j != i { SingleEvent(rules, j, e); }
      }
    }
  }

  lemma {:induction false} VisitKeepsSweeping(rules: seq<Rule>, p: Pass, i: nat, a: Answer, e: Event)
    requires Sequential(rules) && Fits(rules, p.engine) && i < |rules| && a.action != Defer
    requires forall e' :: Sweeping(rules, p, i, e')
    requires Visit(rules, p, i, a).Some?
    ensures Sweeping(rules, Visit(rules, p, i, a).value, i + 1, e)
  {
    var x :| rules[i].events == {x};
    assert Lists(rules, i, x);
    assert Sweeping(rules, p, i, x) && Sweeping(rules, p, i, e);
    assert Lists(rules, i, e) ==> rules[i].events == {e};
    if rules[i].events <= p.local && p.engine.status[i] == NotDone {
      var s := CopyAll(p.engine, a.copies).value;
      var q := p.(engine := s);
      forall e': Event ensures Sweeping(rules, q, i, e') {
        assert Sweeping(rules, p, i, e');
      }
      if a.action == Finish || a.action == Ignore {
        FinishKeepsSweeping(rules, q, i, e);
      } else {
        RunKeepsSweeping(rules, q, i, a.action == RunWithParam, e);
      }
    }
  }

  lemma {:induction false} PassSweeps(rules: seq<Rule>, p: Pass, i: nat, oracle: Oracle)
    requires Sequential(rules) && Fits(rules, p.engine) && i <= |rules|
    requires forall k :: oracle(k).action != Defer
    requires forall e :: Sweeping(rules, p, i, e)
    requires PassFrom(rules, p, i, oracle).Some?
    ensures forall e :: Sweeping(rules, PassFrom(rules, p, i, oracle).value, |rules|, e)
    decreases |rules| - i
  {
    if i < |rules| {
      var q, next := Visit(rules, p, i, oracle(i)).value, i + 1;
      forall e: Event ensures Sweeping(rules, q, next, e) {
        VisitKeepsSweeping(rules, p, i, oracle(i), e);
      }
      PassSweeps(rules, q, next, oracle);
    }
  }

  lemma {:induction false} CheckMoves(rules: seq<Rule>, s: Engine, oracle: Oracle)
    requires Sequential(rules) && Fits(rules, s) && Shape(rules, s)
    requires forall k :: oracle(k).action != Defer
    requires Check(rules, s, oracle).Some?
    ensures Shape(rules, Check(rules, s, oracle).value) && Moving(rules, Check(rules, s, oracle).value)
  {
    var p := Pass(s, s.events, []);
    ShapeByEvent(rules, s);
    forall e: Event ensures Sweeping(rules, p, 0, e) {
      assert EventShape(rules, s, e);
    }
    PassSweeps(rules, p, 0, oracle);
    var q := PassFrom(rules, p, 0, oracle).value;
    forall e: Event ensures EventShape(rules, q.engine, e) {
      assert Sweeping(rules, q, |rules|, e);
    }
    ShapeByEvent(rules, q.engine);
    forall e: Event | e in q.engine.events && HasRules(rules, e)
      ensures exists j :: Lists(rules, j, e) && q.engine.status[j] == InProgress
    {
      assert Sweeping(rules, q, |rules|, e);
    }
  }

  // ----- runs ----------------------------------------------------------------

  lemma {:induction false} ResetKeepsShape(rules: seq<Rule>, s: Engine, mask: Mask)
    requires Sequential(rules) && Fits(rules, s) && Shape(rules, s) && Moving(rules, s)
    ensures Shape(rules, Reset(rules, s, mask)) && Moving(rules, Reset(rules, s, mask))
  {
    var t := Reset(rules, s, mask);
    forall e: Event, i | Lists(rules, i, e) ensures t.status[i] == if e in mask then NotDone else s.status[i] {
      OverlapsSingle(rules, i, e, mask);
    }
    ShapeByEvent(rules, s);
    forall e: Event ensures EventShape(rules, t, e) {
      assert EventShape(rules, s, e);
    }
    ShapeByEvent(rules, t);
  }

  lemma {:induction false} RaiseKeepsShape(rules: seq<Rule>, s: Engine, mask: Mask)
    requires Sequential(rules) && Fits(rules, s) && Shape(rules, s)
    ensures Shape(rules, s.(events := s.events + mask))
  {
    var t := s.(events := s.events + mask);
    forall e: Event | e in t.events && HasRules(rules, e)
      ensures exists j :: Lists(rules, j, e) && t.status[j] != Complete
    {
      if e !in s.events {
        var j :| Lists(rules, j, e);
        assert t.status[j] == NotDone;
      }
    }
  }

  lemma {:induction false} StepKeepsShape(rules: seq<Rule>, s: Engine, c: Call)
    requires Sequential(rules) && Fits(rules, s) && Shape(rules, s) && Moving(rules, s)
    requires NeverDefers(c) && Step(rules, s, c).Some?
    ensures Shape(rules, Step(rules, s, c).value) && Moving(rules, Step(rules, s, c).value)
  {
    match c
    case SetEvent(mask, oracle) =>
      RaiseKeepsShape(rules, s, mask);
      CheckMoves(rules, s.(events := s.events + mask), oracle);
    case ResetEvent(mask) => ResetKeepsShape(rules, s, mask);
    case SetRuleComplete(message, oracle) =>
      CompletionKeepsShape(rules, s, message, ALL_EVENTS);
      CheckMoves(rules, Completed(rules, s, message, ALL_EVENTS).value, oracle);
    case SetRuleWithEventComplete(message, event, oracle) =>
      CompletionKeepsShape(rules, s, message, event);
      CheckMoves(rules, Completed(rules, s, message, event).value, oracle);
    case CopyRunParams(data) =>
  }

  /** After every public call of every panic-free run: each event's rules read
      complete*, at most one in progress, not-done* (all not done if the event is
      inactive), and every active event that has rules has exactly one in
      progress. */
  lemma {:induction false} EventsNeverStall(rules: seq<Rule>, calls: seq<Call>)
    requires Sequential(rules) && forall k :: 0 <= k < |calls| ==> NeverDefers(calls[k])
    requires RunCalls(rules, calls).Some?
    ensures var s := RunCalls(rules, calls).value;
            && Shape(rules, s)
            && Moving(rules, s)
            && (forall e: Event, i, j ::
                  (Lists(rules, i, e) && Lists(rules, j, e) && s.status[i] == InProgress && s.status[j] == InProgress)
                  ==> i == j)
  {
    if calls != [] {
      var before := calls[..|calls| - 1];
      EventsNeverStall(rules, before);
      StepKeepsShape(rules, RunCalls(rules, before).value, calls[|calls| - 1]);
    }
    var s := RunCalls(rules, calls).value;
    forall e: Event, i, j | Lists(rules, i, e) && Lists(rules, j, e)
      && s.status[i] == InProgress && s.status[j] == InProgress
      ensures i == j
    {
      assert !(i < j) && !(j < i);
    }
  }
}
