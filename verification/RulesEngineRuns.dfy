/**
 * Properties of every run of the rules engine, for any rule table.
 */
module RulesEngineRuns {
  import opened Common
  import opened RulesEngine

  // ----- always-evaluate rules are never marked ------------------------------

  ghost predicate AlwaysIdle(rules: seq<Rule>, status: seq<Status>)
    requires |status| == |rules|
  {
    forall i :: 0 <= i < |rules| && rules[i].Always() ==> status[i] == NotDone
  }

  lemma {:induction false} VisitKeepsAlwaysIdle(rules: seq<Rule>, p: Pass, i: nat, a: Answer)
    requires Fits(rules, p.engine) && i < |rules| && AlwaysIdle(rules, p.engine.status)
    requires Visit(rules, p, i, a).Some?
    ensures AlwaysIdle(rules, Visit(rules, p, i, a).value.engine.status)
  {
  }

  lemma {:induction false} PassKeepsAlwaysIdle(rules: seq<Rule>, p: Pass, i: nat, oracle: Oracle)
    requires Fits(rules, p.engine) && i <= |rules| && AlwaysIdle(rules, p.engine.status)
    requires PassFrom(rules, p, i, oracle).Some?
    ensures AlwaysIdle(rules, PassFrom(rules, p, i, oracle).value.engine.status)
    decreases |rules| - i
  {
    if i < |rules| {
      VisitKeepsAlwaysIdle(rules, p, i, oracle(i));
      PassKeepsAlwaysIdle(rules, Visit(rules, p, i, oracle(i)).value, i + 1, oracle);
    }
  }

  lemma {:induction false} StepKeepsAlwaysIdle(rules: seq<Rule>, s: Engine, c: Call)
    requires Fits(rules, s) && AlwaysIdle(rules, s.status) && Step(rules, s, c).Some?
    ensures AlwaysIdle(rules, Step(rules, s, c).value.status)
  {
    match c
    case SetEvent(mask, oracle) =>
      var t := s.(events := s.events + mask);
      PassKeepsAlwaysIdle(rules, Pass(t, t.events, []), 0, oracle);
    case ResetEvent(mask) =>
    case SetRuleComplete(message, oracle) =>
      var t := Completed(rules, s, message, ALL_EVENTS).value;
      PassKeepsAlwaysIdle(rules, Pass(t, t.events, []), 0, oracle);
    case SetRuleWithEventComplete(message, event, oracle) =>
      var t := Completed(rules, s, message, event).value;
      PassKeepsAlwaysIdle(rules, Pass(t, t.events, []), 0, oracle);
    case CopyRunParams(data) =>
  }

  /** In every state a panic-free run can reach, each always-evaluate rule is not done. */
  lemma {:induction false} AlwaysRulesStayNotDone(rules: seq<Rule>, calls: seq<Call>)
    requires RunCalls(rules, calls).Some?
    ensures AlwaysIdle(rules, RunCalls(rules, calls).value.status)
  {
    if calls != [] {
      AlwaysRulesStayNotDone(rules, calls[..|calls| - 1]);
      StepKeepsAlwaysIdle(rules, RunCalls(rules, calls[..|calls| - 1]).value, calls[|calls| - 1]);
    }
  }

  // ----- what a completion call clears ---------------------------------------

  lemma {:induction false} ClearedExactly(
      rules: seq<Rule>, status: seq<Status>, message: nat, from: Status, event: Mask, e: Event)
    requires |status| == |rules|
    ensures e in Cleared(rules, status, message, from, event) <==>
            && (exists i :: 0 <= i < |rules| && e in rules[i].events && Hits(rules[i], status[i], message, from, event))
            && (forall i :: 0 <= i < |rules| && e in rules[i].events && rules[i].events * event != {}
                            ==> Mark(rules, status, message, from, event)[i] == Complete)
  {
    var marked := Mark(rules, status, message, from, event);
    assert e in OpenEvents(rules, marked, event) <==>
           exists i :: 0 <= i < |rules| && rules[i].events * event != {} && marked[i] != Complete
                       && e in rules[i].events;
    assert e in HitEvents(rules, status, message, from, event) <==>
           exists i :: 0 <= i < |rules| && Hits(rules[i], status[i], message, from, event) && e in rules[i].events;
  }

  /** SetRuleComplete(message) completes this rule. */
  ghost predicate Finishes(r: Rule, st: Status, message: nat) {
    st == InProgress && r.message == message && r.events != {}
  }

  ghost function Finished(r: Rule, st: Status, message: nat): Status {
    if Finishes(r, st, message) then Complete else st
  }

  /** The set of events all of whose rules are complete once `message` is, and
      one of whose rules `message` completes. */
  ghost predicate JustFinished(rules: seq<Rule>, status: seq<Status>, message: nat, e: Event)
    requires |status| == |rules|
  {
    && (exists i :: 0 <= i < |rules| && e in rules[i].events && Finishes(rules[i], status[i], message))
    && (forall i :: 0 <= i < |rules| && e in rules[i].events ==> Finished(rules[i], status[i], message) == Complete)
  }

  lemma {:induction false} HitsEverywhere(r: Rule, st: Status, message: nat)
    ensures Hits(r, st, message, InProgress, ALL_EVENTS) <==> Finishes(r, st, message)
    ensures r.events * ALL_EVENTS == r.events
  {
    assert r.events * ALL_EVENTS == r.events;
  }

  lemma {:induction false} ClearedEverywhere(rules: seq<Rule>, status: seq<Status>, message: nat, e: Event)
    requires |status| == |rules|
    ensures e in Cleared(rules, status, message, InProgress, ALL_EVENTS) <==> JustFinished(rules, status, message, e)
  {
    ClearedExactly(rules, status, message, InProgress, ALL_EVENTS, e);
    forall i | 0 <= i < |rules|
      ensures Hits(rules[i], status[i], message, InProgress, ALL_EVENTS) <==> Finishes(rules[i], status[i], message)
      ensures rules[i].events * ALL_EVENTS == rules[i].events
    {
      HitsEverywhere(rules[i], status[i], message);
    }
  }

  ghost predicate Touched(rules: seq<Rule>, status: seq<Status>, message: nat, r: Rule)
    requires |status| == |rules|
  {
    exists e :: e in r.events && JustFinished(rules, status, message, e)
  }

  lemma {:induction false} ClearedTouches(rules: seq<Rule>, status: seq<Status>, message: nat, r: Rule)
    requires |status| == |rules|
    ensures r.events * Cleared(rules, status, message, InProgress, ALL_EVENTS) != {}
       <==> Touched(rules, status, message, r)
  {
    var cleared := Cleared(rules, status, message, InProgress, ALL_EVENTS);
    forall e: Event ensures e in cleared <==> JustFinished(rules, status, message, e) {
      ClearedEverywhere(rules, status, message, e);
    }
    if e :| e in r.events && JustFinished(rules, status, message, e) {
      assert e in r.events * cleared;
    }
  }

  lemma {:induction false} CompletionOfRule(rules: seq<Rule>, s: Engine, message: nat, i: nat)
    requires Fits(rules, s) && AlwaysIdle(rules, s.status) && i < |rules|
    ensures !Hits(rules[i], s.status[i], message, InProgress, ALL_EVENTS) || !rules[i].Always()
    ensures var t := Update(rules, s, message, InProgress, ALL_EVENTS);
            t.Some? ==>
              t.value.status[i] == (if Touched(rules, s.status, message, rules[i]) then NotDone
                                    else Finished(rules[i], s.status[i], message))
  {
    HitsEverywhere(rules[i], s.status[i], message);
    ClearedTouches(rules, s.status, message, rules[i]);
  }

  /** SetRuleComplete, in any state a panic-free run reaches: the status update
      cannot panic; it clears exactly the events listed by a rule it just
      completed all of whose rules are now complete; it completes the rules in
      progress for the message, resets the rules of cleared events and leaves
      every other rule alone. */
  lemma {:induction false} CompletionClearsExactly(rules: seq<Rule>, calls: seq<Call>, message: nat)
    requires RunCalls(rules, calls).Some?
    ensures var s := RunCalls(rules, calls).value;
            var t := Completed(rules, s, message, ALL_EVENTS);
            && t.Some?
            && (forall e :: e in t.value.events <==> e in s.events && !JustFinished(rules, s.status, message, e))
            && (forall i :: 0 <= i < |rules| ==>
                  t.value.status[i] == (if Touched(rules, s.status, message, rules[i]) then NotDone
                                        else Finished(rules[i], s.status[i], message)))
  {
    AlwaysRulesStayNotDone(rules, calls);
    var s := RunCalls(rules, calls).value;
    forall i | 0 <= i < |rules|
      ensures !Hits(rules[i], s.status[i], message, InProgress, ALL_EVENTS) || !rules[i].Always()
    {
      CompletionOfRule(rules, s, message, i);
    }
    var t := Update(rules, s, message, InProgress, ALL_EVENTS);
    forall i | 0 <= i < |rules|
      ensures t.value.status[i] == (if Touched(rules, s.status, message, rules[i]) then NotDone
                                    else Finished(rules[i], s.status[i], message))
    {
      CompletionOfRule(rules, s, message, i);
    }
    forall e: Event
      ensures e in t.value.events <==> e in s.events && !JustFinished(rules, s.status, message, e)
    {
      ClearedEverywhere(rules, s.status, message, e);
    }
  }

  /** It never resets a rule still in progress and never clears an event of an
      always-evaluate rule. */
  lemma {:induction false} CompletionSparesOthers(rules: seq<Rule>, calls: seq<Call>, message: nat, i: nat)
    requires RunCalls(rules, calls).Some? && i < |rules|
    ensures var s := RunCalls(rules, calls).value;
            var t := Completed(rules, s, message, ALL_EVENTS);
            && t.Some?
            && (s.status[i] == InProgress && !Finishes(rules[i], s.status[i], message)
                ==> t.value.status[i] == InProgress)
            && (rules[i].Always() ==> rules[i].events * s.events <= t.value.events)
  {
    AlwaysRulesStayNotDone(rules, calls);
    CompletionClearsExactly(rules, calls, message);
  }

  // ----- one pass ------------------------------------------------------------

  /** The rules a pass has started lie inside the events it began with, outside
      the events it still considers, and apart from one another. */
  ghost predicate Disjoint(rules: seq<Rule>, p: Pass, initial: Mask) {
    && p.local <= initial
    && (forall k :: 0 <= k < |p.started| ==>
          && p.started[k] < |rules|
          && !rules[p.started[k]].Always()
          && rules[p.started[k]].events <= initial - p.local)
    && (forall k, l :: 0 <= k < l < |p.started| ==>
          && p.started[k] < p.started[l] < |rules|
          && rules[p.started[k]].events !! rules[p.started[l]].events)
  }

  lemma {:induction false} PassStartsDisjointFrom(rules: seq<Rule>, p: Pass, i: nat, oracle: Oracle, initial: Mask)
    requires Fits(rules, p.engine) && i <= |rules|
    requires Disjoint(rules, p, initial) && forall k :: 0 <= k < |p.started| ==> p.started[k] < i
    requires PassFrom(rules, p, i, oracle).Some?
    ensures Disjoint(rules, PassFrom(rules, p, i, oracle).value, initial)
    decreases |rules| - i
  {
    if i < |rules| {
      var q := Visit(rules, p, i, oracle(i)).value;
      VisitKeepsDisjoint(rules, p, i, oracle(i), initial);
      PassStartsDisjointFrom(rules, q, i + 1, oracle, initial);
    }
  }

  lemma {:induction false} VisitKeepsDisjoint(rules: seq<Rule>, p: Pass, i: nat, a: Answer, initial: Mask)
    requires Fits(rules, p.engine) && i < |rules|
    requires Disjoint(rules, p, initial) && forall k :: 0 <= k < |p.started| ==> p.started[k] < i
    requires Visit(rules, p, i, a).Some?
    ensures Disjoint(rules, Visit(rules, p, i, a).value, initial)
    ensures var started := Visit(rules, p, i, a).value.started;
            forall k :: 0 <= k < |started| ==> started[k] < i + 1
  {
  }

  /** For any table and any answers: the non-always rules one pass puts in
      progress, in table order, list pairwise disjoint events, all active when
      the pass began, however many events it clears and rules it resets. */
  lemma {:induction false} PassStartsDisjointRules(rules: seq<Rule>, s: Engine, oracle: Oracle)
    requires Fits(rules, s) && RunRules(rules, s, oracle).Some?
    ensures var started := RunRules(rules, s, oracle).value.started;
            && (forall k :: 0 <= k < |started| ==> started[k] < |rules| && rules[started[k]].events <= s.events)
            && (forall k, l :: 0 <= k < l < |started| ==>
                  started[k] < started[l] < |rules| && rules[started[k]].events !! rules[started[l]].events)
  {
    PassStartsDisjointFrom(rules, Pass(s, s.events, []), 0, oracle, s.events);
  }

  /** A rule that is in progress after a pass was in progress before it or is in
      the pass's record of started rules, so the record misses no start. */
  lemma {:induction false} PassRecordsEveryStart(rules: seq<Rule>, p: Pass, i: nat, oracle: Oracle, k: nat)
    requires Fits(rules, p.engine) && i <= |rules| && k < |rules|
    requires PassFrom(rules, p, i, oracle).Some?
    requires PassFrom(rules, p, i, oracle).value.engine.status[k] == InProgress
    ensures p.engine.status[k] == InProgress || k in PassFrom(rules, p, i, oracle).value.started
    decreases |rules| - i
  {
    if i < |rules| {
      var q := Visit(rules, p, i, oracle(i)).value;
      PassRecordsEveryStart(rules, q, i + 1, oracle, k);
      PassKeepsRecord(rules, q, i + 1, oracle);
      if k in q.started && k !in p.started {
        assert q.started == p.started + [i];
      }
    }
  }

  lemma {:induction false} PassKeepsRecord(rules: seq<Rule>, p: Pass, i: nat, oracle: Oracle)
    requires Fits(rules, p.engine) && i <= |rules|
    requires PassFrom(rules, p, i, oracle).Some?
    ensures p.started <= PassFrom(rules, p, i, oracle).value.started
    decreases |rules| - i
  {
    if i < |rules| {
      PassKeepsRecord(rules, Visit(rules, p, i, oracle(i)).value, i + 1, oracle);
    }
  }

  // ----- no event has all its rules complete ---------------------------------

  ghost predicate HasOpen(rules: seq<Rule>, status: seq<Status>, e: Event)
    requires |status| == |rules|
  {
    exists r :: 0 <= r < |rules| && e in rules[r].events && status[r] != Complete
  }

  ghost predicate NoneFinished(rules: seq<Rule>, status: seq<Status>)
    requires |status| == |rules|
  {
    forall i, e :: 0 <= i < |rules| && e in rules[i].events ==> HasOpen(rules, status, e)
  }

  lemma {:induction false} UpdateKeepsOpen(
      rules: seq<Rule>, s: Engine, message: nat, from: Status, event: Mask, e: Event)
    requires Fits(rules, s) && HasOpen(rules, s.status, e) && Update(rules, s, message, from, event).Some?
    ensures HasOpen(rules, Update(rules, s, message, from, event).value.status, e)
  {
    var marked := Mark(rules, s.status, message, from, event);
    var t := Update(rules, s, message, from, event).value;
    var r :| 0 <= r < |rules| && e in rules[r].events && s.status[r] != Complete;
    ClearedExactly(rules, s.status, message, from, event, e);
    if marked[r] != Complete {
      assert t.status[r] != Complete;
    } else if e in Cleared(rules, s.status, message, from, event) {
      assert e in rules[r].events * Cleared(rules, s.status, message, from, event);
      assert t.status[r] == NotDone;
    } else {
      var o :| 0 <= o < |rules| && e in rules[o].events && marked[o] != Complete;
      assert t.status[o] != Complete;
    }
  }

  lemma {:induction false} UpdateKeepsNoneFinished(rules: seq<Rule>, s: Engine, message: nat, from: Status, event: Mask)
    requires Fits(rules, s) && NoneFinished(rules, s.status) && Update(rules, s, message, from, event).Some?
    ensures NoneFinished(rules, Update(rules, s, message, from, event).value.status)
  {
    var t := Update(rules, s, message, from, event).value;
    forall i, e | 0 <= i < |rules| && e in rules[i].events ensures HasOpen(rules, t.status, e) {
      UpdateKeepsOpen(rules, s, message, from, event, e);
    }
  }

  lemma {:induction false} OpenerKeepsNoneFinished(rules: seq<Rule>, before: seq<Status>, after: seq<Status>)
    requires |before| == |rules| == |after| && NoneFinished(rules, before)
    requires forall r :: 0 <= r < |rules| && before[r] != Complete ==> after[r] != Complete
    ensures NoneFinished(rules, after)
  {
    forall i, e | 0 <= i < |rules| && e in rules[i].events ensures HasOpen(rules, after, e) {
      assert HasOpen(rules, before, e);
      var r :| 0 <= r < |rules| && e in rules[r].events && before[r] != Complete;
      assert after[r] != Complete;
    }
  }

  lemma {:induction false} VisitKeepsNoneFinished(rules: seq<Rule>, p: Pass, i: nat, a: Answer)
    requires Fits(rules, p.engine) && i < |rules| && NoneFinished(rules, p.engine.status)
    requires Visit(rules, p, i, a).Some?
    ensures NoneFinished(rules, Visit(rules, p, i, a).value.engine.status)
  {
    var s := CopyAll(p.engine, a.copies);
    if s.Some? && (a.action == Finish || a.action == Ignore)
       && Update(rules, s.value, rules[i].message, s.value.status[i], rules[i].events).Some? {
      UpdateKeepsNoneFinished(rules, s.value, rules[i].message, s.value.status[i], rules[i].events);
    }
    var t := Visit(rules, p, i, a).value.engine;
    if forall r :: 0 <= r < |rules| && p.engine.status[r] != Complete ==> t.status[r] != Complete {
      OpenerKeepsNoneFinished(rules, p.engine.status, t.status);
    }
  }

  lemma {:induction false} PassKeepsNoneFinished(rules: seq<Rule>, p: Pass, i: nat, oracle: Oracle)
    requires Fits(rules, p.engine) && i <= |rules| && NoneFinished(rules, p.engine.status)
    requires PassFrom(rules, p, i, oracle).Some?
    ensures NoneFinished(rules, PassFrom(rules, p, i, oracle).value.engine.status)
    decreases |rules| - i
  {
    if i < |rules| {
      VisitKeepsNoneFinished(rules, p, i, oracle(i));
      PassKeepsNoneFinished(rules, Visit(rules, p, i, oracle(i)).value, i + 1, oracle);
    }
  }

  lemma {:induction false} CompletedKeepsNoneFinished(rules: seq<Rule>, s: Engine, message: nat, event: Mask)
    requires Fits(rules, s) && NoneFinished(rules, s.status) && Completed(rules, s, message, event).Some?
    ensures NoneFinished(rules, Completed(rules, s, message, event).value.status)
  {
    UpdateKeepsNoneFinished(rules, s, message, InProgress, event);
  }

  lemma {:induction false} StepKeepsNoneFinished(rules: seq<Rule>, s: Engine, c: Call)
    requires Fits(rules, s) && NoneFinished(rules, s.status) && Step(rules, s, c).Some?
    ensures NoneFinished(rules, Step(rules, s, c).value.status)
  {
    match c
    case SetEvent(mask, oracle) =>
      var t := s.(events := s.events + mask);
      PassKeepsNoneFinished(rules, Pass(t, t.events, []), 0, oracle);
    case ResetEvent(mask) => OpenerKeepsNoneFinished(rules, s.status, ResetStatus(rules, s.status, mask));
    case SetRuleComplete(message, oracle) =>
      var t := Completed(rules, s, message, ALL_EVENTS).value;
      CompletedKeepsNoneFinished(rules, s, message, ALL_EVENTS);
      PassKeepsNoneFinished(rules, Pass(t, t.events, []), 0, oracle);
    case SetRuleWithEventComplete(message, event, oracle) =>
      var t := Completed(rules, s, message, event).value;
      CompletedKeepsNoneFinished(rules, s, message, event);
      PassKeepsNoneFinished(rules, Pass(t, t.events, []), 0, oracle);
    case CopyRunParams(data) =>
  }

  /** For any table, in every state a panic-free run reaches, every listed event has
      a rule that is not complete: the last completion clears it at once. */
  lemma {:induction false} NoEventStaysFinished(rules: seq<Rule>, calls: seq<Call>)
    requires RunCalls(rules, calls).Some?
    ensures NoneFinished(rules, RunCalls(rules, calls).value.status)
  {
    if calls != [] {
      NoEventStaysFinished(rules, calls[..|calls| - 1]);
      StepKeepsNoneFinished(rules, RunCalls(rules, calls[..|calls| - 1]).value, calls[|calls| - 1]);
    } else {
      forall i, e | 0 <= i < |rules| && e in rules[i].events ensures HasOpen(rules, Fresh(rules).status, e) {
        assert Fresh(rules).status[i] != Complete;
      }
    }
  }

  // ----- conservation of parameters ------------------------------------------

  /** Replay a log: `None` if it is not lawful, otherwise the buffer left over.
      Lawful: a buffer is copied in only when none is held, a message with a body
      carries the buffer held and gives it up, and a plain message is posted only
      when no buffer is held. */
  ghost function Replay(log: seq<Log>): Option<Option<Bytes>> {
    if log == [] then Some(None)
    else
      var before := Replay(log[..|log| - 1]);
      if before.None? then None
      else match log[|log| - 1]
        case Copied(data) => if before.value.None? then Some(Some(data)) else None
        case Posted(_, body) =>
          if body.None? then (if before.value.None? then Some(None) else None)
          else if before.value == body then Some(None) else None
  }

  ghost predicate Balanced(s: Engine) {
    && Replay(s.log) == Some(s.data)
    && s.size == (if s.data.Some? then |s.data.value| else 0)
  }

  lemma {:induction false} ReplayExtends(log: seq<Log>, x: Log)
    ensures Replay(log + [x]) ==
            var before := Replay(log);
            if before.None? then None
            else match x
              case Copied(data) => if before.value.None? then Some(Some(data)) else None
              case Posted(_, body) =>
                if body.None? then (if before.value.None? then Some(None) else None)
                else if before.value == body then Some(None) else None
  {
    assert (log + [x])[..|log + [x]| - 1] == log;
  }

  lemma {:induction false} CopyBalanced(s: Engine, data: Bytes)
    requires Balanced(s) && Copy(s, data).Some?
    ensures Balanced(Copy(s, data).value)
  {
    ReplayExtends(s.log, Copied(data));
  }

  lemma {:induction false} CopyAllBalanced(s: Engine, copies: seq<Bytes>)
    requires Balanced(s) && CopyAll(s, copies).Some?
    ensures Balanced(CopyAll(s, copies).value)
    decreases |copies|
  {
    if copies != [] {
      CopyBalanced(s, copies[0]);
      CopyAllBalanced(Copy(s, copies[0]).value, copies[1..]);
    }
  }

  lemma {:induction false} PostBalanced(s: Engine, message: nat, withParam: bool)
    requires Balanced(s) && Post(s, message, withParam).Some?
    ensures Balanced(Post(s, message, withParam).value)
  {
    ReplayExtends(s.log, Posted(message, if withParam then s.data else None));
  }

  lemma {:induction false} ObeyBalanced(rules: seq<Rule>, p: Pass, i: nat, action: Action)
    requires Fits(rules, p.engine) && i < |rules| && Balanced(p.engine) && Obey(rules, p, i, action).Some?
    ensures Balanced(Obey(rules, p, i, action).value.engine)
  {
    if action == Run || action == RunWithParam {
      var s := if rules[i].Always() then p.engine else p.engine.(status := p.engine.status[i := InProgress]);
      PostBalanced(s, rules[i].message, action == RunWithParam);
    }
  }

  lemma {:induction false} VisitBalanced(rules: seq<Rule>, p: Pass, i: nat, a: Answer)
    requires Fits(rules, p.engine) && i < |rules| && Balanced(p.engine) && Visit(rules, p, i, a).Some?
    ensures Balanced(Visit(rules, p, i, a).value.engine)
  {
    var s := CopyAll(p.engine, a.copies);
    if s.Some? {
      CopyAllBalanced(p.engine, a.copies);
      if Obey(rules, p.(engine := s.value), i, a.action).Some? {
        ObeyBalanced(rules, p.(engine := s.value), i, a.action);
      }
    }
  }

  lemma {:induction false} PassBalanced(rules: seq<Rule>, p: Pass, i: nat, oracle: Oracle)
    requires Fits(rules, p.engine) && i <= |rules| && Balanced(p.engine) && PassFrom(rules, p, i, oracle).Some?
    ensures Balanced(PassFrom(rules, p, i, oracle).value.engine)
    decreases |rules| - i
  {
    if i < |rules| {
      VisitBalanced(rules, p, i, oracle(i));
      PassBalanced(rules, Visit(rules, p, i, oracle(i)).value, i + 1, oracle);
    }
  }

  lemma {:induction false} StepBalanced(rules: seq<Rule>, s: Engine, c: Call)
    requires Fits(rules, s) && Balanced(s) && Step(rules, s, c).Some?
    ensures Balanced(Step(rules, s, c).value)
  {
    match c
    case SetEvent(mask, oracle) =>
      var t := s.(events := s.events + mask);
      PassBalanced(rules, Pass(t, t.events, []), 0, oracle);
    case ResetEvent(mask) =>
    case SetRuleComplete(message, oracle) =>
      var t := Completed(rules, s, message, ALL_EVENTS).value;
      PassBalanced(rules, Pass(t, t.events, []), 0, oracle);
    case SetRuleWithEventComplete(message, event, oracle) =>
      var t := Completed(rules, s, message, event).value;
      PassBalanced(rules, Pass(t, t.events, []), 0, oracle);
    case CopyRunParams(data) => CopyBalanced(s, data);
  }

  ghost function Copies(log: seq<Log>): nat {
    if log == [] then 0 else Copies(log[..|log| - 1]) + if log[|log| - 1].Copied? then 1 else 0
  }

  ghost function Bodies(log: seq<Log>): nat {
    if log == [] then 0
    else Bodies(log[..|log| - 1]) + if log[|log| - 1].Posted? && log[|log| - 1].body.Some? then 1 else 0
  }

  lemma {:induction false} LawfulLogCounts(log: seq<Log>)
    requires Replay(log).Some?
    ensures Copies(log) == Bodies(log) + if Replay(log).value.Some? then 1 else 0
  {
    if log != [] {
      LawfulLogCounts(log[..|log| - 1]);
    }
  }

  /** Over any panic-free run the log of copies and messages is lawful and leaves
      exactly the buffer the engine holds, so copies equal messages with a body
      plus one if a buffer is pending. */
  lemma {:induction false} ParametersConserved(rules: seq<Rule>, calls: seq<Call>)
    requires RunCalls(rules, calls).Some?
    ensures var s := RunCalls(rules, calls).value;
            && Balanced(s)
            && Copies(s.log) == Bodies(s.log) + if s.data.Some? then 1 else 0
  {
    if calls != [] {
      ParametersConserved(rules, calls[..|calls| - 1]);
      StepBalanced(rules, RunCalls(rules, calls[..|calls| - 1]).value, calls[|calls| - 1]);
    }
    LawfulLogCounts(RunCalls(rules, calls).value.log);
  }
}
