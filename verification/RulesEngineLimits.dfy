/**
 * Two properties of the rules engine that do not hold of every table, with the
 * exact condition on the table under which every run has them.
 */
module RulesEngineLimits {
  import opened Common
  import opened RulesEngine
  import opened RulesEngineRuns
  import opened RulesEngineReach
  import opened RulesEngineChains

  // ----- which events a completion can clear ---------------------------------

  /** A completion for `event` looks at the rule before it clears e. */
  ghost predicate Inside(r: Rule, event: Mask, e: Event) {
    e in r.events && r.events * event != {}
  }

  /** The rule must already be complete for `message` to clear e. */
  ghost predicate Blocks(r: Rule, message: nat, event: Mask, e: Event) {
    Inside(r, event, e) && r.message != message
  }

  ghost function Blockers(rules: seq<Rule>, message: nat, event: Mask, e: Event): set<nat> {
    set r: nat | r < |rules| && Blocks(rules[r], message, event, e)
  }

  /** A completion of `message` for `event` can clear e: one of its rules is inside,
      no always-evaluate rule is, and the rules that must be complete beforehand can
      be complete together. */
  ghost predicate Clearable(rules: seq<Rule>, message: nat, event: Mask, e: Event) {
    && (exists i :: 0 <= i < |rules| && Inside(rules[i], event, e) && rules[i].message == message)
    && (forall i :: 0 <= i < |rules| && Inside(rules[i], event, e) ==> !rules[i].Always())
    && Completable(rules, Blockers(rules, message, event, e))
  }

  /** Whatever clears e, in a state that a run can reach, that was possible. */
  lemma {:induction false} ClearedIsClearable(
      rules: seq<Rule>, status: seq<Status>, message: nat, from: Status, event: Mask, e: Event)
    requires |status| == |rules| && AlwaysIdle(rules, status) && NoneFinished(rules, status)
    requires !HitsAlways(rules, status, message, from, event) && e in Cleared(rules, status, message, from, event)
    ensures Clearable(rules, message, event, e)
  {
    ClearedExactly(rules, status, message, from, event, e);
    forall i | 0 <= i < |rules| && Inside(rules[i], event, e) ensures !rules[i].Always() {
      assert Mark(rules, status, message, from, event)[i] == Complete;
    }
    var blockers := Blockers(rules, message, event, e);
    forall c, x | c in blockers && x in rules[c].events ensures OpenElsewhere(rules, blockers, x) {
      assert HasOpen(rules, status, x);
      var r :| 0 <= r < |rules| && x in rules[r].events && status[r] != Complete;
      assert r !in blockers;
    }
  }

  /** With the blockers complete and the message's rules in `from`, e is cleared. */
  lemma {:induction false} ClearsWhenStaged(
      rules: seq<Rule>, s: Engine, busy: set<nat>, message: nat, from: Status, event: Mask, e: Event)
    requires Clearable(rules, message, event, e)
    requires Staged(rules, s, Blockers(rules, message, event, e), busy) && from in {InProgress, Deferred}
    requires forall i :: 0 <= i < |rules| && Inside(rules[i], event, e) && rules[i].message == message
                         ==> s.status[i] == from
    ensures !HitsAlways(rules, s.status, message, from, event)
    ensures e in Cleared(rules, s.status, message, from, event)
  {
    ClearedExactly(rules, s.status, message, from, event, e);
    var i :| 0 <= i < |rules| && Inside(rules[i], event, e) && rules[i].message == message;
    assert Hits(rules[i], s.status[i], message, from, event);
  }

  // ----- completion with an explicit mask ------------------------------------

  /** A completion that is not its own leaves rule k in progress. */
  ghost predicate Keeps(rules: seq<Rule>, s: Engine, message: nat, event: Mask, k: nat)
    requires Fits(rules, s)
  {
    var t := Completed(rules, s, message, event);
    (t.Some? && k < |rules| && s.status[k] == InProgress && !Hits(rules[k], s.status[k], message, InProgress, event))
    ==> t.value.status[k] == InProgress
  }

  /** Rule k lies outside the mask but lists an event the completion can clear. */
  ghost predicate Exposed(rules: seq<Rule>, message: nat, event: Mask, k: nat, e: Event) {
    && k < |rules| && !rules[k].Always()
    && e in rules[k].events && rules[k].events * event == {}
    && Clearable(rules, message, event, e)
  }

  lemma {:induction false} ResetOnlyIfExposed(rules: seq<Rule>, s: Engine, message: nat, event: Mask, k: nat)
    returns (e: Event)
    requires Fits(rules, s) && AlwaysIdle(rules, s.status) && NoneFinished(rules, s.status)
    requires !Keeps(rules, s, message, event, k)
    ensures Exposed(rules, message, event, k, e)
  {
    e :| e in rules[k].events * Cleared(rules, s.status, message, InProgress, event);
    ClearedIsClearable(rules, s.status, message, InProgress, event, e);
    ClearedExactly(rules, s.status, message, InProgress, event, e);
  }

  lemma {:induction false} ExposedIsReset(rules: seq<Rule>, message: nat, event: Mask, k: nat, e: Event)
    returns (calls: seq<Call>)
    requires Exposed(rules, message, event, k, e)
    ensures RunCalls(rules, calls).Some? && !Keeps(rules, RunCalls(rules, calls).value, message, event, k)
  {
    var busy := set r: nat | r < |rules| && (r == k || (Inside(rules[r], event, e) && rules[r].message == message));
    calls := StageReached(rules, Blockers(rules, message, event, e), busy);
    var s := RunCalls(rules, calls).value;
    ClearsWhenStaged(rules, s, busy, message, InProgress, event, e);
    assert e in rules[k].events * Cleared(rules, s.status, message, InProgress, event);
    CompletedIsUpdate(rules, s, message, event);
  }

  /** In every state every run reaches, completing `message` for `event` leaves all
      other rules in progress alone, if and only if the table has no exposed rule. */
  lemma {:induction false} CompletionWithEventSafeIff(rules: seq<Rule>, message: nat, event: Mask)
    ensures (forall calls, k: nat ::
               RunCalls(rules, calls).Some? ==> Keeps(rules, RunCalls(rules, calls).value, message, event, k))
            <==> !(exists k: nat, e: Event :: Exposed(rules, message, event, k, e))
  {
    if k: nat, e: Event :| Exposed(rules, message, event, k, e) {
      var calls := ExposedIsReset(rules, message, event, k, e);
    } else {
      forall calls, k: nat | RunCalls(rules, calls).Some?
        ensures Keeps(rules, RunCalls(rules, calls).value, message, event, k)
      {
        AlwaysRulesStayNotDone(rules, calls);
        NoEventStaysFinished(rules, calls);
        if !Keeps(rules, RunCalls(rules, calls).value, message, event, k) {
          var e := ResetOnlyIfExposed(rules, RunCalls(rules, calls).value, message, event, k);
        }
      }
    }
  }

  // ----- rules in progress and their events ----------------------------------

  /** Every rule in progress has all its events active. */
  ghost predicate ProgressActive(rules: seq<Rule>, s: Engine)
    requires Fits(rules, s)
  {
    forall r :: 0 <= r < |rules| && s.status[r] == InProgress ==> rules[r].events <= s.events
  }

  /** When rule j finishes it can clear an event that the later rule k lists. */
  ghost predicate Outrun(rules: seq<Rule>, j: nat, k: nat, e: Event) {
    && j < k < |rules| && !rules[j].Always() && !rules[k].Always()
    && e in rules[k].events
    && Clearable(rules, rules[j].message, rules[j].events, e)
  }

  /** Rule j, behind i, may have cleared e. */
  ghost predicate ClearedBehind(rules: seq<Rule>, i: nat, e: Event) {
    exists j :: 0 <= j < i && j < |rules| && !rules[j].Always()
                && Clearable(rules, rules[j].message, rules[j].events, e)
  }

  /** Part way through a pass: an event the pass still considers is active or may
      have been cleared by a rule behind. */
  ghost predicate Accounted(rules: seq<Rule>, p: Pass, i: nat)
    requires Fits(rules, p.engine)
  {
    && AlwaysIdle(rules, p.engine.status) && NoneFinished(rules, p.engine.status)
    && ProgressActive(rules, p.engine)
    && (forall e :: e in p.local && e !in p.engine.events ==> ClearedBehind(rules, i, e))
  }

  lemma {:induction false} UpdateKeepsActive(rules: seq<Rule>, s: Engine, message: nat, from: Status, event: Mask)
    requires Fits(rules, s) && AlwaysIdle(rules, s.status) && ProgressActive(rules, s)
    requires Update(rules, s, message, from, event).Some?
    ensures ProgressActive(rules, Update(rules, s, message, from, event).value)
  {
    var t := Update(rules, s, message, from, event).value;
    var cleared := Cleared(rules, s.status, message, from, event);
    forall r | 0 <= r < |rules| && t.status[r] == InProgress ensures rules[r].events <= t.events {
      assert rules[r].events * cleared == {};
      assert forall e :: e in rules[r].events && e in cleared ==> e in rules[r].events * cleared;
    }
  }

  /** The rule at i finishes. */
  lemma {:induction false} FinishAccounted(rules: seq<Rule>, p: Pass, i: nat)
    requires Fits(rules, p.engine) && i < |rules| && !rules[i].Always() && Accounted(rules, p, i)
    requires Update(rules, p.engine, rules[i].message, p.engine.status[i], rules[i].events).Some?
    ensures var u := Update(rules, p.engine, rules[i].message, p.engine.status[i], rules[i].events).value;
            Accounted(rules, p.(engine := u), i + 1)
  {
    var s := p.engine;
    var message, from, event := rules[i].message, s.status[i], rules[i].events;
    var u := Update(rules, s, message, from, event).value;
    UpdateKeepsActive(rules, s, message, from, event);
    UpdateKeepsNoneFinished(rules, s, message, from, event);
    forall e | e in p.local && e !in u.events ensures ClearedBehind(rules, i + 1, e) {
      if e in s.events {
        ClearedIsClearable(rules, s.status, message, from, event, e);
      } else {
        assert ClearedBehind(rules, i, e);
      }
    }
  }

  lemma {:induction false} AccountedOn(rules: seq<Rule>, p: Pass, i: nat)
    requires Fits(rules, p.engine) && Accounted(rules, p, i)
    ensures Accounted(rules, p, i + 1)
  {
    forall e | e in p.local && e !in p.engine.events ensures ClearedBehind(rules, i + 1, e) {
      assert ClearedBehind(rules, i, e);
    }
  }

  /** The rule at i is put in another state than Complete. */
  lemma {:induction false} MoveAccounted(rules: seq<Rule>, p: Pass, q: Pass, i: nat, st: Status)
    requires Fits(rules, p.engine) && i < |rules| && !rules[i].Always() && Accounted(rules, p, i) && st != Complete
    requires st == InProgress ==> rules[i].events <= p.engine.events
    requires q.engine.status == p.engine.status[i := st] && q.engine.events == p.engine.events && q.local <= p.local
    ensures Fits(rules, q.engine) && Accounted(rules, q, i + 1)
  {
    OpenerKeepsNoneFinished(rules, p.engine.status, q.engine.status);
    AccountedOn(rules, p, i);
  }

  lemma {:induction false} NotBehind(rules: seq<Rule>, i: nat, e: Event)
    requires i < |rules| && !rules[i].Always() && e in rules[i].events
    requires forall j: nat :: !Outrun(rules, j, i, e)
    ensures !ClearedBehind(rules, i, e)
  {
    forall j: nat | j < i && !rules[j].Always() ensures !Clearable(rules, rules[j].message, rules[j].events, e) {
      assert !Outrun(rules, j, i, e);
    }
  }

  lemma {:induction false} VisitAccounted(rules: seq<Rule>, p: Pass, i: nat, a: Answer)
    requires Fits(rules, p.engine) && i < |rules| && Accounted(rules, p, i)
    requires forall j: nat, e: Event :: !Outrun(rules, j, i, e)
    requires Visit(rules, p, i, a).Some?
    ensures Accounted(rules, Visit(rules, p, i, a).value, i + 1)
  {
    AccountedOn(rules, p, i);
    var rule, st, copied := rules[i], p.engine.status[i], CopyAll(p.engine, a.copies);
    if !rule.Always() && rule.events <= p.local && st != Complete && st != InProgress && copied.Some? {
      var q := p.(engine := copied.value);
      assert Accounted(rules, q, i);
      if a.action == Finish || a.action == Ignore {
        FinishAccounted(rules, q, i);
      } else if a.action == Defer {
        MoveAccounted(rules, q, Visit(rules, p, i, a).value, i, Deferred);
      } else {
        forall e | e in rule.events ensures e in p.engine.events { NotBehind(rules, i, e); }
        MoveAccounted(rules, q, Visit(rules, p, i, a).value, i, InProgress);
      }
    }
  }

  lemma {:induction false} PassAccounted(rules: seq<Rule>, p: Pass, i: nat, oracle: Oracle)
    requires Fits(rules, p.engine) && i <= |rules| && Accounted(rules, p, i)
    requires forall j: nat, k: nat, e: Event :: !Outrun(rules, j, k, e)
    requires PassFrom(rules, p, i, oracle).Some?
    ensures ProgressActive(rules, PassFrom(rules, p, i, oracle).value.engine)
    decreases |rules| - i
  {
    if i < |rules| {
      VisitAccounted(rules, p, i, oracle(i));
      PassAccounted(rules, Visit(rules, p, i, oracle(i)).value, i + 1, oracle);
    }
  }

  lemma {:induction false} CheckActive(rules: seq<Rule>, s: Engine, oracle: Oracle)
    requires Fits(rules, s) && AlwaysIdle(rules, s.status) && NoneFinished(rules, s.status) && ProgressActive(rules, s)
    requires forall j: nat, k: nat, e: Event :: !Outrun(rules, j, k, e)
    requires Check(rules, s, oracle).Some?
    ensures ProgressActive(rules, Check(rules, s, oracle).value)
  {
    PassAccounted(rules, Pass(s, s.events, []), 0, oracle);
  }

  lemma {:induction false} CompletedActive(rules: seq<Rule>, s: Engine, message: nat, event: Mask)
    requires Fits(rules, s) && AlwaysIdle(rules, s.status) && NoneFinished(rules, s.status) && ProgressActive(rules, s)
    requires Completed(rules, s, message, event).Some?
    ensures var t := Completed(rules, s, message, event).value;
            AlwaysIdle(rules, t.status) && NoneFinished(rules, t.status) && ProgressActive(rules, t)
  {
    CompletedIsUpdate(rules, s, message, event);
    UpdateKeepsActive(rules, s, message, InProgress, event);
    CompletedKeepsNoneFinished(rules, s, message, event);
  }

  lemma {:induction false} ResetActive(rules: seq<Rule>, s: Engine, mask: Mask)
    requires Fits(rules, s) && AlwaysIdle(rules, s.status) && ProgressActive(rules, s)
    ensures ProgressActive(rules, Reset(rules, s, mask))
  {
    var t := Reset(rules, s, mask);
    forall r | 0 <= r < |rules| && t.status[r] == InProgress ensures rules[r].events <= t.events {
      assert forall e :: e in rules[r].events && e in mask ==> e in rules[r].events * mask;
    }
  }

  lemma {:induction false} StepActive(rules: seq<Rule>, s: Engine, c: Call)
    requires Fits(rules, s) && AlwaysIdle(rules, s.status) && NoneFinished(rules, s.status) && ProgressActive(rules, s)
    requires forall j: nat, k: nat, e: Event :: !Outrun(rules, j, k, e)
    requires Step(rules, s, c).Some?
    ensures ProgressActive(rules, Step(rules, s, c).value)
  {
    match c
    case SetEvent(mask, oracle) => CheckActive(rules, s.(events := s.events + mask), oracle);
    case ResetEvent(mask) => ResetActive(rules, s, mask);
    case SetRuleComplete(message, oracle) =>
      CompletedActive(rules, s, message, ALL_EVENTS);
      CheckActive(rules, Completed(rules, s, message, ALL_EVENTS).value, oracle);
    case SetRuleWithEventComplete(message, event, oracle) =>
      CompletedActive(rules, s, message, event);
      CheckActive(rules, Completed(rules, s, message, event).value, oracle);
    case CopyRunParams(data) =>
  }

  lemma {:induction false} RunActive(rules: seq<Rule>, calls: seq<Call>)
    requires forall j: nat, k: nat, e: Event :: !Outrun(rules, j, k, e)
    requires RunCalls(rules, calls).Some?
    ensures ProgressActive(rules, RunCalls(rules, calls).value)
  {
    if calls != [] {
      var before := calls[..|calls| - 1];
      RunActive(rules, before);
      AlwaysRulesStayNotDone(rules, before);
      NoEventStaysFinished(rules, before);
      StepActive(rules, RunCalls(rules, before).value, calls[|calls| - 1]);
    }
  }

  /** Rule j answers Finish, the later rule k Run, the others are passive. */
  function Outrunning(rules: seq<Rule>, j: nat, k: nat): Oracle {
    (i: nat) => if i == j then Answer([], Finish) else if i == k then Answer([], Run) else Passive(rules, i)
  }

  /** The pass as far as rule j, which finishes and clears e. */
  lemma {:induction false} FinishesFirst(rules: seq<Rule>, s: Engine, j: nat, k: nat, e: Event) returns (q: Pass)
    requires Outrun(rules, j, k, e) && Staged(rules, s, Blockers(rules, rules[j].message, rules[j].events, e), {})
    ensures Fits(rules, q.engine) && q.local == ALL_EVENTS && q.engine.data.None? && q.engine.size == 0
    ensures e !in q.engine.events && q.engine.status[k] == NotDone
    ensures forall r :: 0 <= r < |rules| ==> q.engine.status[r] != InProgress
    ensures PassFrom(rules, Pass(s, s.events, []), 0, Outrunning(rules, j, k))
         == PassFrom(rules, q, j + 1, Outrunning(rules, j, k))
  {
    var oracle := Outrunning(rules, j, k);
    var message, event := rules[j].message, rules[j].events;
    forall i | 0 <= i < |rules| ensures rules[i].events <= ALL_EVENTS { EventsAll(rules[i]); }
    var p := PassiveStretch(rules, Pass(s, s.events, []), 0, j, oracle);
    assert p.engine.status == s.status;
    assert p.engine == s;
    ClearsWhenStaged(rules, s, {}, message, Deferred, event, e);
    assert e in rules[k].events * Cleared(rules, s.status, message, Deferred, event);
    q := Visit(rules, p, j, oracle(j)).value;
  }

  /** Rule k, not done, is visited with all events considered and answers Run. */
  lemma {:induction false} RunsHere(rules: seq<Rule>, p: Pass, k: nat) returns (q: Pass)
    requires Fits(rules, p.engine) && k < |rules| && !rules[k].Always() && p.engine.status[k] == NotDone
    requires p.local == ALL_EVENTS && p.engine.data.None? && p.engine.size == 0
    ensures Visit(rules, p, k, Answer([], Run)) == Some(q)
    ensures Fits(rules, q.engine) && q.engine.events == p.engine.events
    ensures q.engine.status == p.engine.status[k := InProgress]
  {
    EventsAll(rules[k]);
    q := Visit(rules, p, k, Answer([], Run)).value;
  }

  /** Once rule k is started the rest of the pass is passive. */
  lemma {:induction false} StaysStarted(rules: seq<Rule>, p: Pass, k: nat, oracle: Oracle)
    requires Fits(rules, p.engine) && k < |rules| && p.engine.status[k] == InProgress
    requires forall r :: k < r < |rules| ==> oracle(r) == Passive(rules, r) && p.engine.status[r] != InProgress
    ensures var t := PassFrom(rules, p, k + 1, oracle);
            t.Some? && t.value.engine.events == p.engine.events && t.value.engine.status[k] == InProgress
  {
    var last := PassiveStretch(rules, p, k + 1, |rules|, oracle);
    assert PassFrom(rules, last, |rules|, oracle) == Some(last);
  }

  /** From a stretch that leads up to rule k, which runs. */
  lemma {:induction false} RunsThenRests(rules: seq<Rule>, p: Pass, k: nat, oracle: Oracle)
    requires Fits(rules, p.engine) && k < |rules| && !rules[k].Always() && p.engine.status[k] == NotDone
    requires p.local == ALL_EVENTS && p.engine.data.None? && p.engine.size == 0 && oracle(k) == Answer([], Run)
    requires forall r :: k < r < |rules| ==> oracle(r) == Passive(rules, r) && p.engine.status[r] != InProgress
    ensures var t := PassFrom(rules, p, k, oracle);
            t.Some? && t.value.engine.events == p.engine.events && t.value.engine.status[k] == InProgress
  {
    var started := RunsHere(rules, p, k);
    StaysStarted(rules, started, k, oracle);
  }

  lemma {:induction false} StartsStale(rules: seq<Rule>, q: Pass, j: nat, k: nat)
    requires Fits(rules, q.engine) && q.local == ALL_EVENTS && q.engine.data.None? && q.engine.size == 0
    requires j < k < |rules| && !rules[k].Always() && q.engine.status[k] == NotDone
    requires forall r :: 0 <= r < |rules| ==> q.engine.status[r] != InProgress
    ensures var t := PassFrom(rules, q, j + 1, Outrunning(rules, j, k));
            t.Some? && t.value.engine.events == q.engine.events && t.value.engine.status[k] == InProgress
  {
    var before := PassiveStretch(rules, q, j + 1, k, Outrunning(rules, j, k));
    RunsThenRests(rules, before, k, Outrunning(rules, j, k));
  }

  lemma {:induction false} OutrunIsStale(rules: seq<Rule>, j: nat, k: nat, e: Event) returns (calls: seq<Call>)
    requires Outrun(rules, j, k, e)
    ensures RunCalls(rules, calls).Some? && !ProgressActive(rules, RunCalls(rules, calls).value)
  {
    var staged := StageReached(rules, Blockers(rules, rules[j].message, rules[j].events, e), {});
    var s := RunCalls(rules, staged).value;
    var q := FinishesFirst(rules, s, j, k, e);
    StartsStale(rules, q, j, k);
    assert s.events + {} == s.events;
    var c := SetEvent({}, Outrunning(rules, j, k));
    Extend(rules, staged, c);
    calls := staged + [c];
  }

  /** For any table: in every state of every run each rule in progress has all its
      events active, if and only if no rule that finishes can clear an event of a
      later rule. */
  lemma {:induction false} ProgressActiveIff(rules: seq<Rule>)
    ensures (forall calls :: RunCalls(rules, calls).Some? ==> ProgressActive(rules, RunCalls(rules, calls).value))
            <==> !(exists j: nat, k: nat, e: Event :: Outrun(rules, j, k, e))
  {
    if j: nat, k: nat, e: Event :| Outrun(rules, j, k, e) {
      var calls := OutrunIsStale(rules, j, k, e);
    } else {
      forall calls | RunCalls(rules, calls).Some? ensures ProgressActive(rules, RunCalls(rules, calls).value) {
        RunActive(rules, calls);
      }
    }
  }

  // ----- tables of one-event rules -------------------------------------------

  ghost predicate ShareEvent(rules: seq<Rule>, j: nat, k: nat) {
    j < k < |rules| && rules[j].events == rules[k].events
  }

  lemma {:induction false} SharedIsOutrun(rules: seq<Rule>, j: nat, k: nat) returns (e: Event)
    requires SingleEvents(rules) && ShareEvent(rules, j, k)
    ensures Outrun(rules, j, k, e)
  {
    e :| rules[j].events == {e};
    assert e in rules[j].events * rules[j].events;
    assert Inside(rules[j], rules[j].events, e);
    var blockers := Blockers(rules, rules[j].message, rules[j].events, e);
    forall c, x | c in blockers && x in rules[c].events ensures OpenElsewhere(rules, blockers, x) {
      assert rules[c].events == {e};
      assert j !in blockers && x in rules[j].events;
    }
  }

  lemma {:induction false} OutrunIsShared(rules: seq<Rule>, j: nat, k: nat, e: Event)
    requires SingleEvents(rules) && Outrun(rules, j, k, e)
    ensures ShareEvent(rules, j, k)
  {
    var i :| 0 <= i < |rules| && Inside(rules[i], rules[j].events, e);
    assert rules[i].events == {e} && rules[k].events == {e};
    var x :| x in rules[i].events * rules[j].events;
    assert x == e && rules[j].events == {e};
  }

  /** For tables of one-event rules: if and only if no two rules list one event. */
  lemma {:induction false} SingleEventsActiveIff(rules: seq<Rule>)
    requires SingleEvents(rules)
    ensures (forall calls :: RunCalls(rules, calls).Some? ==> ProgressActive(rules, RunCalls(rules, calls).value))
            <==> !(exists j: nat, k: nat :: ShareEvent(rules, j, k))
  {
    ProgressActiveIff(rules);
    if j: nat, k: nat :| ShareEvent(rules, j, k) {
      var e := SharedIsOutrun(rules, j, k);
    } else if j: nat, k: nat, e: Event :| Outrun(rules, j, k, e) {
      OutrunIsShared(rules, j, k, e);
    }
  }

  // ----- examples ------------------------------------------------------------

  /** The smallest table that breaks it: rule 0 finishes and, sharing its message
      with rule 1, completes it too, so both events are cleared and both rules
      reset; the pass then starts rule 1 on its stale copy of the events. */
  lemma {:induction false} StartedRuleMayHaveNoActiveEvent()
    ensures var rules := [Rule({0}, 0, 7), Rule({0, 1}, 0, 7)];
            var oracle := (i: nat) => Answer([], if i == 0 then Finish else Run);
            var t := Step(rules, Fresh(rules), SetEvent({0, 1}, oracle));
            t.Some? && t.value.events == {} && t.value.status == [NotDone, InProgress]
  {
    var rules := [Rule({0}, 0, 7), Rule({0, 1}, 0, 7)];
    var oracle: Oracle := (i: nat) => Answer([], if i == 0 then Finish else Run);
    var e0: Event, e1: Event := 0, 1;
    var s := Fresh(rules).(events := {e0, e1});
    var p := Pass(s, s.events, []);
    assert e0 in rules[0].events * {e0} && e0 in rules[1].events * {e0};
    ClearedExactly(rules, s.status, 7, NotDone, {e0}, e0);
    ClearedExactly(rules, s.status, 7, NotDone, {e0}, e1);
    assert Hits(rules[0], s.status[0], 7, NotDone, {e0}) && Hits(rules[1], s.status[1], 7, NotDone, {e0});
    var cleared := Cleared(rules, s.status, 7, NotDone, {e0});
    assert e0 in rules[0].events * cleared && e0 in rules[1].events * cleared;
    var q := Visit(rules, p, 0, oracle(0)).value;
    assert q.engine.events == {} && q.engine.status == [NotDone, NotDone];
    var q' := Visit(rules, q, 1, oracle(1)).value;
    assert q'.engine.status == [NotDone, InProgress];
    assert PassFrom(rules, q', 2, oracle) == Some(q');
    assert PassFrom(rules, q, 1, oracle) == Some(q');
    assert PassFrom(rules, p, 0, oracle) == Some(q');
    assert Fresh(rules).events + {e0, e1} == {e0, e1};
  }

  /** The smallest table and mask where a completion resets a rule in progress:
      rule 1 starts on event 1, rule 0 when event 0 is raised too, and completing
      message 0 for event 0 alone clears event 1 and resets rule 1. */
  lemma {:induction false} CompletionWithEventCanResetProgress() returns (calls: seq<Call>)
    ensures var rules := [Rule({0, 1}, 0, 0), Rule({1}, 0, 1)];
            && RunCalls(rules, calls).Some?
            && RunCalls(rules, calls).value.status == [InProgress, InProgress]
            && !Keeps(rules, RunCalls(rules, calls).value, 0, {0}, 1)
  {
    var rules := [Rule({0, 1}, 0, 0), Rule({1}, 0, 1)];
    var run: Oracle := (i: nat) => Answer([], Run);
    var e0: Event, e1: Event := 0, 1;
    var s := StartsBoth(rules, run);
    calls := [SetEvent({1}, run), SetEvent({0}, run)];
    Extend(rules, [], calls[0]);
    assert [] + [calls[0]] == [calls[0]] && [calls[0]] + [calls[1]] == calls;
    Extend(rules, [calls[0]], calls[1]);
    assert RunCalls(rules, []) == Some(Fresh(rules));
    assert e0 in rules[0].events * {e0} && rules[1].events * {e0} == {};
    assert Hits(rules[0], s.status[0], 0, InProgress, {e0});
    ClearedExactly(rules, s.status, 0, InProgress, {e0}, e1);
    assert e1 in rules[1].events * Cleared(rules, s.status, 0, InProgress, {e0});
    CompletedIsUpdate(rules, s, 0, {e0});
  }

  lemma {:induction false} StartsBoth(rules: seq<Rule>, run: Oracle) returns (t: Engine)
    requires rules == [Rule({0, 1}, 0, 0), Rule({1}, 0, 1)] && forall i :: run(i) == Answer([], Run)
    ensures var s := Step(rules, Fresh(rules), SetEvent({1}, run));
            s.Some? && Step(rules, s.value, SetEvent({0}, run)) == Some(t)
    ensures t.status == [InProgress, InProgress] && Fits(rules, t)
  {
    var e0: Event, e1: Event := 0, 1;
    var f := Fresh(rules).(events := {e1});
    assert Fresh(rules).events + {e1} == {e1};
    var p1 := Pass(f, f.events, []);
    assert e0 in rules[0].events && e0 !in p1.local;
    assert Visit(rules, p1, 0, run(0)) == Some(p1);
    var p2 := Visit(rules, p1, 1, run(1)).value;
    assert p2.engine.status == [NotDone, InProgress];
    assert PassFrom(rules, p2, 2, run) == Some(p2);
    assert PassFrom(rules, p1, 1, run) == Some(p2);
    assert Check(rules, f, run) == Some(p2.engine);
    var g := p2.engine.(events := p2.engine.events + {e0});
    var q1 := Pass(g, g.events, []);
    var q2 := Visit(rules, q1, 0, run(0)).value;
    assert q2.engine.status == [InProgress, InProgress];
    assert e1 in rules[1].events && e1 !in q2.local;
    assert Visit(rules, q2, 1, run(1)) == Some(q2);
    assert PassFrom(rules, q2, 2, run) == Some(q2);
    assert PassFrom(rules, q2, 1, run) == Some(q2);
    t := q2.engine;
  }
}
