/**
 * Runs of the rules engine built to order: for any table, runs that bring chosen
 * rules to Complete and to InProgress while all others are deferred.
 */
module RulesEngineReach {
  import opened Common
  import opened RulesEngine

  /** Always-evaluate rules answer Ignore, all others Defer. */
  function Passive(rules: seq<Rule>, i: nat): Answer {
    Answer([], if i < |rules| && rules[i].Always() then Ignore else Defer)
  }

  function Idling(rules: seq<Rule>): Oracle { (i: nat) => Passive(rules, i) }

  /** Rule r answers Run, the others are passive. */
  function Starting(rules: seq<Rule>, r: nat): Oracle {
    (i: nat) => if i == r then Answer([], Run) else Passive(rules, i)
  }

  // ----- passive stretches of a pass -----------------------------------------

  /** q is p after passive answers of rules i up to m. */
  ghost predicate Idled(rules: seq<Rule>, p: Pass, q: Pass, i: nat, m: nat) {
    && Fits(rules, p.engine) && Fits(rules, q.engine) && m <= |rules|
    && q.local == p.local && q.started == p.started
    && q.engine == p.engine.(status := q.engine.status)
    && forall r :: 0 <= r < |rules| ==>
         q.engine.status[r] ==
         if i <= r < m && !rules[r].Always() && rules[r].events <= p.local && p.engine.status[r] != Complete
         then Deferred else p.engine.status[r]
  }

  lemma {:induction false} PassiveVisit(rules: seq<Rule>, p: Pass, i: nat)
    requires Fits(rules, p.engine) && i < |rules| && p.engine.status[i] != InProgress
    ensures var q := Visit(rules, p, i, Passive(rules, i));
            q.Some? && Idled(rules, p, q.value, i, i + 1)
  {
  }

  lemma {:induction false} PassiveStretch(rules: seq<Rule>, p: Pass, i: nat, m: nat, oracle: Oracle) returns (q: Pass)
    requires Fits(rules, p.engine) && i <= m <= |rules|
    requires forall r :: i <= r < m ==> oracle(r) == Passive(rules, r) && p.engine.status[r] != InProgress
    ensures Idled(rules, p, q, i, m) && PassFrom(rules, p, i, oracle) == PassFrom(rules, q, m, oracle)
    decreases m - i
  {
    if i == m {
      q := p;
    } else {
      PassiveVisit(rules, p, i);
      q := PassiveStretch(rules, Visit(rules, p, i, Passive(rules, i)).value, i + 1, m, oracle);
    }
  }

  // ----- staged states -------------------------------------------------------

  /** All events are active, no buffer is pending, the rules in `done` are complete,
      those in `busy` in progress, and every other rule that can be is deferred. */
  ghost predicate Staged(rules: seq<Rule>, s: Engine, done: set<nat>, busy: set<nat>) {
    && Fits(rules, s) && s.events == ALL_EVENTS && s.data.None? && s.size == 0
    && forall r :: 0 <= r < |rules| ==>
         s.status[r] == if rules[r].Always() then NotDone
                        else if r in done then Complete
                        else if r in busy then InProgress
                        else Deferred
  }

  lemma {:induction false} EventsAll(r: Rule)
    ensures r.events <= ALL_EVENTS
  {
  }

  lemma {:induction false} Extend(rules: seq<Rule>, calls: seq<Call>, c: Call)
    requires RunCalls(rules, calls).Some?
    ensures RunCalls(rules, calls + [c]) == Step(rules, RunCalls(rules, calls).value, c)
  {
    assert (calls + [c])[..|calls + [c]| - 1] == calls;
  }

  /** Raise every event and let every rule defer. */
  lemma {:induction false} StageNothing(rules: seq<Rule>) returns (calls: seq<Call>)
    ensures RunCalls(rules, calls).Some? && Staged(rules, RunCalls(rules, calls).value, {}, {})
  {
    var c := SetEvent(ALL_EVENTS, Idling(rules));
    Extend(rules, [], c);
    calls := [] + [c];
    var s := Fresh(rules).(events := ALL_EVENTS);
    assert Fresh(rules).events + ALL_EVENTS == ALL_EVENTS;
    var q := PassiveStretch(rules, Pass(s, s.events, []), 0, |rules|, Idling(rules));
    forall r | 0 <= r < |rules| ensures rules[r].events <= ALL_EVENTS { EventsAll(rules[r]); }
  }

  /** In a staged state with nothing in progress a passive check changes nothing. */
  lemma {:induction false} IdleCheck(rules: seq<Rule>, s: Engine, done: set<nat>)
    requires Staged(rules, s, done, {})
    ensures Check(rules, s, Idling(rules)) == Some(s)
  {
    var q := PassiveStretch(rules, Pass(s, s.events, []), 0, |rules|, Idling(rules));
    forall r | 0 <= r < |rules| ensures rules[r].events <= ALL_EVENTS { EventsAll(rules[r]); }
    assert q.engine.status == s.status;
  }

  /** A stretch over rules that are in progress, complete, deferred or always
      evaluated leaves the engine as it is. */
  lemma {:induction false} SettledTail(rules: seq<Rule>, p: Pass, i: nat, oracle: Oracle)
    requires Fits(rules, p.engine) && i <= |rules|
    requires forall r :: i <= r < |rules| ==> oracle(r) == Passive(rules, r)
    requires forall r :: i <= r < |rules| && !rules[r].Always() ==>
               p.engine.status[r] in {Deferred, InProgress, Complete}
    requires forall r :: i <= r < |rules| && rules[r].Always() ==> p.engine.status[r] == NotDone
    ensures PassFrom(rules, p, i, oracle).Some? && PassFrom(rules, p, i, oracle).value.engine == p.engine
    decreases |rules| - i
  {
    if i < |rules| {
      var q := Visit(rules, p, i, oracle(i)).value;
      assert q.engine == p.engine by {
        if p.engine.status[i] == Deferred { assert p.engine.status[i := Deferred] == p.engine.status; }
      }
      SettledTail(rules, q, i + 1, oracle);
    }
  }

  /** With only later rules in progress, rule r can be started too. */
  lemma {:induction false} StartsNext(rules: seq<Rule>, s: Engine, done: set<nat>, busy: set<nat>, r: nat)
    requires Staged(rules, s, done, busy) && r < |rules| && !rules[r].Always()
    requires r !in done && forall b :: b in busy ==> b > r
    ensures var t := Step(rules, s, SetEvent({}, Starting(rules, r)));
            t.Some? && Staged(rules, t.value, done, busy + {r})
  {
    var oracle := Starting(rules, r);
    assert s.events + {} == s.events;
    var p := Pass(s, s.events, []);
    forall i | 0 <= i < |rules| ensures rules[i].events <= ALL_EVENTS { EventsAll(rules[i]); }
    var q := PassiveStretch(rules, p, 0, r, oracle);
    assert q.engine.status == s.status;
    assert q.engine == s;
    var started := Visit(rules, q, r, oracle(r)).value;
    assert started.engine.status == s.status[r := InProgress];
    SettledTail(rules, started, r + 1, oracle);
  }

  /** The only rule in progress is the only one its message completes. */
  lemma {:induction false} MarksOnly(rules: seq<Rule>, s: Engine, done: set<nat>, c: nat)
    requires Staged(rules, s, done, {c}) && c < |rules| && !rules[c].Always() && c !in done && rules[c].events != {}
    ensures forall i :: 0 <= i < |rules| ==>
              (Hits(rules[i], s.status[i], rules[c].message, InProgress, rules[c].events) <==> i == c)
    ensures Mark(rules, s.status, rules[c].message, InProgress, rules[c].events) == s.status[c := Complete]
  {
    assert rules[c].events * rules[c].events == rules[c].events;
  }

  lemma {:induction false} ClearsNothing(rules: seq<Rule>, s: Engine, done: set<nat>, c: nat, x: Event)
    requires Staged(rules, s, done, {c}) && c < |rules| && !rules[c].Always() && c !in done && rules[c].events != {}
    requires x in rules[c].events ==> OpenElsewhere(rules, done + {c}, x)
    ensures x !in Cleared(rules, s.status, rules[c].message, InProgress, rules[c].events)
  {
    MarksOnly(rules, s, done, c);
    if x in rules[c].events {
      var r :| 0 <= r < |rules| && x in rules[r].events && r !in done + {c};
      assert x in rules[r].events * rules[c].events;
      assert s.status[c := Complete][r] != Complete;
    }
  }

  lemma {:induction false} ResetsNothing(rules: seq<Rule>, s: Engine)
    requires Fits(rules, s)
    ensures Reset(rules, s, {}) == s
  {
    assert s.events - {} == s.events;
    assert ResetStatus(rules, s.status, {}) == s.status;
  }

  lemma {:induction false} CompletedIsUpdate(rules: seq<Rule>, s: Engine, message: nat, event: Mask)
    requires Fits(rules, s) && Update(rules, s, message, InProgress, event).Some?
    ensures var t := Completed(rules, s, message, event);
            t.Some? && t.value == Update(rules, s, message, InProgress, event).value.(nops := t.value.nops)
  {
  }

  lemma {:induction false} UpdateCompletes(rules: seq<Rule>, s: Engine, done: set<nat>, c: nat)
    requires Staged(rules, s, done, {c}) && c < |rules| && !rules[c].Always() && c !in done && rules[c].events != {}
    requires forall x :: x in rules[c].events ==> OpenElsewhere(rules, done + {c}, x)
    ensures Update(rules, s, rules[c].message, InProgress, rules[c].events)
         == Some(s.(status := s.status[c := Complete]))
  {
    MarksOnly(rules, s, done, c);
    var cleared := Cleared(rules, s.status, rules[c].message, InProgress, rules[c].events);
    forall x: Event ensures x !in cleared { ClearsNothing(rules, s, done, c, x); }
    assert cleared == {};
    ResetsNothing(rules, s.(status := s.status[c := Complete]));
  }

  lemma {:induction false} StagedAfter(rules: seq<Rule>, s: Engine, t: Engine, done: set<nat>, c: nat)
    requires Staged(rules, s, done, {c}) && c < |rules| && !rules[c].Always()
    requires t == s.(status := s.status[c := Complete], nops := t.nops)
    ensures Staged(rules, t, done + {c}, {})
  {
  }

  lemma {:induction false} CompletesStaged(rules: seq<Rule>, s: Engine, done: set<nat>, c: nat) returns (t: Engine)
    requires Staged(rules, s, done, {c}) && c < |rules| && !rules[c].Always() && c !in done && rules[c].events != {}
    requires Update(rules, s, rules[c].message, InProgress, rules[c].events)
          == Some(s.(status := s.status[c := Complete]))
    ensures Completed(rules, s, rules[c].message, rules[c].events) == Some(t) && Staged(rules, t, done + {c}, {})
  {
    CompletedIsUpdate(rules, s, rules[c].message, rules[c].events);
    t := Completed(rules, s, rules[c].message, rules[c].events).value;
    StagedAfter(rules, s, t, done, c);
  }

  lemma {:induction false} CompletionStep(
      rules: seq<Rule>, s: Engine, message: nat, event: Mask, oracle: Oracle, t: Engine)
    requires Fits(rules, s) && Completed(rules, s, message, event) == Some(t) && Check(rules, t, oracle) == Some(t)
    ensures Step(rules, s, SetRuleWithEventComplete(message, event, oracle)) == Some(t)
  {
  }

  lemma {:induction false} CompletedThenIdle(rules: seq<Rule>, s: Engine, done: set<nat>, c: nat) returns (t: Engine)
    requires Staged(rules, s, done, {c}) && c < |rules| && !rules[c].Always() && c !in done && rules[c].events != {}
    requires Update(rules, s, rules[c].message, InProgress, rules[c].events)
          == Some(s.(status := s.status[c := Complete]))
    ensures Step(rules, s, SetRuleWithEventComplete(rules[c].message, rules[c].events, Idling(rules))) == Some(t)
    ensures Staged(rules, t, done + {c}, {})
  {
    t := CompletesStaged(rules, s, done, c);
    IdleCheck(rules, t, done + {c});
    CompletionStep(rules, s, rules[c].message, rules[c].events, Idling(rules), t);
  }

  /** A rule whose events are all listed by rules that stay open can be completed
      and stays complete. */
  lemma {:induction false} CompletesNext(rules: seq<Rule>, s: Engine, done: set<nat>, c: nat) returns (t: Engine)
    requires Staged(rules, s, done, {c}) && c < |rules| && !rules[c].Always() && c !in done && rules[c].events != {}
    requires forall x :: x in rules[c].events ==> OpenElsewhere(rules, done + {c}, x)
    ensures Step(rules, s, SetRuleWithEventComplete(rules[c].message, rules[c].events, Idling(rules))) == Some(t)
    ensures Staged(rules, t, done + {c}, {})
  {
    UpdateCompletes(rules, s, done, c);
    t := CompletedThenIdle(rules, s, done, c);
  }

  /** A rule outside `closed` lists x. */
  ghost predicate OpenElsewhere(rules: seq<Rule>, closed: set<nat>, x: Event) {
    exists r :: 0 <= r < |rules| && x in rules[r].events && r !in closed
  }

  /** A set of rules that can be complete together: none is always evaluated and
      each of their events is also listed by a rule outside the set. */
  ghost predicate Completable(rules: seq<Rule>, done: set<nat>) {
    forall c :: c in done ==>
      && c < |rules| && !rules[c].Always() && rules[c].events != {}
      && forall x :: x in rules[c].events ==> OpenElsewhere(rules, done, x)
  }

  ghost function Below(done: set<nat>, n: nat): set<nat> { set c | c in done && c < n }

  ghost function From(busy: set<nat>, n: nat): set<nat> { set b | b in busy && b >= n }

  lemma {:induction false} StageDone(rules: seq<Rule>, done: set<nat>, n: nat) returns (calls: seq<Call>)
    requires Completable(rules, done) && n <= |rules|
    ensures RunCalls(rules, calls).Some? && Staged(rules, RunCalls(rules, calls).value, Below(done, n), {})
  {
    if n == 0 {
      calls := StageNothing(rules);
      assert Below(done, 0) == {};
    } else {
      calls := StageDone(rules, done, n - 1);
      var c := n - 1;
      if c in done {
        calls := StageOneDone(rules, calls, done, c);
        assert Below(done, n) == Below(done, c) + {c};
      } else {
        assert Below(done, n) == Below(done, c);
      }
    }
  }

  lemma {:induction false} StageOneDone(rules: seq<Rule>, before: seq<Call>, done: set<nat>, c: nat)
    returns (calls: seq<Call>)
    requires Completable(rules, done) && c in done
    requires RunCalls(rules, before).Some? && Staged(rules, RunCalls(rules, before).value, Below(done, c), {})
    ensures RunCalls(rules, calls).Some? && Staged(rules, RunCalls(rules, calls).value, Below(done, c) + {c}, {})
  {
    var s := RunCalls(rules, before).value;
    var start := SetEvent({}, Starting(rules, c));
    var complete := SetRuleWithEventComplete(rules[c].message, rules[c].events, Idling(rules));
    StartsNext(rules, s, Below(done, c), {}, c);
    assert {} + {c} == {c};
    Extend(rules, before, start);
    forall x | x in rules[c].events ensures OpenElsewhere(rules, Below(done, c) + {c}, x) {
      assert OpenElsewhere(rules, done, x);
      var r :| 0 <= r < |rules| && x in rules[r].events && r !in done;
      assert r !in Below(done, c) + {c};
    }
    var t := CompletesNext(rules, RunCalls(rules, before + [start]).value, Below(done, c), c);
    Extend(rules, before + [start], complete);
    calls := before + [start] + [complete];
  }

  lemma {:induction false} StageBusy(rules: seq<Rule>, before: seq<Call>, done: set<nat>, busy: set<nat>, n: nat)
    returns (calls: seq<Call>)
    requires RunCalls(rules, before).Some? && Staged(rules, RunCalls(rules, before).value, done, {})
    requires n <= |rules| && forall b :: b in busy ==> b < |rules| && b !in done && !rules[b].Always()
    ensures RunCalls(rules, calls).Some? && Staged(rules, RunCalls(rules, calls).value, done, From(busy, n))
    decreases |rules| - n
  {
    if n == |rules| {
      calls := before;
      assert From(busy, n) == {};
    } else {
      calls := StageBusy(rules, before, done, busy, n + 1);
      if n in busy {
        StartsNext(rules, RunCalls(rules, calls).value, done, From(busy, n + 1), n);
        Extend(rules, calls, SetEvent({}, Starting(rules, n)));
        calls := calls + [SetEvent({}, Starting(rules, n))];
        assert From(busy, n) == From(busy, n + 1) + {n};
      } else {
        assert From(busy, n) == From(busy, n + 1);
      }
    }
  }

  /** For any table: a run that ends with the rules of a completable set complete,
      those of another set in progress, and the rest deferred, all events active. */
  lemma {:induction false} StageReached(rules: seq<Rule>, done: set<nat>, busy: set<nat>) returns (calls: seq<Call>)
    requires Completable(rules, done)
    requires forall b :: b in busy ==> b < |rules| && b !in done && !rules[b].Always()
    ensures RunCalls(rules, calls).Some? && Staged(rules, RunCalls(rules, calls).value, done, busy)
  {
    var before := StageDone(rules, done, |rules|);
    assert Below(done, |rules|) == done;
    calls := StageBusy(rules, before, done, busy, 0);
    assert From(busy, 0) == busy;
  }
}
