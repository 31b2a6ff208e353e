/**
 * The rule set object: the status array and event mask are changed in place by
 * index loops, and each operation is proved against the functions of
 * RulesEngine. A method's `ok` is false when the firmware would have panicked.
 */
module RuleSets {
  import opened Common
  import opened RulesEngine
  import Answers = RulesEngineAnswers

  class RuleSet {
    const rules: seq<Rule>
    var events: Mask
    var rulesState: array<Status>
    var messageData: Option<Bytes>
    var messageSize: nat
    /** Copies taken in and messages posted to the event task. */
    var log: seq<Log>
    /** Notifications sent to the registered "nothing in progress" tasks. */
    var nops: nat

    ghost predicate Valid()
      reads this, rulesState
    {
      rulesState.Length == |rules|
    }

    ghost function Value(): (s: Engine)
      requires Valid()
      reads this, rulesState
      ensures Fits(rules, s)
    {
      Engine(events, rulesState[..], messageData, messageSize, log, nops)
    }

    constructor (rules: seq<Rule>)
      ensures Valid() && this.rules == rules && fresh(rulesState)
      ensures Value() == Fresh(rules)
    {
      this.rules := rules;
      events := {};
      rulesState := new Status[|rules|](_ => NotDone);
      messageData, messageSize, log, nops := None, 0, [], 0;
      new;
      assert rulesState[..] == Fresh(rules).status;
    }

    method SetRuleStatus(i: nat, newStatus: Status) returns (ok: bool)
      requires Valid() && i < |rules|
      modifies rulesState
      ensures ok == !rules[i].Always()
      ensures rulesState[..] == if ok then old(rulesState[..])[i := newStatus] else old(rulesState[..])
    {
      ok := !rules[i].Always();
      if ok {
        rulesState[i] := newStatus;
      }
    }

    /** First loop of a status update: complete the rules touched and gather
        the events they list. */
    method CompleteMatching(message: nat, status: Status, event: Mask) returns (ok: bool, did: bool, mask: Mask)
      requires Valid()
      modifies rulesState
      ensures ok <==> !HitsAlways(rules, old(rulesState[..]), message, status, event)
      ensures ok ==> rulesState[..] == Mark(rules, old(rulesState[..]), message, status, event)
      ensures ok ==> did == HitsAny(rules, old(rulesState[..]), message, status, event)
      ensures ok ==> mask == HitEvents(rules, old(rulesState[..]), message, status, event)
    {
      ghost var was := rulesState[..];
      ok, did, mask := true, false, {};
      var i := 0;
      while i < |rules|
        invariant 0 <= i <= |rules|
        invariant forall k :: i <= k < |rules| ==> rulesState[k] == was[k]
        invariant forall k :: 0 <= k < i ==> rulesState[k] == Mark(rules, was, message, status, event)[k]
        invariant forall k :: 0 <= k < i && Hits(rules[k], was[k], message, status, event) ==> !rules[k].Always()
        invariant did <==> exists k :: 0 <= k < i && Hits(rules[k], was[k], message, status, event)
        invariant forall e: Event :: e in mask <==> ListedByHit(was, message, status, event, i, e)
      {
        if rules[i].message == message && rulesState[i] == status && rules[i].events * event != {} {
          ok := SetRuleStatus(i, Complete);
          if !ok {
            assert Hits(rules[i], was[i], message, status, event);
            return;
          }
          did := true;
          mask := mask + rules[i].events;
        }
        i := i + 1;
      }
      assert rulesState[..] == Mark(rules, was, message, status, event);
      assert mask == HitEvents(rules, was, message, status, event);
    }

    /** Second loop: drop the events of overlapping rules that are not complete. */
    method DropOpenEvents(hit: Mask, event: Mask) returns (mask: Mask)
      requires Valid()
      ensures mask == hit - OpenEvents(rules, rulesState[..], event)
    {
      mask := hit;
      var i := 0;
      while i < |rules|
        invariant 0 <= i <= |rules|
        invariant forall e: Event :: e in mask <==> e in hit && !ListedOpen(rulesState[..], event, i, e)
      {
        if rules[i].events * event != {} && rulesState[i] != Complete {
          mask := mask - rules[i].events;
        }
        i := i + 1;
      }
    }

    method UpdateRuleStatus(message: nat, status: Status, event: Mask) returns (ok: bool, did: bool)
      requires Valid()
      modifies this`events, rulesState
      ensures ok <==> Update(rules, old(Value()), message, status, event).Some?
      ensures ok ==> Value() == Update(rules, old(Value()), message, status, event).value
      ensures ok ==> did == HitsAny(rules, old(rulesState[..]), message, status, event)
    {
      var mask;
      ok, did, mask := CompleteMatching(message, status, event);
      if !ok { return; }
      mask := DropOpenEvents(mask, event);
      if mask != {} {
        ResetEvent(mask);
      } else {
        assert ResetStatus(rules, rulesState[..], mask) == rulesState[..];
        assert events - mask == events;
      }
    }

    /** A rule below n that the update touches lists e. */
    ghost predicate ListedByHit(status: seq<Status>, message: nat, from: Status, event: Mask, n: nat, e: Event)
      requires |status| == |rules| && n <= |rules|
    {
      exists k :: 0 <= k < n && Hits(rules[k], status[k], message, from, event) && e in rules[k].events
    }

    /** A rule below n that overlaps `event` and is not complete lists e. */
    ghost predicate ListedOpen(status: seq<Status>, event: Mask, n: nat, e: Event)
      requires |status| == |rules| && n <= |rules|
    {
      exists k :: 0 <= k < n && rules[k].events * event != {} && status[k] != Complete && e in rules[k].events
    }

    method ResetEvent(event: Mask)
      requires Valid()
      modifies this`events, rulesState
      ensures Valid() && Value() == Reset(rules, old(Value()), event)
    {
      ghost var was := rulesState[..];
      events := events - event;
      var i := 0;
      while i < |rules|
        invariant 0 <= i <= |rules| && events == old(events) - event
        invariant forall k :: i <= k < |rules| ==> rulesState[k] == was[k]
        invariant forall k :: 0 <= k < i ==> rulesState[k] == ResetStatus(rules, was, event)[k]
      {
        if rules[i].events * event != {} && !rules[i].Always() {
          var _ := SetRuleStatus(i, NotDone);
        }
        i := i + 1;
      }
      assert rulesState[..] == ResetStatus(rules, was, event);
    }

    method CopyRunParams(data: Bytes) returns (ok: bool)
      requires Valid()
      modifies this`messageData, this`messageSize, this`log
      ensures ok <==> Copy(old(Value()), data).Some?
      ensures ok ==> Value() == Copy(old(Value()), data).value
    {
      ok := messageData.None?;
      if ok {
        messageData, messageSize := Some(data), |data|;
        log := log + [Copied(data)];
      }
    }

    /** Call one rule function: it may copy parameters in before it answers. */
    method CallRule(answer: Answer) returns (ok: bool)
      requires Valid()
      modifies this`messageData, this`messageSize, this`log
      ensures ok <==> CopyAll(old(Value()), answer.copies).Some?
      ensures ok ==> Value() == CopyAll(old(Value()), answer.copies).value
    {
      ok := true;
      var k := 0;
      while k < |answer.copies|
        invariant 0 <= k <= |answer.copies|
        invariant CopyAll(old(Value()), answer.copies) == CopyAll(Value(), answer.copies[k..])
      {
        ok := CopyRunParams(answer.copies[k]);
        if !ok { return; }
        assert answer.copies[k..][1..] == answer.copies[k + 1..];
        k := k + 1;
      }
    }

    /** Post the rule's message, with the pending buffer as its body if asked. */
    method PostMessage(message: nat, withParam: bool) returns (ok: bool)
      requires Valid()
      modifies this`messageData, this`messageSize, this`log
      ensures ok <==> Post(old(Value()), message, withParam).Some?
      ensures ok ==> Value() == Post(old(Value()), message, withParam).value
    {
      if !withParam {
        ok := messageSize == 0 && messageData.None?;
        if ok { log := log + [Posted(message, None)]; }
      } else {
        ok := messageSize != 0 && messageData.Some?;
        if ok {
          log := log + [Posted(message, messageData)];
          messageData, messageSize := None, 0;
        }
      }
    }

    /** Carry out the action a rule returned, in the pass whose own event mask is `local`. */
    method HandleAction(i: nat, action: Action, local: Mask, ghost started: seq<nat>)
      returns (ok: bool, rest: Mask, ghost started': seq<nat>)
      requires Valid() && i < |rules|
      modifies this`events, this`messageData, this`messageSize, this`log, rulesState
      ensures ok <==> Obey(rules, Pass(old(Value()), local, started), i, action).Some?
      ensures ok ==> Pass(Value(), rest, started') == Obey(rules, Pass(old(Value()), local, started), i, action).value
      ensures ok && action == Run ==> log == old(log) + [Posted(rules[i].message, None)]
      ensures ok && action == RunWithParam ==> log == old(log) + [Posted(rules[i].message, old(messageData))]
    {
      ok, rest, started' := true, local, started;
      if action == Run || action == RunWithParam {
        if !rules[i].Always() {
          var _ := SetRuleStatus(i, InProgress);
          assert Value() == old(Value()).(status := old(Value()).status[i := InProgress]);
        }
        ok := PostMessage(rules[i].message, action == RunWithParam);
        if !rules[i].Always() {
          rest, started' := local - rules[i].events, started + [i];
        }
      } else if action == Finish || action == Ignore {
        if !rules[i].Always() {
          var did;
          ok, did := UpdateRuleStatus(rules[i].message, rulesState[i], rules[i].events);
        }
      } else {
        ok := SetRuleStatus(i, Deferred);
      }
    }

    method RunRules(oracle: Oracle) returns (ok: bool)
      requires Valid()
      modifies this`events, this`messageData, this`messageSize, this`log, rulesState
      ensures ok <==> Check(rules, old(Value()), oracle).Some?
      ensures ok ==> Value() == Check(rules, old(Value()), oracle).value
      ensures ok ==> Answers.Messages(log) == Answers.Messages(old(log)) + Answers.MessagesOf(rules,
                       Answers.Runners(rules, Pass(old(Value()), old(events), []), 0, oracle))
    {
      ok := true;
      var local := events;
      ghost var started := [];
      var i := 0;
      while i < |rules|
        invariant 0 <= i <= |rules| && Valid()
        invariant RulesEngine.RunRules(rules, old(Value()), oracle)
               == PassFrom(rules, Pass(Value(), local, started), i, oracle)
      {
        ghost var p := Pass(Value(), local, started);
        if rules[i].events <= local || rules[i].Always() {
          if rulesState[i] == InProgress {
            local := local - rules[i].events;
          } else if rulesState[i] != Complete {
            ok := CallRule(oracle(i));
            if !ok { return; }
            ghost var started';
            ok, local, started' := HandleAction(i, oracle(i).action, local, started);
            if !ok { return; }
            started := started';
          }
        }
        assert Visit(rules, p, i, oracle(i)) == Some(Pass(Value(), local, started));
        i := i + 1;
      }
      Answers.PassPostsOwnMessages(rules, old(Value()), oracle);
    }

    method SetEvent(mask: Mask, oracle: Oracle) returns (ok: bool)
      requires Valid()
      modifies this`events, this`messageData, this`messageSize, this`log, rulesState
      ensures ok <==> Step(rules, old(Value()), Call.SetEvent(mask, oracle)).Some?
      ensures ok ==> Value() == Step(rules, old(Value()), Call.SetEvent(mask, oracle)).value
    {
      events := events + mask;
      ok := RunRules(oracle);
    }

    method SetRuleWithEventComplete(message: nat, event: Mask, oracle: Oracle) returns (ok: bool)
      requires Valid()
      modifies this, rulesState
      ensures rulesState == old(rulesState)
      ensures ok <==> Step(rules, old(Value()), Call.SetRuleWithEventComplete(message, event, oracle)).Some?
      ensures ok ==> Value() == Step(rules, old(Value()), Call.SetRuleWithEventComplete(message, event, oracle)).value
    {
      var did;
      ok, did := UpdateRuleStatus(message, InProgress, event);
      if !ok { return; }
      var busy := InProgressRules();
      if did && !busy {
        nops := nops + 1;
      }
      assert Completed(rules, old(Value()), message, event) == Some(Value());
      ok := RunRules(oracle);
    }

    method SetRuleComplete(message: nat, oracle: Oracle) returns (ok: bool)
      requires Valid()
      modifies this, rulesState
      ensures rulesState == old(rulesState)
      ensures ok <==> Step(rules, old(Value()), Call.SetRuleComplete(message, oracle)).Some?
      ensures ok ==> Value() == Step(rules, old(Value()), Call.SetRuleComplete(message, oracle)).value
    {
      ok := SetRuleWithEventComplete(message, ALL_EVENTS, oracle);
    }

    /** Whether any progress-matters rule is in progress. */
    method InProgressRules() returns (rc: bool)
      requires Valid()
      ensures rc == ProgressPending(rules, rulesState[..])
    {
      rc := false;
      var i := 0;
      while i < |rules|
        invariant 0 <= i <= |rules|
        invariant rc <==> exists k ::
                    0 <= k < i && rules[k].flags == FLAG_PROGRESS_MATTERS && rulesState[k] == InProgress
      {
        if rules[i].flags == FLAG_PROGRESS_MATTERS && rulesState[i] == InProgress {
          rc := true;
        }
        i := i + 1;
      }
    }
  }
}
