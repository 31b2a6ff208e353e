/**
 * What the rules engine tells the outside: which messages and buffers a pass puts
 * on record, when a call panics, and when clients hear that nothing is in progress.
 */
module RulesEngineAnswers {
  import opened Common
  import opened RulesEngine

  // ----- what a pass puts on record ------------------------------------------

  /** A pass that has come to rule i calls its rule function: the rule's events are
      all still considered, or it is always evaluated, and it is neither complete nor
      in progress. */
  ghost predicate Calls(rules: seq<Rule>, p: Pass, i: nat)
    requires Fits(rules, p.engine) && i < |rules|
  {
    && ((forall e :: e in rules[i].events ==> e in p.local) || rules[i].flags == 0x01)
    && p.engine.status[i] != Complete && p.engine.status[i] != InProgress
  }

  predicate Starts(a: Answer) { a.action == Run || a.action == RunWithParam }

  /** The log with message bodies reduced to whether there is one. */
  ghost function Outline(log: seq<Log>): seq<Log> {
    if log == [] then []
    else
      var x := log[|log| - 1];
      Outline(log[..|log| - 1]) + [if x.Posted? && x.body.Some? then Posted(x.message, Some([])) else x]
  }

  ghost function CopiedAll(copies: seq<Bytes>): seq<Log> {
    seq(|copies|, i requires 0 <= i < |copies| => Copied(copies[i]))
  }

  /** What calling a rule with this message puts on record: the buffers it copies in,
      then its own message if it is to run, with a body if it asked for one. */
  ghost function Entries(message: nat, a: Answer): seq<Log> {
    CopiedAll(a.copies)
    + (if a.action == Run then [Posted(message, None)]
       else if a.action == RunWithParam then [Posted(message, Some([]))]
       else [])
  }

  /** The rules called from i on whose answer is to run, in table order. */
  ghost function Runners(rules: seq<Rule>, p: Pass, i: nat, oracle: Oracle): seq<nat>
    requires Fits(rules, p.engine) && i <= |rules| && PassFrom(rules, p, i, oracle).Some?
    decreases |rules| - i
  {
    if i == |rules| then []
    else
      (if Calls(rules, p, i) && Starts(oracle(i)) then [i] else [])
      + Runners(rules, Visit(rules, p, i, oracle(i)).value, i + 1, oracle)
  }

  /** What visiting rule i puts on record. */
  ghost function VisitRecord(rules: seq<Rule>, p: Pass, i: nat, a: Answer): seq<Log>
    requires Fits(rules, p.engine) && i < |rules|
  {
    if Calls(rules, p, i) then Entries(rules[i].message, a) else []
  }

  /** What the calls from i on put on record. */
  ghost function Record(rules: seq<Rule>, p: Pass, i: nat, oracle: Oracle): seq<Log>
    requires Fits(rules, p.engine) && i <= |rules| && PassFrom(rules, p, i, oracle).Some?
    decreases |rules| - i
  {
    if i == |rules| then []
    else
      VisitRecord(rules, p, i, oracle(i))
      + Record(rules, Visit(rules, p, i, oracle(i)).value, i + 1, oracle)
  }

  lemma {:induction false} OutlineOne(log: seq<Log>, x: Log)
    ensures Outline(log + [x]) ==
            Outline(log) + [if x.Posted? && x.body.Some? then Posted(x.message, Some([])) else x]
  {
    assert (log + [x])[..|log|] == log;
  }

  lemma {:induction false} CopiesRecorded(s: Engine, copies: seq<Bytes>)
    requires CopyAll(s, copies).Some?
    ensures Outline(CopyAll(s, copies).value.log) == Outline(s.log) + CopiedAll(copies)
    decreases |copies|
  {
    if copies == [] {
      assert CopiedAll(copies) == [];
    } else {
      OutlineOne(s.log, Copied(copies[0]));
      CopiesRecorded(Copy(s, copies[0]).value, copies[1..]);
      assert CopiedAll(copies) == [Copied(copies[0])] + CopiedAll(copies[1..]);
    }
  }

  lemma {:induction false} AnswerRecorded(rules: seq<Rule>, p: Pass, i: nat, action: Action)
    requires Fits(rules, p.engine) && i < |rules| && Obey(rules, p, i, action).Some?
    ensures Outline(Obey(rules, p, i, action).value.engine.log) ==
            Outline(p.engine.log) + Entries(rules[i].message, Answer([], action))
  {
    assert CopiedAll([]) == [];
    if action == Run {
      OutlineOne(p.engine.log, Posted(rules[i].message, None));
    } else if action == RunWithParam {
      OutlineOne(p.engine.log, Posted(rules[i].message, p.engine.data));
    }
  }

  lemma {:induction false} CalledRecorded(rules: seq<Rule>, p: Pass, i: nat, a: Answer)
    requires Fits(rules, p.engine) && i < |rules| && Visit(rules, p, i, a).Some? && Calls(rules, p, i)
    ensures Outline(Visit(rules, p, i, a).value.engine.log) == Outline(p.engine.log) + Entries(rules[i].message, a)
  {
    var q := p.(engine := CopyAll(p.engine, a.copies).value);
    CopiesRecorded(p.engine, a.copies);
    AnswerRecorded(rules, q, i, a.action);
    assert CopiedAll([]) == [];
  }

  lemma {:induction false} UncalledChangesNothing(rules: seq<Rule>, p: Pass, i: nat, a: Answer)
    requires Fits(rules, p.engine) && i < |rules| && !Calls(rules, p, i)
    ensures Visit(rules, p, i, a).Some? && Visit(rules, p, i, a).value.engine == p.engine
    ensures Visit(rules, p, i, a).value.started == p.started
  {
  }

  lemma {:induction false} VisitRecorded(rules: seq<Rule>, p: Pass, i: nat, a: Answer)
    requires Fits(rules, p.engine) && i < |rules| && Visit(rules, p, i, a).Some?
    ensures Outline(Visit(rules, p, i, a).value.engine.log) == Outline(p.engine.log) + VisitRecord(rules, p, i, a)
  {
    if Calls(rules, p, i) {
      CalledRecorded(rules, p, i, a);
    } else {
      UncalledChangesNothing(rules, p, i, a);
    }
  }

  lemma {:induction false} PassRecorded(rules: seq<Rule>, p: Pass, i: nat, oracle: Oracle)
    requires Fits(rules, p.engine) && i <= |rules| && PassFrom(rules, p, i, oracle).Some?
    ensures Outline(PassFrom(rules, p, i, oracle).value.engine.log)
         == Outline(p.engine.log) + Record(rules, p, i, oracle)
    decreases |rules| - i
  {
    if i < |rules| {
      var q := Visit(rules, p, i, oracle(i)).value;
      PassRecorded(rules, q, i + 1, oracle);
      VisitRecorded(rules, p, i, oracle(i));
      Regroup(Outline(p.engine.log), VisitRecord(rules, p, i, oracle(i)), Record(rules, q, i + 1, oracle));
    }
  }

  // ----- messages and starts -------------------------------------------------

  ghost function Messages(log: seq<Log>): seq<nat> {
    if log == [] then []
    else Messages(log[..|log| - 1]) + if log[|log| - 1].Posted? then [log[|log| - 1].message] else []
  }

  /** `who` lists rules of the table from i on, in its order, whose answer is to run. */
  ghost predicate InOrder(rules: seq<Rule>, who: seq<nat>, i: nat, oracle: Oracle)
    decreases |who|
  {
    who != [] ==>
      i <= who[0] < |rules| && Starts(oracle(who[0])) && InOrder(rules, who[1..], who[0] + 1, oracle)
  }

  ghost function MessagesOf(rules: seq<Rule>, who: seq<nat>): seq<nat> {
    if who == [] then []
    else (if who[0] < |rules| then [rules[who[0]].message] else []) + MessagesOf(rules, who[1..])
  }

  ghost function NotAlways(rules: seq<Rule>, who: seq<nat>): seq<nat> {
    if who == [] then []
    else (if who[0] < |rules| && rules[who[0]].flags != 0x01 then [who[0]] else []) + NotAlways(rules, who[1..])
  }

  lemma {:induction false} MessagesOne(log: seq<Log>, x: Log)
    ensures Messages(log + [x]) == Messages(log) + if x.Posted? then [x.message] else []
  {
    assert (log + [x])[..|log|] == log;
  }

  lemma {:induction false} CopiesPostNothing(s: Engine, copies: seq<Bytes>)
    requires CopyAll(s, copies).Some?
    ensures Messages(CopyAll(s, copies).value.log) == Messages(s.log)
    decreases |copies|
  {
    if copies != [] {
      MessagesOne(s.log, Copied(copies[0]));
      CopiesPostNothing(Copy(s, copies[0]).value, copies[1..]);
    }
  }

  lemma {:induction false} PostSays(s: Engine, message: nat, withParam: bool)
    requires Post(s, message, withParam).Some?
    ensures Messages(Post(s, message, withParam).value.log) == Messages(s.log) + [message]
  {
    MessagesOne(s.log, Posted(message, if withParam then s.data else None));
  }

  lemma {:induction false} RunPosts(rules: seq<Rule>, p: Pass, i: nat, action: Action)
    requires Fits(rules, p.engine) && i < |rules| && Obey(rules, p, i, action).Some?
    requires action == Run || action == RunWithParam
    ensures var q := Obey(rules, p, i, action).value;
            && Messages(q.engine.log) == Messages(p.engine.log) + [rules[i].message]
            && q.started == p.started + (if rules[i].flags != 0x01 then [i] else [])
  {
    var s := if rules[i].Always() then p.engine else p.engine.(status := p.engine.status[i := InProgress]);
    PostSays(s, rules[i].message, action == RunWithParam);
  }

  lemma {:induction false} AnswerPosts(rules: seq<Rule>, p: Pass, i: nat, action: Action)
    requires Fits(rules, p.engine) && i < |rules| && Obey(rules, p, i, action).Some?
    ensures var q := Obey(rules, p, i, action).value;
            var runs := action == Run || action == RunWithParam;
            && Messages(q.engine.log) == Messages(p.engine.log) + (if runs then [rules[i].message] else [])
            && q.started == p.started + (if runs && rules[i].flags != 0x01 then [i] else [])
  {
    if action == Run || action == RunWithParam { RunPosts(rules, p, i, action); }
  }

  /** One visit: a rule called and told to run posts its own message, and is started
      unless it is always evaluated; nothing else is posted or started. */
  lemma {:induction false} VisitPosts(rules: seq<Rule>, p: Pass, i: nat, a: Answer)
    requires Fits(rules, p.engine) && i < |rules| && Visit(rules, p, i, a).Some?
    ensures var q := Visit(rules, p, i, a).value;
            var runs := Calls(rules, p, i) && Starts(a);
            && Messages(q.engine.log) == Messages(p.engine.log) + (if runs then [rules[i].message] else [])
            && q.started == p.started + (if runs && rules[i].flags != 0x01 then [i] else [])
  {
    if Calls(rules, p, i) {
      CopiesPostNothing(p.engine, a.copies);
      AnswerPosts(rules, p.(engine := CopyAll(p.engine, a.copies).value), i, a.action);
    } else {
      UncalledChangesNothing(rules, p, i, a);
    }
  }

  lemma {:induction false} RunnersNext(rules: seq<Rule>, p: Pass, i: nat, oracle: Oracle, rest: seq<nat>)
    requires Fits(rules, p.engine) && i < |rules| && PassFrom(rules, p, i, oracle).Some?
    requires rest == Runners(rules, Visit(rules, p, i, oracle(i)).value, i + 1, oracle)
    ensures Calls(rules, p, i) && Starts(oracle(i)) ==> Runners(rules, p, i, oracle) == [i] + rest
    ensures !(Calls(rules, p, i) && Starts(oracle(i))) ==> Runners(rules, p, i, oracle) == rest
  {
    assert [] + rest == rest;
  }

  lemma {:induction false} Regroup<T>(a: seq<T>, b: seq<T>, c: seq<T>)
    ensures a + b + c == a + (b + c)
  {
  }

  lemma {:induction false} Prefixed(rules: seq<Rule>, i: nat, rest: seq<nat>)
    requires i < |rules|
    ensures MessagesOf(rules, [i] + rest) == [rules[i].message] + MessagesOf(rules, rest)
    ensures NotAlways(rules, [i] + rest) == (if rules[i].flags != 0x01 then [i] else []) + NotAlways(rules, rest)
  {
    assert ([i] + rest)[1..] == rest;
  }

  lemma {:induction false} RunnersInOrder(rules: seq<Rule>, p: Pass, i: nat, oracle: Oracle)
    requires Fits(rules, p.engine) && i <= |rules| && PassFrom(rules, p, i, oracle).Some?
    ensures InOrder(rules, Runners(rules, p, i, oracle), i, oracle)
    decreases |rules| - i
  {
    if i < |rules| {
      var q := Visit(rules, p, i, oracle(i)).value;
      var rest := Runners(rules, q, i + 1, oracle);
      RunnersInOrder(rules, q, i + 1, oracle);
      RunnersNext(rules, p, i, oracle, rest);
      assert ([i] + rest)[1..] == rest;
    }
  }

  lemma {:induction false} PassPosts(rules: seq<Rule>, p: Pass, i: nat, oracle: Oracle)
    requires Fits(rules, p.engine) && i <= |rules| && PassFrom(rules, p, i, oracle).Some?
    ensures Messages(PassFrom(rules, p, i, oracle).value.engine.log)
         == Messages(p.engine.log) + MessagesOf(rules, Runners(rules, p, i, oracle))
    decreases |rules| - i
  {
    if i < |rules| {
      var q := Visit(rules, p, i, oracle(i)).value;
      var rest := Runners(rules, q, i + 1, oracle);
      PassPosts(rules, q, i + 1, oracle);
      VisitPosts(rules, p, i, oracle(i));
      RunnersNext(rules, p, i, oracle, rest);
      Prefixed(rules, i, rest);
      Regroup(Messages(p.engine.log), [rules[i].message], MessagesOf(rules, rest));
    }
  }

  lemma {:induction false} PassStarts(rules: seq<Rule>, p: Pass, i: nat, oracle: Oracle)
    requires Fits(rules, p.engine) && i <= |rules| && PassFrom(rules, p, i, oracle).Some?
    ensures PassFrom(rules, p, i, oracle).value.started
         == p.started + NotAlways(rules, Runners(rules, p, i, oracle))
    decreases |rules| - i
  {
    if i < |rules| {
      var q := Visit(rules, p, i, oracle(i)).value;
      var rest := Runners(rules, q, i + 1, oracle);
      PassStarts(rules, q, i + 1, oracle);
      VisitPosts(rules, p, i, oracle(i));
      RunnersNext(rules, p, i, oracle, rest);
      if Calls(rules, p, i) && Starts(oracle(i)) {
        Prefixed(rules, i, rest);
        Regroup(p.started, if rules[i].flags != 0x01 then [i] else [], NotAlways(rules, rest));
      } else {
        assert q.started == p.started;
      }
    }
  }

  /** In one pass, for any table and answers: exactly one message is posted per rule
      called that answers to run, in table order, each with that rule's own message;
      the rules put in progress are exactly those of them that are not always
      evaluated, so each start has its post and each post of such a rule its start. */
  lemma {:induction false} PassPostsOwnMessages(rules: seq<Rule>, s: Engine, oracle: Oracle)
    requires Fits(rules, s) && RunRules(rules, s, oracle).Some?
    ensures var p := Pass(s, s.events, []);
            var who := Runners(rules, p, 0, oracle);
            var q := RunRules(rules, s, oracle).value;
            && InOrder(rules, who, 0, oracle)
            && Messages(q.engine.log) == Messages(s.log) + MessagesOf(rules, who)
            && q.started == NotAlways(rules, who)
            && Outline(q.engine.log) == Outline(s.log) + Record(rules, p, 0, oracle)
  {
    var p := Pass(s, s.events, []);
    RunnersInOrder(rules, p, 0, oracle);
    PassPosts(rules, p, 0, oracle);
    PassStarts(rules, p, 0, oracle);
    PassRecorded(rules, p, 0, oracle);
  }

  /** The engine that a call's pass starts from, if it makes one. */
  ghost function PassStart(rules: seq<Rule>, s: Engine, c: Call): Option<Engine>
    requires Fits(rules, s)
  {
    match c
    case SetEvent(mask, _) => Some(s.(events := s.events + mask))
    case SetRuleComplete(message, _) => Completed(rules, s, message, ALL_EVENTS)
    case SetRuleWithEventComplete(message, event, _) => Completed(rules, s, message, event)
    case _ => None
  }

  /** Over runs: every message a public call adds is that of a rule its one pass called
      and told to run; calls without a pass post nothing. */
  lemma {:induction false} CallPostsOwnMessages(rules: seq<Rule>, s: Engine, c: Call)
    requires Fits(rules, s) && Step(rules, s, c).Some?
    ensures var t := Step(rules, s, c).value;
            var start := PassStart(rules, s, c);
            if c.ResetEvent? then t.log == s.log
            else if c.CopyRunParams? then t.log == s.log + [Copied(c.data)]
            else
              && start.Some? && Fits(rules, start.value) && start.value.log == s.log
              && RunRules(rules, start.value, c.oracle).Some?
              && var who := Runners(rules, Pass(start.value, start.value.events, []), 0, c.oracle);
                 && InOrder(rules, who, 0, c.oracle)
                 && Messages(t.log) == Messages(s.log) + MessagesOf(rules, who)
  {
    var start := PassStart(rules, s, c);
    if start.Some? {
      PassPostsOwnMessages(rules, start.value, c.oracle);
    }
  }

  // ----- when a visit panics -------------------------------------------------

  /** The buffer pending after the rule's copies. */
  ghost function Pending(s: Engine, copies: seq<Bytes>): Option<Bytes> {
    if copies == [] then s.data else Some(copies[|copies| - 1])
  }

  lemma {:induction false} CopiesPanicIff(s: Engine, copies: seq<Bytes>)
    ensures CopyAll(s, copies).None? <==> |copies| > 1 || (|copies| == 1 && s.data.Some?)
    ensures CopyAll(s, copies).Some? ==> CopyAll(s, copies).value.data == Pending(s, copies)
    ensures CopyAll(s, copies).Some? ==>
              CopyAll(s, copies).value.size == (if copies == [] then s.size else |copies[|copies| - 1]|)
  {
    if |copies| > 1 {
      assert copies[1..] != [];
    }
  }

  /** A visit panics exactly if the rule is called and: it copies a second buffer in;
      or runs plainly with a buffer pending; or runs with parameters and the buffer is
      missing or empty; or defers although always evaluated; or finishes and its
      message would complete an always-evaluate rule in the same state. */
  lemma {:induction false} VisitPanicsIff(rules: seq<Rule>, p: Pass, i: nat, a: Answer)
    requires Fits(rules, p.engine) && i < |rules|
    requires p.engine.size == (if p.engine.data.Some? then |p.engine.data.value| else 0)
    ensures var pending := Pending(p.engine, a.copies);
            Visit(rules, p, i, a).None? <==>
            && Calls(rules, p, i)
            && (|| |a.copies| > 1
                || (|a.copies| == 1 && p.engine.data.Some?)
                || (a.action == Run && pending.Some?)
                || (a.action == RunWithParam && (pending.None? || pending.value == []))
                || (a.action == Defer && rules[i].flags == 0x01)
                || ((a.action == Finish || a.action == Ignore) && rules[i].flags != 0x01
                    && exists r :: 0 <= r < |rules| && rules[r].flags == 0x01
                                   && rules[r].message == rules[i].message
                                   && p.engine.status[r] == p.engine.status[i]
                                   && rules[r].events * rules[i].events != {}))
  {
    CopiesPanicIff(p.engine, a.copies);
    if !Calls(rules, p, i) { UncalledChangesNothing(rules, p, i, a); }
  }

  // ----- when clients hear that nothing is in progress -----------------------

  /** A completion notifies them exactly if it completed a rule in progress and no
      progress-matters rule is in progress any more; otherwise nobody is notified. */
  lemma {:induction false} NotifiesIff(rules: seq<Rule>, s: Engine, message: nat, event: Mask)
    requires Fits(rules, s) && Completed(rules, s, message, event).Some?
    ensures var t := Completed(rules, s, message, event).value;
            t.nops == s.nops +
              (if (exists i :: 0 <= i < |rules| && rules[i].message == message && s.status[i] == InProgress
                               && rules[i].events * event != {})
                  && (forall i :: 0 <= i < |rules| && rules[i].flags == 0x02 ==> t.status[i] != InProgress)
               then 1 else 0)
  {
    var u := Update(rules, s, message, InProgress, event).value;
    assert HitsAny(rules, s.status, message, InProgress, event) <==>
           exists i :: 0 <= i < |rules| && Hits(rules[i], s.status[i], message, InProgress, event);
  }

  // ----- events --------------------------------------------------------------

  lemma {:induction false} PassKeepsEvents(rules: seq<Rule>, p: Pass, i: nat, oracle: Oracle)
    requires Fits(rules, p.engine) && i <= |rules| && PassFrom(rules, p, i, oracle).Some?
    ensures PassFrom(rules, p, i, oracle).value.engine.events <= p.engine.events
    ensures (forall r :: oracle(r).action != Finish && oracle(r).action != Ignore)
            ==> PassFrom(rules, p, i, oracle).value.engine.events == p.engine.events
    decreases |rules| - i
  {
    if i < |rules| {
      PassKeepsEvents(rules, Visit(rules, p, i, oracle(i)).value, i + 1, oracle);
    }
  }

  /** ResetEvent clears exactly its events, puts every rule listing one back to not done
      unless it is always evaluated, and touches nothing else. */
  lemma {:induction false} ResetEventAnswers(rules: seq<Rule>, s: Engine, mask: Mask)
    requires Fits(rules, s)
    ensures var t := Step(rules, s, ResetEvent(mask));
            && t.Some?
            && (forall e :: e in t.value.events <==> e in s.events && e !in mask)
            && (forall i :: 0 <= i < |rules| ==>
                  t.value.status[i] ==
                  if rules[i].flags != 0x01 && exists e :: e in rules[i].events && e in mask
                  then NotDone else s.status[i])
            && t.value == s.(events := t.value.events, status := t.value.status)
  {
    forall i | 0 <= i < |rules|
      ensures rules[i].events * mask != {} <==> exists e :: e in rules[i].events && e in mask
    {
      if e :| e in rules[i].events && e in mask { assert e in rules[i].events * mask; }
    }
  }

  /** SetEvent makes the events active: a pass clears none unless a rule finishes, and
      raises none. */
  lemma {:induction false} SetEventRaises(rules: seq<Rule>, s: Engine, mask: Mask, oracle: Oracle)
    requires Fits(rules, s) && Step(rules, s, SetEvent(mask, oracle)).Some?
    ensures var t := Step(rules, s, SetEvent(mask, oracle)).value;
            && t.events <= s.events + mask
            && ((forall r :: oracle(r).action != Finish && oracle(r).action != Ignore) ==> t.events == s.events + mask)
  {
    var t := s.(events := s.events + mask);
    PassKeepsEvents(rules, Pass(t, t.events, []), 0, oracle);
  }
}
