/**
 * The rules engine as functions on values: one status per rule, the set of
 * active events, and the buffer a rule may leave for the message it asks for.
 * A bit mask is the set of its bit positions. `None` stands for a panic.
 */
module RulesEngine {
  import opened Common

  type Event = e: nat | e < 64
  type Mask = set<Event>
  type Bytes = seq<Byte>

  const ALL_EVENTS: Mask := set e: Event | 0 <= e < 64

  /** Flag words; the engine compares the whole word, so 0x03 is neither. */
  const FLAG_ALWAYS_EVALUATE: nat := 1
  const FLAG_PROGRESS_MATTERS: nat := 2

  datatype Status = NotDone | Ignored | InProgress | Complete | Deferred

  datatype Action = Run | Finish | Ignore | Defer | RunWithParam

  datatype Rule = Rule(events: Mask, flags: nat, message: nat) {
    predicate Always() { flags == FLAG_ALWAYS_EVALUATE }
  }

  /** What a rule function does when called: the buffers it hands to
      CopyRunParams, in order, and the action it returns. */
  datatype Answer = Answer(copies: seq<Bytes>, action: Action)

  /** The answers the rules would give during one pass, by rule index. */
  type Oracle = nat -> Answer

  /** Every buffer copied in and every message posted, oldest first. */
  datatype Log = Copied(data: Bytes) | Posted(message: nat, body: Option<Bytes>)

  datatype Engine = Engine(
    events: Mask,
    status: seq<Status>,
    data: Option<Bytes>,
    size: nat,
    log: seq<Log>,
    nops: nat)

  /** An engine part way through a pass: `local` is the pass's own copy of the
      events, `started` the rules it has put in progress so far. */
  datatype Pass = Pass(engine: Engine, local: Mask, started: seq<nat>)

  datatype Call =
    | SetEvent(mask: Mask, oracle: Oracle)
    | ResetEvent(mask: Mask)
    | SetRuleComplete(message: nat, oracle: Oracle)
    | SetRuleWithEventComplete(message: nat, event: Mask, oracle: Oracle)
    | CopyRunParams(data: Bytes)

  predicate Fits(rules: seq<Rule>, s: Engine) { |s.status| == |rules| }

  function Fresh(rules: seq<Rule>): Engine {
    Engine({}, seq(|rules|, i => NotDone), None, 0, [], 0)
  }

  // ----- status updates ------------------------------------------------------

  /** The rule is one that a status update for (message, from, event) touches. */
  predicate Hits(r: Rule, st: Status, message: nat, from: Status, event: Mask) {
    r.message == message && st == from && r.events * event != {}
  }

  function Mark(rules: seq<Rule>, status: seq<Status>, message: nat, from: Status, event: Mask): (r: seq<Status>)
    requires |status| == |rules|
    ensures |r| == |rules|
  {
    seq(|rules|, i requires 0 <= i < |rules| =>
      if Hits(rules[i], status[i], message, from, event) then Complete else status[i])
  }

  /** Events listed by a rule the update touches. */
  function HitEvents(rules: seq<Rule>, status: seq<Status>, message: nat, from: Status, event: Mask): Mask
    requires |status| == |rules|
  {
    set i, e | 0 <= i < |rules| && Hits(rules[i], status[i], message, from, event) && e in rules[i].events :: e
  }

  /** Events listed by a rule that overlaps `event` and is not complete. */
  function OpenEvents(rules: seq<Rule>, status: seq<Status>, event: Mask): Mask
    requires |status| == |rules|
  {
    set i, e | 0 <= i < |rules| && rules[i].events * event != {} && status[i] != Complete && e in rules[i].events :: e
  }

  /** The events an update clears. */
  function Cleared(rules: seq<Rule>, status: seq<Status>, message: nat, from: Status, event: Mask): Mask
    requires |status| == |rules|
  {
    HitEvents(rules, status, message, from, event)
      - OpenEvents(rules, Mark(rules, status, message, from, event), event)
  }

  function ResetStatus(rules: seq<Rule>, status: seq<Status>, event: Mask): (r: seq<Status>)
    requires |status| == |rules|
    ensures |r| == |rules|
  {
    seq(|rules|, i requires 0 <= i < |rules| =>
      if rules[i].events * event != {} && !rules[i].Always() then NotDone else status[i])
  }

  function Reset(rules: seq<Rule>, s: Engine, event: Mask): (r: Engine)
    requires Fits(rules, s)
    ensures Fits(rules, r)
  {
    s.(events := s.events - event, status := ResetStatus(rules, s.status, event))
  }

  predicate HitsAlways(rules: seq<Rule>, status: seq<Status>, message: nat, from: Status, event: Mask)
    requires |status| == |rules|
  {
    exists i :: 0 <= i < |rules| && Hits(rules[i], status[i], message, from, event) && rules[i].Always()
  }

  predicate HitsAny(rules: seq<Rule>, status: seq<Status>, message: nat, from: Status, event: Mask)
    requires |status| == |rules|
  {
    exists i :: 0 <= i < |rules| && Hits(rules[i], status[i], message, from, event)
  }

  /** Complete every rule touched, then clear and reset the events all of whose
      (overlapping) rules are complete. Panics on an always-evaluate rule. */
  function Update(rules: seq<Rule>, s: Engine, message: nat, from: Status, event: Mask): (r: Option<Engine>)
    requires Fits(rules, s)
    ensures r.Some? ==> Fits(rules, r.value)
  {
    if HitsAlways(rules, s.status, message, from, event) then None
    else Some(Reset(rules,
                    s.(status := Mark(rules, s.status, message, from, event)),
                    Cleared(rules, s.status, message, from, event)))
  }

  predicate ProgressPending(rules: seq<Rule>, status: seq<Status>)
    requires |status| == |rules|
  {
    exists i :: 0 <= i < |rules| && rules[i].flags == FLAG_PROGRESS_MATTERS && status[i] == InProgress
  }

  // ----- parameters and messages ---------------------------------------------

  function Copy(s: Engine, data: Bytes): Option<Engine> {
    if s.data.Some? then None
    else Some(s.(data := Some(data), size := |data|, log := s.log + [Copied(data)]))
  }

  function CopyAll(s: Engine, copies: seq<Bytes>): (r: Option<Engine>)
    ensures r.Some? ==> r.value.status == s.status && r.value.events == s.events
    decreases |copies|
  {
    if copies == [] then Some(s)
    else
      var t := Copy(s, copies[0]);
      if t.None? then None else CopyAll(t.value, copies[1..])
  }

  function Post(s: Engine, message: nat, withParam: bool): Option<Engine> {
    if withParam then
      if s.size == 0 || s.data.None? then None
      else Some(s.(log := s.log + [Posted(message, s.data)], data := None, size := 0))
    else
      if s.size != 0 || s.data.Some? then None
      else Some(s.(log := s.log + [Posted(message, None)]))
  }

  // ----- one pass over the table ---------------------------------------------

  /** Act on the answer of rule i, which has just been called. */
  function Obey(rules: seq<Rule>, p: Pass, i: nat, action: Action): (r: Option<Pass>)
    requires Fits(rules, p.engine) && i < |rules|
    ensures r.Some? ==> Fits(rules, r.value.engine)
  {
    var rule := rules[i];
    match action
    case Run | RunWithParam =>
      var s := if rule.Always() then p.engine else p.engine.(status := p.engine.status[i := InProgress]);
      var posted := Post(s, rule.message, action == RunWithParam);
      if posted.None? then None
      else if rule.Always() then Some(p.(engine := posted.value))
      else Some(Pass(posted.value, p.local - rule.events, p.started + [i]))
    case Finish | Ignore =>
      if rule.Always() then Some(p)
      else
        var u := Update(rules, p.engine, rule.message, p.engine.status[i], rule.events);
        if u.None? then None else Some(p.(engine := u.value))
    case Defer =>
      if rule.Always() then None
      else Some(p.(engine := p.engine.(status := p.engine.status[i := Deferred])))
  }

  function Visit(rules: seq<Rule>, p: Pass, i: nat, answer: Answer): (r: Option<Pass>)
    requires Fits(rules, p.engine) && i < |rules|
    ensures r.Some? ==> Fits(rules, r.value.engine)
  {
    var rule, st := rules[i], p.engine.status[i];
    if !(rule.events <= p.local || rule.Always()) || st == Complete then Some(p)
    else if st == InProgress then Some(p.(local := p.local - rule.events))
    else
      var s := CopyAll(p.engine, answer.copies);
      if s.None? then None else Obey(rules, p.(engine := s.value), i, answer.action)
  }

  function PassFrom(rules: seq<Rule>, p: Pass, i: nat, oracle: Oracle): (r: Option<Pass>)
    requires Fits(rules, p.engine) && i <= |rules|
    ensures r.Some? ==> Fits(rules, r.value.engine)
    decreases |rules| - i
  {
    if i == |rules| then Some(p)
    else
      var q := Visit(rules, p, i, oracle(i));
      if q.None? then None else PassFrom(rules, q.value, i + 1, oracle)
  }

  function RunRules(rules: seq<Rule>, s: Engine, oracle: Oracle): (r: Option<Pass>)
    requires Fits(rules, s)
    ensures r.Some? ==> Fits(rules, r.value.engine)
  {
    PassFrom(rules, Pass(s, s.events, []), 0, oracle)
  }

  function Check(rules: seq<Rule>, s: Engine, oracle: Oracle): (r: Option<Engine>)
    requires Fits(rules, s)
    ensures r.Some? ==> Fits(rules, r.value)
  {
    var p := RunRules(rules, s, oracle);
    if p.None? then None else Some(p.value.engine)
  }

  // ----- public calls and runs -----------------------------------------------

  /** The engine between the status update of a completion call and its re-check. */
  function Completed(rules: seq<Rule>, s: Engine, message: nat, event: Mask): (r: Option<Engine>)
    requires Fits(rules, s)
    ensures r.Some? ==> Fits(rules, r.value)
  {
    var u := Update(rules, s, message, InProgress, event);
    if u.None? then None
    else if HitsAny(rules, s.status, message, InProgress, event) && !ProgressPending(rules, u.value.status)
    then Some(u.value.(nops := u.value.nops + 1))
    else u
  }

  function Step(rules: seq<Rule>, s: Engine, c: Call): (r: Option<Engine>)
    requires Fits(rules, s)
    ensures r.Some? ==> Fits(rules, r.value)
  {
    match c
    case SetEvent(mask, oracle) => Check(rules, s.(events := s.events + mask), oracle)
    case ResetEvent(mask) => Some(Reset(rules, s, mask))
    case SetRuleComplete(message, oracle) =>
      var u := Completed(rules, s, message, ALL_EVENTS);
      if u.None? then None else Check(rules, u.value, oracle)
    case SetRuleWithEventComplete(message, event, oracle) =>
      var u := Completed(rules, s, message, event);
      if u.None? then None else Check(rules, u.value, oracle)
    case CopyRunParams(data) => Copy(s, data)
  }

  /** The state after a run of public calls from a new rule set. */
  ghost function RunCalls(rules: seq<Rule>, calls: seq<Call>): (r: Option<Engine>)
    ensures r.Some? ==> Fits(rules, r.value)
  {
    if calls == [] then Some(Fresh(rules))
    else
      var s := RunCalls(rules, calls[..|calls| - 1]);
      if s.None? then None else Step(rules, s.value, calls[|calls| - 1])
  }
}
