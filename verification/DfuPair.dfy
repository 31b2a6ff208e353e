/**
 * Two devices with fixed roles running the erase handshake over the peer
 * signalling channel, which may lose messages but keeps their order.
 */
module DfuPair {
  import opened Dfu

  /** A reply carries only `success`; its number and the state of the secondary's
      bank when it was sent are kept to say which reply is which. */
  datatype Reply = Reply(serial: nat, success: bool, erased: bool)

  /** `requests` and `replies` are in flight, oldest reply first; `erased` is the
      state of the secondary's own bank. */
  datatype Pair = Pair(
    primary: Domain,
    secondary: Domain,
    requests: nat,
    replies: seq<Reply>,
    erased: bool,
    sent: seq<Reply>,
    received: seq<Reply>)

  const BOOTED: Pair := Pair(BOOT, BOOT, 0, [], false, [], [])

  datatype Move =
    | AtPrimary(event: Event)
    | AtSecondary(event: Event)
    | RequestArrives(initOk: bool)
    | ReplyArrives
    | RequestLost
    | ReplyLost
    | EraseFinishes(success: bool)
    | BankWritten

  /** Events of a device that do not come from its peer or its flash. */
  predicate Local(e: Event, primary: bool) {
    && !e.EraseRequest? && !e.EraseReply? && !e.EraseStatus?
    && (e.EarlyErase? || e.StartDataInd? ==> e.primary == primary)
  }

  predicate Possible(p: Pair, m: Move) {
    match m
    case AtPrimary(e) => Local(e, true) && Deliverable(p.primary, e)
    case AtSecondary(e) => Local(e, false) && Deliverable(p.secondary, e)
    case RequestArrives(_) => p.requests > 0
    case ReplyArrives => p.replies != []
    case RequestLost => p.requests > 0
    case ReplyLost => p.replies != []
    case EraseFinishes(_) => true
    case BankWritten => true
  }

  /** The requests and replies among the log entries a step added. */
  function NewRequests(before: seq<Log>, after: seq<Log>): nat {
    if |after| > |before| && after[|before|].RequestSent? then 1 else 0
  }

  function NewReplies(before: seq<Log>, after: seq<Log>): seq<bool> {
    if |after| > |before| && after[|before|].ReplySent? then [after[|before|].success] else []
  }

  /** Let the secondary handle e while its bank is in state `erased`. */
  function Answer(p: Pair, e: Event, erased: bool): Pair
    requires Deliverable(p.secondary, e)
  {
    var s := Step(p.secondary, e);
    var answers := NewReplies(p.secondary.log, s.log);
    var new' := if answers == [] then [] else [Reply(|p.sent|, answers[0], erased)];
    p.(secondary := s, erased := erased, replies := p.replies + new', sent := p.sent + new')
  }

  function Next(p: Pair, m: Move): Pair
    requires Possible(p, m)
  {
    match m
    case AtPrimary(e) =>
      var d := Step(p.primary, e);
      p.(primary := d, requests := p.requests + NewRequests(p.primary.log, d.log))
    case AtSecondary(e) => Answer(p, e, p.erased)
    case RequestArrives(initOk) =>
      // a bank that is already erased needs no wait
      Answer(p.(requests := p.requests - 1), EraseRequest(false, initOk, !p.erased), p.erased)
    case ReplyArrives =>
      p.(primary := Step(p.primary, EraseReply(true, p.replies[0].success)),
         replies := p.replies[1..], received := p.received + [p.replies[0]])
    case RequestLost => p.(requests := p.requests - 1)
    case ReplyLost => p.(replies := p.replies[1..])
    case EraseFinishes(success) => Answer(p, EraseStatus(false, success), p.erased || success)
    case BankWritten => p.(erased := false)
  }

  ghost predicate LawfulRun(p: Pair, run: seq<Move>)
    decreases |run|
  {
    run != [] ==> Possible(p, run[0]) && LawfulRun(Next(p, run[0]), run[1..])
  }

  ghost function After(p: Pair, run: seq<Move>): Pair
    requires LawfulRun(p, run)
    decreases |run|
  {
    if run == [] then p else After(Next(p, run[0]), run[1..])
  }

  // ----- what was received was sent ------------------------------------------

  /** The replies a log says were received. */
  ghost function Heard(log: seq<Log>): seq<bool> {
    if log == [] then []
    else Heard(log[..|log| - 1]) + if log[|log| - 1].ReplyReceived? then [log[|log| - 1].success] else []
  }

  ghost predicate Matches(heard: seq<bool>, received: seq<Reply>) {
    |heard| == |received| && forall k :: 0 <= k < |heard| ==> heard[k] == received[k].success
  }

  /** Replies of `passed` are among those sent, in the order they were sent. */
  ghost predicate Subsequence(passed: seq<Reply>, sent: seq<Reply>) {
    && (forall k :: 0 <= k < |passed| ==> passed[k].serial < |sent| && sent[passed[k].serial] == passed[k])
    && (forall k, l :: 0 <= k < l < |passed| ==> passed[k].serial < passed[l].serial)
  }

  /** Success was only sent from an erased bank; what the primary received and what
      is in flight are, in order, among the replies sent; and the primary's log
      records exactly those received. */
  ghost predicate Honest(p: Pair) {
    Tracked(p.primary) && Carried(p.sent, p.received + p.replies) && Matches(Heard(p.primary.log), p.received)
  }

  ghost predicate Carried(sent: seq<Reply>, passed: seq<Reply>) {
    && (forall k :: 0 <= k < |sent| ==> sent[k].serial == k && (sent[k].success ==> sent[k].erased))
    && Subsequence(passed, sent)
  }

  lemma {:induction false} HeardNext(log: seq<Log>, x: Log)
    ensures Heard(log + [x]) == Heard(log) + if x.ReplyReceived? then [x.success] else []
  {
    assert (log + [x])[..|log|] == log;
  }

  lemma {:induction false} SubsequenceGrows(passed: seq<Reply>, sent: seq<Reply>, x: Reply)
    requires Subsequence(passed, sent) && x.serial == |sent|
    ensures Subsequence(passed + [x], sent + [x])
  {
  }

  lemma {:induction false} AnswerHonest(p: Pair, e: Event, erased: bool)
    requires Honest(p) && Deliverable(p.secondary, e)
    requires NewReplies(p.secondary.log, Step(p.secondary, e).log) == [true] ==> erased
    ensures Honest(Answer(p, e, erased))
  {
    var q := Answer(p, e, erased);
    if q.sent != p.sent {
      var x := q.sent[|p.sent|];
      SubsequenceGrows(p.received + p.replies, p.sent, x);
      assert q.received + q.replies == p.received + p.replies + [x];
    } else {
      assert q.received + q.replies == p.received + p.replies;
    }
  }

  lemma {:induction false} PrimaryHears(d: Domain, e: Event)
    requires Local(e, true) && Deliverable(d, e)
    ensures Heard(Step(d, e).log) == Heard(d.log)
  {
    var s := Step(d, e);
    if |s.log| == |d.log| + 1 {
      assert s.log == d.log + [s.log[|d.log|]];
      HeardNext(d.log, s.log[|d.log|]);
    } else if |s.log| == |d.log| + 2 {
      assert s.log == d.log + [s.log[|d.log|]] + [s.log[|d.log| + 1]];
      HeardNext(d.log, s.log[|d.log|]);
      HeardNext(d.log + [s.log[|d.log|]], s.log[|d.log| + 1]);
    }
  }

  lemma {:induction false} PrimaryHonest(p: Pair, e: Event)
    requires Honest(p) && Local(e, true) && Deliverable(p.primary, e)
    ensures Honest(Next(p, AtPrimary(e)))
  {
    StepTracked(p.primary, e);
    PrimaryHears(p.primary, e);
  }

  lemma {:induction false} MatchesNext(log: seq<Log>, received: seq<Reply>, x: Reply)
    requires Matches(Heard(log), received)
    ensures Matches(Heard(log + [ReplyReceived(x.success)]), received + [x])
  {
    HeardNext(log, ReplyReceived(x.success));
  }

  lemma {:induction false} ReplyHonest(p: Pair)
    requires Honest(p) && p.replies != []
    ensures Honest(Next(p, ReplyArrives))
  {
    var x := p.replies[0];
    StepTracked(p.primary, EraseReply(true, x.success));
    MatchesNext(p.primary.log, p.received, x);
    assert p.received + [x] + p.replies[1..] == p.received + p.replies;
  }

  lemma {:induction false} LossHonest(p: Pair)
    requires Honest(p) && p.replies != []
    ensures Honest(Next(p, ReplyLost))
  {
    var all, left := p.received + p.replies, p.received + p.replies[1..];
    assert forall k :: 0 <= k < |left| ==> left[k] == all[if k < |p.received| then k else k + 1];
  }

  lemma {:induction false} NextHonest(p: Pair, m: Move)
    requires Honest(p) && Possible(p, m)
    ensures Honest(Next(p, m))
  {
    match m
    case AtPrimary(e) => PrimaryHonest(p, e);
    case AtSecondary(e) => AnswerHonest(p, e, p.erased);
    case RequestArrives(initOk) =>
      AnswerHonest(p.(requests := p.requests - 1), EraseRequest(false, initOk, !p.erased), p.erased);
    case ReplyArrives => ReplyHonest(p);
    case RequestLost =>
    case ReplyLost => LossHonest(p);
    case EraseFinishes(success) => AnswerHonest(p, EraseStatus(false, success), p.erased || success);
    case BankWritten =>
  }

  lemma {:induction false} RunHonest(p: Pair, run: seq<Move>)
    requires Honest(p) && LawfulRun(p, run)
    ensures Honest(After(p, run))
    decreases |run|
  {
    if run != [] {
      NextHonest(p, run[0]);
      RunHonest(Next(p, run[0]), run[1..]);
    }
  }

  lemma {:induction false} EveryRunHonest(run: seq<Move>)
    requires LawfulRun(BOOTED, run)
    ensures Honest(After(BOOTED, run))
  {
    RunHonest(BOOTED, run);
  }

  // ----- which success lets a start through ----------------------------------

  /** The entry of the last success since the last request. */
  lemma {:induction false} LastSuccess(log: seq<Log>) returns (q: nat)
    requires SuccessSinceRequest(log)
    ensures q < |log| && log[q] == ReplyReceived(true)
    ensures forall k :: q < k < |log| ==> log[k] != RequestSent
  {
    q := |log| - 1;
    if log[q] != ReplyReceived(true) {
      q := LastSuccess(log[..|log| - 1]);
    }
  }

  /** A reply recorded at q is the one numbered by the replies recorded before it. */
  lemma {:induction false} HeardAt(log: seq<Log>, q: nat)
    requires q < |log| && log[q].ReplyReceived?
    ensures |Heard(log[..q])| < |Heard(log)| && Heard(log)[|Heard(log[..q])|] == log[q].success
  {
    var n := |log| - 1;
    if q < n {
      HeardAt(log[..n], q);
      assert log[..n][..q] == log[..q];
    }
  }

  /** The success recorded at q, with no request between it and i, is reply `r`. */
  ghost predicate LetThroughBy(p: Pair, i: nat, q: nat, r: Reply) {
    && q < i <= |p.primary.log|
    && p.primary.log[q] == ReplyReceived(true)
    && (forall k :: q < k < i ==> p.primary.log[k] != RequestSent)
    && |Heard(p.primary.log[..q])| < |p.received| && p.received[|Heard(p.primary.log[..q])|] == r
    && r.serial < |p.sent| && p.sent[r.serial] == r && r.success && r.erased
  }

  lemma {:induction false} StartNamesReply(p: Pair, i: nat) returns (q: nat, r: Reply)
    requires Honest(p) && i < |p.primary.log| && p.primary.log[i].StartNotified? && RequestSent in p.primary.log[..i]
    ensures LetThroughBy(p, i, q, r)
  {
    var log := p.primary.log;
    assert Allowed(log[..i], log[i]);
    q := LastSuccess(log[..i]);
    HeardAt(log, q);
    r := p.received[|Heard(log[..q])|];
    assert (p.received + p.replies)[|Heard(log[..q])|] == r;
  }

  ghost predicate StartSafe(p: Pair, i: nat) {
    i < |p.primary.log| && p.primary.log[i].StartNotified? ==>
      && QueuedAndLive(p.primary.log[..i], p.primary.log[i].id)
      && (RequestSent in p.primary.log[..i] ==> exists q, r :: LetThroughBy(p, i, q, r))
  }

  lemma {:induction false} HonestStarts(p: Pair, i: nat)
    requires Honest(p)
    ensures StartSafe(p, i)
  {
    if i < |p.primary.log| && p.primary.log[i].StartNotified? {
      assert Allowed(p.primary.log[..i], p.primary.log[i]);
      if RequestSent in p.primary.log[..i] {
        var q, r := StartNamesReply(p, i);
      }
    }
  }

  lemma {:induction false} HonestReplies(p: Pair)
    requires Honest(p)
    ensures Subsequence(p.received, p.sent)
    ensures forall k :: 0 <= k < |p.sent| && p.sent[k].success ==> p.sent[k].erased
  {
    assert forall k :: 0 <= k < |p.received| ==> (p.received + p.replies)[k] == p.received[k];
  }

  /** In every run of the pair: the secondary reports success only while its own
      bank is erased; the replies the primary received are, in order, among those
      sent; and a start notified after an erase request was queued with no failure
      or end of data since, and was let through by a success received since the
      latest request, namely a reply sent from an erased bank. */
  lemma {:induction false} HandshakeSafe(run: seq<Move>, i: nat)
    requires LawfulRun(BOOTED, run)
    ensures var p := After(BOOTED, run);
            && (forall k :: 0 <= k < |p.sent| && p.sent[k].success ==> p.sent[k].erased)
            && Subsequence(p.received, p.sent)
            && StartSafe(p, i)
  {
    EveryRunHonest(run);
    HonestReplies(After(BOOTED, run));
    HonestStarts(After(BOOTED, run), i);
  }

  // ----- does the success answer the latest request? -------------------------

  /** The move makes the primary send an erase request. */
  ghost predicate Asks(p: Pair, m: Move) {
    m.AtPrimary? && Possible(p, m) && Next(p, m).requests > p.requests
  }

  /** Each success received after p was sent after p. */
  ghost predicate AnsweredSince(p: Pair, later: Pair) {
    forall k :: |p.received| <= k < |later.received| && later.received[k].success
                ==> later.received[k].serial >= |p.sent|
  }

  ghost predicate SuccessInFlight(p: Pair) {
    exists k :: 0 <= k < |p.replies| && p.replies[k].success
  }

  ghost predicate NeverAsksAgain(run: seq<Move>) {
    forall k :: 0 <= k < |run| ==> !(run[k].AtPrimary? && run[k].event.EarlyErase?)
  }

  /** `later` continues p: what it has received or has in flight beyond p was in
      flight at p or was sent later. */
  ghost predicate Continues(p: Pair, later: Pair) {
    && p.received <= later.received && |p.sent| <= |later.sent| && p.primary.log <= later.primary.log
    && (forall k :: |p.received| <= k < |later.received| ==>
          later.received[k] in p.replies || later.received[k].serial >= |p.sent|)
    && (forall k :: 0 <= k < |later.replies| ==> later.replies[k] in p.replies || later.replies[k].serial >= |p.sent|)
  }

  lemma {:induction false} NextContinues(p: Pair, later: Pair, m: Move)
    requires Continues(p, later) && Possible(later, m)
    ensures Continues(p, Next(later, m))
  {
    var n := Next(later, m);
    assert p.primary.log <= n.primary.log;
  }

  lemma {:induction false} RunContinues(p: Pair, later: Pair, run: seq<Move>)
    requires Continues(p, later) && LawfulRun(later, run)
    ensures Continues(p, After(later, run))
    decreases |run|
  {
    if run != [] {
      NextContinues(p, later, run[0]);
      RunContinues(p, Next(later, run[0]), run[1..]);
    }
  }

  /** Lose the replies before the k-th and let that one arrive. */
  ghost function Overtaking(k: nat): seq<Move> {
    if k == 0 then [ReplyArrives] else [ReplyLost] + Overtaking(k - 1)
  }

  lemma {:induction false} OvertakingArrives(p: Pair, k: nat)
    requires k < |p.replies|
    ensures LawfulRun(p, Overtaking(k)) && NeverAsksAgain(Overtaking(k))
    ensures After(p, Overtaking(k)).received == p.received + [p.replies[k]]
    decreases k
  {
    if k == 0 {
      assert [ReplyArrives][1..] == [];
      assert LawfulRun(Next(p, ReplyArrives), []);
    } else {
      OvertakingArrives(Next(p, ReplyLost), k - 1);
      assert Overtaking(k)[0] == ReplyLost && Overtaking(k)[1..] == Overtaking(k - 1);
    }
  }

  /** With a success in flight, one sent before the request can still arrive. */
  lemma {:induction false} InFlightArrives(p: Pair, q: Pair) returns (run: seq<Move>)
    requires Honest(p) && SuccessInFlight(p) && q.replies == p.replies && q.received == p.received
    ensures LawfulRun(q, run) && NeverAsksAgain(run) && !AnsweredSince(p, After(q, run))
  {
    var k :| 0 <= k < |p.replies| && p.replies[k].success;
    run := Overtaking(k);
    OvertakingArrives(q, k);
    assert (p.received + p.replies)[|p.received| + k] == p.replies[k];
    assert After(q, run).received[|p.received|] == p.replies[k];
  }

  lemma {:induction false} ContinuesAnswered(p: Pair, later: Pair)
    requires Continues(p, later) && !SuccessInFlight(p)
    ensures AnsweredSince(p, later)
  {
  }

  lemma {:induction false} AskLogs(p: Pair, m: Move)
    requires Asks(p, m)
    ensures var q := Next(p, m);
            && q.primary.log == p.primary.log + [RequestSent]
            && q.replies == p.replies && q.received == p.received && q.sent == p.sent
            && Continues(p, q)
  {
  }

  /** Whenever the primary asks, in any state the pair can reach: every success it
      then receives was sent after that request, in every continuation and even in
      every one in which it never asks again, if and only if no success was in
      flight when it asked. */
  lemma {:induction false} AnswersLatestIff(before: seq<Move>, m: Move)
    requires LawfulRun(BOOTED, before) && Asks(After(BOOTED, before), m)
    ensures var p := After(BOOTED, before);
            var q := Next(p, m);
            && ((forall run :: LawfulRun(q, run) ==> AnsweredSince(p, After(q, run))) <==> !SuccessInFlight(p))
            && ((forall run :: LawfulRun(q, run) && NeverAsksAgain(run) ==> AnsweredSince(p, After(q, run)))
                <==> !SuccessInFlight(p))
  {
    var p := After(BOOTED, before);
    EveryRunHonest(before);
    AskLogs(p, m);
    AnswersIff(p, Next(p, m));
  }

  lemma {:induction false} AnswersIff(p: Pair, q: Pair)
    requires Honest(p) && q.replies == p.replies && q.received == p.received && Continues(p, q)
    ensures (forall run :: LawfulRun(q, run) ==> AnsweredSince(p, After(q, run))) <==> !SuccessInFlight(p)
    ensures (forall run :: LawfulRun(q, run) && NeverAsksAgain(run) ==> AnsweredSince(p, After(q, run)))
            <==> !SuccessInFlight(p)
  {
    if SuccessInFlight(p) {
      var run := InFlightArrives(p, q);
    } else {
      forall run | LawfulRun(q, run) ensures AnsweredSince(p, After(q, run)) {
        RunContinues(p, q, run);
        ContinuesAnswered(p, After(q, run));
      }
    }
  }

  lemma {:induction false} HeardMonotone(log: seq<Log>, n: nat)
    requires n <= |log|
    ensures |Heard(log[..n])| <= |Heard(log)|
  {
    if n < |log| {
      HeardMonotone(log[..|log| - 1], n);
      assert log[..|log| - 1][..n] == log[..n];
    } else {
      assert log[..n] == log;
    }
  }

  /** A reply recorded beyond p's log is not one p had received. */
  lemma {:induction false} HeardLater(p: Pair, later: Pair, q: nat)
    requires Honest(p) && p.primary.log <= later.primary.log && |p.primary.log| <= q <= |later.primary.log|
    ensures |Heard(later.primary.log[..q])| >= |p.received|
  {
    assert later.primary.log[..q][..|p.primary.log|] == p.primary.log;
    HeardMonotone(later.primary.log[..q], |p.primary.log|);
  }

  lemma {:induction false} LaterStartFresh(p: Pair, later: Pair, i: nat) returns (q: nat, r: Reply)
    requires Honest(p) && Honest(later) && Continues(p, later) && !SuccessInFlight(p)
    requires |p.primary.log| < i < |later.primary.log|
    requires later.primary.log[|p.primary.log|] == RequestSent && later.primary.log[i].StartNotified?
    ensures LetThroughBy(later, i, q, r) && r.serial >= |p.sent|
  {
    assert later.primary.log[..i][|p.primary.log|] == RequestSent;
    q, r := StartNamesReply(later, i);
    HeardLater(p, later, q);
  }

  /** So when none was in flight, every start notified after that request was let
      through by a reply sent after it, from an erased bank. */
  lemma {:induction false} StartAnswersLatest(before: seq<Move>, m: Move, run: seq<Move>, i: nat)
    returns (q: nat, r: Reply)
    requires LawfulRun(BOOTED, before) && Asks(After(BOOTED, before), m) && !SuccessInFlight(After(BOOTED, before))
    requires LawfulRun(Next(After(BOOTED, before), m), run)
    requires var p := After(BOOTED, before);
             var log := After(Next(p, m), run).primary.log;
             |p.primary.log| < i < |log| && log[i].StartNotified?
    ensures var p := After(BOOTED, before);
            var later := After(Next(p, m), run);
            LetThroughBy(later, i, q, r) && r.serial >= |p.sent|
  {
    var p := After(BOOTED, before);
    EveryRunHonest(before);
    NextHonest(p, m);
    RunHonest(Next(p, m), run);
    AskLogs(p, m);
    RunContinues(p, Next(p, m), run);
    RunContinues(Next(p, m), Next(p, m), run);
    q, r := LaterStartFresh(p, After(Next(p, m), run), i);
  }

  // ----- the secondary answers -----------------------------------------------

  /** A request that arrives is answered at once, with one reply, if the bank is
      already erased and can be written or if it cannot be prepared; an erase that
      finishes is answered with its result. Otherwise nothing is sent. */
  lemma {:induction false} SecondaryAnswers(p: Pair, m: Move)
    requires Possible(p, m) && (m.RequestArrives? || m.EraseFinishes?)
    ensures var n := Next(p, m);
            && n.erased == (p.erased || m == EraseFinishes(true))
            && n.requests == (if m.RequestArrives? then p.requests - 1 else p.requests)
            && n.primary == p.primary && n.received == p.received
            && (m.EraseFinishes? || (m.RequestArrives? && (!m.initOk || p.erased)) ==>
                  var r := Reply(|p.sent|, if m.RequestArrives? then m.initOk else m.success, n.erased);
                  n.replies == p.replies + [r] && n.sent == p.sent + [r])
            && (m.RequestArrives? && m.initOk && !p.erased ==> n.replies == p.replies && n.sent == p.sent)
  {
  }

  /** Other moves send no reply. */
  lemma {:induction false} OthersSendNoReply(p: Pair, m: Move)
    requires Possible(p, m) && !m.RequestArrives? && !m.EraseFinishes?
    ensures Next(p, m).sent == p.sent
  {
  }

  /** From request to start when the bank is already erased: ask, answer, hear, and the
      queued start is delivered. */
  ghost function Handshake(startsPeer: bool): seq<Move> {
    [AtPrimary(StartDataInd(true)), AtPrimary(EarlyErase(true, true, false)), RequestArrives(true), ReplyArrives,
     AtPrimary(DeliverStart(startsPeer))]
  }

  /** From any state with an erased bank, nothing in flight and no start queued, the
      handshake ends with the start notified, the peer transfer begun if asked for. */
  lemma {:induction false} HandshakeCompletes(p: Pair, startsPeer: bool)
    requires p.erased && p.requests == 0 && p.replies == [] && p.primary.starts == []
    ensures LawfulRun(p, Handshake(startsPeer))
    ensures var n := After(p, Handshake(startsPeer));
            && n.primary.log == p.primary.log + [StartQueued(p.primary.serial), RequestSent, ReplyReceived(true),
                                                 StartNotified(p.primary.serial)]
                                + (if startsPeer then [TransferStarted] else [])
            && n.requests == 0 && n.replies == [] && n.primary.starts == []
  {
    var run := Handshake(startsPeer);
    var queued, asked := AsksWithStart(p);
    SecondaryAnswers(asked, run[2]);
    var answered := Next(asked, run[2]);
    var heard, started := HearsAndStarts(answered, startsPeer);
    RunOfFive(p, run, queued, asked, answered, heard, started);
  }

  lemma {:induction false} AsksWithStart(p: Pair) returns (queued: Pair, asked: Pair)
    requires p.primary.starts == []
    ensures Possible(p, AtPrimary(StartDataInd(true))) && queued == Next(p, AtPrimary(StartDataInd(true)))
    ensures Possible(queued, AtPrimary(EarlyErase(true, true, false)))
    ensures asked == Next(queued, AtPrimary(EarlyErase(true, true, false)))
    ensures asked == p.(primary := asked.primary, requests := p.requests + 1)
    ensures asked.primary.starts == [p.primary.serial]
    ensures asked.primary.log == p.primary.log + [StartQueued(p.primary.serial), RequestSent]
  {
    queued := Next(p, AtPrimary(StartDataInd(true)));
    asked := Next(queued, AtPrimary(EarlyErase(true, true, false)));
  }

  lemma {:induction false} HearsAndStarts(p: Pair, startsPeer: bool) returns (heard: Pair, started: Pair)
    requires |p.replies| == 1 && p.replies[0].success && |p.primary.starts| == 1
    ensures heard == Next(p, ReplyArrives)
    ensures Possible(heard, AtPrimary(DeliverStart(startsPeer)))
    ensures started == Next(heard, AtPrimary(DeliverStart(startsPeer)))
    ensures started.requests == p.requests && started.replies == [] && started.primary.starts == []
    ensures started.primary.log == p.primary.log + [ReplyReceived(true), StartNotified(p.primary.starts[0])]
                                   + (if startsPeer then [TransferStarted] else [])
  {
    heard := Next(p, ReplyArrives);
    assert heard.primary.starts == p.primary.starts;
    started := Next(heard, AtPrimary(DeliverStart(startsPeer)));
  }

  lemma {:induction false} RunOfFive(p: Pair, run: seq<Move>, a: Pair, b: Pair, c: Pair, d: Pair, e: Pair)
    requires |run| == 5
    requires Possible(p, run[0]) && a == Next(p, run[0]) && Possible(a, run[1]) && b == Next(a, run[1])
    requires Possible(b, run[2]) && c == Next(b, run[2]) && Possible(c, run[3]) && d == Next(c, run[3])
    requires Possible(d, run[4]) && e == Next(d, run[4])
    ensures LawfulRun(p, run) && After(p, run) == e
  {
    var r1, r2, r3, r4 := run[1..], run[2..], run[3..], run[4..];
    assert r4[1..] == [] && LawfulRun(e, []);
    assert r3[1..] == r4 && LawfulRun(d, r4) && After(d, r4) == e;
    assert r2[1..] == r3 && LawfulRun(c, r3) && After(c, r3) == e;
    assert r1[1..] == r2 && LawfulRun(b, r2) && After(b, r2) == e;
    assert LawfulRun(a, r1) && After(a, r1) == e;
  }

  // ----- a late reply --------------------------------------------------------

  lemma {:induction false} Extend(p: Pair, run: seq<Move>, m: Move)
    requires LawfulRun(p, run) && Possible(After(p, run), m)
    ensures LawfulRun(p, run + [m]) && After(p, run + [m]) == Next(After(p, run), m)
    decreases |run|
  {
    if run == [] {
      assert (run + [m])[1..] == [];
    } else {
      assert (run + [m])[1..] == run[1..] + [m];
      Extend(Next(p, run[0]), run[1..], m);
    }
  }

  /** Replies name no request: one sent for an earlier request, and still on its
      way when the primary asks again, lets the start through although the bank
      has been written since. */
  lemma {:induction false} LateReplyUnblocks() returns (run: seq<Move>)
    ensures LawfulRun(BOOTED, run)
    ensures var p := After(BOOTED, run);
            && p.primary.log != [] && p.primary.log[|p.primary.log| - 1] == StartNotified(0)
            && p.requests > 0 && !p.erased
  {
    run := Asked();
    Extend(BOOTED, run, BankWritten);
    run := run + [BankWritten];
    Extend(BOOTED, run, ReplyArrives);
    run := run + [ReplyArrives];
    Extend(BOOTED, run, AtPrimary(StartDataInd(true)));
    run := run + [AtPrimary(StartDataInd(true))];
    Extend(BOOTED, run, AtPrimary(DeliverStart(false)));
    run := run + [AtPrimary(DeliverStart(false))];
  }

  /** Asked once and answered, then asked again before the answer arrives. */
  lemma {:induction false} Asked() returns (run: seq<Move>)
    ensures LawfulRun(BOOTED, run)
    ensures var p := After(BOOTED, run);
            && |p.replies| == 1 && p.replies[0].success
            && p.requests == 1 && p.primary.starts == [] && p.primary.serial == 0
  {
    var ask := AtPrimary(EarlyErase(true, true, false));
    run := [];
    Extend(BOOTED, run, ask);
    run := run + [ask];
    Extend(BOOTED, run, RequestArrives(true));
    run := run + [RequestArrives(true)];
    Extend(BOOTED, run, EraseFinishes(true));
    run := run + [EraseFinishes(true)];
    Extend(BOOTED, run, ask);
    run := run + [ask];
  }
}
