/**
 * The feature manager: features in several priority lists; a start suspends
 * the lower-priority features that run, a stop resumes suspended ones. `Clients`
 * holds one entry per feature id; a feature that never registered has none.
 */
module FeatureManager {
  import opened Common

  type Feature = nat
  type Lists = seq<seq<Feature>>

  const INDEX_NOT_FOUND: nat := 0xFF

  datatype State = Idle | Running | Suspended

  /** A registered client: its state and which optional callbacks it supplied. */
  datatype Client = Client(state: State, canSuspend: bool, canResume: bool)

  type Clients = seq<Option<Client>>

  datatype Act = Suspend | Resume

  /** What clients do: register, ask to start (and run when granted), stop and say so. */
  datatype Move = Register(f: Feature, canSuspend: bool, canResume: bool) | Start(f: Feature) | Stop(f: Feature)

  predicate Registered(c: Clients, f: Feature) { f < |c| && c[f].Some? }

  predicate In(c: Clients, f: Feature, st: State) { Registered(c, f) && c[f].value.state == st }

  function Set(c: Clients, f: Feature, st: State): (r: Clients)
    requires Registered(c, f)
    ensures |r| == |c|
  {
    c[f := Some(c[f].value.(state := st))]
  }

  // ----- priorities ----------------------------------------------------------

  /** First position of f at or after i; INDEX_NOT_FOUND if there is none. */
  function IndexFrom(list: seq<Feature>, f: Feature, i: nat): (r: nat)
    requires i <= |list|
    ensures r == INDEX_NOT_FOUND || (i <= r < |list| && list[r] == f)
    ensures |list| <= INDEX_NOT_FOUND && r == INDEX_NOT_FOUND ==> f !in list[i..]
    ensures forall k :: i <= k < r && k < |list| ==> list[k] != f
    decreases |list| - i
  {
    if i == |list| then INDEX_NOT_FOUND
    else if list[i] == f then i
    else IndexFrom(list, f, i + 1)
  }

  function Index(list: seq<Feature>, f: Feature): nat { IndexFrom(list, f, 0) }

  /** Every list puts f first or does not have it. */
  predicate TopEverywhere(lists: Lists, f: Feature) {
    forall l :: 0 <= l < |lists| ==> Index(lists[l], f) == INDEX_NOT_FOUND || Index(lists[l], f) == 0
  }

  /** A feature listed before f in some list runs. */
  predicate HigherRunning(lists: Lists, c: Clients, f: Feature) {
    exists l :: 0 <= l < |lists| && HigherRunningIn(lists[l], c, f)
  }

  predicate HigherRunningIn(list: seq<Feature>, c: Clients, f: Feature) {
    && Index(list, f) != INDEX_NOT_FOUND
    && exists p :: 0 <= p < Index(list, f) && In(c, list[p], Running)
  }

  function TailAfter(list: seq<Feature>, f: Feature): seq<Feature> {
    var i := Index(list, f);
    if i == INDEX_NOT_FOUND || i >= |list| then [] else list[i + 1..]
  }

  /** The features below f, list by list, in the order the manager visits them. */
  function Lower(lists: Lists, f: Feature): seq<Feature> {
    if lists == [] then [] else TailAfter(lists[0], f) + Lower(lists[1..], f)
  }

  // ----- callbacks -----------------------------------------------------------

  function ActOn(lists: Lists, c: Clients, h: Feature, act: Act): (r: Clients)
    ensures |r| == |c|
  {
    if !Registered(c, h) then c
    else match act
      case Suspend =>
        if c[h].value.canSuspend && c[h].value.state == Running then Set(c, h, Suspended) else c
      case Resume =>
        if c[h].value.canResume && c[h].value.state == Suspended && !HigherRunning(lists, c, h)
        then Set(c, h, Running) else c
  }

  function ActOnAll(lists: Lists, c: Clients, visits: seq<Feature>, act: Act): (r: Clients)
    ensures |r| == |c|
    decreases |visits|
  {
    if visits == [] then c else ActOnAll(lists, ActOn(lists, c, visits[0], act), visits[1..], act)
  }

  /** Visiting two sequences in turn is visiting them joined. */
  lemma {:induction false} ActInTwo(lists: Lists, c: Clients, a: seq<Feature>, b: seq<Feature>, act: Act)
    ensures ActOnAll(lists, c, a + b, act) == ActOnAll(lists, ActOnAll(lists, c, a, act), b, act)
    decreases |a|
  {
    if a == [] {
      assert a + b == b;
    } else {
      assert (a + b)[1..] == a[1..] + b;
      ActInTwo(lists, ActOn(lists, c, a[0], act), a[1..], b, act);
    }
  }

  lemma {:induction false} ActOnNextList(lists: Lists, c: Clients, l: nat, f: Feature, act: Act)
    requires l < |lists|
    ensures ActOnAll(lists, c, Lower(lists[l..], f), act)
         == ActOnAll(lists, ActOnAll(lists, c, TailAfter(lists[l], f), act), Lower(lists[l + 1..], f), act)
  {
    assert lists[l..][1..] == lists[l + 1..];
    ActInTwo(lists, c, TailAfter(lists[l], f), Lower(lists[l + 1..], f), act);
  }

  lemma {:induction false} ActOnNext(lists: Lists, c: Clients, visits: seq<Feature>, m: nat, act: Act)
    requires m < |visits|
    ensures ActOnAll(lists, c, visits[m..], act)
         == ActOnAll(lists, ActOn(lists, c, visits[m], act), visits[m + 1..], act)
  {
    assert visits[m..][1..] == visits[m + 1..];
  }

  // ----- requests ------------------------------------------------------------

  function StartRequest(lists: Lists, c: Clients, f: Feature): (r: (bool, Clients))
    ensures |r.1| == |c|
  {
    if HigherRunning(lists, c, f) then (false, c)
    else (true, ActOnAll(lists, c, Lower(lists, f), Suspend))
  }

  function StopIndication(lists: Lists, c: Clients, f: Feature): (r: Clients)
    ensures |r| == |c|
  {
    ActOnAll(lists, c, Lower(lists, f), Resume)
  }

  /** None is a panic: a second registration, or a feature below the top of a
      list that lacks a callback. */
  function Registration(lists: Lists, c: Clients, f: Feature, canSuspend: bool, canResume: bool): (r: Option<Clients>)
    requires f < |c|
    ensures r.Some? ==> |r.value| == |c|
  {
    if c[f].Some? || !(TopEverywhere(lists, f) || (canSuspend && canResume)) then None
    else Some(c[f := Some(Client(Idle, canSuspend, canResume))])
  }

  /** One move of a client; moves by features that have no handle change nothing. */
  function Step(lists: Lists, c: Clients, m: Move): (r: Option<Clients>)
    ensures r.Some? ==> |r.value| == |c|
  {
    match m
    case Register(f, canSuspend, canResume) =>
      if f < |c| then Registration(lists, c, f, canSuspend, canResume) else Some(c)
    case Start(f) =>
      if !Registered(c, f) then Some(c)
      else
        var (granted, c') := StartRequest(lists, c, f);
        if granted && Registered(c', f) then Some(Set(c', f, Running)) else Some(c')
    case Stop(f) =>
      if !Registered(c, f) then Some(c) else Some(StopIndication(lists, Set(c, f, Idle), f))
  }

  function Nobody(n: nat): (c: Clients)
    ensures |c| == n && forall f :: 0 <= f < n ==> c[f].None?
  {
    seq(n, _ => None)
  }

  function RunMoves(lists: Lists, n: nat, moves: seq<Move>): (r: Option<Clients>)
    ensures r.Some? ==> |r.value| == n
  {
    if moves == [] then Some(Nobody(n))
    else
      var c := RunMoves(lists, n, moves[..|moves| - 1]);
      if c.None? then None else Step(lists, c.value, moves[|moves| - 1])
  }
}
