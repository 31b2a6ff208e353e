/**
 * The feature manager's handle table and its nested loops, proved against
 * FeatureManager. A Suspend or Resume callback moves the client's state.
 */
module FeatureTables {
  import opened Common
  import opened FeatureManager

  class FeatureTable {
    const lists: Lists
    var handles: array<Option<Client>>

    constructor (lists: Lists, n: nat)
      ensures this.lists == lists && fresh(handles) && handles[..] == Nobody(n)
    {
      this.lists := lists;
      handles := new Option<Client>[n](_ => None);
      new;
      assert handles[..] == Nobody(n);
    }

    method GetIndex(list: seq<Feature>, id: Feature) returns (index: nat)
      ensures index == Index(list, id)
    {
      var i := 0;
      while i < |list|
        invariant 0 <= i <= |list| && Index(list, id) == IndexFrom(list, id, i)
      {
        if list[i] == id { return i; }
        i := i + 1;
      }
      return INDEX_NOT_FOUND;
    }

    method IsHighestPriorityOnAllLists(id: Feature) returns (top: bool)
      ensures top == TopEverywhere(lists, id)
    {
      top := true;
      var l := 0;
      while l < |lists|
        invariant 0 <= l <= |lists|
        invariant forall m :: 0 <= m < l ==> Index(lists[m], id) == INDEX_NOT_FOUND || Index(lists[m], id) == 0
      {
        var index := GetIndex(lists[l], id);
        if index != INDEX_NOT_FOUND && index > 0 { return false; }
        l := l + 1;
      }
    }

    method IsRunning(id: Feature) returns (running: bool)
      ensures running == In(handles[..], id, Running)
    {
      running := id < handles.Length && handles[id].Some? && handles[id].value.state == Running;
    }

    method IsHigherPriorityFeatureRunning(id: Feature) returns (higher: bool)
      ensures higher == HigherRunning(lists, handles[..], id)
    {
      higher := false;
      var l := 0;
      while l < |lists|
        invariant 0 <= l <= |lists|
        invariant higher <==> exists m :: 0 <= m < l && HigherRunningIn(lists[m], handles[..], id)
      {
        var index := GetIndex(lists[l], id);
        if index != INDEX_NOT_FOUND {
          var p := (index as int) - 1;
          while p >= 0
            invariant -1 <= p < index
            invariant forall q :: p < q < index ==> !In(handles[..], lists[l][q], Running)
          {
            var running := IsRunning(lists[l][p]);
            if running {
              higher := true;
              assert HigherRunningIn(lists[l], handles[..], id);
              break;
            }
            p := p - 1;
          }
        }
        l := l + 1;
      }
    }

    /** Suspend or resume one client, if it is registered and the action applies. */
    method ActOnClient(id: Feature, act: Act)
      modifies handles
      ensures handles[..] == ActOn(lists, old(handles[..]), id, act)
    {
      if id < handles.Length && handles[id].Some? {
        var client := handles[id].value;
        if act == Suspend {
          if client.canSuspend && client.state == Running {
            handles[id] := Some(client.(state := Suspended));
          }
        } else if client.canResume && client.state == FeatureManager.Suspended {
          var higher := IsHigherPriorityFeatureRunning(id);
          if !higher {
            handles[id] := Some(client.(state := Running));
          }
        }
      }
    }

    method PerformActionFrom(list: seq<Feature>, from: nat, act: Act)
      requires from <= |list|
      modifies handles
      ensures handles[..] == ActOnAll(lists, old(handles[..]), list[from..], act)
    {
      var q := from;
      while q < |list|
        invariant from <= q <= |list|
        invariant ActOnAll(lists, old(handles[..]), list[from..], act) == ActOnAll(lists, handles[..], list[q..], act)
      {
        assert list[q..][1..] == list[q + 1..];
        ActOnClient(list[q], act);
        q := q + 1;
      }
    }

    /** The features after id in one list, if it has id. */
    method PerformActionInList(list: seq<Feature>, id: Feature, act: Act)
      modifies handles
      ensures handles[..] == ActOnAll(lists, old(handles[..]), TailAfter(list, id), act)
    {
      var index := GetIndex(list, id);
      if index != INDEX_NOT_FOUND {
        PerformActionFrom(list, index + 1, act);
      }
    }

    method PerformActionOnLowerPriorityFeatures(id: Feature, act: Act)
      modifies handles
      ensures handles[..] == ActOnAll(lists, old(handles[..]), Lower(lists, id), act)
    {
      var l := 0;
      assert lists[0..] == lists;
      while l < |lists|
        invariant 0 <= l <= |lists|
        invariant ActOnAll(lists, old(handles[..]), Lower(lists, id), act)
               == ActOnAll(lists, handles[..], Lower(lists[l..], id), act)
      {
        ActOnNextList(lists, handles[..], l, id, act);
        PerformActionInList(lists[l], id, act);
        l := l + 1;
      }
    }

    /** ok is false when registration panics. */
    method Register(id: Feature, canSuspend: bool, canResume: bool) returns (ok: bool)
      requires id < handles.Length
      modifies handles
      ensures ok <==> Registration(lists, old(handles[..]), id, canSuspend, canResume).Some?
      ensures ok ==> handles[..] == Registration(lists, old(handles[..]), id, canSuspend, canResume).value
    {
      var top := IsHighestPriorityOnAllLists(id);
      ok := handles[id].None? && (top || (canSuspend && canResume));
      if ok {
        handles[id] := Some(Client(Idle, canSuspend, canResume));
      }
    }

    method StartFeatureRequest(id: Feature) returns (canStart: bool)
      modifies handles
      ensures (canStart, handles[..]) == StartRequest(lists, old(handles[..]), id)
    {
      var higher := IsHigherPriorityFeatureRunning(id);
      canStart := !higher;
      if canStart {
        PerformActionOnLowerPriorityFeatures(id, Suspend);
      }
    }

    method StopFeatureIndication(id: Feature)
      modifies handles
      ensures handles[..] == StopIndication(lists, old(handles[..]), id)
    {
      PerformActionOnLowerPriorityFeatures(id, Resume);
    }

    method CanFeatureStart(id: Feature) returns (can: bool)
      ensures can == StartRequest(lists, handles[..], id).0
    {
      var higher := IsHigherPriorityFeatureRunning(id);
      can := !higher;
    }
  }
}
