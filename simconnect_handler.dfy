/**
 * The SimConnect client (src/simconnect/SimConnectHandler.cpp): client event
 * names get numeric ids from a forward map and an inverse map, events are
 * transmitted by id, notifications are translated back to names, and the
 * connection is opened by a loop that another thread can end.
 */
module SimConnectHandler {
  import opened Text
  import opened Retry

  /** The SimConnect SDK calls the handler makes, and the notification it hands on. */
  datatype Call =
    | MapClientEventToSimEvent(eventId: int, eventName: string)
    | AddClientEventToNotificationGroup(eventId: int)
    | TransmitClientEvent(eventId: int, parameter: int)
    | HandleSimconnectNotification(eventName: string, eventData: string)
    | Open
    | SetNotificationGroupPriority
    | Close
    | CallDispatch

  /**
   * The registration invariant: the two maps are inverse to each other and
   * the ids in use are exactly 0 .. n-1.
   */
  predicate Inverse(forward: map<string, int>, inverse: map<int, string>)
  {
    && (forall name :: name in forward ==> forward[name] in inverse && inverse[forward[name]] == name)
    && (forall id :: id in inverse ==> inverse[id] in forward && forward[inverse[id]] == id)
    && (forall id :: id in inverse ==> 0 <= id < |forward|)
    && (forall id :: 0 <= id < |forward| ==> id in inverse)
  }

  /** register_simconnect_event on the maps: a known name changes nothing, a fresh one gets id n. */
  function RegisterEvent(forward: map<string, int>, inverse: map<int, string>, name: string): (map<string, int>, map<int, string>)
  {
    if name in forward then (forward, inverse)
    else (forward[name := |forward|], inverse[|forward| := name])
  }

  /** The maps after registering `names` in order, starting from none. */
  function Registration(names: seq<string>): (map<string, int>, map<int, string>)
    decreases |names|
  {
    if names == [] then (map[], map[])
    else
      var prior := Registration(names[..|names| - 1]);
      RegisterEvent(prior.0, prior.1, names[|names| - 1])
  }

  /** The id trigger_simconnect_event transmits: the mapped one, or 0 for a name never registered. */
  function TransmittedId(forward: map<string, int>, name: string): int
  {
    if name in forward then forward[name] else 0
  }

  /** What a notification with `eventId` and `data` hands on. */
  function NotificationCalls(inverse: map<int, string>, eventId: int, data: int): seq<Call>
  {
    if eventId in inverse then [HandleSimconnectNotification("simconnect:" + inverse[eventId], IntToDecimal(data))]
    else []
  }

  /** Registration keeps the invariant, and gives a fresh name the next id. */
  lemma RegisterEventInverse(forward: map<string, int>, inverse: map<int, string>, name: string)
    requires Inverse(forward, inverse)
    ensures Inverse(RegisterEvent(forward, inverse, name).0, RegisterEvent(forward, inverse, name).1)
    ensures name in RegisterEvent(forward, inverse, name).0
    ensures name !in forward ==> RegisterEvent(forward, inverse, name).0[name] == |forward|
  {
    if name !in forward {
      RegisterFreshInverse(forward, inverse, name);
    }
  }

  lemma RegisterFreshInverse(forward: map<string, int>, inverse: map<int, string>, name: string)
    requires Inverse(forward, inverse) && name !in forward
    ensures Inverse(forward[name := |forward|], inverse[|forward| := name])
  {
    var n := |forward|;
    var f := forward[name := n];
    var i := inverse[n := name];
    assert n !in inverse;
    assert |f| == n + 1;
    forall m | m in f
      ensures f[m] in i && i[f[m]] == m
    {
      if m != name {
        assert forward[m] in inverse;
      }
    }
    forall id | id in i
      ensures i[id] in f && f[i[id]] == id
    {
      if id != n {
        assert inverse[id] in forward;
      }
    }
    assert forall id :: id in i ==> 0 <= id < |f|;
    assert forall id :: 0 <= id < |f| ==> id in i;
  }

  /** Registering names in order keeps the invariant. */
  lemma {:induction false} RegistrationInverse(names: seq<string>)
    ensures Inverse(Registration(names).0, Registration(names).1)
    decreases |names|
  {
    if names != [] {
      var prior := Registration(names[..|names| - 1]);
      RegistrationInverse(names[..|names| - 1]);
      RegisterEventInverse(prior.0, prior.1, names[|names| - 1]);
    }
  }

  /** Distinct names registered in order get the ids 0 .. n-1 in that order, in both maps. */
  lemma {:induction false} RegistrationOrder(names: seq<string>)
    requires forall i, j :: 0 <= i < j < |names| ==> names[i] != names[j]
    ensures |Registration(names).0| == |names|
    ensures forall i :: 0 <= i < |names| ==>
      names[i] in Registration(names).0 && Registration(names).0[names[i]] == i
      && i in Registration(names).1 && Registration(names).1[i] == names[i]
    decreases |names|
  {
    if names != [] {
      var front := names[..|names| - 1];
      var last := names[|names| - 1];
      RegistrationOrder(front);
      RegistrationInverse(front);
      var prior := Registration(front);
      assert last !in prior.0 by {
        forall k | k in prior.1
          ensures prior.1[k] != last
        {
          assert 0 <= k < |front|;
          assert prior.1[k] == front[k];
        }
      }
      forall i | 0 <= i < |names| - 1
        ensures front[i] == names[i]
      {
      }
    }
  }

  /** A notification for a registered name is handed on under that name, with a value that parses back. */
  lemma NotificationOfRegistered(forward: map<string, int>, inverse: map<int, string>, name: string, data: int)
    requires Inverse(forward, inverse) && name in forward
    requires INT32_MIN <= data <= INT32_MAX
    ensures NotificationCalls(inverse, forward[name], data) == [HandleSimconnectNotification("simconnect:" + name, IntToDecimal(data))]
    ensures StoiDefined(IntToDecimal(data)) && Stoi(IntToDecimal(data)) == data
  {
    StoiOfToString(data);
  }

  /**
   * Triggering a name never registered inserts it with id 0 into the forward
   * map only, which breaks the invariant, and transmits the event registered
   * first when there is one.
   */
  lemma TriggerUnregistered(forward: map<string, int>, inverse: map<int, string>, name: string)
    requires Inverse(forward, inverse) && name !in forward
    ensures !Inverse(forward[name := 0], inverse)
    ensures TransmittedId(forward, name) == 0
    ensures |forward| > 0 ==> 0 in inverse && inverse[TransmittedId(forward, name)] != name
    ensures |forward| == 0 ==> TransmittedId(forward, name) !in inverse
  {
    var n := |forward|;
    assert |forward[name := 0]| == n + 1;
    assert n !in inverse;
    if |forward| > 0 {
      assert 0 in inverse;
      assert inverse[0] in forward;
    }
  }

  /** One Open attempt of the connect loop, and whether close_simconnect ran on another thread meanwhile. */
  datatype OpenAttempt = OpenAttempt(succeeded: bool, closedMeanwhile: bool)

  /** Whether the loop stops after each attempt, given the flag it starts with. */
  function Stops(attempts: seq<OpenAttempt>, startupQuery: bool): seq<bool>
  {
    seq(|attempts|, i requires 0 <= i < |attempts| => attempts[i].succeeded || attempts[i].closedMeanwhile || !startupQuery)
  }

  /**
   * Where the open loop stops: with the flag already cleared, after the first
   * attempt; otherwise at the first attempt that succeeded or saw a close,
   * every earlier one having failed without a close.
   */
  lemma OpenLoopStop(attempts: seq<OpenAttempt>, startupQuery: bool)
    requires EventuallySucceeds(Stops(attempts, startupQuery))
    ensures !startupQuery ==> FirstSuccess(Stops(attempts, startupQuery)) == 0
    ensures startupQuery ==>
      var k := FirstSuccess(Stops(attempts, startupQuery));
      && (attempts[k].succeeded || attempts[k].closedMeanwhile)
      && forall j :: 0 <= j < k ==> !attempts[j].succeeded && !attempts[j].closedMeanwhile
  {
    var stops := Stops(attempts, startupQuery);
    var k := FirstSuccess(stops);
    assert stops[k];
    assert |stops| == |attempts|;
    forall j | 0 <= j < k
      ensures !attempts[j].succeeded && !attempts[j].closedMeanwhile
    {
      assert !stops[j];
    }
    if !startupQuery {
      assert stops[0];
    }
  }

  function OpenCalls(n: nat): (calls: seq<Call>)
    ensures |calls| == n && forall i :: 0 <= i < n ==> calls[i] == Open
  {
    seq(n, i => Open)
  }

  class Handler {
    var eventMap: map<string, int>
    var invEventMap: map<int, string>
    var startupQuery: bool
    ghost var trace: seq<Call>

    constructor ()
      ensures eventMap == map[] && invEventMap == map[] && startupQuery && trace == []
    {
      eventMap := map[];
      invEventMap := map[];
      startupQuery := true;
      trace := [];
    }

    /** A known name is left alone; a fresh one gets the next id in both maps and is mapped in the SDK. */
    method RegisterSimconnectEvent(name: string)
      modifies this`eventMap, this`invEventMap, this`trace
      ensures (eventMap, invEventMap) == RegisterEvent(old(eventMap), old(invEventMap), name)
      ensures old(Inverse(eventMap, invEventMap)) ==> Inverse(eventMap, invEventMap)
      ensures trace == old(trace) + (if name in old(eventMap) then [] else [MapClientEventToSimEvent(|old(eventMap)|, name)])
    {
      if Inverse(eventMap, invEventMap) {
        RegisterEventInverse(eventMap, invEventMap, name);
      }
      if name in eventMap {
        return;
      }
      var eventId := |eventMap|;
      eventMap := eventMap[name := eventId];
      invEventMap := invEventMap[eventId := name];
      trace := trace + [MapClientEventToSimEvent(eventId, name)];
    }

    /** Register the name, then add its id to the notification group. */
    method RegisterSimconnectNotification(name: string)
      modifies this`eventMap, this`invEventMap, this`trace
      ensures (eventMap, invEventMap) == RegisterEvent(old(eventMap), old(invEventMap), name)
      ensures name in eventMap
      ensures trace == old(trace)
        + (if name in old(eventMap) then [] else [MapClientEventToSimEvent(|old(eventMap)|, name)])
        + [AddClientEventToNotificationGroup(eventMap[name])]
    {
      RegisterSimconnectEvent(name);
      var eventId := eventMap[name];
      trace := trace + [AddClientEventToNotificationGroup(eventId)];
    }

    /** Translate a notification id back to its name; an unknown id is dropped. */
    method HandleInternalSimconnectNotification(eventId: int, data: int)
      modifies this`trace
      ensures trace == old(trace) + NotificationCalls(invEventMap, eventId, data)
    {
      if eventId !in invEventMap {
        return;
      }
      var eventName := invEventMap[eventId];
      trace := trace + [HandleSimconnectNotification("simconnect:" + eventName, IntToDecimal(data))];
    }

    /** Transmit by id; looking an unregistered name up inserts it with id 0 into the forward map. */
    method TriggerSimconnectEvent(name: string, parameter: int)
      modifies this`eventMap, this`trace
      ensures name in old(eventMap) ==> eventMap == old(eventMap)
      ensures name !in old(eventMap) ==> eventMap == old(eventMap)[name := 0]
      ensures trace == old(trace) + [TransmitClientEvent(TransmittedId(old(eventMap), name), parameter)]
    {
      if name !in eventMap {
        eventMap := eventMap[name := 0];
      }
      var eventId := eventMap[name];
      trace := trace + [TransmitClientEvent(eventId, parameter)];
    }

    /**
     * Try to open until an attempt succeeds or the flag is found cleared;
     * set the group priority only if the flag is still set.
     */
    method InitSimconnectEvents(attempts: seq<OpenAttempt>)
      requires EventuallySucceeds(Stops(attempts, startupQuery))
      modifies this`startupQuery, this`trace
      ensures var n := FirstSuccess(Stops(attempts, old(startupQuery))) + 1;
        && startupQuery == (old(startupQuery) && forall j :: 0 <= j < n ==> !attempts[j].closedMeanwhile)
        && (startupQuery ==> attempts[n - 1].succeeded)
        && trace == old(trace) + OpenCalls(n) + (if startupQuery then [SetNotificationGroupPriority] else [])
    {
      ghost var stops := Stops(attempts, startupQuery);
      ghost var first := FirstSuccess(stops);
      assert |stops| == |attempts|;
      var done := false;
      var k := 0;
      while !done
        invariant k <= first + 1
        invariant done ==> k == first + 1
        invariant !done ==> k <= first
        invariant !done ==> forall j :: 0 <= j < k ==> !stops[j]
        invariant !done && k > 0 ==> startupQuery
        invariant startupQuery == (old(startupQuery) && forall j :: 0 <= j < k ==> !attempts[j].closedMeanwhile)
        invariant done && startupQuery ==> attempts[k - 1].succeeded
        invariant trace == old(trace) + OpenCalls(k)
        decreases |attempts| - k
      {
        trace := trace + [Open];
        var attempt := attempts[k];
        assert stops[k] == (attempt.succeeded || attempt.closedMeanwhile || !old(startupQuery));
        if attempt.closedMeanwhile {
          startupQuery := false;
        }
        done := attempt.succeeded || !startupQuery;
        k := k + 1;
      }
      if startupQuery {
        trace := trace + [SetNotificationGroupPriority];
      }
    }

    method CloseSimconnect()
      modifies this`startupQuery, this`trace
      ensures !startupQuery && trace == old(trace) + [Close]
    {
      startupQuery := false;
      trace := trace + [Close];
    }

    method Tick()
      modifies this`trace
      ensures trace == old(trace) + [CallDispatch]
    {
      trace := trace + [CallDispatch];
    }
  }
}
