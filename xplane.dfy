/**
 * The X-Plane backend (src/xp/xplane.cpp): write commands are formatted and
 * queued, and each tick sends at most one of them, oldest first; read
 * subscriptions are sent at once.
 */
module XPlane {
  import opened Text
  import opened LineFraming

  /** The calls into the plugin connection (src/xp/xpnetconn.cpp). */
  datatype Call =
    | Connect(host: string)
    | SendMessage(message: string)
    | Disconnect

  /** The command that sets a dataref or runs a command in the plugin. */
  function WriteMessage(eventName: string, parameter: string): string
  {
    "write:" + eventName + ":" + parameter + "\n"
  }

  /** The subscription request for a dataref. */
  function ReadMessage(ref: string): string
  {
    "read:" + ref + "\n"
  }

  /**
   * A write command is one framed line whose ':'-separated fields are the
   * verb, the name and the parameter, so a receiver splitting the line gets
   * back what was queued, as long as neither part contains ':' or a newline.
   */
  lemma WriteMessageFields(eventName: string, parameter: string)
    requires ':' !in eventName && ':' !in parameter
    requires DELIMITER !in eventName && DELIMITER !in parameter
    ensures WriteMessage(eventName, parameter) == Framed("write:" + eventName + ":" + parameter)
    ensures DELIMITER !in "write:" + eventName + ":" + parameter
    ensures Split("write:" + eventName + ":" + parameter, ':') == ["write", eventName, parameter]
  {
    var line := "write:" + eventName + ":" + parameter;
    assert line == "write" + [':'] + (eventName + [':'] + parameter);
    SplitAtFirst("write", ':', eventName + [':'] + parameter);
    SplitAtFirst(eventName, ':', parameter);
    SplitNoSeparator(parameter, ':');
  }

  /** The messages `ticks` ticks send from `queue`: one per tick, front first, none once it is empty. */
  function Sent(queue: seq<string>, ticks: nat): seq<string>
    decreases ticks
  {
    if ticks == 0 || queue == [] then [] else [queue[0]] + Sent(queue[1..], ticks - 1)
  }

  /** The queue left after `ticks` ticks. */
  function Left(queue: seq<string>, ticks: nat): seq<string>
    decreases ticks
  {
    if ticks == 0 || queue == [] then queue else Left(queue[1..], ticks - 1)
  }

  function SendAll(messages: seq<string>): (calls: seq<Call>)
    ensures |calls| == |messages| && forall i :: 0 <= i < |messages| ==> calls[i] == SendMessage(messages[i])
  {
    seq(|messages|, i requires 0 <= i < |messages| => SendMessage(messages[i]))
  }

  /** Ticks send a prefix of the queue, in order, and leave exactly the rest. */
  lemma {:induction false} TicksSendPrefix(queue: seq<string>, ticks: nat)
    ensures var n := if ticks < |queue| then ticks else |queue|;
      Sent(queue, ticks) == queue[..n] && Left(queue, ticks) == queue[n..]
    decreases ticks
  {
    if ticks > 0 && queue != [] {
      TicksSendPrefix(queue[1..], ticks - 1);
      assert [queue[0]] + queue[1..][..if ticks - 1 < |queue| - 1 then ticks - 1 else |queue| - 1]
          == queue[..if ticks < |queue| then ticks else |queue|];
    }
  }

  /** Running ticks in two batches sends what running them in one does. */
  lemma {:induction false} TicksCompose(queue: seq<string>, a: nat, b: nat)
    ensures Sent(queue, a + b) == Sent(queue, a) + Sent(Left(queue, a), b)
    ensures Left(queue, a + b) == Left(Left(queue, a), b)
    decreases a
  {
    if a > 0 && queue != [] {
      TicksCompose(queue[1..], a - 1, b);
    }
  }

  /** FIFO: commands queued behind a backlog are all sent, after it and in the order they were queued. */
  lemma Fifo(backlog: seq<string>, messages: seq<string>)
    ensures Sent(backlog + messages, |backlog| + |messages|) == backlog + messages
    ensures Left(backlog + messages, |backlog| + |messages|) == []
  {
    TicksSendPrefix(backlog + messages, |backlog| + |messages|);
  }

  class CommandQueue {
    var queue: seq<string>
    ghost var trace: seq<Call>

    constructor ()
      ensures queue == [] && trace == []
    {
      queue := [];
      trace := [];
    }

    method InitXPlane(remoteAddress: string)
      modifies this`trace
      ensures trace == old(trace) + [Connect(remoteAddress)]
    {
      trace := trace + [Connect(remoteAddress)];
    }

    /** Subscribe to a dataref: sent immediately, not queued. */
    method RegisterRead(ref: string)
      modifies this`trace
      ensures trace == old(trace) + [SendMessage(ReadMessage(ref))]
    {
      trace := trace + [SendMessage("read:" + ref + "\n")];
    }

    method CloseXPlane()
      modifies this`trace
      ensures trace == old(trace) + [Disconnect]
    {
      trace := trace + [Disconnect];
    }

    /** Send the oldest queued command, if there is one. */
    method Tick()
      modifies this
      ensures queue == Left(old(queue), 1)
      ensures trace == old(trace) + SendAll(Sent(old(queue), 1))
    {
      if queue != [] {
        var message := queue[0];
        queue := queue[1..];
        trace := trace + [SendMessage(message)];
      }
    }

    /** Queue a write command at the back; nothing is sent yet. */
    method TriggerXPlaneEvent(eventName: string, parameter: string)
      modifies this`queue
      ensures queue == old(queue) + [WriteMessage(eventName, parameter)]
    {
      var message := "write:" + eventName + ":" + parameter + "\n";
      queue := queue + [message];
    }
  }
}
