/**
 * The TCP connection to the X-Plane plugin (src/xp/xpnetconn.cpp): a
 * connect-until-open loop, newline-framed reads whose lines are split on
 * ':' and handed to the event router, and unchecked writes.
 */
module XPlaneConnection {
  import opened Text
  import opened LineFraming
  import opened Retry

  /** The TCP port the plugin listens on. */
  const PLUGIN_PORT: int := 5465

  datatype Event =
    | ConnectAttempt(host: string, port: int)
    | StartRead
    | StartIoThread
    | HandleReadEvent(eventName: string, eventValue: string)
    | Write(message: string)
    | CloseSocket

  /** A line the router call can be built from: at least three ':'-separated fields. */
  predicate WellFormed(message: string)
  {
    |Split(message, ':')| >= 3
  }

  /** The router call for a line "plugin:ref:value": the first two fields rejoined, then the third. */
  function ReadEventArgs(message: string): (string, string)
    requires WellFormed(message)
  {
    var fields := Split(message, ':');
    (fields[0] + ":" + fields[1], fields[2])
  }

  function ConnectAttempts(n: nat, host: string): (events: seq<Event>)
    ensures |events| == n && forall i :: 0 <= i < n ==> events[i] == ConnectAttempt(host, PLUGIN_PORT)
  {
    seq(n, i => ConnectAttempt(host, PLUGIN_PORT))
  }

  /** A value line with colon-free fields reaches the router as ("plugin:ref", value). */
  lemma ReadEventOfFields(plugin: string, ref: string, value: string)
    requires ':' !in plugin && ':' !in ref && ':' !in value
    ensures WellFormed(plugin + ":" + ref + ":" + value)
    ensures ReadEventArgs(plugin + ":" + ref + ":" + value) == (plugin + ":" + ref, value)
  {
    var message := plugin + ":" + ref + ":" + value;
    assert message == plugin + [':'] + (ref + [':'] + value);
    SplitAtFirst(plugin, ':', ref + [':'] + value);
    SplitAtFirst(ref, ':', value);
    SplitNoSeparator(value, ':');
  }

  /** Whatever follows a third ':' is dropped. */
  lemma ReadEventDropsRest(plugin: string, ref: string, value: string, rest: string)
    requires ':' !in plugin && ':' !in ref && ':' !in value
    ensures WellFormed(plugin + ":" + ref + ":" + value + ":" + rest)
    ensures ReadEventArgs(plugin + ":" + ref + ":" + value + ":" + rest) == (plugin + ":" + ref, value)
  {
    var message := plugin + ":" + ref + ":" + value + ":" + rest;
    assert message == plugin + [':'] + (ref + [':'] + (value + [':'] + rest));
    SplitAtFirst(plugin, ':', ref + [':'] + (value + [':'] + rest));
    SplitAtFirst(ref, ':', value + [':'] + rest);
    SplitAtFirst(value, ':', rest);
  }

  class Connection {
    var isOpen: bool
    var streambuf: string
    ghost var trace: seq<Event>

    constructor ()
      ensures !isOpen && streambuf == [] && trace == []
    {
      isOpen := false;
      streambuf := [];
      trace := [];
    }

    /**
     * Create a fresh socket and try port 5465 of `host` until it is open
     * (`outcomes` says whether each attempt left it open), then start reading
     * and start the I/O thread.
     */
    method Connect(host: string, outcomes: seq<bool>)
      requires EventuallySucceeds(outcomes)
      modifies this`isOpen, this`trace
      ensures isOpen
      ensures trace == old(trace) + ConnectAttempts(FirstSuccess(outcomes) + 1, host) + [StartRead, StartIoThread]
    {
      isOpen := false;
      var connected := false;
      var k := 0;
      while !connected
        invariant connected ==> isOpen && k == FirstSuccess(outcomes) + 1
        invariant !connected ==> k <= FirstSuccess(outcomes)
        invariant trace == old(trace) + ConnectAttempts(k, host)
        decreases |outcomes| - k
      {
        trace := trace + [ConnectAttempt(host, PLUGIN_PORT)];
        isOpen := outcomes[k];
        connected := isOpen;
        k := k + 1;
      }
      RunAsyncReadUntil();
      trace := trace + [StartIoThread];
    }

    method Disconnect()
      modifies this`isOpen, this`trace
      ensures !isOpen && trace == old(trace) + [CloseSocket]
    {
      isOpen := false;
      trace := trace + [CloseSocket];
    }

    /** Split a received line on ':' and hand the first two fields, rejoined, and the third to the router. */
    method HandleReadEventLine(message: string)
      requires WellFormed(message)
      modifies this`trace
      ensures trace == old(trace) + [HandleReadEvent(ReadEventArgs(message).0, ReadEventArgs(message).1)]
    {
      var split := Split(message, ':');
      trace := trace + [HandleReadEvent(split[0] + ":" + split[1], split[2])];
    }

    /** Pass the first line, without its delimiter, on; drop it from the buffer; read again while open. */
    method ReadHandler(bytesTransferred: nat)
      requires LineReady(streambuf, bytesTransferred)
      requires WellFormed(LineOf(streambuf, bytesTransferred))
      modifies this`streambuf, this`trace
      ensures streambuf == old(streambuf)[bytesTransferred..]
      ensures var args := ReadEventArgs(LineOf(old(streambuf), bytesTransferred));
        trace == old(trace) + [HandleReadEvent(args.0, args.1)] + (if isOpen then [StartRead] else [])
    {
      var cmd := streambuf[..bytesTransferred - 1];
      HandleReadEventLine(cmd);
      streambuf := streambuf[bytesTransferred..];
      if isOpen {
        RunAsyncReadUntil();
      }
    }

    method RunAsyncReadUntil()
      modifies this`trace
      ensures trace == old(trace) + [StartRead]
    {
      trace := trace + [StartRead];
    }

    /** Boost.Asio appending received bytes to the buffer; not an operation of the source. */
    method Receive(bytes: string)
      modifies this`streambuf
      ensures streambuf == old(streambuf) + bytes
    {
      streambuf := streambuf + bytes;
    }

    /** Write the message as it is; a write error is only logged. */
    method SendMessage(message: string)
      modifies this`trace
      ensures trace == old(trace) + [Write(message)]
    {
      trace := trace + [Write(message)];
    }
  }
}
