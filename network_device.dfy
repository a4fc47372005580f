/**
 * A TCP device (src/comm/NetworkDevice.cpp). The socket is abstract:
 * whether it is open, and the receive buffer Boost.Asio fills. Every
 * operation on the socket is an `Event` in the trace.
 */
module NetworkDevice {
  import opened LineFraming
  import opened Retry
  import CommManager

  /** The fixed TCP port every network device is reached on. */
  const DEVICE_PORT: int := 5465

  datatype Event =
    | ConnectAttempt(address: string, port: int)
    | StartRead
    | Callback(command: string)
    | Write(wire: string)
    | CloseSocket

  function ConnectAttempts(n: nat, address: string): (events: seq<Event>)
    ensures |events| == n && forall i :: 0 <= i < n ==> events[i] == ConnectAttempt(address, DEVICE_PORT)
  {
    seq(n, i => ConnectAttempt(address, DEVICE_PORT))
  }

  class NetworkDevice {
    const deviceAddress: string
    const deviceName: string
    const deviceType: int
    var isOpen: bool
    var streambuf: string
    var hasCallback: bool
    ghost var trace: seq<Event>

    /** Record the address, descriptive name and kind; the socket is created closed. */
    constructor (address: string, descriptiveName: string)
      ensures deviceAddress == address && deviceName == descriptiveName
      ensures deviceType == CommManager.DEVICE_NETWORK
      ensures !isOpen && streambuf == [] && !hasCallback && trace == []
    {
      deviceAddress := address;
      deviceName := descriptiveName;
      deviceType := CommManager.DEVICE_NETWORK;
      isOpen := false;
      streambuf := [];
      hasCallback := false;
      trace := [];
    }

    /**
     * Try to connect to port 5465 of the address until the socket is open
     * (`outcomes` says whether each attempt left it open), then start reading.
     */
    method Connect(outcomes: seq<bool>)
      requires EventuallySucceeds(outcomes)
      modifies this`isOpen, this`trace
      ensures isOpen
      ensures trace == old(trace) + ConnectAttempts(FirstSuccess(outcomes) + 1, deviceAddress) + [StartRead]
    {
      var connected := false;
      var k := 0;
      while !connected
        invariant connected ==> isOpen && k == FirstSuccess(outcomes) + 1
        invariant !connected ==> k <= FirstSuccess(outcomes)
        invariant trace == old(trace) + ConnectAttempts(k, deviceAddress)
        decreases |outcomes| - k
      {
        trace := trace + [ConnectAttempt(deviceAddress, DEVICE_PORT)];
        isOpen := outcomes[k];
        connected := isOpen;
        k := k + 1;
      }
      RunAsyncReadUntil();
    }

    method RegisterCallback()
      modifies this`hasCallback
      ensures hasCallback
    {
      hasCallback := true;
    }

    /**
     * Send one message with its delimiter. A failing write (`writeFails`)
     * is caught and logged, so the caller always gets the framed length.
     */
    method WriteData(data: string, writeFails: bool) returns (written: int)
      modifies this`trace
      ensures trace == old(trace) + [Write(Framed(data))]
      ensures written == |data| + 1
    {
      var wire := data + "\n";
      trace := trace + [Write(wire)];
      if writeFails {
        // the system_error is caught here and only logged
      }
      written := |wire|;
    }

    /**
     * Hand the first line, without its delimiter, to the callback, drop the
     * line from the buffer, and read again while the socket is open.
     */
    method ReadHandler(bytesTransferred: nat)
      requires hasCallback
      requires LineReady(streambuf, bytesTransferred)
      modifies this`streambuf, this`trace
      ensures streambuf == old(streambuf)[bytesTransferred..]
      ensures trace == old(trace) + [Callback(LineOf(old(streambuf), bytesTransferred))] + (if isOpen then [StartRead] else [])
    {
      var cmd := streambuf[..bytesTransferred - 1];
      trace := trace + [Callback(cmd)];
      streambuf := streambuf[bytesTransferred..];
      if isOpen {
        RunAsyncReadUntil();
      }
    }

    method RunAsyncReadUntil()
      modifies this`trace
      ensures trace == old(trace) + [StartRead]
    {
      trace := trace + [StartRead];
    }

    /** Boost.Asio appending received bytes to the buffer; not an operation of the source. */
    method Receive(bytes: string)
      modifies this`streambuf
      ensures streambuf == old(streambuf) + bytes
    {
      streambuf := streambuf + bytes;
    }

    method Close()
      modifies this`isOpen, this`trace
      ensures !isOpen && trace == old(trace) + [CloseSocket]
    {
      isOpen := false;
      trace := trace + [CloseSocket];
    }
  }
}
