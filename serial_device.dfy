/**
 * A serial-port device (src/comm/SerialDevice.cpp). The port itself is
 * abstract: whether it is open, and the receive buffer Boost.Asio fills.
 * Every operation on the port is an `Event` in the trace.
 */
module SerialDevice {
  import opened Wrappers
  import opened LineFraming
  import opened Retry
  import CommManager

  datatype Event =
    | OpenAttempt(portName: string)
    | SetBaudRate(baudRate: int)
    | StartRead
    | Callback(command: string)
    | Write(wire: string)
    | ClosePort

  /** The exception boost::asio::write throws when the port write fails. */
  datatype WriteError = SystemError

  function OpenAttempts(n: nat, portName: string): (events: seq<Event>)
    ensures |events| == n && forall i :: 0 <= i < n ==> events[i] == OpenAttempt(portName)
  {
    seq(n, i => OpenAttempt(portName))
  }

  class SerialDevice {
    const deviceAddress: string
    const deviceName: string
    const deviceType: int
    const baudRate: int
    var isOpen: bool
    var streambuf: string
    var hasCallback: bool
    ghost var trace: seq<Event>

    /** Record the port name, descriptive name, kind and baud rate; the port is created closed. */
    constructor (portName: string, descriptiveName: string, baudRate: int)
      ensures deviceAddress == portName && deviceName == descriptiveName
      ensures deviceType == CommManager.DEVICE_SERIAL && this.baudRate == baudRate
      ensures !isOpen && streambuf == [] && !hasCallback && trace == []
    {
      deviceAddress := portName;
      deviceName := descriptiveName;
      deviceType := CommManager.DEVICE_SERIAL;
      this.baudRate := baudRate;
      isOpen := false;
      streambuf := [];
      hasCallback := false;
      trace := [];
    }

    /**
     * Try to open the port until it is open (`outcomes` says whether each
     * attempt left it open); only then set the baud rate and start reading.
     */
    method Connect(outcomes: seq<bool>)
      requires EventuallySucceeds(outcomes)
      modifies this`isOpen, this`trace
      ensures isOpen
      ensures trace == old(trace) + OpenAttempts(FirstSuccess(outcomes) + 1, deviceAddress) + [SetBaudRate(baudRate), StartRead]
    {
      var connected := false;
      var k := 0;
      while !connected
        invariant connected ==> isOpen && k == FirstSuccess(outcomes) + 1
        invariant !connected ==> k <= FirstSuccess(outcomes)
        invariant trace == old(trace) + OpenAttempts(k, deviceAddress)
        decreases |outcomes| - k
      {
        trace := trace + [OpenAttempt(deviceAddress)];
        isOpen := outcomes[k];
        connected := isOpen;
        k := k + 1;
      }
      trace := trace + [SetBaudRate(baudRate)];
      RunAsyncReadUntil();
    }

    method RegisterCallback()
      modifies this`hasCallback
      ensures hasCallback
    {
      hasCallback := true;
    }

    /**
     * Send one message with its delimiter. The write is not guarded, so a
     * failing write (`writeFails`) reaches the caller as an exception.
     */
    method WriteData(data: string, writeFails: bool) returns (r: Result<int, WriteError>)
      modifies this`trace
      ensures trace == old(trace) + [Write(Framed(data))]
      ensures writeFails <==> r.Failure?
      ensures !writeFails ==> r == Success(|data| + 1)
    {
      var wire := data + "\n";
      trace := trace + [Write(wire)];
      if writeFails {
        return Failure(SystemError);
      }
      return Success(|wire|);
    }

    /**
     * Hand the first line, without its delimiter, to the callback, drop the
     * line from the buffer, and read again while the port is open.
     */
    method ReadHandler(bytesTransferred: nat)
      requires hasCallback
      requires LineReady(streambuf, bytesTransferred)
      modifies this`streambuf, this`trace
      ensures streambuf == old(streambuf)[bytesTransferred..]
      ensures trace == old(trace) + [Callback(LineOf(old(streambuf), bytesTransferred))] + (if isOpen then [StartRead] else [])
    {
      var cmd := streambuf[..bytesTransferred - 1];
      trace := trace + [Callback(cmd)];
      streambuf := streambuf[bytesTransferred..];
      if isOpen {
        RunAsyncReadUntil();
      }
    }

    method RunAsyncReadUntil()
      modifies this`trace
      ensures trace == old(trace) + [StartRead]
    {
      trace := trace + [StartRead];
    }

    /** Boost.Asio appending received bytes to the buffer; not an operation of the source. */
    method Receive(bytes: string)
      modifies this`streambuf
      ensures streambuf == old(streambuf) + bytes
    {
      streambuf := streambuf + bytes;
    }

    method Close()
      modifies this`isOpen, this`trace
      ensures !isOpen && trace == old(trace) + [ClosePort]
    {
      isOpen := false;
      trace := trace + [ClosePort];
    }
  }
}
