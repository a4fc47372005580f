/**
 * Newline framing shared by the device transports (src/comm/SerialDevice.cpp,
 * src/comm/NetworkDevice.cpp) and the X-Plane plugin connection
 * (src/xp/xpnetconn.cpp): a sender appends '\n' to every message, and the
 * receive handler is handed the byte count of the first complete line,
 * delimiter included, by async_read_until.
 */
module LineFraming {
  import opened Wrappers

  const DELIMITER: char := '\n'

  /** What write_data puts on the wire for one message. */
  function Framed(data: string): (wire: string)
    ensures |wire| == |data| + 1 && wire[..|data|] == data && wire[|data|] == DELIMITER
  {
    data + [DELIMITER]
  }

  /** The frames of several messages, sent one after the other. */
  function FramedAll(messages: seq<string>): string
    decreases |messages|
  {
    if messages == [] then [] else Framed(messages[0]) + FramedAll(messages[1..])
  }

  /**
   * The count async_read_until reports: the length of the first line, its
   * delimiter included, or None while no complete line is buffered.
   */
  function LineLength(buffer: string): Option<nat>
    decreases |buffer|
  {
    if buffer == [] then None
    else if buffer[0] == DELIMITER then Some(1)
    else match LineLength(buffer[1..])
      case None => None
      case Some(n) => Some(n + 1)
  }

  /** The guarantee a read handler relies on: the first delimiter sits at index bytesTransferred - 1. */
  predicate LineReady(buffer: string, bytesTransferred: nat)
  {
    && 1 <= bytesTransferred <= |buffer|
    && buffer[bytesTransferred - 1] == DELIMITER
    && DELIMITER !in buffer[..bytesTransferred - 1]
  }

  /** The line a read handler passes on: everything before the delimiter. */
  function LineOf(buffer: string, bytesTransferred: nat): (line: string)
    requires LineReady(buffer, bytesTransferred)
    ensures |line| == bytesTransferred - 1 && DELIMITER !in line
  {
    buffer[..bytesTransferred - 1]
  }

  /** The lines a sequence of read handler runs delivers from `buffer`, in order, until no complete line is left. */
  function Lines(buffer: string): seq<string>
    decreases |buffer|
  {
    match LineLength(buffer)
    case None => []
    case Some(n) =>
      if n <= |buffer| then [buffer[..n - 1]] + Lines(buffer[n..]) else []
  }

  /** async_read_until reports exactly the counts that meet the handlers' guarantee. */
  lemma {:induction false} LineLengthReady(buffer: string, bytesTransferred: nat)
    ensures LineLength(buffer) == Some(bytesTransferred) <==> LineReady(buffer, bytesTransferred)
    decreases |buffer|
  {
    LineLengthBounds(buffer);
    if buffer != [] && buffer[0] != DELIMITER {
      if 2 <= bytesTransferred <= |buffer| {
        LineLengthReady(buffer[1..], bytesTransferred - 1);
        assert buffer[1..][..bytesTransferred - 2] == buffer[1..bytesTransferred - 1];
        assert buffer[..bytesTransferred - 1] == [buffer[0]] + buffer[1..bytesTransferred - 1];
      } else if bytesTransferred == 1 {
        LineLengthBounds(buffer[1..]);
      }
    } else if buffer != [] {
      if 1 < bytesTransferred <= |buffer| {
        assert buffer[..bytesTransferred - 1][0] == DELIMITER;
      }
    }
  }

  lemma {:induction false} LineLengthBounds(buffer: string)
    ensures LineLength(buffer).Some? ==> 1 <= LineLength(buffer).value <= |buffer|
    decreases |buffer|
  {
    if buffer != [] && buffer[0] != DELIMITER {
      LineLengthBounds(buffer[1..]);
    }
  }

  /** A message without a delimiter, framed and followed by anything, is read back whole and the rest is left. */
  lemma FramedRoundTrip(data: string, rest: string)
    requires DELIMITER !in data
    ensures LineReady(Framed(data) + rest, |data| + 1)
    ensures LineOf(Framed(data) + rest, |data| + 1) == data
    ensures (Framed(data) + rest)[|data| + 1..] == rest
  {
    var buffer := Framed(data) + rest;
    assert buffer[..|data|] == data;
    assert buffer[|data|] == DELIMITER;
  }

  /** Messages framed back to back are delivered one line each, unchanged and in order. */
  lemma {:induction false} LinesOfFramedAll(messages: seq<string>)
    requires forall i :: 0 <= i < |messages| ==> DELIMITER !in messages[i]
    ensures Lines(FramedAll(messages)) == messages
    decreases |messages|
  {
    if messages != [] {
      var rest := FramedAll(messages[1..]);
      var buffer := Framed(messages[0]) + rest;
      assert FramedAll(messages) == buffer;
      FramedRoundTrip(messages[0], rest);
      LineLengthReady(buffer, |messages[0]| + 1);
      LinesOfFramedAll(messages[1..]);
      assert [messages[0]] + messages[1..] == messages;
    }
  }
}
