/**
 * SimObject data requests (src/simconnect/SimConnectDataReceiver.cpp): each
 * request gets the next numeric id and remembers its name and datatype; a
 * received packet is decoded by that datatype and handed to the event
 * router as "simconnect:<name>".
 */
module SimConnectDataReceiver {
  import opened Text

  newtype byte = x: int | 0 <= x < 256

  /** The SIMCONNECT_DATATYPE values the receiver distinguishes; Invalid is the zero value. */
  datatype ScDatatype = Invalid | Int32 | Int64 | Float32 | Float64 | OtherDatatype

  datatype RequestEntry = RequestEntry(eventName: string, dataType: ScDatatype)

  /** The entry operator[] default-constructs for an unknown request id. */
  const DEFAULT_ENTRY: RequestEntry := RequestEntry("", Invalid)

  datatype Call =
    | AddToDataDefinition(definitionId: int, dataName: string, dataType: ScDatatype)
    | RequestDataOnSimObject(requestId: int)
    | HandleReadEvent(eventName: string, eventValue: string)

  function Pow256(n: nat): (p: nat)
    ensures p >= 1
  {
    if n == 0 then 1 else 256 * Pow256(n - 1)
  }

  /** The unsigned value of little-endian bytes. */
  function LittleEndian(bytes: seq<byte>): nat
    decreases |bytes|
  {
    if bytes == [] then 0 else bytes[0] as nat + 256 * LittleEndian(bytes[1..])
  }

  /** The two's-complement reading of the first `width` bytes. */
  function SignedAt(data: seq<byte>, width: nat): int
    requires 1 <= width <= |data|
  {
    var u := LittleEndian(data[..width]);
    if u >= Pow256(width) / 2 then u - Pow256(width) else u
  }

  /** The little-endian two's-complement bytes of `v` in `width` bytes. */
  function Encode(v: int, width: nat): (bytes: seq<byte>)
    requires -(Pow256(width) / 2) <= v < Pow256(width) / 2
    ensures |bytes| == width
  {
    EncodeUnsigned(if v < 0 then v + Pow256(width) else v, width)
  }

  function EncodeUnsigned(u: nat, width: nat): (bytes: seq<byte>)
    ensures |bytes| == width
    decreases width
  {
    if width == 0 then [] else [(u % 256) as byte] + EncodeUnsigned(u / 256, width - 1)
  }

  /** Whether the payload is long enough for the datatype it claims. */
  predicate Readable(dataType: ScDatatype, data: seq<byte>)
  {
    match dataType
    case Int32 => |data| >= 4
    case Int64 => |data| >= 8
    case _ => true
  }

  /**
   * The text handed on for a payload. Integers are formatted as decimals;
   * `floatText` stands for std::to_string of a float payload; any other
   * datatype gives the empty string.
   */
  function ValueText(dataType: ScDatatype, data: seq<byte>, floatText: string): string
    requires Readable(dataType, data)
  {
    match dataType
    case Int32 => IntToDecimal(SignedAt(data, 4))
    case Int64 => IntToDecimal(SignedAt(data, 8))
    case Float32 => floatText
    case Float64 => floatText
    case _ => ""
  }

  /** Request ids in use are exactly 0 .. n-1. */
  predicate Dense(mappings: map<int, RequestEntry>)
  {
    && (forall id :: id in mappings ==> 0 <= id < |mappings|)
    && (forall id :: 0 <= id < |mappings| ==> id in mappings)
  }

  /** The mappings after requesting `names` in order, starting from none. */
  function Requests(names: seq<string>): map<int, RequestEntry>
    decreases |names|
  {
    if names == [] then map[]
    else
      var prior := Requests(names[..|names| - 1]);
      prior[|prior| := RequestEntry(names[|names| - 1], Float64)]
  }

  lemma {:induction false} LittleEndianBound(bytes: seq<byte>)
    ensures LittleEndian(bytes) < Pow256(|bytes|)
    decreases |bytes|
  {
    if bytes != [] {
      LittleEndianBound(bytes[1..]);
    }
  }

  lemma {:induction false} EncodeUnsignedRoundTrip(u: nat, width: nat)
    requires u < Pow256(width)
    ensures LittleEndian(EncodeUnsigned(u, width)) == u
    decreases width
  {
    if width > 0 {
      var bytes := EncodeUnsigned(u, width);
      assert u / 256 < Pow256(width - 1);
      EncodeUnsignedRoundTrip(u / 256, width - 1);
      assert bytes[1..] == EncodeUnsigned(u / 256, width - 1);
    }
  }

  /** Every decoded integer lies in the signed range of its width. */
  lemma SignedAtRange(data: seq<byte>, width: nat)
    requires 1 <= width <= |data|
    ensures -(Pow256(width) / 2) <= SignedAt(data, width) < Pow256(width) / 2
  {
    LittleEndianBound(data[..width]);
    var half := 128 * Pow256(width - 1);
    assert Pow256(width) == 2 * half;
    assert Pow256(width) / 2 == half;
  }

  /** Decoding undoes encoding for every value of the width's signed range. */
  lemma SignedRoundTrip(v: int, width: nat)
    requires 1 <= width
    requires -(Pow256(width) / 2) <= v < Pow256(width) / 2
    ensures SignedAt(Encode(v, width), width) == v
  {
    var u := if v < 0 then v + Pow256(width) else v;
    EncodeUnsignedRoundTrip(u, width);
    assert Encode(v, width)[..width] == Encode(v, width);
  }

  /** An INT32 packet holding v is handed on as text std::stoi reads back as v. */
  lemma Int32ValueRoundTrip(v: int, rest: seq<byte>, floatText: string)
    requires INT32_MIN <= v <= INT32_MAX
    ensures Readable(Int32, Encode(v, 4) + rest)
    ensures StoiDefined(ValueText(Int32, Encode(v, 4) + rest, floatText))
    ensures Stoi(ValueText(Int32, Encode(v, 4) + rest, floatText)) == v
  {
    var data := Encode(v, 4) + rest;
    assert Pow256(4) == 0x1_0000_0000;
    assert data[..4] == Encode(v, 4);
    SignedRoundTrip(v, 4);
    assert Encode(v, 4)[..4] == Encode(v, 4);
    assert SignedAt(data, 4) == SignedAt(Encode(v, 4), 4);
    StoiOfToString(v);
  }

  /** An INT64 packet holding v is handed on as the decimal digits of v. */
  lemma Int64ValueRoundTrip(v: int, rest: seq<byte>, floatText: string)
    requires -0x8000_0000_0000_0000 <= v < 0x8000_0000_0000_0000
    ensures Readable(Int64, Encode(v, 8) + rest)
    ensures IsNumeric(ValueText(Int64, Encode(v, 8) + rest, floatText))
    ensures NumericValue(ValueText(Int64, Encode(v, 8) + rest, floatText)) == v
  {
    var data := Encode(v, 8) + rest;
    assert Pow256(8) == 0x1_0000_0000_0000_0000;
    assert data[..8] == Encode(v, 8);
    SignedRoundTrip(v, 8);
    assert Encode(v, 8)[..8] == Encode(v, 8);
    assert SignedAt(data, 8) == SignedAt(Encode(v, 8), 8);
    DecimalRoundTrip(v);
  }

  /** Requests keep the ids dense, and each new one gets the next id with datatype FLOAT64. */
  lemma {:induction false} RequestsOrder(names: seq<string>)
    ensures Dense(Requests(names)) && |Requests(names)| == |names|
    ensures forall i :: 0 <= i < |names| ==> i in Requests(names) && Requests(names)[i] == RequestEntry(names[i], Float64)
    decreases |names|
  {
    if names != [] {
      var front := names[..|names| - 1];
      RequestsOrder(front);
      var prior := Requests(front);
      assert |prior| !in prior;
      assert |prior[|prior| := RequestEntry(names[|names| - 1], Float64)]| == |prior| + 1;
      forall i | 0 <= i < |names| - 1
        ensures front[i] == names[i]
      {
      }
    }
  }

  /** A packet for an unknown id makes the map insert a default entry, which keeps the ids dense only if the id is the next free one. */
  lemma UnknownRequestDensity(mappings: map<int, RequestEntry>, requestId: int)
    requires Dense(mappings) && requestId !in mappings
    ensures Dense(mappings[requestId := DEFAULT_ENTRY]) <==> requestId == |mappings|
  {
    var m := mappings[requestId := DEFAULT_ENTRY];
    assert |m| == |mappings| + 1;
    if requestId != |mappings| {
      assert |mappings| !in mappings;
      assert |mappings| !in m && 0 <= |mappings| < |m|;
    }
  }

  class Receiver {
    var requestIdMappings: map<int, RequestEntry>
    ghost var trace: seq<Call>

    constructor ()
      ensures requestIdMappings == map[] && trace == []
    {
      requestIdMappings := map[];
      trace := [];
    }

    /** Store the request under the next id, always as FLOAT64, and ask SimConnect for it. */
    method RegisterSimconnectDatareq(eventName: string)
      modifies this
      ensures requestIdMappings == old(requestIdMappings)[|old(requestIdMappings)| := RequestEntry(eventName, Float64)]
      ensures old(Dense(requestIdMappings)) ==> Dense(requestIdMappings) && |requestIdMappings| == |old(requestIdMappings)| + 1
      ensures var id := |old(requestIdMappings)|;
        trace == old(trace) + [AddToDataDefinition(id, eventName, Float64), RequestDataOnSimObject(id)]
    {
      var eventId := |requestIdMappings|;
      if Dense(requestIdMappings) {
        assert eventId !in requestIdMappings;
        assert |requestIdMappings[eventId := RequestEntry(eventName, Float64)]| == eventId + 1;
      }
      requestIdMappings := requestIdMappings[eventId := RequestEntry(eventName, Float64)];
      trace := trace + [AddToDataDefinition(eventId, eventName, Float64), RequestDataOnSimObject(eventId)];
    }

    /**
     * One packet: look its request up (inserting the default entry for an
     * unknown id), decode by the stored datatype and hand exactly one read
     * event to the router.
     */
    method HandleReceivedSimobjectData(requestId: int, data: seq<byte>, floatText: string)
      requires requestId in requestIdMappings ==> Readable(requestIdMappings[requestId].dataType, data)
      modifies this
      ensures requestIdMappings == old(requestIdMappings)[requestId := old(EntryOf(requestId))]
      ensures trace == old(trace) + [HandleReadEvent("simconnect:" + old(EntryOf(requestId)).eventName,
                                                     ValueText(old(EntryOf(requestId)).dataType, data, floatText))]
    {
      if requestId !in requestIdMappings {
        requestIdMappings := requestIdMappings[requestId := DEFAULT_ENTRY];
      }
      var entry := requestIdMappings[requestId];
      var outputString := "";
      match entry.dataType {
        case Int32 => outputString := IntToDecimal(SignedAt(data, 4));
        case Int64 => outputString := IntToDecimal(SignedAt(data, 8));
        case Float32 => outputString := floatText;
        case Float64 => outputString := floatText;
        case _ =>
      }
      var outputName := "simconnect:" + entry.eventName;
      trace := trace + [HandleReadEvent(outputName, outputString)];
    }

    /** The entry a packet with `requestId` is read under. */
    function EntryOf(requestId: int): RequestEntry
      reads this
    {
      if requestId in requestIdMappings then requestIdMappings[requestId] else DEFAULT_ENTRY
    }
  }

  /** An unknown request id is reported under the bare prefix, with an empty value. */
  lemma UnknownRequestName(data: seq<byte>, floatText: string)
    ensures "simconnect:" + DEFAULT_ENTRY.eventName == "simconnect:"
    ensures ValueText(DEFAULT_ENTRY.dataType, data, floatText) == ""
  {
  }
}
