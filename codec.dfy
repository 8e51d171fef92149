/**
 * The wire format. `NetworkManager.SendData` writes one tagged record per call; the
 * legacy `CaptureManager.NetworkLoop` writes the same Data body with no tag. The
 * decoder is the collector's reading rule: a tag, then four bytes for Begin, two
 * length-prefixed blocks for Data and nothing for End; a short read is an error.
 */
module Codec {
  import opened Wrappers
  import opened Bytes
  import opened FrameRecords

  /** The payload whose null reference made `SendData` throw. */
  datatype NullField = TrackingJson | ImageData

  /** `SendData` threw after `written` had already gone to the stream. */
  datatype SendFault = NullPayload(written: seq<byte>, field: NullField)

  /** A record of the legacy queue: an encoded image and its telemetry, never null. */
  datatype LegacyFrame = LegacyFrame(imageData: Blob, trackingJson: Blob)

  datatype DecodeError = ShortRead | UnknownType(tag: byte) | NegativeLength(length: int32)

  /** A length field followed by that many bytes. */
  function Block(x: Blob): (r: seq<byte>)
    ensures |r| == 4 + |x| && r[..4] == Int32ToBytes(|x|) && r[4..] == x
  {
    Int32ToBytes(|x|) + x
  }

  /** The legacy record on the wire, and the body of a tagged Data record. */
  function EncodeLegacy(f: LegacyFrame): (r: seq<byte>)
    ensures |r| == 8 + |f.trackingJson| + |f.imageData|
  {
    Block(f.trackingJson) + Block(f.imageData)
  }

  /**
   * The bytes `SendData` writes for `f`, or the fault it throws when a Data record
   * lacks a payload, together with what it had written before the throw.
   */
  function Encode(f: FrameData): (r: Result<seq<byte>, SendFault>)
    ensures r.Failure? <==> f.messageType == DataType && (f.trackingJson.None? || f.imageData.None?)
    ensures r.Success? ==> |r.value| >= 1 && r.value[0] == f.messageType
    ensures r.Failure? ==> |r.error.written| >= 1 && r.error.written[0] == DataType
    ensures r.Failure? ==> (r.error.field == TrackingJson <==> f.trackingJson.None?)
  {
    var tag := [f.messageType];
    if f.messageType == BeginType then
      Success(tag + Int32ToBytes(f.collectionId))
    else if f.messageType == DataType then
      match f.trackingJson
      case None => Failure(NullPayload(tag, TrackingJson))
      case Some(t) =>
        match f.imageData
        case None => Failure(NullPayload(tag + Block(t), ImageData))
        case Some(i) => Success(tag + EncodeLegacy(LegacyFrame(i, t)))
    else
      Success(tag)
  }

  /** A record the collector can read back: a known tag and, for Data, both payloads. */
  predicate Transmittable(f: FrameData) {
    f.messageType <= EndType && Encode(f).Success?
  }

  /** What the collector reconstructs from the bytes of `f`: the fields the tag puts on the wire. */
  function WireView(f: FrameData): (v: FrameData)
    requires Transmittable(f)
    ensures v.messageType == f.messageType
    ensures f.messageType == BeginType ==> v.collectionId == f.collectionId
    ensures f.messageType == DataType ==> v.imageData == f.imageData && v.trackingJson == f.trackingJson
  {
    if f.messageType == BeginType then BeginFrame(Some(f.collectionId))
    else if f.messageType == DataType then DataFrame(f.imageData.value, f.trackingJson.value)
    else EndFrame()
  }

  /** Reads a length field and the block it announces; returns the block and the bytes used. */
  function ReadBlock(b: seq<byte>): (r: Result<(Blob, nat), DecodeError>)
    ensures r.Success? ==> r.value.1 == 4 + |r.value.0| <= |b| && b[..r.value.1] == Block(r.value.0)
  {
    if |b| < 4 then Failure(ShortRead)
    else
      var n := BytesToInt32(b[..4]);
      if n < 0 then Failure(NegativeLength(n))
      else if |b| < 4 + n then Failure(ShortRead)
      else
        BytesRoundTrip(b[..4]);
        assert b[..4 + n] == b[..4] + b[4..4 + n];
        Success((b[4..4 + n], 4 + n))
  }

  /** Reads one legacy record from the front of `b`; returns it and the bytes used. */
  function DecodeLegacy(b: seq<byte>): (r: Result<(LegacyFrame, nat), DecodeError>)
    ensures r.Success? ==> r.value.1 <= |b| && b[..r.value.1] == EncodeLegacy(r.value.0)
  {
    match ReadBlock(b)
    case Failure(e) => Failure(e)
    case Success((t, n)) =>
      match ReadBlock(b[n..])
      case Failure(e) => Failure(e)
      case Success((i, m)) =>
        assert b[..n + m] == b[..n] + b[n..][..m];
        Success((LegacyFrame(i, t), n + m))
  }

  /** Reads one tagged record from the front of `b`; returns it and the bytes used. */
  function Decode(b: seq<byte>): (r: Result<(FrameData, nat), DecodeError>)
    ensures r.Success? ==> 1 <= r.value.1 <= |b|
  {
    if |b| == 0 then Failure(ShortRead)
    else if b[0] == BeginType then
      if |b| < 5 then Failure(ShortRead)
      else Success((BeginFrame(Some(BytesToInt32(b[1..5]))), 5))
    else if b[0] == DataType then
      match DecodeLegacy(b[1..])
      case Failure(e) => Failure(e)
      case Success((body, n)) => Success((DataFrame(body.imageData, body.trackingJson), 1 + n))
    else if b[0] == EndType then
      Success((EndFrame(), 1))
    else
      Failure(UnknownType(b[0]))
  }

  /**
   * A Begin record is exactly five bytes: the tag 0 and the collection id, little-endian,
   * whatever payloads the record also holds.
   */
  lemma BeginLayout(f: FrameData)
    requires f.messageType == BeginType
    ensures Encode(f) == Success([0] + Int32ToBytes(f.collectionId))
    ensures |Encode(f).value| == 5
  {
  }

  /** An End record is the single byte 2, whatever else the record holds. */
  lemma EndLayout(f: FrameData)
    requires f.messageType == EndType
    ensures Encode(f) == Success([2])
  {
  }

  /**
   * A Data record with both payloads is the tag 1, the telemetry's byte count, the
   * telemetry, the image's byte count and the image: 9 + |telemetry| + |image| bytes,
   * empty payloads included; the collection id is not written.
   */
  lemma DataLayout(f: FrameData)
    requires f.messageType == DataType && f.imageData.Some? && f.trackingJson.Some?
    ensures Encode(f) == Success([1] + Int32ToBytes(|f.trackingJson.value|) + f.trackingJson.value
                                 + Int32ToBytes(|f.imageData.value|) + f.imageData.value)
    ensures |Encode(f).value| == 9 + |f.trackingJson.value| + |f.imageData.value|
  {
    var image, telemetry := f.imageData.value, f.trackingJson.value;
    assert [1] + EncodeLegacy(LegacyFrame(image, telemetry))
        == [1] + Int32ToBytes(|telemetry|) + telemetry + Int32ToBytes(|image|) + image;
  }

  /** The legacy format is the tagged Data record without its tag byte. */
  lemma LegacyIsUntaggedData(f: LegacyFrame)
    ensures EncodeLegacy(f) == Int32ToBytes(|f.trackingJson|) + f.trackingJson + Int32ToBytes(|f.imageData|) + f.imageData
    ensures Encode(DataFrame(f.imageData, f.trackingJson)) == Success([DataType] + EncodeLegacy(f))
  {
  }

  lemma {:induction false} ReadBlockOfBlock(x: Blob, rest: seq<byte>)
    ensures ReadBlock(Block(x) + rest) == Success((x, 4 + |x|))
  {
    var b := Block(x) + rest;
    assert b[..4] == Int32ToBytes(|x|);
    Int32RoundTrip(|x|);
    assert b[4..4 + |x|] == x;
  }

  /** A legacy record decodes to itself, whatever follows it on the stream. */
  lemma {:induction false} LegacyRoundTrip(f: LegacyFrame, rest: seq<byte>)
    ensures DecodeLegacy(EncodeLegacy(f) + rest) == Success((f, |EncodeLegacy(f)|))
  {
    var b := EncodeLegacy(f) + rest;
    var tail := Block(f.imageData) + rest;
    assert b == Block(f.trackingJson) + tail;
    ReadBlockOfBlock(f.trackingJson, tail);
    assert b[4 + |f.trackingJson|..] == tail;
    ReadBlockOfBlock(f.imageData, rest);
  }

  /** Every transmittable record decodes back to its wire view and uses exactly its own bytes. */
  lemma {:induction false} DecodeEncode(f: FrameData, rest: seq<byte>)
    requires Transmittable(f)
    ensures Decode(Encode(f).value + rest) == Success((WireView(f), |Encode(f).value|))
  {
    var e := Encode(f).value;
    var b := e + rest;
    if f.messageType == BeginType {
      assert b[1..5] == Int32ToBytes(f.collectionId);
      Int32RoundTrip(f.collectionId);
    } else if f.messageType == DataType {
      var body := LegacyFrame(f.imageData.value, f.trackingJson.value);
      assert b[1..] == EncodeLegacy(body) + rest;
      LegacyRoundTrip(body, rest);
    }
  }

  /** Decoding is canonical: whatever the collector accepts is exactly the encoding of what it read. */
  lemma {:induction false} EncodeDecode(b: seq<byte>)
    requires Decode(b).Success?
    ensures Transmittable(Decode(b).value.0)
    ensures Encode(Decode(b).value.0) == Success(b[..Decode(b).value.1])
  {
    var (f, n) := Decode(b).value;
    if b[0] == BeginType {
      BytesRoundTrip(b[1..5]);
      assert b[..5] == [b[0]] + b[1..5];
    } else if b[0] == DataType {
      var (body, m) := DecodeLegacy(b[1..]).value;
      assert b[..1 + m] == [b[0]] + b[1..][..m];
    } else {
      assert b[..1] == [b[0]];
    }
  }

  /** A record cut short is rejected as a short read: no prefix of a record decodes. */
  lemma {:induction false} TruncatedRecordRejected(f: FrameData, k: nat)
    requires Transmittable(f)
    requires k < |Encode(f).value|
    ensures Decode(Encode(f).value[..k]) == Failure(ShortRead)
  {
    var e := Encode(f).value;
    var b := e[..k];
    if f.messageType == DataType && k > 0 {
      var t, i := f.trackingJson.value, f.imageData.value;
      assert e == [1] + Block(t) + Block(i);
      var c := b[1..];
      if |c| >= 4 {
        assert c[..4] == Int32ToBytes(|t|);
        Int32RoundTrip(|t|);
        if |c| >= 4 + |t| + 4 {
          assert c[4 + |t|..][..4] == Int32ToBytes(|i|);
        }
      }
    }
  }

  /** The bytes of a sequence of records written one after another. */
  function EncodeStream(fs: seq<FrameData>): (r: seq<byte>)
    requires forall k :: 0 <= k < |fs| ==> Transmittable(fs[k])
    ensures |r| >= |fs|
    ensures r == [] <==> fs == []
    ensures fs != [] ==> Encode(fs[0]).Success? && Encode(fs[0]).value <= r
  {
    if fs == [] then []
    else
      assert Transmittable(fs[0]);
      Encode(fs[0]).value + EncodeStream(fs[1..])
  }

  /** Reads records until the stream ends; any unreadable record fails the whole stream. */
  function DecodeStream(b: seq<byte>): (r: Result<seq<FrameData>, DecodeError>)
    ensures r.Success? ==> |r.value| <= |b| && (r.value == [] <==> b == [])
    ensures r.Success? && b != [] ==> Decode(b).Success? && r.value[0] == Decode(b).value.0
    ensures Decode(b).Failure? && b != [] ==> r == Failure(Decode(b).error)
    decreases |b|
  {
    if b == [] then Success([])
    else
      match Decode(b)
      case Failure(e) => Failure(e)
      case Success((f, n)) =>
        match DecodeStream(b[n..])
        case Failure(e) => Failure(e)
        case Success(fs) => Success([f] + fs)
  }

  function WireViews(fs: seq<FrameData>): (vs: seq<FrameData>)
    requires forall k :: 0 <= k < |fs| ==> Transmittable(fs[k])
    ensures |vs| == |fs|
    ensures forall k :: 0 <= k < |fs| ==> vs[k] == WireView(fs[k])
  {
    if fs == [] then [] else [WireView(fs[0])] + WireViews(fs[1..])
  }

  /** The encoding is self-delimiting: a stream of records decodes to the same records, in order. */
  lemma {:induction false} StreamRoundTrip(fs: seq<FrameData>)
    requires forall k :: 0 <= k < |fs| ==> Transmittable(fs[k])
    ensures DecodeStream(EncodeStream(fs)) == Success(WireViews(fs))
  {
    if fs != [] {
      var e := Encode(fs[0]).value;
      var rest := EncodeStream(fs[1..]);
      DecodeEncode(fs[0], rest);
      assert (e + rest)[|e|..] == rest;
      StreamRoundTrip(fs[1..]);
    }
  }

  /** The records the pipeline itself builds travel unchanged. */
  lemma PipelineRecordsSurvive(collection: Option<int32>, image: Blob, telemetry: Blob)
    ensures Transmittable(BeginFrame(collection)) && WireView(BeginFrame(collection)) == BeginFrame(collection)
    ensures Transmittable(DataFrame(image, telemetry)) && WireView(DataFrame(image, telemetry)) == DataFrame(image, telemetry)
    ensures Transmittable(EndFrame()) && WireView(EndFrame()) == EndFrame()
  {
  }
}
