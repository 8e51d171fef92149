/**
 * The record that flows through the current pipeline (Data/FrameData.cs): a type tag,
 * a collection id meaningful for Begin, and two payloads meaningful for Data.
 */
module FrameRecords {
  import opened Wrappers
  import opened Bytes

  /** A C# `byte[]`: .NET arrays hold at most `int.MaxValue` elements. */
  type Blob = s: seq<byte> | |s| <= 0x7fff_ffff

  const BeginType: byte := 0
  const DataType: byte := 1
  const EndType: byte := 2

  /**
   * `TrackingJson` is held as the UTF-8 bytes `Encoding.UTF8.GetBytes` makes of it
   * (RFC 3629, section 3), so its length counts bytes; `None` is a null string or array.
   */
  datatype FrameData = FrameData(
    messageType: byte,
    collectionId: int32,
    imageData: Option<Blob>,
    trackingJson: Option<Blob>)

  /** The C# constructor with its default arguments. */
  function NewFrameData(
    messageType: byte := 0,
    collectionId: int32 := 0,
    imageData: Option<Blob> := None,
    trackingJson: Option<Blob> := None): (f: FrameData)
    ensures f.messageType == messageType && f.collectionId == collectionId
    ensures f.imageData == imageData && f.trackingJson == trackingJson
  {
    FrameData(messageType, collectionId, imageData, trackingJson)
  }

  /** The defaults: a Begin tag, collection 0 and no payloads. */
  lemma DefaultFrameData()
    ensures NewFrameData() == FrameData(BeginType, 0, None, None)
  {
  }

  /** A record built from a type alone, as End is, carries no id and no payload. */
  lemma TypeOnlyFrameData(messageType: byte)
    ensures NewFrameData(messageType).collectionId == 0
    ensures NewFrameData(messageType).imageData.None?
    ensures NewFrameData(messageType).trackingJson.None?
  {
  }

  /** The Begin record `StartNetworkLoop` seeds: the selected collection's id, or 0. */
  function BeginFrame(collection: Option<int32>): (f: FrameData)
    ensures f.messageType == BeginType && f.imageData.None? && f.trackingJson.None?
    ensures f.collectionId == (if collection.Some? then collection.value else 0)
  {
    NewFrameData(BeginType, match collection case Some(id) => id case None => 0)
  }

  /** The End record `StopNetworkLoop` appends. */
  function EndFrame(): (f: FrameData)
    ensures f.messageType == EndType && f.collectionId == 0
    ensures f.imageData.None? && f.trackingJson.None?
  {
    NewFrameData(EndType)
  }

  /** The Data record the frame provider builds: default construction, then image, telemetry and tag set. */
  function DataFrame(image: Blob, telemetry: Blob): (f: FrameData)
    ensures f.messageType == DataType && f.collectionId == 0
    ensures f.imageData == Some(image) && f.trackingJson == Some(telemetry)
  {
    NewFrameData().(imageData := Some(image), trackingJson := Some(telemetry), messageType := DataType)
  }
}
