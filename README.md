# quest-capture-client, modelled in Dafny

The client runs on a Quest headset. It captures camera frames with the wearer's tracking
data and streams them over TCP to a collector. It also keeps a small set of persistent
settings that the user edits in a settings panel. This project models the core of that
client:

- **Record framing** (`Data/FrameData.cs`, `NetworkManager.SendData`). A session is one
  Begin record, any number of Data records and one End record. A Begin record is a type
  byte followed by a little-endian 32-bit collection id. A Data record is a type byte
  followed by two length-prefixed blocks: the telemetry JSON, then the JPEG image. An End
  record is the bare type byte.
- **The sender** (`Core/NetworkManager.cs`). This is a FIFO queue that a network thread
  drains onto a TCP connection. Its connect, stream and reconnect loop is modelled one
  iteration at a time.
- **The recorder** (`Core/CaptureManager.cs`). It opens a session, queues one Data record
  per camera frame with consecutive frame ids, and closes the session on request.
- **The legacy streamer** (`CaptureManager.cs`). This is the older, untagged
  image-plus-telemetry streamer with a bounded, drop-oldest queue.
- **Settings** (`Settings/SettingsManager.cs`). These are properties that raise change
  events only on a real change. They load from and save to the preference store, under a
  first-instance-wins singleton.
- **The settings panel** (`UI/SettingsUIManager.cs`). It fills the text fields and
  dropdowns from the settings, and maps edits back to them.
- **Hand-data shaping** (`Core/TrackingDataProvider.cs`). It fills one tracking record per
  hand from the headset's readings.

Layout:

- `wrappers.dfy`: `Option`, which stands for a C# null reference, and `Result`.
- `bytes.dfy`: 32-bit two's complement and `BitConverter`'s little-endian layout.
- `frame_data.dfy`: the record type and the three records the pipeline builds.
- `codec.dfy`: the wire format, a reference decoder for the collector side, and the
  round trips between them.
- `subsequences.dfy`: the subsequence relation used for delivery order.
- `network.dfy`: the sender's specification functions, and the `NetworkManager` class
  proved against them.
- `recording.dfy`: the recorder's specification functions, and its `CaptureManager` class.
- `legacy_capture.dfy`: the legacy streamer's specification functions, and its class.
- `settings.dfy`: the settings, the preference store and the singleton registry.
- `settings_ui.dfy`: decimal text, `int.TryParse`, and the panel's handlers.
- `tracking.dfy`: the hand and tracking records as classes over arrays.

Each class method is proved against a pure function of the old state. The properties the
client relies on are lemmas about those functions:

- framing round trips;
- FIFO order and delivery order;
- drop-oldest keeping the newest frames;
- sessions bracketed by Begin and End;
- save-then-load;
- the panel showing what it will write back.

C# enums are `int`-range newtypes, because a cast may produce an unnamed value. Unchecked
`int` arithmetic goes through `Wrap32`.

## Model

| member | source | states |
|---|---|---|
| Bytes.Wrap32 | Assets/CaptureFramework/UI/SettingsUIManager.cs:73 | unchecked `int` arithmetic: the result is congruent to the exact value modulo 2^32, and equals it when in range |
| Bytes.Int32ToBytes | Assets/CaptureFramework/Core/NetworkManager.cs:163 | `BitConverter.GetBytes(int)` gives exactly four bytes whose little-endian value is the two's complement of `n` |
| Bytes.BytesToInt32 | Assets/CaptureFramework/Core/NetworkManager.cs:163 | the inverse of `BitConverter.GetBytes` as the collector reads it: the two's complement of the result is the little-endian value of the four bytes, and the result is negative iff the top bit of the last byte is set |
| Bytes.Int32RoundTrip | Assets/CaptureFramework/Core/NetworkManager.cs:163 | decoding the four bytes of any `int` gives that `int` back |
| Bytes.BytesRoundTrip | Assets/CaptureFramework/Core/NetworkManager.cs:163 | every four-byte group is the encoding of exactly one `int` |
| Bytes.LittleEndianInjective | Assets/CaptureFramework/Core/NetworkManager.cs:171 | two length fields with the same value are the same bytes |
| Bytes.Int32BytesExplicit | Assets/CaptureFramework/Core/NetworkManager.cs:163 | byte k of the encoding is byte k of the unsigned value, low byte first |
| FrameRecords.NewFrameData | Assets/CaptureFramework/Data/FrameData.cs:8-14 | the constructor stores each argument in its field |
| FrameRecords.DefaultFrameData | Assets/CaptureFramework/Data/FrameData.cs:8 | the default arguments give a Begin tag, collection 0 and null payloads |
| FrameRecords.TypeOnlyFrameData | Assets/CaptureFramework/Data/FrameData.cs:8 | a record built from a type alone has collection 0 and null payloads |
| FrameRecords.BeginFrame | Assets/CaptureFramework/Core/NetworkManager.cs:36 | the Begin record carries the selected collection's id, or 0 when none is selected, and no payload |
| FrameRecords.EndFrame | Assets/CaptureFramework/Core/NetworkManager.cs:46 | the End record has tag 2, id 0 and no payload |
| FrameRecords.DataFrame | Assets/CaptureFramework/Core/FrameDataProvider.cs:86-122 | a provider frame is a Data record with both the image and the telemetry set, and id 0 |
| Codec.Block | Assets/CaptureFramework/Core/NetworkManager.cs:171-182 | a block is its four-byte length followed by exactly its bytes |
| Codec.EncodeLegacy | Assets/CaptureFramework/CaptureManager.cs:217-231 | a legacy record is 8 bytes longer than its telemetry and image together |
| Codec.Encode | Assets/CaptureFramework/Core/NetworkManager.cs:153-186 | sending fails exactly for a Data record with a null payload, and then only after its tag byte has gone out; the first byte sent is always the tag |
| Codec.WireView | Assets/CaptureFramework/Core/NetworkManager.cs:157-183 | what reaches the collector: the tag, the id only for Begin, and the payloads only for Data |
| Codec.ReadBlock | Assets/CaptureFramework/Core/NetworkManager.cs:171-182 | a block read back spans exactly the bytes of its encoding |
| Codec.DecodeLegacy | Assets/CaptureFramework/CaptureManager.cs:217-231 | a legacy record read back spans exactly its encoding |
| Codec.Decode | Assets/CaptureFramework/Core/NetworkManager.cs:153-186 | a decoded record consumes at least its tag byte and no more than the input |
| Codec.BeginLayout | Assets/CaptureFramework/Core/NetworkManager.cs:157-165 | every Begin record, whatever payloads it holds, is five bytes: 0 and then the id, little-endian |
| Codec.EndLayout | Assets/CaptureFramework/Core/NetworkManager.cs:157-158 | an End record is the single byte 2 |
| Codec.DataLayout | Assets/CaptureFramework/Core/NetworkManager.cs:168-183 | every Data record with both payloads, whatever its id, is the tag 1, the telemetry length and bytes, then the image length and bytes, 9 + both lengths in all |
| Codec.LegacyIsUntaggedData | Assets/CaptureFramework/CaptureManager.cs:217-231 | the legacy format is the tagged Data record minus its tag byte |
| Codec.LegacyRoundTrip | Assets/CaptureFramework/CaptureManager.cs:217-231 | a legacy record decodes to itself whatever follows it |
| Codec.DecodeEncode | Assets/CaptureFramework/Core/NetworkManager.cs:153-186 | each sendable record decodes to its wire view and consumes exactly its own bytes |
| Codec.EncodeDecode | Assets/CaptureFramework/Core/NetworkManager.cs:153-186 | decoding is canonical: accepted bytes are exactly the encoding of the record read |
| Codec.TruncatedRecordRejected | Assets/CaptureFramework/Core/NetworkManager.cs:153-186 | no proper prefix of a record decodes; it is a short read |
| Codec.EncodeStream | Assets/CaptureFramework/Core/NetworkManager.cs:114-119 | records written back to back: the stream is empty iff there are no records, starts with the first record's bytes, and every record takes at least one byte |
| Codec.WireViews | Assets/CaptureFramework/Core/NetworkManager.cs:114-119 | the collector sees the k-th record's wire view in position k, one per record |
| Codec.DecodeStream | Assets/CaptureFramework/Core/NetworkManager.cs:102-131 | the collector side reading a stream: an empty stream is no records, a non-empty one starts with the record `Decode` reads, any unreadable first record fails the stream with its error, and no stream yields more records than bytes |
| Codec.StreamRoundTrip | Assets/CaptureFramework/Core/NetworkManager.cs:102-131 | the framing is self-delimiting: records written back to back decode to the same records in order |
| Codec.PipelineRecordsSurvive | Assets/CaptureFramework/Core/NetworkManager.cs:36 | Begin, Data and End records as the client builds them reach the collector unchanged |
| Network.Enqueue | Assets/CaptureFramework/Core/NetworkManager.cs:50-56 | enqueuing appends the record at the back and changes nothing else |
| Network.Start | Assets/CaptureFramework/Core/NetworkManager.cs:30-41 | starting clears the queue to just the Begin record, raises the running flag and starts the thread |
| Network.Stop | Assets/CaptureFramework/Core/NetworkManager.cs:43-48 | stopping appends End and lowers the running flag |
| Network.OuterIteration | Assets/CaptureFramework/Core/NetworkManager.cs:92-100 | the head of the outer loop changes only the phase: it exits iff the running flag is down, starts streaming iff running and connected, and otherwise retries |
| Network.InnerIteration | Assets/CaptureFramework/Core/NetworkManager.cs:104-131 | one inner pass never enqueues or touches the running flag, moves at most the oldest record from the queue to the taken records, sets `isProcessing` iff it took one, delivers that record iff the connection is writable and the record encodes, and stays on the connection iff it idled or delivered |
| Network.StepAsWritten | Assets/CaptureFramework/Core/NetworkManager.cs:90-151 | one iteration of the loop as written never enqueues or touches the running flag, takes at most the oldest record, delivers at most that record, and, when the inner loop runs on a non-empty queue, delivers it iff the connection is writable and the record encodes; it leaves an idle or finished thread alone |
| Network.Step | Assets/CaptureFramework/Core/NetworkManager.cs:90-151 | the same per-iteration guarantees, the delivery rule included, for the loop with the corrected condition of line 102 |
| Network.EnqueueKeepsFifo | Assets/CaptureFramework/Core/NetworkManager.cs:50-56 | enqueue and stop keep the FIFO invariant |
| Network.InnerIterationKeepsFifo | Assets/CaptureFramework/Core/NetworkManager.cs:102-131 | one inner-loop pass keeps the FIFO invariant |
| Network.StepKeepsFifo | Assets/CaptureFramework/Core/NetworkManager.cs:90-151 | every loop iteration keeps the FIFO invariant, with either inner-loop condition |
| Network.DeliveredInEnqueueOrder | Assets/CaptureFramework/Core/NetworkManager.cs:106-119 | delivered records are a subsequence of the enqueued ones, in order |
| Network.StepTakesOldest | Assets/CaptureFramework/Core/NetworkManager.cs:102-120 | in the loop as written, a poll of a non-empty queue takes exactly the oldest record, sets `isProcessing`, and delivers the record and stays connected when the connection is writable and the record encodes |
| Network.StepOnEmptyQueue | Assets/CaptureFramework/Core/NetworkManager.cs:127-130 | in the loop as written, a poll of an empty queue only clears `isProcessing` |
| Network.SendFailureDropsRecord | Assets/CaptureFramework/Core/NetworkManager.cs:117-125 | in the loop as written, a failed send drops the record, undelivered and not re-queued, and leaves the connection |
| Network.NoReconnectAfterStop | Assets/CaptureFramework/Core/NetworkManager.cs:92 | once stopped, the outer loop exits rather than reconnecting |
| Network.StepDiffersOnlyOnLostDrain | Assets/CaptureFramework/Core/NetworkManager.cs:102 | the loop condition as written and as corrected differ only on a stopped, idle, still-connected sender with records left |
| Network.EndLostAfterIdlePoll | Assets/CaptureFramework/Core/NetworkManager.cs:102 | as written, a stop after an empty poll leaves End queued and unsent on a healthy connection |
| Network.DrainDeliversAll | Assets/CaptureFramework/Core/NetworkManager.cs:102-131 | with the corrected condition, a stopped sender on a healthy link delivers every queued record in order and exits |
| Network.EndDeliveredAfterIdlePoll | Assets/CaptureFramework/Core/NetworkManager.cs:43-48 | with the corrected condition, the End record of a stop is delivered |
| Network.NetworkManager.constructor | Assets/CaptureFramework/Core/NetworkManager.cs:15-25 | empty queue, flags down, no thread; `maxSendQueueSize` is 5000 |
| Network.NetworkManager.EnqueueFrameData | Assets/CaptureFramework/Core/NetworkManager.cs:50-56 | the new state is `Enqueue` of the old, and FIFO holds |
| Network.NetworkManager.StartNetworkLoop | Assets/CaptureFramework/Core/NetworkManager.cs:30-41 | address and port are taken from the settings; the new state is `Start` of the old |
| Network.NetworkManager.StopNetworkLoop | Assets/CaptureFramework/Core/NetworkManager.cs:43-48 | the new state is `Stop` of the old |
| Network.NetworkManager.OuterLoopHead | Assets/CaptureFramework/Core/NetworkManager.cs:92-100 | the outer loop's head updates the fields as `OuterIteration` says |
| Network.NetworkManager.InnerLoopPass | Assets/CaptureFramework/Core/NetworkManager.cs:104-131 | one inner-loop body updates the fields as `InnerIteration` says: the oldest record is taken and delivered iff the connection is writable and the record encodes, otherwise the connection is left |
| Network.NetworkManager.NetworkLoopStep | Assets/CaptureFramework/Core/NetworkManager.cs:90-151 | one thread iteration, with the inner-loop condition exactly as written, is `StepAsWritten` of the old state, so a polled record is delivered iff the connection is writable and the record encodes, and FIFO holds |
| Recording.CaptureFrame | Assets/CaptureFramework/Core/CaptureManager.cs:39 | a captured frame becomes a Data record with its image and telemetry |
| Recording.AfterStart | Assets/CaptureFramework/Core/CaptureManager.cs:52-68 | recording is on, the count is 0, the time limit is set, and the sender is restarted with Begin |
| Recording.AfterStop | Assets/CaptureFramework/Core/CaptureManager.cs:70-84 | recording is off, End is appended, and the event reaches a subscriber if there is one |
| Recording.AfterUpdate | Assets/CaptureFramework/Core/CaptureManager.cs:29-50 | while not recording nothing changes; while recording, it keeps recording iff no stop was requested, counts a ready frame, lowers the sender's running flag only on a stop, and the queue only grows, by at most a Data record and End |
| Recording.UpdateIdleWhenNotRecording | Assets/CaptureFramework/Core/CaptureManager.cs:31 | `Update` does nothing while not recording |
| Recording.UpdateQueuesNextFrame | Assets/CaptureFramework/Core/CaptureManager.cs:34-42 | a camera frame adds one Data record for id `frameCount` and advances the count |
| Recording.UpdateStopsOnRequest | Assets/CaptureFramework/Core/CaptureManager.cs:45-48 | a stop request ends the session with End after this update's frame |
| Recording.StopTwiceAppendsTwoEnds | Assets/CaptureFramework/Core/CaptureManager.cs:70-84 | `StopRecording` has no guard: calling it twice appends End twice and fires the event twice |
| Recording.DataFramesAt | Assets/CaptureFramework/Core/CaptureManager.cs:39-41 | the k-th record holds the capture for id `firstId + k`, with no gaps |
| Recording.UpdatesAppendData | Assets/CaptureFramework/Core/CaptureManager.cs:29-50 | n frame updates append exactly n Data records with consecutive ids |
| Recording.SessionIsBracketed | Assets/CaptureFramework/Core/CaptureManager.cs:52-84 | a session's queue is Begin, its Data records in id order, then End |
| Recording.CaptureManager.constructor | Assets/CaptureFramework/Core/CaptureManager.cs:12-20 | not recording, count 0, and a 30-second limit |
| Recording.CaptureManager.StartRecording | Assets/CaptureFramework/Core/CaptureManager.cs:52-68 | the new state is `AfterStart` of the old |
| Recording.CaptureManager.StopRecording | Assets/CaptureFramework/Core/CaptureManager.cs:70-84 | the new state is `AfterStop`, and it throws exactly when nobody subscribed |
| Recording.CaptureManager.Update | Assets/CaptureFramework/Core/CaptureManager.cs:29-50 | the new state is `AfterUpdate`, and it throws only on a stop with no subscriber |
| LegacyCapture.Evict | Assets/CaptureFramework/CaptureManager.cs:106-110 | eviction keeps the newest frames, fewer than `maxQueueSize`, and leaves a short queue alone |
| LegacyCapture.DropOldest | Assets/CaptureFramework/CaptureManager.cs:106-110 | the dequeue loop computes `Evict`, or throws when `maxQueueSize < 1` empties the queue |
| LegacyCapture.Offer | Assets/CaptureFramework/CaptureManager.cs:103-116 | after offering a frame the queue holds 1 to `maxQueueSize` frames, the new one last |
| LegacyCapture.OfferAllKeepsNewest | Assets/CaptureFramework/CaptureManager.cs:103-116 | after any run of frames the queue is exactly the newest `maxQueueSize` of everything offered |
| LegacyCapture.ShouldSendCases | Assets/CaptureFramework/CaptureManager.cs:202-211 | on a running, connected loop, an iteration sends iff it took a frame, the link is writable and the condition of line 211, as C# groups it, holds; that condition means streaming is on or another frame remains |
| LegacyCapture.AfterStart | Assets/CaptureFramework/CaptureManager.cs:51-69 | `Start` raises `isRunning` and starts the thread, leaving the queue as it was |
| LegacyCapture.AfterDestroy | Assets/CaptureFramework/CaptureManager.cs:276-279 | `OnDestroy` lowers `isRunning` only |
| LegacyCapture.AfterEnqueue | Assets/CaptureFramework/CaptureManager.cs:103-116 | with a usable bound the queue keeps a suffix of the old queue plus the frame last, within the bound, and the frame is counted; with a bound below 1 the queue is emptied and nothing is counted; frames leaving the front are accounted for |
| LegacyCapture.AfterUpdate | Assets/CaptureFramework/CaptureManager.cs:71-143 | a frame is queued only while streaming; Button Two disables and wins over Button One, which enables and resets the count; after the throw of a bound below 1 the buttons are not read |
| LegacyCapture.ConsumerStep | Assets/CaptureFramework/CaptureManager.cs:183-274 | one loop iteration takes at most the oldest frame, sends at most that frame, and, on a running, connected link, sends the taken frame iff the link is writable and streaming is on or another frame remains behind it |
| LegacyCapture.AfterEnqueueKeepsValid | Assets/CaptureFramework/CaptureManager.cs:103-116 | the locked enqueue keeps the queue bound and the bookkeeping invariant |
| LegacyCapture.AfterUpdateKeepsValid | Assets/CaptureFramework/CaptureManager.cs:71-143 | `Update` keeps the invariant |
| LegacyCapture.ConsumerStepKeepsValid | Assets/CaptureFramework/CaptureManager.cs:183-274 | the network loop keeps the invariant |
| LegacyCapture.UpdateQueuesFrame | Assets/CaptureFramework/CaptureManager.cs:84-116 | while streaming, a camera update queues the frame last and counts it |
| LegacyCapture.UpdateIgnoresFramesWhenDisabled | Assets/CaptureFramework/CaptureManager.cs:84 | while not streaming, frames are not queued |
| LegacyCapture.ButtonsToggleStreaming | Assets/CaptureFramework/CaptureManager.cs:121-142 | Button One enables streaming and resets the count; Button Two disables it, also when both are pressed |
| LegacyCapture.ConsumerTakesOldest | Assets/CaptureFramework/CaptureManager.cs:202-209 | the network loop takes the oldest frame, or nothing from an empty queue |
| LegacyCapture.SendErrorDropsFrame | Assets/CaptureFramework/CaptureManager.cs:243-247 | a write error drops the frame and leaves the connection |
| LegacyCapture.DisabledDiscardsLastFrame | Assets/CaptureFramework/CaptureManager.cs:211 | with streaming off, the last queued frame is taken and never sent |
| LegacyCapture.CaptureManager.constructor | Assets/CaptureFramework/CaptureManager.cs:24-41 | `maxQueueSize` defaults to 1000; empty queue; not enabled, not running |
| LegacyCapture.CaptureManager.Start | Assets/CaptureFramework/CaptureManager.cs:51-69 | the new state is `AfterStart` of the old |
| LegacyCapture.CaptureManager.OnDestroy | Assets/CaptureFramework/CaptureManager.cs:276-279 | the new state is `AfterDestroy` of the old |
| LegacyCapture.CaptureManager.EnqueueDroppingOldest | Assets/CaptureFramework/CaptureManager.cs:103-116 | the new state is `AfterEnqueue`, and it throws exactly when `maxQueueSize < 1` |
| LegacyCapture.CaptureManager.Update | Assets/CaptureFramework/CaptureManager.cs:71-143 | the new state is `AfterUpdate` of the old, with the invariant kept |
| LegacyCapture.CaptureManager.NetworkLoopStep | Assets/CaptureFramework/CaptureManager.cs:183-274 | the new state is `ConsumerStep` of the old, so a taken frame is sent iff the link is writable and streaming is on or another frame remains, with the invariant kept |
| Settings.GetImageResolution | Assets/CaptureFramework/Settings/SettingsManager.cs:94-109 | every size is 4:3 with a width from 320 to 1280; a value without a name gets 800x600 |
| Settings.ResolutionSizes | Assets/CaptureFramework/Settings/SettingsManager.cs:94-109 | every size is 4:3 and positive, sizes shrink strictly down the enum, and unnamed values get the 800x600 size |
| Settings.FieldDefaults | Assets/CaptureFramework/Settings/SettingsManager.cs:15-21 | the field initialisers: 172.20.10.3, 8080, quality 75, 800x600, left eye |
| Settings.AssignServerIP | Assets/CaptureFramework/Settings/SettingsManager.cs:24-35 | the address is stored; the network event is raised iff the value changed |
| Settings.AssignServerPort | Assets/CaptureFramework/Settings/SettingsManager.cs:37-48 | the port is stored; the network event is raised iff the value changed |
| Settings.AssignImageQuality | Assets/CaptureFramework/Settings/SettingsManager.cs:50-61 | the quality is stored; the graphics event is raised iff the value changed |
| Settings.AssignImageResolution | Assets/CaptureFramework/Settings/SettingsManager.cs:63-75 | the resolution is stored; graphics then camera events are raised iff the value changed |
| Settings.AssignCameraEye | Assets/CaptureFramework/Settings/SettingsManager.cs:77-88 | the eye is stored; the camera event is raised iff the value changed |
| Settings.AssignTwiceRaisesOnce | Assets/CaptureFramework/Settings/SettingsManager.cs:24-88 | assigning the same value again changes nothing and raises nothing |
| Settings.Load | Assets/CaptureFramework/Settings/SettingsManager.cs:116-123 | loading yields the stored values, and raises events iff some value differs |
| Settings.Save | Assets/CaptureFramework/Settings/SettingsManager.cs:125-133 | saving writes the five keys and leaves every other key alone |
| Settings.SaveThenLoad | Assets/CaptureFramework/Settings/SettingsManager.cs:116-133 | loading what was saved gives the same settings back and raises nothing |
| Settings.StoredValues | Assets/CaptureFramework/Settings/SettingsManager.cs:116-123 | an empty store gives the fallbacks 192.168.1.1, 8080, quality 75, 800x600 and the left eye; per key, see `StoredValuesReadKeys` |
| Settings.StoredValuesReadKeys | Assets/CaptureFramework/Settings/SettingsManager.cs:116-123 | each setting read for loading is the value under its key when the key holds the right kind, and the fallback when the key is missing |
| Settings.LoadFromEmptyStore | Assets/CaptureFramework/Settings/SettingsManager.cs:118-122 | an empty store loads the defaults, but with the address 192.168.1.1, not the field's 172.20.10.3 |
| Settings.Awake | Assets/CaptureFramework/Settings/SettingsManager.cs:135-146 | the first instance becomes the singleton; any later one is destroyed |
| Settings.FirstAwakeWins | Assets/CaptureFramework/Settings/SettingsManager.cs:135-146 | over any wake order, the first instance wins and all the others are destroyed |
| Settings.LaterAwakesDestroyed | Assets/CaptureFramework/Settings/SettingsManager.cs:142-145 | once a singleton exists, every later instance is destroyed and the singleton is kept |
| Settings.SettingsManager.constructor | Assets/CaptureFramework/Settings/SettingsManager.cs:15-21 | the field defaults, with no events raised |
| Settings.SettingsManager.SetServerIP | Assets/CaptureFramework/Settings/SettingsManager.cs:24-35 | state and raised events follow `AssignServerIP` |
| Settings.SettingsManager.SetServerPort | Assets/CaptureFramework/Settings/SettingsManager.cs:37-48 | state and raised events follow `AssignServerPort` |
| Settings.SettingsManager.SetImageQuality | Assets/CaptureFramework/Settings/SettingsManager.cs:50-61 | state and raised events follow `AssignImageQuality` |
| Settings.SettingsManager.SetImageResolution | Assets/CaptureFramework/Settings/SettingsManager.cs:63-75 | state and raised events follow `AssignImageResolution` |
| Settings.SettingsManager.SetCameraEye | Assets/CaptureFramework/Settings/SettingsManager.cs:77-88 | state and raised events follow `AssignCameraEye` |
| Settings.SettingsManager.LoadSettings | Assets/CaptureFramework/Settings/SettingsManager.cs:116-123 | state and raised events follow `Load` |
| Settings.SettingsManager.SaveSettings | Assets/CaptureFramework/Settings/SettingsManager.cs:125-133 | the store written holds exactly the current settings under the five keys |
| SettingsUI.NatToDigits | Assets/CaptureFramework/UI/SettingsUIManager.cs:25 | decimal text is non-empty digits with no leading zero |
| SettingsUI.IntToString | Assets/CaptureFramework/UI/SettingsUIManager.cs:25 | `int.ToString` starts with a sign or a digit |
| SettingsUI.DigitsRoundTrip | Assets/CaptureFramework/UI/SettingsUIManager.cs:25 | the digits of a number read back as that number |
| SettingsUI.TrimStart | Assets/CaptureFramework/UI/SettingsUIManager.cs:59 | the result is a suffix that starts with no white space, and everything removed is white space |
| SettingsUI.TrimEnd | Assets/CaptureFramework/UI/SettingsUIManager.cs:59 | the result is a prefix that ends with no white space, and everything removed is white space |
| SettingsUI.ParseTrimmed | Assets/CaptureFramework/UI/SettingsUIManager.cs:59 | a successful parse saw at least one digit |
| SettingsUI.ParseSigned | Assets/CaptureFramework/UI/SettingsUIManager.cs:59 | an optional `+` or `-` and digits parse to their signed value when it fits in an `int`, and are rejected when it does not |
| SettingsUI.TrimStartWhite | Assets/CaptureFramework/UI/SettingsUIManager.cs:59 | leading white space, and only that, is removed before the number |
| SettingsUI.TrimEndWhite | Assets/CaptureFramework/UI/SettingsUIManager.cs:59 | trailing white space, and only that, is removed after the number |
| SettingsUI.TryParse | Assets/CaptureFramework/UI/SettingsUIManager.cs:59 | blank text is rejected and an accepted text holds a digit; the full characterisation is `ParseShape` and `ParseShapeOf` |
| SettingsUI.ParseShape | Assets/CaptureFramework/UI/SettingsUIManager.cs:59 | `int.TryParse` of white space, an optional sign, digits and white space gives the digits' signed value when it fits in an `int`, and fails when it does not |
| SettingsUI.ParseShapeOf | Assets/CaptureFramework/UI/SettingsUIManager.cs:59 | conversely, every accepted text is white space, an optional sign, at least one digit and white space, and the digits' value is the magnitude of the number read |
| SettingsUI.SignAndDigits | Assets/CaptureFramework/UI/SettingsUIManager.cs:59 | what is left after trimming and accepted is an optional sign followed by digits whose signed value is the result |
| SettingsUI.SplitTrimmed | Assets/CaptureFramework/UI/SettingsUIManager.cs:59 | any text is the white space before, the trimmed text and the white space after |
| SettingsUI.ParseNeedsDigit | Assets/CaptureFramework/UI/SettingsUIManager.cs:59-66 | text without a digit is rejected, so the port is left unchanged |
| SettingsUI.ParseShownNumber | Assets/CaptureFramework/UI/SettingsUIManager.cs:25 | the port text the panel shows parses back to the port |
| SettingsUI.IndexOf | Assets/CaptureFramework/UI/SettingsUIManager.cs:30 | `Array.IndexOf` is -1 iff the name is absent, and otherwise its first position |
| SettingsUI.QualityName | Assets/CaptureFramework/Settings/SettingsManager.cs:90 | an enum value's name is in the name list iff the value is named |
| SettingsUI.ResolutionName | Assets/CaptureFramework/Settings/SettingsManager.cs:92 | an enum value's name is in the name list iff the value is named |
| SettingsUI.InitialQualityIndex | Assets/CaptureFramework/UI/SettingsUIManager.cs:30 | the quality dropdown index is an option index; unnamed values select 0 |
| SettingsUI.InitialResolutionIndex | Assets/CaptureFramework/UI/SettingsUIManager.cs:35 | the resolution dropdown index is an option index; unnamed values select 0 |
| SettingsUI.InitialEyeIndex | Assets/CaptureFramework/UI/SettingsUIManager.cs:40 | the eye dropdown shows 0 iff the eye is Left, otherwise 1 |
| SettingsUI.QualityFromIndex | Assets/CaptureFramework/UI/SettingsUIManager.cs:73 | options 0-3 give the named qualities 100, 75, 50, 25; other values are 100 - 25v wrapped to `int` |
| SettingsUI.ResolutionFromIndex | Assets/CaptureFramework/UI/SettingsUIManager.cs:80-86 | the lookup succeeds iff 0 <= v < 4 and yields enum value v |
| SettingsUI.EyeFromIndex | Assets/CaptureFramework/UI/SettingsUIManager.cs:92 | 0 gives Left and any other value gives Right |
| SettingsUI.QualityLabels | Assets/CaptureFramework/UI/SettingsUIManager.cs:29 | the quality option labels are the numbers' decimal text |
| SettingsUI.WidthLabels | Assets/CaptureFramework/UI/SettingsUIManager.cs:34 | the widths in the resolution labels are the sizes' decimal text |
| SettingsUI.HeightLabels | Assets/CaptureFramework/UI/SettingsUIManager.cs:34 | the heights in the resolution labels are the sizes' decimal text |
| SettingsUI.OptionsMatchSettings | Assets/CaptureFramework/UI/SettingsUIManager.cs:29-35 | each option's label names the quality and the image size that selecting it stores |
| SettingsUI.QualityIndexRoundTrip | Assets/CaptureFramework/UI/SettingsUIManager.cs:30 | selecting the shown quality option stores the same quality |
| SettingsUI.ResolutionIndexRoundTrip | Assets/CaptureFramework/UI/SettingsUIManager.cs:35 | selecting the shown resolution option stores the same resolution |
| SettingsUI.InitialWidgets | Assets/CaptureFramework/UI/SettingsUIManager.cs:24-40 | the panel shows the address, a port text that parses to the port, in-range indices, and eye 0 iff Left |
| SettingsUI.WidgetsRoundTrip | Assets/CaptureFramework/UI/SettingsUIManager.cs:24-93 | for named settings, feeding each widget's initial value to its handler changes nothing and raises nothing |
| SettingsUI.OnServerIPChanged | Assets/CaptureFramework/UI/SettingsUIManager.cs:51-54 | the edited address goes through the property setter |
| SettingsUI.OnServerPortChanged | Assets/CaptureFramework/UI/SettingsUIManager.cs:57-67 | a parsed port goes through the setter; unparsable text changes nothing |
| SettingsUI.OnImageQualityChanged | Assets/CaptureFramework/UI/SettingsUIManager.cs:70-74 | the setter receives `QualityFromIndex(value)` |
| SettingsUI.OnImageResolutionChanged | Assets/CaptureFramework/UI/SettingsUIManager.cs:77-87 | throws iff the index is outside the array, changing nothing; otherwise the setter receives the resolution |
| SettingsUI.OnCameraEyeChanged | Assets/CaptureFramework/UI/SettingsUIManager.cs:90-93 | the setter receives Left for 0 and Right otherwise |
| Tracking.BonesOf | Assets/CaptureFramework/Core/TrackingDataProvider.cs:49-61 | one bone entry per skeleton bone, in order, with its index as id and its local pose |
| Tracking.HandData.constructor | Assets/CaptureFramework/Core/TrackingDataProvider.cs:33 | a fresh hand record is untracked, zero pose, and null arrays |
| Tracking.CopyBones | Assets/CaptureFramework/Core/TrackingDataProvider.cs:43-61 | the bone loop fills a fresh array with exactly `BonesOf` |
| Tracking.CopyFingers | Assets/CaptureFramework/Core/TrackingDataProvider.cs:45-67 | the finger loop fills three fresh five-entry arrays, entry i from finger i |
| Tracking.CaptureHandData | Assets/CaptureFramework/Core/TrackingDataProvider.cs:31-78 | a fresh record with the controller's pose; with a usable skeleton, all bones and five pinch entries; otherwise empty arrays and no pinch-state array |
| Tracking.TrackingData.constructor | Assets/CaptureFramework/Core/TrackingDataProvider.cs:16 | a fresh tracking record is zeroed with no hands |
| Tracking.CaptureTrackingData | Assets/CaptureFramework/Core/TrackingDataProvider.cs:14-29 | the frame id, the clock and the head pose are copied, with two distinct hand records each shaped from its own hand |
| Tracking.ControllerAlwaysRecorded | Assets/CaptureFramework/Core/TrackingDataProvider.cs:35-47 | the controller pose is always recorded; pinch states exist iff there is skeletal data, and then bone ids run 0..n-1 |

## Left out

- Threads, locks, `Thread.Sleep`, `Join` and the reconnect delay. Each network loop is one
  iteration at a time (`StepAsWritten`, `ConsumerStep`), and interleavings between the frame
  producer and the network thread are not modelled. `frameQueue.Count` read outside the
  lock at `CaptureManager.cs:211` is modelled as the count right after the dequeue.
- A second `StartNetworkLoop` while an old thread still runs. The model has one loop
  phase, so the orphaned thread is not modelled.
- The TCP connection. Connecting, the connected flag and write success are a `Link`
  parameter per iteration.
- Network.SendFailureDropsRecord: bytes already written before a failed write (a partial
  record on the stream) are not modelled. A failed send delivers nothing.
- LegacyCapture.SendErrorDropsFrame: a write that fails partway through a record
  (`CaptureManager.cs:217-247`) leaves the record's first bytes on the old connection. The
  model delivers nothing for that frame and does not model the partial record.
- The server health check in `NetworkManager.Update`, `OnNetworkStatusChanged` and
  `APIClient`. These are HTTP and events outside the streaming core.
- The selected collection. `SettingsManager.Instance.Collection` is read at
  `NetworkManager.cs:36`, but `Settings/SettingsManager.cs` declares no such property, so
  it is an optional id parameter.
- Image capture and encoding in `FrameDataProvider` (textures, JPEG, depth PNG). The image
  is an input blob. `DepthData` is not declared in `Data/FrameData.cs` and is not part of
  this model.
- JSON serialisation (`JsonUtility.ToJson`) and its UTF-8 encoding. Telemetry is the
  encoded byte string. `Data/TrackingData.cs` and `TrackingData.cs` are not part of this
  model beyond the fields `Tracking` needs.
- The legacy `CaptureTrackingData` (`CaptureManager.cs:145-181`). It builds telemetry from
  controller poses, and its result is an input.
- Floating-point time. `Time.time`, `deltaTime`, the recording timer and the FPS logs are
  folded into a boolean stop request. Poses are `real`s carried unchanged, and finger
  confidence is an input number.
- The legacy `Start` coroutine's wait for the webcam texture and the texture allocation.
  `Start` is modelled from the point the thread starts.
- `StartCapture`, `PauseCapture`, the environment depth manager, the recording overlay and
  `MenuController`. These are UI and device toggles.
- Recording.UpdateQueuesNextFrame: `frameCount` and `framesCaptured` are unbounded, so the
  32-bit wrap after 2^31 frames is not modelled.
- The `PlayerPrefs` backing file and `PlayerPrefs.Save`. The store is a map. A key stored
  with the other type reads as the default.
- Settings.Awake: `DontDestroyOnLoad` and `Destroy` are modelled as registry membership.
  Instances are identified by number.
- SettingsUI.TryParse: parses under the invariant culture only. Culture-specific sign
  symbols and trailing NUL characters, which `int.TryParse` also accepts, are not modelled.
- The settings panel's widgets, listener registration and `Debug` logging. Handlers are
  methods on the settings object.
- Other UI scripts (`HMDFollowingUI`, `RecordingMenuUIManager`, `MainMenuUIManager`,
  `XRUIHapticFeedback`, `RecordingSummary`). They are presentation, not the core.

## Findings

The sender's code shows that a stop is meant to drain the queue. The `isProcessing` flag
(`NetworkManager.cs:25`) is set when a record is taken (line 116) and cleared on an empty
poll (line 129), and its only reader is the inner-loop condition at line 102. It exists to
keep the inner loop alive after `StopNetworkLoop` has lowered the running flag. That
method (lines 43-48) enqueues End before lowering the flag, so End is meant to be sent.
The condition at line 102 does not finish that drain when the last poll was empty.
`NetworkManager.NetworkLoopStep` runs the loop as written (`StepAsWritten`), and
`EndLostAfterIdlePoll` exhibits the loss. `Step` is the same loop with the drain completed,
and `DrainDeliversAll` proves it sends every queued record.

| source | as written | input that shows it | evidently intended | confidence | as-written member | corrected member |
|---|---|---|---|---|---|---|
| Assets/CaptureFramework/Core/NetworkManager.cs:102 | the inner loop runs while `client.Connected && (isNetworkLoopRunning \|\| isProcessing)` | streaming on a healthy connection, the thread polls an empty queue (`isProcessing` becomes false), then `StopNetworkLoop` appends End and lowers the running flag: the inner loop exits and the outer loop returns with End still queued | keep streaming while records remain (`\|\| frameQueue.Count > 0`), so End and every earlier record is sent before the thread returns | medium, not executed | Network.EndLostAfterIdlePoll | Network.DrainDeliversAll |
