/**
 * Hand-data shaping (Core/TrackingDataProvider.cs): how one hand's record is filled in
 * from the headset's readings. The readings themselves (controller pose, hand and
 * skeleton state, per-finger pinch values, the head pose and the clock) are inputs;
 * floating-point poses are carried through unchanged as opaque values.
 */
module Tracking {
  import opened Wrappers
  import opened Bytes

  datatype Vector3 = Vector3(x: real, y: real, z: real)
  datatype Quaternion = Quaternion(x: real, y: real, z: real, w: real)

  /** A bone entry of the record: its index in the skeleton and its local pose. */
  datatype BoneData = BoneData(id: int, position: Vector3, rotation: Quaternion)

  /** A bone transform as the skeleton reports it. */
  datatype BonePose = BonePose(localPosition: Vector3, localRotation: Quaternion)

  /** What the hand reports for one finger: pinching, pinch strength, and the tracking confidence as a number. */
  datatype FingerReading = FingerReading(isPinching: bool, pinchStrength: real, confidence: real)

  /** The five fingers, thumb first, in the order of the hand's finger enum. */
  type FiveFingers = s: seq<FingerReading> | |s| == 5
    witness [FingerReading(false, 0.0, 0.0), FingerReading(false, 0.0, 0.0), FingerReading(false, 0.0, 0.0),
             FingerReading(false, 0.0, 0.0), FingerReading(false, 0.0, 0.0)]

  /** The hand component, when one is assigned. */
  datatype HandSensor = HandSensor(isTracked: bool, fingers: FiveFingers)

  /** The skeleton component, when one is assigned. */
  datatype SkeletonSensor = SkeletonSensor(isInitialized: bool, bones: seq<BonePose>)

  /** The controller readings for the hand: whether its position is tracked, and its pose. */
  datatype ControllerReading = ControllerReading(positionTracked: bool, position: Vector3, rotation: Quaternion)

  const Origin := Vector3(0.0, 0.0, 0.0)
  const ZeroRotation := Quaternion(0.0, 0.0, 0.0, 0.0)

  /** The condition for skeletal data: both components present, tracked, initialised, with bones. */
  predicate HasSkeleton(hand: Option<HandSensor>, skeleton: Option<SkeletonSensor>) {
    && hand.Some? && skeleton.Some?
    && hand.value.isTracked && skeleton.value.isInitialized
    && |skeleton.value.bones| > 0
  }

  /** The bone entries built from a skeleton: entry `i` is bone `i` with id `i`. */
  function BonesOf(skeleton: SkeletonSensor): (r: seq<BoneData>)
    ensures |r| == |skeleton.bones|
    ensures forall i :: 0 <= i < |r| ==>
              r[i].id == i && r[i].position == skeleton.bones[i].localPosition &&
              r[i].rotation == skeleton.bones[i].localRotation
  {
    seq(|skeleton.bones|, i requires 0 <= i < |skeleton.bones| =>
      BoneData(i, skeleton.bones[i].localPosition, skeleton.bones[i].localRotation))
  }

  /** One hand's record. Arrays are null until assigned, as in a fresh C# object. */
  class HandData {
    var isTracked: bool
    var wristPosition: Vector3
    var wristRotation: Quaternion
    var hasSkeletalData: bool
    var bones: array?<BoneData>
    var fingerPinchStates: array?<bool>
    var fingerPinchStrengths: array?<real>
    var fingerPinchConfidence: array?<real>

    constructor ()
      ensures !isTracked && !hasSkeletalData && wristPosition == Origin && wristRotation == ZeroRotation
      ensures bones == null && fingerPinchStates == null && fingerPinchStrengths == null && fingerPinchConfidence == null
    {
      isTracked, hasSkeletalData := false, false;
      wristPosition, wristRotation := Origin, ZeroRotation;
      bones, fingerPinchStates, fingerPinchStrengths, fingerPinchConfidence := null, null, null, null;
    }

    /**
     * The record as `CaptureHandData` leaves it for the given readings. With skeletal
     * data: all bones, in skeleton order with their index as id, and five pinch entries,
     * entry `i` from finger `i`. Without: empty bone and pinch arrays, and no pinch-state
     * array at all.
     */
    ghost predicate ShapedFrom(hand: Option<HandSensor>, skeleton: Option<SkeletonSensor>, controller: ControllerReading)
      reads this, bones, fingerPinchStates, fingerPinchStrengths, fingerPinchConfidence
    {
      && isTracked == controller.positionTracked
      && wristPosition == controller.position && wristRotation == controller.rotation
      && hasSkeletalData == HasSkeleton(hand, skeleton)
      && bones != null && fingerPinchStrengths != null && fingerPinchConfidence != null
      && (hasSkeletalData ==>
            && bones[..] == BonesOf(skeleton.value)
            && fingerPinchStates != null
            && fingerPinchStates.Length == 5 && fingerPinchStrengths.Length == 5 && fingerPinchConfidence.Length == 5
            && (forall i :: 0 <= i < 5 ==>
                  && fingerPinchStates[i] == hand.value.fingers[i].isPinching
                  && fingerPinchStrengths[i] == hand.value.fingers[i].pinchStrength
                  && fingerPinchConfidence[i] == hand.value.fingers[i].confidence))
      && (!hasSkeletalData ==>
            && bones.Length == 0 && fingerPinchStrengths.Length == 0 && fingerPinchConfidence.Length == 0
            && fingerPinchStates == null)
    }
  }

  /** The bone loop: a fresh array with one entry per skeleton bone, its index as id. */
  method CopyBones(skeleton: SkeletonSensor) returns (bones: array<BoneData>)
    ensures fresh(bones) && bones[..] == BonesOf(skeleton)
  {
    var skeletonBones := skeleton.bones;
    bones := new BoneData[|skeletonBones|];
    for i := 0 to |skeletonBones|
      invariant forall j :: 0 <= j < i ==>
                  bones[j] == BoneData(j, skeletonBones[j].localPosition, skeletonBones[j].localRotation)
    {
      bones[i] := BoneData(i, skeletonBones[i].localPosition, skeletonBones[i].localRotation);
    }
  }

  /** The finger loop: three fresh arrays of five entries, entry `i` from finger `i`. */
  method CopyFingers(fingers: FiveFingers) returns (states: array<bool>, strengths: array<real>, confidence: array<real>)
    ensures fresh(states) && fresh(strengths) && fresh(confidence)
    ensures states.Length == 5 && strengths.Length == 5 && confidence.Length == 5
    ensures forall i :: 0 <= i < 5 ==>
              states[i] == fingers[i].isPinching && strengths[i] == fingers[i].pinchStrength &&
              confidence[i] == fingers[i].confidence
  {
    states, strengths, confidence := new bool[5], new real[5], new real[5];
    for i := 0 to 5
      invariant forall j :: 0 <= j < i ==>
                  states[j] == fingers[j].isPinching && strengths[j] == fingers[j].pinchStrength &&
                  confidence[j] == fingers[j].confidence
    {
      states[i] := fingers[i].isPinching;
      strengths[i] := fingers[i].pinchStrength;
      confidence[i] := fingers[i].confidence;
    }
  }

  /** `CaptureHandData`: a fresh record, shaped from the readings. */
  method CaptureHandData(hand: Option<HandSensor>, skeleton: Option<SkeletonSensor>, controller: ControllerReading)
    returns (handData: HandData)
    ensures fresh(handData) && fresh(handData.bones) && fresh(handData.fingerPinchStrengths)
    ensures fresh(handData.fingerPinchConfidence)
    ensures handData.fingerPinchStates != null ==> fresh(handData.fingerPinchStates)
    ensures handData.ShapedFrom(hand, skeleton, controller)
  {
    handData := new HandData();
    handData.isTracked := controller.positionTracked;
    handData.wristPosition := controller.position;
    handData.wristRotation := controller.rotation;
    if HasSkeleton(hand, skeleton) {
      handData.hasSkeletalData := true;
      var bones := CopyBones(skeleton.value);
      var states, strengths, confidence := CopyFingers(hand.value.fingers);
      handData.bones, handData.fingerPinchStates := bones, states;
      handData.fingerPinchStrengths, handData.fingerPinchConfidence := strengths, confidence;
    } else {
      handData.hasSkeletalData := false;
      handData.bones := new BoneData[0];
      handData.fingerPinchStrengths := new real[0];
      handData.fingerPinchConfidence := new real[0];
    }
  }

  /** The record of one tracking sample. */
  class TrackingData {
    var frameId: int32
    var timestamp: int
    var headPosition: Vector3
    var headRotation: Quaternion
    var leftHand: HandData?
    var rightHand: HandData?

    constructor ()
      ensures frameId == 0 && timestamp == 0 && headPosition == Origin && headRotation == ZeroRotation
      ensures leftHand == null && rightHand == null
    {
      frameId, timestamp := 0, 0;
      headPosition, headRotation := Origin, ZeroRotation;
      leftHand, rightHand := null, null;
    }
  }

  /** The readings of one hand: its hand and skeleton components and its controller. */
  datatype HandInputs = HandInputs(hand: Option<HandSensor>, skeleton: Option<SkeletonSensor>, controller: ControllerReading)

  /**
   * `CaptureTrackingData`: the frame id copied, the clock's milliseconds and the left
   * camera's pose as given, and two separate hand records shaped from each hand's readings.
   */
  method CaptureTrackingData(frameId: int32, unixMillis: int, headPosition: Vector3, headRotation: Quaternion,
                             left: HandInputs, right: HandInputs)
    returns (data: TrackingData)
    ensures fresh(data) && data.frameId == frameId && data.timestamp == unixMillis
    ensures data.headPosition == headPosition && data.headRotation == headRotation
    ensures data.leftHand != null && data.rightHand != null && data.leftHand != data.rightHand
    ensures data.leftHand.ShapedFrom(left.hand, left.skeleton, left.controller)
    ensures data.rightHand.ShapedFrom(right.hand, right.skeleton, right.controller)
  {
    data := new TrackingData();
    data.frameId := frameId;
    data.timestamp := unixMillis;
    data.headPosition, data.headRotation := headPosition, headRotation;
    var leftHand := CaptureHandData(left.hand, left.skeleton, left.controller);
    data.leftHand := leftHand;
    var rightHand := CaptureHandData(right.hand, right.skeleton, right.controller);
    data.rightHand := rightHand;
  }

  /** Without skeletal data the record still carries the controller's tracking flag and wrist pose. */
  lemma ControllerAlwaysRecorded(h: HandData, hand: Option<HandSensor>, skeleton: Option<SkeletonSensor>, controller: ControllerReading)
    requires h.ShapedFrom(hand, skeleton, controller)
    ensures h.isTracked == controller.positionTracked && h.wristPosition == controller.position
    ensures h.hasSkeletalData <==> h.fingerPinchStates != null
    ensures h.hasSkeletalData ==> h.bones.Length == |skeleton.value.bones| > 0 &&
                                  forall i :: 0 <= i < h.bones.Length ==> h.bones[i].id == i
  {
  }
}
