/**
 * The OSC emitter: every call turns pipeline state into OSC messages for the
 * `/thesidia/...` address space. The UDP client is modelled as the sequence of
 * messages it has been asked to send, which each call extends.
 */
module OscOutput {
  import opened Wrappers
  import opened Landmarks

  const GestureAddress := "/thesidia/gesture"
  const FpsAddress := "/thesidia/fps"
  const LandmarksAddress := "/thesidia/hand/0/landmarks"
  const HandednessAddress := "/thesidia/hand/0/handedness"

  /** One OSC argument: the emitter sends only strings and floats. */
  datatype Arg = Str(s: string) | Float(f: real)

  /**
   * One message handed to the client. A single non-list value (the fps, the
   * handedness) goes out as a message with exactly one argument.
   */
  datatype Message = Message(address: string, args: seq<Arg>)

  /** The gesture message: the gesture or "NONE", and the symbol or "". */
  function GestureMessage(gesture: Option<string>, symbol: Option<string>): (m: Message)
    ensures m.address == GestureAddress && |m.args| == 2
    ensures Truthy(gesture) ==> m.args[0] == Str(gesture.value)
    ensures !Truthy(gesture) ==> m.args[0] == Str("NONE")
    ensures Truthy(symbol) ==> m.args[1] == Str(symbol.value)
    ensures !Truthy(symbol) ==> m.args[1] == Str("")
  {
    Message(GestureAddress, [Str(OrElse(gesture, "NONE")), Str(OrElse(symbol, ""))])
  }

  /** The frame-rate message: one float argument. */
  function FpsMessage(fps: real): (m: Message)
    ensures m.address == FpsAddress && m.args == [Float(fps)]
  {
    Message(FpsAddress, [Float(fps)])
  }

  /**
   * The flat argument list of a hand's keypoints: x, y, z of point 0, then of
   * point 1, and so on. Entry 3i + c is coordinate c of point i.
   */
  function Flatten(pts: seq<Point>): (r: seq<Arg>)
    ensures |r| == 3 * |pts|
    ensures forall i :: 0 <= i < |pts| ==>
      r[3 * i] == Float(pts[i].x) && r[3 * i + 1] == Float(pts[i].y) && r[3 * i + 2] == Float(pts[i].z)
    decreases |pts|
  {
    if pts == [] then []
    else
      var n := |pts| - 1;
      Flatten(pts[..n]) + [Float(pts[n].x), Float(pts[n].y), Float(pts[n].z)]
  }

  /**
   * How a receiver reads a flat landmark list back into points: a multiple of three
   * float arguments, taken three at a time. Anything else is not a landmark list.
   */
  function Unflatten(args: seq<Arg>): (r: Option<seq<Point>>)
    ensures r.Some? ==> 3 * |r.value| == |args|
  {
    if |args| % 3 == 0 && forall k :: 0 <= k < |args| ==> args[k].Float? then
      Some(seq(|args| / 3, i requires 0 <= i < |args| / 3 =>
        Point(args[3 * i].f, args[3 * i + 1].f, args[3 * i + 2].f)))
    else None
  }

  /** Reading the flat list back gives exactly the points that were flattened. */
  lemma UnflattenFlatten(pts: seq<Point>)
    ensures Unflatten(Flatten(pts)) == Some(pts)
  {
    var r := Flatten(pts);
    forall k | 0 <= k < |r|
      ensures r[k].Float?
    {
      var i := k / 3;
      assert i < |pts| && pts[i] == pts[i];
      assert k == 3 * i || k == 3 * i + 1 || k == 3 * i + 2;
    }
    var u := Unflatten(r);
    assert u.Some?;
    assert u.value == pts;
  }

  /** Flattening the points of a well-formed list gives the list back. */
  lemma FlattenUnflatten(args: seq<Arg>)
    requires Unflatten(args).Some?
    ensures Flatten(Unflatten(args).value) == args
  {
    var pts := Unflatten(args).value;
    var r := Flatten(pts);
    forall k | 0 <= k < |args|
      ensures r[k] == args[k]
    {
      var i := k / 3;
      assert i < |pts| && pts[i] == Point(args[3 * i].f, args[3 * i + 1].f, args[3 * i + 2].f);
      assert args[3 * i].Float? && args[3 * i + 1].Float? && args[3 * i + 2].Float?;
      assert k == 3 * i || k == 3 * i + 1 || k == 3 * i + 2;
    }
  }

  /**
   * The messages `send_landmarks` produces: none when landmark streaming is off;
   * an empty landmark list when no hand is present; otherwise the first hand's
   * flattened keypoints followed by its handedness.
   */
  function LandmarkMessages(enabled: bool, hands: seq<Hand>): (r: seq<Message>)
    ensures !enabled ==> r == []
    ensures enabled && hands == [] ==> r == [Message(LandmarksAddress, [])]
    ensures enabled && hands != [] ==>
      (|r| == 2 &&
       r[0] == Message(LandmarksAddress, Flatten(hands[0].landmarks)) &&
       r[1] == Message(HandednessAddress, [Str(hands[0].handedness)]))
  {
    if !enabled then []
    else if hands == [] then [Message(LandmarksAddress, [])]
    else
      [Message(LandmarksAddress, Flatten(hands[0].landmarks)),
       Message(HandednessAddress, [Str(hands[0].handedness)])]
  }

  /** A receiver reading the landmark message gets back exactly the first hand's keypoints. */
  lemma LandmarkMessagesDecode(hands: seq<Hand>)
    requires hands != []
    ensures var r := LandmarkMessages(true, hands);
      r[0].address == LandmarksAddress && Unflatten(r[0].args) == Some(hands[0].landmarks)
  {
    UnflattenFlatten(hands[0].landmarks);
  }

  /** Only the first hand is sent: further hands never change the messages. */
  lemma LandmarkMessagesUseFirstHandOnly(enabled: bool, hands: seq<Hand>, more: seq<Hand>)
    requires hands != []
    ensures LandmarkMessages(enabled, hands + more) == LandmarkMessages(enabled, [hands[0]])
  {
    assert (hands + more)[0] == hands[0];
  }

  /**
   * `OSCEmitter`, with the landmark-streaming flag under its own name,
   * `landmarksEnabled`, so that it does not hide the `SendLandmarks` method.
   */
  class OscEmitter {
    const host: string
    const port: int
    const landmarksEnabled: bool
    /** Every message handed to the client so far, oldest first. */
    var sent: seq<Message>

    constructor (host: string, port: int, sendLandmarks: bool)
      ensures this.host == host && this.port == port && landmarksEnabled == sendLandmarks
      ensures sent == []
    {
      this.host := host;
      this.port := port;
      landmarksEnabled := sendLandmarks;
      sent := [];
    }

    /** `send_gesture`: exactly one gesture message. */
    method SendGesture(gesture: Option<string>, symbol: Option<string>)
      modifies this
      ensures sent == old(sent) + [GestureMessage(gesture, symbol)]
    {
      var name := if gesture.Some? && gesture.value != "" then gesture.value else "NONE";
      var sym := if symbol.Some? && symbol.value != "" then symbol.value else "";
      sent := sent + [Message(GestureAddress, [Str(name), Str(sym)])];
    }

    /** `send_fps`: exactly one frame-rate message. */
    method SendFps(fps: real)
      modifies this
      ensures sent == old(sent) + [FpsMessage(fps)]
    {
      sent := sent + [Message(FpsAddress, [Float(fps)])];
    }

    /** `send_landmarks`, building the flat list point by point. */
    method SendLandmarks(hands: seq<Hand>)
      modifies this
      ensures sent == old(sent) + LandmarkMessages(landmarksEnabled, hands)
    {
      if !landmarksEnabled {
        return;
      }
      if hands == [] {
        sent := sent + [Message(LandmarksAddress, [])];
        return;
      }
      var lm := hands[0].landmarks;
      var handedness := hands[0].handedness;
      var flat: seq<Arg> := [];
      var i := 0;
      while i < |lm|
        invariant 0 <= i <= |lm|
        invariant flat == Flatten(lm[..i])
      {
        assert lm[..i + 1][..i] == lm[..i];
        flat := flat + [Float(lm[i].x), Float(lm[i].y), Float(lm[i].z)];
        i := i + 1;
      }
      assert lm[..i] == lm;
      sent := sent + [Message(LandmarksAddress, flat)];
      sent := sent + [Message(HandednessAddress, [Str(handedness)])];
    }
  }

  // ----- attribute lookup on the emitter as written -----

  /**
   * What `__init__` stores on an emitter: the UDP client and a flag. Neither is
   * callable.
   */
  datatype PyValue = UdpClient | BoolValue(b: bool)

  /** What an attribute lookup finds. */
  datatype Attribute = InstanceValue(v: PyValue) | BoundMethod(name: string) | NoAttribute

  /** The functions the class body defines, under their own names. */
  const EmitterMethods: set<string> := {"__init__", "send_gesture", "send_fps", "send_landmarks"}

  /** The instance attributes `__init__` sets, as written: the client, and the flag under the method's name. */
  function InstanceAttrsAsWritten(sendLandmarks: bool): map<string, PyValue> {
    map["client" := UdpClient, "send_landmarks" := BoolValue(sendLandmarks)]
  }

  /** The instance attributes with the flag under a name of its own. */
  function InstanceAttrsRenamed(sendLandmarks: bool): map<string, PyValue> {
    map["client" := UdpClient, "landmarks_enabled" := BoolValue(sendLandmarks)]
  }

  /**
   * `obj.name` for an instance of the emitter class. The class defines plain
   * functions only, which are non-data descriptors, so the instance's own
   * dictionary is consulted first and the class second.
   */
  function Lookup(instance: map<string, PyValue>, name: string): (a: Attribute)
    ensures name in instance ==> a == InstanceValue(instance[name])
    ensures name !in instance && name in EmitterMethods ==> a == BoundMethod(name)
    ensures a == NoAttribute <==> name !in instance && name !in EmitterMethods
  {
    if name in instance then InstanceValue(instance[name])
    else if name in EmitterMethods then BoundMethod(name)
    else NoAttribute
  }

  /** The outcome of calling what a lookup found. */
  datatype CallOutcome = Returned(messages: seq<Message>) | TypeError(reason: string) | AttributeError

  /**
   * `obj.send_landmarks(hands)` on an emitter with the given instance attributes.
   * The bound method runs with the streaming flag the instance holds; a value found
   * on the instance is not callable.
   */
  function CallSendLandmarks(instance: map<string, PyValue>, enabled: bool, hands: seq<Hand>): CallOutcome {
    match Lookup(instance, "send_landmarks")
    case BoundMethod(_) => Returned(LandmarkMessages(enabled, hands))
    case InstanceValue(v) => TypeError("object is not callable")
    case NoAttribute => AttributeError
  }

  /** As written, looking `send_landmarks` up on an emitter finds the flag, not the method. */
  lemma LookupSendLandmarksAsWritten(flag: bool)
    ensures Lookup(InstanceAttrsAsWritten(flag), "send_landmarks") == InstanceValue(BoolValue(flag))
  {
  }

  /** With the flag renamed, the same lookup finds the method. */
  lemma LookupSendLandmarksRenamed(flag: bool)
    ensures Lookup(InstanceAttrsRenamed(flag), "send_landmarks") == BoundMethod("send_landmarks")
  {
  }

  /**
   * As written, the call never reaches the method: it raises on every input, in
   * particular whenever streaming is on, the only case in which the frame loop
   * calls it. With the flag renamed, the same call runs the method, which with
   * streaming on always sends something.
   */
  lemma SendLandmarksAsWrittenRaises(flag: bool, hands: seq<Hand>)
    ensures CallSendLandmarks(InstanceAttrsAsWritten(flag), flag, hands).TypeError?
    ensures CallSendLandmarks(InstanceAttrsRenamed(flag), flag, hands) == Returned(LandmarkMessages(flag, hands))
    ensures flag ==> |LandmarkMessages(flag, hands)| >= 1
  {
    LookupSendLandmarksAsWritten(flag);
    LookupSendLandmarksRenamed(flag);
  }
}
