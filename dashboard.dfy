/**
 * The shared record the web dashboard reads: the last gesture, symbol, frame rate
 * and the first hand's planar landmarks. The frame loop overwrites it once per
 * frame; readers take a copy. Calls are modelled as sequential (the lock that
 * serialises them is not modelled).
 */
module Dashboard {
  import opened Wrappers
  import opened Landmarks

  /** A copy of the state as `get` returns it. */
  datatype Snapshot = Snapshot(
    gesture: Option<string>,
    symbol: Option<string>,
    fps: real,
    landmarks: seq<XY>)

  /** The state of a freshly created record: nothing recognised, 0 fps, no landmarks. */
  const Initial := Snapshot(None, None, 0.0, [])

  /**
   * The effect of one `update`: gesture, symbol and fps are always overwritten; the
   * landmarks are replaced by the given pairs, or kept when none are given.
   */
  function Updated(s: Snapshot, gesture: Option<string>, symbol: Option<string>, fps: real,
                   landmarks: Option<seq<XY>>): (r: Snapshot)
    ensures r.gesture == gesture && r.symbol == symbol && r.fps == fps
    ensures landmarks.None? ==> r.landmarks == s.landmarks
    ensures landmarks.Some? ==>
      (|r.landmarks| == |landmarks.value| &&
       forall i :: 0 <= i < |r.landmarks| ==> r.landmarks[i] == landmarks.value[i])
  {
    var kept := if landmarks.Some? then landmarks.value else s.landmarks;
    Snapshot(gesture, symbol, fps, kept)
  }

  /**
   * Two updates in a row: the second one's gesture, symbol and fps win; its
   * landmarks win when it has any, otherwise the first one's, otherwise the
   * original ones survive.
   */
  lemma LastWriteWins(s: Snapshot,
                      g1: Option<string>, s1: Option<string>, f1: real, l1: Option<seq<XY>>,
                      g2: Option<string>, s2: Option<string>, f2: real, l2: Option<seq<XY>>)
    ensures Updated(Updated(s, g1, s1, f1, l1), g2, s2, f2, l2)
         == Updated(s, g2, s2, f2, if l2.Some? then l2 else l1)
  {
  }

  /** Repeating an update changes nothing further. */
  lemma UpdateIdempotent(s: Snapshot, g: Option<string>, sym: Option<string>, f: real, l: Option<seq<XY>>)
    ensures Updated(Updated(s, g, sym, f, l), g, sym, f, l) == Updated(s, g, sym, f, l)
  {
  }

  /**
   * `DashboardState`. The fields are the entries of the source's state dictionary;
   * `update` writes them in place, `get` copies them out. A `Snapshot` is a value, so
   * a copy handed out by `Get` is never affected by a later `Update`.
   */
  class DashboardState {
    var gesture: Option<string>
    var symbol: Option<string>
    var fps: real
    var landmarks: seq<XY>

    /** The abstract value of the record. */
    function Current(): Snapshot
      reads this
    {
      Snapshot(gesture, symbol, fps, landmarks)
    }

    constructor ()
      ensures Current() == Initial
    {
      gesture := None;
      symbol := None;
      fps := 0.0;
      landmarks := [];
    }

    /** `update`: overwrites gesture, symbol and fps; replaces the landmarks only when given. */
    method Update(gesture': Option<string>, symbol': Option<string>, fps': real, landmarks': Option<seq<XY>>)
      modifies this
      ensures Current() == Updated(old(Current()), gesture', symbol', fps', landmarks')
    {
      gesture := gesture';
      symbol := symbol';
      fps := fps';
      if landmarks'.Some? {
        var copy: seq<XY> := [];
        var i := 0;
        while i < |landmarks'.value|
          invariant 0 <= i <= |landmarks'.value|
          invariant copy == landmarks'.value[..i]
        {
          var (x, y) := landmarks'.value[i];
          copy := copy + [(x, y)];
          i := i + 1;
        }
        landmarks := copy;
      }
    }

    /** `get`: a copy of the current state; nothing changes. */
    method Get() returns (snap: Snapshot)
      ensures snap == Current()
      ensures snap.gesture == gesture && snap.symbol == symbol && snap.fps == fps
      ensures snap.landmarks == landmarks
    {
      snap := Snapshot(gesture, symbol, fps, landmarks);
    }
  }
}
