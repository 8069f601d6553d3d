/** The decisions MainActivity takes around a generated track: flattening the
  * centreline for the native preview, refusing a preview without a usable track,
  * the size fallback before generation, the request counter that discards stale
  * results, the marker JSON hand-off and the night-mode toggle.
  *
  * Toasts, intents, bitmaps, the executor and the main-thread handler are not
  * modelled: each operation returns the decision the activity acts on. */
module Activity {
  import opened Geometry
  import opened Track
  import opened Markers

  // ---------------------------------------------------------------------------
  // buildCenterlineArray

  /** The centreline as one flat buffer x0, y0, x1, y1, ... */
  function Interleaved(points: seq<Vec2>): (r: seq<real>)
    ensures |r| == 2 * |points|
    ensures forall i :: 0 <= i < |points| ==> r[2 * i] == points[i].x && r[2 * i + 1] == points[i].y
  {
    if points == [] then []
    else
      var rest := Interleaved(points[1..]);
      assert forall i :: 1 <= i < |points| ==> rest[2 * (i - 1)] == points[i].x && rest[2 * (i - 1) + 1] == points[i].y;
      [points[0].x, points[0].y] + rest
  }

  /** Reading a flat buffer back as consecutive (x, y) pairs, as the native side does. */
  function Pairs(buffer: seq<real>): (r: seq<Vec2>)
    ensures |r| == |buffer| / 2
  {
    if |buffer| < 2 then [] else [Vec2(buffer[0], buffer[1])] + Pairs(buffer[2..])
  }

  /** Flattening loses nothing: pairing the buffer gives back the centreline. */
  lemma {:induction false} PairsOfInterleaved(points: seq<Vec2>)
    ensures Pairs(Interleaved(points)) == points
  {
    if points != [] {
      assert Interleaved(points)[2..] == Interleaved(points[1..]);
      PairsOfInterleaved(points[1..]);
    }
  }

  /** What buildCenterlineArray returns: nothing for a missing track or fewer than two
    * centreline points, otherwise the flat buffer. (TrackData always holds a list, so
    * the source's null-list test has no counterpart.) */
  function CenterlineArray(data: Option<TrackData>): Option<seq<real>> {
    if data.None? || |data.value.centerline| < 2 then None
    else Some(Interleaved(data.value.centerline))
  }

  /** buildCenterlineArray: fills a fresh buffer of 2n floats in one pass. */
  method BuildCenterlineArray(data: Option<TrackData>) returns (buffer: Option<array<real>>)
    ensures buffer.None? <==> CenterlineArray(data).None?
    ensures buffer.Some? ==> fresh(buffer.value) && buffer.value[..] == CenterlineArray(data).value
  {
    if data.None? {
      return None;
    }
    var source := data.value.centerline;
    if |source| < 2 {
      return None;
    }
    var buf := new real[|source| * 2];
    for i := 0 to |source|
      invariant forall k :: 0 <= k < i ==> buf[2 * k] == source[k].x && buf[2 * k + 1] == source[k].y
    {
      buf[i * 2] := source[i].x;
      buf[i * 2 + 1] := source[i].y;
    }
    FlatBufferEqual(buf[..], source);
    return Some(buf);
  }

  /** A buffer of 2n entries holding every point's two coordinates at 2i and 2i+1 is
    * the interleaved centreline. */
  lemma FlatBufferEqual(buffer: seq<real>, points: seq<Vec2>)
    requires |buffer| == 2 * |points|
    requires forall k :: 0 <= k < |points| ==> buffer[2 * k] == points[k].x && buffer[2 * k + 1] == points[k].y
    ensures buffer == Interleaved(points)
  {
    var flat := Interleaved(points);
    forall j | 0 <= j < |buffer|
      ensures buffer[j] == flat[j]
    {
      var k := j / 2;
      assert flat[2 * k] == points[k].x && flat[2 * k + 1] == points[k].y;
      if j % 2 == 0 {
        assert j == 2 * k;
      } else {
        assert j == 2 * k + 1;
      }
    }
  }

  // ---------------------------------------------------------------------------
  // open3DPreview

  /** The width handed to the preview when the track's own width is not positive. */
  const FallbackTrackWidth: real := 8.0

  /** Refused: the "no track available" toast; Launch: the intent's two extras. */
  datatype Preview = Refused | Launch(points: seq<real>, width: real)

  /** open3DPreview: refuses without a track or without a flat buffer of at least four
    * floats; otherwise launches with the buffer and a positive width. */
  function Open3DPreview(lastGeneratedTrack: Option<TrackData>): Preview {
    if lastGeneratedTrack.None? then Refused
    else
      var points := CenterlineArray(lastGeneratedTrack);
      if points.None? || |points.value| < 4 then Refused
      else
        var width := lastGeneratedTrack.value.trackWidth;
        Launch(points.value, if width <= 0.0 then FallbackTrackWidth else width)
  }

  /** The preview is refused exactly when there is no track or its centreline has fewer
    * than two points; a launch carries the whole centreline, which the native side
    * reads back pair by pair, and a positive width that is the track's own when that
    * is positive. */
  lemma PreviewDecision(lastGeneratedTrack: Option<TrackData>)
    ensures Open3DPreview(lastGeneratedTrack).Refused? <==>
      lastGeneratedTrack.None? || |lastGeneratedTrack.value.centerline| < 2
    ensures Open3DPreview(lastGeneratedTrack).Launch? ==>
      var launch, track := Open3DPreview(lastGeneratedTrack), lastGeneratedTrack.value;
      && 4 <= |launch.points| && |launch.points| % 2 == 0
      && Pairs(launch.points) == track.centerline
      && 0.0 < launch.width
      && (0.0 < track.trackWidth ==> launch.width == track.trackWidth)
  {
    if lastGeneratedTrack.Some? && 2 <= |lastGeneratedTrack.value.centerline| {
      PairsOfInterleaved(lastGeneratedTrack.value.centerline);
    }
  }

  // ---------------------------------------------------------------------------
  // generateAndShowTrack: size fallback and stale-request guard

  /** The bitmap size used for generation: the view's measured size, or, when either
    * dimension is not positive, the display width and three quarters of it, truncated
    * as Java's `(int)` cast does. */
  function RenderSize(width: int, height: int, displayWidth: int): (int, int) {
    if width <= 0 || height <= 0 then (displayWidth, Trunc(displayWidth as real * 0.75))
    else (width, height)
  }

  /** A measured size is kept; a fallback size has the display's width and a height of
    * floor(3/4 of it), which is positive as soon as the display is 2 pixels wide. */
  lemma RenderSizeFallback(width: int, height: int, displayWidth: int)
    ensures 0 < width && 0 < height ==> RenderSize(width, height, displayWidth) == (width, height)
    ensures (width <= 0 || height <= 0) && 0 <= displayWidth ==>
      var size := RenderSize(width, height, displayWidth);
      && size.0 == displayWidth
      && 4 * size.1 <= 3 * displayWidth < 4 * size.1 + 4
    ensures 2 <= displayWidth ==> 0 < RenderSize(width, height, displayWidth).0 && 0 < RenderSize(width, height, displayWidth).1
  {
    if width <= 0 || height <= 0 {
      var h := Trunc(displayWidth as real * 0.75);
      if 0 <= displayWidth {
        assert 4.0 * (h as real) <= 3.0 * (displayWidth as real) < 4.0 * (h as real) + 4.0;
      }
    }
  }

  /** AtomicInteger arithmetic: two's-complement 32-bit wrap-around. */
  function Wrap32(x: int): (r: int)
    ensures -0x8000_0000 <= r < 0x8000_0000
    ensures (r - x) % 0x1_0000_0000 == 0
  {
    (x + 0x8000_0000) % 0x1_0000_0000 - 0x8000_0000
  }

  /** The counter value after `k` further requests. */
  function AfterRequests(counter: int, k: nat): int {
    if k == 0 then counter else Wrap32(AfterRequests(counter, k - 1) + 1)
  }

  /** After k requests the counter has moved by k modulo 2^32. */
  lemma {:induction false} AfterRequestsOffset(counter: int, k: nat)
    requires -0x8000_0000 <= counter < 0x8000_0000
    ensures AfterRequests(counter, k) == Wrap32(counter + k)
  {
    if k > 0 {
      AfterRequestsOffset(counter, k - 1);
      var previous := AfterRequests(counter, k - 1);
      WrapShift(counter + k - 1, previous);
    }
  }

  /** Wrapping the successor only depends on the wrapped value. */
  lemma WrapShift(x: int, wrapped: int)
    requires wrapped == Wrap32(x)
    ensures Wrap32(wrapped + 1) == Wrap32(x + 1)
  {
    var q := (x + 0x8000_0000) / 0x1_0000_0000;
    assert wrapped + 1 == x + 1 - q * 0x1_0000_0000;
    ShiftInvariant(x + 1, q);
  }

  lemma ShiftInvariant(x: int, q: int)
    ensures Wrap32(x - q * 0x1_0000_0000) == Wrap32(x)
  {
    var d := 0x1_0000_0000;
    var y := x + 0x8000_0000;
    assert (y - q * d) % d == y % d by {
      assert y == (y / d) * d + y % d;
      assert y - q * d == (y / d - q) * d + y % d;
    }
  }

  /** A result is published only while no later request has been made: after between
    * 1 and 2^32 - 1 further requests the counter no longer equals the old id. */
  lemma StaleIdRejected(requestId: int, k: nat)
    requires -0x8000_0000 <= requestId < 0x8000_0000
    requires 0 < k < 0x1_0000_0000
    ensures AfterRequests(requestId, k) != requestId
  {
    AfterRequestsOffset(requestId, k);
  }

  /** The part of MainActivity's state that generation requests touch. */
  class Generations {
    var generationCounter: int
    var lastGeneratedTrack: Option<TrackData>

    predicate Valid()
      reads this
    {
      -0x8000_0000 <= generationCounter < 0x8000_0000
    }

    /** A fresh activity: counter 0, no track yet. */
    constructor ()
      ensures Valid() && generationCounter == 0 && lastGeneratedTrack == None
    {
      generationCounter := 0;
      lastGeneratedTrack := None;
    }

    /** incrementAndGet: a new request takes the next counter value as its id. */
    method Request() returns (requestId: int)
      requires Valid()
      modifies this
      ensures Valid()
      ensures generationCounter == AfterRequests(old(generationCounter), 1) && requestId == generationCounter
      ensures lastGeneratedTrack == old(lastGeneratedTrack)
    {
      generationCounter := Wrap32(generationCounter + 1);
      requestId := generationCounter;
    }

    /** The main-thread callback: a result is kept only if the activity is alive and
      * its id is still the counter's value; otherwise it is dropped. */
    method Deliver(requestId: int, destroyed: bool, trackData: TrackData) returns (published: bool)
      modifies this
      ensures published <==> !destroyed && requestId == generationCounter
      ensures generationCounter == old(generationCounter)
      ensures lastGeneratedTrack == if published then Some(trackData) else old(lastGeneratedTrack)
    {
      if destroyed || requestId != generationCounter {
        return false;
      }
      lastGeneratedTrack := Some(trackData);
      return true;
    }
  }

  // ---------------------------------------------------------------------------
  // collectMapPointsJson

  /** collectMapPointsJson: the provider's marker set, with the demo course standing
    * in when it has no cones at all, as a JSON tree. (The provider never returns
    * null, so the source's null test has no counterpart.) */
  function CollectMapPointsJson(lastGeneratedTrack: Option<TrackData>): Json {
    var points := ProvideMapPoints(lastGeneratedTrack);
    Encoded(if points.blue == [] && points.yellow == [] then DemoCourse() else points)
  }

  /** The activity's own fallback never fires: the provider already substitutes the
    * demo course, so the JSON is always the provider's marker set. */
  lemma CollectIsProvided(lastGeneratedTrack: Option<TrackData>)
    ensures CollectMapPointsJson(lastGeneratedTrack) == Encoded(ProvideMapPoints(lastGeneratedTrack))
  {
    ProvideNeverEmpty(lastGeneratedTrack);
  }

  // ---------------------------------------------------------------------------
  // toggleTheme

  /** AppCompatDelegate night modes. */
  const ModeNightFollowSystem: int := -1
  const ModeNightNo: int := 1
  const ModeNightYes: int := 2
  const ModeNightAutoBattery: int := 3

  /** toggleTheme's choice of the next mode; `uiIsNight` is the configuration's
    * current night flag. */
  function ToggledMode(currentMode: int, uiIsNight: bool): int {
    if currentMode == ModeNightYes then ModeNightNo
    else if currentMode == ModeNightNo then ModeNightYes
    else if uiIsNight then ModeNightNo
    else ModeNightYes
  }

  /** updateThemeToggleIcon's reading of whether a mode shows night: the
    * configuration for follow-system and auto-battery, the mode itself otherwise. */
  function ShowsNight(mode: int, uiIsNight: bool): bool {
    if mode == ModeNightFollowSystem || mode == ModeNightAutoBattery then uiIsNight
    else mode == ModeNightYes
  }

  /** Toggling always lands on an explicit mode, and from any of the four modes the
    * app sets it flips what is shown; twice from an explicit mode is no change. */
  lemma ToggleFlips(currentMode: int, uiIsNight: bool)
    ensures ToggledMode(currentMode, uiIsNight) in {ModeNightNo, ModeNightYes}
    ensures currentMode in {ModeNightFollowSystem, ModeNightNo, ModeNightYes, ModeNightAutoBattery} ==>
      ShowsNight(ToggledMode(currentMode, uiIsNight), uiIsNight) == !ShowsNight(currentMode, uiIsNight)
    ensures currentMode in {ModeNightNo, ModeNightYes} ==>
      ToggledMode(ToggledMode(currentMode, uiIsNight), uiIsNight) == currentMode
  {
  }
}
