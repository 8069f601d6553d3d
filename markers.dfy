/** The marker set handed to the 3D preview (MapPoints), its JSON form, and the
  * provider that turns a generated track into one (DefaultMapPointsProvider).
  *
  * A `List<float[]>` of the source is a sequence of raw entries: each entry is a
  * `float[]` that may be null and may have any length. MapPoints itself keeps only
  * two-component copies, so its lists are sequences of Vec2. JSON is an abstract
  * tree; turning text into a tree (org.json's parser) and strings into numbers
  * (Double.valueOf) are passed in as functions. */
module Markers {
  import opened Geometry
  import opened Track

  /** A `float[]` entry of a point list: null, or an array of any length. */
  type RawPoint = Option<seq<real>>

  /** A MapPoints record: blue (left) and yellow (right) cone positions in metres. */
  datatype MapPoints = MapPoints(blue: seq<Vec2>, yellow: seq<Vec2>)

  /** The org.json value tree. */
  datatype Json =
    | JNull
    | JBool(b: bool)
    | JNum(n: real)
    | JStr(s: string)
    | JArr(items: seq<Json>)
    | JObj(fields: map<string, Json>)

  /** The outcome of MapPoints.fromJson: a record, or IllegalArgumentException. */
  datatype Decoded<T> = Ok(value: T) | Malformed

  const BlueKey: string := "blue"
  const YellowKey: string := "yellow"

  // ---------------------------------------------------------------------------
  // Construction: copyPoints

  /** An entry copyPoints keeps: non-null with at least two components. */
  predicate Keeps(p: RawPoint) {
    p.Some? && |p.value| >= 2
  }

  /** What copyPoints appends for the entries of `source`, in order: the first two
    * components of every kept entry. */
  function CopiedPoints(source: seq<RawPoint>): (r: seq<Vec2>)
    ensures |r| <= |source|
  {
    if source == [] then []
    else
      var last := source[|source| - 1];
      CopiedPoints(source[..|source| - 1]) + (if Keeps(last) then [Vec2(last.value[0], last.value[1])] else [])
  }

  /** copyPoints of a list that may itself be null. */
  function CopyOf(source: Option<seq<RawPoint>>): seq<Vec2> {
    if source.None? then [] else CopiedPoints(source.value)
  }

  /** The `[x, y]` arrays of a list of points, as DefaultMapPointsProvider.convert and
    * MapPoints.createDemoCourse build them. */
  function Entries(points: seq<Vec2>): (r: seq<RawPoint>)
    ensures |r| == |points|
  {
    seq(|points|, i requires 0 <= i < |points| => Some([points[i].x, points[i].y]))
  }

  /** new MapPoints(bluePoints, yellowPoints). */
  function MakeMapPoints(bluePoints: Option<seq<RawPoint>>, yellowPoints: Option<seq<RawPoint>>): MapPoints {
    MapPoints(CopyOf(bluePoints), CopyOf(yellowPoints))
  }

  /** Keeping entries distributes over concatenation. */
  lemma {:induction false} CopiedAppend(a: seq<RawPoint>, b: seq<RawPoint>)
    ensures CopiedPoints(a + b) == CopiedPoints(a) + CopiedPoints(b)
    decreases |b|
  {
    if b == [] {
      assert a + b == a;
    } else {
      var b' := b[..|b| - 1];
      assert (a + b)[..|a + b| - 1] == a + b';
      assert (a + b)[|a + b| - 1] == b[|b| - 1];
      CopiedAppend(a, b');
    }
  }

  /** Copying two-component arrays gives the points back: construction from
    * `[x, y]` arrays keeps every point, in order. */
  lemma {:induction false} CopiedOfEntries(points: seq<Vec2>)
    ensures CopiedPoints(Entries(points)) == points
    decreases |points|
  {
    if points != [] {
      var init := points[..|points| - 1];
      assert Entries(points)[..|points| - 1] == Entries(init);
      CopiedOfEntries(init);
      assert points == init + [points[|points| - 1]];
    }
  }

  /** The kept entries are exactly the non-null ones of length at least two: when
    * every entry qualifies, the i-th point is the first two components of the
    * i-th entry. */
  lemma {:induction false} CopiedOfWellFormed(source: seq<RawPoint>)
    requires forall i :: 0 <= i < |source| ==> source[i].Some? && |source[i].value| >= 2
    ensures |CopiedPoints(source)| == |source|
    ensures forall i :: 0 <= i < |source| ==> CopiedPoints(source)[i] == Vec2(source[i].value[0], source[i].value[1])
    decreases |source|
  {
    if source != [] {
      CopiedOfWellFormed(source[..|source| - 1]);
    }
  }

  /** Entries that are null or too short contribute nothing. */
  lemma {:induction false} CopiedOfDropped(source: seq<RawPoint>)
    requires forall i :: 0 <= i < |source| ==> source[i].None? || |source[i].value| < 2
    ensures CopiedPoints(source) == []
    decreases |source|
  {
    if source != [] {
      CopiedOfDropped(source[..|source| - 1]);
    }
  }

  /** copyPoints: a fresh list holding a two-component copy of every entry that is
    * non-null and has at least two components. A null source gives an empty list. */
  method CopyPoints(source: Option<seq<RawPoint>>) returns (result: seq<Vec2>)
    ensures result == CopyOf(source)
  {
    result := [];
    if source.None? {
      return;
    }
    var points := source.value;
    var i := 0;
    while i < |points|
      invariant 0 <= i <= |points|
      invariant result == CopiedPoints(points[..i])
    {
      var point := points[i];
      assert points[..i + 1] == points[..i] + [point];
      assert CopiedPoints(points[..i + 1]) == CopiedPoints(points[..i]) + CopiedPoints([point]) by {
        CopiedAppend(points[..i], [point]);
      }
      if point.None? || |point.value| < 2 {
        i := i + 1;
        continue;
      }
      result := result + [Vec2(point.value[0], point.value[1])];
      i := i + 1;
    }
    assert points[..i] == points;
  }

  /** The MapPoints constructor. */
  method NewMapPoints(bluePoints: Option<seq<RawPoint>>, yellowPoints: Option<seq<RawPoint>>) returns (mp: MapPoints)
    ensures mp == MakeMapPoints(bluePoints, yellowPoints)
  {
    var blue := CopyPoints(bluePoints);
    var yellow := CopyPoints(yellowPoints);
    mp := MapPoints(blue, yellow);
  }

  // ---------------------------------------------------------------------------
  // Encoding: toArray / toJsonString

  /** One `[x, y]` JSON array per point, in list order. */
  function ArrayOf(points: seq<Vec2>): (r: seq<Json>)
    ensures |r| == |points|
  {
    seq(|points|, i requires 0 <= i < |points| => JArr([JNum(points[i].x), JNum(points[i].y)]))
  }

  /** The object toJsonString prints: the two lists under "blue" and "yellow". */
  function Encoded(mp: MapPoints): Json {
    JObj(map[BlueKey := JArr(ArrayOf(mp.blue)), YellowKey := JArr(ArrayOf(mp.yellow))])
  }

  /** toArray: one two-element array per point, appended in order. */
  method ToArray(points: seq<Vec2>) returns (encoded: seq<Json>)
    ensures encoded == ArrayOf(points)
  {
    encoded := [];
    var i := 0;
    while i < |points|
      invariant 0 <= i <= |points|
      invariant encoded == ArrayOf(points[..i])
    {
      var entry := [JNum(points[i].x), JNum(points[i].y)];
      encoded := encoded + [JArr(entry)];
      i := i + 1;
    }
    assert points[..i] == points;
  }

  /** toJsonString, up to printing the tree as text. */
  method ToJsonTree(mp: MapPoints) returns (tree: Json)
    ensures tree == Encoded(mp)
  {
    var blue := ToArray(mp.blue);
    var yellow := ToArray(mp.yellow);
    tree := JObj(map[BlueKey := JArr(blue), YellowKey := JArr(yellow)]);
  }

  // ---------------------------------------------------------------------------
  // Decoding: fromJson / parseArray

  /** JSONObject.optJSONArray(key): the array under `key`, or null when the key is
    * missing or holds anything else. */
  function OptArray(fields: map<string, Json>, key: string): Option<seq<Json>> {
    if key in fields && fields[key].JArr? then Some(fields[key].items) else None
  }

  /** JSONArray.getDouble: a number, or a string Double.valueOf accepts; anything
    * else is a type mismatch. */
  function AsNumber(j: Json, toNumber: string -> Option<real>): Option<real> {
    match j
    case JNum(n) => Some(n)
    case JStr(s) => toNumber(s)
    case _ => None
  }

  /** An entry parseArray gets past: an array, with two readable numbers first
    * unless it is shorter than two. */
  predicate EntryReadable(e: Json, toNumber: string -> Option<real>) {
    e.JArr? && (|e.items| < 2 || (AsNumber(e.items[0], toNumber).Some? && AsNumber(e.items[1], toNumber).Some?))
  }

  /** What parseArray returns for the entries of an array: the points of the entries
    * with at least two components, or the exception of the first unreadable entry. */
  function Parsed(entries: seq<Json>, toNumber: string -> Option<real>): Decoded<seq<Vec2>> {
    if entries == [] then Ok([])
    else
      match Parsed(entries[..|entries| - 1], toNumber)
      case Malformed => Malformed
      case Ok(points) =>
        var e := entries[|entries| - 1];
        if !e.JArr? then Malformed
        else if |e.items| < 2 then Ok(points)
        else
          match (AsNumber(e.items[0], toNumber), AsNumber(e.items[1], toNumber))
          case (Some(x), Some(y)) => Ok(points + [Vec2(x, y)])
          case _ => Malformed
  }

  function ParsedOpt(jsonArray: Option<seq<Json>>, toNumber: string -> Option<real>): Decoded<seq<Vec2>> {
    if jsonArray.None? then Ok([]) else Parsed(jsonArray.value, toNumber)
  }

  /** The record fromJson builds from a parsed object. */
  function Decode(fields: map<string, Json>, toNumber: string -> Option<real>): Decoded<MapPoints> {
    match (ParsedOpt(OptArray(fields, BlueKey), toNumber), ParsedOpt(OptArray(fields, YellowKey), toNumber))
    case (Ok(blue), Ok(yellow)) => Ok(MakeMapPoints(Some(Entries(blue)), Some(Entries(yellow))))
    case _ => Malformed
  }

  /** fromJson: null or empty text gives empty lists; text that does not parse to an
    * tree, or an unreadable entry, gives IllegalArgumentException. */
  function FromJsonText(json: Option<string>, parse: string -> Option<map<string, Json>>,
                        toNumber: string -> Option<real>): Decoded<MapPoints> {
    if json.None? || json.value == [] then Ok(MapPoints([], []))
    else if parse(json.value).None? then Malformed
    else Decode(parse(json.value).value, toNumber)
  }

  /** parseArray succeeds exactly when every entry is readable. */
  lemma {:induction false} ParsedSucceedsIff(entries: seq<Json>, toNumber: string -> Option<real>)
    ensures Parsed(entries, toNumber).Ok? <==> forall i :: 0 <= i < |entries| ==> EntryReadable(entries[i], toNumber)
    decreases |entries|
  {
    if entries != [] {
      var init := entries[..|entries| - 1];
      ParsedSucceedsIff(init, toNumber);
      assert forall i :: 0 <= i < |init| ==> init[i] == entries[i];
    }
  }

  /** On success, parseArray keeps the readable entries' first two numbers, in order,
    * and skips the short ones: the result is what copyPoints keeps of the decoded
    * entries. */
  lemma {:induction false} ParsedKeepsPairs(entries: seq<Json>, toNumber: string -> Option<real>)
    requires Parsed(entries, toNumber).Ok?
    ensures |Parsed(entries, toNumber).value| <= |entries|
    ensures (forall i :: 0 <= i < |entries| ==> entries[i].JArr? && |entries[i].items| < 2) ==> Parsed(entries, toNumber).value == []
    decreases |entries|
  {
    if entries != [] {
      ParsedKeepsPairs(entries[..|entries| - 1], toNumber);
      var init := entries[..|entries| - 1];
      assert forall i :: 0 <= i < |init| ==> init[i] == entries[i];
    }
  }

  /** parseArray: reads the entries in order, skipping those shorter than two; a
    * non-array entry or an unreadable number throws. A null array gives an empty list. */
  method ParseArray(jsonArray: Option<seq<Json>>, toNumber: string -> Option<real>) returns (result: Decoded<seq<Vec2>>)
    ensures result == ParsedOpt(jsonArray, toNumber)
  {
    var points: seq<Vec2> := [];
    if jsonArray.None? {
      return Ok(points);
    }
    var entries := jsonArray.value;
    var i := 0;
    while i < |entries|
      invariant 0 <= i <= |entries|
      invariant Parsed(entries[..i], toNumber) == Ok(points)
    {
      assert entries[..i + 1][..i] == entries[..i];
      var entry := entries[i];
      if !entry.JArr? {
        assert entries[..i + 1] == entries[..i] + [entry];
        PrefixFails(entries, i + 1, toNumber);
        return Malformed;
      }
      if |entry.items| < 2 {
        i := i + 1;
        continue;
      }
      var x := AsNumber(entry.items[0], toNumber);
      var y := AsNumber(entry.items[1], toNumber);
      if x.None? || y.None? {
        PrefixFails(entries, i + 1, toNumber);
        return Malformed;
      }
      points := points + [Vec2(x.value, y.value)];
      i := i + 1;
    }
    assert entries[..i] == entries;
    result := Ok(points);
  }

  /** Once a prefix fails to parse, so does the whole array. */
  lemma {:induction false} PrefixFails(entries: seq<Json>, k: nat, toNumber: string -> Option<real>)
    requires k <= |entries| && Parsed(entries[..k], toNumber) == Malformed
    ensures Parsed(entries, toNumber) == Malformed
    decreases |entries| - k
  {
    if k < |entries| {
      assert entries[..k + 1][..k] == entries[..k];
      PrefixFails(entries, k + 1, toNumber);
    } else {
      assert entries[..k] == entries;
    }
  }

  /** fromJson, with the text parser and number reader passed in. */
  method FromJson(json: Option<string>, parse: string -> Option<map<string, Json>>,
                  toNumber: string -> Option<real>) returns (result: Decoded<MapPoints>)
    ensures result == FromJsonText(json, parse, toNumber)
  {
    if json.None? || json.value == [] {
      var empty := NewMapPoints(Some([]), Some([]));
      return Ok(empty);
    }
    var tree := parse(json.value);
    if tree.None? {
      return Malformed;
    }
    var blue := ParseArray(OptArray(tree.value, BlueKey), toNumber);
    if blue.Malformed? {
      return Malformed;
    }
    var yellow := ParseArray(OptArray(tree.value, YellowKey), toNumber);
    if yellow.Malformed? {
      return Malformed;
    }
    var blueEntries := Convert(Some(blue.value));
    var yellowEntries := Convert(Some(yellow.value));
    var mp := NewMapPoints(Some(blueEntries), Some(yellowEntries));
    result := Ok(mp);
  }

  /** Parsing the encoding of a point list gives the list back. */
  lemma {:induction false} ParsedOfArray(points: seq<Vec2>, toNumber: string -> Option<real>)
    ensures Parsed(ArrayOf(points), toNumber) == Ok(points)
    decreases |points|
  {
    if points != [] {
      var init := points[..|points| - 1];
      assert ArrayOf(points)[..|points| - 1] == ArrayOf(init);
      ParsedOfArray(init, toNumber);
      assert points == init + [points[|points| - 1]];
    }
  }

  /** Decoding an encoded record gives the same ordered lists back. */
  lemma DecodeEncoded(mp: MapPoints, toNumber: string -> Option<real>)
    ensures Decode(Encoded(mp).fields, toNumber) == Ok(mp)
  {
    var fields := Encoded(mp).fields;
    assert BlueKey != YellowKey;
    assert OptArray(fields, BlueKey) == Some(ArrayOf(mp.blue));
    assert OptArray(fields, YellowKey) == Some(ArrayOf(mp.yellow));
    ParsedOfArray(mp.blue, toNumber);
    ParsedOfArray(mp.yellow, toNumber);
    CopiedOfEntries(mp.blue);
    CopiedOfEntries(mp.yellow);
  }

  /** With any text form whose parser reads back what the printer wrote, fromJson of
    * toJsonString is the identity. */
  lemma FromJsonOfToJson(mp: MapPoints, render: map<string, Json> -> string,
                         parse: string -> Option<map<string, Json>>, toNumber: string -> Option<real>)
    requires render(Encoded(mp).fields) != []
    requires parse(render(Encoded(mp).fields)) == Some(Encoded(mp).fields)
    ensures FromJsonText(Some(render(Encoded(mp).fields)), parse, toNumber) == Ok(mp)
  {
    DecodeEncoded(mp, toNumber);
  }

  /** A null or empty payload decodes to empty lists, not to the demo course. */
  lemma EmptyPayload(parse: string -> Option<map<string, Json>>, toNumber: string -> Option<real>)
    ensures FromJsonText(None, parse, toNumber) == Ok(MapPoints([], []))
    ensures FromJsonText(Some([]), parse, toNumber) == Ok(MapPoints([], []))
    ensures FromJsonText(None, parse, toNumber) != Ok(DemoCourse())
  {
    DemoCourseLayout();
  }

  /** A key that is missing, or not an array, reads as an empty list. */
  lemma MissingKeyIsEmpty(fields: map<string, Json>, toNumber: string -> Option<real>)
    requires BlueKey !in fields || !fields[BlueKey].JArr?
    requires YellowKey !in fields || !fields[YellowKey].JArr?
    ensures Decode(fields, toNumber) == Ok(MapPoints([], []))
  {
  }

  /** A non-array entry anywhere in "blue" makes the whole decode fail. */
  lemma NonArrayEntryFails(fields: map<string, Json>, toNumber: string -> Option<real>, i: int)
    requires OptArray(fields, BlueKey).Some? && 0 <= i < |OptArray(fields, BlueKey).value|
    requires !OptArray(fields, BlueKey).value[i].JArr?
    ensures Decode(fields, toNumber) == Malformed
  {
    var entries := OptArray(fields, BlueKey).value;
    ParsedSucceedsIff(entries, toNumber);
    assert !EntryReadable(entries[i], toNumber);
  }

  // ---------------------------------------------------------------------------
  // createDemoCourse

  function DemoBlue(): seq<Vec2> { [Vec2(-4.0, 5.0), Vec2(-3.0, 15.0), Vec2(-4.0, 25.0), Vec2(-3.0, 35.0)] }

  function DemoYellow(): seq<Vec2> { [Vec2(4.0, 10.0), Vec2(3.0, 20.0), Vec2(4.0, 30.0), Vec2(3.0, 40.0)] }

  /** createDemoCourse: a slalom of four blue and four yellow cones. */
  function DemoCourse(): MapPoints {
    MakeMapPoints(Some(Entries(DemoBlue())), Some(Entries(DemoYellow())))
  }

  /** The demo course keeps its eight cones: blue on the left (x < 0), yellow on the
    * right (x > 0), each list advancing in y, the two sides alternating. */
  lemma DemoCourseLayout()
    ensures DemoCourse() == MapPoints(DemoBlue(), DemoYellow())
    ensures |DemoCourse().blue| == 4 && |DemoCourse().yellow| == 4
    ensures forall i :: 0 <= i < 4 ==> DemoCourse().blue[i].x < 0.0 < DemoCourse().yellow[i].x
    ensures forall i :: 0 <= i < 4 ==> DemoCourse().blue[i].y < DemoCourse().yellow[i].y
    ensures forall i :: 0 <= i < 3 ==> DemoCourse().yellow[i].y < DemoCourse().blue[i + 1].y
  {
    CopiedOfEntries(DemoBlue());
    CopiedOfEntries(DemoYellow());
  }

  // ---------------------------------------------------------------------------
  // DefaultMapPointsProvider

  /** convert: an `[x, y]` array per point, in order; null gives an empty list. */
  method Convert(points: Option<seq<Vec2>>) returns (result: seq<RawPoint>)
    ensures result == (if points.None? then [] else Entries(points.value))
  {
    result := [];
    if points.None? {
      return;
    }
    var ps := points.value;
    var i := 0;
    while i < |ps|
      invariant 0 <= i <= |ps|
      invariant result == Entries(ps[..i])
    {
      result := result + [Some([ps[i].x, ps[i].y])];
      i := i + 1;
    }
    assert ps[..i] == ps;
  }

  /** provideMapPoints: the demo course for no track, or for a track without cones;
    * otherwise the left cones as blue and the right cones as yellow. */
  function ProvideMapPoints(trackData: Option<TrackData>): MapPoints {
    if trackData.None? then DemoCourse()
    else
      var blue := Entries(trackData.value.leftCones);
      var yellow := Entries(trackData.value.rightCones);
      if blue == [] && yellow == [] then DemoCourse()
      else MakeMapPoints(Some(blue), Some(yellow))
  }

  /** A track with cones is passed on unchanged: blue is exactly the left cones and
    * yellow exactly the right cones, in order; otherwise the demo course stands in. */
  lemma ProvideKeepsCones(trackData: Option<TrackData>)
    ensures trackData.Some? && (trackData.value.leftCones != [] || trackData.value.rightCones != []) ==>
              ProvideMapPoints(trackData) == MapPoints(trackData.value.leftCones, trackData.value.rightCones)
    ensures trackData.None? || (trackData.value.leftCones == [] && trackData.value.rightCones == []) ==>
              ProvideMapPoints(trackData) == DemoCourse()
  {
    if trackData.Some? {
      CopiedOfEntries(trackData.value.leftCones);
      CopiedOfEntries(trackData.value.rightCones);
    }
  }

  /** The provider never hands out a record with no cones at all. */
  lemma ProvideNeverEmpty(trackData: Option<TrackData>)
    ensures ProvideMapPoints(trackData).blue != [] || ProvideMapPoints(trackData).yellow != []
  {
    ProvideKeepsCones(trackData);
    DemoCourseLayout();
  }
}
