/**
 * The DIALux adapter's opening converter. Forward, ToDIALux turns a BHoM opening
 * hosted on a panel into a DIALux furnishing record; in reverse, FromDialUXOpening
 * reads a furnishing back from DIALux's text fields, finds the panel of the space
 * that hosts it, rebuilds its rectangle in that panel's frame and attaches it.
 */
module Convert {
  import opened Wrappers
  import opened Geometry
  import opened Text
  import opened Rounding

  /** BHoM's opening category; the enumerators other than the default are left abstract. */
  datatype OpeningType = Undefined | Kind(name: string)

  /** A BHoM opening: its outline as edges and its category. */
  datatype Opening = Opening(edges: seq<Edge>, openingType: OpeningType)

  /** What `new Opening()` holds: no edges and the default category. */
  const EmptyOpening: Opening := Opening([], Undefined)

  /** A DIALux furnishing record. */
  datatype Furnishing = Furnishing(
    furnishingType: string,
    reference: string,
    position: Point,
    rotationX: real,
    rotationY: real,
    rotationZ: real,
    height: real,
    width: real,
    depth: real
  )

  /** A freshly constructed furnishing; ToDIALux overwrites every field. */
  const BlankFurnishing: Furnishing := Furnishing("", "", Origin, 0.0, 0.0, 0.0, 0.0, 0.0, 0.0)

  /** The .NET exceptions the converter lets escape. */
  datatype Exception =
    | ArgumentOutOfRange   // List<string> indexed past its end
    | IndexOutOfRange      // the array String.Split returns indexed past its end
    | InvalidOperation     // Enumerable.Min over an empty sequence

  /** The text and category conversions the converter calls, none of them interpreted here. */
  datatype Formats = Formats(
    parsePoint: string -> Point,              // FromDialUXPoint
    toDouble: string -> real,                 // System.Convert.ToDouble
    typeToDIALux: OpeningType -> string,      // OpeningType.ToDIALux()
    typeFromDIALux: string -> OpeningType     // FromDialUXOpeningType
  )

  /** A BHoM environment panel: a fixed outline and the list of openings cut into it. */
  class Panel {
    const outline: Polyline
    var openings: seq<Opening>

    constructor (outline: Polyline, openings: seq<Opening>)
      ensures this.outline == outline && this.openings == openings
    {
      this.outline := outline;
      this.openings := openings;
    }
  }

  /** The diagnostics log that BH.Engine.Base.Compute.RecordError appends to. */
  class ErrorLog {
    var errors: seq<string>

    constructor ()
      ensures errors == []
    {
      errors := [];
    }

    method Record(message: string)
      modifies this
      ensures errors == old(errors) + [message]
    {
      errors := errors + [message];
    }
  }

  // ---------------------------------------------------------------------------
  // Forward: Opening -> Furnishing
  // ---------------------------------------------------------------------------

  /**
   * ToDIALux. The position is the outline's centroid lowered by half the opening's
   * height and re-referenced to the host panel's lowest control point; width and
   * height are rounded to three decimals; rotation, depth and reference are blank.
   * A host panel without control points makes Min() throw.
   */
  method ToDIALux(lib: Library, formats: Formats, opening: Opening, hostPanel: Panel)
    returns (r: Result<Furnishing, Exception>)
    ensures r.Failure? <==> |hostPanel.outline.controlPoints| == 0
    ensures r.Failure? ==> r.error == InvalidOperation
    ensures r.Success? ==>
      var outline := lib.outlineOf(opening.edges);
      var c := lib.centroid(outline);
      var h := lib.height(outline);
      var w := lib.width(outline);
      var f := r.value;
      && f.furnishingType == formats.typeToDIALux(opening.openingType)
      && f.reference == ""
      && f.rotationX == 0.0 && f.rotationY == 0.0 && f.rotationZ == 0.0
      && f.depth == 0.0
      && f.position.x == c.x && f.position.y == c.y
      && f.position.z == c.z - h / 2.0 - BottomZ(hostPanel.outline)
      && f.height == Round3(h) && f.width == Round3(w)
      && -0.0005 <= f.height - h <= 0.0005
      && -0.0005 <= f.width - w <= 0.0005
  {
    var furnishing := BlankFurnishing;
    furnishing := furnishing.(furnishingType := formats.typeToDIALux(opening.openingType));
    furnishing := furnishing.(reference := "");
    furnishing := furnishing.(rotationX := 0.0);
    furnishing := furnishing.(rotationY := 0.0);
    furnishing := furnishing.(rotationZ := 0.0);

    var centre := lib.centroid(lib.outlineOf(opening.edges));
    centre := centre.(z := centre.z - lib.height(lib.outlineOf(opening.edges)) / 2.0);

    if |hostPanel.outline.controlPoints| == 0 {
      return Failure(InvalidOperation);
    }
    var bottomHost := BottomZ(hostPanel.outline);
    centre := centre.(z := centre.z - bottomHost);

    furnishing := furnishing.(position := centre);
    furnishing := furnishing.(height := Round3(lib.height(lib.outlineOf(opening.edges))));
    furnishing := furnishing.(width := Round3(lib.width(lib.outlineOf(opening.edges))));
    furnishing := furnishing.(depth := 0.0);

    Round3Error(lib.height(lib.outlineOf(opening.edges)));
    Round3Error(lib.width(lib.outlineOf(opening.edges)));
    return Success(furnishing);
  }

  // ---------------------------------------------------------------------------
  // Reverse: the pieces of FromDialUXOpening
  // ---------------------------------------------------------------------------

  /**
   * The width and height tokens of a size field `<label>=<width> <height>`:
   * `field.Split('=')[1].Split(' ')` and its first two pieces, or None where
   * either index throws IndexOutOfRangeException.
   */
  function SizeTokens(field: string): (r: Option<(string, string)>)
    ensures r.None? <==> '=' !in field || ' ' !in Split(field, '=')[1]
    ensures r.Some? ==> ' ' !in r.value.0 && ' ' !in r.value.1
    ensures r.Some? ==> '=' !in r.value.0 && '=' !in r.value.1
  {
    match PieceAt(field, '=', 1)
    case None => None
    case Some(size) =>
      var parts := Split(size, ' ');
      if |parts| < 2 then None else Some((parts[0], parts[1]))
  }

  /** Every panel has a lowest point and there is at least one panel, so the Min() calls succeed. */
  predicate HasFloors(panels: seq<Panel>)
  {
    |panels| > 0 && forall i :: 0 <= i < |panels| ==> |panels[i].outline.controlPoints| > 0
  }

  /** The lowest control point of each panel, in list order. */
  function PanelFloors(panels: seq<Panel>): (floors: seq<real>)
    requires forall i :: 0 <= i < |panels| ==> |panels[i].outline.controlPoints| > 0
    ensures |floors| == |panels|
    ensures forall i :: 0 <= i < |panels| ==> floors[i] == BottomZ(panels[i].outline)
  {
    seq(|panels|, i requires 0 <= i < |panels| => BottomZ(panels[i].outline))
  }

  /**
   * The floor of the space: the least, over its panels, of each panel's lowest
   * control point. It is no higher than any panel's floor and is one of them.
   */
  function SpaceFloor(panels: seq<Panel>): (minZ: real)
    requires HasFloors(panels)
    ensures forall i :: 0 <= i < |panels| ==> minZ <= BottomZ(panels[i].outline)
    ensures exists i :: 0 <= i < |panels| && minZ == BottomZ(panels[i].outline)
  {
    Min(PanelFloors(panels))
  }

  /** The outlines of the panels, in list order (the space the corner lookups consult). */
  function Outlines(panels: seq<Panel>): (outlines: seq<Polyline>)
    ensures |outlines| == |panels|
    ensures forall i :: 0 <= i < |panels| ==> outlines[i] == panels[i].outline
  {
    seq(|panels|, i requires 0 <= i < |panels| => panels[i].outline)
  }

  /**
   * `panels.Where(p => p.IsContaining(c)).FirstOrDefault()`, as an index: the
   * first panel in list order whose outline contains `c`, or None if none does.
   */
  function FirstContaining(lib: Library, panels: seq<Panel>, c: Point): (r: Option<nat>)
    ensures r.Some? ==> r.value < |panels| && lib.isContaining(panels[r.value].outline, c)
    ensures r.Some? ==> forall j :: 0 <= j < r.value ==> !lib.isContaining(panels[j].outline, c)
    ensures r.None? <==> forall j :: 0 <= j < |panels| ==> !lib.isContaining(panels[j].outline, c)
  {
    if |panels| == 0 then None
    else if lib.isContaining(panels[0].outline, c) then Some(0)
    else
      match FirstContaining(lib, panels[1..], c)
      case None => None
      case Some(k) => Some(k + 1)
  }

  /**
   * From DIALux's position to the centre searched for a host: up by half the
   * opening's height and by the floor of the space.
   */
  function LiftToSpace(p: Point, height: real, minZ: real): Point
  {
    p.(z := p.z + height / 2.0 + minZ)
  }

  /** Up by the host's own floor, but only when that floor is not the floor of the space. */
  function LiftToHost(p: Point, hostFloor: real, minZ: real): Point
  {
    if hostFloor != minZ then p.(z := p.z + hostFloor) else p
  }

  /**
   * The host's local frame: origin at its bottom-right corner, x towards its
   * bottom-left corner flattened onto the horizontal, y towards its top-right corner.
   */
  function HostFrame(lib: Library, host: Panel, panels: seq<Panel>): Cartesian
  {
    var space := Outlines(panels);
    var bottomRight := lib.bottomRight(host.outline, space);
    var bottomLeft := lib.bottomLeft(host.outline, space);
    var topRight := lib.topRight(host.outline, space);
    lib.cartesian(bottomRight, Flatten(Sub(bottomLeft, bottomRight)), Sub(topRight, bottomRight))
  }

  /** The world frame: origin at zero, the world X and Y axes. */
  function WorldFrame(lib: Library): Cartesian
  {
    lib.cartesian(Origin, XAxis, YAxis)
  }

  /**
   * The closed outline of a width by height rectangle centred on `c`, all at
   * `c`'s height: corners (-,-), (-,+), (+,+), (+,-), then the first again.
   */
  function ClosedRectangle(c: Point, width: real, height: real): seq<Point>
  {
    var first := Point(c.x - width / 2.0, c.y - height / 2.0, c.z);
    [ first,
      Point(c.x - width / 2.0, c.y + height / 2.0, c.z),
      Point(c.x + width / 2.0, c.y + height / 2.0, c.z),
      Point(c.x + width / 2.0, c.y - height / 2.0, c.z),
      first ]
  }

  const HostMissPrefix: string := "A suitable host panel for opening reference "
  const HostMissSuffix: string := " - opening may not have been correctly pulled."

  /** The diagnostic recorded when no panel hosts the furnishing; it names the furnishing's reference. */
  function HostMissMessage(reference: string): (m: string)
    ensures |m| == |HostMissPrefix| + |reference| + |HostMissSuffix|
    ensures m[|HostMissPrefix|..|HostMissPrefix| + |reference|] == reference
  {
    HostMissPrefix + reference + HostMissSuffix
  }

  /**
   * The point the host search tests: DIALux's position (fields[3]) raised by half
   * the height read from fields[4] and by the floor of the space.
   */
  function SearchCentre(formats: Formats, fields: seq<string>, panels: seq<Panel>): Point
    requires |fields| >= 5 && SizeTokens(fields[4]).Some? && HasFloors(panels)
  {
    var height := formats.toDouble(SizeTokens(fields[4]).value.1);
    LiftToSpace(formats.parsePoint(fields[3]), height, SpaceFloor(panels))
  }

  /** How FromDialUXOpening ends. */
  datatype Outcome =
    | Thrown(error: Exception)              // an exception escapes; nothing has changed
    | NoHost(message: string)               // no host: the message is logged, an empty opening returned
    | Hosted(host: nat, opening: Opening)   // attached to panels[host] and returned

  /**
   * What FromDialUXOpening does, as a value: fields[3] is the position, fields[4]
   * the size, fields[1] the reference and fields[0] the category.
   */
  function Reverse(lib: Library, formats: Formats, fields: seq<string>, panels: seq<Panel>): (o: Outcome)
    ensures o.Hosted? ==> o.host < |panels|
  {
    if |fields| < 5 then Thrown(ArgumentOutOfRange)
    else
      match SizeTokens(fields[4])
      case None => Thrown(IndexOutOfRange)
      case Some((widthToken, heightToken)) =>
        var width := formats.toDouble(widthToken);
        var height := formats.toDouble(heightToken);
        if !HasFloors(panels) then Thrown(InvalidOperation)
        else
          var minZ := SpaceFloor(panels);
          var centre := SearchCentre(formats, fields, panels);
          match FirstContaining(lib, panels, centre)
          case None => NoHost(HostMissMessage(fields[1]))
          case Some(i) =>
            match PieceAt(fields[0], '=', 1)
            case None => Thrown(IndexOutOfRange)
            case Some(typeToken) =>
              var host := panels[i];
              var local := HostFrame(lib, host, panels);
              var world := WorldFrame(lib);
              var placed := LiftToHost(centre, BottomZ(host.outline), minZ);
              var rectangle := ClosedRectangle(lib.orientPoint(placed, local, world), width, height);
              Hosted(i, Opening(lib.toEdges(lib.orientCurve(Polyline(rectangle), world, local)), formats.typeFromDIALux(typeToken)))
  }

  /**
   * Lines 97-122 of FromDialUXOpening: the host's frame from its corners, the
   * centre taken from that frame into the world frame, the closed rectangle drawn
   * around it there, and the rectangle taken back into the host's frame as edges.
   */
  method RectangleOnHost(lib: Library, host: Panel, panels: seq<Panel>, centre: Point, width: real, height: real)
    returns (edges: seq<Edge>)
    ensures
      var local := HostFrame(lib, host, panels);
      var world := WorldFrame(lib);
      var rectangle := ClosedRectangle(lib.orientPoint(centre, local, world), width, height);
      edges == lib.toEdges(lib.orientCurve(Polyline(rectangle), world, local))
  {
    var space := Outlines(panels);
    var panelBottomRight := lib.bottomRight(host.outline, space);
    var panelBottomLeft := lib.bottomLeft(host.outline, space);
    var panelTopRight := lib.topRight(host.outline, space);

    var xVector := Sub(panelBottomLeft, panelBottomRight);
    xVector := xVector.(z := 0.0);
    var yVector := Sub(panelTopRight, panelBottomRight);

    var worldOrigin := Point(0.0, 0.0, 0.0);
    var worldCartesian := lib.cartesian(worldOrigin, XAxis, YAxis);
    var localCartesian := lib.cartesian(panelBottomRight, xVector, yVector);

    assert localCartesian == HostFrame(lib, host, panels);
    assert worldCartesian == WorldFrame(lib);
    var centreTransformed := lib.orientPoint(centre, localCartesian, worldCartesian);

    var openingPts: seq<Point> := [];
    openingPts := openingPts + [Point(centreTransformed.x - width / 2.0, centreTransformed.y - height / 2.0, centreTransformed.z)];
    openingPts := openingPts + [Point(centreTransformed.x - width / 2.0, centreTransformed.y + height / 2.0, centreTransformed.z)];
    openingPts := openingPts + [Point(centreTransformed.x + width / 2.0, centreTransformed.y + height / 2.0, centreTransformed.z)];
    openingPts := openingPts + [Point(centreTransformed.x + width / 2.0, centreTransformed.y - height / 2.0, centreTransformed.z)];
    openingPts := openingPts + [openingPts[0]];
    ghost var rectangle := ClosedRectangle(centreTransformed, width, height);
    assert |openingPts| == |rectangle| == 5;
    assert forall k :: 0 <= k < 5 ==> openingPts[k] == rectangle[k];
    assert openingPts == rectangle;

    var openingCurve := Polyline(openingPts);
    openingCurve := lib.orientCurve(openingCurve, worldCartesian, localCartesian);
    edges := lib.toEdges(openingCurve);
  }

  /**
   * FromDialUXOpening, step by step. The result and the change to the panels and
   * the log are those Reverse describes: on success only the host's list grows,
   * by the returned opening; on a host miss only the log grows; on an exception
   * nothing changes.
   */
  method FromDialUXOpening(lib: Library, formats: Formats, fields: seq<string>, panels: seq<Panel>, log: ErrorLog)
    returns (r: Result<Opening, Exception>)
    modifies panels, log
    ensures match Reverse(lib, formats, fields, panels)
      case Thrown(e) =>
        && r == Failure(e)
        && log.errors == old(log.errors)
        && forall p :: p in panels ==> p.openings == old(p.openings)
      case NoHost(message) =>
        && r == Success(EmptyOpening)
        && log.errors == old(log.errors) + [message]
        && forall p :: p in panels ==> p.openings == old(p.openings)
      case Hosted(i, opening) =>
        && r == Success(opening)
        && log.errors == old(log.errors)
        && panels[i].openings == old(panels[i].openings) + [opening]
        && forall p :: p in panels && p != panels[i] ==> p.openings == old(p.openings)
  {
    var opening := EmptyOpening;

    if |fields| < 4 {
      return Failure(ArgumentOutOfRange);
    }
    var centre := formats.parsePoint(fields[3]);

    if |fields| < 5 {
      return Failure(ArgumentOutOfRange);
    }
    var sizeText := PieceAt(fields[4], '=', 1);
    if sizeText.None? {
      assert Reverse(lib, formats, fields, panels) == Thrown(IndexOutOfRange);
      return Failure(IndexOutOfRange);
    }
    var size := Split(sizeText.value, ' ');
    var width := formats.toDouble(size[0]);
    if |size| < 2 {
      assert Reverse(lib, formats, fields, panels) == Thrown(IndexOutOfRange);
      return Failure(IndexOutOfRange);
    }
    var height := formats.toDouble(size[1]);
    assert SizeTokens(fields[4]) == Some((size[0], size[1]));

    centre := centre.(z := centre.z + height / 2.0);

    if !HasFloors(panels) {
      assert Reverse(lib, formats, fields, panels) == Thrown(InvalidOperation);
      return Failure(InvalidOperation);
    }
    var minZ := SpaceFloor(panels);
    centre := centre.(z := centre.z + minZ);

    ghost var searched := centre;
    assert searched == LiftToSpace(formats.parsePoint(fields[3]), height, minZ);
    var found := FirstContaining(lib, panels, centre);
    if found.None? {
      assert Reverse(lib, formats, fields, panels) == NoHost(HostMissMessage(fields[1]));
      log.Record(HostMissMessage(fields[1]));
      return Success(opening);
    }
    var host := panels[found.value];

    var bottomHost := BottomZ(host.outline);
    if bottomHost != minZ {
      centre := centre.(z := centre.z + bottomHost);
    }

    assert centre == LiftToHost(searched, BottomZ(host.outline), minZ);
    var edges := RectangleOnHost(lib, host, panels, centre, width, height);
    opening := opening.(edges := edges);
    var typeText := PieceAt(fields[0], '=', 1);
    if typeText.None? {
      assert Reverse(lib, formats, fields, panels) == Thrown(IndexOutOfRange);
      return Failure(IndexOutOfRange);
    }
    opening := opening.(openingType := formats.typeFromDIALux(typeText.value));
    assert Reverse(lib, formats, fields, panels) == Hosted(found.value, opening);

    host.openings := host.openings + [opening];
    return Success(opening);
  }

  // ---------------------------------------------------------------------------
  // Properties
  // ---------------------------------------------------------------------------

  /**
   * The vertical re-referencing of the two directions. ToDIALux lowers the centroid
   * by half the height and by the host's floor; the reverse raises it by half the
   * height and the space's floor, and by the host's floor only when the two floors
   * differ. The centroid comes back exactly when the host stands on the floor of
   * the space, or when that floor is at zero.
   */
  lemma VerticalRoundTrip(c: Point, height: real, hostFloor: real, minZ: real)
    ensures var sent := c.(z := c.z - height / 2.0 - hostFloor);
            LiftToHost(LiftToSpace(sent, height, minZ), hostFloor, minZ) == c
            <==> hostFloor == minZ || minZ == 0.0
  {
  }

  /**
   * The round trip through the furnishing ToDIALux returns: the reverse raises by
   * half the rounded height it reads back, not by half the height the forward
   * lowered by. The centroid comes back off by half the rounding error, plus the
   * space's floor when the host does not stand on it. With equal floors it comes
   * back within 0.00025, and exactly when the height was already on the 0.001 grid.
   */
  lemma RoundTripWithSentHeight(c: Point, height: real, hostFloor: real, minZ: real)
    ensures var sent := c.(z := c.z - height / 2.0 - hostFloor);
            var back := LiftToHost(LiftToSpace(sent, Round3(height), minZ), hostFloor, minZ);
            && back.x == c.x && back.y == c.y
            && back.z == c.z + (Round3(height) - height) / 2.0 + (if hostFloor == minZ then 0.0 else minZ)
            && (hostFloor == minZ ==> -0.00025 <= back.z - c.z <= 0.00025)
            && (hostFloor == minZ ==> (back == c <==> Round3(height) == height))
  {
  }

  /**
   * When every panel of the space stands on the same floor, the host's floor is
   * the space's floor and the reverse raises the position by that floor once.
   */
  lemma SharedFloorCountedOnce(panels: seq<Panel>, host: nat, p: Point, height: real, floor: real)
    requires HasFloors(panels) && host < |panels|
    requires forall i :: 0 <= i < |panels| ==> BottomZ(panels[i].outline) == floor
    ensures var minZ := SpaceFloor(panels);
            LiftToHost(LiftToSpace(p, height, minZ), BottomZ(panels[host].outline), minZ)
            == p.(z := p.z + height / 2.0 + floor)
  {
  }

  /**
   * The rectangle drawn around a centre: five points, closed, all at the centre's
   * height, corners in the order (-,-), (-,+), (+,+), (+,-); each side is parallel
   * to an axis, it spans the width along x and the height along y, and the mean of
   * its four corners is the centre.
   */
  lemma RectangleShape(c: Point, width: real, height: real)
    ensures var r := ClosedRectangle(c, width, height);
      && |r| == 5 && r[4] == r[0]
      && (forall i :: 0 <= i < 5 ==> r[i].z == c.z)
      && r[0].x == r[1].x == c.x - width / 2.0 && r[2].x == r[3].x == c.x + width / 2.0
      && r[0].y == r[3].y == c.y - height / 2.0 && r[1].y == r[2].y == c.y + height / 2.0
      && (forall i :: 0 <= i < 4 ==> r[i].x == r[i + 1].x || r[i].y == r[i + 1].y)
      && r[2].x - r[0].x == width && r[2].y - r[0].y == height
      && (r[0].x + r[1].x + r[2].x + r[3].x) / 4.0 == c.x
      && (r[0].y + r[1].y + r[2].y + r[3].y) / 4.0 == c.y
  {
  }

  /**
   * A size field `<label>=<width> <height>` with no `=` in the label and no space
   * or `=` in the two numbers gives exactly those two numbers.
   */
  lemma SizeTokensOfWellFormed(name: string, width: string, height: string)
    requires '=' !in name
    requires '=' !in width && ' ' !in width && '=' !in height && ' ' !in height
    ensures SizeTokens(name + "=" + width + " " + height) == Some((width, height))
  {
    var size := width + " " + height;
    assert '=' !in size;
    SplitAtFirst(name, '=', size);
    SplitOfFree(size, '=');
    assert name + "=" + width + " " + height == name + ['='] + size;
    SplitAtFirst(width, ' ', height);
    SplitOfFree(height, ' ');
    assert size == width + [' '] + height;
  }

  /** For example, "Size=1.5 2.0" reads as width "1.5" and height "2.0". */
  lemma SizeTokensExample()
    ensures SizeTokens("Size=1.5 2.0") == Some(("1.5", "2.0"))
  {
    SizeTokensOfWellFormed("Size", "1.5", "2.0");
    assert "Size" + "=" + "1.5" + " " + "2.0" == "Size=1.5 2.0";
  }

  /**
   * The host-miss path, both ways: the reverse logs a message naming fields[1]
   * and returns the empty opening exactly when the fields and the space are
   * readable and no panel contains the search point.
   */
  lemma ReverseHostMiss(lib: Library, formats: Formats, fields: seq<string>, panels: seq<Panel>)
    ensures Reverse(lib, formats, fields, panels).NoHost?
      <==> && |fields| >= 5 && SizeTokens(fields[4]).Some? && HasFloors(panels)
           && forall j :: 0 <= j < |panels|
                ==> !lib.isContaining(panels[j].outline, SearchCentre(formats, fields, panels))
    ensures Reverse(lib, formats, fields, panels).NoHost?
      ==> Reverse(lib, formats, fields, panels).message == HostMissMessage(fields[1])
  {
  }

  /**
   * The host is the first panel, in list order, that contains the search point,
   * and the attached opening carries the category named after the `=` of fields[0].
   */
  lemma ReverseHostIsFirst(lib: Library, formats: Formats, fields: seq<string>, panels: seq<Panel>)
    requires |fields| >= 5 && SizeTokens(fields[4]).Some? && HasFloors(panels)
    ensures var o := Reverse(lib, formats, fields, panels);
            var c := SearchCentre(formats, fields, panels);
            o.Hosted? ==>
            && o.host < |panels|
            && lib.isContaining(panels[o.host].outline, c)
            && (forall j :: 0 <= j < o.host ==> !lib.isContaining(panels[j].outline, c))
            && PieceAt(fields[0], '=', 1).Some?
            && o.opening.openingType == formats.typeFromDIALux(PieceAt(fields[0], '=', 1).value)
  {
  }

  /** The exceptions, both ways: which malformed input raises which one. */
  lemma ReverseThrows(lib: Library, formats: Formats, fields: seq<string>, panels: seq<Panel>)
    ensures var o := Reverse(lib, formats, fields, panels);
      && (|fields| < 5 <==> o == Thrown(ArgumentOutOfRange))
      && (o == Thrown(InvalidOperation) <==> |fields| >= 5 && SizeTokens(fields[4]).Some? && !HasFloors(panels))
      && (o == Thrown(IndexOutOfRange)
          <==> && |fields| >= 5
               && (|| SizeTokens(fields[4]).None?
                   || (&& HasFloors(panels)
                       && FirstContaining(lib, panels, SearchCentre(formats, fields, panels)).Some?
                       && '=' !in fields[0])))
  {
  }

  /**
   * The frame the reverse builds on the host: origin at the bottom-right corner, a
   * horizontal x-axis that is the bottom edge's horizontal part, and a y-axis from
   * the bottom-right to the top-right corner.
   */
  lemma HostFrameAxes(lib: Library, host: Panel, panels: seq<Panel>)
    ensures var space := Outlines(panels);
      var bottomRight := lib.bottomRight(host.outline, space);
      var bottomLeft := lib.bottomLeft(host.outline, space);
      var topRight := lib.topRight(host.outline, space);
      var xAxis := Vector(bottomLeft.x - bottomRight.x, bottomLeft.y - bottomRight.y, 0.0);
      HostFrame(lib, host, panels) == lib.cartesian(bottomRight, xAxis, Sub(topRight, bottomRight))
  {
  }
}
