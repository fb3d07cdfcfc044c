# DIALux opening converter — a Dafny model

This project models the opening converter of the DIALux adapter of the BHoM
(`DIALux_Adapter/Convert/Environment/Opening.cs`). It converts in two directions:

- **Forward, `ToDIALux`.** A BHoM environment `Opening` hosted on a `Panel` becomes a
  DIALux `Furnishing`. The position is the outline's centroid, lowered by half the
  opening's height and re-referenced to the host panel's lowest control point. Width
  and height are rounded to three decimals. Rotation, depth and reference are blank.
- **Reverse, `FromDialUXOpening`.** DIALux's positional text fields become an
  `Opening` again:
  - fields[3] is the position and fields[4] the size `<label>=<width> <height>`;
  - the centre is raised by half the height and by the floor of the space (the
    least, over the panels, of each panel's lowest control point);
  - the host is the first panel whose outline contains that point;
  - the host's own floor is added only when it differs from the space's floor;
  - a rectangle is drawn around the centre in the host's frame (origin at the
    bottom-right corner, a flattened x-axis towards the bottom-left corner, a
    y-axis towards the top-right corner);
  - the new opening is appended to the host's `Openings`.
  When no panel contains the point, an error naming fields[1] is recorded and an
  empty opening is returned, with no panel touched.

Files:
- `wrappers.dfy`: `Option` and `Result`.
- `geometry.dfy`: points, vectors, polylines, edges and frames, LINQ's `Min`, and
  `Library`, the geometry-library calls the converter makes.
- `text.dfy`: .NET's `String.Split(char)`, its inverse `Join`, and indexing into the
  split.
- `rounding.dfy`: `Math.Round(x, 3)` with ties to even.
- `opening.dfy`: the converter. It holds `Panel` and `ErrorLog` (classes, since the
  source mutates them), `ToDIALux`, the reverse as the specification function
  `Reverse`, and `FromDialUXOpening`, which performs it step by step and is proved
  to match `Reverse`.

Foreign calls are parameters. The geometry library (`Centroid`, `Height`, `Width`,
`IsContaining`, `BottomRight`, `BottomLeft`, `TopRight`,
`CreateCartesianCoordinateSystem`, `Orient`, `ToEdges`, `Opening.Polyline()`) is
the record `Geometry.Library`. The text and category conversions (`FromDialUXPoint`,
`System.Convert.ToDouble`, `OpeningType.ToDIALux()`, `FromDialUXOpeningType`) are
the record `Convert.Formats`. Both are records of total functions, and the model
assumes nothing about them. The .NET exceptions the converter lets escape
(`ArgumentOutOfRangeException` from the field list,
`IndexOutOfRangeException` from indexing a split, `InvalidOperationException` from
`Min()` of an empty sequence) are `Failure` results.

The reverse does not always undo the forward in the vertical.
`VerticalRoundTrip` takes the height read back to be the one sent. Under that
assumption the centroid comes back unchanged exactly when the host's floor equals
the space's floor, or when the space's floor is at height zero. Otherwise it comes
back raised by the space's floor. The height read back equals the one sent when
that height is on the 0.001 grid. In general `ToDIALux` lowers by the unrounded
height but records only the rounded one, and the reverse raises by that.
`RoundTripWithSentHeight` covers this case: with equal floors the centroid comes
back within 0.00025, and exactly when rounding left the height unchanged.

Points of the code worth noting:
- The size is split on the single character `' '`, not on any whitespace.
- Only the piece after the first `=` is used: `a=1 2=3` reads as `1 2`.
- Forward conversion does have an error path: a host panel without control
  points makes `Min()` throw.
- A category field without `=` makes the reverse throw after the host is found,
  before anything is attached.

## Model

| member | source | states |
|---|---|---|
| Geometry.Min | DIALux_Adapter/Convert/Environment/Opening.cs:83 | LINQ `Min()` of a non-empty list is at most every element and is one of them |
| Geometry.BottomZ | DIALux_Adapter/Convert/Environment/Opening.cs:60 | a panel's floor is at most the Z of every control point and is the Z of one of them |
| Text.Split | DIALux_Adapter/Convert/Environment/Opening.cs:77 | `String.Split(sep)`: at least one piece, no piece holds the separator, a single piece exactly when the text has no separator, and every piece's characters come from the text |
| Text.PieceAt | DIALux_Adapter/Convert/Environment/Opening.cs:77 | `s.Split(sep)[k]` exists exactly when k is below the number of pieces, and is free of the separator |
| Text.SplitAtFirst | DIALux_Adapter/Convert/Environment/Opening.cs:77 | the first separator ends the first piece, and the rest is split on its own |
| Text.SplitJoin | DIALux_Adapter/Convert/Environment/Opening.cs:77 | splitting undoes joining when no piece holds the separator |
| Text.JoinSplit | DIALux_Adapter/Convert/Environment/Opening.cs:77 | joining undoes splitting: only the separators are dropped |
| Rounding.RoundToEvenError | DIALux_Adapter/Convert/Environment/Opening.cs:64-65 | rounding to an integer moves a value by at most one half, and an odd result is never reached from an exact tie |
| Rounding.Round3Error | DIALux_Adapter/Convert/Environment/Opening.cs:64-65 | `Math.Round(x, 3)` is within 0.0005 of x |
| Rounding.Round3OnGrid | DIALux_Adapter/Convert/Environment/Opening.cs:64-65 | a value with at most three decimals is unchanged by rounding |
| Rounding.Round3Idempotent | DIALux_Adapter/Convert/Environment/Opening.cs:64-65 | rounding twice is rounding once |
| Rounding.Round3Examples | DIALux_Adapter/Convert/Environment/Opening.cs:64-65 | 1.23456 rounds to 1.235 and 2.34567 to 2.346 |
| Rounding.Round3Ties | DIALux_Adapter/Convert/Environment/Opening.cs:64-65 | ties go to the even neighbour: 0.0125 rounds to 0.012, 0.0135 to 0.014 |
| Convert.ToDIALux | DIALux_Adapter/Convert/Environment/Opening.cs:48-69 | fails, with `InvalidOperation`, exactly when the host has no control points. Otherwise: the type comes from the type lookup; the reference is empty; all rotations and the depth are 0; the position has the centroid's X and Y and Z = centroid Z − height/2 − host floor; height and width are the outline's, rounded to 3 decimals and so within 0.0005 of them |
| Convert.SizeTokens | DIALux_Adapter/Convert/Environment/Opening.cs:77-79 | the size field fails to parse exactly when it has no `=` or the piece after the first `=` (up to the next `=`) has no space; the tokens hold neither a space nor `=` |
| Convert.SizeTokensOfWellFormed | DIALux_Adapter/Convert/Environment/Opening.cs:77-79 | `<name>=<w> <h>` yields exactly (w, h) when the name has no `=` and w, h have no space or `=` |
| Convert.SizeTokensExample | DIALux_Adapter/Convert/Environment/Opening.cs:77-79 | `Size=1.5 2.0` yields ("1.5", "2.0") |
| Convert.PanelFloors | DIALux_Adapter/Convert/Environment/Opening.cs:83 | one floor per panel, in list order, each that panel's lowest control-point Z |
| Convert.SpaceFloor | DIALux_Adapter/Convert/Environment/Opening.cs:83 | the min-of-mins floor is at most every panel's floor and equals one of them |
| Convert.FirstContaining | DIALux_Adapter/Convert/Environment/Opening.cs:86 | returns the index of a panel that contains the point, with no earlier panel containing it; returns none exactly when no panel contains it |
| Convert.HostMissMessage | DIALux_Adapter/Convert/Environment/Opening.cs:89 | the host-miss diagnostic carries the furnishing's reference at a fixed offset |
| Convert.Reverse | DIALux_Adapter/Convert/Environment/Opening.cs:71-127 | the reverse as a value; a hosted outcome names an index into the panel list |
| Convert.RectangleOnHost | DIALux_Adapter/Convert/Environment/Opening.cs:97-122 | the edges are those of the closed rectangle drawn around the centre, after the centre is taken from the host frame into the world frame, taken back into the host frame |
| Convert.FromDialUXOpening | DIALux_Adapter/Convert/Environment/Opening.cs:71-127 | result, panels and log agree with `Reverse`. On an exception nothing changes. On a host miss only the log grows, by the message, and the empty opening is returned. On success the log is unchanged, the host's `Openings` grows by exactly the returned opening, and every other panel's `Openings` is unchanged |
| Convert.ErrorLog.Record | DIALux_Adapter/Convert/Environment/Opening.cs:89 | recording an error appends exactly that message to the log |
| Convert.VerticalRoundTrip | DIALux_Adapter/Convert/Environment/Opening.cs:58-95 | forward lowering followed by reverse raising returns the centroid exactly when host floor = space floor or space floor = 0 (both directions) |
| Convert.RoundTripWithSentHeight | DIALux_Adapter/Convert/Environment/Opening.cs:58-95 | with the rounded height read back, the centroid's X and Y return unchanged and Z returns off by (Round3(h) − h)/2, plus the space floor when the floors differ; with equal floors it is within 0.00025, and exact iff Round3(h) = h |
| Convert.SharedFloorCountedOnce | DIALux_Adapter/Convert/Environment/Opening.cs:83-95 | when all panels share one floor, the reverse adds that floor once, not twice |
| Convert.RectangleShape | DIALux_Adapter/Convert/Environment/Opening.cs:111-116 | 5 points with the last equal to the first, all at the centre's Z, corners at X ± w/2, Y ± h/2 in the order (−,−),(−,+),(+,+),(+,−); sides axis-parallel, extents w and h, corner mean = centre |
| Convert.ReverseHostMiss | DIALux_Adapter/Convert/Environment/Opening.cs:86-91 | the host-miss outcome happens exactly when the fields and the space are readable and no panel contains the search point; its message is the one naming fields[1] |
| Convert.ReverseHostIsFirst | DIALux_Adapter/Convert/Environment/Opening.cs:86-123 | a hosted outcome's host is the first panel in list order containing the search point, and its category is read from the text after `=` in fields[0] |
| Convert.ReverseThrows | DIALux_Adapter/Convert/Environment/Opening.cs:75-123 | which input raises which exception, both ways: fewer than 5 fields; an unreadable size or category field; an empty space or a panel without control points |
| Convert.HostFrameAxes | DIALux_Adapter/Convert/Environment/Opening.cs:97-107 | the local frame has the bottom-right corner as origin, x = (bottom-left − bottom-right) with Z set to 0, and y = top-right − bottom-right |

## Left out

- IEEE doubles: coordinates and sizes are exact reals. `Math.Round` is modelled
  exactly on reals, ties to even. Its error from scaling a double, and its
  pass-through of huge values, are not modelled.
- Numeric and text parsing (`System.Convert.ToDouble`, `FromDialUXPoint`) are total
  functions. Their culture dependence and their `FormatException` are not modelled.
- The category lookups (`OpeningType.ToDIALux()`, `FromDialUXOpeningType`) are
  abstract functions. Their failure on an unknown category is not modelled, and
  BHoM's categories other than the default `Undefined` are left abstract.
- The geometry library is abstract, and nothing is proved about `Orient`: no frame
  round trip, and no placement on a rotated panel.
- `RecordError` is the `ErrorLog` class. Its other effects (events, console) are not
  part of this model.
- `null` panels, fields or hosts, and the `NullReferenceException` they would cause,
  are not modelled: all references are non-null.
- Aliasing of points and openings. The source mutates a `Point` in place, and shares
  the returned `Opening` object with the host's list. Here points are values
  reassigned in a local, and the appended opening is equal to the returned one.
- A panel's outline is a stored, unchanging polyline. The model does not derive it
  from the panel's edges, which this file never changes.
- The order in which `FromDialUXOpening` evaluates `FromDialUXPoint(fields[3])`
  before reading fields[4], and `ToDouble(size[0])` before reading `size[1]`, is
  kept. It cannot change the outcome here because those calls are total.
- The attribute metadata (`Description`, `Input`, `Output`) and the `using` lines.
