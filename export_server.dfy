/**
 * The request handling of the SVG-to-DXF export server (server.py) that is
 * not I/O: validating and routing a request, reading the options with their
 * defaults, the `$INSUNITS` table, the point transform, the polyline filter
 * with its counter, and the naming of the temporary files.
 *
 * HTTP transport, the vpype command line and SVG reader, ezdxf document
 * creation and saving, and the temporary files themselves are not modelled;
 * what vpype reads from the SVG enters as a parameter.
 */
module ExportServer {
  import opened Wrappers
  import opened PyStrings

  // ---------------------------------------------------------------------
  // Validation and routing (`process_export`)
  // ---------------------------------------------------------------------

  const SourceFormats: seq<string> := ["svg", "png", "json"]
  const OutputFormats: seq<string> := ["dxf"]

  /**
   * The options of a request. Each is absent or present with the type the
   * converter uses; values of other JSON types are not modelled.
   */
  datatype RequestOptions = RequestOptions(
    tolerance: Option<string>,
    optimize: Option<bool>,
    scale: Option<real>,
    units: Option<string>)

  /** `options: dict = {}`, the value of a request that sends no options. */
  const NoOptions: RequestOptions := RequestOptions(None, None, None, None)

  datatype ExportRequest = ExportRequest(
    format: string,
    data: string,
    outputFormat: string,
    options: RequestOptions)

  /** What `process_export` does with a request: an HTTP error, or the SVG-to-DXF conversion. */
  datatype Dispatch =
    | HttpError(status: int, detail: string)
    | ConvertSvgToDxf(svgContent: string, options: RequestOptions)

  function SourceFormatDetail(format: string): string
  {
    "Unsupported source format: " + format + ". Supported: svg, png, json"
  }

  function OutputFormatDetail(outputFormat: string): string
  {
    "Unsupported output format: " + outputFormat + ". Supported: dxf"
  }

  function NotImplementedDetail(format: string, outputFormat: string): string
  {
    "Conversion " + format + "\U{2192}" + outputFormat + " not yet implemented"
  }

  /**
   * `process_export`: the source format is checked first, then the output
   * format, both ignoring case; a valid svg-to-dxf request goes to the
   * converter with its data and options, the other valid pairs get 501.
   */
  function ProcessExport(req: ExportRequest): (r: Dispatch)
    ensures r.HttpError? ==> r.status == 400 || r.status == 501
    ensures Lower(req.format) !in SourceFormats ==>
              r == HttpError(400, SourceFormatDetail(req.format))
    ensures Lower(req.format) in SourceFormats && Lower(req.outputFormat) != "dxf" ==>
              r == HttpError(400, OutputFormatDetail(req.outputFormat))
    ensures r.ConvertSvgToDxf? <==> Lower(req.format) == "svg" && Lower(req.outputFormat) == "dxf"
    ensures r.ConvertSvgToDxf? ==> r.svgContent == req.data && r.options == req.options
    ensures r.HttpError? && r.status == 501 <==>
              (Lower(req.format) == "png" || Lower(req.format) == "json") && Lower(req.outputFormat) == "dxf"
  {
    var source := Lower(req.format);
    var output := Lower(req.outputFormat);
    if source !in SourceFormats then
      HttpError(400, SourceFormatDetail(req.format))
    else if output !in OutputFormats then
      HttpError(400, OutputFormatDetail(req.outputFormat))
    else if source == "svg" && output == "dxf" then
      ConvertSvgToDxf(req.data, req.options)
    else
      HttpError(501, NotImplementedDetail(req.format, req.outputFormat))
  }

  /**
   * Two requests whose formats differ only in letter case are routed alike:
   * same conversion, or same status code (the detail echoes the raw text).
   */
  lemma ProcessExportIgnoresCase(r1: ExportRequest, r2: ExportRequest)
    requires Lower(r1.format) == Lower(r2.format) && Lower(r1.outputFormat) == Lower(r2.outputFormat)
    requires r1.data == r2.data && r1.options == r2.options
    ensures ProcessExport(r1).ConvertSvgToDxf? ==> ProcessExport(r1) == ProcessExport(r2)
    ensures ProcessExport(r1).HttpError? ==>
              ProcessExport(r2).HttpError? && ProcessExport(r1).status == ProcessExport(r2).status
  {
  }

  // ---------------------------------------------------------------------
  // Options of `convert_svg_to_dxf`
  // ---------------------------------------------------------------------

  const DefaultTolerance: string := "0.01mm"
  const DefaultOptimize: bool := true
  const DefaultScale: real := 1.0
  const DefaultUnits: string := "mm"

  datatype ConversionSettings = ConversionSettings(
    tolerance: string,
    optimize: bool,
    scale: real,
    units: string)

  /** `options.get(key, default)`. */
  function GetOrDefault<T>(value: Option<T>, default: T): (r: T)
    ensures value.Some? ==> r == value.value
    ensures value.None? ==> r == default
  {
    match value
    case Some(v) => v
    case None => default
  }

  /** The four option lookups, each falling back to its default when absent. */
  function ResolveSettings(options: RequestOptions): (s: ConversionSettings)
    ensures s.tolerance == (if options.tolerance.Some? then options.tolerance.value else "0.01mm")
    ensures s.optimize == (options.optimize != Some(false))
    ensures s.scale == (if options.scale.Some? then options.scale.value else 1.0)
    ensures s.units == (if options.units.Some? then options.units.value else "mm")
  {
    ConversionSettings(
      GetOrDefault(options.tolerance, DefaultTolerance),
      GetOrDefault(options.optimize, DefaultOptimize),
      GetOrDefault(options.scale, DefaultScale),
      GetOrDefault(options.units, DefaultUnits))
  }

  /** A request without options converts with tolerance 0.01mm, optimization on, scale 1 and millimetres. */
  lemma DefaultSettings()
    ensures ResolveSettings(NoOptions) == ConversionSettings("0.01mm", true, 1.0, "mm")
  {
  }

  // ---------------------------------------------------------------------
  // `$INSUNITS`
  // ---------------------------------------------------------------------

  /** The DXF `$INSUNITS` codes of the units the server knows. */
  const UnitsCodes: map<string, int> := map["mm" := 4, "cm" := 5, "inch" := 1, "m" := 6]

  /** The `$INSUNITS` code set for `units`, ignoring case; `None` leaves the header unset. */
  function InsUnitsCode(units: string): (r: Option<int>)
    ensures r.Some? <==> Lower(units) in {"mm", "cm", "inch", "m"}
    ensures Lower(units) == "mm" ==> r == Some(4)
    ensures Lower(units) == "cm" ==> r == Some(5)
    ensures Lower(units) == "inch" ==> r == Some(1)
    ensures Lower(units) == "m" ==> r == Some(6)
  {
    var key := Lower(units);
    if key in UnitsCodes then Some(UnitsCodes[key]) else None
  }

  /** Two unit names get the same code only when they are the same name up to case. */
  lemma InsUnitsCodeInjective(u1: string, u2: string)
    requires InsUnitsCode(u1).Some? && InsUnitsCode(u1) == InsUnitsCode(u2)
    ensures Lower(u1) == Lower(u2)
  {
  }

  // ---------------------------------------------------------------------
  // Geometry: point transform and polyline filter
  // ---------------------------------------------------------------------

  /** A vpype coordinate, a complex number re + im*i. */
  datatype Complex = Complex(re: real, im: real)

  /** A DXF polyline vertex. */
  datatype Point = Point(x: real, y: real)

  type Line = seq<Complex>
  type Layer = seq<Line>

  /** Scale both coordinates and flip the Y axis (SVG's Y grows downwards, DXF's upwards). */
  function TransformPoint(c: Complex, scale: real): (p: Point)
    ensures scale == 1.0 ==> p == Point(c.re, -c.im)
  {
    Point(c.re * scale, (-c.im) * scale)
  }

  /** The inverse of the transform for a non-zero scale. */
  function UntransformPoint(p: Point, scale: real): Complex
    requires scale != 0.0
  {
    Complex(p.x / scale, -(p.y / scale))
  }

  /** With a non-zero scale no two coordinates map to the same vertex. */
  lemma {:induction false} TransformPointRoundTrip(c: Complex, scale: real)
    requires scale != 0.0
    ensures UntransformPoint(TransformPoint(c, scale), scale) == c
  {
    var p := TransformPoint(c, scale);
    assert p.x / scale == c.re;
    assert p.y / scale == -c.im;
  }

  /** The vertex list of one line, point by point in the line's order. */
  function TransformLine(line: Line, scale: real): (points: seq<Point>)
    ensures |points| == |line|
    ensures forall k :: 0 <= k < |line| ==> points[k] == TransformPoint(line[k], scale)
  {
    if |line| == 0 then []
    else TransformLine(line[..|line| - 1], scale) + [TransformPoint(line[|line| - 1], scale)]
  }

  /** The number of lines with at least two coordinates. */
  function LongLineCount(lines: seq<Line>): nat
  {
    if |lines| == 0 then 0
    else LongLineCount(lines[..|lines| - 1]) + (if |lines[|lines| - 1]| >= 2 then 1 else 0)
  }

  /** The number of lines with at least two coordinates, over all layers. */
  function DocumentLongLineCount(layers: seq<Layer>): nat
  {
    if |layers| == 0 then 0
    else DocumentLongLineCount(layers[..|layers| - 1]) + LongLineCount(layers[|layers| - 1])
  }

  /** The polylines one layer contributes: every line with at least two points, in order. */
  function LayerPolylines(lines: seq<Line>, scale: real): (polylines: seq<seq<Point>>)
    ensures |polylines| == LongLineCount(lines)
  {
    if |lines| == 0 then []
    else
      var points := TransformLine(lines[|lines| - 1], scale);
      LayerPolylines(lines[..|lines| - 1], scale) + (if |points| >= 2 then [points] else [])
  }

  /** The polylines of the whole document, layer after layer. */
  function DocumentPolylines(layers: seq<Layer>, scale: real): (polylines: seq<seq<Point>>)
    ensures |polylines| == DocumentLongLineCount(layers)
  {
    if |layers| == 0 then []
    else DocumentPolylines(layers[..|layers| - 1], scale) + LayerPolylines(layers[|layers| - 1], scale)
  }

  /** Every polyline of a layer has at least two points. */
  lemma {:induction false} LayerPolylinesHaveTwoPoints(lines: seq<Line>, scale: real)
    ensures forall e :: e in LayerPolylines(lines, scale) ==> |e| >= 2
  {
    if |lines| > 0 {
      LayerPolylinesHaveTwoPoints(lines[..|lines| - 1], scale);
    }
  }

  /** Every polyline of the document has at least two points. */
  lemma {:induction false} DocumentPolylinesHaveTwoPoints(layers: seq<Layer>, scale: real)
    ensures forall e :: e in DocumentPolylines(layers, scale) ==> |e| >= 2
  {
    if |layers| > 0 {
      DocumentPolylinesHaveTwoPoints(layers[..|layers| - 1], scale);
      LayerPolylinesHaveTwoPoints(layers[|layers| - 1], scale);
    }
  }

  /**
   * The polylines of a layer are exactly the transforms of its lines with at
   * least two coordinates: each polyline is one of them, and each of them is
   * a polyline.
   */
  lemma {:induction false} LayerPolylinesAreLongLines(lines: seq<Line>, scale: real)
    ensures forall e :: e in LayerPolylines(lines, scale) ==>
              exists k :: 0 <= k < |lines| && |lines[k]| >= 2 && e == TransformLine(lines[k], scale)
    ensures forall k :: 0 <= k < |lines| && |lines[k]| >= 2 ==>
              TransformLine(lines[k], scale) in LayerPolylines(lines, scale)
  {
    if |lines| > 0 {
      var n := |lines| - 1;
      var front := lines[..n];
      LayerPolylinesAreLongLines(front, scale);
      forall e | e in LayerPolylines(lines, scale)
        ensures exists k :: 0 <= k < |lines| && |lines[k]| >= 2 && e == TransformLine(lines[k], scale)
      {
        if e in LayerPolylines(front, scale) {
          var k :| 0 <= k < |front| && |front[k]| >= 2 && e == TransformLine(front[k], scale);
          assert front[k] == lines[k];
        } else {
          assert e == TransformLine(lines[n], scale) && |lines[n]| >= 2;
        }
      }
      forall k | 0 <= k < |lines| && |lines[k]| >= 2
        ensures TransformLine(lines[k], scale) in LayerPolylines(lines, scale)
      {
        if k < n {
          assert front[k] == lines[k];
        }
      }
    }
  }

  /**
   * The polylines of the document are exactly the transforms of the lines,
   * in any layer, with at least two coordinates.
   */
  lemma {:induction false} DocumentPolylinesAreLongLines(layers: seq<Layer>, scale: real)
    ensures forall e :: e in DocumentPolylines(layers, scale) ==>
              exists i, k :: 0 <= i < |layers| && 0 <= k < |layers[i]| && |layers[i][k]| >= 2 &&
                             e == TransformLine(layers[i][k], scale)
    ensures forall i, k :: 0 <= i < |layers| && 0 <= k < |layers[i]| && |layers[i][k]| >= 2 ==>
              TransformLine(layers[i][k], scale) in DocumentPolylines(layers, scale)
  {
    if |layers| > 0 {
      var n := |layers| - 1;
      var front := layers[..n];
      DocumentPolylinesAreLongLines(front, scale);
      LayerPolylinesAreLongLines(layers[n], scale);
      forall e | e in DocumentPolylines(layers, scale)
        ensures exists i, k :: 0 <= i < |layers| && 0 <= k < |layers[i]| && |layers[i][k]| >= 2 &&
                               e == TransformLine(layers[i][k], scale)
      {
        if e in DocumentPolylines(front, scale) {
          var i, k :| 0 <= i < |front| && 0 <= k < |front[i]| && |front[i][k]| >= 2 &&
                      e == TransformLine(front[i][k], scale);
          assert front[i] == layers[i];
        } else {
          assert e in LayerPolylines(layers[n], scale);
          var k :| 0 <= k < |layers[n]| && |layers[n][k]| >= 2 && e == TransformLine(layers[n][k], scale);
        }
      }
      forall i, k | 0 <= i < |layers| && 0 <= k < |layers[i]| && |layers[i][k]| >= 2
        ensures TransformLine(layers[i][k], scale) in DocumentPolylines(layers, scale)
      {
        if i < n {
          assert front[i] == layers[i];
        }
      }
    }
  }

  /**
   * The conversion loop of `convert_svg_to_dxf`: for every layer and every
   * line, the transformed points are collected, and a line with at least two
   * points is added as a polyline and counted. The loop over one layer's
   * lines is `AddLayer`, the loop over one line's coordinates `LinePoints`.
   */
  method ConvertPaths(layers: seq<Layer>, scale: real) returns (polylines: seq<seq<Point>>, pathCount: nat)
    ensures polylines == DocumentPolylines(layers, scale)
    ensures pathCount == |polylines|
  {
    polylines := [];
    pathCount := 0;
    var i := 0;
    while i < |layers|
      invariant 0 <= i <= |layers|
      invariant polylines == DocumentPolylines(layers[..i], scale)
      invariant pathCount == |polylines|
    {
      polylines, pathCount := AddLayer(polylines, pathCount, layers[i], scale);
      i := i + 1;
      assert layers[..i][..i - 1] == layers[..i - 1];
    }
    assert layers[..i] == layers;
  }

  /** Adds one layer's polylines, counting each one added. */
  method AddLayer(polylines: seq<seq<Point>>, pathCount: nat, layer: Layer, scale: real)
    returns (polylines': seq<seq<Point>>, pathCount': nat)
    requires pathCount == |polylines|
    ensures polylines' == polylines + LayerPolylines(layer, scale)
    ensures pathCount' == |polylines'|
  {
    polylines', pathCount' := polylines, pathCount;
    var j := 0;
    while j < |layer|
      invariant 0 <= j <= |layer|
      invariant polylines' == polylines + LayerPolylines(layer[..j], scale)
      invariant pathCount' == |polylines'|
    {
      var points := LinePoints(layer[j], scale);
      assert layer[..j + 1][..j] == layer[..j];
      if |points| >= 2 {
        polylines' := polylines' + [points];
        pathCount' := pathCount' + 1;
      }
      j := j + 1;
    }
    assert layer[..j] == layer;
  }

  /** The points of one line: each coordinate scaled, Y flipped, in order. */
  method LinePoints(line: Line, scale: real) returns (points: seq<Point>)
    ensures points == TransformLine(line, scale)
  {
    points := [];
    var k := 0;
    while k < |line|
      invariant 0 <= k <= |line|
      invariant points == TransformLine(line[..k], scale)
    {
      var coord := line[k];
      points := points + [Point(coord.re * scale, (-coord.im) * scale)];
      k := k + 1;
      assert line[..k][k - 1] == coord;
      assert line[..k][..k - 1] == line[..k - 1];
      assert TransformPoint(coord, scale) == Point(coord.re * scale, (-coord.im) * scale);
      assert TransformLine(line[..k], scale) == TransformLine(line[..k - 1], scale) + [TransformPoint(coord, scale)];
    }
    assert line[..k] == line;
  }

  /** The parts of the DXF document the conversion sets: the units header and the polylines. */
  datatype Drawing = Drawing(insUnits: Option<int>, polylines: seq<seq<Point>>)

  /**
   * The DXF content built from what vpype read: `$INSUNITS` from the units
   * option and one polyline per line of at least two points, scaled and
   * flipped; `pathCount` is the number of polylines.
   */
  method BuildDrawing(layers: seq<Layer>, settings: ConversionSettings) returns (drawing: Drawing, pathCount: nat)
    ensures drawing.insUnits == InsUnitsCode(settings.units)
    ensures drawing.polylines == DocumentPolylines(layers, settings.scale)
    ensures pathCount == |drawing.polylines| == DocumentLongLineCount(layers)
  {
    var polylines;
    polylines, pathCount := ConvertPaths(layers, settings.scale);
    drawing := Drawing(InsUnitsCode(settings.units), polylines);
  }

  // ---------------------------------------------------------------------
  // Temporary file names
  // ---------------------------------------------------------------------

  /** `tmp_svg_path.replace('.svg', '_optimized.svg')`, as the server writes it. */
  function OptimizedPathAsWritten(tmpPath: string): (r: string)
    ensures |r| >= |tmpPath|
    ensures EndsWith(tmpPath, ".svg") ==> |r| > |tmpPath|
  {
    if EndsWith(tmpPath, ".svg") then
      ReplaceAllGrows(tmpPath, ".svg", "_optimized.svg", |tmpPath| - 4);
      ReplaceAll(tmpPath, ".svg", "_optimized.svg")
    else
      ReplaceAll(tmpPath, ".svg", "_optimized.svg")
  }

  /**
   * The optimized file's name as intended: the temporary file's trailing
   * `.svg` replaced by `_optimized.svg`, in the same directory.
   */
  function OptimizedPath(tmpPath: string): (r: string)
    requires EndsWith(tmpPath, ".svg")
    ensures EndsWith(r, "_optimized.svg")
    ensures |r| == |tmpPath| + 10
    ensures r[..|tmpPath| - 4] == tmpPath[..|tmpPath| - 4]
    ensures r != tmpPath
  {
    var r := tmpPath[..|tmpPath| - 4] + "_optimized.svg";
    assert r[|r| - 14..] == "_optimized.svg";
    r
  }

  /** Distinct temporary files get distinct optimized files. */
  lemma OptimizedPathInjective(p1: string, p2: string)
    requires EndsWith(p1, ".svg") && EndsWith(p2, ".svg")
    requires OptimizedPath(p1) == OptimizedPath(p2)
    ensures p1 == p2
  {
    assert p1 == p1[..|p1| - 4] + ".svg";
    assert p2 == p2[..|p2| - 4] + ".svg";
    assert OptimizedPath(p1)[..|p1| - 4] == p1[..|p1| - 4];
    assert OptimizedPath(p2)[..|p2| - 4] == p2[..|p2| - 4];
  }

  /** When `.svg` appears only as the temporary file's suffix, the server's name is the intended one. */
  lemma AsWrittenAgreesWithoutInnerSvg(tmpPath: string)
    requires EndsWith(tmpPath, ".svg")
    requires NoOccurrenceBefore(tmpPath, ".svg", |tmpPath| - 4)
    ensures OptimizedPathAsWritten(tmpPath) == OptimizedPath(tmpPath)
  {
    var stem := tmpPath[..|tmpPath| - 4];
    assert stem + ".svg" == tmpPath;
    ReplaceAllOnlySuffix(stem, ".svg", "_optimized.svg");
  }

  /**
   * A temporary directory whose name ends in `.svg` is renamed too: for the
   * path `dir.svg` + `name.svg` (no other `.svg` inside) the server names
   * `dir_optimized.svg` + `name_optimized.svg`, which lies outside the
   * temporary file's directory.
   */
  lemma AsWrittenRenamesDirectory(dir: string, name: string)
    requires NoOccurrenceBefore(dir + ".svg" + (name + ".svg"), ".svg", |dir|)
    requires NoOccurrenceBefore(name + ".svg", ".svg", |name|)
    ensures OptimizedPathAsWritten(dir + ".svg" + (name + ".svg")) == dir + "_optimized.svg" + (name + "_optimized.svg")
    ensures OptimizedPath(dir + ".svg" + (name + ".svg")) == dir + ".svg" + (name + "_optimized.svg")
    ensures !StartsWith(OptimizedPathAsWritten(dir + ".svg" + (name + ".svg")), dir + ".svg")
  {
    var p := dir + ".svg" + (name + ".svg");
    ReplaceAllTwoOccurrences(dir, name, ".svg", "_optimized.svg");
    assert p[..|p| - 4] == dir + ".svg" + name;
    var q := OptimizedPathAsWritten(p);
    assert q[|dir|] == '_';
    assert (dir + ".svg")[|dir|] == '.';
  }

  /**
   * The temporary file `/x.svg/t.svg`, in a temporary directory `/x.svg`, is
   * `dir + ".svg" + (name + ".svg")` for `dir == "/x"` and `name == "/t"`
   * and meets the conditions of `AsWrittenRenamesDirectory`: the server asks
   * vpype for `/x_optimized.svg/t_optimized.svg`, where
   * `/x.svg/t_optimized.svg` was meant.
   */
  lemma NestedTemporaryDirectoryExample()
    ensures "/x.svg/t.svg" == "/x" + ".svg" + ("/t" + ".svg")
    ensures NoOccurrenceBefore("/x.svg/t.svg", ".svg", |"/x"|)
    ensures NoOccurrenceBefore("/t.svg", ".svg", |"/t"|)
    ensures OptimizedPath("/x.svg/t.svg") == "/x.svg/t_optimized.svg"
  {
    var p := "/x.svg/t.svg";
    forall i | 0 <= i < 2 && i <= |p| ensures !StartsWith(p[i..], ".svg") {
      assert p[i..][0] != '.';
    }
    var q := "/t.svg";
    forall i | 0 <= i < 2 && i <= |q| ensures !StartsWith(q[i..], ".svg") {
      assert q[i..][0] != '.';
    }
  }

  /** The files one conversion touches. */
  datatype FilePlan = FilePlan(
    vpypeOutput: Option<string>,  // written by `vpype ... write`
    readFrom: string,             // read by `read_multilayer_svg`
    removed: seq<string>)         // unlinked by the cleanup

  /**
   * With optimization on, vpype writes the optimized file, named by the
   * server's `replace`, and the SVG is read back from it; otherwise the
   * temporary file is read. The cleanup recomputes the same name, so every
   * file the conversion creates is removed, and the two names never coincide.
   */
  function PlanFiles(tmpPath: string, optimize: bool): (plan: FilePlan)
    requires EndsWith(tmpPath, ".svg")
    ensures plan.vpypeOutput.Some? <==> optimize
    ensures optimize ==> plan.vpypeOutput == Some(OptimizedPathAsWritten(tmpPath))
    ensures plan.readFrom == (if optimize then plan.vpypeOutput.value else tmpPath)
    ensures tmpPath in plan.removed
    ensures plan.vpypeOutput.Some? ==> plan.vpypeOutput.value in plan.removed && plan.vpypeOutput.value != tmpPath
    ensures forall f :: f in plan.removed ==> f == tmpPath || plan.vpypeOutput == Some(f)
  {
    if optimize then
      var optimized := OptimizedPathAsWritten(tmpPath);
      FilePlan(Some(optimized), optimized, [tmpPath, optimized])
    else
      FilePlan(None, tmpPath, [tmpPath])
  }

  /**
   * When `.svg` occurs in the temporary path only as its suffix, the plan
   * uses the intended optimized name.
   */
  lemma PlanFilesIntendedWithoutInnerSvg(tmpPath: string)
    requires EndsWith(tmpPath, ".svg")
    requires NoOccurrenceBefore(tmpPath, ".svg", |tmpPath| - 4)
    ensures PlanFiles(tmpPath, true).vpypeOutput == Some(OptimizedPath(tmpPath))
  {
    AsWrittenAgreesWithoutInnerSvg(tmpPath);
  }
}
