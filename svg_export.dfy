/** The SVG exporter: every selected curve object becomes one <path> element
    whose d attribute lists, per spline, a move to the first Bezier point,
    the cubic segments between consecutive points and, for a cyclic spline,
    the closing segment back to the first point. Colours come from the
    diffuse colour of the object's first material. Writing the file is host
    work; the model produces the text that is written. Python's str() of a
    float is a parameter (fmt). */
module SvgExport {
  import opened Common

  // ---------------------------------------------------------------------
  // Colours

  /** fcol_to_icol: floor(f * 256) clamped to 0..255. */
  function FcolToIcol(f: real): (i: int)
    ensures 0 <= i <= 255
    ensures 0.0 <= f < 1.0 ==> i == (f * 256.0).Floor
    ensures f < 0.0 ==> i == 0
    ensures f >= 1.0 ==> i == 255
  {
    var v := (f * 256.0).Floor;
    if v > 255 then 255 else if v < 0 then 0 else v
  }

  /** A brighter channel never gets a smaller byte. */
  lemma FcolToIcolMonotone(f: real, g: real)
    requires f <= g
    ensures FcolToIcol(f) <= FcolToIcol(g)
  {
    assert f * 256.0 <= g * 256.0;
  }

  function HexDigit(d: nat): char
    requires d < 16
  {
    "0123456789ABCDEF"[d]
  }

  /** "%0.2X" % n for 0 <= n <= 255: two upper-case hex digits. */
  function Hex2(n: int): (s: string)
    requires 0 <= n <= 255
    ensures |s| == 2
  {
    [HexDigit(n / 16), HexDigit(n % 16)]
  }

  /** bcol_to_rgb: "#RRGGBB" from the first three channels. */
  function BcolToRgb(bcol: seq<real>): (s: string)
    requires |bcol| >= 3
    ensures |s| == 7 && s[0] == '#'
  {
    "#" + Hex2(FcolToIcol(bcol[0])) + Hex2(FcolToIcol(bcol[1])) + Hex2(FcolToIcol(bcol[2]))
  }

  /** Reading a colour back: the value of an upper-case hex digit. */
  function HexValue(c: char): int
  {
    if '0' <= c <= '9' then c as int - '0' as int
    else if 'A' <= c <= 'F' then c as int - 'A' as int + 10
    else -1
  }

  /** The byte written as the two hex digits at s[i], s[i + 1]. */
  function HexByteAt(s: string, i: nat): int
    requires i + 1 < |s|
  {
    16 * HexValue(s[i]) + HexValue(s[i + 1])
  }

  function ParseRgb(s: string): (int, int, int)
    requires |s| == 7
  {
    (HexByteAt(s, 1), HexByteAt(s, 3), HexByteAt(s, 5))
  }

  lemma HexDigitValue(d: nat)
    requires d < 16
    ensures HexValue(HexDigit(d)) == d
  {
    var digits := "0123456789ABCDEF";
    assert digits[d] == HexDigit(d);
    if d < 10 {
      assert digits[d] as int == '0' as int + d by {
        assert forall k :: 0 <= k < 10 ==> digits[k] as int == '0' as int + k;
      }
    } else {
      assert digits[d] as int == 'A' as int + d - 10 by {
        assert forall k :: 10 <= k < 16 ==> digits[k] as int == 'A' as int + k - 10;
      }
    }
  }

  lemma Hex2RoundTrip(n: int)
    requires 0 <= n <= 255
    ensures HexByteAt(Hex2(n), 0) == n
  {
    HexDigitValue(n / 16);
    HexDigitValue(n % 16);
  }

  /** The two digits of a byte, read back from wherever they sit. */
  lemma HexByteAtShift(s: string, i: nat, n: int)
    requires 0 <= n <= 255 && i + 1 < |s|
    requires s[i] == Hex2(n)[0] && s[i + 1] == Hex2(n)[1]
    ensures HexByteAt(s, i) == n
  {
    Hex2RoundTrip(n);
  }

  lemma RgbRoundTrip(r: int, g: int, b: int)
    requires 0 <= r <= 255 && 0 <= g <= 255 && 0 <= b <= 255
    ensures ParseRgb("#" + Hex2(r) + Hex2(g) + Hex2(b)) == (r, g, b)
  {
    var s := "#" + Hex2(r) + Hex2(g) + Hex2(b);
    HexByteAtShift(s, 1, r);
    HexByteAtShift(s, 3, g);
    HexByteAtShift(s, 5, b);
  }

  /** The colour string names exactly the three clamped channel bytes. */
  lemma BcolToRgbRoundTrip(bcol: seq<real>)
    requires |bcol| >= 3
    ensures ParseRgb(BcolToRgb(bcol)) == (FcolToIcol(bcol[0]), FcolToIcol(bcol[1]), FcolToIcol(bcol[2]))
  {
    RgbRoundTrip(FcolToIcol(bcol[0]), FcolToIcol(bcol[1]), FcolToIcol(bcol[2]));
  }

  // ---------------------------------------------------------------------
  // Path data

  datatype Point2 = Point2(x: real, y: real)

  datatype BezierPoint = BezierPoint(co: Point2, handleLeft: Point2, handleRight: Point2)

  datatype Spline = Spline(points: seq<BezierPoint>, cyclic: bool)

  /** One coordinate pair as written: str(x*scale) + "," + str(-y*scale).
      fmt(v, scale) stands for Python's str(v * scale). */
  function Coord(p: Point2, scale: int, fmt: (real, int) -> string): string
  {
    fmt(p.x, scale) + "," + fmt(-p.y, scale)
  }

  /** What the path data means: SVG path commands. */
  datatype PathCommand =
    | MoveTo(to: Point2)
    | CurveTo(c1: Point2, c2: Point2, to: Point2)
    | ClosePath

  /** A cubic segment from one point to the next leaves along the first
      point's right handle and arrives along the next point's left handle. */
  function Segment(from: BezierPoint, to: BezierPoint): PathCommand
  {
    CurveTo(from.handleRight, to.handleLeft, to.co)
  }

  /** The commands a spline stands for, the first n of them. */
  function CommandsUpTo(s: Spline, n: nat): seq<PathCommand>
    requires 1 <= n <= |s.points|
  {
    if n == 1 then [MoveTo(s.points[0].co)]
    else CommandsUpTo(s, n - 1) + [Segment(s.points[n - 2], s.points[n - 1])]
  }

  function Commands(s: Spline): seq<PathCommand>
    requires |s.points| >= 1
  {
    var n := |s.points|;
    CommandsUpTo(s, n) + (if s.cyclic then [Segment(s.points[n - 1], s.points[0]), ClosePath] else [])
  }

  /** The text a command is written as: "M p C ", three pairs each followed
      by a space, or "Z". */
  function CommandText(c: PathCommand, scale: int, fmt: (real, int) -> string): string
  {
    match c
    case MoveTo(p) => "M " + Coord(p, scale, fmt) + " C "
    case CurveTo(a, b, p) => Coord(a, scale, fmt) + " " + Coord(b, scale, fmt) + " " + Coord(p, scale, fmt) + " "
    case ClosePath => "Z"
  }

  /** The path text of a list of commands, written left to right. */
  function CommandsText(cs: seq<PathCommand>, scale: int, fmt: (real, int) -> string): string
  {
    if cs == [] then "" else CommandsText(cs[..|cs| - 1], scale, fmt) + CommandText(cs[|cs| - 1], scale, fmt)
  }

  lemma CommandsTextSnoc(cs: seq<PathCommand>, c: PathCommand, scale: int, fmt: (real, int) -> string)
    ensures CommandsText(cs + [c], scale, fmt) == CommandsText(cs, scale, fmt) + CommandText(c, scale, fmt)
  {
    assert (cs + [c])[..|cs + [c]| - 1] == cs;
  }

  lemma CommandsSplit(s: Spline)
    requires |s.points| >= 1
    ensures var n := |s.points|;
      Commands(s) == if s.cyclic then CommandsUpTo(s, n) + [Segment(s.points[n - 1], s.points[0])] + [ClosePath]
                     else CommandsUpTo(s, n)
  {
  }

  /** Appending the three pairs one after the other appends the segment. */
  lemma AppendSegment(line: string, a: string, b: string, c: string)
    ensures line + a + " " + b + " " + c + " " == line + (a + " " + b + " " + c + " ")
  {
  }

  /** The closing segment written without its last space, then " Z". */
  lemma AppendClose(line: string, a: string, b: string, c: string)
    ensures line + a + " " + b + " " + c + " Z" == line + (a + " " + b + " " + c + " ") + "Z"
  {
  }

  /** Whether the spline loop has bound the loop variable i: a spline with at
      least two points leaves it bound for every later spline. */
  function BindsI(s: Spline, iBound: bool): bool
  {
    iBound || |s.points| >= 2
  }

  /** The line one spline contributes: the commands' text and CR LF. A spline
      without points raises IndexError; a cyclic spline with one point reads
      the loop variable i, which is unbound (NameError) or left from an
      earlier spline, pointing past the single point (IndexError). */
  function SplineSpec(s: Spline, iBound: bool, scale: int, fmt: (real, int) -> string): Result<string>
  {
    if |s.points| == 0 then Err(IndexError)
    else if s.cyclic && |s.points| == 1 then Err(if iBound then IndexError else NameError)
    else Ok(CommandsText(Commands(s), scale, fmt) + "\r\n")
  }

  /** The line up to the cyclic part: the move to the first point and the
      segments of the inner `for i` loop. */
  method OpenPath(s: Spline, scale: int, fmt: (real, int) -> string) returns (line: string)
    requires |s.points| >= 1
    ensures line == CommandsText(CommandsUpTo(s, |s.points|), scale, fmt)
  {
    var pts := s.points;
    line := "M " + Coord(pts[0].co, scale, fmt) + " C ";
    assert line == CommandsText(CommandsUpTo(s, 1), scale, fmt) by {
      assert [MoveTo(pts[0].co)][..0] == [];
    }
    var i := 0;
    while i < |pts| - 1
      invariant 0 <= i <= |pts| - 1
      invariant line == CommandsText(CommandsUpTo(s, i + 1), scale, fmt)
    {
      line := WriteSegment(s, i, line, scale, fmt);
      i := i + 1;
    }
  }

  /** One pass of the inner loop: the handle pair of point i, then the
      handle and point of i + 1, each followed by a space. They are the text
      of the next segment. */
  method WriteSegment(s: Spline, i: nat, line: string, scale: int, fmt: (real, int) -> string) returns (line': string)
    requires i + 1 < |s.points|
    requires line == CommandsText(CommandsUpTo(s, i + 1), scale, fmt)
    ensures line' == CommandsText(CommandsUpTo(s, i + 2), scale, fmt)
  {
    var pts := s.points;
    var a, b, c := Coord(pts[i].handleRight, scale, fmt), Coord(pts[i + 1].handleLeft, scale, fmt), Coord(pts[i + 1].co, scale, fmt);
    AppendSegment(line, a, b, c);
    CommandsTextSnoc(CommandsUpTo(s, i + 1), Segment(pts[i], pts[i + 1]), scale, fmt);
    line' := line + a + " ";
    line' := line' + b + " ";
    line' := line' + c + " ";
  }

  /** The closing pairs and " Z" complete the text of a cyclic spline. */
  lemma CyclicText(s: Spline, line: string, scale: int, fmt: (real, int) -> string)
    requires |s.points| >= 2 && s.cyclic
    requires line == CommandsText(CommandsUpTo(s, |s.points|), scale, fmt)
    ensures var pts := s.points;
      line + Coord(pts[|pts| - 1].handleRight, scale, fmt) + " " + Coord(pts[0].handleLeft, scale, fmt) + " "
        + Coord(pts[0].co, scale, fmt) + " Z" == CommandsText(Commands(s), scale, fmt)
  {
    var pts := s.points;
    var cs := CommandsUpTo(s, |pts|);
    var seg := Segment(pts[|pts| - 1], pts[0]);
    var a, b, c := Coord(pts[|pts| - 1].handleRight, scale, fmt), Coord(pts[0].handleLeft, scale, fmt), Coord(pts[0].co, scale, fmt);
    calc {
      line + a + " " + b + " " + c + " Z";
    == { AppendClose(line, a, b, c); }
      line + (a + " " + b + " " + c + " ") + "Z";
    == { assert CommandText(seg, scale, fmt) == a + " " + b + " " + c + " "; }
      CommandsText(cs, scale, fmt) + CommandText(seg, scale, fmt) + CommandText(ClosePath, scale, fmt);
    == { CommandsTextSnoc(cs, seg, scale, fmt); }
      CommandsText(cs + [seg], scale, fmt) + CommandText(ClosePath, scale, fmt);
    == { CommandsTextSnoc(cs + [seg], ClosePath, scale, fmt); }
      CommandsText(cs + [seg] + [ClosePath], scale, fmt);
    == { CommandsSplit(s); }
      CommandsText(Commands(s), scale, fmt);
    }
  }

  /** The body of `for s in c.splines`, as the exporter builds `line`. */
  method SplineLine(s: Spline, iBound: bool, scale: int, fmt: (real, int) -> string) returns (r: Result<string>)
    ensures r == SplineSpec(s, iBound, scale, fmt)
  {
    var pts := s.points;
    if |pts| == 0 {
      return Err(IndexError);
    }
    var n := |pts|;
    var line := OpenPath(s, scale, fmt);
    if s.cyclic {
      if n == 1 {
        return Err(if iBound then IndexError else NameError);
      }
      CyclicText(s, line, scale, fmt);
      // n - 1 is the source's i + 1 after its loop
      line := line + Coord(pts[n - 1].handleRight, scale, fmt) + " ";
      line := line + Coord(pts[0].handleLeft, scale, fmt) + " ";
      line := line + Coord(pts[0].co, scale, fmt);
      line := line + " Z";
    } else {
      CommandsSplit(s);
    }
    line := line + "\r\n";
    r := Ok(line);
  }

  /** A spline's path starts with a move to its first point and has one cubic
      segment per pair of neighbouring points, plus one back to the start and
      a close when cyclic. */
  lemma {:induction false} CommandsUpToShape(s: Spline, n: nat)
    requires 1 <= n <= |s.points|
    ensures var cs := CommandsUpTo(s, n);
      && |cs| == n
      && cs[0] == MoveTo(s.points[0].co)
      && forall k :: 1 <= k < n ==> cs[k] == Segment(s.points[k - 1], s.points[k])
  {
    if n > 1 {
      CommandsUpToShape(s, n - 1);
    }
  }

  lemma CommandsShape(s: Spline)
    requires |s.points| >= 1
    ensures var cs := Commands(s);
      && |cs| == |s.points| + (if s.cyclic then 2 else 0)
      && cs[0] == MoveTo(s.points[0].co)
      && (forall k :: 1 <= k < |s.points| ==>
            cs[k] == CurveTo(s.points[k - 1].handleRight, s.points[k].handleLeft, s.points[k].co))
      && (s.cyclic ==> cs[|cs| - 2] == Segment(s.points[|s.points| - 1], s.points[0]) && cs[|cs| - 1] == ClosePath)
      && (!s.cyclic ==> ClosePath !in cs)
  {
    CommandsUpToShape(s, |s.points|);
    CommandsSplit(s);
    var cs := Commands(s);
    if !s.cyclic {
      forall k | 0 <= k < |cs|
        ensures cs[k] != ClosePath
      {
        if k > 0 {
          assert cs[k] == Segment(s.points[k - 1], s.points[k]);
        }
      }
    }
  }

  // ---------------------------------------------------------------------
  // The document

  /** A selected object: the name of its data block (None for an object
      without data, such as an Empty) and the material names in its slots. */
  datatype SvgObject = SvgObject(curveName: Option<string>, slotNames: seq<string>)

  /** The fill attribute: the first slot's material colour, "#000" without
      slots; a slot whose name is not a material raises KeyError. */
  function Fill(o: SvgObject, materials: map<string, seq<real>>): Result<string>
  {
    if |o.slotNames| == 0 then Ok("#000")
    else if o.slotNames[0] !in materials then Err(KeyError)
    else if |materials[o.slotNames[0]]| < 3 then Err(IndexError)
    else Ok(BcolToRgb(materials[o.slotNames[0]]))
  }

  function PathOpen(curve: string, fill: string): string
  {
    "<path id=\"" + curve + "\" fill=\"" + fill + "\" stroke=\"none\" d=\"" 
  }

  /** Text written before r's text, or r's error. */
  function Prepend(out: string, r: Result<string>): Result<string>
  {
    match r
    case Ok(v) => Ok(out + v)
    case Err(e) => Err(e)
  }

  /** The lines the splines of one curve contribute, in order. */
  function SplinesText(splines: seq<Spline>, iBound: bool, scale: int, fmt: (real, int) -> string): Result<string>
  {
    if splines == [] then Ok("")
    else
      var line :- SplineSpec(splines[0], iBound, scale, fmt);
      Prepend(line, SplinesText(splines[1..], BindsI(splines[0], iBound), scale, fmt))
  }

  /** Whether i is bound once the splines have been written. */
  function BoundAfter(splines: seq<Spline>, iBound: bool): bool
  {
    if splines == [] then iBound else BoundAfter(splines[1..], BindsI(splines[0], iBound))
  }

  /** The path element of one object: data name, fill, curve lookup,
      spline lines. */
  function ObjectText(o: SvgObject, iBound: bool, materials: map<string, seq<real>>,
                      curves: map<string, seq<Spline>>, scale: int, fmt: (real, int) -> string): Result<string>
  {
    if o.curveName.None? then Err(AttributeError)
    else
      var curve := o.curveName.value;
      var fill :- Fill(o, materials);
      if curve !in curves then Err(KeyError)
      else
        var lines :- SplinesText(curves[curve], iBound, scale, fmt);
        Ok(PathOpen(curve, fill) + lines + "\"/>")
  }

  function ObjectBound(o: SvgObject, iBound: bool, curves: map<string, seq<Spline>>): bool
  {
    if o.curveName.Some? && o.curveName.value in curves then BoundAfter(curves[o.curveName.value], iBound) else iBound
  }

  /** What the exporter writes from the remaining objects on. */
  function ObjectsSpec(objs: seq<SvgObject>, iBound: bool, materials: map<string, seq<real>>,
                       curves: map<string, seq<Spline>>, scale: int, fmt: (real, int) -> string): Result<string>
  {
    if objs == [] then Ok("")
    else
      var t :- ObjectText(objs[0], iBound, materials, curves, scale, fmt);
      Prepend(t, ObjectsSpec(objs[1..], ObjectBound(objs[0], iBound, curves), materials, curves, scale, fmt))
  }

  /** The text written to the output file (no closing tag is written). */
  function DocumentSpec(objs: seq<SvgObject>, materials: map<string, seq<real>>,
                        curves: map<string, seq<Spline>>, scale: int, fmt: (real, int) -> string): Result<string>
  {
    Prepend("<svg>", ObjectsSpec(objs, false, materials, curves, scale, fmt))
  }

  lemma PrependEmpty(r: Result<string>)
    ensures Prepend("", r) == r
  {
    if r.Ok? {
      assert "" + r.value == r.value;
    }
  }

  lemma PrependPrepend(a: string, b: string, r: Result<string>)
    ensures Prepend(a, Prepend(b, r)) == Prepend(a + b, r)
  {
    if r.Ok? {
      assert a + (b + r.value) == (a + b) + r.value;
    }
  }

  lemma SplinesTextStep(splines: seq<Spline>, k: nat, iBound: bool, scale: int, fmt: (real, int) -> string)
    requires k < |splines|
    ensures SplineSpec(splines[k], iBound, scale, fmt).Err? ==>
      SplinesText(splines[k..], iBound, scale, fmt) == Err(SplineSpec(splines[k], iBound, scale, fmt).error)
    ensures SplineSpec(splines[k], iBound, scale, fmt).Ok? ==>
      SplinesText(splines[k..], iBound, scale, fmt) ==
        Prepend(SplineSpec(splines[k], iBound, scale, fmt).value, SplinesText(splines[k + 1..], BindsI(splines[k], iBound), scale, fmt))
    ensures BoundAfter(splines[k..], iBound) == BoundAfter(splines[k + 1..], BindsI(splines[k], iBound))
  {
    assert splines[k..][0] == splines[k] && splines[k..][1..] == splines[k + 1..];
  }

  /** `for s in c.splines`: the lines of one curve's splines, and whether i
      is bound afterwards. */
  method CurveLines(splines: seq<Spline>, iBound: bool, scale: int, fmt: (real, int) -> string)
    returns (r: Result<string>, bound: bool)
    ensures r == SplinesText(splines, iBound, scale, fmt)
    ensures r.Ok? ==> bound == BoundAfter(splines, iBound)
  {
    var out := "";
    bound := iBound;
    var k := 0;
    assert splines[k..] == splines;
    PrependEmpty(SplinesText(splines, iBound, scale, fmt));
    while k < |splines|
      invariant 0 <= k <= |splines|
      invariant SplinesText(splines, iBound, scale, fmt) == Prepend(out, SplinesText(splines[k..], bound, scale, fmt))
      invariant BoundAfter(splines, iBound) == BoundAfter(splines[k..], bound)
    {
      var s := splines[k];
      SplinesTextStep(splines, k, bound, scale, fmt);
      var line := SplineLine(s, bound, scale, fmt);
      if line.Err? {
        return Err(line.error), bound;
      }
      PrependPrepend(out, line.value, SplinesText(splines[k + 1..], BindsI(s, bound), scale, fmt));
      out := out + line.value;
      bound := BindsI(s, bound);
      k := k + 1;
    }
    assert splines[k..] == [];
    assert out + "" == out;
    r := Ok(out);
  }

  /** KTXSVGOUT_OT_ExportToSVG.execute: the text written, or the exception
      that stops the export. */
  method Export(objs: seq<SvgObject>, materials: map<string, seq<real>>,
                curves: map<string, seq<Spline>>, scale: int, fmt: (real, int) -> string) returns (r: Result<string>)
    ensures r == DocumentSpec(objs, materials, curves, scale, fmt)
  {
    var out := "<svg>";
    var iBound := false;
    var j := 0;
    while j < |objs|
      invariant 0 <= j <= |objs|
      invariant DocumentSpec(objs, materials, curves, scale, fmt) ==
        Prepend(out, ObjectsSpec(objs[j..], iBound, materials, curves, scale, fmt))
    {
      ObjectsSpecStep(objs, j, iBound, materials, curves, scale, fmt);
      var t, bound := ObjectPath(objs[j], iBound, materials, curves, scale, fmt);
      if t.Err? {
        return Err(t.error);
      }
      PrependPrepend(out, t.value, ObjectsSpec(objs[j + 1..], bound, materials, curves, scale, fmt));
      out := out + t.value;
      iBound := bound;
      j := j + 1;
    }
    assert objs[j..] == [];
    assert out + "" == out;
    r := Ok(out);
  }

  lemma ObjectsSpecStep(objs: seq<SvgObject>, j: nat, iBound: bool, materials: map<string, seq<real>>,
                        curves: map<string, seq<Spline>>, scale: int, fmt: (real, int) -> string)
    requires j < |objs|
    ensures var t := ObjectText(objs[j], iBound, materials, curves, scale, fmt);
      ObjectsSpec(objs[j..], iBound, materials, curves, scale, fmt) ==
        if t.Err? then Err(t.error)
        else Prepend(t.value, ObjectsSpec(objs[j + 1..], ObjectBound(objs[j], iBound, curves), materials, curves, scale, fmt))
  {
    assert objs[j..][0] == objs[j] && objs[j..][1..] == objs[j + 1..];
  }

  /** The body of `for c in selected`: the path element of one object and
      whether i is bound after its splines. */
  method ObjectPath(o: SvgObject, iBound: bool, materials: map<string, seq<real>>,
                    curves: map<string, seq<Spline>>, scale: int, fmt: (real, int) -> string)
    returns (t: Result<string>, bound: bool)
    ensures t == ObjectText(o, iBound, materials, curves, scale, fmt)
    ensures t.Ok? ==> bound == ObjectBound(o, iBound, curves)
  {
    if o.curveName.None? {
      return Err(AttributeError), iBound;
    }
    var curve := o.curveName.value;
    var fill := Fill(o, materials);
    if fill.Err? {
      return Err(fill.error), iBound;
    }
    if curve !in curves {
      return Err(KeyError), iBound;
    }
    var lines;
    lines, bound := CurveLines(curves[curve], iBound, scale, fmt);
    if lines.Err? {
      return Err(lines.error), bound;
    }
    t := Ok(PathOpen(curve, fill.value) + lines.value + "\"/>");
  }

  /** The failures of one object, in the order the loop body meets them: an
      object without data (AttributeError), then the fill lookup, then a data
      name that is not a curve (KeyError). A written element opens with the
      curve's name as its id. */
  lemma ObjectFailures(o: SvgObject, iBound: bool, materials: map<string, seq<real>>,
                       curves: map<string, seq<Spline>>, scale: int, fmt: (real, int) -> string)
    ensures o.curveName.None? ==> ObjectText(o, iBound, materials, curves, scale, fmt) == Err(AttributeError)
    ensures o.curveName.Some? && Fill(o, materials).Err? ==>
      ObjectText(o, iBound, materials, curves, scale, fmt) == Err(Fill(o, materials).error)
    ensures o.curveName.Some? && Fill(o, materials).Ok? && o.curveName.value !in curves ==>
      ObjectText(o, iBound, materials, curves, scale, fmt) == Err(KeyError)
    ensures ObjectText(o, iBound, materials, curves, scale, fmt).Ok? ==>
      o.curveName.Some? && o.curveName.value in curves &&
      StartsWith(ObjectText(o, iBound, materials, curves, scale, fmt).value, "<path id=\"" + o.curveName.value + "\"")
  {
    var t := ObjectText(o, iBound, materials, curves, scale, fmt);
    if t.Ok? {
      var head := "<path id=\"" + o.curveName.value + "\"";
      assert t.value[..|head|] == head;
    }
  }

  /** The document opens with <svg>. */
  lemma DocumentStartsWithSvg(objs: seq<SvgObject>, materials: map<string, seq<real>>,
                              curves: map<string, seq<Spline>>, scale: int, fmt: (real, int) -> string)
    requires DocumentSpec(objs, materials, curves, scale, fmt).Ok?
    ensures StartsWith(DocumentSpec(objs, materials, curves, scale, fmt).value, "<svg>")
  {
    var d := DocumentSpec(objs, materials, curves, scale, fmt).value;
    assert d[..5] == "<svg>";
  }

  /** A cyclic spline with a single point never exports. */
  lemma SinglePointCyclicFails(p: BezierPoint, iBound: bool, scale: int, fmt: (real, int) -> string)
    ensures SplineSpec(Spline([p], true), iBound, scale, fmt).Err?
  {
  }
}
