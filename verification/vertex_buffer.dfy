/**
 * The render buffer: six floats per point (position x, y, z = 0, colour r, g, b),
 * built from the reduction and then coloured by one attribute column.
 */
module VertexBuffer {
  import opened Wrappers
  import opened AppState
  import opened ReductionData
  import opened HexColor

  /** One metadata column: per-point category codes, dense values, or (index, value) pairs. */
  datatype ColumnData =
    | Categorical(codes: seq<nat>, categories: seq<string>)
    | Numeric(values: seq<real>)
    | SparseNumeric(indices: seq<nat>, values: seq<real>)

  /** What the reduction is coloured by, with the column's loading state. */
  datatype ColoringWithData =
    | NoColoring
    | ByMeta(name: string, column: AsyncData<ColumnData>)

  const Black := Color3(0.0, 0.0, 0.0)

  /** The column that is applied: only a loaded column colours anything. */
  function ActiveColumn(coloring: ColoringWithData): Option<ColumnData> {
    if coloring.ByMeta? && coloring.column.Loaded? then Some(coloring.column.value) else None
  }

  /** Position slots (0, 1, 2) of vertex `i`. */
  function PositionAt(buf: seq<real>, i: nat): (real, real, real)
    requires 6 * i + 6 <= |buf|
  {
    (buf[6 * i], buf[6 * i + 1], buf[6 * i + 2])
  }

  /** Colour slots (3, 4, 5) of vertex `i`. */
  function ColorAt(buf: seq<real>, i: nat): Color3
    requires 6 * i + 6 <= |buf|
  {
    Color3(buf[6 * i + 3], buf[6 * i + 4], buf[6 * i + 5])
  }

  /** `buf` with the colour slots of vertex `k` overwritten by `c`. */
  function WithColor(buf: seq<real>, k: nat, c: Color3): (r: seq<real>)
    requires 6 * k + 6 <= |buf|
    ensures |r| == |buf| && ColorAt(r, k) == c
    ensures forall i: nat :: 6 * i + 6 <= |buf| && i != k ==> ColorAt(r, i) == ColorAt(buf, i)
    ensures forall i: nat :: 6 * i + 6 <= |buf| ==> PositionAt(r, i) == PositionAt(buf, i)
  {
    buf[6 * k + 3 := c.r][6 * k + 4 := c.g][6 * k + 5 := c.b]
  }

  /** The last position at which `x` occurs in `s`. */
  function LastIndex(s: seq<nat>, x: nat): (k: nat)
    requires x in s
    ensures k < |s| && s[k] == x
    ensures forall j :: k < j < |s| ==> s[j] != x
  {
    if s[|s| - 1] == x then |s| - 1 else LastIndex(s[..|s| - 1], x)
  }

  /** The number of (index, value) pairs a zip of the two lists visits. */
  function PairCount(indices: seq<nat>, values: seq<real>): nat {
    if |indices| <= |values| then |indices| else |values|
  }

  /**
   * What colouring demands of its inputs: dense columns no longer than the
   * point count, sparse indices below it, a non-empty palette for categories,
   * and a positive normaliser for numbers.
   */
  predicate ColumnFits(column: Option<ColumnData>, n: nat, palette: seq<Color3>, maxVal: real) {
    match column
    case None => true
    case Some(Categorical(codes, _)) => |codes| <= n && |palette| > 0
    case Some(Numeric(values)) => |values| <= n && maxVal > 0.0
    case Some(SparseNumeric(indices, values)) =>
      maxVal > 0.0 && forall j :: 0 <= j < PairCount(indices, values) ==> indices[j] < n
  }

  /**
   * The reference colour of point `i`: the palette entry of its category code
   * (wrapping around the palette), its value over `maxVal` in the red channel,
   * the value of the last pair that names it, or black.
   */
  function ExpectedColor(column: Option<ColumnData>, n: nat, palette: seq<Color3>, maxVal: real, i: nat): Color3
    requires ColumnFits(column, n, palette, maxVal)
  {
    match column
    case None => Black
    case Some(Categorical(codes, _)) =>
      if i < |codes| then palette[codes[i] % |palette|] else Black
    case Some(Numeric(values)) =>
      if i < |values| then Color3(values[i] / maxVal, 0.0, 0.0) else Black
    case Some(SparseNumeric(indices, values)) =>
      var listed := indices[..PairCount(indices, values)];
      if i in listed then Color3(values[LastIndex(listed, i)] / maxVal, 0.0, 0.0) else Black
  }

  /** `buf` holds every point's position and its reference colour, and nothing else. */
  ghost predicate IsVertexBuffer(buf: seq<real>, d: ReductionViewData, column: Option<ColumnData>,
                                 palette: seq<Color3>, maxVal: real)
    requires d.WellFormed() && ColumnFits(column, d.numPoint, palette, maxVal)
  {
    && |buf| == 6 * d.numPoint
    && forall i :: 0 <= i < d.numPoint ==>
         PositionAt(buf, i) == (d.PointX(i), d.PointY(i), 0.0)
         && ColorAt(buf, i) == ExpectedColor(column, d.numPoint, palette, maxVal, i)
  }

  /** The buffer is fully determined: every slot is a position or a colour slot of some point. */
  lemma VertexBufferIsUnique(a: seq<real>, b: seq<real>, d: ReductionViewData, column: Option<ColumnData>,
                             palette: seq<Color3>, maxVal: real)
    requires d.WellFormed() && ColumnFits(column, d.numPoint, palette, maxVal)
    requires IsVertexBuffer(a, d, column, palette, maxVal) && IsVertexBuffer(b, d, column, palette, maxVal)
    ensures a == b
  {
    forall j | 0 <= j < |a| ensures a[j] == b[j] {
      var i := j / 6;
      assert PositionAt(a, i) == PositionAt(b, i) && ColorAt(a, i) == ColorAt(b, i);
    }
  }

  /** Dense values between 0 and the normaliser give a red channel in 0..1. */
  lemma NumericRedInUnitRange(values: seq<real>, n: nat, palette: seq<Color3>, maxVal: real, i: nat)
    requires |values| <= n && maxVal > 0.0 && i < |values|
    requires 0.0 <= values[i] <= maxVal
    ensures var c := ExpectedColor(Some(Numeric(values)), n, palette, maxVal, i);
            0.0 <= c.r <= 1.0 && c.g == 0.0 && c.b == 0.0
  {
  }

  /** A sparse column leaves every unlisted point black. */
  lemma SparseUnlistedStaysBlack(indices: seq<nat>, values: seq<real>, n: nat, palette: seq<Color3>,
                                 maxVal: real, i: nat)
    requires ColumnFits(Some(SparseNumeric(indices, values)), n, palette, maxVal)
    requires forall j :: 0 <= j < PairCount(indices, values) ==> indices[j] != i
    ensures ExpectedColor(Some(SparseNumeric(indices, values)), n, palette, maxVal, i) == Black
  {
  }

  /** Codes [0, 1, 2] on a two-colour palette wrap to [p0, p1, p0]; values [0, 5, 10] over 10 give reds 0, 0.5, 1. */
  lemma EncoderExamples(categories: seq<string>, p0: Color3, p1: Color3)
    ensures var cat := Some(Categorical([0, 1, 2], categories));
            ExpectedColor(cat, 3, [p0, p1], 1.0, 0) == p0 && ExpectedColor(cat, 3, [p0, p1], 1.0, 1) == p1
            && ExpectedColor(cat, 3, [p0, p1], 1.0, 2) == p0
    ensures var num := Some(Numeric([0.0, 5.0, 10.0]));
            ExpectedColor(num, 3, [], 10.0, 0).r == 0.0 && ExpectedColor(num, 3, [], 10.0, 1).r == 0.5
            && ExpectedColor(num, 3, [], 10.0, 2).r == 1.0
  {
  }

  /** Overwrites the three colour slots of vertex `k`. */
  method SetColor(v: array<real>, k: nat, c: Color3)
    requires 6 * k + 6 <= v.Length
    modifies v
    ensures v[..] == WithColor(old(v[..]), k, c)
  {
    var base := 6 * k;
    v[base + 3], v[base + 4], v[base + 5] := c.r, c.g, c.b;
  }

  /** Pushes six floats per point: its position, z = 0, and a black colour. */
  method InitVertices(d: ReductionViewData) returns (v: array<real>)
    requires d.WellFormed()
    ensures fresh(v) && v.Length == 6 * d.numPoint
    ensures forall i :: 0 <= i < d.numPoint ==>
      PositionAt(v[..], i) == (d.PointX(i), d.PointY(i), 0.0) && ColorAt(v[..], i) == Black
  {
    var vertices: seq<real> := [];
    for i := 0 to d.numPoint
      invariant |vertices| == 6 * i
      invariant forall j :: 0 <= j < i ==>
        PositionAt(vertices, j) == (d.PointX(j), d.PointY(j), 0.0) && ColorAt(vertices, j) == Black
    {
      var inputBase := i * 2;
      vertices := vertices + [d.data[inputBase], d.data[inputBase + 1], 0.0, 0.0, 0.0, 0.0];
    }
    v := new real[|vertices|](j requires 0 <= j < |vertices| => vertices[j]);
    assert v[..] == vertices;
  }

  /** Categorical colouring: point i takes palette[code[i] mod |palette|]. */
  method PaintCategorical(v: array<real>, n: nat, codes: seq<nat>, palette: seq<Color3>)
    requires v.Length == 6 * n && |codes| <= n && |palette| > 0
    modifies v
    ensures forall i :: 0 <= i < n ==> PositionAt(v[..], i) == PositionAt(old(v[..]), i)
    ensures forall i :: 0 <= i < n ==>
      ColorAt(v[..], i) == if i < |codes| then palette[codes[i] % |palette|] else ColorAt(old(v[..]), i)
  {
    for i := 0 to |codes|
      invariant forall j :: 0 <= j < n ==> PositionAt(v[..], j) == PositionAt(old(v[..]), j)
      invariant forall j :: 0 <= j < n ==>
        ColorAt(v[..], j) == if j < i then palette[codes[j] % |palette|] else ColorAt(old(v[..]), j)
    {
      var col := palette[codes[i] % |palette|];
      SetColor(v, i, col);
    }
  }

  /** Dense numeric colouring: point i gets red = value[i] / maxVal, green = blue = 0. */
  method PaintNumeric(v: array<real>, n: nat, values: seq<real>, maxVal: real)
    requires v.Length == 6 * n && |values| <= n && maxVal > 0.0
    modifies v
    ensures forall i :: 0 <= i < n ==> PositionAt(v[..], i) == PositionAt(old(v[..]), i)
    ensures forall i :: 0 <= i < n ==>
      ColorAt(v[..], i) == if i < |values| then Color3(values[i] / maxVal, 0.0, 0.0) else ColorAt(old(v[..]), i)
  {
    for i := 0 to |values|
      invariant forall j :: 0 <= j < n ==> PositionAt(v[..], j) == PositionAt(old(v[..]), j)
      invariant forall j :: 0 <= j < n ==>
        ColorAt(v[..], j) == if j < i then Color3(values[j] / maxVal, 0.0, 0.0) else ColorAt(old(v[..]), j)
    {
      SetColor(v, i, Color3(values[i] / maxVal, 0.0, 0.0));
    }
  }

  /**
   * Sparse numeric colouring: only the listed points are written, pair by pair,
   * so a point listed twice keeps the value of its last pair.
   */
  method PaintSparse(v: array<real>, n: nat, indices: seq<nat>, values: seq<real>, maxVal: real)
    requires v.Length == 6 * n && maxVal > 0.0
    requires forall j :: 0 <= j < PairCount(indices, values) ==> indices[j] < n
    modifies v
    ensures forall i :: 0 <= i < n ==> PositionAt(v[..], i) == PositionAt(old(v[..]), i)
    ensures var listed := indices[..PairCount(indices, values)];
            forall i :: 0 <= i < n ==>
              ColorAt(v[..], i) == if i in listed then Color3(values[LastIndex(listed, i)] / maxVal, 0.0, 0.0)
                                   else ColorAt(old(v[..]), i)
  {
    var m := PairCount(indices, values);
    for k := 0 to m
      invariant forall j :: 0 <= j < n ==> PositionAt(v[..], j) == PositionAt(old(v[..]), j)
      invariant forall j :: 0 <= j < n ==>
        ColorAt(v[..], j) == if j in indices[..k] then Color3(values[LastIndex(indices[..k], j)] / maxVal, 0.0, 0.0)
                             else ColorAt(old(v[..]), j)
    {
      var i := indices[k];
      assert indices[..k + 1] == indices[..k] + [i];
      assert LastIndex(indices[..k + 1], i) == k;
      forall j | 0 <= j < n && j != i && j in indices[..k + 1]
        ensures j in indices[..k] && LastIndex(indices[..k + 1], j) == LastIndex(indices[..k], j)
      {
        LastIndexOfExtension(indices[..k], i, j);
      }
      SetColor(v, i, Color3(values[k] / maxVal, 0.0, 0.0));
    }
  }

  /** Appending an element other than `x` does not move the last occurrence of `x`. */
  lemma LastIndexOfExtension(s: seq<nat>, y: nat, x: nat)
    requires x != y && x in s + [y]
    ensures x in s && LastIndex(s + [y], x) == LastIndex(s, x)
  {
  }

  /**
   * The buffer-building part of rendering: position and black colour for every
   * point, then the colour slots overwritten according to the active column.
   */
  method BuildVertexBuffer(d: ReductionViewData, coloring: ColoringWithData, palette: seq<Color3>, maxVal: real)
    returns (buf: seq<real>)
    requires d.WellFormed() && ColumnFits(ActiveColumn(coloring), d.numPoint, palette, maxVal)
    ensures IsVertexBuffer(buf, d, ActiveColumn(coloring), palette, maxVal)
  {
    var v := InitVertices(d);
    var n := d.numPoint;
    match ActiveColumn(coloring) {
      case None =>
      case Some(Categorical(codes, _)) =>
        PaintCategorical(v, n, codes, palette);
      case Some(Numeric(values)) =>
        PaintNumeric(v, n, values, maxVal);
      case Some(SparseNumeric(indices, values)) =>
        PaintSparse(v, n, indices, values, maxVal);
    }
    buf := v[..];
  }
}
