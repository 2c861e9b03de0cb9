/**
 * The reduction data adapter: turns the server's parallel x[] / y[] coordinate
 * arrays into one interleaved buffer plus a bounding box.
 */
module ReductionData {

  /** The largest finite 32-bit float, the start value of a running minimum. */
  const F32Max: real := 340282346638528859811704183484516925440.0
  /** The most negative finite 32-bit float, the start value of a running maximum. */
  const F32Min: real := -F32Max

  /** A value that fits in a finite 32-bit float. */
  predicate IsFinite(v: real) {
    F32Min <= v <= F32Max
  }

  predicate AllFinite(s: seq<real>) {
    forall i :: 0 <= i < |s| ==> IsFinite(s[i])
  }

  /** Coordinates of a reduction, interleaved as x0, y0, x1, y1, ... with their bounds. */
  datatype ReductionViewData = ReductionViewData(
    numPoint: nat,
    data: seq<real>,
    maxX: real,
    maxY: real,
    minX: real,
    minY: real)
  {
    /** The buffer holds exactly one (x, y) pair per point. */
    predicate WellFormed() {
      |data| == 2 * numPoint
    }

    function PointX(i: nat): real
      requires WellFormed() && i < numPoint
    {
      data[2 * i]
    }

    function PointY(i: nat): real
      requires WellFormed() && i < numPoint
    {
      data[2 * i + 1]
    }
  }

  function Min(a: real, b: real): real {
    if b < a then b else a
  }

  function Max(a: real, b: real): real {
    if b > a then b else a
  }

  /** Running minimum of `s` in visiting order, starting from the sentinel F32Max. */
  function MinFrom(s: seq<real>): real {
    if s == [] then F32Max else Min(MinFrom(s[..|s| - 1]), s[|s| - 1])
  }

  /** Running maximum of `s` in visiting order, starting from the sentinel F32Min. */
  function MaxFrom(s: seq<real>): real {
    if s == [] then F32Min else Max(MaxFrom(s[..|s| - 1]), s[|s| - 1])
  }

  /** The running minimum is a lower bound of every element and never exceeds its sentinel. */
  lemma {:induction false} MinFromIsLowerBound(s: seq<real>)
    ensures MinFrom(s) <= F32Max
    ensures forall i :: 0 <= i < |s| ==> MinFrom(s) <= s[i]
  {
    if s != [] {
      MinFromIsLowerBound(s[..|s| - 1]);
      assert forall i :: 0 <= i < |s| - 1 ==> s[..|s| - 1][i] == s[i];
    }
  }

  /** The running maximum is an upper bound of every element and never falls below its sentinel. */
  lemma {:induction false} MaxFromIsUpperBound(s: seq<real>)
    ensures MaxFrom(s) >= F32Min
    ensures forall i :: 0 <= i < |s| ==> s[i] <= MaxFrom(s)
  {
    if s != [] {
      MaxFromIsUpperBound(s[..|s| - 1]);
      assert forall i :: 0 <= i < |s| - 1 ==> s[..|s| - 1][i] == s[i];
    }
  }

  /** On finite, non-empty input the running minimum is one of the inputs. */
  lemma {:induction false} MinFromAttained(s: seq<real>) returns (k: nat)
    requires |s| > 0 && AllFinite(s)
    ensures k < |s| && MinFrom(s) == s[k]
  {
    var last := |s| - 1;
    if last == 0 {
      k := 0;
    } else {
      var prefix := s[..last];
      assert AllFinite(prefix) by {
        forall i | 0 <= i < |prefix| ensures IsFinite(prefix[i]) { assert prefix[i] == s[i]; }
      }
      var j := MinFromAttained(prefix);
      k := if s[last] < MinFrom(prefix) then last else j;
    }
  }

  /** On finite, non-empty input the running maximum is one of the inputs. */
  lemma {:induction false} MaxFromAttained(s: seq<real>) returns (k: nat)
    requires |s| > 0 && AllFinite(s)
    ensures k < |s| && MaxFrom(s) == s[k]
  {
    var last := |s| - 1;
    if last == 0 {
      k := 0;
    } else {
      var prefix := s[..last];
      assert AllFinite(prefix) by {
        forall i | 0 <= i < |prefix| ensures IsFinite(prefix[i]) { assert prefix[i] == s[i]; }
      }
      var j := MaxFromAttained(prefix);
      k := if s[last] > MaxFrom(prefix) then last else j;
    }
  }

  /**
   * The adapter. Two passes compute the bounds, two more fill the even and the
   * odd slots of a buffer of 2 * |x| values.
   */
  method ConvertFromResponse(x: seq<real>, y: seq<real>) returns (r: ReductionViewData)
    requires |y| == |x|
    ensures r.WellFormed() && r.numPoint == |x|
    ensures forall i :: 0 <= i < |x| ==> r.PointX(i) == x[i] && r.PointY(i) == y[i]
    ensures r.minX == MinFrom(x) && r.maxX == MaxFrom(x)
    ensures r.minY == MinFrom(y) && r.maxY == MaxFrom(y)
    ensures forall i :: 0 <= i < |x| ==> r.minX <= x[i] <= r.maxX && r.minY <= y[i] <= r.maxY
    ensures |x| == 0 ==> r.minX == r.minY == F32Max && r.maxX == r.maxY == F32Min && r.minX > r.maxX
  {
    var numPoint := |x|;

    var maxX, maxY, minX, minY := F32Min, F32Min, F32Max, F32Max;
    for i := 0 to |x|
      invariant maxX == MaxFrom(x[..i]) && minX == MinFrom(x[..i])
    {
      assert x[..i + 1][..i] == x[..i];
      maxX := Max(maxX, x[i]);
      minX := Min(minX, x[i]);
    }
    assert x[..|x|] == x;
    for i := 0 to |y|
      invariant maxY == MaxFrom(y[..i]) && minY == MinFrom(y[..i])
    {
      assert y[..i + 1][..i] == y[..i];
      maxY := Max(maxY, y[i]);
      minY := Min(minY, y[i]);
    }
    assert y[..|y|] == y;

    var data := new real[numPoint * 2];
    for i := 0 to |x|
      invariant forall j :: 0 <= j < i ==> data[2 * j] == x[j]
    {
      data[i * 2] := x[i];
    }
    for i := 0 to |y|
      invariant forall j :: 0 <= j < numPoint ==> data[2 * j] == x[j]
      invariant forall j :: 0 <= j < i ==> data[2 * j + 1] == y[j]
    {
      data[i * 2 + 1] := y[i];
    }

    r := ReductionViewData(numPoint, data[..], maxX, maxY, minX, minY);
    MinFromIsLowerBound(x);
    MaxFromIsUpperBound(x);
    MinFromIsLowerBound(y);
    MaxFromIsUpperBound(y);
  }

  /** Three points x = [1, 2, 3], y = [4, 5, 6]: interleaved buffer and exact bounds. */
  method ThreePointConversion() returns (r: ReductionViewData)
    ensures r.numPoint == 3 && r.data == [1.0, 4.0, 2.0, 5.0, 3.0, 6.0]
    ensures r.minX == 1.0 && r.maxX == 3.0 && r.minY == 4.0 && r.maxY == 6.0
  {
    r := ConvertFromResponse([1.0, 2.0, 3.0], [4.0, 5.0, 6.0]);
    assert r.PointX(0) == 1.0 && r.PointY(0) == 4.0 && r.PointX(1) == 2.0;
    assert r.PointY(1) == 5.0 && r.PointX(2) == 3.0 && r.PointY(2) == 6.0;
    assert [1.0, 2.0, 3.0][..2] == [1.0, 2.0] && [1.0, 2.0][..1] == [1.0] && [1.0][..0] == [];
    assert [4.0, 5.0, 6.0][..2] == [4.0, 5.0] && [4.0, 5.0][..1] == [4.0] && [4.0][..0] == [];
  }
}
