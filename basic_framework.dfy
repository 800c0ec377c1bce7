/**
 * The bounded-buffer append and the value/pixel mappings of the curve widget
 * (class BasicFramework). Floating-point coordinates are modelled as `real`.
 */
module BasicFramework {
  import opened Numeric

  /**
   * What AddArrayData leaves in the array: the source's three branches for a
   * non-empty batch (array already full, batch overflows, batch fits).
   */
  function Appended<T>(a: seq<T>, d: seq<T>, max: int): (r: seq<T>)
    requires |d| <= max
    ensures |d| == 0 ==> r == a
  {
    if |d| == 0 then a
    else if |a| == max then a[|d|..] + d
    else if |a| + |d| > max then a[|a| - max + |d|..] + d
    else a + d
  }

  /** Reference definition: the newest `n` elements of `s`. */
  function Newest<T>(s: seq<T>, n: nat): (r: seq<T>)
    ensures |r| == Min(|s|, n)
    ensures forall i :: 0 <= i < |r| ==> r[i] == s[|s| - |r| + i]
  {
    if |s| <= n then s else s[|s| - n..]
  }

  /**
   * A non-empty batch keeps exactly the newest `max` elements of the old
   * contents followed by the batch; so does an empty batch when the array
   * is not over-long. The batch always ends the result.
   */
  lemma AppendedIsNewest<T>(a: seq<T>, d: seq<T>, max: int)
    requires |d| <= max
    requires |d| > 0 || |a| <= max
    ensures Appended(a, d, max) == Newest(a + d, max)
    ensures |Appended(a, d, max)| == Min(|a| + |d|, max)
    ensures Appended(a, d, max)[|Appended(a, d, max)| - |d|..] == d
  {
    var r := Appended(a, d, max);
    var s := a + d;
    if |d| == 0 {
      assert s == a;
    } else if |a| + |d| > max {
      var k := |a| - max + |d|;
      assert r == a[k..] + d;
      assert s[|s| - max..] == a[k..] + d;
    }
  }

  /** With room for the whole batch nothing is dropped. */
  lemma AppendedFits<T>(a: seq<T>, d: seq<T>, max: int)
    requires |d| <= max && |a| + |d| <= max && |a| != max
    ensures Appended(a, d, max) == a + d
  {
  }

  /** A full array of length max shifts out as many old elements as the batch brings. */
  lemma AppendedFull<T>(a: seq<T>, d: seq<T>, max: int)
    requires |d| <= max && |a| == max && |d| > 0
    ensures |Appended(a, d, max)| == max
    ensures Appended(a, d, max) == a[|d|..] + d
  {
  }

  /** Sliding behaviour on a capacity-4 array: [1,2,3,4] then 5 then 6 gives [3,4,5,6]. */
  lemma AppendedSlides()
    ensures Appended(Appended([1, 2, 3, 4], [5], 4), [6], 4) == [3, 4, 5, 6]
  {
    assert Appended([1, 2, 3, 4], [5], 4) == [2, 3, 4, 5];
  }

  /**
   * AddArrayData(ref array, data, max). The reference parameter is modelled
   * by returning the array the caller's variable refers to afterwards: the
   * same array, shifted in place, when it was full; a fresh one otherwise.
   * A batch longer than max makes the source throw (Array.Copy or an index
   * out of range); every caller passes a batch of one element.
   */
  method AddArrayData<T(0)>(a: array<T>, data: array?<T>, max: int) returns (r: array<T>)
    requires data != null ==> data.Length <= max
    modifies a
    ensures data == null ==> r == a && a[..] == old(a[..])
    ensures data != null ==> r[..] == Appended(old(a[..]), old(data[..]), max)
    ensures data != null && (data.Length == 0 || a.Length == max) ==> r == a
    ensures data != null && data.Length != 0 && a.Length != max ==>
              fresh(r) && a[..] == old(a[..])
  {
    if data == null { return a; }
    if data.Length == 0 { return a; }
    var d := data[..];
    if a.Length == max {
      ShiftIn(a, d);
      r := a;
    } else if a.Length + data.Length > max {
      r := CopyNewest(a, d, max);
    } else {
      r := CopyNewest(a, d, a.Length + data.Length);
    }
  }

  /** The full-array branch: Array.Copy shifts the old entries left, then the batch fills the tail. */
  method ShiftIn<T>(a: array<T>, d: seq<T>)
    requires |d| <= a.Length
    modifies a
    ensures a[..] == old(a[..])[|d|..] + d
  {
    ghost var A := a[..];
    var n, k := a.Length, |d|;
    var i := 0;
    while i < n - k
      invariant 0 <= i <= n - k
      invariant forall j :: 0 <= j < i ==> a[j] == A[j + k]
      invariant forall j :: i <= j < n ==> a[j] == A[j]
    {
      a[i] := a[i + k];
      i := i + 1;
    }
    i := 0;
    while i < k
      invariant 0 <= i <= k
      invariant forall j :: 0 <= j < n - k ==> a[j] == A[j + k]
      invariant forall j :: n - k <= j < n - k + i ==> a[j] == d[j - (n - k)]
    {
      a[n - k + i] := d[i];
      i := i + 1;
    }
    assert a[..] == A[k..] + d by {
      forall j | 0 <= j < n ensures a[..][j] == (A[k..] + d)[j] {
        if j < n - k {
          assert a[j] == A[j + k];
        } else {
          assert a[j] == d[j - (n - k)];
        }
      }
    }
  }

  /**
   * The two copying branches: a fresh array of `len` slots holding the last
   * len - |d| old entries, then the batch (len is max on overflow and the
   * combined length when the batch fits).
   */
  method CopyNewest<T(0)>(a: array<T>, d: seq<T>, len: int) returns (tmp: array<T>)
    requires |d| <= len <= a.Length + |d|
    ensures fresh(tmp)
    ensures tmp[..] == a[..][a.Length - len + |d|..] + d
  {
    var k := |d|;
    var off := a.Length - len + k;
    tmp := new T[len];
    for i := 0 to len - k
      invariant forall j :: 0 <= j < i ==> tmp[j] == a[j + off]
    {
      tmp[i] := a[i + off];
    }
    for i := 0 to k
      invariant forall j :: 0 <= j < len - k ==> tmp[j] == a[j + off]
      invariant forall j :: len - k <= j < len - k + i ==> tmp[j] == d[j - (len - k)]
    {
      tmp[tmp.Length - k + i] := d[i];
    }
    assert tmp[..] == a[..][off..] + d by {
      forall j | 0 <= j < len ensures tmp[..][j] == (a[..][off..] + d)[j] {
        if j < len - k {
          assert tmp[j] == a[j + off];
        } else {
          assert tmp[j] == d[j - (len - k)];
        }
      }
    }
  }

  /**
   * ComputePaintLocationY(float max, float min, int height, float value):
   * the pixel offset, from the top of an extent of `height` pixels, at which
   * `value` of the range [min, max] is drawn.
   */
  function ComputePaintLocationY(max: real, min: real, height: int, value: real): (y: real)
    requires max != min
    ensures value == min ==> y == height as real
    ensures value == max ==> y == 0.0
  {
    var t := (value - min) / (max - min);
    assert value == max ==> t == 1.0 by {
      if value == max { DivSelf(max - min); }
    }
    height as real - t * height as real
  }

  /** The integer overload agrees with the floating-point one on the converted arguments. */
  function ComputePaintLocationYInt(max: int, min: int, height: int, value: int): (y: real)
    requires max != min
    ensures y == ComputePaintLocationY(max as real, min as real, height, value as real)
  {
    height as real - (value - min) as real * 1.0 / (max - min) as real * height as real
  }

  /**
   * ComputeRealValueFromLoaction(max, min, height, pos): the value of the
   * range [min, max] at pixel `pos` of an extent of `height` pixels, counted
   * from the end where min lies. The source's int pixel is widened to real.
   */
  function ComputeRealValueFromLocation(max: real, min: real, height: int, pos: real): (v: real)
    requires height != 0
    ensures pos == 0.0 ==> v == min
    ensures pos == height as real ==> v == max
  {
    max - ((height as real * 1.0 - pos * 1.0) / (height as real * 1.0)) * (max - min)
  }

  /** The value read back at the mirrored paint offset is the painted value. */
  lemma PaintLocationRoundTrip(max: real, min: real, height: int, value: real)
    requires max != min && height != 0
    ensures ComputeRealValueFromLocation(max, min, height,
              height as real - ComputePaintLocationY(max, min, height, value)) == value
  {
    var h := height as real;
    var t := (value - min) / (max - min);
    assert t * (max - min) == value - min;
    var p := h - ComputePaintLocationY(max, min, height, value);
    assert p == t * h;
    assert h - p == (1.0 - t) * h;
    DivCancel(1.0 - t, h);
  }

  /** Feeding the paint offset back unmirrored reflects the value about the mid-range. */
  lemma PaintLocationReflection(max: real, min: real, height: int, value: real)
    requires max != min && height != 0
    ensures ComputeRealValueFromLocation(max, min, height,
              ComputePaintLocationY(max, min, height, value)) == max + min - value
  {
    var h := height as real;
    var t := (value - min) / (max - min);
    assert t * (max - min) == value - min;
    var p := ComputePaintLocationY(max, min, height, value);
    assert p == h - t * h;
    assert (h - p) / h == t;
  }

  /** The converse round trip: painting the value read at `pos` lands on the mirrored pixel. */
  lemma LocationPaintRoundTrip(max: real, min: real, height: int, pos: real)
    requires max != min && height != 0
    ensures ComputePaintLocationY(max, min, height,
              ComputeRealValueFromLocation(max, min, height, pos)) == height as real - pos
  {
    var h := height as real;
    var s := (h - pos) / h;
    assert s * h == h - pos;
    var v := ComputeRealValueFromLocation(max, min, height, pos);
    assert v - min == (1.0 - s) * (max - min);
    DivCancel(1.0 - s, max - min);
    assert h - (1.0 - s) * h == s * h;
  }
}
