// The colour palette of release/Ramble.js: a linear colour range between
// two colours, gradients built from such ranges, and a list of colours a
// tile picks from.
module Palette {
  import opened Wrappers

  /** An RGB colour, one integer per channel. */
  datatype Color = Color(red: int, green: int, blue: int)

  /** `parseInt(a / b, 10)` for integers `a` and `b > 0`: the quotient
    * truncated toward zero. */
  function TruncDiv(a: int, b: int): (q: int)
    requires b > 0
    ensures a >= 0 ==> q == a / b
    ensures a < 0 ==> q == -((-a) / b)
  {
    if a >= 0 then a / b else -((-a) / b)
  }

  /** A product of two non-negative integers is non-negative. */
  lemma MulNonNegative(a: int, b: int)
    requires a >= 0 && b >= 0
    ensures a * b >= 0
  {
  }

  /** For `d >= 0`, `d*i` grows from 0 to `d*n` as `i` goes from 0 to `n`. */
  lemma MulBetween(d: int, i: int, n: int)
    requires d >= 0 && 0 <= i <= n
    ensures 0 <= d * i <= d * n
  {
    MulNonNegative(d, i);
    MulNonNegative(d, n - i);
    assert d * n - d * i == d * (n - i);
  }

  /** A quotient of something between 0 and `d*n` by `n` lies between 0
    * and `d`. */
  lemma DivBetween(a: int, d: int, n: int)
    requires n > 0 && 0 <= a <= d * n
    ensures 0 <= a / n <= d
  {
    var q := a / n;
    assert q * n + a % n == a;
    assert (q - d - 1) * n == q * n - d * n - n;
    if q > d {
      MulNonNegative(q - d - 1, n);
      assert false;
    }
  }

  /** Channel `i` of a range of `n` colours: `trunc(diff*i/n) + start`. */
  function Channel(start: int, end: int, i: int, n: int): (c: int)
    requires n > 0
  {
    TruncDiv((end - start) * i, n) + start
  }

  /** Every channel of the range lies between the start and the end value,
    * and the first one is the start value. */
  lemma {:induction false} ChannelBetween(start: int, end: int, i: int, n: int)
    requires 0 <= i < n
    ensures start <= end ==> start <= Channel(start, end, i, n) <= end
    ensures end <= start ==> end <= Channel(start, end, i, n) <= start
    ensures i == 0 ==> Channel(start, end, i, n) == start
  {
    var d := end - start;
    if d >= 0 {
      MulBetween(d, i, n);
      DivBetween(d * i, d, n);
    } else {
      MulBetween(-d, i, n);
      assert -(d * i) == (-d) * i;
      DivBetween((-d) * i, -d, n);
    }
  }

  /** Colour `i` of the range. */
  function RangeColor(startColor: Color, endColor: Color, i: int, n: int): Color
    requires n > 0
  {
    Color(Channel(startColor.red, endColor.red, i, n),
          Channel(startColor.green, endColor.green, i, n),
          Channel(startColor.blue, endColor.blue, i, n))
  }

  /** Each channel of `c` lies between the channels of `a` and `b`. */
  ghost predicate Between(a: Color, b: Color, c: Color)
  {
    && (a.red <= c.red <= b.red || b.red <= c.red <= a.red)
    && (a.green <= c.green <= b.green || b.green <= c.green <= a.green)
    && (a.blue <= c.blue <= b.blue || b.blue <= c.blue <= a.blue)
  }

  /** `_createColorRange(startColor, endColor, totalColors)`: the loop that
    * pushes one interpolated colour per index. There are exactly
    * `totalColors` of them (none when it is not positive), the first is
    * the start colour and every one lies between the two colours. */
  method CreateColorRange(startColor: Color, endColor: Color, totalColors: int) returns (colors: seq<Color>)
    ensures |colors| == if totalColors > 0 then totalColors else 0
    ensures forall i :: 0 <= i < |colors| ==> colors[i] == RangeColor(startColor, endColor, i, totalColors)
    ensures forall i :: 0 <= i < |colors| ==> Between(startColor, endColor, colors[i])
    ensures |colors| > 0 ==> colors[0] == startColor
  {
    colors := [];
    var i := 0;
    while i < totalColors
      invariant 0 <= i <= (if totalColors > 0 then totalColors else 0)
      invariant |colors| == i
      invariant forall k :: 0 <= k < i ==> colors[k] == RangeColor(startColor, endColor, k, totalColors)
      invariant forall k :: 0 <= k < i ==> Between(startColor, endColor, colors[k])
      invariant i > 0 ==> colors[0] == startColor
    {
      var c := RangeColor(startColor, endColor, i, totalColors);
      ChannelBetween(startColor.red, endColor.red, i, totalColors);
      ChannelBetween(startColor.green, endColor.green, i, totalColors);
      ChannelBetween(startColor.blue, endColor.blue, i, totalColors);
      colors := colors + [c];
      i := i + 1;
    }
  }

  /** A `ColorPalette`: its gradients and the colours tiles pick from. */
  class ColorPalette {
    var gradients: seq<seq<Color>>
    var colors: seq<Color>
    var totalColors: int

    constructor ()
      ensures gradients == [] && colors == []
    {
      gradients := [];
      colors := [];
      totalColors := 0;
    }

    /** `createGradient(options)`: `totalColors` defaults to 255 when it is
      * absent or 0; a positive count pushes a new range onto the gradients,
      * a negative one is an error and pushes nothing. */
    method CreateGradient(startColor: Color, endColor: Color, optTotal: Option<int>) returns (r: Result<()>)
      modifies this`gradients, this`totalColors
      ensures totalColors == (if optTotal.Some? && optTotal.value != 0 then optTotal.value else 255)
      ensures r.Ok? <==> totalColors > 0
      ensures r.Ok? ==> |gradients| == |old(gradients)| + 1 && gradients[..|old(gradients)|] == old(gradients)
      ensures r.Ok? ==> |gradients[|gradients| - 1]| == totalColors
      ensures r.Ok? ==> forall k :: 0 <= k < totalColors ==>
        gradients[|gradients| - 1][k] == RangeColor(startColor, endColor, k, totalColors)
      ensures r.Ok? ==> forall c :: c in gradients[|gradients| - 1] ==> Between(startColor, endColor, c)
      ensures r.Err? ==> gradients == old(gradients)
    {
      totalColors := if optTotal.Some? && optTotal.value != 0 then optTotal.value else 255;
      if totalColors > 0 {
        var range := CreateColorRange(startColor, endColor, totalColors);
        gradients := gradients + [range];
        r := Ok(());
      } else {
        r := Err("ColorPalette: total colors must be greater than zero.");
      }
    }

    /** `addColor(options)`: builds a 255-colour range and pushes the
      * colours at the given picks (the random choices, each an index into
      * the range) onto the colour list. */
    method AddColor(startColor: Color, endColor: Color, picks: seq<int>)
      requires forall k :: 0 <= k < |picks| ==> 0 <= picks[k] < 255
      modifies this`colors
      ensures |colors| == |old(colors)| + |picks|
      ensures colors[..|old(colors)|] == old(colors)
      ensures forall k :: 0 <= k < |picks| ==> colors[|old(colors)| + k] == RangeColor(startColor, endColor, picks[k], 255)
      ensures forall k :: |old(colors)| <= k < |colors| ==> Between(startColor, endColor, colors[k])
    {
      var range := CreateColorRange(startColor, endColor, 255);
      var i := 0;
      ghost var before := colors;
      while i < |picks|
        invariant 0 <= i <= |picks|
        invariant |colors| == |before| + i
        invariant colors[..|before|] == before
        invariant forall k :: 0 <= k < i ==> colors[|before| + k] == RangeColor(startColor, endColor, picks[k], 255)
        invariant forall k :: |before| <= k < |colors| ==> Between(startColor, endColor, colors[k])
      {
        colors := colors + [range[picks[i]]];
        i := i + 1;
      }
    }

    /** `getColor()`: the colour at the random pick, or an error when no
      * colour has been added. */
    method GetColor(pick: int) returns (r: Result<Color>)
      requires colors == [] || 0 <= pick < |colors|
      ensures r.Err? <==> colors == []
      ensures r.Ok? ==> r.value == colors[pick] && r.value in colors
    {
      if |colors| > 0 {
        r := Ok(colors[pick]);
      } else {
        r := Err("ColorPalette.getColor: You must add colors via addColor() before using getColor().");
      }
    }
  }
}
