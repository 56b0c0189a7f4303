/** The space image format: a stream of decimal digits cut into layers of
    `w * h` pixels, a checksum over the layer with the fewest zeros, and the
    picture seen through the stack of layers, where 0 is black, 1 is white
    and every other value lets the layers beneath show through. */
module SpaceImage {
  import opened Common
  import opened Text

  /** `char::to_digit(10)`: the value of an ASCII decimal digit. */
  function ToDigit(c: char): (d: Option<nat>)
    ensures d.Some? <==> '0' <= c <= '9'
    ensures d.Some? ==> d.value <= 9 && d.value == c as int - '0' as int
  {
    if '0' <= c <= '9' then Some(c as int - '0' as int) else None
  }

  /** Every character is a decimal digit. */
  predicate AllDigits(s: string)
  {
    forall i :: 0 <= i < |s| ==> ToDigit(s[i]).Some?
  }

  /** The values of a string of digits. */
  function Digits(s: string): (pixels: seq<nat>)
    requires AllDigits(s)
    ensures |pixels| == |s|
  {
    seq(|s|, i requires 0 <= i < |s| && AllDigits(s) => ToDigit(s[i]).value)
  }

  /** The position of the first character that is not a digit. */
  function FirstNonDigit(s: string): (i: nat)
    requires !AllDigits(s)
    ensures i < |s| && ToDigit(s[i]).None? && AllDigits(s[..i])
  {
    if ToDigit(s[0]).None? then 0
    else
      var j := FirstNonDigit(s[1..]);
      assert s[..j + 1] == [s[0]] + s[1..][..j];
      1 + j
  }

  /** The complete layers of `n` pixels each, in order; a trailing
      incomplete layer is dropped. */
  function Layers(pixels: seq<nat>, n: nat): seq<seq<nat>>
    requires n > 0
    decreases |pixels|
  {
    if |pixels| < n then [] else [pixels[..n]] + Layers(pixels[n..], n)
  }

  /** Layer `k` holds pixels `k * n` up to `(k + 1) * n`, and the pixels
      left over after the last layer are fewer than a layer. */
  lemma {:induction false} LayersAreChunks(pixels: seq<nat>, n: nat)
    requires n > 0
    ensures var ls := Layers(pixels, n);
      |ls| * n <= |pixels| < |ls| * n + n
    ensures forall k :: 0 <= k < |Layers(pixels, n)| ==>
      k * n + n <= |pixels| && Layers(pixels, n)[k] == pixels[k * n..k * n + n]
    decreases |pixels|
  {
    if |pixels| >= n {
      var rest := pixels[n..];
      LayersAreChunks(rest, n);
      var ls := Layers(pixels, n);
      assert |ls| * n == |Layers(rest, n)| * n + n;
      forall k | 1 <= k < |ls|
        ensures k * n + n <= |pixels| && ls[k] == pixels[k * n..k * n + n]
      {
        assert ls[k] == Layers(rest, n)[k - 1];
        ShiftedChunk(pixels, n, k - 1);
      }
    }
  }

  /** Chunk `j` of what follows the first layer is chunk `j + 1` of the
      whole. */
  lemma ShiftedChunk(pixels: seq<nat>, n: nat, j: nat)
    requires n <= |pixels| && j * n + n <= |pixels| - n
    ensures (j + 1) * n + n <= |pixels|
    ensures pixels[n..][j * n..j * n + n] == pixels[(j + 1) * n..(j + 1) * n + n]
  {
    assert (j + 1) * n == j * n + n;
  }

  /** After `fill`, the number of layers is the number of digits divided by
      the layer size, rounded down. */
  lemma LayerCount(pixels: seq<nat>, n: nat)
    requires n > 0
    ensures |Layers(pixels, n)| == |pixels| / n
  {
    LayersAreChunks(pixels, n);
    var q := |Layers(pixels, n)|;
    QuotientOfBounds(|pixels|, n, q);
  }

  /** A dividend between `q * n` and `q * n + n` has quotient `q`. */
  lemma QuotientOfBounds(a: nat, n: nat, q: nat)
    requires n > 0 && q * n <= a < q * n + n
    ensures a / n == q
  {
    var r := a / n;
    assert a == r * n + a % n;
    if r < q {
      MulMono(r + 1, q, n);
      assert false;
    } else if r > q {
      MulMono(q + 1, r, n);
      assert false;
    }
  }

  /** Multiplying by `n` keeps the order. */
  lemma MulMono(x: nat, y: nat, n: nat)
    requires x <= y
    ensures x * n <= y * n
  {
  }

  /** `a` pixels make a whole number of layers of `n` pixels. */
  predicate OnBoundary(a: nat, n: nat)
    requires n > 0
    decreases a
  {
    a == 0 || (a >= n && OnBoundary(a - n, n))
  }

  /** Layers of pixels that start on a layer boundary follow the layers
      before them. */
  lemma {:induction false} LayersAppend(a: seq<nat>, b: seq<nat>, n: nat)
    requires n > 0 && OnBoundary(|a|, n)
    ensures Layers(a + b, n) == Layers(a, n) + Layers(b, n)
    decreases |a|
  {
    if a == [] {
      assert a + b == b;
    } else {
      assert (a + b)[..n] == a[..n];
      assert (a + b)[n..] == a[n..] + b;
      LayersAppend(a[n..], b, n);
    }
  }

  /** A complete layer's worth of pixels is one more layer; fewer pixels
      than that are none. */
  lemma LayersOfOne(c: seq<nat>, n: nat)
    requires n > 0 && |c| <= n
    ensures Layers(c, n) == if |c| == n then [c] else []
  {
    if |c| == n {
      assert c[..n] == c;
      assert Layers(c[n..], n) == [];
    }
  }

  /** The digits of a prefix are a prefix of the digits. */
  lemma PrefixOfDigits(s: string, i: nat)
    requires AllDigits(s) && i <= |s|
    ensures AllDigits(s[..i]) && Digits(s) == Digits(s[..i]) + Digits(s)[i..]
  {
    assert forall k :: 0 <= k < i ==> s[..i][k] == s[k];
  }

  /** Reading one more digit adds its value at the end. */
  lemma DigitsSnoc(s: string, i: nat)
    requires i < |s| && AllDigits(s[..i]) && ToDigit(s[i]).Some?
    ensures AllDigits(s[..i + 1])
    ensures Digits(s[..i + 1]) == Digits(s[..i]) + [ToDigit(s[i]).value]
  {
    assert s[..i + 1][..i] == s[..i];
  }

  /** A character that is not a digit after a run of digits is the first
      one. */
  lemma {:induction false} FirstNonDigitIs(s: string, i: nat)
    requires i < |s| && AllDigits(s[..i]) && ToDigit(s[i]).None?
    ensures !AllDigits(s) && FirstNonDigit(s) == i
  {
    if i > 0 {
      assert s[..i][0] == s[0];
      assert s[1..][..i - 1] == s[..i][1..];
      assert s[1..][i - 1] == s[i];
      FirstNonDigitIs(s[1..], i - 1);
    }
  }

  /** Pixels past the last layer boundary, fewer than a layer, add no
      layer. */
  lemma DropIncomplete(pixels: seq<nat>, start: nat, n: nat)
    requires n > 0 && OnBoundary(start, n) && start <= |pixels| < start + n
    ensures Layers(pixels, n) == Layers(pixels[..start], n)
  {
    assert pixels == pixels[..start] + pixels[start..];
    LayersAppend(pixels[..start], pixels[start..], n);
    LayersOfOne(pixels[start..], n);
    assert Layers(pixels[..start], n) + [] == Layers(pixels[..start], n);
  }

  /** The text running out part-way through a layer leaves the layers read
      before it. */
  lemma TextEnds(t: string, start: nat, n: nat)
    requires n > 0 && OnBoundary(start, n) && start <= |t| < start + n && AllDigits(t)
    ensures AllDigits(t[..start]) && Layers(Digits(t), n) == Layers(Digits(t[..start]), n)
  {
    PrefixOfDigits(t, start);
    DropIncomplete(Digits(t), start, n);
  }

  /** A character that is not a digit part-way through a layer is the first
      one, and leaves the layers read before it. */
  lemma NonDigitStops(t: string, pos: nat, start: nat, n: nat)
    requires n > 0 && OnBoundary(start, n) && start <= pos < start + n && pos < |t|
    requires AllDigits(t[..pos]) && ToDigit(t[pos]).None?
    ensures !AllDigits(t) && FirstNonDigit(t) == pos
    ensures AllDigits(t[..start]) && Layers(Digits(t[..pos]), n) == Layers(Digits(t[..start]), n)
  {
    FirstNonDigitIs(t, pos);
    PrefixOfDigits(t[..pos], start);
    assert t[..pos][..start] == t[..start];
    DropIncomplete(Digits(t[..pos]), start, n);
  }

  /** A layer's worth of digits read after `m` complete layers is layer
      `m`. */
  lemma LayerDone(t: string, start: nat, n: nat, layer: seq<nat>)
    requires n > 0 && OnBoundary(start, n) && start + n <= |t| && AllDigits(t[..start + n])
    requires layer == Digits(t[..start + n])[start..]
    ensures AllDigits(t[..start])
    ensures Layers(Digits(t[..start + n]), n) == Layers(Digits(t[..start]), n) + [layer]
  {
    var s := t[..start + n];
    PrefixOfDigits(s, start);
    assert s[..start] == t[..start];
    LayersAppend(Digits(t[..start]), layer, n);
    LayersOfOne(layer, n);
  }

  /** The number of pixels of value `v`. */
  function Count(layer: seq<nat>, v: nat): (c: nat)
    ensures c <= |layer|
  {
    if layer == [] then 0
    else Count(layer[..|layer| - 1], v) + (if layer[|layer| - 1] == v then 1 else 0)
  }

  /** The count is the multiplicity of `v` among the pixels. */
  lemma {:induction false} CountIsMultiplicity(layer: seq<nat>, v: nat)
    ensures Count(layer, v) == multiset(layer)[v]
  {
    if layer != [] {
      var init := layer[..|layer| - 1];
      assert layer == init + [layer[|layer| - 1]];
      CountIsMultiplicity(init, v);
    }
  }

  /** Layer `i` has the fewest 0 pixels, and every layer before it has
      more. */
  ghost predicate IsFewestZeros(layers: seq<seq<nat>>, i: nat)
    requires i < |layers|
  {
    && (forall k :: 0 <= k < |layers| ==> Count(layers[i], 0) <= Count(layers[k], 0))
    && (forall k :: 0 <= k < i ==> Count(layers[k], 0) > Count(layers[i], 0))
  }

  /** `min_by_key` over the layers, keyed by their number of 0 pixels: a
      later layer replaces the one kept only with strictly fewer. */
  function FewestZeros(layers: seq<seq<nat>>): (i: nat)
    requires layers != []
    ensures i < |layers|
  {
    if |layers| == 1 then 0
    else
      var j := FewestZeros(layers[..|layers| - 1]);
      if Count(layers[|layers| - 1], 0) < Count(layers[j], 0) then |layers| - 1 else j
  }

  /** The layer kept is the first with the fewest 0 pixels. */
  lemma {:induction false} FewestZerosIsFirstMinimum(layers: seq<seq<nat>>)
    requires layers != []
    ensures IsFewestZeros(layers, FewestZeros(layers))
  {
    if |layers| > 1 {
      var init := layers[..|layers| - 1];
      FewestZerosIsFirstMinimum(init);
      assert forall k :: 0 <= k < |init| ==> init[k] == layers[k];
    }
  }

  /** Only one layer is the first with the fewest 0 pixels. */
  lemma FewestZerosUnique(layers: seq<seq<nat>>, i: nat, j: nat)
    requires i < |layers| && j < |layers| && IsFewestZeros(layers, i) && IsFewestZeros(layers, j)
    ensures i == j
  {
    assert Count(layers[i], 0) == Count(layers[j], 0);
  }

  /** The colour a stack of layers shows at pixel `p`: that of the first
      layer, from the top, holding 0 (black, '.') or 1 (white, 'W'); any
      other value is see-through, and a position no layer covers shows
      nothing. */
  function Composite(layers: seq<seq<nat>>, p: nat): Option<char>
    requires forall k :: 0 <= k < |layers| ==> p < |layers[k]|
  {
    if layers == [] then None
    else if layers[0][p] == 0 then Some('.')
    else if layers[0][p] == 1 then Some('W')
    else Composite(layers[1..], p)
  }

  /** The composite is that of the first layer holding 0 or 1, and there is
      one exactly when some layer holds 0 or 1 there. */
  lemma {:induction false} CompositeIsFirstOpaque(layers: seq<seq<nat>>, p: nat)
    requires forall k :: 0 <= k < |layers| ==> p < |layers[k]|
    ensures Composite(layers, p).Some? <==> exists k :: 0 <= k < |layers| && layers[k][p] <= 1
    ensures forall k :: 0 <= k < |layers| && layers[k][p] <= 1 && (forall j :: 0 <= j < k ==> layers[j][p] > 1) ==>
      Composite(layers, p) == Some(if layers[k][p] == 0 then '.' else 'W')
  {
    if layers != [] && layers[0][p] > 1 {
      CompositeIsFirstOpaque(layers[1..], p);
      if exists k :: 0 <= k < |layers| && layers[k][p] <= 1 {
        var k :| 0 <= k < |layers| && layers[k][p] <= 1;
        assert layers[1..][k - 1][p] <= 1;
      }
      forall k | 0 < k < |layers| && layers[k][p] <= 1 && (forall j :: 0 <= j < k ==> layers[j][p] > 1)
        ensures Composite(layers, p) == Some(if layers[k][p] == 0 then '.' else 'W')
      {
        assert layers[1..][k - 1] == layers[k];
        assert forall j :: 0 <= j < k - 1 ==> layers[1..][j][p] > 1 by {
          forall j | 0 <= j < k - 1 ensures layers[1..][j][p] > 1 {
            assert layers[1..][j] == layers[j + 1];
          }
        }
      }
    }
  }

  /** Every layer covers row `y` of an image `w` pixels wide. */
  predicate RowFits(layers: seq<seq<nat>>, w: nat, y: nat)
  {
    forall k :: 0 <= k < |layers| ==> (y + 1) * w <= |layers[k]|
  }

  /** The colour shown at column `x` of row `y`. */
  function ColourAt(layers: seq<seq<nat>>, w: nat, y: nat, x: nat): Option<char>
    requires x < w && RowFits(layers, w, y)
  {
    assert (y + 1) * w == y * w + w;
    Composite(layers, y * w + x)
  }

  /** The characters of the first `x` pixels of row `y`; a position without
      a colour adds no character. */
  function RowPrefix(layers: seq<seq<nat>>, w: nat, y: nat, x: nat): string
    requires x <= w && RowFits(layers, w, y)
  {
    if x == 0 then []
    else
      var c := ColourAt(layers, w, y, x - 1);
      RowPrefix(layers, w, y, x - 1) + (if c.Some? then [c.value] else [])
  }

  /** Row `y` of the picture. */
  function Row(layers: seq<seq<nat>>, w: nat, y: nat): string
    requires RowFits(layers, w, y)
  {
    RowPrefix(layers, w, y, w)
  }

  /** A row has at most one character per pixel, and exactly one per pixel
      when every pixel of the row has a colour; then character `x` is the
      colour of pixel `x`. */
  lemma {:induction false} RowPrefixLength(layers: seq<seq<nat>>, w: nat, y: nat, x: nat)
    requires x <= w && RowFits(layers, w, y)
    ensures |RowPrefix(layers, w, y, x)| <= x
    ensures |RowPrefix(layers, w, y, x)| == x <==> forall i :: 0 <= i < x ==> ColourAt(layers, w, y, i).Some?
    ensures (forall i :: 0 <= i < x ==> ColourAt(layers, w, y, i).Some?) ==>
      forall i :: 0 <= i < x ==> RowPrefix(layers, w, y, x)[i] == ColourAt(layers, w, y, i).value
  {
    if x > 0 {
      RowPrefixLength(layers, w, y, x - 1);
    }
  }

  /** A row above the bottom ends inside the image. */
  lemma RowInImage(w: nat, h: nat, y: nat)
    requires y < h
    ensures (y + 1) * w == y * w + w <= w * h
  {
    MulMono(y + 1, h, w);
  }

  /** The position within a layer of the first pixel of row `y`, counted
      row by row. */
  function RowStart(y: nat, w: nat): (p: nat)
  {
    if y == 0 then 0 else RowStart(y - 1, w) + w
  }

  /** Rows up to `y` end no later than rows up to `h`, and `h` rows are the
      whole layer. */
  lemma {:induction false} RowStartBounds(w: nat, h: nat, y: nat)
    requires y <= h
    ensures RowStart(y, w) <= RowStart(h, w) && RowStart(h, w) == w * h
    decreases h
  {
    if h > 0 {
      if y < h {
        RowStartBounds(w, h - 1, y);
      } else {
        RowStartBounds(w, h - 1, h - 1);
      }
      assert w * h == w * (h - 1) + w;
    }
  }

  /** The `Image` struct: its width and height, and the layers read so far. */
  class Image {
    var w: nat
    var h: nat
    var layers: seq<seq<nat>>

    /** Every layer holds exactly `w * h` pixels. */
    ghost predicate Valid()
      reads this
    {
      forall k :: 0 <= k < |layers| ==> |layers[k]| == w * h
    }

    /** `Image::new`: an image with no layers. */
    constructor (w: nat, h: nat)
      ensures this.w == w && this.h == h && layers == []
      ensures Valid()
    {
      this.w, this.h, layers := w, h, [];
    }

    /** `fill`: read the trimmed text one digit per pixel, `w` pixels per
        row and `h` rows per layer, appending each layer once it is
        complete; the text running out ends the reading and drops the
        incomplete layer, and a character that is not a digit panics. */
    method Fill(content: string) returns (r: Result<(), Fault>)
      requires w * h > 0
      modifies this
      ensures w == old(w) && h == old(h)
      ensures old(Valid()) ==> Valid()
      ensures r.Failure? <==> !AllDigits(Trim(content))
      ensures r.Success? ==> layers == old(layers) + Layers(Digits(Trim(content)), w * h)
      ensures r.Failure? ==> var t := Trim(content);
        layers == old(layers) + Layers(Digits(t[..FirstNonDigit(t)]), w * h)
    {
      var t := Trim(content);
      var n := w * h;
      var pos := 0;
      while true
        invariant pos <= |t| && OnBoundary(pos, n) && AllDigits(t[..pos])
        invariant w == old(w) && h == old(h)
        invariant layers == old(layers) + Layers(Digits(t[..pos]), n)
        invariant old(Valid()) ==> Valid()
        decreases |t| - pos
      {
        var layer, stop := ReadLayer(t, pos);
        if stop == Some(Success(())) {
          TextEnds(t, pos, n);
          assert t[..|t|] == t;
          return Success(());
        } else if stop.Some? {
          NonDigitStops(t, FirstNonDigit(t), pos, n);
          return Failure(NotADigit);
        }
        LayerDone(t, pos, n, layer);
        layers := layers + [layer];
        pos := pos + n;
      }
    }

    /** One pass of the row and column loops of `fill`: the next layer's
        digits, read from position `start`. `stop` is `Some(Success(()))`
        when the text runs out first and `Some(Failure(NotADigit))` when a
        character that is not a digit comes first; either stops the
        reading inside the layer. */
    method ReadLayer(t: string, start: nat) returns (layer: seq<nat>, stop: Option<Result<(), Fault>>)
      requires w * h > 0 && start <= |t| && AllDigits(t[..start])
      ensures stop.None? ==> start + w * h <= |t| && AllDigits(t[..start + w * h]) &&
                             layer == Digits(t[..start + w * h])[start..]
      ensures stop == Some(Success(())) ==> |t| < start + w * h && AllDigits(t)
      ensures stop.Some? && stop != Some(Success(())) ==>
        stop == Some(Failure(NotADigit)) && !AllDigits(t) && start <= FirstNonDigit(t) < start + w * h
    {
      var pos := start;
      layer := [];
      RowStartBounds(w, h, h);
      for y := 0 to h
        invariant start <= pos == start + RowStart(y, w) <= start + RowStart(h, w)
        invariant pos <= |t| && AllDigits(t[..pos])
        invariant layer == Digits(t[..pos])[start..]
      {
        RowStartBounds(w, h, y + 1);
        for x := 0 to w
          invariant start <= pos == start + RowStart(y, w) + x <= |t|
          invariant AllDigits(t[..pos])
          invariant layer == Digits(t[..pos])[start..]
        {
          if pos == |t| {
            assert t[..pos] == t;
            return layer, Some(Success(()));
          }
          var d := ToDigit(t[pos]);
          if d.None? {
            FirstNonDigitIs(t, pos);
            return layer, Some(Failure(NotADigit));
          }
          DigitsSnoc(t, pos);
          layer := layer + [d.value];
          pos := pos + 1;
        }
      }
      return layer, None;
    }

    /** `checksum`: the number of 1 pixels times the number of 2 pixels in
        the layer with the fewest 0 pixels (the first such layer on a tie);
        an image with no layers panics. */
    function Checksum(): (r: Result<nat, Fault>)
      reads this
      ensures r.Failure? <==> layers == []
      ensures r.Success? ==> exists i :: 0 <= i < |layers| && IsFewestZeros(layers, i) &&
                                         r.value == Count(layers[i], 1) * Count(layers[i], 2)
    {
      if layers == [] then Failure(MissingValue)
      else
        var i := FewestZeros(layers);
        FewestZerosIsFirstMinimum(layers);
        Success(Count(layers[i], 1) * Count(layers[i], 2))
    }

    /** `render`: row by row and pixel by pixel, the colour of the first
        layer holding 0 or 1 there. */
    method Render() returns (rows: seq<string>)
      requires Valid()
      ensures |rows| == h
      ensures forall y :: 0 <= y < h ==> RowFits(layers, w, y) && rows[y] == Row(layers, w, y)
    {
      rows := [];
      for y := 0 to h
        invariant |rows| == y
        invariant forall i :: 0 <= i < y ==> RowFits(layers, w, i) && rows[i] == Row(layers, w, i)
      {
        assert RowFits(layers, w, y) by {
          RowInImage(w, h, y);
        }
        var row := "";
        for x := 0 to w
          invariant row == RowPrefix(layers, w, y, x)
        {
          var p := y * w + x;
          var k := 0;
          while k < |layers|
            invariant k <= |layers|
            invariant row == RowPrefix(layers, w, y, x)
            invariant Composite(layers, p) == Composite(layers[k..], p)
          {
            assert layers[k..][1..] == layers[k + 1..];
            var pixel := layers[k][p];
            if pixel == 0 {
              row := row + ".";
              break;
            }
            if pixel == 1 {
              row := row + "W";
              break;
            }
            k := k + 1;
          }
        }
        rows := rows + [row];
      }
    }
  }
}
