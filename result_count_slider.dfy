/**
 * The result-count control (frontend/vite/src/components/ResultCountSlider.tsx):
 * a track that maps a pointer position to a count, minus and plus buttons,
 * and a number input, all bounded by [min, max].
 */
module ResultCountSlider {
  import opened Wrappers
  import opened Text
  import opened Numbers

  /** `Math.min` of two finite numbers. */
  function RMin(a: real, b: real): (r: real)
    ensures r <= a && r <= b && (r == a || r == b)
  {
    if a <= b then a else b
  }

  /** `Math.max` of two finite numbers. */
  function RMax(a: real, b: real): (r: real)
    ensures r >= a && r >= b && (r == a || r == b)
  {
    if a >= b then a else b
  }

  /** `clampValue`: `Math.min(max, Math.max(min, v))`. */
  function Clamp(v: real, lo: int, hi: int): (r: real)
    ensures lo <= hi ==> lo as real <= r <= hi as real
    ensures lo as real <= v <= hi as real ==> r == v
    ensures lo <= hi && v < lo as real ==> r == lo as real
    ensures v > hi as real ==> r == hi as real
  {
    RMin(hi as real, RMax(lo as real, v))
  }

  /** `clampValue` of a number that is not NaN; an infinity clamps to a bound. */
  function ClampNumber(n: Number, lo: int, hi: int): (r: real)
    requires n != NaN
    ensures lo <= hi ==> lo as real <= r <= hi as real
    ensures n.Finite? ==> r == Clamp(n.r, lo, hi)
    ensures lo <= hi && n == PosInfinity ==> r == hi as real
    ensures lo <= hi && n == NegInfinity ==> r == lo as real
  {
    match n
    case Finite(v) => Clamp(v, lo, hi)
    case PosInfinity => hi as real
    case NegInfinity => Clamp(lo as real, lo, hi)
  }

  /** The track's bounding box on screen: its left edge and its width. */
  datatype Track = Track(left: real, width: real)

  /** How far along the track x lies, clamped to [0, 1]. */
  function Fraction(x: real, t: Track): (p: real)
    requires t.width > 0.0
    ensures 0.0 <= p <= 1.0
    ensures x <= t.left ==> p == 0.0
    ensures x >= t.left + t.width ==> p == 1.0
  {
    QuotientBounds(x - t.left, t.width);
    RMax(0.0, RMin(1.0, (x - t.left) / t.width))
  }

  /** Dividing by a positive width keeps the sign and maps [width, ∞) to [1, ∞). */
  lemma QuotientBounds(a: real, w: real)
    requires w > 0.0
    ensures a <= 0.0 ==> a / w <= 0.0
    ensures a >= w ==> a / w >= 1.0
  {
    var q := a / w;
    assert q * w == a;
    if q > 0.0 {
      assert q * w > 0.0;
    }
    if q < 1.0 {
      assert q * w < w;
    }
  }

  /** The fraction grows with x. */
  lemma FractionMonotonic(x: real, y: real, t: Track)
    requires t.width > 0.0 && x <= y
    ensures Fraction(x, t) <= Fraction(y, t)
  {
    DivMonotonic(x - t.left, y - t.left, t.width);
  }

  /** Dividing by a positive number keeps the order. */
  lemma DivMonotonic(a: real, b: real, w: real)
    requires w > 0.0 && a <= b
    ensures a / w <= b / w
  {
    assert a / w - b / w == (a - b) / w;
    QuotientBounds(a - b, w);
  }

  /** `Math.round(min + p * (max - min))`. */
  function PositionValue(p: real, lo: int, hi: int): int
  {
    JsRound(lo as real + p * (hi - lo) as real)
  }

  /** A fraction in [0, 1] gives an integer in [min, max]: min for 0 and max for 1. */
  lemma PositionInRange(p: real, lo: int, hi: int)
    requires 0.0 <= p <= 1.0 && lo <= hi
    ensures lo <= PositionValue(p, lo, hi) <= hi
    ensures p == 0.0 ==> PositionValue(p, lo, hi) == lo
    ensures p == 1.0 ==> PositionValue(p, lo, hi) == hi
  {
    var w := (hi - lo) as real;
    assert 0.0 <= p * w <= w by {
      assert 0.0 <= w;
    }
  }

  /** A larger fraction never gives a smaller value. */
  lemma PositionMonotonic(p: real, q: real, lo: int, hi: int)
    requires p <= q && lo <= hi
    ensures PositionValue(p, lo, hi) <= PositionValue(q, lo, hi)
  {
    var w := (hi - lo) as real;
    assert p * w <= q * w by {
      assert 0.0 <= w;
    }
    var a := lo as real + p * w;
    var b := lo as real + q * w;
    assert (a + 0.5).Floor <= (b + 0.5).Floor;
  }

  /**
   * `calculateValue`: the current value without a track, otherwise the
   * position's fraction of [min, max], rounded to an integer.
   */
  function CalculateValue(x: real, track: Option<Track>, lo: int, hi: int, value: real): (r: real)
    requires track.Some? ==> track.value.width > 0.0
    ensures track.None? ==> r == value
  {
    if track.None? then value
    else PositionValue(Fraction(x, track.value), lo, hi) as real
  }

  /** A pointer on a track gives an integer in [min, max], min at the left end and max at the right. */
  lemma CalculateValueInRange(x: real, t: Track, lo: int, hi: int, value: real)
    requires t.width > 0.0 && lo <= hi
    ensures var r := CalculateValue(x, Some(t), lo, hi, value);
      lo as real <= r <= hi as real && r == r.Floor as real
    ensures x <= t.left ==> CalculateValue(x, Some(t), lo, hi, value) == lo as real
    ensures x >= t.left + t.width ==> CalculateValue(x, Some(t), lo, hi, value) == hi as real
  {
    PositionInRange(Fraction(x, t), lo, hi);
  }

  /** Moving the pointer right never lowers the value. */
  lemma CalculateValueMonotonic(x: real, y: real, t: Track, lo: int, hi: int, value: real)
    requires t.width > 0.0 && lo <= hi && x <= y
    ensures CalculateValue(x, Some(t), lo, hi, value) <= CalculateValue(y, Some(t), lo, hi, value)
  {
    FractionMonotonic(x, y, t);
    PositionMonotonic(Fraction(x, t), Fraction(y, t), lo, hi);
  }

  /** The minus button: one less, never below min. */
  function Decrement(value: real, lo: int): (r: real)
    ensures r >= lo as real
    ensures value - 1.0 >= lo as real ==> r == value - 1.0
    ensures value - 1.0 < lo as real ==> r == lo as real
  {
    RMax(lo as real, value - 1.0)
  }

  /** The plus button: one more, never above max. */
  function Increment(value: real, hi: int): (r: real)
    ensures r <= hi as real
    ensures value + 1.0 <= hi as real ==> r == value + 1.0
    ensures value + 1.0 > hi as real ==> r == hi as real
  {
    RMin(hi as real, value + 1.0)
  }

  /**
   * The number input's change and blur handlers: the text read by
   * `Number`, nothing emitted for NaN, otherwise the value clamped but not
   * rounded.
   */
  function TypedValue(text: string, lo: int, hi: int): (r: Option<real>)
    ensures r.None? <==> JsStringToNumber(text) == NaN
    ensures r.Some? && lo <= hi ==> lo as real <= r.value <= hi as real
    ensures JsStringToNumber(text).Finite? ==> r == Some(Clamp(JsStringToNumber(text).r, lo, hi))
  {
    var n := JsStringToNumber(text);
    if n == NaN then None else Some(ClampNumber(n, lo, hi))
  }

  /** Clearing the input reads as 0, which clamps to min when min is positive. */
  lemma EmptyInputIsMin(lo: int, hi: int)
    requires 0 < lo <= hi
    ensures TypedValue("", lo, hi) == Some(lo as real)
  {
    assert Strip("", JsWhitespace) == "";
  }

  /** Typing an integer in range emits exactly that integer. */
  lemma TypedIntegerInRange(n: int, lo: int, hi: int)
    requires lo <= n <= hi
    ensures TypedValue(IntText(n), lo, hi) == Some(n as real)
  {
    JsNumberRoundTrip(n);
  }

  /**
   * The control's state: whether a drag is under way, and the value the
   * page passes in, which every emitted value replaces (the page stores it
   * with `setResultCount`).
   */
  class Slider {
    const min: int
    const max: int
    var value: real
    var isDragging: bool

    predicate InRange()
      reads this
    {
      min as real <= value <= max as real
    }

    constructor(min: int, max: int, value: real)
      ensures this.min == min && this.max == max && this.value == value && !isDragging
    {
      this.min := min;
      this.max := max;
      this.value := value;
      isDragging := false;
    }

    /** mousedown and touchstart: dragging starts and the position's value is emitted. */
    method Press(x: real, track: Option<Track>) returns (emitted: real)
      requires track.Some? ==> track.value.width > 0.0
      modifies this
      ensures isDragging
      ensures emitted == CalculateValue(x, track, min, max, old(value)) && value == emitted
      ensures min <= max && old(InRange()) ==> InRange()
    {
      isDragging := true;
      emitted := CalculateValue(x, track, min, max, value);
      if track.Some? && min <= max {
        CalculateValueInRange(x, track.value, min, max, value);
      }
      value := emitted;
    }

    /** mousemove and touchmove: a value is emitted only while dragging. */
    method Drag(x: real, track: Option<Track>) returns (emitted: Option<real>)
      requires track.Some? ==> track.value.width > 0.0
      modifies this
      ensures isDragging == old(isDragging)
      ensures old(isDragging) ==> emitted == Some(CalculateValue(x, track, min, max, old(value))) && value == emitted.value
      ensures !old(isDragging) ==> emitted.None? && value == old(value)
      ensures min <= max && old(InRange()) ==> InRange()
    {
      if isDragging {
        var v := CalculateValue(x, track, min, max, value);
        if track.Some? && min <= max {
          CalculateValueInRange(x, track.value, min, max, value);
        }
        value := v;
        emitted := Some(v);
      } else {
        emitted := None;
      }
    }

    /** mouseup and touchend: dragging stops and nothing is emitted. */
    method Release()
      modifies this
      ensures !isDragging && value == old(value)
    {
      isDragging := false;
    }

    /** The minus button. */
    method DecrementClick() returns (emitted: real)
      modifies this
      ensures emitted == Decrement(old(value), min) && value == emitted
      ensures isDragging == old(isDragging)
      ensures min <= max && old(InRange()) ==> InRange()
    {
      emitted := Decrement(value, min);
      value := emitted;
    }

    /** The plus button. */
    method IncrementClick() returns (emitted: real)
      modifies this
      ensures emitted == Increment(old(value), max) && value == emitted
      ensures isDragging == old(isDragging)
      ensures min <= max && old(InRange()) ==> InRange()
    {
      emitted := Increment(value, max);
      value := emitted;
    }

    /** The number input's change or blur with the given text. */
    method Type(text: string) returns (emitted: Option<real>)
      modifies this
      ensures emitted == TypedValue(text, min, max)
      ensures emitted.Some? ==> value == emitted.value
      ensures emitted.None? ==> value == old(value)
      ensures isDragging == old(isDragging)
      ensures min <= max && old(InRange()) ==> InRange()
    {
      emitted := TypedValue(text, min, max);
      if emitted.Some? {
        value := emitted.value;
      }
    }
  }
}
