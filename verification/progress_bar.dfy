/** The progress bar: the value is clamped into [0, 100], the fill colour
    is chosen by band, and both the bar width and the shown percentage use
    the clamped value. Values are exact reals. */
module ProgressBar {
  import opened Rounding

  /** `Math.min(Math.max(value, 0), 100)`. */
  function Clamp(value: real): (c: real)
    ensures 0.0 <= c <= 100.0
    ensures 0.0 <= value <= 100.0 ==> c == value
    ensures value < 0.0 ==> c == 0.0
    ensures value > 100.0 ==> c == 100.0
  {
    var low := if value > 0.0 then value else 0.0;
    if low < 100.0 then low else 100.0
  }

  /** Clamping twice is clamping once. */
  lemma ClampIdempotent(value: real)
    ensures Clamp(Clamp(value)) == Clamp(value)
  {
  }

  /** The four colour bands. */
  datatype Band = Empty | Started | Advanced | Full

  /** The band `getProgressColor` picks for a clamped value: exactly 0 is
      empty, below 50 started, below 100 advanced, and 100 full. */
  function BandOf(c: real): (b: Band)
    requires 0.0 <= c <= 100.0
    ensures b == Empty <==> c == 0.0
    ensures b == Started <==> 0.0 < c < 50.0
    ensures b == Advanced <==> 50.0 <= c < 100.0
    ensures b == Full <==> c == 100.0
  {
    if c == 0.0 then Empty
    else if c < 50.0 then Started
    else if c < 100.0 then Advanced
    else Full
  }

  /** `getProgressColor`: the empty band follows the theme; the others do not. */
  function FillColor(theme: string, c: real): (color: string)
    requires 0.0 <= c <= 100.0
    ensures BandOf(c) == Empty && theme == "light" ==> color == "bg-neutral-200"
    ensures BandOf(c) == Empty && theme != "light" ==> color == "bg-neutral-700"
    ensures BandOf(c) == Started ==> color == "bg-amber-500"
    ensures BandOf(c) == Advanced ==> color == "bg-blue-500"
    ensures BandOf(c) == Full ==> color == "bg-emerald-500"
  {
    if c == 0.0 then (if theme == "light" then "bg-neutral-200" else "bg-neutral-700")
    else if c < 50.0 then "bg-amber-500"
    else if c < 100.0 then "bg-blue-500"
    else "bg-emerald-500"
  }

  /** What the bar renders for a value. */
  datatype Render = Render(width: real, color: string, shown: int)

  /** The bar for a value: width and shown percentage both come from the
      clamped value, so the shown percentage is a whole number in [0, 100]
      and within one half of the width. */
  function Draw(theme: string, value: real): (r: Render)
    ensures r.width == Clamp(value)
    ensures r.color == FillColor(theme, Clamp(value))
    ensures 0 <= r.shown <= 100
    ensures (r.shown as real) <= r.width + 0.5 < (r.shown as real) + 1.0
  {
    var c := Clamp(value);
    RoundMonotone(0.0, c);
    RoundMonotone(c, 100.0);
    RoundWhole(0);
    RoundWhole(100);
    Render(c, FillColor(theme, c), Round(c))
  }

  /** Out-of-range values draw like the nearest end of the range. */
  lemma OutOfRangeDrawsLikeEnds(theme: string, value: real)
    ensures value < 0.0 ==> Draw(theme, value) == Draw(theme, 0.0)
    ensures value > 100.0 ==> Draw(theme, value) == Draw(theme, 100.0)
  {
  }
}
