/** The half-circle sentiment gauge: the value is clamped to [0, 1], the bull
    and bear slices split the half circle by that value, each slice is
    coloured with an intensity that saturates at the neutral point, and the
    value is described by one of seven labels and shown as a whole-number
    percentage. */
module SentimentGauge {

  /** `Math.max(0, Math.min(1, value))`. */
  function SafeValue(value: real): (r: real)
    ensures 0.0 <= r <= 1.0
    ensures 0.0 <= value <= 1.0 ==> r == value
    ensures value < 0.0 ==> r == 0.0
    ensures value > 1.0 ==> r == 1.0
  {
    var upper := if 1.0 <= value then 1.0 else value;
    if 0.0 >= upper then 0.0 else upper
  }

  /** Clamping twice is clamping once. */
  lemma SafeValueIdempotent(value: real)
    ensures SafeValue(SafeValue(value)) == SafeValue(value)
  {
  }

  /** `Math.min(255, Math.floor(x * 2 * 255))`. */
  function Intensity(x: real): int
  {
    var scaled := (x * 2.0 * 255.0).Floor;
    if 255 <= scaled then 255 else scaled
  }

  /** A colour `rgb(red, green, blue)`. */
  datatype Rgb = Rgb(red: int, green: int, blue: int)

  /** The bull slice is pure green, brighter as the value rises. */
  function BullColor(safeValue: real): Rgb
  {
    Rgb(0, Intensity(safeValue), 0)
  }

  /** The bear slice is pure red, brighter as the value falls. */
  function BearColor(safeValue: real): Rgb
  {
    Rgb(Intensity(1.0 - safeValue), 0, 0)
  }

  /** On a clamped value both intensities are proper colour components, and
      each saturates exactly on its own half: green is at full brightness
      from the neutral point 0.5 upwards, red from 0.5 downwards, so both are
      at full brightness only at 0.5. */
  lemma {:induction false} ColorsSaturateAtNeutral(safeValue: real)
    requires 0.0 <= safeValue <= 1.0
    ensures 0 <= BullColor(safeValue).green <= 255 && 0 <= BearColor(safeValue).red <= 255
    ensures BullColor(safeValue).green == 255 <==> safeValue >= 0.5
    ensures BearColor(safeValue).red == 255 <==> safeValue <= 0.5
    ensures (BullColor(safeValue).green == 255 && BearColor(safeValue).red == 255) <==> safeValue == 0.5
  {
    IntensitySaturates(safeValue);
    IntensitySaturates(1.0 - safeValue);
  }

  /** On [0, 1] the intensity lies in 0..255 and reaches 255 exactly from 0.5 on. */
  lemma IntensitySaturates(x: real)
    requires 0.0 <= x <= 1.0
    ensures 0 <= Intensity(x) <= 255
    ensures Intensity(x) == 255 <==> x >= 0.5
  {
    var scaled := (x * 2.0 * 255.0).Floor;
    if x < 0.5 {
      assert x * 2.0 * 255.0 < 255.0;
      assert scaled < 255;
    } else {
      assert x * 2.0 * 255.0 >= 255.0;
      assert scaled >= 255;
    }
  }

  /** The seven descriptions, from most bullish to most bearish. */
  datatype Label =
    | StronglyBullish | Bullish | SlightlyBullish | Neutral
    | SlightlyBearish | Bearish | StronglyBearish

  function LabelText(l: Label): string
  {
    match l
    case StronglyBullish => "Strongly Bullish"
    case Bullish => "Bullish"
    case SlightlyBullish => "Slightly Bullish"
    case Neutral => "Neutral"
    case SlightlyBearish => "Slightly Bearish"
    case Bearish => "Bearish"
    case StronglyBearish => "Strongly Bearish"
  }

  /** Different labels are shown as different texts. */
  lemma LabelTextsDistinct(l: Label, m: Label)
    ensures LabelText(l) == LabelText(m) <==> l == m
  {
  }

  /** `getSentimentText`: the first threshold the value reaches. */
  function SentimentLabel(safeValue: real): Label
  {
    if safeValue >= 0.7 then StronglyBullish
    else if safeValue >= 0.6 then Bullish
    else if safeValue >= 0.45 then SlightlyBullish
    else if safeValue >= 0.35 then Neutral
    else if safeValue >= 0.2 then SlightlyBearish
    else if safeValue >= 0.1 then Bearish
    else StronglyBearish
  }

  /** How bullish a label is: 6 for "Strongly Bullish" down to 0. */
  function Rank(l: Label): (n: nat)
    ensures n <= 6
  {
    match l
    case StronglyBearish => 0
    case Bearish => 1
    case SlightlyBearish => 2
    case Neutral => 3
    case SlightlyBullish => 4
    case Bullish => 5
    case StronglyBullish => 6
  }

  /** The lower end of each label's band of values. */
  function Threshold(l: Label): real
  {
    match l
    case StronglyBearish => 0.0
    case Bearish => 0.1
    case SlightlyBearish => 0.2
    case Neutral => 0.35
    case SlightlyBullish => 0.45
    case Bullish => 0.6
    case StronglyBullish => 0.7
  }

  /** The next label up; the top label is its own. */
  function Above(l: Label): (m: Label)
    ensures l != StronglyBullish ==> Rank(m) == Rank(l) + 1
    ensures l == StronglyBullish ==> m == l
  {
    match l
    case StronglyBearish => Bearish
    case Bearish => SlightlyBearish
    case SlightlyBearish => Neutral
    case Neutral => SlightlyBullish
    case SlightlyBullish => Bullish
    case Bullish => StronglyBullish
    case StronglyBullish => StronglyBullish
  }

  /** A value in [0, 1] gets the label of the band it falls in: at or above
      the label's threshold and, below the top label, under the threshold of
      the next label up. */
  lemma LabelBand(safeValue: real, l: Label)
    requires 0.0 <= safeValue <= 1.0
    ensures SentimentLabel(safeValue) == l <==>
              Threshold(l) <= safeValue && (l == StronglyBullish || safeValue < Threshold(Above(l)))
  {
  }

  /** A more bullish value never gets a more bearish label. */
  lemma LabelMonotone(v: real, w: real)
    requires v <= w
    ensures Rank(SentimentLabel(v)) <= Rank(SentimentLabel(w))
  {
  }

  /** One slice of the gauge. */
  datatype Slice = Slice(name: string, value: real)

  /** The two slices, bull first. */
  function GaugeData(safeValue: real): (d: seq<Slice>)
    ensures |d| == 2 && d[0].name == "Bull" && d[1].name == "Bear"
  {
    [Slice("Bull", safeValue), Slice("Bear", 1.0 - safeValue)]
  }

  /** On a clamped value the slices are non-negative, fill the whole half
      circle, and the bull slice is the value itself. */
  lemma GaugeFillsHalfCircle(safeValue: real)
    requires 0.0 <= safeValue <= 1.0
    ensures var d := GaugeData(safeValue);
            d[0].value >= 0.0 && d[1].value >= 0.0 && d[0].value + d[1].value == 1.0
            && d[0].value == safeValue
  {
  }

  /** `Math.round(x)`: the nearest integer, halves rounding up. */
  function Round(x: real): (n: int)
    ensures x - 0.5 < n as real <= x + 0.5
  {
    (x + 0.5).Floor
  }

  function BullishPercentage(safeValue: real): int
  {
    Round(safeValue * 100.0)
  }

  /** The percentage shown is a whole number from 0 to 100, at most half a
      point from the value times 100, and 50 at the neutral point. */
  lemma PercentageInRange(safeValue: real)
    requires 0.0 <= safeValue <= 1.0
    ensures 0 <= BullishPercentage(safeValue) <= 100
    ensures safeValue * 100.0 - 0.5 < BullishPercentage(safeValue) as real <= safeValue * 100.0 + 0.5
    ensures safeValue == 0.5 ==> BullishPercentage(safeValue) == 50
  {
    var n := BullishPercentage(safeValue);
    assert n as real > -0.5;
    assert n as real <= 100.5;
  }
}
