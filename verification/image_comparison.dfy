/**
 * The comparison presenter: size labels with binary units, the savings
 * figure and the fixed quality and format figures.
 */
module ImageComparison {
  import opened Wrappers
  import Decimal

  const KiB: int := 1024
  const MiB: int := 1024 * 1024

  datatype SizeUnit = B | KB | MB

  function UnitRank(u: SizeUnit): nat
  {
    match u
    case B => 0
    case KB => 1
    case MB => 2
  }

  /**
   * A size label. Below 1 KiB the raw count is written out; the two-decimal
   * KB and MB figures are floating-point text and only their unit is kept,
   * with the byte count they are computed from.
   */
  datatype SizeLabel = Bytes(text: string) | Kilobytes(bytes: int) | Megabytes(bytes: int)
  {
    function Unit(): SizeUnit
    {
      match this
      case Bytes(_) => B
      case Kilobytes(_) => KB
      case Megabytes(_) => MB
    }
  }

  /** `formatSize`: the unit is chosen by the thresholds 1024 and 1024 * 1024. */
  function FormatSize(bytes: int): (l: SizeLabel)
    ensures l.Unit() == B <==> bytes < KiB
    ensures l.Unit() == KB <==> KiB <= bytes < MiB
    ensures l.Unit() == MB <==> MiB <= bytes
    ensures l.Bytes? ==> l.text == Decimal.IntText(bytes) + " B"
    ensures !l.Bytes? ==> l.bytes == bytes
  {
    if bytes < KiB then Bytes(Decimal.IntText(bytes) + " B")
    else if bytes < MiB then Kilobytes(bytes)
    else Megabytes(bytes)
  }

  /** A larger byte count never gets a smaller unit. */
  lemma UnitMonotone(a: int, b: int)
    requires a <= b
    ensures UnitRank(FormatSize(a).Unit()) <= UnitRank(FormatSize(b).Unit())
  {
  }

  /** The byte count of a "B" label can be read back from its text. */
  lemma BytesLabelReadsBack(bytes: int)
    requires bytes < KiB
    ensures var t := FormatSize(bytes).text;
      |t| >= 2 && t[|t| - 2..] == " B" && Decimal.ParseInt(t[..|t| - 2]) == Some(bytes)
  {
    var t := FormatSize(bytes).text;
    assert t[..|t| - 2] == Decimal.IntText(bytes);
    Decimal.IntTextRoundTrip(bytes);
  }

  /** `{compressionRatio}%`: the ratio is shown as given, followed by a percent sign. */
  function RatioLabel(ratio: int): (s: string)
    ensures |s| >= 2 && s[|s| - 1] == '%'
    ensures Decimal.ParseInt(s[..|s| - 1]) == Some(ratio)
  {
    Decimal.IntTextRoundTrip(ratio);
    var s := Decimal.IntText(ratio) + "%";
    assert s[..|s| - 1] == Decimal.IntText(ratio);
    s
  }

  /** The metric row and the two size captions of the comparison view. */
  datatype Metrics = Metrics(
    original: SizeLabel, optimized: SizeLabel,
    savings: SizeLabel, ratio: string, quality: string, format: string)

  /**
   * What the view shows for its props. Savings is the plain difference of
   * the two sizes; quality and format do not depend on any input.
   */
  function Present(originalSize: int, optimizedSize: int, compressionRatio: int): (m: Metrics)
    ensures m.original == FormatSize(originalSize) && m.optimized == FormatSize(optimizedSize)
    ensures m.savings == FormatSize(originalSize - optimizedSize)
    ensures m.ratio == RatioLabel(compressionRatio)
    ensures m.quality == "98%" && m.format == "WebP"
  {
    Metrics(FormatSize(originalSize), FormatSize(optimizedSize),
      FormatSize(originalSize - optimizedSize), RatioLabel(compressionRatio), "98%", "WebP")
  }

  /** The worked sizes: 500 bytes, 2048 bytes and 5 MiB. */
  lemma FormatSizeExamples()
    ensures FormatSize(500) == Bytes("500 B")
    ensures FormatSize(2048) == Kilobytes(2048)
    ensures FormatSize(5242880) == Megabytes(5242880)
  {
  }
}
