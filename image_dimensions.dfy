/** lib/image-dimensions.ts: the three supported aspect ratios and the pixel
    size and label each one renders at. */
module ImageDimensions {
  import opened Values
  import opened Text

  datatype AspectRatio = Landscape | Portrait | Square

  /** The key of the ratio in the table, as clients send it. */
  function Key(a: AspectRatio): string {
    match a
    case Landscape => "16:9"
    case Portrait => "9:16"
    case Square => "1:1"
  }

  /** The ratio a JSON value names, if it names one: only the exact key strings do. */
  function ParseAspectRatio(j: Json): (r: Option<AspectRatio>)
    ensures r.Some? ==> j == JString(Key(r.value))
    ensures forall a :: j == JString(Key(a)) ==> r == Some(a)
  {
    if j == JString("16:9") then Some(Landscape)
    else if j == JString("9:16") then Some(Portrait)
    else if j == JString("1:1") then Some(Square)
    else None
  }

  datatype Dimensions = Dimensions(width: nat, height: nat, name: string)

  /** The two integers a ratio key is written with, width part first. */
  function RatioTerms(a: AspectRatio): (nat, nat) {
    match a
    case Landscape => (16, 9)
    case Portrait => (9, 16)
    case Square => (1, 1)
  }

  /** The key is its two terms written in decimal around a colon. */
  lemma KeySpellsTerms(a: AspectRatio)
    ensures Key(a) == NatToString(RatioTerms(a).0) + ":" + NatToString(RatioTerms(a).1)
  {
    assert NatToString(16) == "16" by {
      assert NatToString(1) == "1";
    }
  }

  /** `getDimensions`: a total lookup. Every entry has exactly the proportions
      its key names, is at least 720 pixels on either side, and carries its
      label. */
  function GetDimensions(a: AspectRatio): (d: Dimensions)
    ensures d.width * RatioTerms(a).1 == d.height * RatioTerms(a).0
    ensures d.width >= 720 && d.height >= 720
    ensures a == Landscape ==> d.name == "YouTube Landscape"
    ensures a == Portrait ==> d.name == "Stories/Shorts"
    ensures a == Square ==> d.name == "Instagram Square"
  {
    match a
    case Landscape => Dimensions(1280, 720, "YouTube Landscape")
    case Portrait => Dimensions(720, 1280, "Stories/Shorts")
    case Square => Dimensions(1024, 1024, "Instagram Square")
  }

  /** 9:16 is 16:9 turned on its side, 1:1 is square, and 16:9 is 1280x720. */
  lemma TableShape()
    ensures GetDimensions(Portrait).width == GetDimensions(Landscape).height
    ensures GetDimensions(Portrait).height == GetDimensions(Landscape).width
    ensures GetDimensions(Square).width == GetDimensions(Square).height == 1024
    ensures GetDimensions(Landscape).width == 1280 && GetDimensions(Landscape).height == 720
  {
  }

  /** The table's sizes for a ratio value that may be missing from the table:
      everything that is not one of the three keys is treated as 1:1, as the
      generate route and the placeholder image both do. */
  function SizeFor(j: Json): (d: Dimensions)
    ensures ParseAspectRatio(j).None? ==> d == GetDimensions(Square)
    ensures ParseAspectRatio(j).Some? ==> d == GetDimensions(ParseAspectRatio(j).value)
  {
    match ParseAspectRatio(j)
    case Some(a) => GetDimensions(a)
    case None => GetDimensions(Square)
  }

  /** "<width>x<height>" for a ratio. */
  function SizeText(d: Dimensions): string {
    NatToString(d.width) + "x" + NatToString(d.height)
  }

  lemma TableNumerals()
    ensures NatToString(1280) == "1280" && NatToString(720) == "720" && NatToString(1024) == "1024"
  {
    assert NatToString(1) == "1" && NatToString(7) == "7";
    assert NatToString(12) == "12" && NatToString(10) == "10" && NatToString(72) == "72";
    assert NatToString(128) == "128" && NatToString(102) == "102";
  }

  /** The sizes of the table written out, as the placeholder image names them. */
  lemma SizeTextOfTable()
    ensures SizeText(GetDimensions(Landscape)) == "1280x720"
    ensures SizeText(GetDimensions(Portrait)) == "720x1280"
    ensures SizeText(GetDimensions(Square)) == "1024x1024"
  {
    TableNumerals();
  }
}
