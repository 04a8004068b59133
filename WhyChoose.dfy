/** One tile of the "why choose us" grid: a two-digit ordinal, an icon
    looked up by key with a fallback, and a hover flag that drives the
    tile's highlight. */
module WhyChoose {
  import opened Js
  import opened Decimal

  datatype WhyChooseItem = WhyChooseItem(title: string, description: string, icon: string)

  // ---------------------------------------------------------------------
  // Ordinal label

  /** `s.padStart(width, pad)` for a one-character pad: `pad` repeated in
      front until the length reaches `width`; a string already that long
      is returned as it is. */
  function PadStart(s: string, width: nat, pad: char): (r: string)
    ensures |s| >= width ==> r == s
    ensures |s| < width ==> |r| == width && r[width - |s|..] == s
    ensures forall i :: 0 <= i < |r| - |s| ==> r[i] == pad
  {
    if |s| >= width then s else seq(width - |s|, _ => pad) + s
  }

  /** `String(index + 1).padStart(2, '0')`. */
  function OrdinalLabel(index: nat): string
  {
    PadStart(NatToString(index + 1), 2, '0')
  }

  /** The label is never shorter than two characters and is all digits. */
  lemma OrdinalLabelShape(index: nat)
    ensures |OrdinalLabel(index)| >= 2
    ensures AllDigits(OrdinalLabel(index))
  {
  }

  /** The first nine tiles read "01" to "09"; from the tenth on the label
      is the plain numeral. */
  lemma OrdinalLabelCases(index: nat)
    ensures index + 1 <= 9 ==> OrdinalLabel(index) == ['0', DigitChar(index + 1)]
    ensures index + 1 >= 10 ==> OrdinalLabel(index) == NatToString(index + 1)
  {
  }

  /** Dropping the padding zeros and reading the numeral gives back the
      tile's position. */
  lemma OrdinalLabelRoundTrip(index: nat)
    ensures AllDigits(DropLeadingZeros(OrdinalLabel(index)))
    ensures ParseDigits(DropLeadingZeros(OrdinalLabel(index))) == index + 1
  {
    var n := index + 1;
    var padded := OrdinalLabel(index);
    var digits := NatToString(n);
    var k := |padded| - |digits|;
    assert padded == Zeros(k) + digits;
    DropZerosBeforeNumeral(k, n);
    ParseNatToString(n);
  }

  // ---------------------------------------------------------------------
  // Icon lookup

  datatype WhyIcon = MapPin | ShieldCheck | TrendingUp | Users2 | Handshake

  const IconTable: map<string, WhyIcon> := map[
    "map-pin" := MapPin,
    "shield-check" := ShieldCheck,
    "trending-up" := TrendingUp,
    "users-2" := Users2,
    "handshake" := Handshake]

  /** `iconMap[item.icon] ?? ShieldCheck` exactly as JavaScript reads it. */
  function IconAsWritten(key: string): Found<WhyIcon>
  {
    NullishLookup(IconTable, key, ShieldCheck)
  }

  /** "toString" reads as the inherited `Object.prototype.toString`, which
      is then rendered as the icon component instead of ShieldCheck. */
  lemma IconInheritedKey()
    ensures IconAsWritten("toString") == Inherited("toString")
  {
    assert "toString" !in IconTable;
  }

  function IconFor(key: string): WhyIcon
  {
    OwnLookup(IconTable, key, ShieldCheck)
  }

  /** The five listed keys give their own icon, every other key gives
      ShieldCheck, and apart from the inherited names this is what the
      JavaScript lookup gives. */
  lemma IconFallback(key: string)
    ensures key == "map-pin" ==> IconFor(key) == MapPin
    ensures key == "shield-check" ==> IconFor(key) == ShieldCheck
    ensures key == "trending-up" ==> IconFor(key) == TrendingUp
    ensures key == "users-2" ==> IconFor(key) == Users2
    ensures key == "handshake" ==> IconFor(key) == Handshake
    ensures key !in IconTable.Keys ==> IconFor(key) == ShieldCheck
    ensures key !in PrototypeKeys ==> IconAsWritten(key) == Own(IconFor(key))
  {
  }

  // ---------------------------------------------------------------------
  // Hover highlight

  datatype Surface = GlassSurface | TransparentSurface
  datatype Tone = AccentTone | PrimaryTone | SecondaryTone | MutedTone

  /** The style choices a tile makes from its hover flag. */
  datatype TileStyle = TileStyle(
    background: Surface,
    iconLifted: bool,
    iconColor: Tone,
    titleColor: Tone,
    dividerWidthPx: nat,
    dividerFullOpacity: bool)

  /** Hovered: glass fill, raised accent icon, primary title, a 32px opaque
      divider. At rest: transparent, muted icon in place, secondary title,
      a 20px faint divider. */
  function StyleFor(hovered: bool): (st: TileStyle)
    ensures st.background == GlassSurface <==> hovered
    ensures st.iconColor == (if hovered then AccentTone else MutedTone)
    ensures st.dividerWidthPx == (if hovered then 32 else 20)
    ensures st.iconLifted == hovered && st.dividerFullOpacity == hovered
  {
    if hovered then TileStyle(GlassSurface, true, AccentTone, PrimaryTone, 32, true)
    else TileStyle(TransparentSurface, false, MutedTone, SecondaryTone, 20, false)
  }

  /** Each of the two hover states has its own look: the style determines
      the flag. */
  lemma StyleDeterminesHover(a: bool, b: bool)
    ensures StyleFor(a) == StyleFor(b) <==> a == b
  {
  }

  class WhyItem {
    const item: WhyChooseItem
    const index: nat
    var hovered: bool

    constructor (item: WhyChooseItem, index: nat)
      ensures this.item == item && this.index == index && !hovered
    {
      this.item := item;
      this.index := index;
      hovered := false;
    }

    method MouseEnter()
      modifies this`hovered
      ensures hovered
    {
      hovered := true;
    }

    method MouseLeave()
      modifies this`hovered
      ensures !hovered
    {
      hovered := false;
    }

    /** The tile's look reads `hovered` and nothing else. */
    function Style(): (st: TileStyle)
      reads this`hovered
      ensures st.background == GlassSurface <==> hovered
      ensures st.iconColor == (if hovered then AccentTone else MutedTone)
      ensures st.iconLifted == hovered && st.dividerFullOpacity == hovered
      ensures st.dividerWidthPx == (if hovered then 32 else 20)
    {
      StyleFor(hovered)
    }

    /** The tile's zero-padded ordinal, which reads back as its position. */
    function Label(): (s: string)
      ensures |s| >= 2 && AllDigits(s)
      ensures index + 1 <= 9 ==> s == ['0', DigitChar(index + 1)]
      ensures index + 1 >= 10 ==> s == NatToString(index + 1)
      ensures AllDigits(DropLeadingZeros(s)) && ParseDigits(DropLeadingZeros(s)) == index + 1
    {
      OrdinalLabelShape(index);
      OrdinalLabelCases(index);
      OrdinalLabelRoundTrip(index);
      OrdinalLabel(index)
    }

    /** The tile's icon: ShieldCheck for an unknown key, and what the
        JavaScript lookup gives for every key that is not an inherited
        name. */
    function Icon(): (i: WhyIcon)
      ensures item.icon !in IconTable ==> i == ShieldCheck
      ensures item.icon !in PrototypeKeys ==> IconAsWritten(item.icon) == Own(i)
    {
      IconFallback(item.icon);
      IconFor(item.icon)
    }
  }
}
