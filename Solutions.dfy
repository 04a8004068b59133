/** A solution card: a capability list collapsed to its first three
    entries behind a "+ N more" toggle, an accent palette and an icon looked
    up by key with a fallback, and a pill showing the target audience or a
    note. */
module Solutions {
  import opened Js
  import Decimal

  datatype SolutionItem = SolutionItem(
    id: string,
    number: string,
    title: string,
    subtitle: string,
    description: string,
    capabilities: seq<string>,
    impacts: Option<seq<string>>,
    target: Option<string>,
    designedFor: Option<seq<string>>,
    note: Option<string>,
    icon: string,
    colorAccent: string)

  // ---------------------------------------------------------------------
  // Capability list

  /** How many capabilities a collapsed card shows. */
  const CollapsedCount: nat := 3

  function Min(a: int, b: int): int
  {
    if a <= b then a else b
  }

  /** `s.slice(start, end)` for non-negative bounds: both are clamped to the
      length, and a range that is empty after clamping gives `[]`. */
  function Slice<T>(s: seq<T>, start: nat, end: nat): (r: seq<T>)
    ensures start <= end && end <= |s| ==> r == s[start..end]
    ensures start <= |s| <= end ==> r == s[start..]
    ensures start >= |s| || end <= start ==> r == []
  {
    var lo := Min(start, |s|);
    var hi := Min(end, |s|);
    if lo >= hi then [] else s[lo..hi]
  }

  /** Expanded, every capability; collapsed, the first `min(3, n)`. */
  function VisibleCaps(caps: seq<string>, expanded: bool): (v: seq<string>)
    ensures expanded ==> v == caps
    ensures !expanded ==> |v| == Min(3, |caps|) && v == caps[..|v|]
  {
    if expanded then caps else Slice(caps, 0, CollapsedCount)
  }

  /** `capabilities.length - 3`, which is negative for short lists. */
  function Remaining(caps: seq<string>): int
  {
    |caps| - CollapsedCount
  }

  /** The toggle button is drawn when something is hidden, i.e. when there
      are more than three capabilities. */
  predicate ShowToggle(caps: seq<string>)
  {
    Remaining(caps) > 0
  }

  lemma ShowToggleIffMoreThanThree(caps: seq<string>)
    ensures ShowToggle(caps) <==> |caps| > 3
    ensures !ShowToggle(caps) ==> VisibleCaps(caps, false) == caps
  {
  }

  /** With the button shown and the card collapsed, the visible entries and
      the count in the label add up to the whole list. */
  lemma CollapsedAccountsForAll(caps: seq<string>)
    requires ShowToggle(caps)
    ensures |VisibleCaps(caps, false)| + Remaining(caps) == |caps|
    ensures VisibleCaps(caps, false) + caps[|VisibleCaps(caps, false)|..] == caps
  {
  }

  const ShowLessLabel: string := "\U{2212} Show less"

  /** `expanded ? '− Show less' : `+ ${remaining} more``. */
  function ToggleLabel(expanded: bool, remaining: int): string
  {
    if expanded then ShowLessLabel else "+ " + Decimal.IntToString(remaining) + " more"
  }

  /** When the button is shown on a collapsed card, its label is "+ ",
      the decimal numeral of the hidden count, and " more", and the count
      can be read back from it. */
  lemma CollapsedLabelNamesCount(caps: seq<string>)
    requires ShowToggle(caps)
    ensures var text := ToggleLabel(false, Remaining(caps));
      && |text| > 7
      && text[..2] == "+ " && text[|text| - 5..] == " more"
      && text[2..|text| - 5] == Decimal.NatToString(Remaining(caps))
      && Decimal.AllDigits(text[2..|text| - 5])
      && Decimal.ParseDigits(text[2..|text| - 5]) == Remaining(caps)
  {
    var r: nat := Remaining(caps);
    var text := ToggleLabel(false, r);
    var digits := Decimal.NatToString(r);
    assert text == "+ " + digits + " more";
    assert text[2..|text| - 5] == digits;
    Decimal.ParseNatToString(r);
  }

  /** The label switches between its two texts with `expanded`. */
  lemma ToggleLabelFollowsExpanded(remaining: int)
    ensures ToggleLabel(true, remaining) == "\U{2212} Show less"
    ensures ToggleLabel(false, remaining) != ToggleLabel(true, remaining)
  {
    var collapsed := ToggleLabel(false, remaining);
    assert collapsed[0] == '+';
  }

  // ---------------------------------------------------------------------
  // Lookups with fallback

  datatype AccentVars = AccentVars(color: string, bg: string, border: string, glow: string)

  function Palette(name: string): AccentVars
  {
    AccentVars(
      "var(--color-" + name + ")",
      "var(--color-" + name + "-bg)",
      "var(--color-" + name + "-border)",
      "var(--color-" + name + "-glow)")
  }

  const AccentTable: map<string, AccentVars> :=
    map["cyan" := Palette("cyan"), "emerald" := Palette("emerald"), "violet" := Palette("violet")]

  datatype SolutionIcon = Cpu | GraduationCap | Users

  const IconTable: map<string, SolutionIcon> :=
    map["cpu" := Cpu, "graduation-cap" := GraduationCap, "users" := Users]

  /** `accentVars[key] ?? accentVars.cyan` exactly as JavaScript reads it. */
  function AccentAsWritten(key: string): Found<AccentVars>
  {
    NullishLookup(AccentTable, key, AccentTable["cyan"])
  }

  /** An inherited name such as "toString" is not `undefined`, so the cyan
      fallback is never reached and the card gets no palette. */
  lemma AccentInheritedKey()
    ensures AccentAsWritten("toString") == Inherited("toString")
    ensures AccentAsWritten("toString") != Own(Palette("cyan"))
  {
    assert "toString" !in AccentTable;
  }

  /** The palette lookup with the intended fallback. */
  function AccentFor(key: string): (v: AccentVars)
  {
    OwnLookup(AccentTable, key, AccentTable["cyan"])
  }

  /** The three named accents give their own palette; every other key the
      cyan one; and apart from the inherited names this is what the
      JavaScript lookup gives. */
  lemma AccentFallback(key: string)
    ensures key in {"cyan", "emerald", "violet"} ==> AccentFor(key) == Palette(key)
    ensures key !in {"cyan", "emerald", "violet"} ==> AccentFor(key) == Palette("cyan")
    ensures key !in PrototypeKeys ==> AccentAsWritten(key) == Own(AccentFor(key))
  {
  }

  /** `iconMap[key] ?? Cpu` exactly as JavaScript reads it. */
  function IconAsWritten(key: string): Found<SolutionIcon>
  {
    NullishLookup(IconTable, key, Cpu)
  }

  /** "constructor" reads as the inherited `Object` constructor, which is
      then rendered as the icon component instead of Cpu. */
  lemma IconInheritedKey()
    ensures IconAsWritten("constructor") == Inherited("constructor")
  {
    assert "constructor" !in IconTable;
  }

  function IconFor(key: string): SolutionIcon
  {
    OwnLookup(IconTable, key, Cpu)
  }

  lemma IconFallback(key: string)
    ensures key == "cpu" ==> IconFor(key) == Cpu
    ensures key == "graduation-cap" ==> IconFor(key) == GraduationCap
    ensures key == "users" ==> IconFor(key) == Users
    ensures key !in {"cpu", "graduation-cap", "users"} ==> IconFor(key) == Cpu
    ensures key !in PrototypeKeys ==> IconAsWritten(key) == Own(IconFor(key))
  {
  }

  // ---------------------------------------------------------------------
  // Target / note pill

  /** `item.target || item.note`: drawn when either is a non-empty string. */
  predicate PillShown(item: SolutionItem)
  {
    TruthyString(item.target) || TruthyString(item.note)
  }

  /** `item.target ?? item.note`: the target whenever it is defined, even
      as the empty string. */
  function PillText(item: SolutionItem): (t: Option<string>)
    ensures item.target.Some? ==> t == item.target
    ensures item.target.None? ==> t == item.note
  {
    Coalesce(item.target, item.note)
  }

  /** A shown pill always has text to show. */
  lemma PillShownHasText(item: SolutionItem)
    requires PillShown(item)
    ensures PillText(item).Some?
  {
  }

  /** Because the test uses `||` and the text uses `??`, an empty `target`
      next to a note draws a pill whose text is empty. */
  lemma EmptyTargetHidesNote(item: SolutionItem)
    requires item.target == Some("") && TruthyString(item.note)
    ensures PillShown(item) && PillText(item) == Some("")
  {
  }

  // ---------------------------------------------------------------------
  // The card, with its one piece of state

  /** What a card draws for its current state. */
  datatype CardView = CardView(
    accent: AccentVars,
    icon: SolutionIcon,
    caps: seq<string>,
    toggle: Option<string>,
    toggleExpanded: bool,
    pill: Option<string>)

  function ViewOf(item: SolutionItem, expanded: bool): (v: CardView)
    ensures v.toggle.Some? <==> |item.capabilities| > 3
    ensures v.pill.Some? <==> PillShown(item)
    ensures v.toggleExpanded == expanded
    ensures !expanded && v.toggle.Some? ==> |v.caps| + Remaining(item.capabilities) == |item.capabilities|
    ensures v.caps == VisibleCaps(item.capabilities, expanded)
    ensures v.toggle.Some? ==> v.toggle.value == ToggleLabel(expanded, Remaining(item.capabilities))
    ensures v.pill.Some? ==> v.pill == PillText(item)
    ensures v.accent == AccentFor(item.colorAccent) && v.icon == IconFor(item.icon)
  {
    CardView(
      AccentFor(item.colorAccent),
      IconFor(item.icon),
      VisibleCaps(item.capabilities, expanded),
      if ShowToggle(item.capabilities) then Some(ToggleLabel(expanded, Remaining(item.capabilities))) else None,
      expanded,
      if PillShown(item) then PillText(item) else None)
  }

  class SolutionCard {
    const item: SolutionItem
    var expanded: bool

    constructor (item: SolutionItem)
      ensures this.item == item && !expanded
    {
      this.item := item;
      expanded := false;
    }

    /** The toggle button's click handler. */
    method ToggleClick()
      modifies this`expanded
      ensures expanded == !old(expanded)
    {
      expanded := !expanded;
    }

    function View(): (v: CardView)
      reads this
      ensures v.caps == if expanded then item.capabilities else item.capabilities[..Min(3, |item.capabilities|)]
    {
      ViewOf(item, expanded)
    }
  }

  /** A client run over a long list: a fresh card shows three entries, one
      click shows them all under "− Show less", and a second collapses it
      again. */
  method ExpandAndCollapse(item: SolutionItem) returns (first: CardView, second: CardView, third: CardView)
    requires |item.capabilities| > 3
    ensures first.caps == item.capabilities[..3] && first.toggle == Some(ToggleLabel(false, |item.capabilities| - 3))
    ensures second.caps == item.capabilities && second.toggle == Some(ShowLessLabel)
    ensures third == first
  {
    var card := new SolutionCard(item);
    first := card.View();
    card.ToggleClick();
    second := card.View();
    card.ToggleClick();
    third := card.View();
  }
}
