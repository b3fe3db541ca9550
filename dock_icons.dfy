/** Button descriptors of the collapsed icon strip and the pure lookups that
    choose each button's icon (src/dock_collapsible.rs, lines 156-193,
    780-833, 893-988 and 999-1120). */
module DockIcons {
  import opened Common

  datatype CollapsibleButton = CollapsibleButton(
    text: string,
    icon: Option<string>,
    tooltip: Option<string>,
    selected: bool)

  function NewButton(text: string): (b: CollapsibleButton)
    ensures b.text == text && b.icon.None? && b.tooltip.None? && !b.selected
  {
    CollapsibleButton(text, None, None, false)
  }

  function WithIcon(b: CollapsibleButton, icon: string): (r: CollapsibleButton)
    ensures r.icon == Some(icon)
    ensures r.text == b.text && r.tooltip == b.tooltip && r.selected == b.selected
  {
    b.(icon := Some(icon))
  }

  function WithTooltip(b: CollapsibleButton, tooltip: string): (r: CollapsibleButton)
    ensures r.tooltip == Some(tooltip)
    ensures r.text == b.text && r.icon == b.icon && r.selected == b.selected
  {
    b.(tooltip := Some(tooltip))
  }

  function Selected(b: CollapsibleButton, selected: bool): (r: CollapsibleButton)
    ensures r.selected == selected
    ensures r.text == b.text && r.icon == b.icon && r.tooltip == b.tooltip
  {
    b.(selected := selected)
  }

  /** Every strip button shows its tooltip on hover, or its text without one. */
  function HoverText(b: CollapsibleButton): (t: string)
    ensures b.tooltip.Some? ==> t == b.tooltip.value
    ensures b.tooltip.None? ==> t == b.text
  {
    if b.tooltip.Some? then b.tooltip.value else b.text
  }

  // ---------------------------------------------------------------------
  // Custom vector icons referenced as "svg:<name>"

  const SvgPrefix: string := "svg:"

  /** The name after the "svg:" tag, when the icon string carries it. */
  function SvgName(icon: Option<string>): (n: Option<string>)
    ensures n.Some? <==> icon.Some? && |icon.value| >= |SvgPrefix| && icon.value[..|SvgPrefix|] == SvgPrefix
    ensures n.Some? ==> icon.value == SvgPrefix + n.value
  {
    if icon.Some? && |icon.value| >= |SvgPrefix| && icon.value[..|SvgPrefix|] == SvgPrefix
    then
      assert icon.value == icon.value[..|SvgPrefix|] + icon.value[|SvgPrefix|..];
      Some(icon.value[|SvgPrefix|..])
    else None
  }

  datatype SvgIcon = SceneTree | Properties | Console | Files | Terminal | Settings | Close

  /** The tag name of each custom icon. */
  function SvgIconName(i: SvgIcon): string
  {
    match i
    case SceneTree => "SceneTree"
    case Properties => "Properties"
    case Console => "Console"
    case Files => "Files"
    case Terminal => "Terminal"
    case Settings => "Settings"
    case Close => "Close"
  }

  /** The custom icons `draw_custom_svg_icon` draws; any other name is drawn
      as a plain dot (None). */
  function DrawnSvgIcon(name: string): Option<SvgIcon>
  {
    if name == "SceneTree" then Some(SceneTree)
    else if name == "Properties" then Some(Properties)
    else if name == "Console" then Some(Console)
    else if name == "Files" then Some(Files)
    else if name == "Terminal" then Some(Terminal)
    else if name == "Settings" then Some(Settings)
    else if name == "Close" then Some(Close)
    else None
  }

  /** The custom icons `render_custom_svg_button` recognises: the same list
      without "Close". */
  function CustomButtonIcon(icon: Option<string>): Option<SvgIcon>
  {
    var n := SvgName(icon);
    if n.None? then None
    else if n.value == "SceneTree" then Some(SceneTree)
    else if n.value == "Properties" then Some(Properties)
    else if n.value == "Console" then Some(Console)
    else if n.value == "Files" then Some(Files)
    else if n.value == "Terminal" then Some(Terminal)
    else if n.value == "Settings" then Some(Settings)
    else None
  }

  /** Each custom icon is found again from its tag, by both lookups except
      that the horizontal strip's lookup has no "Close". */
  lemma SvgIconRoundTrip(i: SvgIcon)
    ensures DrawnSvgIcon(SvgIconName(i)) == Some(i)
    ensures SvgName(Some(SvgPrefix + SvgIconName(i))) == Some(SvgIconName(i))
    ensures CustomButtonIcon(Some(SvgPrefix + SvgIconName(i))) == (if i == Close then None else Some(i))
  {
    var s := SvgPrefix + SvgIconName(i);
    assert s[..|SvgPrefix|] == SvgPrefix;
    assert s[|SvgPrefix|..] == SvgIconName(i);
  }

  /** A name that is not one of the seven tags falls back to the dot. */
  lemma DrawnSvgIconFallback(name: string)
    ensures DrawnSvgIcon(name).None? <==> forall i: SvgIcon :: SvgIconName(i) != name
  {
    if DrawnSvgIcon(name).Some? {
      assert SvgIconName(DrawnSvgIcon(name).value) == name;
    }
  }

  // ---------------------------------------------------------------------
  // Icons chosen from the button text

  /** Phosphor glyphs of the horizontal (top/bottom) strip. */
  datatype PhosphorGlyph =
    | MagnifyingGlass | Folder | Warning | ClockCounterClockwise | Gear
    | TreeStructure | ListBullets | TerminalGlyph | Circle

  /** The button text each glyph is chosen for; `Circle` is the fallback. */
  function PhosphorLabel(g: PhosphorGlyph): string
  {
    match g
    case MagnifyingGlass => "Search"
    case Folder => "Files"
    case Warning => "Diagnostics"
    case ClockCounterClockwise => "History"
    case Gear => "Settings"
    case TreeStructure => "场景树"
    case ListBullets => "属性"
    case TerminalGlyph => "控制台"
    case Circle => ""
  }

  function PhosphorIconFor(text: string): PhosphorGlyph
  {
    if text == "Search" then MagnifyingGlass
    else if text == "Files" then Folder
    else if text == "Diagnostics" then Warning
    else if text == "History" then ClockCounterClockwise
    else if text == "Settings" then Gear
    else if text == "场景树" then TreeStructure
    else if text == "属性" then ListBullets
    else if text == "控制台" then TerminalGlyph
    else Circle
  }

  /** Every named glyph is chosen for its own label, and any text that is not
      one of the eight labels gets the fallback circle. */
  lemma PhosphorLookup(text: string)
    ensures forall g :: g != Circle ==> PhosphorIconFor(PhosphorLabel(g)) == g
    ensures PhosphorIconFor(text) == Circle <==> forall g :: g != Circle ==> PhosphorLabel(g) != text
    ensures PhosphorIconFor(text) != Circle ==> PhosphorLabel(PhosphorIconFor(text)) == text
  {
    forall g | g != Circle ensures PhosphorIconFor(PhosphorLabel(g)) == g {
      match g
      case MagnifyingGlass =>
      case Folder =>
      case Warning =>
      case ClockCounterClockwise =>
      case Gear =>
      case TreeStructure =>
      case ListBullets =>
      case TerminalGlyph =>
    }
    if PhosphorIconFor(text) != Circle {
      var g := PhosphorIconFor(text);
      assert g != Circle && PhosphorLabel(g) == text;
    }
  }

  /** Glyphs `draw_button_icon` draws by hand for the vertical strip. */
  datatype HandGlyph = TreeLines | ListLines | TerminalBox | Dot

  function HandGlyphFor(text: string): HandGlyph
  {
    if text == "场景树" then TreeLines
    else if text == "属性" then ListLines
    else if text == "控制台" then TerminalBox
    else Dot
  }

  /** The icon a horizontal-strip button shows: a custom icon when its icon
      string is tagged "svg:", otherwise a Phosphor glyph from its text. */
  datatype HorizontalIcon = CustomIcon(custom: Option<SvgIcon>) | PhosphorIcon(glyph: PhosphorGlyph)

  function HorizontalStripIcon(b: CollapsibleButton): (r: HorizontalIcon)
    ensures r.CustomIcon? <==> SvgName(b.icon).Some?
    ensures r.CustomIcon? ==> r.custom == CustomButtonIcon(b.icon)
    ensures r.PhosphorIcon? ==> r.glyph == PhosphorIconFor(b.text)
  {
    if SvgName(b.icon).Some? then CustomIcon(CustomButtonIcon(b.icon))
    else PhosphorIcon(PhosphorIconFor(b.text))
  }

  /** The icon a vertical-strip button shows: the custom icon named after
      "svg:", otherwise a hand-drawn glyph chosen from its text. */
  datatype VerticalIcon = DrawnCustom(custom: Option<SvgIcon>) | HandDrawn(glyph: HandGlyph)

  function VerticalStripIcon(b: CollapsibleButton): (r: VerticalIcon)
    ensures r.DrawnCustom? <==> SvgName(b.icon).Some?
    ensures r.DrawnCustom? ==> r.custom == DrawnSvgIcon(SvgName(b.icon).value)
    ensures r.HandDrawn? ==> r.glyph == HandGlyphFor(b.text)
  {
    var n := SvgName(b.icon);
    if n.Some? then DrawnCustom(DrawnSvgIcon(n.value)) else HandDrawn(HandGlyphFor(b.text))
  }

  /** The two strips agree on every tagged custom icon except "Close", which
      only the vertical strip draws. */
  lemma StripsAgreeOnCustomIcons(b: CollapsibleButton, i: SvgIcon)
    requires b.icon == Some(SvgPrefix + SvgIconName(i))
    ensures VerticalStripIcon(b) == DrawnCustom(Some(i))
    ensures HorizontalStripIcon(b) == CustomIcon(if i == Close then None else Some(i))
  {
    SvgIconRoundTrip(i);
  }
}
