/** The theme record the application edits. Its type belongs to the
    theme-o-rama library; this module keeps the fields the core reads or writes
    and gathers every other property into maps, so that an object spread
    (`{ ...theme, field }`) can be seen to copy them. */
module ThemeModel {

  import opened Wrappers

  /** A JavaScript property that may be absent, explicitly `null`, or a string. */
  datatype Prop = Unset | Null | Str(value: string)
  {
    /** JavaScript truthiness: only a non-empty string is truthy. */
    predicate Truthy() {
      Str? && value != ""
    }
  }

  datatype Inherits = InheritsLight | InheritsDark | InheritsColor
  datatype MostLike = MostLikeLight | MostLikeDark

  /** `theme.colors`: the background colour and the three backdrop filters the
      store writes, plus the other named colours. */
  datatype Colors = Colors(
    background: Prop,
    cardBackdropFilter: Prop,
    popoverBackdropFilter: Prop,
    inputBackdropFilter: Prop,
    palette: map<string, string>)

  /** `theme.sidebar` and the header, row and footer of `theme.tables`. */
  datatype Panel = Panel(backdropFilter: Prop, other: map<string, string>)

  datatype Tables = Tables(header: Panel, row: Panel, footer: Panel, other: map<string, string>)

  datatype Theme = Theme(
    name: string,
    displayName: string,
    schemaVersion: int,
    inherits: Option<Inherits>,
    mostLike: Option<MostLike>,
    tags: Option<seq<string>>,
    buttonStyle: Option<string>,
    backgroundImage: Option<string>,
    colors: Colors,
    sidebar: Panel,
    tables: Tables,
    other: map<string, string>)

  const EmptyPanel: Panel := Panel(Unset, map[])
  const EmptyTables: Tables := Tables(EmptyPanel, EmptyPanel, EmptyPanel, map[])

  const DesignThemeName: string := "theme-a-roo-custom-theme"

  const DefaultTheme: Theme := Theme(
    name := DesignThemeName,
    displayName := "Design",
    schemaVersion := 1,
    inherits := Some(InheritsLight),
    mostLike := Some(MostLikeLight),
    tags := None,
    buttonStyle := None,
    backgroundImage := None,
    colors := Colors(
      background := Str("lightgray"),
      cardBackdropFilter := Unset,
      popoverBackdropFilter := Unset,
      inputBackdropFilter := Unset,
      palette := map[
        "foreground" := "#2C323C",
        "themeColor" := "hsl(92, 20%, 42%)",
        "primary" := "#324053",
        "primaryForeground" := "#dfff75",
        "secondary" := "#b4bfdf",
        "secondaryForeground" := "#2C323C",
        "muted" := "#dbecfb",
        "mutedForeground" := "#2C323C",
        "accent" := "#dfff75",
        "accentForeground" := "#2C323C",
        "destructive" := "#ef4343",
        "destructiveForeground" := "#fafafa"]),
    sidebar := EmptyPanel,
    tables := EmptyTables,
    other := map[])
}
