/** src/components/ThemeSelector.tsx: which themes the two selectors show, in
    which order, and which card is marked selected. */
module ThemeSelector {

  import opened Wrappers
  import opened ThemeModel
  import Themes

  // ---------------------------------------------------------------------------
  // Ordering by display name
  // ---------------------------------------------------------------------------

  /** Code-point lexicographic order, standing in for `localeCompare`: `a` sorts
      no later than `b`. */
  predicate NameLe(a: string, b: string) {
    a == [] || (b != [] && (a[0] < b[0] || (a[0] == b[0] && NameLe(a[1..], b[1..]))))
  }

  lemma {:induction false} NameLeTotal(a: string, b: string)
    ensures NameLe(a, b) || NameLe(b, a)
  {
    if a != [] && b != [] && a[0] == b[0] {
      NameLeTotal(a[1..], b[1..]);
    }
  }

  lemma {:induction false} NameLeTransitive(a: string, b: string, c: string)
    requires NameLe(a, b) && NameLe(b, c)
    ensures NameLe(a, c)
  {
    if a != [] && b != [] && c != [] && a[0] == b[0] && b[0] == c[0] {
      NameLeTransitive(a[1..], b[1..], c[1..]);
    }
  }

  lemma {:induction false} NameLeAntisymmetric(a: string, b: string)
    requires NameLe(a, b) && NameLe(b, a)
    ensures a == b
  {
    if a != [] && b != [] {
      NameLeAntisymmetric(a[1..], b[1..]);
      assert a == [a[0]] + a[1..] && b == [b[0]] + b[1..];
    }
  }

  ghost predicate SortedByName(s: seq<Theme>) {
    forall i, j :: 0 <= i < j < |s| ==> NameLe(s[i].displayName, s[j].displayName)
  }

  /** Places `t` before the first theme whose name it does not follow, so themes
      with equal names keep their relative order. */
  function InsertByName(t: Theme, sorted: seq<Theme>): (r: seq<Theme>)
    ensures multiset(r) == multiset(sorted) + multiset{t}
    ensures |r| == |sorted| + 1
  {
    if sorted == [] || NameLe(t.displayName, sorted[0].displayName) then [t] + sorted
    else
      assert sorted == [sorted[0]] + sorted[1..];
      [sorted[0]] + InsertByName(t, sorted[1..])
  }

  lemma {:induction false} InsertByNameSorted(t: Theme, sorted: seq<Theme>)
    requires SortedByName(sorted)
    ensures SortedByName(InsertByName(t, sorted))
  {
    var r := InsertByName(t, sorted);
    if sorted == [] {
    } else if NameLe(t.displayName, sorted[0].displayName) {
      forall j | 1 <= j < |r| ensures NameLe(r[0].displayName, r[j].displayName) {
        assert r[j] == sorted[j - 1];
        if j > 1 {
          NameLeTransitive(t.displayName, sorted[0].displayName, sorted[j - 1].displayName);
        }
      }
    } else {
      var rest := InsertByName(t, sorted[1..]);
      InsertByNameSorted(t, sorted[1..]);
      NameLeTotal(t.displayName, sorted[0].displayName);
      forall j | 1 <= j < |r| ensures NameLe(r[0].displayName, r[j].displayName) {
        assert r[j] == rest[j - 1];
        assert rest[j - 1] in multiset(rest);
        assert rest[j - 1] == t || rest[j - 1] in multiset(sorted[1..]);
        if rest[j - 1] != t {
          var k :| 0 <= k < |sorted[1..]| && sorted[1..][k] == rest[j - 1];
          assert sorted[k + 1] == rest[j - 1];
        }
      }
    }
  }

  /** A stable sort by display name. */
  function SortByName(themes: seq<Theme>): (r: seq<Theme>)
    ensures multiset(r) == multiset(themes)
    ensures |r| == |themes|
  {
    if themes == [] then []
    else
      assert themes == [themes[0]] + themes[1..];
      InsertByName(themes[0], SortByName(themes[1..]))
  }

  lemma {:induction false} SortByNameSorted(themes: seq<Theme>)
    ensures SortedByName(SortByName(themes))
  {
    if themes != [] {
      SortByNameSorted(themes[1..]);
      InsertByNameSorted(themes[0], SortByName(themes[1..]));
    }
  }

  // ---------------------------------------------------------------------------
  // ThemeSelector
  // ---------------------------------------------------------------------------

  /** What `filter` keeps of one theme. */
  function KeepVisible(t: Theme): seq<Theme> {
    if Themes.HasTag(t, "hidden") then [] else [t]
  }

  /** `availableThemes` without the themes tagged `hidden`, in their order. */
  function VisibleThemes(available: seq<Theme>): (r: seq<Theme>)
    ensures forall t :: t in r <==> t in available && !Themes.HasTag(t, "hidden")
    ensures |r| <= |available|
  {
    if available == [] then []
    else
      var rest := VisibleThemes(available[1..]);
      assert forall t :: t in available <==> t == available[0] || t in available[1..];
      KeepVisible(available[0]) + rest
  }

  /** Each visible theme is kept as often as it is available, and no hidden one is. */
  lemma {:induction false} VisibleThemesCounts(available: seq<Theme>, t: Theme)
    ensures multiset(VisibleThemes(available))[t] == if Themes.HasTag(t, "hidden") then 0 else multiset(available)[t]
    decreases |available|
  {
    if available != [] {
      assert available == [available[0]] + available[1..];
      assert multiset(available) == multiset{available[0]} + multiset(available[1..]);
      VisibleThemesCounts(available[1..], t);
    }
  }

  /** `filter` keeps order: one theme is kept exactly when it is not hidden, and a
      list split in two gives the visible themes of the first part followed by
      those of the second. */
  lemma {:induction false} VisibleThemesIsFilter(a: seq<Theme>, b: seq<Theme>, t: Theme)
    ensures VisibleThemes([t]) == if Themes.HasTag(t, "hidden") then [] else [t]
    ensures VisibleThemes(a + b) == VisibleThemes(a) + VisibleThemes(b)
    decreases |a|
  {
    assert [t][1..] == [];
    if a == [] {
      assert a + b == b;
    } else {
      assert (a + b)[0] == a[0] && (a + b)[1..] == a[1..] + b;
      VisibleThemesIsFilter(a[1..], b, t);
      calc {
        VisibleThemes(a + b);
        KeepVisible(a[0]) + VisibleThemes(a[1..] + b);
        KeepVisible(a[0]) + (VisibleThemes(a[1..]) + VisibleThemes(b));
        (KeepVisible(a[0]) + VisibleThemes(a[1..])) + VisibleThemes(b);
      }
    }
  }

  /** The "Example Themes" list. */
  function ExampleThemes(available: seq<Theme>): seq<Theme> {
    SortByName(VisibleThemes(available))
  }

  /** The example list holds exactly the visible themes, each as often as it is
      available, ordered by display name. */
  lemma ExampleThemesAreSortedVisible(available: seq<Theme>)
    ensures forall t :: t in ExampleThemes(available) <==> t in available && !Themes.HasTag(t, "hidden")
    ensures multiset(ExampleThemes(available)) == multiset(VisibleThemes(available))
    ensures forall t ::
      multiset(ExampleThemes(available))[t] == if Themes.HasTag(t, "hidden") then 0 else multiset(available)[t]
    ensures SortedByName(ExampleThemes(available))
  {
    SortByNameSorted(VisibleThemes(available));
    forall t ensures multiset(ExampleThemes(available))[t] ==
      if Themes.HasTag(t, "hidden") then 0 else multiset(available)[t]
    {
      VisibleThemesCounts(available, t);
    }
    var r := ExampleThemes(available);
    forall t ensures t in r <==> t in VisibleThemes(available) {
      assert t in r <==> t in multiset(r);
      assert t in VisibleThemes(available) <==> t in multiset(VisibleThemes(available));
    }
  }

  datatype Card = Card(theme: Theme, isSelected: bool)

  /** A card marks its theme selected when it has the current theme's name. */
  function CardsFor(current: Theme, themes: seq<Theme>): (r: seq<Card>)
    ensures |r| == |themes|
    ensures forall i :: 0 <= i < |r| ==> r[i].theme == themes[i]
    ensures forall i :: 0 <= i < |r| ==> (r[i].isSelected <==> themes[i].name == current.name)
  {
    seq(|themes|, i requires 0 <= i < |themes| => Card(themes[i], current.name == themes[i].name))
  }

  /** What `ThemeSelector` renders. */
  datatype SelectorView = Loading | LoadError(message: string) | NoTheme | Examples(cards: seq<Card>)

  function ThemeSelectorView(isLoading: bool, error: Option<string>, current: Option<Theme>,
                             available: seq<Theme>): (r: SelectorView)
    ensures isLoading ==> r == Loading
    ensures !isLoading && error.Some? && error.value != "" ==> r == LoadError(error.value)
    ensures !isLoading && !(error.Some? && error.value != "") ==> (r == NoTheme <==> current.None?)
    ensures !isLoading && !(error.Some? && error.value != "") && current.Some? ==> r.Examples?
    ensures r.Examples? ==> current.Some? && r.cards == CardsFor(current.value, ExampleThemes(available))
  {
    if isLoading then Loading
    else if error.Some? && error.value != "" then LoadError(error.value)
    else if current.None? then NoTheme
    else Examples(CardsFor(current.value, ExampleThemes(available)))
  }

  // ---------------------------------------------------------------------------
  // ThemeSelectorSimple
  // ---------------------------------------------------------------------------

  /** `availableThemes.find` by name: the first theme with that name. */
  function FindByName(available: seq<Theme>, name: string): (r: Option<Theme>)
    ensures r.Some? ==> r.value in available && r.value.name == name
    ensures r.None? ==> forall t :: t in available ==> t.name != name
    ensures r.Some? ==>
      exists i :: 0 <= i < |available| && available[i] == r.value
                  && (forall j :: 0 <= j < i ==> available[j].name != name)
  {
    if available == [] then None
    else if available[0].name == name then Some(available[0])
    else
      var r := FindByName(available[1..], name);
      assert forall t :: t in available <==> t == available[0] || t in available[1..];
      assert forall i :: 0 <= i < |available[1..]| ==> available[1..][i] == available[i + 1];
      r
  }

  /** The third quick-pick theme: the last used non-core theme when it is
      available, `colorful` otherwise. */
  function ThirdTheme(available: seq<Theme>, lastUsed: Option<string>): (r: Option<Theme>)
    ensures lastUsed.Some? && lastUsed.value != "" && FindByName(available, lastUsed.value).Some? ==>
      r == FindByName(available, lastUsed.value)
    ensures (lastUsed.None? || lastUsed.value == "" || FindByName(available, lastUsed.value).None?) ==>
      r == FindByName(available, "colorful")
  {
    var last := if lastUsed.Some? && lastUsed.value != "" then FindByName(available, lastUsed.value) else None;
    if last.Some? then last else FindByName(available, "colorful")
  }

  function Present(picks: seq<Option<Theme>>): (r: seq<Theme>)
    ensures |r| <= |picks|
    ensures forall t :: t in r <==> Some(t) in picks
  {
    if picks == [] then []
    else
      assert forall o :: o in picks <==> o == picks[0] || o in picks[1..];
      (if picks[0].Some? then [picks[0].value] else []) + Present(picks[1..])
  }

  /** `Present` keeps the order of the picks: one pick gives its theme exactly when
      it is present, and a list split in two gives the themes of the first part
      followed by those of the second. */
  lemma {:induction false} PresentIsFilter(a: seq<Option<Theme>>, b: seq<Option<Theme>>, o: Option<Theme>)
    ensures Present([o]) == if o.Some? then [o.value] else []
    ensures Present(a + b) == Present(a) + Present(b)
    decreases |a|
  {
    assert [o][1..] == [];
    if a == [] {
      assert a + b == b;
    } else {
      assert (a + b)[0] == a[0] && (a + b)[1..] == a[1..] + b;
      PresentIsFilter(a[1..], b, o);
    }
  }

  /** The quick picker's themes: light, dark and the third, leaving out any missing. */
  function QuickPickThemes(available: seq<Theme>, lastUsed: Option<string>): seq<Theme> {
    Present([FindByName(available, "light"), FindByName(available, "dark"), ThirdTheme(available, lastUsed)])
  }

  /** The quick picks are the picks of light, of dark and of the third, in turn. */
  lemma QuickPickParts(available: seq<Theme>, lastUsed: Option<string>)
    ensures QuickPickThemes(available, lastUsed) ==
      Present([FindByName(available, "light")]) + Present([FindByName(available, "dark")])
        + Present([ThirdTheme(available, lastUsed)])
  {
    PresentOfThree(FindByName(available, "light"), FindByName(available, "dark"), ThirdTheme(available, lastUsed));
  }

  lemma PresentOfThree(a: Option<Theme>, b: Option<Theme>, c: Option<Theme>)
    ensures Present([a, b, c]) == Present([a]) + Present([b]) + Present([c])
  {
    assert [a, b, c] == [a] + ([b] + [c]);
    PresentIsFilter([a], [b] + [c], a);
    PresentIsFilter([b], [c], b);
  }

  function CountPresent(o: Option<Theme>): nat {
    if o.Some? then 1 else 0
  }

  /** Only the present picks, all available, in the order light, dark, third. */
  lemma QuickPickShape(available: seq<Theme>, lastUsed: Option<string>)
    ensures var r := QuickPickThemes(available, lastUsed);
      && |r| == CountPresent(FindByName(available, "light")) + CountPresent(FindByName(available, "dark"))
                + CountPresent(ThirdTheme(available, lastUsed))
      && |r| <= 3
      && (forall t :: t in r ==> t in available)
      && (FindByName(available, "light").Some? ==> r[0] == FindByName(available, "light").value)
      && (FindByName(available, "light").Some? && FindByName(available, "dark").Some? ==>
            r[1] == FindByName(available, "dark").value)
      && (FindByName(available, "light").None? && FindByName(available, "dark").Some? ==>
            r[0] == FindByName(available, "dark").value)
      && (ThirdTheme(available, lastUsed).Some? ==> r[|r| - 1] == ThirdTheme(available, lastUsed).value)
  {
    var light, dark, third := FindByName(available, "light"), FindByName(available, "dark"), ThirdTheme(available, lastUsed);
    QuickPickParts(available, lastUsed);
    PresentIsFilter([], [], light);
    PresentIsFilter([], [], dark);
    PresentIsFilter([], [], third);
  }

  datatype SimpleView = SimpleLoading | QuickPicks(cards: seq<Card>)

  function ThemeSelectorSimpleView(isLoading: bool, current: Option<Theme>, available: seq<Theme>,
                                   lastUsed: Option<string>): (r: SimpleView)
    ensures isLoading || current.None? <==> r == SimpleLoading
    ensures r.QuickPicks? ==> r.cards == CardsFor(current.value, QuickPickThemes(available, lastUsed))
  {
    if isLoading || current.None? then SimpleLoading
    else QuickPicks(CardsFor(current.value, QuickPickThemes(available, lastUsed)))
  }
}
