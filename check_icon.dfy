/** The check-filter icon of the multi-select widget: its title, chosen from the
    `|`-separated `data-titles` attribute, and its colour classes, chosen from
    the `|`-separated groups of space-separated class names in `data-colors`. */
module CheckIcon {
  import opened Wrappers
  import opened JsStrings

  /** `ds.titles && ds.titles.trim().split("|") || ["", ""]`. */
  function Titles(attr: Option<string>): (ts: seq<string>)
    ensures |ts| >= 1
  {
    if attr.None? || attr.value == "" then ["", ""] else Split(Trim(attr.value), '|')
  }

  /** A non-empty `data-titles` is cut at each `|` and nowhere else: the
      entries hold no `|` and, joined with `|`, give back the trimmed
      attribute. */
  lemma TitlesRejoin(attr: string)
    requires attr != ""
    ensures Join(Titles(Some(attr)), '|') == Trim(attr)
    ensures forall t <- Titles(Some(attr)) :: '|' !in t
  {
    JoinSplit(Trim(attr), '|');
  }

  /** The text written into the icon's `title`: `titles[checked ? 1 : 0]`, and
      the string "undefined" when the list has no such entry. */
  function TitleFor(attr: Option<string>, checked: bool): (title: string)
    ensures (attr.None? || attr == Some("")) ==> title == ""
  {
    var ts := Titles(attr);
    var k := if checked then 1 else 0;
    if k < |ts| then ts[k] else "undefined"
  }

  /** `"a|b"` with neither half holding `|`, not starting or ending in white
      space. */
  predicate WellFormedPair(a: string, b: string) {
    '|' !in a && '|' !in b
    && (a != [] ==> !IsJsSpace(a[0])) && (b != [] ==> !IsJsSpace(b[|b| - 1]))
  }

  /** A well-formed pair splits back into its two halves. */
  lemma PairGroups(a: string, b: string)
    requires WellFormedPair(a, b)
    ensures Split(Trim(a + "|" + b), '|') == [a, b]
  {
    var s := a + "|" + b;
    assert s[0] == if a == [] then '|' else a[0];
    assert s[|s| - 1] == if b == [] then '|' else b[|b| - 1];
    TrimUnchanged(s);
    SplitPair(a, '|', b);
  }

  /** A title list of two entries: the first is the "off" title, the second
      the "on" title. */
  lemma TitleOfGroups(attr: string, a: string, b: string, checked: bool)
    requires attr != "" && Split(Trim(attr), '|') == [a, b]
    ensures TitleFor(Some(attr), checked) == if checked then b else a
  {
    assert Titles(Some(attr)) == [a, b];
  }

  /** With `data-titles="a|b"`, the title reads `a` when off and `b` when on. */
  lemma TitleOfPair(a: string, b: string, checked: bool)
    requires WellFormedPair(a, b)
    ensures TitleFor(Some(a + "|" + b), checked) == if checked then b else a
  {
    var attr := a + "|" + b;
    assert attr != "" by {
      assert |attr| == |a| + 1 + |b|;
    }
    PairGroups(a, b);
    TitleOfGroups(attr, a, b, checked);
  }

  /** The icon's class set after recolouring, and whether a `TypeError` was
      thrown on the way (`colors[1]` missing: `undefined.split`). */
  datatype Painted = Painted(classes: set<string>, threw: bool)

  /** `ds.colors.trim().split("|")`. */
  function ColorGroups(attr: string): (gs: seq<string>)
    ensures |gs| >= 1
  {
    Split(Trim(attr), '|')
  }

  /** `data-colors` is cut at each `|` and nowhere else: the groups hold no
      `|` and, joined with `|`, give back the trimmed attribute. */
  lemma ColorGroupsRejoin(attr: string)
    ensures Join(ColorGroups(attr), '|') == Trim(attr)
    ensures forall g <- ColorGroups(attr) :: '|' !in g
  {
    JoinSplit(Trim(attr), '|');
  }

  /** The colour update of `updateCheckIconState`. With some option checked, the
      classes of the group for the other state are removed and those of the
      group for `checked` added; with none checked, both groups are removed
      (the icon looks disabled). An absent or empty `data-colors` leaves the
      classes alone. */
  function Recolor(classes: set<string>, colors: Option<string>, checked: bool, hasChecks: bool): (p: Painted)
    ensures (colors.None? || colors == Some("")) ==> p == Painted(classes, false)
    ensures p.threw <==> colors.Some? && colors.value != "" && |ColorGroups(colors.value)| < 2
    ensures p.classes - classes <=
      if hasChecks && colors.Some? && |ColorGroups(colors.value)| >= 2
      then Tokens(ColorGroups(colors.value)[if checked then 1 else 0]) else {}
    ensures colors.Some? && colors.value != "" && |ColorGroups(colors.value)| >= 2 ==>
      var gs := ColorGroups(colors.value);
      var off, on := Tokens(gs[if checked then 0 else 1]), Tokens(gs[if checked then 1 else 0]);
      && (hasChecks ==> on <= p.classes && (off - on) !! p.classes)
      && (!hasChecks ==> (Tokens(gs[0]) + Tokens(gs[1])) !! p.classes)
      && (forall c :: c !in Tokens(gs[0]) && c !in Tokens(gs[1]) ==> (c in p.classes <==> c in classes))
    ensures p.threw ==>
      var gs := ColorGroups(colors.value);
      p.classes == if hasChecks && !checked then classes else classes - Tokens(gs[0])
  {
    if colors.None? || colors.value == "" then Painted(classes, false)
    else
      var gs := ColorGroups(colors.value);
      if hasChecks then
        var off := if checked then 0 else 1;
        var on := if checked then 1 else 0;
        if off >= |gs| then Painted(classes, true)
        else
          var removed := classes - Tokens(gs[off]);
          if on >= |gs| then Painted(removed, true)
          else Painted(removed + Tokens(gs[on]), false)
      else
        var removed := classes - Tokens(gs[0]);
        if |gs| < 2 then Painted(removed, true)
        else Painted(removed - Tokens(gs[1]), false)
  }

  /** With `data-colors="a|b"` (class names of the "off" colour, then of the
      "on" colour): when some option is checked the icon carries every class of
      its state's group and none of the other group's that its own group lacks;
      when none is checked it carries no class of either. No other class
      changes and nothing throws. */
  lemma RecolorPair(classes: set<string>, a: string, b: string, checked: bool, hasChecks: bool)
    requires WellFormedPair(a, b)
    ensures var p := Recolor(classes, Some(a + "|" + b), checked, hasChecks);
      var off, on := Tokens(if checked then a else b), Tokens(if checked then b else a);
      && !p.threw
      && (hasChecks ==> on <= p.classes && (off - on) !! p.classes)
      && (!hasChecks ==> (Tokens(a) + Tokens(b)) !! p.classes)
      && (forall c :: c !in Tokens(a) && c !in Tokens(b) ==> (c in p.classes <==> c in classes))
  {
    PairGroups(a, b);
  }
}
