/** The multi-select hook (`MultiSelectHook` of the component's JavaScript): the
    hook id, the resize-driven wrap detector, the client-side option filter and
    the check-filter icon with its clear and check handlers. Document look-ups
    are resolved once: the hook owns the state of the elements it touches. */
module MultiSelect {
  import opened Wrappers
  import opened JsStrings
  import opened Events
  import opened WrapDetect
  import opened OptionFilter
  import opened CheckIcon

  /** The hook id: the root element's id without one trailing `-tags`. */
  function HookId(elId: string): (id: string)
    ensures EndsWith(elId, "-tags") ==> id + "-tags" == elId
    ensures !EndsWith(elId, "-tags") ==> id == elId
  {
    if EndsWith(elId, "-tags") then elId[..|elId| - 5] else elId
  }

  /** The root element of a widget with id `base` is `base-tags`, and the hook
      recovers `base` from it; only one suffix is removed. */
  lemma HookIdOfTags(base: string)
    ensures HookId(base + "-tags") == base
  {
    assert EndsWith(base + "-tags", "-tags");
    assert (base + "-tags")[..|base|] == base;
  }

  /** The `data-*` attributes of the check-filter icon. */
  datatype IconDataset = IconDataset(
    titles: Option<string>, colors: Option<string>, filterside: Option<string>, target: Option<string>)

  /** What the hook writes on the check-filter icon: its `value` property, the
      text of its `title` element and its classes. */
  datatype Icon = Icon(value: string, title: string, classes: set<string>)

  /** The `search` push of a filter pass, made only for server-side filtering. */
  function SearchPush(data: Dataset, filter: string): (es: seq<Event>)
    ensures es != [] <==> data.filterside == Some("server")
  {
    if data.filterside == Some("server") then [Search(data.target, filter)] else []
  }

  class MultiSelectHook {
    /** The root element: its id and its `data-*` attributes. */
    const elId: string
    var data: Dataset
    /** `this.id`, `null` until mounted. */
    var id: Option<string>
    /** The filter text box (`this.filter.value`). */
    var filterText: string
    /** The hidden input holding the check-filter state (`this.inputS1.value`). */
    var checkInput: string
    /** The check-filter icon (`this.iconS1`): its attributes and its state. */
    var iconData: IconDataset
    var icon: Icon
    /** The option rows, in document order. */
    const opts: array<OptionItem>
    const engine: RegexEngine
    /** The last wrap state reported, and every event pushed so far. */
    var wasWrapped: bool
    var events: seq<Event>
    /** Whether the resize observer has been installed. */
    var observing: bool

    /** The reported wrap states alternate, starting with `true`. */
    ghost predicate Valid()
      reads this`wasWrapped, this`events
    {
      Alternating(Detector(wasWrapped, events))
    }

    /** The hook as the page holds it before `mounted`. */
    constructor(elId: string, data: Dataset, iconData: IconDataset, icon: Icon,
                filterText: string, checkInput: string, opts: array<OptionItem>, engine: RegexEngine)
      ensures Valid()
      ensures this.elId == elId && this.data == data && this.iconData == iconData && this.icon == icon
      ensures this.filterText == filterText && this.checkInput == checkInput
      ensures this.opts == opts && this.engine == engine
      ensures id == None && !wasWrapped && events == [] && !observing
    {
      this.elId, this.data, this.iconData, this.icon := elId, data, iconData, icon;
      this.filterText, this.checkInput := filterText, checkInput;
      this.opts, this.engine := opts, engine;
      id, wasWrapped, events, observing := None, false, [], false;
      InitialAlternating();
    }

    /** The first loop of `applyFilter`: whether some option is checked,
        stopping at the first that is. */
    static method AnyChecked(opts: array<OptionItem>) returns (hasChecks: bool)
      ensures hasChecks == HasChecks(opts[..])
    {
      hasChecks := false;
      var i := 0;
      while i < opts.Length
        invariant 0 <= i <= opts.Length
        invariant forall j :: 0 <= j < i ==> !opts[j].checked
      {
        if opts[i].checked {
          hasChecks := true;
          break;
        }
        i := i + 1;
      }
    }

    /** `applyFilter`: note whether any option is checked, then show or hide
        every option row, then push `search` for server-side filtering. */
    method ApplyFilter() returns (hasChecks: bool)
      requires Valid()
      modifies opts, this`events
      ensures Valid()
      ensures hasChecks == HasChecks(old(opts[..]))
      ensures opts[..] == Refilter(old(opts[..]), engine, filterText, checkInput == "true")
      ensures events == old(events) + SearchPush(data, filterText)
    {
      var filterVal := filterText;
      var filterChecked := checkInput == "true";
      hasChecks := AnyChecked(opts);

      var rex := Compile(engine, filterVal);
      var i := 0;
      while i < opts.Length
        invariant 0 <= i <= opts.Length
        invariant forall j :: 0 <= j < i ==>
          opts[j] == old(opts[j]).(hidden := !Shown(engine, filterVal, filterChecked, old(opts[j])))
        invariant forall j :: i <= j < opts.Length ==> opts[j] == old(opts[j])
        invariant events == old(events)
      {
        var show := ((filterVal == "" || Test(engine, rex, opts[i].text)) && !filterChecked)
                    || (filterChecked && opts[i].checked);
        opts[i] := opts[i].(hidden := !show);
        i := i + 1;
      }
      assert opts[..] == Refilter(old(opts[..]), engine, filterVal, filterChecked);

      var pushed := SearchPush(data, filterVal);
      if pushed != [] {
        PushOtherAlternating(Detector(wasWrapped, events), pushed[0]);
        assert pushed == [pushed[0]];
        events := events + pushed;
      }
    }

    /** `updateCheckIconState(checked)`: record the state in the hidden input
        and the icon, retitle the icon, refilter, recolour the icon, and push
        `filter {icon: 'check'}` for server-side filtering. `ok` is false when
        recolouring threw, which skips the push. */
    method UpdateCheckIconState(checked: bool) returns (ok: bool)
      requires Valid()
      modifies this`icon, this`checkInput, this`events, opts
      ensures Valid()
      ensures icon.value == (if checked then "on" else "off")
      ensures checkInput == (if checked then "true" else "false")
      ensures icon.title == TitleFor(iconData.titles, checked)
      ensures opts[..] == Refilter(old(opts[..]), engine, filterText, checked)
      ensures var p := Recolor(old(icon.classes), iconData.colors, checked, HasChecks(old(opts[..])));
        icon.classes == p.classes && ok == !p.threw
      ensures events == old(events) + SearchPush(data, filterText)
        + (if ok && iconData.filterside == Some("server") then [FilterCheck(iconData.target, checked)] else [])
    {
      ShowCheckState(checked);
      var hasChecks := ApplyFilter();
      ok := RecolorAndNotify(checked, hasChecks);
    }

    /** The head of `updateCheckIconState`: the icon's value, the hidden
        input and the icon's title show the new check-filter state. */
    method ShowCheckState(checked: bool)
      modifies this`icon, this`checkInput
      ensures icon == old(icon).(value := if checked then "on" else "off",
                                 title := TitleFor(iconData.titles, checked))
      ensures checkInput == (if checked then "true" else "false")
      ensures checkInput == "true" <==> checked
    {
      icon := icon.(value := if checked then "on" else "off");
      checkInput := if checked then "true" else "false";
      icon := icon.(title := TitleFor(iconData.titles, checked));
    }

    /** The tail of `updateCheckIconState`: recolour the icon, then push
        `filter {icon: 'check'}` for server-side filtering unless recolouring
        threw. */
    method RecolorAndNotify(checked: bool, hasChecks: bool) returns (ok: bool)
      requires Valid()
      modifies this`icon, this`events
      ensures Valid()
      ensures var p := Recolor(old(icon.classes), iconData.colors, checked, hasChecks);
        icon == old(icon).(classes := p.classes) && ok == !p.threw
      ensures events == old(events)
        + (if ok && iconData.filterside == Some("server") then [FilterCheck(iconData.target, checked)] else [])
    {
      var painted := Recolor(icon.classes, iconData.colors, checked, hasChecks);
      icon := icon.(classes := painted.classes);
      ok := !painted.threw;

      if ok && iconData.filterside == Some("server") {
        var e := FilterCheck(iconData.target, checked);
        PushOtherAlternating(Detector(wasWrapped, events), e);
        events := events + [e];
      }
    }

    /** `mounted`: derive the hook id, then switch the check filter off. The
        resize observer is installed only if that did not throw. */
    method Mounted() returns (ok: bool)
      requires Valid()
      modifies this`id, this`observing, this`icon, this`checkInput, this`events, opts
      ensures Valid()
      ensures id == Some(HookId(elId))
      ensures checkInput == "false" && icon.value == "off"
      ensures icon.title == TitleFor(iconData.titles, false)
      ensures opts[..] == Refilter(old(opts[..]), engine, filterText, false)
      ensures var p := Recolor(old(icon.classes), iconData.colors, false, HasChecks(old(opts[..])));
        icon.classes == p.classes && ok == !p.threw
      ensures events == old(events) + SearchPush(data, filterText)
        + (if ok && iconData.filterside == Some("server") then [FilterCheck(iconData.target, false)] else [])
      ensures observing == ok
    {
      id := Some(HookId(elId));
      ok := UpdateCheckIconState(false);
      observing := ok;
    }

    /** A key released in the filter box: refilter with its current text. */
    method OnFilterKeyUp()
      requires Valid()
      modifies opts, this`events
      ensures Valid()
      ensures opts[..] == Refilter(old(opts[..]), engine, filterText, checkInput == "true")
      ensures events == old(events) + SearchPush(data, filterText)
    {
      var _ := ApplyFilter();
    }

    /** The clear icon: empty the filter box, refilter, and push
        `filter {icon: 'clear'}` for server-side filtering. With the check
        filter off, every option is then shown. */
    method OnClearClick()
      requires Valid()
      modifies opts, this`filterText, this`events
      ensures Valid()
      ensures filterText == ""
      ensures opts[..] == Refilter(old(opts[..]), engine, "", checkInput == "true")
      ensures checkInput != "true" ==> forall j :: 0 <= j < opts.Length ==> !opts[j].hidden
      ensures events == old(events) + SearchPush(data, "")
        + (if data.filterside == Some("server") then [FilterClear(data.target)] else [])
    {
      filterText := "";
      var _ := ApplyFilter();
      ClearedShowsAll(old(opts[..]), engine);
      if data.filterside == Some("server") {
        var e := FilterClear(data.target);
        PushOtherAlternating(Detector(wasWrapped, events), e);
        events := events + [e];
      }
    }

    /** The check icon: flip the check filter, which is on exactly when the
        hidden input holds "true". */
    method OnCheckClick() returns (ok: bool)
      requires Valid()
      modifies this`icon, this`checkInput, this`events, opts
      ensures Valid()
      ensures checkInput == (if old(checkInput) != "true" then "true" else "false")
      ensures icon.value == (if old(checkInput) != "true" then "on" else "off")
      ensures icon.title == TitleFor(iconData.titles, old(checkInput) != "true")
      ensures opts[..] == Refilter(old(opts[..]), engine, filterText, old(checkInput) != "true")
      ensures var p := Recolor(old(icon.classes), iconData.colors, old(checkInput) != "true", HasChecks(old(opts[..])));
        icon.classes == p.classes && ok == !p.threw
      ensures events == old(events) + SearchPush(data, filterText)
        + (if ok && iconData.filterside == Some("server")
           then [FilterCheck(iconData.target, old(checkInput) != "true")] else [])
    {
      ok := UpdateCheckIconState(checkInput != "true");
    }

    /** `updated`, after the server re-renders: refilter, then re-apply the
        check-filter state held in the hidden input. The two filter passes
        agree, so the options end as after one. */
    method Updated() returns (ok: bool)
      requires Valid()
      modifies this`icon, this`checkInput, this`events, opts
      ensures Valid()
      ensures checkInput == (if old(checkInput) == "true" then "true" else "false")
      ensures icon.value == (if old(checkInput) == "true" then "on" else "off")
      ensures icon.title == TitleFor(iconData.titles, old(checkInput) == "true")
      ensures opts[..] == Refilter(old(opts[..]), engine, filterText, old(checkInput) == "true")
      ensures var p := Recolor(old(icon.classes), iconData.colors, old(checkInput) == "true", HasChecks(old(opts[..])));
        icon.classes == p.classes && ok == !p.threw
      ensures events == old(events) + SearchPush(data, filterText) + SearchPush(data, filterText)
        + (if ok && iconData.filterside == Some("server")
           then [FilterCheck(iconData.target, old(checkInput) == "true")] else [])
    {
      var filterChecked := checkInput == "true";
      var once := ApplyFilter();
      RefilterTwice(old(opts[..]), engine, filterText, filterChecked);
      RefilterKeepsChecks(old(opts[..]), engine, filterText, filterChecked);
      ok := UpdateCheckIconState(checkInput == "true");
    }

    /** The resize observer's callback, given the top edges of the tag chips:
        scan them and report a change of wrap state. */
    method OnResize(tops: seq<real>)
      requires Valid() && observing
      modifies this`wasWrapped, this`events
      ensures Valid()
      ensures Detector(wasWrapped, events) == Observe(old(Detector(wasWrapped, events)), tops, data)
    {
      ObserveAlternating(Detector(wasWrapped, events), tops, data);
      var wrapped, eleCount := Scan(tops);
      if |tops| > 1 && wrapped != wasWrapped && data.wrap != Some("true") {
        wasWrapped := wrapped;
        events := events + [Wrapped(data.target, eleCount, wrapped)];
      }
    }
  }
}
