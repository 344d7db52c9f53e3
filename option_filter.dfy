/** The client-side option filter of the multi-select widget: which option rows
    are visible for a filter text and the state of the check-filter toggle. */
module OptionFilter {

  /** The regular-expression library, which this model does not look into:
      `parses(p)` holds when `new RegExp(p, 'i')` does not throw, and
      `test(p, text)` is `new RegExp(p, 'i').test(text)`. */
  datatype RegexEngine = RegexEngine(parses: string -> bool, test: (string, string) -> bool)

  /** The `rex` of the filter pass: `new RegExp()`, the empty pattern, which
      matches every string, or the filter text compiled case-insensitively. */
  datatype Regex = MatchAll | CaseInsensitive(pattern: string)

  /** `new RegExp(filter, 'i')`, keeping `new RegExp()` when that throws. */
  function Compile(engine: RegexEngine, filter: string): (rex: Regex)
    ensures rex == MatchAll <==> !engine.parses(filter)
    ensures rex.CaseInsensitive? ==> rex.pattern == filter
  {
    if engine.parses(filter) then CaseInsensitive(filter) else MatchAll
  }

  /** `rex.test(text)`. */
  function Test(engine: RegexEngine, rex: Regex, text: string): (matched: bool)
    ensures rex == MatchAll ==> matched
    ensures rex.CaseInsensitive? ==> matched == engine.test(rex.pattern, text)
  {
    match rex
    case MatchAll => true
    case CaseInsensitive(p) => engine.test(p, text)
  }

  /** An option row: the text of its `label` element, whether its checkbox is checked,
      and whether its wrapper `div` carries the `hidden` attribute. */
  datatype OptionItem = OptionItem(text: string, checked: bool, hidden: bool)

  /** Whether a filter pass shows an option. With the check filter on, exactly
      the checked options are shown, whatever the text; with it off, an option
      is shown when the text is empty, does not parse as a pattern, or matches
      the label. */
  function Shown(engine: RegexEngine, filter: string, filterChecked: bool, o: OptionItem): (show: bool)
    ensures filterChecked ==> (show <==> o.checked)
    ensures !filterChecked ==>
      (show <==> filter == "" || !engine.parses(filter) || engine.test(filter, o.text))
  {
    var rex := Compile(engine, filter);
    ((filter == "" || Test(engine, rex, o.text)) && !filterChecked) || (filterChecked && o.checked)
  }

  /** The options after a filter pass: each one hidden exactly when `Shown`
      says not to show it; labels and checked states stay. */
  function Refilter(opts: seq<OptionItem>, engine: RegexEngine, filter: string, filterChecked: bool): (r: seq<OptionItem>)
    ensures |r| == |opts|
    ensures forall i :: 0 <= i < |r| ==>
      r[i] == opts[i].(hidden := !Shown(engine, filter, filterChecked, opts[i]))
  {
    if opts == [] then []
    else
      [opts[0].(hidden := !Shown(engine, filter, filterChecked, opts[0]))]
      + Refilter(opts[1..], engine, filter, filterChecked)
  }

  /** Some option is checked. */
  predicate HasChecks(opts: seq<OptionItem>) {
    exists i | 0 <= i < |opts| :: opts[i].checked
  }

  /** A filter pass never changes which options are checked, so the answer of
      `HasChecks` does not depend on the filter text or on visibility. */
  lemma RefilterKeepsChecks(opts: seq<OptionItem>, engine: RegexEngine, filter: string, filterChecked: bool)
    ensures HasChecks(Refilter(opts, engine, filter, filterChecked)) == HasChecks(opts)
  {
    var r := Refilter(opts, engine, filter, filterChecked);
    if HasChecks(opts) {
      var i :| 0 <= i < |opts| && opts[i].checked;
      assert r[i].checked;
    }
  }

  /** Visibility depends only on the filter, the toggle and the option's label
      and checked state, so a second pass with the same inputs changes nothing. */
  lemma RefilterTwice(opts: seq<OptionItem>, engine: RegexEngine, filter: string, filterChecked: bool)
    ensures Refilter(Refilter(opts, engine, filter, filterChecked), engine, filter, filterChecked)
         == Refilter(opts, engine, filter, filterChecked)
  {
  }

  /** With the check filter off, an empty filter text shows every option. */
  lemma ClearedShowsAll(opts: seq<OptionItem>, engine: RegexEngine)
    ensures forall i :: 0 <= i < |opts| ==> !Refilter(opts, engine, "", false)[i].hidden
  {
  }

  /** With the check filter off, a filter text that does not parse shows every
      option, as `new RegExp()` matches every label. */
  lemma UnparsableShowsAll(opts: seq<OptionItem>, engine: RegexEngine, filter: string)
    requires !engine.parses(filter)
    ensures forall i :: 0 <= i < |opts| ==> !Refilter(opts, engine, filter, false)[i].hidden
  {
  }

  /** With the check filter on, the visible options are exactly the checked
      ones. */
  lemma CheckFilterShowsChecked(opts: seq<OptionItem>, engine: RegexEngine, filter: string)
    ensures forall i :: 0 <= i < |opts| ==>
      (Refilter(opts, engine, filter, true)[i].hidden <==> !opts[i].checked)
  {
  }
}
