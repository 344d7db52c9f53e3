/** The wrap detector shared by both multi-select hooks: on every resize of the
    root element it scans the top edges of the tag chips, in document order, and
    reports to the server when the row of chips starts or stops wrapping. */
module WrapDetect {
  import opened Wrappers
  import opened Events

  /** Chip `i` starts a new row: its top edge lies below (has a larger `top`
      than) that of chip `i - 1`. Chip 0 has no predecessor and never does. */
  predicate RiseAt(tops: seq<real>, i: int) {
    1 <= i < |tops| && tops[i - 1] < tops[i]
  }

  /** The chips wrap onto more than one row. */
  predicate Wraps(tops: seq<real>) {
    exists i | 1 <= i < |tops| :: RiseAt(tops, i)
  }

  /** The first rise at or after chip `i`, or `|tops|` if there is none. */
  function FirstRiseFrom(tops: seq<real>, i: nat): (k: nat)
    requires 1 <= i <= |tops|
    ensures i <= k <= |tops|
    ensures k < |tops| ==> RiseAt(tops, k)
    ensures forall j :: i <= j < k ==> !RiseAt(tops, j)
    decreases |tops| - i
  {
    if i == |tops| then i
    else if tops[i - 1] < tops[i] then i
    else FirstRiseFrom(tops, i + 1)
  }

  /** The `count` the scan reports: the index of the first chip that starts a
      new row, or the number of chips when none does. */
  function FirstRise(tops: seq<real>): (k: nat)
    ensures k <= |tops|
    ensures k < |tops| <==> Wraps(tops)
    ensures k < |tops| ==> RiseAt(tops, k)
    ensures forall j :: 0 <= j < k ==> !RiseAt(tops, j)
  {
    if tops == [] then 0 else FirstRiseFrom(tops, 1)
  }

  /** The resize observer's loop: walk the chips with a previous-rectangle
      variable that starts as `{}` (whose `top` is undefined, so chip 0 never
      compares as lower), stop at the first chip lower than its predecessor.
      `count` is the loop counter `eleCount` at exit. */
  method Scan(tops: seq<real>) returns (wrapped: bool, count: nat)
    ensures wrapped <==> Wraps(tops)
    ensures count == FirstRise(tops)
    ensures wrapped <==> count < |tops|
  {
    var prevTop: Option<real> := None;
    wrapped := false;
    count := 0;
    var i := 0;
    while i < |tops|
      invariant 0 <= i <= |tops| && count == i
      invariant prevTop == if i == 0 then None else Some(tops[i - 1])
      invariant forall j :: 0 <= j < i ==> !RiseAt(tops, j)
      invariant !wrapped
    {
      var currTop := tops[i];
      if prevTop.Some? && prevTop.value < currTop {
        assert RiseAt(tops, i);
        wrapped := true;
        break;
      }
      prevTop := Some(currTop);
      i, count := i + 1, count + 1;
    }
  }

  /** The reporting rule: more than one chip, a wrap state different from the
      last one reported, and reporting not suppressed by `data-wrap="true"`. */
  predicate Reports(chips: nat, wrapped: bool, wasWrapped: bool, wrapAttr: Option<string>) {
    chips > 1 && wrapped != wasWrapped && wrapAttr != Some("true")
  }

  /** The part of a hook's state the wrap detector uses: the last reported wrap
      state and the log of pushed events. */
  datatype Detector = Detector(wasWrapped: bool, log: seq<Event>)

  /** One resize observation with `data-*` attributes `data`. */
  function Observe(d: Detector, tops: seq<real>, data: Dataset): (d': Detector)
    ensures Reports(|tops|, Wraps(tops), d.wasWrapped, data.wrap) ==>
      d' == Detector(Wraps(tops), d.log + [Wrapped(data.target, FirstRise(tops), Wraps(tops))])
    ensures !Reports(|tops|, Wraps(tops), d.wasWrapped, data.wrap) ==> d' == d
  {
    var wrapped := FirstRise(tops) < |tops|;
    if Reports(|tops|, wrapped, d.wasWrapped, data.wrap) then
      Detector(wrapped, d.log + [Wrapped(data.target, FirstRise(tops), wrapped)])
    else d
  }

  /** The detector is edge-triggered: the `wrapped` events of the log alternate
      `true, false, true, ...` (the state starts unwrapped), and the remembered
      state is the value of the last of them. */
  predicate Alternating(d: Detector) {
    var vs := WrappedValues(d.log);
    (forall i :: 0 <= i < |vs| ==> vs[i] == (i % 2 == 0))
    && d.wasWrapped == (|vs| % 2 == 1)
  }

  /** The state before the first resize. */
  lemma InitialAlternating()
    ensures Alternating(Detector(false, []))
  {
  }

  /** The remembered state changes exactly when an event is pushed, and then
      equals the pushed value; the pushed count is below the number of chips
      exactly when the chips wrap. */
  lemma ChangesOnlyWithEvent(d: Detector, tops: seq<real>, data: Dataset)
    ensures var d' := Observe(d, tops, data);
      (d'.wasWrapped != d.wasWrapped <==> d'.log != d.log)
      && (d'.log != d.log ==>
            exists c: nat :: d'.log == d.log + [Wrapped(data.target, c, d'.wasWrapped)]
                        && (c < |tops| <==> d'.wasWrapped))
  {
  }

  /** Each observation keeps the events alternating. */
  lemma {:induction false} ObserveAlternating(d: Detector, tops: seq<real>, data: Dataset)
    requires Alternating(d)
    ensures Alternating(Observe(d, tops, data))
  {
    var w := Wraps(tops);
    if Reports(|tops|, w, d.wasWrapped, data.wrap) {
      var e := Wrapped(data.target, FirstRise(tops), w);
      WrappedValuesAppend(d.log, [e]);
      assert WrappedValues([e]) == [w] by {
        assert [e][..0] == [];
      }
    }
  }

  /** Pushing an event other than `wrapped` keeps the events alternating. */
  lemma {:induction false} PushOtherAlternating(d: Detector, e: Event)
    requires Alternating(d) && !e.Wrapped?
    ensures Alternating(Detector(d.wasWrapped, d.log + [e]))
  {
    WrappedValuesAppend(d.log, [e]);
    assert WrappedValues([e]) == [] by {
      assert [e][..0] == [];
    }
  }

  /** Observing the same layout twice in a row reports at most once: after a
      report the remembered state equals the new one. */
  lemma ObserveTwice(d: Detector, tops: seq<real>, data: Dataset)
    ensures Observe(Observe(d, tops, data), tops, data) == Observe(d, tops, data)
  {
  }

  /** A change hidden while `data-wrap="true"` leaves the remembered state
      alone, so it is reported by the first observation after suppression is
      lifted. */
  lemma SuppressedChangeReportedLater(d: Detector, tops: seq<real>, data: Dataset, data': Dataset)
    requires data.wrap == Some("true") && data'.wrap != Some("true")
    requires |tops| > 1 && Wraps(tops) != d.wasWrapped
    ensures Observe(d, tops, data) == d
    ensures Observe(Observe(d, tops, data), tops, data').log
         == d.log + [Wrapped(data'.target, FirstRise(tops), Wraps(tops))]
  {
  }

  /** Runs of observations, each with the attributes current at that time. */
  datatype Observation = Observation(tops: seq<real>, data: Dataset)

  function Run(d: Detector, obs: seq<Observation>): (d': Detector)
    ensures |d.log| <= |d'.log| <= |d.log| + |obs|
    ensures d'.log[..|d.log|] == d.log
    decreases |obs|
  {
    if obs == [] then d
    else Run(Observe(d, obs[0].tops, obs[0].data), obs[1..])
  }

  /** Whatever the sequence of layouts and suppression settings, the reported
      wrap states alternate, starting with `true`. */
  lemma {:induction false} RunAlternating(d: Detector, obs: seq<Observation>)
    requires Alternating(d)
    ensures Alternating(Run(d, obs))
    decreases |obs|
  {
    if obs != [] {
      ObserveAlternating(d, obs[0].tops, obs[0].data);
      RunAlternating(Observe(d, obs[0].tops, obs[0].data), obs[1..]);
    }
  }
}
