/** The lean multi-select hook, which only detects wrapping of the tag chips,
    and the window-level listeners for `js:set_input_value` and
    `js:ignore_empty_input` that the component's server commands dispatch. */
module JsHooks {
  import opened Wrappers
  import opened Events
  import opened WrapDetect

  class WrapHook {
    /** The root element's `data-*` attributes (`data-target`, `data-wrap`). */
    var data: Dataset
    /** The last wrap state reported, and every event pushed so far. */
    var wasWrapped: bool
    var events: seq<Event>

    /** The reported wrap states alternate, starting with `true`. */
    ghost predicate Valid()
      reads this`wasWrapped, this`events
    {
      Alternating(Detector(wasWrapped, events))
    }

    constructor(data: Dataset)
      ensures Valid()
      ensures this.data == data && !wasWrapped && events == []
    {
      this.data := data;
      wasWrapped, events := false, [];
      InitialAlternating();
    }

    /** The resize observer's callback, given the top edges of the chips. */
    method OnResize(tops: seq<real>)
      requires Valid()
      modifies this`wasWrapped, this`events
      ensures Valid()
      ensures Detector(wasWrapped, events) == Observe(old(Detector(wasWrapped, events)), tops, data)
      ensures wasWrapped != old(wasWrapped) <==> events != old(events)
    {
      ObserveAlternating(Detector(wasWrapped, events), tops, data);
      var wrapped, eleCount := Scan(tops);
      if |tops| > 1 && wrapped != wasWrapped && data.wrap != Some("true") {
        wasWrapped := wrapped;
        events := events + [Wrapped(data.target, eleCount, wrapped)];
      }
    }
  }

  /** The target of a `js:*` event: an input element with an id, a value and an
      optional `name` attribute (a named input is submitted with its form). */
  class InputElement {
    const id: string
    var value: string
    var name: Option<string>

    constructor(id: string, value: string, name: Option<string>)
      ensures this.id == id && this.value == value && this.name == name
    {
      this.id, this.value, this.name := id, value, name;
    }

    /** `js:set_input_value`: the value becomes the event's detail; the name is
        untouched. */
    method OnSetInputValue(detail: string)
      modifies this`value
      ensures value == detail
    {
      value := detail;
    }

    /** `js:ignore_empty_input`: an input whose value is empty is named after
        its id; any other input loses its name. The value is untouched. */
    method OnIgnoreEmptyInput()
      modifies this`name
      ensures name.Some? <==> value == ""
      ensures name.Some? ==> name.value == id
    {
      if value == "" {
        name := Some(id);
      } else {
        name := None;
      }
    }
  }
}
