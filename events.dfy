/** What the hooks send to their server-side component through `pushEventTo`,
    recorded in order in an event log, and the `data-*` attributes of a root
    element that choose the target and the behaviour. */
module Events {
  import opened Wrappers

  /** The `data-target`, `data-filterside` and `data-wrap` attributes of an
      element; an absent attribute is `None`. */
  datatype Dataset = Dataset(target: Option<string>, filterside: Option<string>, wrap: Option<string>)

  /** One pushed event with its target and payload:
      `wrapped {count, value}`, `search {filter}`, `filter {icon: 'clear'}`
      and `filter {icon: 'check', checked}`. */
  datatype Event =
    | Wrapped(target: Option<string>, count: nat, value: bool)
    | Search(target: Option<string>, filter: string)
    | FilterClear(target: Option<string>)
    | FilterCheck(target: Option<string>, checked: bool)

  /** The `value` fields of the `wrapped` events of a log, in order. */
  function WrappedValues(log: seq<Event>): seq<bool> {
    if log == [] then []
    else
      var rest := WrappedValues(log[..|log| - 1]);
      match log[|log| - 1]
      case Wrapped(_, _, v) => rest + [v]
      case _ => rest
  }

  /** The `wrapped` values of a concatenation of logs are those of each part. */
  lemma {:induction false} WrappedValuesAppend(a: seq<Event>, b: seq<Event>)
    ensures WrappedValues(a + b) == WrappedValues(a) + WrappedValues(b)
  {
    if b != [] {
      assert (a + b)[..|a + b| - 1] == a + b[..|b| - 1];
      WrappedValuesAppend(a, b[..|b| - 1]);
    } else {
      assert a + b == a;
    }
  }
}
