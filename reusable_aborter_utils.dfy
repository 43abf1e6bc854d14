/** `canAttractListeners`: reads the `attractListeners` option of a reusable aborter. */
module ReusableAborterUtils {
  import opened Wrappers
  import opened Js

  /** The keys of `AttractListeners`. */
  datatype AttractTarget = EventListenersTarget | OnAbortTarget

  function TargetName(t: AttractTarget): string {
    match t
    case EventListenersTarget => "eventListeners"
    case OnAbortTarget => "onabort"
  }

  /**
   * A falsy option gives `false`, `true` gives `true`, and any other value
   * gives its `targetName` member as it is (not converted to a boolean).
   */
  function CanAttractListeners(config: Value, target: AttractTarget): (r: Value)
    ensures !Truthy(config) ==> r == Bool(false)
    ensures config == Bool(true) ==> r == Bool(true)
    ensures config.Obj? ==> r == Lookup(config.props, TargetName(target)).GetOr(Undefined)
  {
    if !Truthy(config) then Bool(false)
    else if config == Bool(true) then Bool(true)
    else Member(config, TargetName(target))
  }

  /** For an object option the result is decided by the target's own field alone. */
  lemma OtherFieldIrrelevant(props1: seq<Property>, props2: seq<Property>, target: AttractTarget)
    requires Lookup(props1, TargetName(target)) == Lookup(props2, TargetName(target))
    ensures CanAttractListeners(Obj(props1), target) == CanAttractListeners(Obj(props2), target)
  {
  }

  /** `{ eventListeners: e, onabort: o }` gives exactly `e` or `o`. */
  lemma ObjectConfigGivesItsField(e: bool, o: bool)
    ensures CanAttractListeners(Obj([Property("eventListeners", Bool(e)), Property("onabort", Bool(o))]), EventListenersTarget) == Bool(e)
    ensures CanAttractListeners(Obj([Property("eventListeners", Bool(e)), Property("onabort", Bool(o))]), OnAbortTarget) == Bool(o)
  {
    var props := [Property("eventListeners", Bool(e)), Property("onabort", Bool(o))];
    assert Lookup(props, "eventListeners") == Some(Bool(e));
    assert props[1..] == [Property("onabort", Bool(o))];
    assert Lookup(props, "onabort") == Some(Bool(o));
  }

  /** The result is truthy exactly when the option is `true`, or an object whose target field is truthy. */
  lemma AttractsIff(config: Value, target: AttractTarget)
    requires config.Obj? || config.Bool? || config == Undefined || config == Null
    ensures Truthy(CanAttractListeners(config, target))
            <==> config == Bool(true) || (config.Obj? && Truthy(Lookup(config.props, TargetName(target)).GetOr(Undefined)))
  {
  }
}
