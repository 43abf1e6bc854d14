/**
 * `timeInMilliseconds({ milliseconds, seconds, minutes, hours })`: the
 * total duration in milliseconds.  Every own enumerable value of the
 * configuration must be a number or undefined; absent components count 0.
 * Numbers are reals here (NaN and the infinities are not modelled).
 */
module TimeInMilliseconds {
  import opened Wrappers
  import opened Js
  import opened AbortErrors

  const SECOND_IN_MS: real := 1000.0
  const MINUTES_IN_MS: real := 60.0 * SECOND_IN_MS
  const HOURS_IN_MS: real := 60.0 * MINUTES_IN_MS

  /** The validation message; it carries two zero-width spaces. */
  const NOT_NUMBERS_MESSAGE := "Function values \U{200B}\U{200B}are not numbers!"

  /** What `Object.values(null)` throws (the wording is the engine's). */
  const NOT_AN_OBJECT_MESSAGE := "Cannot convert undefined or null to object"

  /** `typeof v === 'number' || typeof v === 'undefined'`. */
  predicate NumberOrUndefined(v: Value) {
    v.Num? || v.Undefined?
  }

  predicate AllNumbersOrUndefined(values: seq<Value>) {
    forall i :: 0 <= i < |values| ==> NumberOrUndefined(values[i])
  }

  /** `throwErrorIfValuesNotMatchTyping(values)`: stops at the first value of another type. */
  method ThrowErrorIfValuesNotMatchTyping(values: seq<Value>) returns (c: Completion)
    ensures c == Normal <==> AllNumbersOrUndefined(values)
    ensures c != Normal ==> c == Throw(Err(NewTypeError(NOT_NUMBERS_MESSAGE)))
  {
    for i := 0 to |values|
      invariant forall j :: 0 <= j < i ==> NumberOrUndefined(values[j])
    {
      var el := values[i];
      if el.Num? || el.Undefined? {
        continue;
      } else {
        return Throw(Err(NewTypeError(NOT_NUMBERS_MESSAGE)));
      }
    }
    return Normal;
  }

  /** A component read with its default: `{ key = 0 } = config`. */
  function Component(config: Value, key: string): real
    requires config != Null && config != Undefined
  {
    var v := Member(config, key);
    if v.Num? then v.n else 0.0
  }

  /** `timeInMilliseconds(config)`, with the error it throws on the failure side. */
  function TimeInMs(config: Value): (r: Result<real, Value>)
    ensures r.Failure? <==> config == Null || config == Undefined || !AllNumbersOrUndefined(OwnValues(config))
    ensures r.Failure? ==> r.error.Err? && r.error.e.errorClass == TypeErrorClass
  {
    if config == Null || config == Undefined then Failure(Err(NewTypeError(NOT_AN_OBJECT_MESSAGE)))
    else if !AllNumbersOrUndefined(OwnValues(config)) then Failure(Err(NewTypeError(NOT_NUMBERS_MESSAGE)))
    else
      Success(Total(Component(config, "milliseconds"), Component(config, "seconds"),
                    Component(config, "minutes"), Component(config, "hours")))
  }

  /** `milliseconds + secondsMs + minutesMs + hoursMs`. */
  function Total(milliseconds: real, seconds: real, minutes: real, hours: real): real {
    milliseconds + seconds * SECOND_IN_MS + minutes * MINUTES_IN_MS + hours * HOURS_IN_MS
  }

  // ---------------------------------------------------------------------
  // Properties

  /** Once validated, every component the function reads is a number or absent, so no default hides a value of another type. */
  lemma ValidatedComponents(config: Value, key: string)
    requires config != Null && config != Undefined
    requires AllNumbersOrUndefined(OwnValues(config))
    requires key in ["milliseconds", "seconds", "minutes", "hours"]
    ensures NumberOrUndefined(Member(config, key))
  {
    ValidatedMember(config, key);
  }

  /** The same for any key that is neither `name`, nor `message`, nor an array index, nor a non-enumerable `cause`. */
  lemma ValidatedMember(config: Value, key: string)
    requires config != Null && config != Undefined
    requires AllNumbersOrUndefined(OwnValues(config))
    requires key != [] && !IsDigit(key[0]) && key != "name" && key != "message"
    requires config.Err? && key == "cause" ==> config.e.causeEnumerable
    ensures NumberOrUndefined(Member(config, key))
  {
    if config.Obj? {
      ValidatedProperty(config.props, key);
    } else if config.Err? {
      ValidatedProperty(ErrorOwnEnumerable(config.e), key);
      ValidatedErrorField(config.e, key);
    } else if config.Arr? {
      assert ArrayIndex(key) == None;
    }
  }

  /** A validated property list holds a number or nothing under every key. */
  lemma ValidatedProperty(props: seq<Property>, key: string)
    requires AllNumbersOrUndefined(Values(props))
    ensures NumberOrUndefined(Lookup(props, key).GetOr(Undefined))
  {
    var found := Lookup(props, key);
    if found.Some? {
      var i :| 0 <= i < |props| && props[i] == Property(key, found.value);
      assert Values(props)[i] == found.value;
    }
  }

  /**
   * Every field of an error other than its name, its message and a `cause`
   * the `Error` constructor installed is one of its own enumerable
   * properties.
   */
  lemma ValidatedErrorField(e: ErrorRecord, key: string)
    requires key != "name" && key != "message" && (key != "cause" || e.causeEnumerable)
    requires NumberOrUndefined(Lookup(ErrorOwnEnumerable(e), key).GetOr(Undefined))
    ensures NumberOrUndefined(Lookup(ErrorProperties(e), key).GetOr(Undefined))
  {
    var found := Lookup(ErrorProperties(e), key);
    if found.Some? {
      var p := Property(key, found.value);
      assert p in ErrorOwnEnumerable(e);
      var other := Lookup(ErrorOwnEnumerable(e), key);
      assert Property(key, other.value) in ErrorProperties(e);
    }
  }

  predicate UniqueKeys(props: seq<Property>) {
    forall i, j :: 0 <= i < j < |props| ==> props[i].key != props[j].key
  }

  lemma LookupUnique(props: seq<Property>, key: string, v: Value)
    requires UniqueKeys(props) && Property(key, v) in props
    ensures Lookup(props, key) == Some(v)
  {
    var r := Lookup(props, key);
    var i :| 0 <= i < |props| && props[i] == Property(key, r.value);
    var j :| 0 <= j < |props| && props[j] == Property(key, v);
    assert i == j;
  }

  /** The order in which the components are written does not matter. */
  lemma OrderIndependent(p: seq<Property>, q: seq<Property>)
    requires UniqueKeys(p) && UniqueKeys(q) && multiset(p) == multiset(q)
    ensures TimeInMs(Obj(p)) == TimeInMs(Obj(q))
  {
    SameComponent(p, q, "milliseconds");
    SameComponent(p, q, "seconds");
    SameComponent(p, q, "minutes");
    SameComponent(p, q, "hours");
    if AllNumbersOrUndefined(OwnValues(Obj(p))) {
      SameValidity(p, q);
    }
    if AllNumbersOrUndefined(OwnValues(Obj(q))) {
      SameValidity(q, p);
    }
  }

  lemma SameComponent(p: seq<Property>, q: seq<Property>, key: string)
    requires UniqueKeys(p) && UniqueKeys(q) && multiset(p) == multiset(q)
    ensures Component(Obj(p), key) == Component(Obj(q), key)
  {
    SameLookup(p, q, key);
    SameLookup(q, p, key);
  }

  lemma SameLookup(p: seq<Property>, q: seq<Property>, key: string)
    requires UniqueKeys(q) && multiset(p) == multiset(q)
    ensures Lookup(p, key).Some? ==> Lookup(q, key) == Lookup(p, key)
  {
    if Lookup(p, key).Some? {
      assert Property(key, Lookup(p, key).value) in multiset(q);
      LookupUnique(q, key, Lookup(p, key).value);
    }
  }

  lemma SameValidity(p: seq<Property>, q: seq<Property>)
    requires multiset(p) == multiset(q)
    requires AllNumbersOrUndefined(OwnValues(Obj(p)))
    ensures AllNumbersOrUndefined(OwnValues(Obj(q)))
  {
    forall j | 0 <= j < |q| ensures NumberOrUndefined(q[j].value) {
      assert q[j] in multiset(p);
      var i :| 0 <= i < |p| && p[i] == q[j];
      assert OwnValues(Obj(p))[i] == p[i].value;
    }
  }

  /** Every own value is checked, not only the four components: one string anywhere rejects the configuration. */
  lemma AnyNonNumberRejected(props: seq<Property>, key: string, s: string)
    ensures TimeInMs(Obj(props + [Property(key, Str(s))])) == Failure(Err(NewTypeError(NOT_NUMBERS_MESSAGE)))
  {
    var values := OwnValues(Obj(props + [Property(key, Str(s))]));
    assert values[|props|] == Str(s);
  }

  /** Components default to zero: an empty configuration is zero milliseconds. */
  lemma EmptyConfigIsZero()
    ensures TimeInMs(Obj([])) == Success(0.0)
  {
  }

  /** The documented example of one minute thirty seconds. */
  lemma MinuteAndAHalfExample()
    ensures TimeInMs(Obj(MINUTE_AND_A_HALF)) == Success(90000.0)
  {
    assert Values(MINUTE_AND_A_HALF) == [Num(1.0), Num(30.0)];
    assert Lookup(MINUTE_AND_A_HALF, "minutes") == Some(Num(1.0));
    ComponentIs(MINUTE_AND_A_HALF, "minutes", 1.0);
    assert Lookup(MINUTE_AND_A_HALF, "seconds") == Some(Num(30.0));
    ComponentIs(MINUTE_AND_A_HALF, "seconds", 30.0);
    ObjectComponent(MINUTE_AND_A_HALF, "milliseconds");
    ObjectComponent(MINUTE_AND_A_HALF, "hours");
  }

  const MINUTE_AND_A_HALF := [Property("minutes", Num(1.0)), Property("seconds", Num(30.0))]

  /** The documented example with all four components. */
  lemma FullDurationExample()
    ensures TimeInMs(Obj(FULL_DURATION)) == Success(5445500.0)
  {
    FullDurationValid();
    FullDurationHours();
    FullDurationMinutes();
    FullDurationSeconds();
    FullDurationMilliseconds();
  }

  const FULL_DURATION := [Property("hours", Num(1.0)), Property("minutes", Num(30.0)),
                          Property("seconds", Num(45.0)), Property("milliseconds", Num(500.0))]

  lemma FullDurationValid()
    ensures AllNumbersOrUndefined(OwnValues(Obj(FULL_DURATION)))
  {
    assert Values(FULL_DURATION) == [Num(1.0), Num(30.0), Num(45.0), Num(500.0)];
  }

  lemma FullDurationHours()
    ensures Component(Obj(FULL_DURATION), "hours") == 1.0
  {
    assert Lookup(FULL_DURATION, "hours") == Some(Num(1.0));
    ComponentIs(FULL_DURATION, "hours", 1.0);
  }

  lemma FullDurationMinutes()
    ensures Component(Obj(FULL_DURATION), "minutes") == 30.0
  {
    assert Lookup(FULL_DURATION, "minutes") == Some(Num(30.0));
    ComponentIs(FULL_DURATION, "minutes", 30.0);
  }

  lemma FullDurationSeconds()
    ensures Component(Obj(FULL_DURATION), "seconds") == 45.0
  {
    assert Lookup(FULL_DURATION, "seconds") == Some(Num(45.0));
    ComponentIs(FULL_DURATION, "seconds", 45.0);
  }

  lemma FullDurationMilliseconds()
    ensures Component(Obj(FULL_DURATION), "milliseconds") == 500.0
  {
    assert Lookup(FULL_DURATION, "milliseconds") == Some(Num(500.0));
    ComponentIs(FULL_DURATION, "milliseconds", 500.0);
  }

  /** A number under the key is the component. */
  lemma ComponentIs(props: seq<Property>, key: string, n: real)
    requires Lookup(props, key) == Some(Num(n))
    ensures Component(Obj(props), key) == n
  {
  }

  /** A component of a plain object is the number under its key, or zero. */
  lemma ObjectComponent(props: seq<Property>, key: string)
    ensures Component(Obj(props), key) == match Lookup(props, key) case Some(Num(n)) => n case _ => 0.0
  {
  }

  /** A configuration that is not an object: numbers and booleans have no own values and read as zero; a non-empty string fails on its characters. */
  lemma PrimitiveConfigs(n: real, b: bool, s: string)
    requires s != ""
    ensures TimeInMs(Num(n)) == Success(0.0)
    ensures TimeInMs(Bool(b)) == Success(0.0)
    ensures TimeInMs(Str(s)).Failure?
  {
    assert OwnValues(Str(s))[0] == Str([s[0]]);
  }

  /**
   * An `Error` whose only data field is a non-numeric cause, as
   * `new Error(m, { cause })` makes it, passes: the constructor's `cause`
   * is not an own enumerable value, so `Object.values` does not show it to
   * the check, and the result is 0.  The same error with `cause` assigned
   * as a field fails.
   */
  lemma ConstructorCauseNotValidated(e: ErrorRecord)
    requires e.errorClass == NativeError && e.abortType.None? && e.initiator.None?
    requires e.reason == Undefined && e.metadata == Undefined && e.ms == Undefined && e.hasThrow == Undefined
    requires !NumberOrUndefined(e.cause)
    ensures !e.causeEnumerable ==> TimeInMs(Err(e)) == Success(0.0)
    ensures e.causeEnumerable ==> TimeInMs(Err(e)).Failure?
  {
    OnlyCauseEnumerable(e);
    if e.causeEnumerable {
      var cause := Property("cause", e.cause);
      assert cause in ErrorOwnEnumerable(e);
      var i :| 0 <= i < |ErrorOwnEnumerable(e)| && ErrorOwnEnumerable(e)[i] == cause;
      assert OwnValues(Err(e))[i] == e.cause;
    } else {
      NoMemberMeansEmpty(ErrorOwnEnumerable(e));
      ErrorMember(e, "milliseconds");
      ErrorMember(e, "seconds");
      ErrorMember(e, "minutes");
      ErrorMember(e, "hours");
    }
  }

  /** Non-negative components give a non-negative total. */
  lemma NonNegativeTotal(milliseconds: real, seconds: real, minutes: real, hours: real)
    requires milliseconds >= 0.0 && seconds >= 0.0 && minutes >= 0.0 && hours >= 0.0
    ensures Total(milliseconds, seconds, minutes, hours) >= 0.0
  {
    assert SECOND_IN_MS == 1000.0 && MINUTES_IN_MS == 60000.0 && HOURS_IN_MS == 3600000.0;
  }
}
