/**
 * The JavaScript values the library inspects: primitives, arrays, objects
 * with their own enumerable properties in insertion order, functions (by
 * identity) and error objects.
 *
 * Error objects are a value kind of their own, `Err(ErrorRecord)`, so that the
 * path lookups of the classifiers (`cause.name`, `cause.message`) run over the
 * same values as every other lookup.  Every other non-array, non-function
 * object (a plain object, a Date, a Map, a Set, ...) is an `Obj`.
 */
module Js {
  import opened Wrappers

  /** Opaque identity of a callback function. */
  type CallbackId = nat

  datatype Value =
    | Undefined
    | Null
    | Bool(b: bool)
    | Num(n: real)
    | Str(s: string)
    | Arr(items: seq<Value>)
    | Obj(props: seq<Property>)
    | Func(id: CallbackId, fname: string)
    | Err(e: ErrorRecord)

  datatype Property = Property(key: string, value: Value)

  /** The two kinds of abort (`AbortType` of the source). */
  datatype AbortType = Cancelled | Aborted

  /** The class an error object is an instance of; stands for `instanceof`. */
  datatype ErrorClass =
    | PlainObject            // an object literal that merely looks like an error
    | NativeError            // `Error` or a subclass the library does not know
    | TypeErrorClass
    | DomAbortException      // the platform's `DOMException` named "AbortError"
    | AbortErrorClass        // the library's current `AbortError`
    | LegacyAbortErrorClass  // the earlier `AbortError` of the shared library
    | TimeoutErrorClass

  /**
   * An error object.  `Undefined` stands for an absent property; `name` is
   * the value `error.name` reads, own or inherited.  The fields after
   * `message` are those of the library's `AbortError` options (type,
   * reason, cause, initiator, metadata) and of its `TimeoutError` (ms,
   * hasThrow).  `causeEnumerable` tells how `cause` got there: assigned
   * as a field (an own enumerable property) or installed by
   * `new Error(message, { cause })` (own but not enumerable).
   */
  datatype ErrorRecord = ErrorRecord(
    errorClass: ErrorClass,
    name: Value,
    message: Value,
    abortType: Option<AbortType>,
    reason: Value,
    cause: Value,
    initiator: Option<string>,
    metadata: Value,
    ms: Value,
    hasThrow: Value,
    causeEnumerable: bool)

  /** JavaScript truthiness (NaN is not modelled). */
  predicate Truthy(v: Value) {
    match v
    case Undefined => false
    case Null => false
    case Bool(b) => b
    case Num(n) => n != 0.0
    case Str(s) => s != ""
    case _ => true
  }

  function AbortTypeName(t: AbortType): string {
    match t
    case Cancelled => "cancelled"
    case Aborted => "aborted"
  }

  /** The value of the first property named `key`, if there is one. */
  function Lookup(props: seq<Property>, key: string): (r: Option<Value>)
    ensures r.None? <==> forall i :: 0 <= i < |props| ==> props[i].key != key
    ensures r.Some? ==> Property(key, r.value) in props
  {
    if props == [] then None
    else if props[0].key == key then Some(props[0].value)
    else Lookup(props[1..], key)
  }

  /** The property names an error object can carry, in the order they are listed. */
  const ERROR_KEYS: seq<string> := ["name", "message", "type", "reason", "cause", "initiator", "metadata", "ms", "hasThrow"]

  /** The value of an error object's property `key` (undefined when absent or unknown). */
  function ErrorField(e: ErrorRecord, key: string): Value {
    if key == "name" then e.name
    else if key == "message" then e.message
    else if key == "type" then (if e.abortType.Some? then Str(AbortTypeName(e.abortType.value)) else Undefined)
    else if key == "reason" then e.reason
    else if key == "cause" then e.cause
    else if key == "initiator" then (if e.initiator.Some? then Str(e.initiator.value) else Undefined)
    else if key == "metadata" then e.metadata
    else if key == "ms" then e.ms
    else if key == "hasThrow" then e.hasThrow
    else Undefined
  }

  /** The properties an error object exposes, in a fixed order, absent ones left out. */
  function ErrorProperties(e: ErrorRecord): seq<Property> {
    PresentFields(e, ERROR_KEYS)
  }

  function PresentFields(e: ErrorRecord, keys: seq<string>): (r: seq<Property>)
    ensures forall p :: p in r <==> p.key in keys && p.value == ErrorField(e, p.key) && p.value != Undefined
  {
    if keys == [] then []
    else
      var v := ErrorField(e, keys[0]);
      (if v == Undefined then [] else [Property(keys[0], v)]) + PresentFields(e, keys[1..])
  }

  /** Reading a property of an error object reads the record's field. */
  lemma ErrorMember(e: ErrorRecord, key: string)
    ensures Member(Err(e), key) == ErrorField(e, key)
  {
    if ErrorField(e, key) != Undefined {
      assert key in ERROR_KEYS;
      assert Property(key, ErrorField(e, key)) in ErrorProperties(e);
    }
  }

  /**
   * The own enumerable properties of a value, as `Object.values` and the
   * spread `{...v}` see them.  Properties an error class assigns in its
   * constructor are enumerable; `message` (set by `Error`) is not,
   * `name` is own only where the class assigns it, and `cause` is not
   * enumerable where the `Error` constructor installed it.  Arrays and strings
   * contribute their indices; other primitives and functions nothing.
   */
  function OwnEnumerable(v: Value): seq<Property> {
    if v.Err? then ErrorOwnEnumerable(v.e)
    else if v.Obj? then v.props
    else if v.Arr? then Indexed(v.items, 0)
    else if v.Str? then Indexed(Chars(v.s), 0)
    else []
  }

  /** The own enumerable properties of an error object. */
  function ErrorOwnEnumerable(e: ErrorRecord): seq<Property> {
    if e.errorClass == PlainObject then ErrorProperties(e)
    else Enumerable(ErrorProperties(e), e.errorClass == AbortErrorClass || e.errorClass == LegacyAbortErrorClass, e.causeEnumerable)
  }

  /** A sequence with no member is empty. */
  lemma NoMemberMeansEmpty<T>(s: seq<T>)
    ensures (forall x :: x !in s) ==> s == []
  {
    if s != [] {
      assert s[0] in s;
    }
  }

  /** An `Error` whose only data field is its cause exposes that cause exactly when it is enumerable. */
  lemma OnlyCauseEnumerable(e: ErrorRecord)
    requires e.errorClass == NativeError
    requires e.abortType.None? && e.initiator.None?
    requires e.reason == Undefined && e.metadata == Undefined && e.ms == Undefined && e.hasThrow == Undefined
    ensures forall p :: p in ErrorOwnEnumerable(e) <==> e.causeEnumerable && e.cause != Undefined && p == Property("cause", e.cause)
  {
    forall p | p in ErrorOwnEnumerable(e)
      ensures p == Property("cause", e.cause)
    {
      assert p in ErrorProperties(e);
    }
  }

  function Enumerable(props: seq<Property>, ownName: bool, ownCause: bool): (r: seq<Property>)
    ensures forall p :: p in r <==> p in props && p.key != "message" && (ownName || p.key != "name") && (ownCause || p.key != "cause")
  {
    if props == [] then []
    else
      var p := props[0];
      (if p.key != "message" && (ownName || p.key != "name") && (ownCause || p.key != "cause") then [p] else [])
      + Enumerable(props[1..], ownName, ownCause)
  }

  function Chars(s: string): (r: seq<Value>)
    ensures |r| == |s| && forall i :: 0 <= i < |s| ==> r[i] == Str([s[i]])
  {
    if s == [] then [] else [Str([s[0]])] + Chars(s[1..])
  }

  /** Index properties `from`, `from + 1`, ... of the given elements. */
  function Indexed(items: seq<Value>, from: nat): (r: seq<Property>)
    ensures |r| == |items| && forall i :: 0 <= i < |items| ==> r[i] == Property(Decimal(from + i), items[i])
  {
    if items == [] then [] else [Property(Decimal(from), items[0])] + Indexed(items[1..], from + 1)
  }

  /** `Object.values(v)`. */
  function OwnValues(v: Value): (r: seq<Value>)
    ensures |r| == |OwnEnumerable(v)| && forall i :: 0 <= i < |r| ==> r[i] == OwnEnumerable(v)[i].value
  {
    Values(OwnEnumerable(v))
  }

  function Values(props: seq<Property>): (r: seq<Value>)
    ensures |r| == |props| && forall i :: 0 <= i < |r| ==> r[i] == props[i].value
  {
    if props == [] then [] else [props[0].value] + Values(props[1..])
  }

  predicate IsDigit(c: char) { '0' <= c <= '9' }

  function DigitValue(c: char): nat requires IsDigit(c) { c as int - '0' as int }

  function DigitsValue(s: string): nat
    requires forall i :: 0 <= i < |s| ==> IsDigit(s[i])
  {
    if s == [] then 0 else DigitsValue(s[..|s| - 1]) * 10 + DigitValue(s[|s| - 1])
  }

  /**
   * The array index a property key denotes: a canonical decimal numeral
   * (no sign, no leading zero).  Indices past the end read `undefined`
   * anyway, so the 2^32 - 1 bound of array indices plays no part here.
   */
  function ArrayIndex(key: string): Option<nat> {
    if key != [] && (forall i :: 0 <= i < |key| ==> IsDigit(key[i])) && (key[0] != '0' || |key| == 1)
    then Some(DigitsValue(key))
    else None
  }

  /** The canonical decimal numeral of `n`, as `String(n)` writes it. */
  function Decimal(n: nat): (s: string)
    ensures s != [] && forall i :: 0 <= i < |s| ==> IsDigit(s[i])
  {
    if n < 10 then [('0' as int + n) as char]
    else Decimal(n / 10) + [('0' as int + n % 10) as char]
  }

  /**
   * Reading `v[key]` on a value that is neither null nor undefined (reading
   * a property of those throws).  Properties of primitives, array `length`
   * and inherited members other than `name` are not modelled and read as
   * `undefined`.
   */
  function Member(v: Value, key: string): Value
    requires v != Null && v != Undefined
  {
    match v
    case Obj(props) => Lookup(props, key).GetOr(Undefined)
    case Err(e) => Lookup(ErrorProperties(e), key).GetOr(Undefined)
    case Arr(items) =>
      (match ArrayIndex(key)
       case Some(n) => if n < |items| then items[n] else Undefined
       case None => Undefined)
    case Func(_, fname) => if key == "name" then Str(fname) else Undefined
    case _ => Undefined
  }

  /** `v?.[key]`: optional chaining, undefined on null and undefined. */
  function OptionalMember(v: Value, key: string): Value {
    if v == Null || v == Undefined then Undefined else Member(v, key)
  }

  lemma {:induction false} DecimalIsIndex(n: nat)
    ensures ArrayIndex(Decimal(n)) == Some(n)
  {
    var s := Decimal(n);
    if n < 10 {
      assert s[..|s| - 1] == [];
      assert DigitsValue(s) == DigitValue(s[0]) == n;
    } else {
      DecimalIsIndex(n / 10);
      var p := Decimal(n / 10);
      assert s[..|s| - 1] == p;
      assert DigitsValue(s) == DigitsValue(p) * 10 + n % 10;
      assert p[0] != '0' by {
        // the leading digit of a numeral of a positive number is not zero
        DecimalLeadingDigit(n / 10);
      }
    }
  }

  lemma {:induction false} DecimalLeadingDigit(n: nat)
    requires n > 0
    ensures Decimal(n)[0] != '0'
  {
    if n >= 10 {
      DecimalLeadingDigit(n / 10);
    }
  }
}
