/**
 * Dot-path lookup (`get`) and the object test (`isObject`) of the shared
 * utilities.  The two older utility files carry a textually identical `get`;
 * all three are this one function.
 */
module SharedUtils {
  import opened Js

  /** `s.split('.')`: the segments between dots, always at least one. */
  function Split(s: string): (parts: seq<string>)
    ensures |parts| >= 1
  {
    if s == [] then [""]
    else
      var rest := Split(s[1..]);
      if s[0] == '.' then [""] + rest else [[s[0]] + rest[0]] + rest[1..]
  }

  /** `parts.join('.')`. */
  function Join(parts: seq<string>): string
    requires |parts| >= 1
  {
    if |parts| == 1 then parts[0] else parts[0] + "." + Join(parts[1..])
  }

  predicate DotFree(s: string) {
    forall i :: 0 <= i < |s| ==> s[i] != '.'
  }

  /** One step of the fold: `acc && acc[key]`. */
  function Step(acc: Value, key: string): Value {
    if Truthy(acc) then Member(acc, key) else acc
  }

  /** `keys.reduce((acc, key) => acc && acc[key], acc)`. */
  function Reduce(acc: Value, keys: seq<string>): Value
    decreases |keys|
  {
    if keys == [] then acc else Reduce(Step(acc, keys[0]), keys[1..])
  }

  /** `get(obj, path)`. */
  function Get(obj: Value, path: string): Value {
    Reduce(obj, Split(path))
  }

  /** The result of `typeof v`. */
  function TypeOf(v: Value): string {
    match v
    case Undefined => "undefined"
    case Bool(_) => "boolean"
    case Num(_) => "number"
    case Str(_) => "string"
    case Func(_, _) => "function"
    case _ => "object"
  }

  /** `isObject(value)`: a non-null object that is not an array. */
  predicate IsObject(v: Value)
    ensures IsObject(v) <==> v.Obj? || v.Err?
  {
    v != Null && !v.Arr? && TypeOf(v) == "object"
  }

  // ---------------------------------------------------------------------
  // Splitting

  lemma {:induction false} SplitSegmentsAreDotFree(s: string)
    ensures forall i :: 0 <= i < |Split(s)| ==> DotFree(Split(s)[i])
  {
    if s != [] {
      SplitSegmentsAreDotFree(s[1..]);
      var rest := Split(s[1..]);
      if s[0] != '.' {
        assert DotFree([s[0]] + rest[0]) by {
          assert DotFree(rest[0]);
        }
      }
    }
  }

  /** Joining the segments gives the path back. */
  lemma {:induction false} JoinSplit(s: string)
    ensures Join(Split(s)) == s
  {
    if s != [] {
      JoinSplit(s[1..]);
      var rest := Split(s[1..]);
      if s[0] == '.' {
        assert Split(s) == [""] + rest;
        assert Split(s)[1..] == rest;
      } else if |rest| == 1 {
        assert Split(s) == [[s[0]] + rest[0]];
      } else {
        assert Split(s)[1..] == rest[1..];
        assert Join(rest) == rest[0] + "." + Join(rest[1..]);
      }
    }
  }

  /** Splitting a join of dot-free segments gives the segments back. */
  lemma {:induction false} SplitJoin(parts: seq<string>)
    requires |parts| >= 1
    requires forall i :: 0 <= i < |parts| ==> DotFree(parts[i])
    ensures Split(Join(parts)) == parts
  {
    if |parts| == 1 {
      SplitDotFree(parts[0]);
    } else {
      SplitJoin(parts[1..]);
      SplitPrefix(parts[0], Join(parts[1..]));
      assert parts == [parts[0]] + parts[1..];
    }
  }

  lemma {:induction false} SplitDotFree(p: string)
    requires DotFree(p)
    ensures Split(p) == [p]
  {
    if p != [] {
      SplitDotFree(p[1..]);
      assert [p[0]] + p[1..] == p;
    }
  }

  /** A dot-free prefix followed by a dot becomes a segment of its own. */
  lemma {:induction false} SplitPrefix(p: string, q: string)
    requires DotFree(p)
    ensures Split(p + "." + q) == [p] + Split(q)
  {
    if p == [] {
      assert p + "." + q == "." + q;
      assert ("." + q)[1..] == q;
    } else {
      SplitPrefix(p[1..], q);
      assert (p + "." + q)[1..] == p[1..] + "." + q;
      assert [p[0]] + p[1..] == p;
    }
  }

  lemma {:induction false} JoinConcat(a: seq<string>, b: seq<string>)
    requires |a| >= 1 && |b| >= 1
    ensures Join(a + b) == Join(a) + "." + Join(b)
  {
    if |a| == 1 {
      assert (a + b)[1..] == b;
    } else {
      JoinConcat(a[1..], b);
      assert (a + b)[1..] == a[1..] + b;
    }
  }

  /** Splitting a path at a dot splits its segment list there. */
  lemma SplitConcat(p: string, q: string)
    ensures Split(p + "." + q) == Split(p) + Split(q)
  {
    SplitSegmentsAreDotFree(p);
    SplitSegmentsAreDotFree(q);
    JoinSplit(p);
    JoinSplit(q);
    JoinConcat(Split(p), Split(q));
    SplitJoin(Split(p) + Split(q));
  }

  // ---------------------------------------------------------------------
  // The fold

  lemma {:induction false} ReduceConcat(acc: Value, a: seq<string>, b: seq<string>)
    ensures Reduce(acc, a + b) == Reduce(Reduce(acc, a), b)
    decreases |a|
  {
    if a != [] {
      assert (a + b)[0] == a[0] && (a + b)[1..] == a[1..] + b;
      ReduceConcat(Step(acc, a[0]), a[1..], b);
    } else {
      assert a + b == b;
    }
  }

  lemma {:induction false} ReduceFalsy(acc: Value, keys: seq<string>)
    requires !Truthy(acc)
    ensures Reduce(acc, keys) == acc
    decreases |keys|
  {
    if keys != [] {
      ReduceFalsy(acc, keys[1..]);
    }
  }

  /** Once a value on the path is falsy it is the result, unchanged: `get(null, 'a.b')` is null. */
  lemma GetFalsy(obj: Value, path: string)
    requires !Truthy(obj)
    ensures Get(obj, path) == obj
  {
    ReduceFalsy(obj, Split(path));
  }

  /** A path `p.q` looks up `q` in what `p` leads to. */
  lemma GetPathConcat(obj: Value, p: string, q: string)
    ensures Get(obj, p + "." + q) == Get(Get(obj, p), q)
  {
    SplitConcat(p, q);
    ReduceConcat(obj, Split(p), Split(q));
  }

  /** A dot-free path reads one property; falsy leaves (null, false, undefined, 0, "") come back as they are. */
  lemma GetSingleKey(obj: Value, key: string)
    requires DotFree(key) && Truthy(obj)
    ensures Get(obj, key) == Member(obj, key)
  {
    SplitDotFree(key);
    assert Reduce(obj, [key]) == Reduce(Step(obj, key), []);
  }

  /** A key that is not on an object reads as undefined. */
  lemma GetMissingKey(props: seq<Property>, key: string)
    requires DotFree(key)
    requires forall i :: 0 <= i < |props| ==> props[i].key != key
    ensures Get(Obj(props), key) == Undefined
  {
    GetSingleKey(Obj(props), key);
  }

  /** Numeric segments index into arrays. */
  lemma GetArrayIndex(items: seq<Value>, i: nat)
    requires i < |items|
    ensures Get(Arr(items), Decimal(i)) == items[i]
  {
    DecimalIsIndex(i);
    SplitDotFree(Decimal(i));
    GetSingleKey(Arr(items), Decimal(i));
  }

  /** The empty path looks up the key "" (and so is undefined on objects without that key). */
  lemma GetEmptyPath(obj: Value)
    requires Truthy(obj)
    ensures Get(obj, "") == Member(obj, "")
  {
    GetSingleKey(obj, "");
  }

  /** A property under another key, wherever it stands in the list, does not change a lookup. */
  lemma {:induction false} LookupSkipsOtherKey(before: seq<Property>, k: string, v: Value, after: seq<Property>, key: string)
    requires key != k
    ensures Lookup(before + [Property(k, v)] + after, key) == Lookup(before + after, key)
  {
    if before == [] {
      assert before + [Property(k, v)] + after == [Property(k, v)] + after;
      assert before + after == after;
      assert ([Property(k, v)] + after)[1..] == after;
    } else {
      assert (before + [Property(k, v)] + after)[1..] == before[1..] + [Property(k, v)] + after;
      assert (before + after)[1..] == before[1..] + after;
      assert (before + [Property(k, v)] + after)[0] == (before + after)[0] == before[0];
      LookupSkipsOtherKey(before[1..], k, v, after, key);
    }
  }

  /** A top-level property whose key contains a dot, wherever it stands, is never reached by any path. */
  lemma DottedKeyUnreachable(before: seq<Property>, k: string, v: Value, after: seq<Property>, path: string)
    requires !DotFree(k)
    ensures Get(Obj(before + [Property(k, v)] + after), path) == Get(Obj(before + after), path)
  {
    SplitSegmentsAreDotFree(path);
    var keys := Split(path);
    assert DotFree(keys[0]);
    assert keys[0] != k;
    LookupSkipsOtherKey(before, k, v, after, keys[0]);
  }
}
