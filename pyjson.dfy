/**
  * Decoded JSON values and the parts of Python's semantics that weather_app.py
  * applies to them: truthiness, the `in` operator with a string key and `== 0`.
  * Operations that Python would abort with an exception are explicit.
  */
module PyJson {
  import opened Wrappers

  /**
    * A value as `response.json()` returns it. Python ints and floats share one
    * numeric constructor: every comparison the program makes (`!= 0`, `> 0`)
    * treats them alike.
    */
  datatype Json =
    | JNull
    | JBool(b: bool)
    | JNum(n: real)
    | JStr(s: string)
    | JArr(items: seq<Json>)
    | JObj(fields: map<string, Json>)

  const EmptyObject: Json := JObj(map[])

  /** Python truthiness (`if value:`). */
  predicate Truthy(j: Json)
  {
    match j
    case JNull => false
    case JBool(b) => b
    case JNum(n) => n != 0.0
    case JStr(s) => s != ""
    case JArr(items) => items != []
    case JObj(fields) => fields != map[]
  }

  /** Python `value == 0`: also true of `False` and `0.0`. */
  predicate EqualsZero(j: Json)
  {
    j == JNum(0.0) || j == JBool(false)
  }

  /** An int, float or bool: the values Python's arithmetic and `>` accept. */
  predicate IsNumber(j: Json)
  {
    j.JNum? || j.JBool?
  }

  function NumberValue(j: Json): real
    requires IsNumber(j)
  {
    match j
    case JNum(n) => n
    case JBool(b) => if b then 1.0 else 0.0
  }

  /** Lists and dicts are unhashable: using one as a dictionary key raises TypeError. */
  predicate Hashable(j: Json)
  {
    !j.JArr? && !j.JObj?
  }

  /** Python `needle in hay` on two strings: substring test. */
  predicate IsSubstring(needle: string, hay: string)
    decreases |hay|
  {
    needle <= hay || (hay != [] && IsSubstring(needle, hay[1..]))
  }

  /** `key in j` is defined for dicts, lists and strings; on anything else it raises TypeError. */
  predicate SupportsIn(j: Json)
  {
    j.JObj? || j.JArr? || j.JStr?
  }

  /** Python `key in j` for a string key. */
  predicate Has(j: Json, key: string)
    requires SupportsIn(j)
  {
    match j
    case JObj(fields) => key in fields
    case JArr(items) => JStr(key) in items
    case JStr(s) => IsSubstring(key, s)
  }

  /** `a` is `b` with some elements left out, order kept. */
  predicate IsSubsequence<T(==)>(a: seq<T>, b: seq<T>)
    decreases |b|
  {
    if a == [] then true
    else if b == [] then false
    else if a[|a| - 1] == b[|b| - 1] then IsSubsequence(a[..|a| - 1], b[..|b| - 1])
    else IsSubsequence(a, b[..|b| - 1])
  }

  lemma {:induction false} SubsequenceDropLast<T>(a: seq<T>, b: seq<T>)
    requires a != [] && IsSubsequence(a, b)
    ensures IsSubsequence(a[..|a| - 1], b)
    decreases |b|, 1
  {
    var a', b' := a[..|a| - 1], b[..|b| - 1];
    if a[|a| - 1] == b[|b| - 1] {
      if a' != [] && a'[|a'| - 1] == b[|b| - 1] {
        SubsequenceDropLast(a', b');
      }
    } else {
      SubsequenceDropLast(a, b');
      SubsequenceExtend(a', b', b[|b| - 1]);
      assert b' + [b[|b| - 1]] == b;
    }
  }

  lemma {:induction false} SubsequenceExtend<T>(a: seq<T>, b: seq<T>, x: T)
    requires IsSubsequence(a, b)
    ensures IsSubsequence(a, b + [x])
    decreases |b|, 2
  {
    assert (b + [x])[..|b|] == b;
    if a != [] && a[|a| - 1] == x {
      SubsequenceDropLast(a, b);
    }
  }

  /**
    * The keys for which `key not in j` holds, in the order of `keys`: the list
    * comprehension `[f for f in keys if f not in j]`.
    */
  function MissingKeys(j: Json, keys: seq<string>): (r: seq<string>)
    requires SupportsIn(j)
    ensures forall k :: k in r <==> k in keys && !Has(j, k)
    ensures IsSubsequence(r, keys)
    decreases |keys|
  {
    if keys == [] then []
    else
      var init, last := keys[..|keys| - 1], keys[|keys| - 1];
      var m := MissingKeys(j, init);
      assert keys == init + [last];
      if Has(j, last) then
        SubsequenceExtend(m, init, last);
        m
      else
        assert (m + [last])[..|m|] == m;
        m + [last]
  }

  /** At most every key is reported. */
  lemma {:induction false} MissingKeysBound(j: Json, keys: seq<string>)
    requires SupportsIn(j)
    ensures |MissingKeys(j, keys)| <= |keys|
    decreases |keys|
  {
    if keys != [] {
      MissingKeysBound(j, keys[..|keys| - 1]);
    }
  }

  /** When no key is present, every key is reported, in order. */
  lemma {:induction false} NonePresent(j: Json, keys: seq<string>)
    requires SupportsIn(j) && forall k :: k in keys ==> !Has(j, k)
    ensures MissingKeys(j, keys) == keys
    decreases |keys|
  {
    if keys != [] {
      var init, last := keys[..|keys| - 1], keys[|keys| - 1];
      assert keys == init + [last];
      assert !Has(j, last);
      NonePresent(j, init);
      assert MissingKeys(j, keys) == MissingKeys(j, init) + [last];
    }
  }
}
