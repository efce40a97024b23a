/** Values shared by every part of the model: optional and JSON-shaped fields, the two
    array helpers the server leans on (`findIndex` and `filter`), and process environments. */
module Common {

  /** A value that may be absent (`undefined`, or the wrong JSON type where a
      `typeof` test guards it). */
  datatype Option<+T> = None | Some(value: T) {
    /** The value, or `default` when absent. */
    function GetOr(default: T): T {
      match this
      case Some(v) => v
      case None => default
    }
  }

  /** A JSON member that the source tells apart as missing (`undefined`), explicitly
      `null`, or carrying a value. */
  datatype Field<+T> = Absent | Null | Given(value: T)

  /** A JSON member tested with `Array.isArray`: missing, present but not an array
      (including `null`), or an array. */
  datatype ArrayField<+T> = Missing | NotArray | Array(elems: seq<T>)

  /** `Array.prototype.findIndex`: the first index whose element satisfies `f`, or -1. */
  function FindIndex<T>(s: seq<T>, f: T -> bool): (r: int)
    ensures -1 <= r < |s|
    ensures r == -1 <==> forall j :: 0 <= j < |s| ==> !f(s[j])
    ensures 0 <= r ==> f(s[r]) && forall j :: 0 <= j < r ==> !f(s[j])
  {
    if |s| == 0 then -1
    else if f(s[0]) then 0
    else
      var k := FindIndex(s[1..], f);
      if k == -1 then -1 else k + 1
  }

  /** `r` occurs in `s` in order, possibly with gaps (greedy leftmost matching). */
  predicate IsSubsequence<T(==)>(r: seq<T>, s: seq<T>)
    decreases |s|
  {
    |r| == 0 || (|s| > 0 && if r[0] == s[0] then IsSubsequence(r[1..], s[1..]) else IsSubsequence(r, s[1..]))
  }

  /** `Array.prototype.filter`: the elements satisfying `f`, in their original order. */
  function Filter<T(==)>(s: seq<T>, f: T -> bool): (r: seq<T>)
    ensures forall j :: 0 <= j < |r| ==> f(r[j])
    ensures |r| <= |s|
    ensures |r| == |s| <==> forall j :: 0 <= j < |s| ==> f(s[j])
  {
    if |s| == 0 then []
    else if f(s[0]) then [s[0]] + Filter(s[1..], f)
    else
      var rest := Filter(s[1..], f);
      assert |rest| < |s|;
      assert |rest| > 0 ==> rest[0] != s[0] by {
        if |rest| > 0 { assert rest[0] in rest; }
      }
      rest
  }

  /** `filter` keeps exactly the elements of `s` that pass `f`. */
  lemma {:induction false} FilterMembers<T>(s: seq<T>, f: T -> bool)
    ensures forall j :: 0 <= j < |Filter(s, f)| ==> Filter(s, f)[j] in s
    ensures forall j :: 0 <= j < |s| && f(s[j]) ==> s[j] in Filter(s, f)
  {
    if |s| > 0 {
      FilterMembers(s[1..], f);
      var rest := Filter(s[1..], f);
      forall j | 0 <= j < |rest|
        ensures rest[j] in s
      {
        assert rest[j] in s[1..];
      }
      forall j | 1 <= j < |s| && f(s[j])
        ensures s[j] in rest
      {
        assert s[j] == s[1..][j - 1];
      }
    }
  }

  /** What `filter` keeps is a subsequence of what it was given: the order is kept. */
  lemma {:induction false} FilterIsSubsequence<T>(s: seq<T>, f: T -> bool)
    ensures IsSubsequence(Filter(s, f), s)
  {
    if |s| > 0 {
      FilterIsSubsequence(s[1..], f);
      var rest := Filter(s[1..], f);
      if !f(s[0]) && |rest| > 0 {
        assert rest[0] in rest;
      }
    }
  }

  /** Filtering distributes over concatenation: the kept elements of `a` come before
      those of `b`. */
  lemma {:induction false} FilterAppend<T>(a: seq<T>, b: seq<T>, f: T -> bool)
    ensures Filter(a + b, f) == Filter(a, f) + Filter(b, f)
  {
    if |a| == 0 {
      assert a + b == b;
    } else {
      assert (a + b)[0] == a[0];
      assert (a + b)[1..] == a[1..] + b;
      FilterAppend(a[1..], b, f);
    }
  }

  /** Filtering with a test every element passes keeps the sequence whole. */
  lemma {:induction false} FilterKeepsAll<T>(s: seq<T>, f: T -> bool)
    requires forall j :: 0 <= j < |s| ==> f(s[j])
    ensures Filter(s, f) == s
  {
    if |s| > 0 {
      FilterKeepsAll(s[1..], f);
    }
  }

  /** Two tests that agree on every element filter alike. */
  lemma {:induction false} FilterSame<T>(s: seq<T>, f: T -> bool, g: T -> bool)
    requires forall j :: 0 <= j < |s| ==> f(s[j]) == g(s[j])
    ensures Filter(s, f) == Filter(s, g)
  {
    if |s| > 0 {
      FilterSame(s[1..], f, g);
    }
  }

  /** A process environment (`process.env`): unset variables are absent keys. */
  type Env = map<string, string>

  /** A variable counts as set when it is present and non-empty, as `process.env.X || d`
      and `!process.env[key]` test it. */
  predicate IsSet(env: Env, key: string) {
    key in env && env[key] != ""
  }

  /** `process.env[key] || default`. */
  function EnvOr(env: Env, key: string, default: string): (r: string)
    ensures IsSet(env, key) ==> r == env[key]
    ensures !IsSet(env, key) ==> r == default
  {
    if IsSet(env, key) then env[key] else default
  }

  /** `process.env[key]` itself: `undefined` when unset. */
  function EnvValue(env: Env, key: string): (r: Option<string>)
    ensures r.Some? <==> key in env
    ensures r.Some? ==> r.value == env[key]
  {
    if key in env then Some(env[key]) else None
  }
}
