/**
 * The subset of Laravel validation rules the services use on their request
 * fields. JSON numbers arrive as Int, JSON strings as Str.
 */
module Validation {
  import opened Http

  /** `required|integer` */
  predicate RequiredInteger(v: Value)
  {
    v.Int?
  }

  /** `required|integer|min:m` */
  predicate RequiredIntegerMin(v: Value, m: int)
  {
    v.Int? && v.i >= m
  }

  /** `sometimes|required|integer|min:m` (and `numeric|min:m` on an integer): an absent field passes. */
  predicate SometimesIntegerMin(v: Value, m: int)
  {
    v.Absent? || RequiredIntegerMin(v, m)
  }

  /** `required|string|max:n`; `required` refuses the empty string. */
  predicate RequiredStringMax(v: Value, n: nat)
  {
    v.Str? && v.s != "" && |v.s| <= n
  }

  /** `sometimes|required|string|max:n` */
  predicate SometimesStringMax(v: Value, n: nat)
  {
    v.Absent? || RequiredStringMax(v, n)
  }

  /** `nullable|string|max:n` */
  predicate NullableStringMax(v: Value, n: nat)
  {
    v.Absent? || v.Null? || (v.Str? && |v.s| <= n)
  }

  /** The parameter list of an `in:` rule is the text after the colon, split at commas. */
  function Split(s: string, sep: char): (parts: seq<string>)
    ensures |parts| >= 1
  {
    if |s| == 0 then [""]
    else
      var rest := Split(s[1..], sep);
      if s[0] == sep then [""] + rest else [[s[0]] + rest[0]] + rest[1..]
  }

  /** PHP `implode(sep, xs)`. */
  function Implode(xs: seq<string>, sep: char): (s: string)
  {
    if |xs| == 0 then ""
    else if |xs| == 1 then xs[0]
    else xs[0] + [sep] + Implode(xs[1..], sep)
  }

  /** `required|string|in:<rule>` */
  predicate InRule(v: Value, rule: string)
  {
    v.Str? && v.s != "" && v.s in Split(rule, ',')
  }

  lemma {:induction false} SplitNoSeparator(a: string, sep: char)
    requires sep !in a
    ensures Split(a, sep) == [a]
  {
    if |a| > 0 {
      SplitNoSeparator(a[1..], sep);
      assert [a[0]] + a[1..] == a;
    }
  }

  lemma {:induction false} SplitAtFirst(a: string, sep: char, b: string)
    requires sep !in a
    ensures Split(a + [sep] + b, sep) == [a] + Split(b, sep)
  {
    if |a| == 0 {
      assert a + [sep] + b == [sep] + b;
      assert ([sep] + b)[1..] == b;
    } else {
      SplitAtFirst(a[1..], sep, b);
      assert (a + [sep] + b)[1..] == a[1..] + [sep] + b;
      assert [a[0]] + a[1..] == a;
    }
  }

  /** Splitting an imploded list gives the list back when no element holds the separator. */
  lemma {:induction false} SplitImplode(xs: seq<string>, sep: char)
    requires |xs| >= 1
    requires forall i :: 0 <= i < |xs| ==> sep !in xs[i]
    ensures Split(Implode(xs, sep), sep) == xs
  {
    if |xs| == 1 {
      SplitNoSeparator(xs[0], sep);
    } else {
      SplitImplode(xs[1..], sep);
      SplitAtFirst(xs[0], sep, Implode(xs[1..], sep));
      assert [xs[0]] + xs[1..] == xs;
    }
  }
}
