/** The few JavaScript built-ins the visualiser's data path relies on, with
    their JavaScript meaning: `undefined` for an index past the end of an
    array, `String.prototype.split` and `join`, `Math.round`, `Math.max`,
    `Math.abs`, `String.prototype.includes`, plain objects with their
    insertion-ordered keys, and the decimal rendering of an integer. */
module Js {

  datatype Option<+T> = None | Some(value: T)

  /** A number as the force-plate parser can produce it: a finite value or NaN. */
  datatype Num = Val(v: real) | NaN

  /** A property value of a plain object: `undefined` or a finite number. */
  datatype Value = Undefined | Number(n: real)

  // ---------------------------------------------------------------------------
  // Array reads

  /** `xs[i]`: an index outside the array reads `undefined`. */
  function At<T>(xs: seq<T>, i: int): (r: Option<T>)
    ensures r.Some? <==> 0 <= i < |xs|
    ensures r.Some? ==> r.value == xs[i]
  {
    if 0 <= i < |xs| then Some(xs[i]) else None
  }

  /** `values[i]` on a numeric array, as a property value. */
  function ValueAt(values: seq<real>, i: int): Value
  {
    if 0 <= i < |values| then Number(values[i]) else Undefined
  }

  // ---------------------------------------------------------------------------
  // Arithmetic on numbers that may be NaN

  function Mul(a: Num, k: real): Num
  {
    match a
    case NaN => NaN
    case Val(x) => Val(x * k)
  }

  function Neg(a: Num): Num
  {
    match a
    case NaN => NaN
    case Val(x) => Val(-x)
  }

  /** `c - a`. */
  function SubFrom(c: real, a: Num): Num
  {
    match a
    case NaN => NaN
    case Val(x) => Val(c - x)
  }

  /** `a / s`; a zero divisor gives NaN here (see the README). */
  function Div(a: real, s: Num): Num
  {
    match s
    case NaN => NaN
    case Val(d) => if d == 0.0 then NaN else Val(a / d)
  }

  /** `Math.abs(v)`: `Math.abs(undefined)` is NaN. */
  function Abs(v: Value): Num
  {
    match v
    case Undefined => NaN
    case Number(x) => Val(if x < 0.0 then -x else x)
  }

  function MaxOf(a: Num, b: Num): Num
  {
    match (a, b)
    case (Val(x), Val(y)) => Val(if x < y then y else x)
    case _ => NaN
  }

  /** `Math.max(...xs)` on a non-empty list: NaN as soon as one argument is
      NaN, otherwise the largest argument. */
  function JsMax(xs: seq<Num>): (r: Num)
    requires |xs| > 0
    ensures r == NaN <==> NaN in xs
    ensures r.Val? ==> r in xs
    ensures r.Val? ==> forall i :: 0 <= i < |xs| ==> xs[i].Val? && xs[i].v <= r.v
  {
    if |xs| == 1 then xs[0] else MaxOf(xs[0], JsMax(xs[1..]))
  }

  /** `Math.round(x)`: the nearest integer, a half rounded towards +infinity. */
  function Round(x: real): (r: int)
    ensures x - 0.5 < r as real <= x + 0.5
  {
    (x + 0.5).Floor
  }

  // ---------------------------------------------------------------------------
  // Strings

  /** `s.split(sep)` for a one-character separator: never empty, and `""`
      splits into `[""]`. */
  function Split(s: string, sep: char): (parts: seq<string>)
    ensures |parts| >= 1
    ensures forall i :: 0 <= i < |parts| ==> sep !in parts[i]
    decreases |s|
  {
    if |s| == 0 then [""]
    else
      var rest := Split(s[1..], sep);
      if s[0] == sep then [""] + rest
      else [[s[0]] + rest[0]] + rest[1..]
  }

  /** `parts.join(sep)`. */
  function Join(parts: seq<string>, sep: char): string
  {
    if |parts| == 0 then ""
    else if |parts| == 1 then parts[0]
    else parts[0] + [sep] + Join(parts[1..], sep)
  }

  /** The number of occurrences of `c` in `s`. */
  function Occurrences(s: string, c: char): nat
  {
    if |s| == 0 then 0 else (if s[0] == c then 1 else 0) + Occurrences(s[1..], c)
  }

  /** Splitting yields one part more than there are separators. */
  lemma {:induction false} SplitLength(s: string, sep: char)
    ensures |Split(s, sep)| == Occurrences(s, sep) + 1
    decreases |s|
  {
    if |s| > 0 {
      SplitLength(s[1..], sep);
    }
  }

  /** A text splits into more than one part exactly when it holds the separator. */
  lemma SplitMoreThanOneIff(s: string, sep: char)
    ensures |Split(s, sep)| > 1 <==> sep in s
  {
    SplitLength(s, sep);
    OccurrencesPositiveIff(s, sep);
  }

  lemma {:induction false} OccurrencesPositiveIff(s: string, c: char)
    ensures Occurrences(s, c) > 0 <==> c in s
    decreases |s|
  {
    if |s| > 0 {
      OccurrencesPositiveIff(s[1..], c);
      assert s == [s[0]] + s[1..];
    }
  }

  /** Joining the parts of a split gives back the text. */
  lemma {:induction false} JoinSplit(s: string, sep: char)
    ensures Join(Split(s, sep), sep) == s
    decreases |s|
  {
    if |s| > 0 {
      var rest := Split(s[1..], sep);
      JoinSplit(s[1..], sep);
      if s[0] == sep {
        assert Join([""] + rest, sep) == "" + [sep] + Join(rest, sep) by {
          assert ([""] + rest)[1..] == rest;
        }
      } else if |rest| == 1 {
        assert Join(rest, sep) == rest[0];
      } else {
        var parts := [[s[0]] + rest[0]] + rest[1..];
        assert parts[1..] == rest[1..];
        assert Join(parts, sep) == [s[0]] + rest[0] + [sep] + Join(rest[1..], sep);
        assert Join(rest, sep) == rest[0] + [sep] + Join(rest[1..], sep);
      }
    }
  }

  /** A text without the separator is a single part. */
  lemma {:induction false} SplitWithoutSeparator(s: string, sep: char)
    requires sep !in s
    ensures Split(s, sep) == [s]
    decreases |s|
  {
    if |s| > 0 {
      SplitWithoutSeparator(s[1..], sep);
      assert [s[0]] + s[1..] == s;
    }
  }

  /** Splitting `a + sep + b`, where `a` holds no separator, yields `a` and
      then the parts of `b`. */
  lemma {:induction false} SplitAfterFirst(a: string, sep: char, b: string)
    requires sep !in a
    ensures Split(a + [sep] + b, sep) == [a] + Split(b, sep)
    decreases |a|
  {
    if |a| == 0 {
      assert a + [sep] + b == [sep] + b;
      assert ([sep] + b)[1..] == b;
    } else {
      SplitAfterFirst(a[1..], sep, b);
      var s := a + [sep] + b;
      assert s[0] == a[0];
      assert s[1..] == a[1..] + [sep] + b;
      assert [a[0]] + a[1..] == a;
    }
  }

  /** Splitting the join of separator-free parts gives back the parts. */
  lemma {:induction false} SplitJoin(parts: seq<string>, sep: char)
    requires |parts| >= 1
    requires forall i :: 0 <= i < |parts| ==> sep !in parts[i]
    ensures Split(Join(parts, sep), sep) == parts
    decreases |parts|
  {
    if |parts| == 1 {
      SplitWithoutSeparator(parts[0], sep);
    } else {
      SplitJoin(parts[1..], sep);
      SplitAfterFirst(parts[0], sep, Join(parts[1..], sep));
      assert [parts[0]] + parts[1..] == parts;
    }
  }

  /** `s.includes(sub)`. */
  predicate Includes(s: string, sub: string)
    decreases |s|
  {
    sub <= s || (|s| > 0 && Includes(s[1..], sub))
  }

  /** `sub` occurs in `s` starting at position `i`. */
  predicate OccursAt(s: string, sub: string, i: int)
  {
    0 <= i <= |s| - |sub| && s[i..i + |sub|] == sub
  }

  /** A slice of the tail is the slice of the whole one position further on. */
  lemma TailSlice(s: string, a: int, b: int)
    requires |s| > 0 && 0 <= a <= b <= |s| - 1
    ensures s[1..][a..b] == s[a + 1..b + 1]
  {
  }

  /** `includes` finds `sub` exactly when it occurs at some position of `s`. */
  lemma IncludesIffOccurs(s: string, sub: string)
    ensures Includes(s, sub) <==> exists i :: OccursAt(s, sub, i)
  {
    if Includes(s, sub) {
      IncludesOccurs(s, sub);
    }
    if exists i :: OccursAt(s, sub, i) {
      var i :| OccursAt(s, sub, i);
      OccursIncludes(s, sub, i);
    }
  }

  lemma {:induction false} IncludesOccurs(s: string, sub: string)
    requires Includes(s, sub)
    ensures exists i :: OccursAt(s, sub, i)
    decreases |s|
  {
    if sub <= s {
      assert OccursAt(s, sub, 0);
    } else {
      IncludesOccurs(s[1..], sub);
      var j :| OccursAt(s[1..], sub, j);
      TailSlice(s, j, j + |sub|);
      assert OccursAt(s, sub, j + 1);
    }
  }

  lemma {:induction false} OccursIncludes(s: string, sub: string, i: int)
    requires OccursAt(s, sub, i)
    ensures Includes(s, sub)
    decreases i
  {
    if i == 0 {
      assert sub <= s;
    } else {
      TailSlice(s, i - 1, i - 1 + |sub|);
      OccursIncludes(s[1..], sub, i - 1);
    }
  }

  // ---------------------------------------------------------------------------
  // Decimal rendering of integers (`String(n)` for an integral number)

  function Digit(d: nat): (c: char)
    requires d < 10
    ensures '0' <= c <= '9'
  {
    ('0' as int + d) as char
  }

  predicate IsDigits(s: string)
  {
    forall i :: 0 <= i < |s| ==> '0' <= s[i] <= '9'
  }

  function NatToString(n: nat): (s: string)
    ensures |s| >= 1 && IsDigits(s)
    ensures s[0] == '0' ==> n == 0
    decreases n
  {
    if n < 10 then [Digit(n)] else NatToString(n / 10) + [Digit(n % 10)]
  }

  function IntToString(n: int): string
  {
    if n < 0 then "-" + NatToString(-n) else NatToString(n)
  }

  /** The value of a string of decimal digits. */
  function DigitsValue(s: string): nat
    requires IsDigits(s)
  {
    if |s| == 0 then 0
    else DigitsValue(s[..|s| - 1]) * 10 + (s[|s| - 1] as int - '0' as int)
  }

  /** Reading the digits back gives the number. */
  lemma {:induction false} NatToStringValue(n: nat)
    ensures DigitsValue(NatToString(n)) == n
    decreases n
  {
    if n >= 10 {
      NatToStringValue(n / 10);
      var s := NatToString(n);
      assert s[..|s| - 1] == NatToString(n / 10);
    }
  }

  // ---------------------------------------------------------------------------
  // Plain objects: own keys in insertion order and their values

  datatype Obj = Obj(keys: seq<string>, fields: map<string, Value>)

  predicate WellFormed(o: Obj)
  {
    && (forall i, j :: 0 <= i < j < |o.keys| ==> o.keys[i] != o.keys[j])
    && (forall k :: k in o.fields ==> k in o.keys)
    && (forall i :: 0 <= i < |o.keys| ==> o.keys[i] in o.fields)
  }

  /** A plain object: every own key once, each with a value. */
  type Object = o: Obj | WellFormed(o) witness Obj([], map[])

  /** `k in o`. */
  predicate Has(o: Object, k: string)
  {
    k in o.fields
  }

  /** `o[k]`: a missing key reads `undefined`. */
  function Get(o: Object, k: string): Value
  {
    if k in o.fields then o.fields[k] else Undefined
  }

  /** A key is in an object exactly when it is among its listed keys. */
  lemma HasIffListed(o: Object, k: string)
    ensures Has(o, k) <==> k in o.keys
  {
  }

  /** `{...o, k: v}`: an existing key keeps its place, a new one goes last. */
  function With(o: Object, k: string, v: Value): Object
  {
    if k in o.fields then Obj(o.keys, o.fields[k := v])
    else
      var keys := o.keys + [k];
      assert forall i :: 0 <= i < |o.keys| ==> keys[i] == o.keys[i] && keys[i] in o.fields;
      Obj(keys, o.fields[k := v])
  }

  /** The spread sets k to v, leaves every other key as it was, and lists a
      new key last. */
  lemma WithFields(o: Object, k: string, v: Value)
    ensures Get(With(o, k, v), k) == v && Has(With(o, k, v), k)
    ensures forall k' :: k' != k ==> Get(With(o, k, v), k') == Get(o, k') && (Has(With(o, k, v), k') <==> Has(o, k'))
    ensures With(o, k, v).keys == if Has(o, k) then o.keys else o.keys + [k]
  {
  }
}
