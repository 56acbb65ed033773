/**
 * The small part of JavaScript's semantics that the trip-plan handler relies on:
 * truthiness (`x || y`, `x ? a : b`), template interpolation (`${x}`) and
 * `Array.prototype.join`; and, used only to state properties of the rendered text,
 * `String.prototype.split` and `String.prototype.includes`.
 */
module Js {

  /** A JavaScript value as far as truthiness and interpolation can tell (numbers are integers here). */
  datatype JsValue = Undefined | Null | Bool(b: bool) | Int(i: int) | Str(s: string)

  /** JavaScript truthiness: `undefined`, `null`, `false`, `0` and `""` are falsy. */
  predicate Truthy(v: JsValue): (b: bool)
    ensures !b <==> v in {Undefined, Null, Bool(false), Int(0), Str("")}
  {
    match v
    case Undefined => false
    case Null => false
    case Bool(b) => b
    case Int(i) => i != 0
    case Str(s) => s != ""
  }

  predicate IsDigit(c: char) {
    '0' <= c <= '9'
  }

  predicate AllDigits(s: string) {
    forall k :: 0 <= k < |s| ==> IsDigit(s[k])
  }

  function Digit(d: nat): (c: char)
    requires d < 10
    ensures IsDigit(c) && c as int - '0' as int == d
  {
    ('0' as int + d) as char
  }

  /** Decimal notation of a natural number, most significant digit first, no leading zeros. */
  function NatToString(n: nat): (s: string)
    ensures |s| >= 1 && AllDigits(s)
    ensures s[0] == '0' ==> n == 0
    decreases n
  {
    if n < 10 then [Digit(n)] else NatToString(n / 10) + [Digit(n % 10)]
  }

  /** Reads a string of decimal digits back as the number it denotes. */
  function ParseNat(s: string): nat
    requires AllDigits(s)
  {
    if |s| == 0 then 0 else 10 * ParseNat(s[..|s| - 1]) + (s[|s| - 1] as int - '0' as int)
  }

  /** Decimal text read back gives the number that was interpolated. */
  lemma {:induction false} ParseNatToString(n: nat)
    ensures ParseNat(NatToString(n)) == n
  {
    var s := NatToString(n);
    if n >= 10 {
      ParseNatToString(n / 10);
      assert s[..|s| - 1] == NatToString(n / 10);
    }
  }

  /** `String(i)` for an integer `i` (a minus sign, then the decimal digits of `|i|`). */
  function IntToString(i: int): (s: string)
    ensures s != ""
  {
    if i < 0 then "-" + NatToString(-i) else NatToString(i)
  }

  /**
   * The text that `${v}` inserts into a template literal. A truthy value never
   * interpolates to the empty string, so `v || d` never yields empty text when `d`
   * is not empty.
   */
  function Text(v: JsValue): (t: string)
    ensures Truthy(v) ==> t != ""
  {
    match v
    case Undefined => "undefined"
    case Null => "null"
    case Bool(b) => if b then "true" else "false"
    case Int(i) => IntToString(i)
    case Str(s) => s
  }

  /** An interpolated integer is its sign, then decimal digits that read back as its magnitude. */
  lemma IntTextReadsBack(i: int)
    ensures i >= 0 ==> AllDigits(Text(Int(i))) && ParseNat(Text(Int(i))) == i
    ensures i < 0 ==> Text(Int(i))[0] == '-' && AllDigits(Text(Int(i))[1..]) && ParseNat(Text(Int(i))[1..]) == -i
  {
    ParseNatToString(if i < 0 then -i else i);
    assert i < 0 ==> IntToString(i)[1..] == NatToString(-i);
  }

  /** `parts.join(sep)`: the parts in order with `sep` between neighbours and nowhere else. */
  function Join(parts: seq<string>, sep: string): string {
    if |parts| == 0 then ""
    else if |parts| == 1 then parts[0]
    else parts[0] + sep + Join(parts[1..], sep)
  }

  /** A joined text begins with the first part. */
  lemma JoinStartsWith(parts: seq<string>, sep: string)
    requires |parts| >= 1
    ensures Occurs(parts[0], Join(parts, sep), 0)
  {
    if |parts| > 1 {
      OccursBefore(parts[0], sep + Join(parts[1..], sep));
      assert parts[0] + sep + Join(parts[1..], sep) == parts[0] + (sep + Join(parts[1..], sep));
    }
  }

  /** A joined text ends with the last part, so no separator trails. */
  lemma {:induction false} JoinEndsWith(parts: seq<string>, sep: string)
    requires |parts| >= 1
    ensures Occurs(parts[|parts| - 1], Join(parts, sep), |Join(parts, sep)| - |parts[|parts| - 1]|)
  {
    var last := parts[|parts| - 1];
    if |parts| == 1 {
      OccursAfter([], last);
    } else {
      var prefix, rest := parts[0] + sep, Join(parts[1..], sep);
      JoinEndsWith(parts[1..], sep);
      assert parts[1..][|parts[1..]| - 1] == last;
      OccursAfter(prefix, rest);
      OccursWithin(last, rest, prefix + rest, |rest| - |last|, |prefix|);
    }
  }

  /** `s.split(sep)` for a one-character separator; the empty string splits into `[""]`. */
  function Split(s: string, sep: char): (parts: seq<string>)
    ensures |parts| >= 1
  {
    if s == [] then [""]
    else
      var rest := Split(s[1..], sep);
      if s[0] == sep then [""] + rest else [[s[0]] + rest[0]] + rest[1..]
  }

  /** `t` stands in `s` starting at position `k`. */
  predicate Occurs(t: string, s: string, k: int) {
    0 <= k && k + |t| <= |s| && s[k..k + |t|] == t
  }

  /** `s.includes(t)`. */
  ghost predicate Includes(s: string, t: string) {
    exists k :: Occurs(t, s, k)
  }

  /** An occurrence inside an occurrence is an occurrence in the outer string. */
  lemma OccursWithin(t: string, s: string, u: string, k: int, j: int)
    requires Occurs(t, s, k) && Occurs(s, u, j)
    ensures Occurs(t, u, j + k)
  {
    forall m | 0 <= m < |t|
      ensures u[j + k..j + k + |t|][m] == t[m]
    {
      assert t[m] == s[k + m] == u[j + k + m];
    }
  }

  /** A string occurs in any concatenation it is the middle of, right after the prefix. */
  lemma OccursBetween(x: string, t: string, y: string)
    ensures Occurs(t, x + t + y, |x|)
  {
    assert (x + t + y)[|x|..|x| + |t|] == t;
  }

  /**
   * In a template `x + t + y`, then three holes between fixed texts, then a tail `q`:
   * `t` stands after `x`, each filling right after the text before it, and `q` ends it.
   */
  lemma {:induction false} ThreeHoles(x: string, t: string, y: string, a: string, m1: string, r: string, m2: string, h: string, q: string)
    ensures var p := x + t + y;
      var u := p + a + m1 + r + m2 + h + q;
      Occurs(t, u, |x|) &&
      Occurs(a, u, |p|) &&
      Occurs(r, u, |p| + |a| + |m1|) &&
      Occurs(h, u, |p| + |a| + |m1| + |r| + |m2|) &&
      Occurs(q, u, |u| - |q|)
  {
    var s0 := x + t;
    var p := s0 + y;
    var s2 := p + a;
    var s3 := s2 + m1;
    var s4 := s3 + r;
    var s5 := s4 + m2;
    var s6 := s5 + h;
    OccursAfter(x, t);
    OccursExtend(t, s0, |x|, y);
    OccursExtend(t, p, |x|, a);
    OccursAfter(p, a);
    OccursExtend(t, s2, |x|, m1);
    OccursExtend(a, s2, |p|, m1);
    OccursExtend(t, s3, |x|, r);
    OccursExtend(a, s3, |p|, r);
    OccursAfter(s3, r);
    OccursExtend(t, s4, |x|, m2);
    OccursExtend(a, s4, |p|, m2);
    OccursExtend(r, s4, |s3|, m2);
    OccursExtend(t, s5, |x|, h);
    OccursExtend(a, s5, |p|, h);
    OccursExtend(r, s5, |s3|, h);
    OccursAfter(s5, h);
    OccursExtend(t, s6, |x|, q);
    OccursExtend(a, s6, |p|, q);
    OccursExtend(r, s6, |s3|, q);
    OccursExtend(h, s6, |s5|, q);
    OccursAfter(s6, q);
  }

  /** Each filling of a template with four holes occurs right after the text before it. */
  lemma {:induction false} FourHoles(p: string, a: string, m1: string, b: string, m2: string, c: string, m3: string, d: string, q: string)
    ensures var u := p + a + m1 + b + m2 + c + m3 + d + q;
      Occurs(a, u, |p|) &&
      Occurs(b, u, |p| + |a| + |m1|) &&
      Occurs(c, u, |p| + |a| + |m1| + |b| + |m2|) &&
      Occurs(d, u, |p| + |a| + |m1| + |b| + |m2| + |c| + |m3|)
  {
    var s1 := p + a;
    var s2 := s1 + m1 + b;
    var s3 := s2 + m2 + c;
    var s4 := s3 + m3 + d;
    OccursAfter(p, a);
    OccursExtend(a, s1, |p|, m1);
    OccursExtend(a, s1 + m1, |p|, b);
    OccursAfter(s1 + m1, b);
    OccursExtend(a, s2, |p|, m2);
    OccursExtend(b, s2, |s1 + m1|, m2);
    OccursExtend(a, s2 + m2, |p|, c);
    OccursExtend(b, s2 + m2, |s1 + m1|, c);
    OccursAfter(s2 + m2, c);
    OccursExtend(a, s3, |p|, m3);
    OccursExtend(b, s3, |s1 + m1|, m3);
    OccursExtend(c, s3, |s2 + m2|, m3);
    OccursExtend(a, s3 + m3, |p|, d);
    OccursExtend(b, s3 + m3, |s1 + m1|, d);
    OccursExtend(c, s3 + m3, |s2 + m2|, d);
    OccursAfter(s3 + m3, d);
    OccursExtend(a, s4, |p|, q);
    OccursExtend(b, s4, |s1 + m1|, q);
    OccursExtend(c, s4, |s2 + m2|, q);
    OccursExtend(d, s4, |s3 + m3|, q);
  }

  /** An occurrence stays where it is when more text is appended. */
  lemma OccursExtend(t: string, s: string, k: int, y: string)
    requires Occurs(t, s, k)
    ensures Occurs(t, s + y, k)
  {
    assert (s + y)[k..k + |t|] == s[k..k + |t|];
  }

  /** A string begins any concatenation it is the front of. */
  lemma OccursBefore(x: string, y: string)
    ensures Occurs(x, x + y, 0)
  {
    assert (x + y)[..|x|] == x;
  }

  /** A string ends any concatenation it is the back of. */
  lemma OccursAfter(x: string, y: string)
    ensures Occurs(y, x + y, |x|)
  {
    assert (x + y)[|x|..] == y;
  }

  /** Joining one more part appends the separator and that part, and nothing else. */
  lemma {:induction false} JoinSnoc(parts: seq<string>, p: string, sep: string)
    requires |parts| >= 1
    ensures Join(parts + [p], sep) == Join(parts, sep) + sep + p
  {
    if |parts| > 1 {
      assert (parts + [p])[1..] == parts[1..] + [p];
      JoinSnoc(parts[1..], p, sep);
    } else {
      assert parts + [p] == [parts[0], p];
    }
  }

  /** Where the `i`th part starts in `Join(parts, sep)`. */
  function PartOffset(parts: seq<string>, sep: string, i: nat): nat
    requires i < |parts|
  {
    if i == 0 then 0 else |parts[0]| + |sep| + PartOffset(parts[1..], sep, i - 1)
  }

  /** Every part appears verbatim in the joined string, at its offset. */
  lemma {:induction false} JoinPartAt(parts: seq<string>, sep: string, i: nat)
    requires i < |parts|
    ensures Occurs(parts[i], Join(parts, sep), PartOffset(parts, sep, i))
  {
    if i == 0 {
      JoinStartsWith(parts, sep);
    } else {
      JoinPartAt(parts[1..], sep, i - 1);
      var prefix := parts[0] + sep;
      assert Join(parts, sep) == prefix + Join(parts[1..], sep);
      assert Occurs(Join(parts[1..], sep), Join(parts, sep), |prefix|);
      OccursWithin(parts[i], Join(parts[1..], sep), Join(parts, sep), PartOffset(parts[1..], sep, i - 1), |prefix|);
    }
  }

  /** A string without the separator splits into itself. */
  lemma {:induction false} SplitWithoutSeparator(p: string, sep: char)
    requires sep !in p
    ensures Split(p, sep) == [p]
  {
    if p != [] {
      SplitWithoutSeparator(p[1..], sep);
      assert [p[0]] + p[1..] == p;
    }
  }

  /** A separator-free piece followed by the separator splits off as the first part. */
  lemma {:induction false} SplitAfterPiece(p: string, sep: char, rest: string)
    requires sep !in p
    ensures Split(p + [sep] + rest, sep) == [p] + Split(rest, sep)
  {
    var s := p + [sep] + rest;
    if p == [] {
      assert s[1..] == rest;
    } else {
      assert s[1..] == p[1..] + [sep] + rest;
      SplitAfterPiece(p[1..], sep, rest);
      assert [p[0]] + p[1..] == p;
    }
  }

  /** `split` undoes `join` when no part contains the separator. */
  lemma {:induction false} SplitJoin(parts: seq<string>, sep: char)
    requires |parts| >= 1
    requires forall i :: 0 <= i < |parts| ==> sep !in parts[i]
    ensures Split(Join(parts, [sep]), sep) == parts
  {
    if |parts| == 1 {
      SplitWithoutSeparator(parts[0], sep);
    } else {
      SplitJoin(parts[1..], sep);
      SplitAfterPiece(parts[0], sep, Join(parts[1..], [sep]));
      assert [parts[0]] + parts[1..] == parts;
    }
  }
}
