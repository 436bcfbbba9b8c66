/** The string building the library does with f-strings, `str()` and
    `"&".join(...)`, and the inverse operations a receiver would apply. */
module Text {
  import opened Json

  predicate IsDigit(c: char)
  {
    '0' <= c <= '9'
  }

  function DigitChar(d: nat): (c: char)
    requires d < 10
    ensures IsDigit(c)
  {
    "0123456789"[d]
  }

  function DigitValue(c: char): nat
    requires IsDigit(c)
  {
    (c as int) - ('0' as int)
  }

  /** `str(n)` for a non-negative int: decimal, no leading zeros. */
  function NatToString(n: nat): (s: string)
    ensures |s| > 0
    ensures forall i :: 0 <= i < |s| ==> IsDigit(s[i])
    decreases n
  {
    if n < 10 then [DigitChar(n)] else NatToString(n / 10) + [DigitChar(n % 10)]
  }

  /** `str(i)` for any int. */
  function IntToString(i: int): string
  {
    if i < 0 then "-" + NatToString(-i) else NatToString(i)
  }

  /** The value of a string of decimal digits (leading zeros allowed). */
  function ParseDigits(s: string): nat
    requires forall i :: 0 <= i < |s| ==> IsDigit(s[i])
  {
    if s == [] then 0 else ParseDigits(s[..|s| - 1]) * 10 + DigitValue(s[|s| - 1])
  }

  /** Reading back what `str(n)` wrote gives `n`. */
  lemma {:induction false} ParseNatToString(n: nat)
    ensures ParseDigits(NatToString(n)) == n
    decreases n
  {
    var s := NatToString(n);
    if n >= 10 {
      ParseNatToString(n / 10);
      assert s[..|s| - 1] == NatToString(n / 10);
    }
  }

  /** `sep.join(xs)`. */
  function Join(xs: seq<string>, sep: char): string
  {
    if xs == [] then ""
    else if |xs| == 1 then xs[0]
    else xs[0] + [sep] + Join(xs[1..], sep)
  }

  /** `s.split(sep)`: the pieces between occurrences of `sep`. */
  function Split(s: string, sep: char): (parts: seq<string>)
    ensures |parts| > 0
  {
    if s == [] then [""]
    else
      var rest := Split(s[1..], sep);
      if s[0] == sep then [""] + rest else [[s[0]] + rest[0]] + rest[1..]
  }

  lemma {:induction false} SplitPrefix(x: string, t: string, sep: char)
    requires sep !in x
    ensures Split(x + t, sep) == [x + Split(t, sep)[0]] + Split(t, sep)[1..]
  {
    var st := Split(t, sep);
    if x == [] {
      assert x + t == t;
      assert x + st[0] == st[0];
      assert st == [st[0]] + st[1..];
    } else {
      SplitPrefix(x[1..], t, sep);
      assert (x + t)[1..] == x[1..] + t;
      assert [x[0]] + (x[1..] + st[0]) == x + st[0];
    }
  }

  /** Splitting a joined list at the separator gives the list back, as long
      as no piece contains the separator. */
  lemma {:induction false} SplitJoin(xs: seq<string>, sep: char)
    requires |xs| > 0
    requires forall i :: 0 <= i < |xs| ==> sep !in xs[i]
    ensures Split(Join(xs, sep), sep) == xs
  {
    if |xs| == 1 {
      SplitPrefix(xs[0], "", sep);
      assert xs[0] + "" == xs[0];
    } else {
      SplitJoin(xs[1..], sep);
      var t := [sep] + Join(xs[1..], sep);
      SplitPrefix(xs[0], t, sep);
      assert t[1..] == Join(xs[1..], sep);
      assert Split(t, sep) == [""] + xs[1..];
      assert xs[0] + "" == xs[0];
      assert [xs[0]] + xs[1..] == xs;
      assert xs[0] + [sep] + Join(xs[1..], sep) == xs[0] + t;
    }
  }

  /** The text before and after the first occurrence of `sep`, if any
      (`s.partition(sep)` when `sep` occurs). */
  function SplitFirst(s: string, sep: char): Option<(string, string)>
  {
    if s == [] then None
    else if s[0] == sep then Some(("", s[1..]))
    else match SplitFirst(s[1..], sep)
      case None => None
      case Some(p) => Some(([s[0]] + p.0, p.1))
  }

  /** Cutting at the first separator recovers a prefix free of it, whatever
      the rest contains. */
  lemma {:induction false} SplitFirstConcat(a: string, b: string, sep: char)
    requires sep !in a
    ensures SplitFirst(a + [sep] + b, sep) == Some((a, b))
  {
    if a != [] {
      SplitFirstConcat(a[1..], b, sep);
      assert (a + [sep] + b)[1..] == a[1..] + [sep] + b;
      assert [a[0]] + a[1..] == a;
    } else {
      assert a + [sep] + b == [sep] + b;
    }
  }

  /** `str(v)` / `f"{v}"` of a decoded JSON value. A dict is rendered as a
      fixed placeholder rather than Python's repr. */
  function Render(v: Value): string
  {
    match v
    case Null => "None"
    case Bool(b) => if b then "True" else "False"
    case Int(i) => IntToString(i)
    case Str(s) => s
    case Obj(_) => "{...}"
  }
}
