/** The few string operations of Python the script relies on. */
module Text {
  import opened Results

  /** `"{}".format(t)`: the text itself, or "None" for a missing text. */
  function Str(t: Option<string>): string {
    if t.Some? then t.value else "None"
  }

  /** `repr()` of a text value inside a printed dict: quoted, or None. */
  function Repr(t: Option<string>): string {
    if t.Some? then "'" + t.value + "'" else "None"
  }

  /** `str.lower()` on ASCII letters. */
  function Lower(s: string): (r: string)
    ensures |r| == |s|
    ensures forall i :: 0 <= i < |s| ==> ('A' <= s[i] <= 'Z' ==> r[i] == s[i] - 'A' + 'a')
    ensures forall i :: 0 <= i < |s| ==> !('A' <= s[i] <= 'Z') ==> r[i] == s[i]
  {
    if s == [] then []
    else [if 'A' <= s[0] <= 'Z' then s[0] - 'A' + 'a' else s[0]] + Lower(s[1..])
  }

  /** Lower-casing twice is lower-casing once. */
  lemma {:induction false} LowerIdem(s: string)
    ensures Lower(Lower(s)) == Lower(s)
  {
    if s != [] {
      LowerIdem(s[1..]);
      assert Lower(s)[1..] == Lower(s[1..]);
    }
  }

  /** `sep.join(parts)`. */
  function Join(parts: seq<string>, sep: string): string {
    if |parts| == 0 then ""
    else if |parts| == 1 then parts[0]
    else parts[0] + sep + Join(parts[1..], sep)
  }

  /** The concatenation of `parts`, each followed by `suffix`: what `s += part + suffix` leaves in a loop. */
  function Suffixed(parts: seq<string>, suffix: string): string {
    if parts == [] then "" else parts[0] + suffix + Suffixed(parts[1..], suffix)
  }

  /** `re.sub(lit + '$', '', s)` for a string that cannot end in a newline: drop `lit` once from the end. */
  function StripEnd(s: string, lit: string): string {
    if |lit| <= |s| && s[|s| - |lit|..] == lit then s[..|s| - |lit|] else s
  }

  predicate IsDigit(c: char) { '0' <= c <= '9' }

  /** A literal Python's `int()` accepts: an optional sign and decimal digits. */
  predicate IsIntLiteral(s: string) {
    var d := if |s| > 0 && (s[0] == '+' || s[0] == '-') then s[1..] else s;
    |d| > 0 && forall i :: 0 <= i < |d| ==> IsDigit(d[i])
  }

  /**
   * `int(t) == 0`: None when `int()` raises (a missing text or not a number),
   * otherwise whether the number is zero.
   */
  function IntIsZero(t: Option<string>): (r: Option<bool>)
    ensures r.Some? <==> t.Some? && IsIntLiteral(t.value)
    ensures t == Some("0") ==> r == Some(true)
    ensures r == Some(true) ==> forall i :: 0 <= i < |t.value| ==> t.value[i] in "+-0"
  {
    assert IsIntLiteral("0") by {
      var z: string := "0";
      assert |z| == 1 && z[0] == '0' && IsDigit(z[0]);
      assert forall i :: 0 <= i < |z| ==> IsDigit(z[i]);
    }
    if t.None? || !IsIntLiteral(t.value) then None
    else
      var d := if t.value[0] == '+' || t.value[0] == '-' then t.value[1..] else t.value;
      Some(forall i :: 0 <= i < |d| ==> d[i] == '0')
  }

  /** Appending a separator to every part and stripping the last one gives the join. */
  lemma {:induction false} SuffixedIsJoin(parts: seq<string>, sep: string)
    requires |parts| > 0
    ensures Suffixed(parts, sep) == Join(parts, sep) + sep
  {
    if |parts| == 1 {
      assert Suffixed(parts[1..], sep) == "";
    } else {
      SuffixedIsJoin(parts[1..], sep);
    }
  }

  /** Stripping what was just appended gives the original back. */
  lemma StripEndAppended(s: string, lit: string)
    ensures StripEnd(s + lit, lit) == s
  {
    assert (s + lit)[|s + lit| - |lit|..] == lit;
    assert (s + lit)[..|s + lit| - |lit|] == s;
  }

  /** Appending the separator after every part distributes over concatenation. */
  lemma {:induction false} SuffixedAppend(a: seq<string>, b: seq<string>, suffix: string)
    ensures Suffixed(a + b, suffix) == Suffixed(a, suffix) + Suffixed(b, suffix)
  {
    if a != [] {
      assert (a + b)[1..] == a[1..] + b;
      SuffixedAppend(a[1..], b, suffix);
    } else {
      assert a + b == b;
    }
  }

  /** The string a loop leaves after `s += f(x)` for every `x` of `xs`, in order. */
  function Concat<T>(f: T -> string, xs: seq<T>): string {
    if xs == [] then "" else Concat(f, xs[..|xs| - 1]) + f(xs[|xs| - 1])
  }

  lemma ConcatSnoc<T>(f: T -> string, xs: seq<T>, x: T)
    ensures Concat(f, xs + [x]) == Concat(f, xs) + f(x)
  {
    assert (xs + [x])[..|xs + [x]| - 1] == xs;
  }

  /** Every part ending in `c` makes the join end in `c`. */
  lemma {:induction false} JoinEndsWith(parts: seq<string>, sep: string, c: char)
    requires |parts| > 0
    requires forall i :: 0 <= i < |parts| ==> |parts[i]| > 0 && parts[i][|parts[i]| - 1] == c
    ensures |Join(parts, sep)| > 0 && Join(parts, sep)[|Join(parts, sep)| - 1] == c
  {
    if |parts| > 1 {
      JoinEndsWith(parts[1..], sep, c);
      assert parts[1..][|parts| - 2] == parts[|parts| - 1];
    }
  }
}
