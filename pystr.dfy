/**
 * The Python `str` operations that chat.py relies on, over `string` (a sequence of
 * Unicode code points): `split(maxsplit=1)`, `strip()`, `lower()`, `capitalize()`,
 * `", ".join(...)` and the repeated `+=` that accumulates a streamed response.
 */
module PyStr {

  /** Python's `str.isspace` for one code point. */
  predicate IsSpace(c: char) {
    ('\t' <= c <= '\r') || ('\U{1C}' <= c <= ' ') || c == '\U{85}' || c == '\U{A0}'
    || c == '\U{1680}' || ('\U{2000}' <= c <= '\U{200A}') || c == '\U{2028}' || c == '\U{2029}'
    || c == '\U{202F}' || c == '\U{205F}' || c == '\U{3000}'
  }

  predicate AllSpace(s: string) {
    forall k :: 0 <= k < |s| ==> IsSpace(s[k])
  }

  predicate NoSpace(s: string) {
    forall k :: 0 <= k < |s| ==> !IsSpace(s[k])
  }

  /** `s.lstrip()`: `s` without its leading whitespace. */
  function TrimStart(s: string): (r: string)
    ensures |r| <= |s|
  {
    if s != [] && IsSpace(s[0]) then TrimStart(s[1..]) else s
  }

  /** `s.rstrip()`: `s` without its trailing whitespace. */
  function TrimEnd(s: string): (r: string)
    ensures |r| <= |s|
  {
    if s != [] && IsSpace(s[|s| - 1]) then TrimEnd(s[..|s| - 1]) else s
  }

  /** The longest prefix of `s` that holds no whitespace. */
  function Word(s: string): (r: string)
    ensures |r| <= |s|
  {
    if s != [] && !IsSpace(s[0]) then [s[0]] + Word(s[1..]) else []
  }

  lemma {:induction false} TrimStartSpec(s: string)
    ensures exists a :: AllSpace(a) && s == a + TrimStart(s)
    ensures TrimStart(s) != [] ==> !IsSpace(TrimStart(s)[0])
    ensures TrimStart(s) == [] <==> AllSpace(s)
    decreases |s|
  {
    if s != [] && IsSpace(s[0]) {
      TrimStartSpec(s[1..]);
      var a :| AllSpace(a) && s[1..] == a + TrimStart(s[1..]);
      assert AllSpace([s[0]] + a);
      assert s == [s[0]] + a + TrimStart(s);
      if TrimStart(s) == [] {
        assert AllSpace(s) by {
          forall k | 0 <= k < |s| ensures IsSpace(s[k]) {
            if k > 0 { assert s[k] == s[1..][k - 1]; }
          }
        }
      }
    } else {
      assert AllSpace([]) && s == [] + s;
    }
  }

  lemma {:induction false} TrimEndSpec(s: string)
    ensures exists b :: AllSpace(b) && s == TrimEnd(s) + b
    ensures TrimEnd(s) != [] ==> !IsSpace(TrimEnd(s)[|TrimEnd(s)| - 1])
    decreases |s|
  {
    if s != [] && IsSpace(s[|s| - 1]) {
      var init := s[..|s| - 1];
      TrimEndSpec(init);
      var b :| AllSpace(b) && init == TrimEnd(init) + b;
      assert AllSpace(b + [s[|s| - 1]]);
      assert s == init + [s[|s| - 1]];
      assert s == TrimEnd(s) + (b + [s[|s| - 1]]);
    } else {
      assert AllSpace([]) && s == s + [];
    }
  }

  lemma {:induction false} WordSpec(s: string)
    ensures NoSpace(Word(s))
    ensures s == Word(s) + s[|Word(s)|..]
    ensures |Word(s)| < |s| ==> IsSpace(s[|Word(s)|])
    decreases |s|
  {
    if s != [] && !IsSpace(s[0]) {
      WordSpec(s[1..]);
      var w := Word(s[1..]);
      assert Word(s) == [s[0]] + w;
      assert s[1..][|w|..] == s[|w| + 1..];
      assert s == [s[0]] + s[1..];
    }
  }

  /**
   * `s.split(maxsplit=1)`: the first whitespace-delimited word and, when anything but
   * whitespace follows it, the remainder with its leading whitespace removed (its
   * trailing whitespace is kept). SplitOnceSpec gives the full description.
   */
  function SplitOnce(s: string): (parts: seq<string>)
    ensures |parts| <= 2
    ensures |parts| == 2 ==> parts[1] != []
  {
    var t := TrimStart(s);
    if t == [] then []
    else
      var w := Word(t);
      var rest := TrimStart(t[|w|..]);
      if rest == [] then [w] else [w, rest]
  }

  /**
   * The parts of `s.split(maxsplit=1)` are all of `s` but whitespace: leading whitespace,
   * a non-empty word, then either only whitespace, or at least one whitespace character
   * and a remainder that starts with a non-whitespace character. This determines the parts.
   */
  lemma SplitOnceSpec(s: string)
    ensures SplitOnce(s) == [] <==> AllSpace(s)
    ensures |SplitOnce(s)| >= 1 ==> SplitOnce(s)[0] != [] && NoSpace(SplitOnce(s)[0])
    ensures |SplitOnce(s)| == 2 ==> !IsSpace(SplitOnce(s)[1][0])
    ensures |SplitOnce(s)| == 1 ==>
      exists a, b :: AllSpace(a) && AllSpace(b) && s == a + SplitOnce(s)[0] + b
    ensures |SplitOnce(s)| == 2 ==>
      exists a, b :: AllSpace(a) && AllSpace(b) && b != [] && s == a + SplitOnce(s)[0] + b + SplitOnce(s)[1]
  {
    var t := TrimStart(s);
    TrimStartSpec(s);
    var a :| AllSpace(a) && s == a + t;
    if t != [] {
      var w := Word(t);
      WordSpec(t);
      assert w != [] by { assert !IsSpace(t[0]); }
      var after := t[|w|..];
      SplitTail(s, a, w, after);
    }
  }

  /** The part of SplitOnceSpec about what follows the first word. */
  lemma SplitTail(s: string, a: string, w: string, after: string)
    requires AllSpace(a) && s == a + w + after && TrimStart(s) == w + after
    requires w == Word(w + after) && w != [] && NoSpace(w)
    requires after != [] ==> IsSpace(after[0])
    ensures var rest := TrimStart(after);
      && (rest == [] ==> SplitOnce(s) == [w] && exists b :: AllSpace(b) && s == a + w + b)
      && (rest != [] ==>
            && SplitOnce(s) == [w, rest] && !IsSpace(rest[0])
            && exists b :: AllSpace(b) && b != [] && s == a + w + b + rest)
  {
    var t := w + after;
    assert t[|w|..] == after;
    var rest := TrimStart(after);
    TrimStartSpec(after);
    var b :| AllSpace(b) && after == b + rest;
    Regroup(a + w, b, rest);
    if rest != [] {
      assert after != rest by {
        assert after != [] && IsSpace(after[0]) && !IsSpace(rest[0]);
      }
      assert b != [] && s == a + w + b + rest;
    } else {
      assert s == a + w + b;
    }
  }

  lemma Regroup<T>(x: seq<T>, b: seq<T>, r: seq<T>)
    ensures x + (b + r) == x + b + r
    ensures r == [] ==> x + (b + r) == x + b
  {
    assert r == [] ==> b + r == b;
  }

  /** `s.strip()`: `s` without its leading and trailing whitespace. */
  function Strip(s: string): (r: string)
    ensures |r| <= |s|
  {
    TrimEnd(TrimStart(s))
  }

  /** `strip()` removes whitespace and nothing else, from both ends. */
  lemma StripSpec(s: string)
    ensures exists a, b :: AllSpace(a) && AllSpace(b) && s == a + Strip(s) + b
    ensures Strip(s) != [] ==> !IsSpace(Strip(s)[0]) && !IsSpace(Strip(s)[|Strip(s)| - 1])
  {
    var t := TrimStart(s);
    TrimStartSpec(s);
    TrimEndSpec(t);
    var a :| AllSpace(a) && s == a + t;
    var b :| AllSpace(b) && t == TrimEnd(t) + b;
    assert s == a + Strip(s) + b;
    if Strip(s) != [] {
      assert Strip(s)[0] == t[0];
    }
  }

  /** A single word, without surrounding whitespace, strips to itself. */
  lemma StripWord(s: string)
    requires NoSpace(s)
    ensures Strip(s) == s
  {
    assert TrimStart(s) == s;
    assert TrimEnd(s) == s;
  }

  /** `c.lower()` where the result is one character: ASCII letters and KELVIN SIGN. */
  function LowerChar(c: char): char {
    if 'A' <= c <= 'Z' then (c as int + 32) as char
    else if c == '\U{212A}' then 'k'
    else c
  }

  function UpperChar(c: char): char {
    if 'a' <= c <= 'z' then (c as int - 32) as char else c
  }

  /** `s.lower()`, character by character. */
  function Lower(s: string): (r: string)
    ensures |r| == |s|
  {
    if s == [] then [] else [LowerChar(s[0])] + Lower(s[1..])
  }

  /** Each character of `s.lower()` is the lower-case form of the character of `s` at that place. */
  lemma {:induction false} LowerSpec(s: string)
    ensures forall k :: 0 <= k < |s| ==> Lower(s)[k] == LowerChar(s[k])
    decreases |s|
  {
    if s != [] {
      LowerSpec(s[1..]);
    }
  }

  /** Text without upper-case letters is its own lower-case form. */
  lemma LowerOfLowerCase(s: string)
    requires forall k :: 0 <= k < |s| ==> LowerChar(s[k]) == s[k]
    ensures Lower(s) == s
  {
    LowerSpec(s);
  }

  /** `s.capitalize()`: the first character upper-cased, the rest lower-cased. */
  function Capitalize(s: string): (r: string)
    ensures |r| == |s|
    ensures s != [] ==> r[0] == UpperChar(s[0]) && r[1..] == Lower(s[1..])
  {
    if s == [] then [] else [UpperChar(s[0])] + Lower(s[1..])
  }

  /** `sep.join(xs)`. */
  function Join(sep: string, xs: seq<string>): string {
    if xs == [] then "" else if |xs| == 1 then xs[0] else xs[0] + sep + Join(sep, xs[1..])
  }

  /** Joining one more item appends the separator and that item; a single item joins to itself. */
  lemma {:induction false} JoinAppend(sep: string, xs: seq<string>, y: string)
    ensures Join(sep, [y]) == y
    ensures xs != [] ==> Join(sep, xs + [y]) == Join(sep, xs) + sep + y
    decreases |xs|
  {
    if |xs| == 1 {
      assert (xs + [y])[1..] == [y];
    } else if |xs| > 1 {
      assert (xs + [y])[1..] == xs[1..] + [y];
      JoinAppend(sep, xs[1..], y);
      var head, rest := xs[0] + sep, Join(sep, xs[1..]);
      assert Join(sep, xs + [y]) == head + (rest + sep + y);
      Regroup(head, rest + sep, y);
      Regroup(head, rest, sep);
    }
  }

  /** `""` followed by `acc += x` for every `x` of `xs`, in order. */
  function Concat(xs: seq<string>): string {
    if xs == [] then "" else Concat(xs[..|xs| - 1]) + xs[|xs| - 1]
  }

  /** Accumulating two runs of fragments one after the other gives the two texts joined. */
  lemma {:induction false} ConcatAppend(xs: seq<string>, ys: seq<string>)
    ensures Concat(xs + ys) == Concat(xs) + Concat(ys)
    decreases |ys|
  {
    if ys == [] {
      assert xs + ys == xs;
    } else {
      var zs := ys[..|ys| - 1];
      assert (xs + ys)[..|xs + ys| - 1] == xs + zs;
      assert (xs + ys)[|xs + ys| - 1] == ys[|ys| - 1];
      ConcatAppend(xs, zs);
      Regroup(Concat(xs), Concat(zs), ys[|ys| - 1]);
    }
  }

  /** Text accumulated from the first `k` fragments is a prefix of the whole accumulated text. */
  lemma ConcatPrefix(xs: seq<string>, k: nat)
    requires k <= |xs|
    ensures Concat(xs[..k]) <= Concat(xs)
  {
    assert xs == xs[..k] + xs[k..];
    ConcatAppend(xs[..k], xs[k..]);
  }
}
