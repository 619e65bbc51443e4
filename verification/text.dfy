/**
 * The handful of Python `str` operations the assistant's logic relies on:
 * `lower`, `strip`, `startswith`, `in`, `replace(pat, '')`, `split`,
 * `'\n'.join` and `str(n)` for a natural number. Strings are sequences of
 * Unicode code points, as in Python 3.
 */
module Text {

  import opened Common

  // ---------------------------------------------------------------------
  // Whitespace and trimming

  /** Python's `str.isspace` for a single code point. */
  predicate IsSpace(c: char) {
    || c == ' '
    || ('\t' <= c <= '\r')
    || ('\U{1c}' <= c <= '\U{1f}')
    || c == '\U{85}' || c == '\U{a0}' || c == '\U{1680}'
    || ('\U{2000}' <= c <= '\U{200a}')
    || c == '\U{2028}' || c == '\U{2029}' || c == '\U{202f}'
    || c == '\U{205f}' || c == '\U{3000}'
  }

  /** Every character of `s` is whitespace. */
  predicate AllSpace(s: string) {
    forall i :: 0 <= i < |s| ==> IsSpace(s[i])
  }

  /** `s` is empty or begins and ends with a non-whitespace character. */
  predicate Trimmed(s: string) {
    |s| == 0 || (!IsSpace(s[0]) && !IsSpace(s[|s| - 1]))
  }

  /** Python's `str.lstrip()`. */
  function TrimStart(s: string): (r: string)
    ensures |r| <= |s| && r == s[|s| - |r|..]
    ensures AllSpace(s[..|s| - |r|])
    ensures |r| == 0 || !IsSpace(r[0])
  {
    if |s| > 0 && IsSpace(s[0]) then
      var r := TrimStart(s[1..]);
      SpaceThenTail(s, |s| - 1 - |r|, r);
      r
    else s
  }

  /**
   * The step of `TrimStart`: a whitespace character in front of a
   * whitespace run and its remainder `r` gives a longer run with the same
   * remainder.
   */
  lemma SpaceThenTail(s: string, k: nat, r: string)
    requires 0 < |s| && IsSpace(s[0]) && k + |r| == |s| - 1
    requires r == s[1..][k..] && AllSpace(s[1..][..k])
    ensures r == s[k + 1..] && AllSpace(s[..k + 1])
  {
    assert s[..k + 1] == [s[0]] + s[1..][..k];
  }

  /** Python's `str.rstrip()`. */
  function TrimEnd(s: string): (r: string)
    ensures |r| <= |s| && r == s[..|r|]
    ensures AllSpace(s[|r|..])
    ensures |r| == 0 || !IsSpace(r[|r| - 1])
  {
    if |s| > 0 && IsSpace(s[|s| - 1]) then
      var r := TrimEnd(s[..|s| - 1]);
      assert s[|r|..] == s[..|s| - 1][|r|..] + [s[|s| - 1]];
      r
    else s
  }

  /**
   * Python's `str.strip()`: the result neither starts nor ends with
   * whitespace, and is empty exactly when `s` is all whitespace.
   */
  function Strip(s: string): (r: string)
    ensures Trimmed(r)
    ensures |r| <= |s|
    ensures r == [] <==> AllSpace(s)
  {
    var t := TrimStart(s);
    assert AllSpace(s) ==> t == [] by {
      if t != [] {
        assert t[0] == s[|s| - |t|];
      }
    }
    TrimEnd(t)
  }

  lemma {:induction false} TrimStartSkipsSpace(a: string, x: string)
    requires AllSpace(a)
    ensures TrimStart(a + x) == TrimStart(x)
    decreases |a|
  {
    if |a| > 0 {
      assert (a + x)[0] == a[0] && IsSpace(a[0]);
      assert (a + x)[1..] == a[1..] + x;
      TrimStartSkipsSpace(a[1..], x);
    } else {
      assert a + x == x;
    }
  }

  lemma {:induction false} TrimEndSkipsSpace(x: string, b: string)
    requires AllSpace(b)
    ensures TrimEnd(x + b) == TrimEnd(x)
    decreases |b|
  {
    if |b| > 0 {
      assert (x + b)[|x + b| - 1] == b[|b| - 1] && IsSpace(b[|b| - 1]);
      assert (x + b)[..|x + b| - 1] == x + b[..|b| - 1];
      TrimEndSkipsSpace(x, b[..|b| - 1]);
    } else {
      assert x + b == x;
    }
  }

  /**
   * `Strip` is determined by its contract: whenever `s` is some whitespace,
   * then a trimmed core, then more whitespace, stripping returns that core.
   */
  lemma StripOf(a: string, core: string, b: string)
    requires AllSpace(a) && AllSpace(b) && Trimmed(core)
    ensures Strip(a + core + b) == core
  {
    var rest := core + b;
    assert a + core + b == a + rest;
    TrimStartSkipsSpace(a, rest);
    if |core| == 0 {
      assert rest == b;
      assert TrimStart(b) == [];
    } else {
      assert TrimStart(rest) == rest by {
        assert !IsSpace(rest[0]);
      }
      TrimEndSkipsSpace(core, b);
      assert TrimEnd(core) == core by {
        assert !IsSpace(core[|core| - 1]);
      }
    }
  }

  // ---------------------------------------------------------------------
  // Case, prefixes and substrings

  /** The lower-case form of an ASCII letter; every other character is kept. */
  function LowerChar(c: char): char {
    if 'A' <= c <= 'Z' then (c as int + 32) as char else c
  }

  /** `str.lower()`, restricted to ASCII letters. */
  function Lower(s: string): (r: string)
    ensures |r| == |s|
    ensures forall i :: 0 <= i < |s| ==> r[i] == LowerChar(s[i])
  {
    seq(|s|, i requires 0 <= i < |s| => LowerChar(s[i]))
  }

  /** Python's `s.startswith(p)`. */
  predicate StartsWith(s: string, p: string) {
    |p| <= |s| && s[..|p|] == p
  }

  /** Python's `s.endswith(p)`. */
  predicate EndsWith(s: string, p: string) {
    |p| <= |s| && s[|s| - |p|..] == p
  }

  /** A mismatch at a position inside `p` rules out `p` as a prefix. */
  lemma NotPrefixAt(s: string, p: string, i: nat)
    requires i < |p| && i < |s| && s[i] != p[i]
    ensures !StartsWith(s, p)
  {
    if |p| <= |s| {
      assert s[..|p|][i] != p[i];
    }
  }

  /** Python's `sub in s`. */
  predicate Contains(s: string, sub: string)
    decreases |s|
  {
    StartsWith(s, sub) || (|s| > 0 && Contains(s[1..], sub))
  }

  /** A text contains whatever sits inside it. */
  lemma {:induction false} ContainsInfix(pre: string, sub: string, post: string)
    ensures Contains(pre + sub + post, sub)
    decreases |pre|
  {
    if |pre| == 0 {
      assert pre + sub + post == sub + post;
      assert (sub + post)[..|sub|] == sub;
    } else {
      assert (pre + sub + post)[1..] == pre[1..] + sub + post;
      ContainsInfix(pre[1..], sub, post);
    }
  }

  /**
   * Python's `s.replace(pat, '')`: scanning left to right, every
   * non-overlapping occurrence of `pat` is deleted.
   */
  function Remove(s: string, pat: string): (r: string)
    requires |pat| > 0
    ensures |r| <= |s|
    decreases |s|
  {
    if |s| == 0 then ""
    else if StartsWith(s, pat) then Remove(s[|pat|..], pat)
    else [s[0]] + Remove(s[1..], pat)
  }

  /** Deleting a one-character pattern leaves no occurrence of it. */
  lemma {:induction false} RemoveCharGone(s: string, c: char)
    ensures c !in Remove(s, [c])
    decreases |s|
  {
    if |s| > 0 {
      RemoveCharGone(s[1..], c);
    }
  }

  /** No two adjacent asterisks. */
  predicate NoDoubleStar(s: string) {
    forall i :: 0 <= i < |s| - 1 ==> !(s[i] == '*' && s[i + 1] == '*')
  }

  /**
   * `replace('**', '')` leaves no `**` behind: a lone `*` that survives is
   * always followed by a character other than `*`.
   */
  lemma {:induction false} RemoveDoubleStarGone(s: string)
    ensures NoDoubleStar(Remove(s, "**"))
    decreases |s|
  {
    if |s| == 0 {
    } else if StartsWith(s, "**") {
      RemoveDoubleStarGone(s[2..]);
    } else {
      var rest := Remove(s[1..], "**");
      RemoveDoubleStarGone(s[1..]);
      if s[0] == '*' && |s[1..]| > 0 {
        assert s[1] != '*';
        assert !StartsWith(s[1..], "**");
        assert rest[0] == s[1];
      }
      assert Remove(s, "**") == [s[0]] + rest;
    }
  }

  // ---------------------------------------------------------------------
  // Splitting and joining

  /** Python's `s.split(c)` for a single-character separator; never empty. */
  function Split(s: string, c: char): (r: seq<string>)
    ensures |r| >= 1
    ensures forall k :: 0 <= k < |r| ==> c !in r[k]
    decreases |s|
  {
    if |s| == 0 then [""]
    else if s[0] == c then [""] + Split(s[1..], c)
    else
      var rest := Split(s[1..], c);
      [[s[0]] + rest[0]] + rest[1..]
  }

  /** Python's `sep.join(xs)`. */
  function Join(xs: seq<string>, sep: string): string
    decreases |xs|
  {
    if |xs| == 0 then ""
    else if |xs| == 1 then xs[0]
    else xs[0] + sep + Join(xs[1..], sep)
  }

  /** Text without a separator splits into itself alone. */
  lemma {:induction false} SplitNoSeparator(s: string, c: char)
    requires c !in s
    ensures Split(s, c) == [s]
    decreases |s|
  {
    if |s| > 0 {
      assert s[0] != c && c !in s[1..];
      SplitNoSeparator(s[1..], c);
      assert [s[0]] + s[1..] == s;
    }
  }

  /** Splitting at the first separator peels off the text before it. */
  lemma {:induction false} SplitAtFirst(a: string, c: char, b: string)
    requires c !in a
    ensures Split(a + [c] + b, c) == [a] + Split(b, c)
    decreases |a|
  {
    if |a| == 0 {
      assert a + [c] + b == [c] + b;
      assert ([c] + b)[1..] == b;
    } else {
      assert (a + [c] + b)[1..] == a[1..] + [c] + b;
      SplitAtFirst(a[1..], c, b);
      assert [a[0]] + a[1..] == a;
    }
  }

  /** Splitting at `c` on both sides of a `c` splits the two halves separately. */
  lemma {:induction false} SplitAround(a: string, b: string, c: char)
    ensures Split(a + [c] + b, c) == Split(a, c) + Split(b, c)
    decreases |a|
  {
    if |a| == 0 {
      assert a + [c] + b == [c] + b;
      SplitCons(c, b, c);
    } else {
      SplitAround(a[1..], b, c);
      SplitAroundStep(a[0], a[1..], b, c);
      assert a == [a[0]] + a[1..];
    }
  }

  /** The inductive step of `SplitAround`: one more character in front. */
  lemma SplitAroundStep(x: char, t: string, b: string, c: char)
    requires Split(t + [c] + b, c) == Split(t, c) + Split(b, c)
    ensures Split([x] + t + [c] + b, c) == Split([x] + t, c) + Split(b, c)
  {
    assert [x] + t + [c] + b == [x] + (t + [c] + b);
    SplitCons(x, t + [c] + b, c);
    SplitCons(x, t, c);
    if x == c {
      PrependLine("", Split(t, c), Split(b, c));
    } else {
      ExtendFirst([x], Split(t, c), Split(b, c));
    }
  }

  /** Prepending a line to `l + r` prepends it to `l`. */
  lemma PrependLine(p: string, l: seq<string>, r: seq<string>)
    ensures [p] + (l + r) == [p] + l + r
  {
  }

  /** Extending the first line of `l + r` extends the first line of `l`. */
  lemma ExtendFirst(p: string, l: seq<string>, r: seq<string>)
    requires |l| >= 1
    ensures [p + (l + r)[0]] + (l + r)[1..] == [p + l[0]] + l[1..] + r
  {
    assert (l + r)[1..] == l[1..] + r;
  }

  /** One step of `Split`: a separator starts a new empty line, another character extends the first. */
  lemma SplitCons(x: char, t: string, c: char)
    ensures x == c ==> Split([x] + t, c) == [""] + Split(t, c)
    ensures x != c ==> Split([x] + t, c) == [[x] + Split(t, c)[0]] + Split(t, c)[1..]
  {
    assert ([x] + t)[0] == x && ([x] + t)[1..] == t;
  }

  /** `SplitAround` over a text of seven parts joined by the separator. */
  lemma SplitSeven(p: string, a: string, b: string, d: string, e: string, f: string, g: string,
                   sep: string, c: char)
    requires sep == [c]
    ensures Split(p + sep + a + sep + b + sep + d + sep + e + sep + f + sep + g, c)
         == Split(p, c) + Split(a, c) + Split(b, c) + Split(d, c) + Split(e, c) + Split(f, c) + Split(g, c)
  {
    SplitAround(p, a, c);
    SplitAround(p + sep + a, b, c);
    SplitAround(p + sep + a + sep + b, d, c);
    SplitAround(p + sep + a + sep + b + sep + d, e, c);
    SplitAround(p + sep + a + sep + b + sep + d + sep + e, f, c);
    SplitAround(p + sep + a + sep + b + sep + d + sep + e + sep + f, g, c);
  }

  /**
   * The lines of such a text when all parts but the first line block and
   * two free parts are single lines.
   */
  lemma SplitSevenLines(p: string, a: string, b: string, d: string, e: string, f: string, g: string,
                        sep: string, c: char, lines: seq<string>)
    requires sep == [c]
    requires Split(p, c) == lines
    requires Split(a, c) == [a] && Split(d, c) == [d] && Split(e, c) == [e] && Split(g, c) == [g]
    ensures Split(p + sep + a + sep + b + sep + d + sep + e + sep + f + sep + g, c)
         == lines + [a] + Split(b, c) + [d] + [e] + Split(f, c) + [g]
  {
    SplitSeven(p, a, b, d, e, f, g, sep, c);
  }

  /** Joining lines with `c` and splitting at `c` gives the lines back. */
  lemma {:induction false} SplitJoin(xs: seq<string>, c: char)
    requires |xs| >= 1
    requires forall k :: 0 <= k < |xs| ==> c !in xs[k]
    ensures Split(Join(xs, [c]), c) == xs
    decreases |xs|
  {
    if |xs| == 1 {
      SplitNoSeparator(xs[0], c);
    } else {
      SplitJoin(xs[1..], c);
      SplitAtFirst(xs[0], c, Join(xs[1..], [c]));
      assert [xs[0]] + xs[1..] == xs;
    }
  }

  /** Joining splits at any inner position into the two joined halves. */
  lemma {:induction false} JoinSplitAt(xs: seq<string>, i: nat, sep: string)
    requires 0 < i < |xs|
    ensures Join(xs, sep) == Join(xs[..i], sep) + sep + Join(xs[i..], sep)
    decreases i
  {
    if i > 1 {
      JoinSplitAt(xs[1..], i - 1, sep);
      assert xs[1..][..i - 1] == xs[..i][1..];
      assert xs[1..][i - 1..] == xs[i..];
    }
  }

  /** Six items joined, written out. */
  lemma JoinSix(a: string, b: string, c: string, d: string, e: string, f: string, sep: string)
    ensures Join([a, b, c, d, e, f], sep) == a + sep + b + sep + c + sep + d + sep + e + sep + f
  {
    JoinSnoc([a], sep, b);
    JoinSnoc([a, b], sep, c);
    JoinSnoc([a, b, c], sep, d);
    JoinSnoc([a, b, c, d], sep, e);
    JoinSnoc([a, b, c, d, e], sep, f);
    assert [a] + [b] == [a, b];
    assert [a, b] + [c] == [a, b, c];
    assert [a, b, c] + [d] == [a, b, c, d];
    assert [a, b, c, d] + [e] == [a, b, c, d, e];
    assert [a, b, c, d, e] + [f] == [a, b, c, d, e, f];
  }

  /** Six items joined after a non-empty list, written out. */
  lemma JoinAfter(pre: seq<string>, a: string, b: string, c: string, d: string, e: string, f: string, sep: string)
    requires |pre| > 0
    ensures Join(pre + [a, b, c, d, e, f], sep)
         == Join(pre, sep) + sep + a + sep + b + sep + c + sep + d + sep + e + sep + f
  {
    var xs := pre + [a, b, c, d, e, f];
    JoinSplitAt(xs, |pre|, sep);
    assert xs[..|pre|] == pre;
    assert xs[|pre|..] == [a, b, c, d, e, f];
    JoinSix(a, b, c, d, e, f, sep);
  }

  /**
   * Where three consecutive items of such a text sit: they are contained in
   * it, and the last two end it.
   */
  lemma SixPartsPlaced(p: string, a: string, b: string, c: string, d: string, e: string, f: string, sep: string)
    ensures var whole := p + sep + a + sep + b + sep + c + sep + d + sep + e + sep + f;
            Contains(whole, a + sep + b + sep + c) && EndsWith(whole, e + sep + f)
  {
    var whole := p + sep + a + sep + b + sep + c + sep + d + sep + e + sep + f;
    var mid := a + sep + b + sep + c;
    var post := sep + d + sep + e + sep + f;
    assert whole == (p + sep) + mid + post;
    ContainsInfix(p + sep, mid, post);
    assert whole == (p + sep + a + sep + b + sep + c + sep + d + sep) + (e + sep + f);
  }

  /** Joining one more item appends a separator and the item. */
  lemma {:induction false} JoinSnoc(xs: seq<string>, sep: string, x: string)
    requires |xs| >= 1
    ensures Join(xs + [x], sep) == Join(xs, sep) + sep + x
    decreases |xs|
  {
    if |xs| == 1 {
      assert (xs + [x])[1..] == [x];
    } else {
      assert (xs + [x])[1..] == xs[1..] + [x];
      JoinSnoc(xs[1..], sep, x);
    }
  }

  /** `s.split('\n')[0]`: everything before the first line break. */
  function FirstLine(s: string): (r: string)
    ensures '\n' !in r
    ensures StartsWith(s, r)
    ensures r == s || s[|r|] == '\n'
  {
    var r := Split(s, '\n')[0];
    FirstLineIsPrefix(s);
    r
  }

  lemma {:induction false} FirstLineIsPrefix(s: string)
    ensures StartsWith(s, Split(s, '\n')[0])
    ensures Split(s, '\n')[0] == s || s[|Split(s, '\n')[0]|] == '\n'
    decreases |s|
  {
    if |s| > 0 && s[0] != '\n' {
      FirstLineIsPrefix(s[1..]);
    }
  }

  /**
   * `s.split()[0]`: the first maximal run of non-whitespace characters, or
   * `None` where Python raises `IndexError` because `s` is all whitespace.
   */
  function FirstWord(s: string): (r: Option<string>)
    ensures r.None? <==> AllSpace(s)
    ensures r.Some? ==> |r.value| > 0 && forall i :: 0 <= i < |r.value| ==> !IsSpace(r.value[i])
    ensures r.Some? ==> exists k :: WordAt(s, k, r.value)
  {
    var t := TrimStart(s);
    if |t| == 0 then None
    else
      TakeWordPlaced(s, t);
      Some(TakeWord(t))
  }

  /** The word taken from the left-stripped `t` sits in `s` where `t` starts. */
  lemma TakeWordPlaced(s: string, t: string)
    requires |t| <= |s| && t == s[|s| - |t|..] && AllSpace(s[..|s| - |t|])
    ensures var w := TakeWord(t);
      && (forall i :: 0 <= i < |w| ==> !IsSpace(w[i]))
      && WordAt(s, |s| - |t|, w)
  {
    var w := TakeWord(t);
    var k := |s| - |t|;
    assert forall i :: 0 <= i < |w| ==> w[i] == t[i];
    assert s[k..k + |w|] == t[..|w|];
    assert k + |w| < |s| ==> s[k + |w|] == t[|w|];
  }

  /**
   * `w` is the first word of `s`, found at index `k`: only whitespace comes
   * before it, and it ends at the end of `s` or at a whitespace character.
   */
  predicate WordAt(s: string, k: nat, w: string) {
    && k + |w| <= |s|
    && AllSpace(s[..k])
    && s[k..k + |w|] == w
    && (k + |w| == |s| || IsSpace(s[k + |w|]))
  }

  /**
   * `FirstWord` is fixed by its contract: any non-empty word without
   * whitespace that sits in `s` as `WordAt` describes is the first word.
   */
  lemma FirstWordUnique(s: string, k: nat, w: string)
    requires WordAt(s, k, w) && |w| > 0
    requires forall i :: 0 <= i < |w| ==> !IsSpace(w[i])
    ensures FirstWord(s) == Some(w)
  {
    assert s[k..k + |w|][0] == w[0];
    var r := FirstWord(s);
    var k': nat :| WordAt(s, k', r.value);
    WordStartsAtFirstNonSpace(s, k, w, k', r.value);
    WordEndsAtSpace(s, k, w, r.value);
  }

  /** Two words that `WordAt` places in `s` start at the same index. */
  lemma WordStartsAtFirstNonSpace(s: string, k: nat, w: string, k': nat, w': string)
    requires WordAt(s, k, w) && |w| > 0 && !IsSpace(w[0])
    requires WordAt(s, k', w') && |w'| > 0 && !IsSpace(w'[0])
    ensures k == k'
  {
    assert s[k] == s[k..k + |w|][0] == w[0];
    assert s[k'] == s[k'..k' + |w'|][0] == w'[0];
    assert forall i :: 0 <= i < k ==> s[..k][i] == s[i];
    assert forall i :: 0 <= i < k' ==> s[..k'][i] == s[i];
  }

  /** Two words without whitespace that `WordAt` places at the same index are equal. */
  lemma WordEndsAtSpace(s: string, k: nat, w: string, w': string)
    requires WordAt(s, k, w) && forall i :: 0 <= i < |w| ==> !IsSpace(w[i])
    requires WordAt(s, k, w') && forall i :: 0 <= i < |w'| ==> !IsSpace(w'[i])
    ensures w == w'
  {
    assert forall i :: 0 <= i < |w| ==> s[k + i] == w[i];
    assert forall i :: 0 <= i < |w'| ==> s[k + i] == w'[i];
  }

  /** The longest prefix of `s` without whitespace. */
  function TakeWord(s: string): (r: string)
    ensures StartsWith(s, r)
    ensures forall i :: 0 <= i < |r| ==> !IsSpace(s[i])
    ensures r == s || IsSpace(s[|r|])
    decreases |s|
  {
    if |s| == 0 || IsSpace(s[0]) then "" else [s[0]] + TakeWord(s[1..])
  }

  // ---------------------------------------------------------------------
  // Decimal numerals

  predicate IsDigit(c: char) {
    '0' as int <= c as int <= '9' as int
  }

  function DigitChar(d: nat): (c: char)
    requires d < 10
    ensures IsDigit(c)
  {
    ('0' as int + d) as char
  }

  /** `str(n)` for a natural number: its decimal numeral. */
  function NatToString(n: nat): (r: string)
    ensures |r| >= 1
    ensures forall i :: 0 <= i < |r| ==> IsDigit(r[i])
    ensures r[0] == '0' ==> n == 0
    decreases n
  {
    if n < 10 then [DigitChar(n)] else NatToString(n / 10) + [DigitChar(n % 10)]
  }

  /** The value of a string of decimal digits (Python's `int(s)` on such a string). */
  function ParseDecimal(s: string): nat
    requires forall i :: 0 <= i < |s| ==> IsDigit(s[i])
    decreases |s|
  {
    if |s| == 0 then 0
    else
      assert IsDigit(s[|s| - 1]);
      10 * ParseDecimal(s[..|s| - 1]) + (s[|s| - 1] as int - '0' as int)
  }

  /** Reading back a rendered number gives the number. */
  lemma {:induction false} ParseNatToString(n: nat)
    ensures ParseDecimal(NatToString(n)) == n
    decreases n
  {
    var s := NatToString(n);
    if n >= 10 {
      ParseNatToString(n / 10);
      assert s[..|s| - 1] == NatToString(n / 10);
    }
  }
}
