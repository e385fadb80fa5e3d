/** The Python `str` operations the agents rely on, defined on `seq<char>`:
    `isspace`, `strip`, `split(sep)`, whitespace `split()`, `sep.join`,
    `startswith`, substring containment and `str()` of an integer. */
module PyStr {

  /** The characters CPython's Unicode database classifies as whitespace,
      except the range U+2000..U+200A, which `IsSpace` tests separately. */
  const SpaceChars: set<char> :=
    {' ', '\t', '\n', '\r', '\U{0b}', '\U{0c}', '\U{1c}', '\U{1d}', '\U{1e}', '\U{1f}',
     '\U{85}', '\U{a0}', '\U{1680}', '\U{2028}', '\U{2029}', '\U{202f}', '\U{205f}', '\U{3000}'}

  /** Python's `str.isspace` for a single character. */
  predicate IsSpace(c: char) {
    c in SpaceChars || '\U{2000}' <= c <= '\U{200a}'
  }

  /** A string with no whitespace at either end: what `strip()` returns. */
  predicate IsStripped(s: string) {
    s == [] || (!IsSpace(s[0]) && !IsSpace(s[|s| - 1]))
  }

  /** Length of the whitespace run `s.lstrip()` removes. */
  function LeadingSpaces(s: string): (n: nat)
    ensures n <= |s|
    ensures forall j :: 0 <= j < n ==> IsSpace(s[j])
    ensures n == |s| || !IsSpace(s[n])
  {
    if |s| > 0 && IsSpace(s[0]) then
      var n := LeadingSpaces(s[1..]);
      assert forall j :: 1 <= j < n + 1 ==> s[j] == s[1..][j - 1];
      n + 1
    else 0
  }

  /** Length of the whitespace run `s.rstrip()` removes. */
  function TrailingSpaces(s: string): (n: nat)
    ensures n <= |s|
    ensures forall j :: |s| - n <= j < |s| ==> IsSpace(s[j])
    ensures n == |s| || !IsSpace(s[|s| - 1 - n])
  {
    if |s| > 0 && IsSpace(s[|s| - 1]) then
      var n := TrailingSpaces(s[..|s| - 1]);
      assert forall j :: |s| - 1 - n <= j < |s| - 1 ==> s[j] == s[..|s| - 1][j];
      n + 1
    else 0
  }

  /** `s.strip()`: `s` without its leading and trailing whitespace. */
  function Strip(s: string): (r: string)
    ensures IsStripped(r)
    ensures |r| <= |s|
  {
    var t := s[LeadingSpaces(s)..];
    var r := t[..|t| - TrailingSpaces(t)];
    assert r != [] ==> r[0] == s[LeadingSpaces(s)];
    r
  }

  /** `r` occurs in `s` at offset `lo`. */
  predicate Slice(s: string, r: string, lo: int) {
    0 <= lo && lo + |r| <= |s| && s[lo..lo + |r|] == r
  }

  /** `strip()` keeps a slice of `s` and cuts away only whitespace. */
  lemma StripSlice(s: string)
    ensures var lo := LeadingSpaces(s);
            && Slice(s, Strip(s), lo)
            && (forall j :: 0 <= j < lo ==> IsSpace(s[j]))
            && (forall j :: lo + |Strip(s)| <= j < |s| ==> IsSpace(s[j]))
  {
    var lo := LeadingSpaces(s);
    var t := s[lo..];
    var k := TrailingSpaces(t);
    var r := Strip(s);
    assert r == t[..|t| - k];
    assert s[lo..lo + |r|] == r;
    forall j | lo + |r| <= j < |s|
      ensures IsSpace(s[j])
    {
      assert s[j] == t[j - lo];
    }
  }

  /** Python's `t in s` for strings. */
  predicate IsInfix(t: string, s: string) {
    exists lo :: 0 <= lo <= |s| && Slice(s, t, lo)
  }

  predicate StartsWith(s: string, prefix: string) {
    |prefix| <= |s| && s[..|prefix|] == prefix
  }

  predicate EndsWith(s: string, suffix: string) {
    |suffix| <= |s| && s[|s| - |suffix|..] == suffix
  }

  lemma StrippedIsFixpoint(s: string)
    requires IsStripped(s)
    ensures Strip(s) == s
  {
    assert LeadingSpaces(s) == 0;
    assert TrailingSpaces(s) == 0;
  }

  /** Every character of `Strip(s)` is a character of `s`. */
  lemma StripChars(s: string, c: char)
    requires c in Strip(s)
    ensures c in s
  {
    StripSlice(s);
    var r := Strip(s);
    var lo := LeadingSpaces(s);
    var k :| 0 <= k < |r| && r[k] == c;
    assert s[lo + k] == r[k];
  }

  /** A non-empty sequence is its head followed by its tail. */
  lemma HeadTail<T>(s: seq<T>)
    requires |s| > 0
    ensures [s[0]] + s[1..] == s
  {
  }

  /** `sep.join(parts)` */
  function Join(parts: seq<string>, sep: string): string
  {
    if |parts| == 0 then ""
    else if |parts| == 1 then parts[0]
    else parts[0] + sep + Join(parts[1..], sep)
  }

  lemma JoinCons(p: string, parts: seq<string>, sep: string)
    requires |parts| > 0
    ensures Join([p] + parts, sep) == p + sep + Join(parts, sep)
  {
    assert ([p] + parts)[1..] == parts;
  }

  /** Prepending text to the first part prepends it to the joined string. */
  lemma JoinPrependFirst(x: string, parts: seq<string>, sep: string)
    requires |parts| > 0
    ensures Join([x + parts[0]] + parts[1..], sep) == x + Join(parts, sep)
  {
    if |parts| > 1 {
      JoinCons(x + parts[0], parts[1..], sep);
      JoinCons(parts[0], parts[1..], sep);
      assert [parts[0]] + parts[1..] == parts;
    }
  }

  /** A character occurs in a joined string exactly when it occurs in a part,
      or in the separator between two parts. */
  lemma JoinChar(parts: seq<string>, sep: string, c: char)
    ensures c in Join(parts, sep) <==>
              (exists i :: 0 <= i < |parts| && c in parts[i]) || (|parts| > 1 && c in sep)
    decreases |parts|
  {
    if |parts| > 1 {
      JoinChar(parts[1..], sep, c);
      var j := Join(parts[1..], sep);
      assert Join(parts, sep) == parts[0] + sep + j;
      if c in parts[0] + sep + j {
        if c in parts[0] {
        } else if c in sep {
        } else {
          var i :| 0 <= i < |parts[1..]| && c in parts[1..][i];
          assert c in parts[i + 1];
        }
      }
      if exists i :: 0 <= i < |parts| && c in parts[i] {
        var i :| 0 <= i < |parts| && c in parts[i];
        if i > 0 {
          assert c in parts[1..][i - 1];
        }
      }
    }
  }

  /** `s.split(sep)` for a one-character separator: the parts between
      separators, always at least one, none containing the separator, and
      joining them back with the separator gives `s` again. */
  function SplitOn(s: string, sep: char): (parts: seq<string>)
    ensures |parts| >= 1
    ensures forall i :: 0 <= i < |parts| ==> sep !in parts[i]
    ensures Join(parts, [sep]) == s
    decreases |s|
  {
    if |s| == 0 then [""]
    else
      var rest := SplitOn(s[1..], sep);
      if s[0] == sep then
        JoinCons("", rest, [sep]);
        assert s == [sep] + s[1..];
        [""] + rest
      else
        JoinPrependFirst([s[0]], rest, [sep]);
        assert s == [s[0]] + s[1..];
        [[s[0]] + rest[0]] + rest[1..]
  }

  /** A string without the separator splits into itself alone. */
  lemma {:induction false} SplitOnNoSep(p: string, sep: char)
    requires sep !in p
    ensures SplitOn(p, sep) == [p]
    decreases |p|
  {
    if |p| > 0 {
      SplitOnNoSep(p[1..], sep);
      assert [p[0]] + p[1..] == p;
    }
  }

  /** Splitting `p + sep + rest` peels off `p` when `p` has no separator. */
  lemma {:induction false} SplitOnFirst(p: string, sep: char, rest: string)
    requires sep !in p
    ensures SplitOn(p + [sep] + rest, sep) == [p] + SplitOn(rest, sep)
    decreases |p|
  {
    if |p| == 0 {
      assert p + [sep] + rest == [sep] + rest;
      assert ([sep] + rest)[1..] == rest;
    } else {
      var q := p + [sep] + rest;
      assert q[0] == p[0] && q[0] != sep;
      assert q[1..] == p[1..] + [sep] + rest;
      SplitOnFirst(p[1..], sep, rest);
      var r := SplitOn(q[1..], sep);
      assert r == [p[1..]] + SplitOn(rest, sep);
      assert SplitOn(q, sep) == [[q[0]] + r[0]] + r[1..];
      assert [p[0]] + p[1..] == p;
    }
  }

  /** Round trip: splitting a separator-joined list gives the list back,
      provided no part contains the separator. */
  lemma {:induction false} SplitJoin(parts: seq<string>, sep: char)
    requires |parts| >= 1
    requires forall i :: 0 <= i < |parts| ==> sep !in parts[i]
    ensures SplitOn(Join(parts, [sep]), sep) == parts
    decreases |parts|
  {
    if |parts| == 1 {
      SplitOnNoSep(parts[0], sep);
    } else {
      SplitJoin(parts[1..], sep);
      SplitOnFirst(parts[0], sep, Join(parts[1..], [sep]));
      assert [parts[0]] + parts[1..] == parts;
    }
  }

  /** A word of `split()`: non-empty, no whitespace. */
  predicate IsWord(w: string) {
    |w| > 0 && forall i :: 0 <= i < |w| ==> !IsSpace(w[i])
  }

  /** Length of the leading run of non-whitespace characters. */
  function WordLength(s: string): (n: nat)
    ensures n <= |s|
    ensures forall i :: 0 <= i < n ==> !IsSpace(s[i])
    ensures n < |s| ==> IsSpace(s[n])
  {
    if |s| == 0 || IsSpace(s[0]) then 0 else 1 + WordLength(s[1..])
  }

  /** `s.split()` with no argument: the maximal runs of non-whitespace. */
  function Words(s: string): (ws: seq<string>)
    ensures forall i :: 0 <= i < |ws| ==> IsWord(ws[i])
    decreases |s|
  {
    if |s| == 0 then []
    else if IsSpace(s[0]) then Words(s[1..])
    else
      var n := WordLength(s);
      [s[..n]] + Words(s[n..])
  }

  lemma {:induction false} WordLengthOfWord(w: string, rest: string)
    requires IsWord(w)
    requires rest == [] || IsSpace(rest[0])
    ensures WordLength(w + rest) == |w|
    decreases |w|
  {
    if |w| > 1 {
      WordLengthOfWord(w[1..], rest);
      assert (w + rest)[1..] == w[1..] + rest;
    } else {
      assert (w + rest)[1..] == rest;
    }
  }

  /** `split()` peels a leading word followed by whitespace or the end. */
  lemma WordsCons(w: string, rest: string)
    requires IsWord(w)
    requires rest == [] || IsSpace(rest[0])
    ensures Words(w + rest) == [w] + Words(rest)
  {
    WordLengthOfWord(w, rest);
    var s := w + rest;
    assert s[..|w|] == w;
    assert s[|w|..] == rest;
  }

  /** Round trip: `" ".join(ws).split() == ws` for a list of words. */
  lemma {:induction false} WordsJoin(ws: seq<string>)
    requires forall i :: 0 <= i < |ws| ==> IsWord(ws[i])
    ensures Words(Join(ws, " ")) == ws
    decreases |ws|
  {
    if |ws| == 1 {
      WordsCons(ws[0], "");
      assert ws[0] + "" == ws[0];
    } else if |ws| > 1 {
      WordsJoin(ws[1..]);
      var tail := Join(ws[1..], " ");
      assert ws[0] + " " + tail == ws[0] + (" " + tail);
      WordsCons(ws[0], " " + tail);
      assert (" " + tail)[1..] == tail;
      assert [ws[0]] + ws[1..] == ws;
    }
  }

  /** The words of `s` are made of characters of `s`. */
  lemma {:induction false} WordsChars(s: string, i: nat, c: char)
    requires i < |Words(s)| && c in Words(s)[i]
    ensures c in s
    decreases |s|
  {
    if IsSpace(s[0]) {
      WordsChars(s[1..], i, c);
    } else {
      var n := WordLength(s);
      if i > 0 {
        assert Words(s)[i] == Words(s[n..])[i - 1];
        WordsChars(s[n..], i - 1, c);
      }
    }
  }

  /** Decimal digit character of `d`. */
  function DigitChar(d: nat): char
    requires d < 10
  {
    "0123456789"[d]
  }

  /** Numeric value of a decimal digit character (0 for anything else). */
  function DigitValue(c: char): nat {
    if '0' <= c <= '9' then (c as int - '0' as int) else 0
  }

  predicate IsDigits(s: string) {
    |s| > 0 && forall i :: 0 <= i < |s| ==> '0' <= s[i] <= '9'
  }

  /** Python's `str(n)` for a natural number. */
  function NatToString(n: nat): (s: string)
    ensures IsDigits(s)
  {
    if n < 10 then [DigitChar(n)] else NatToString(n / 10) + [DigitChar(n % 10)]
  }

  /** Python's `int(s)` on a string of decimal digits. */
  function ParseNat(s: string): nat
  {
    if |s| == 0 then 0 else 10 * ParseNat(s[..|s| - 1]) + DigitValue(s[|s| - 1])
  }

  /** Round trip: reading back the decimal rendering of `n` gives `n`. */
  lemma {:induction false} ParseNatToString(n: nat)
    ensures ParseNat(NatToString(n)) == n
  {
    var s := NatToString(n);
    if n >= 10 {
      ParseNatToString(n / 10);
      assert s[..|s| - 1] == NatToString(n / 10);
    }
  }

  /** Distinct numbers render as distinct strings. */
  lemma NatToStringInjective(m: nat, n: nat)
    requires NatToString(m) == NatToString(n)
    ensures m == n
  {
    ParseNatToString(m);
    ParseNatToString(n);
  }

  /** Python's `str(i)` for any integer. */
  function IntToString(i: int): string
  {
    if i < 0 then "-" + NatToString(-i) else NatToString(i)
  }

  /** Membership survives concatenation on either side. */
  lemma InfixExtend(t: string, a: string, s: string, b: string)
    requires IsInfix(t, s)
    ensures IsInfix(t, a + s + b)
  {
    var lo :| 0 <= lo <= |s| && Slice(s, t, lo);
    assert lo + |t| <= |s|;
    assert (a + s + b)[|a| + lo..|a| + lo + |t|] == s[lo..lo + |t|];
    assert Slice(a + s + b, t, |a| + lo);
  }

  /** A joined string begins with its first part. */
  lemma JoinFirst(parts: seq<string>, sep: string)
    requires |parts| > 0
    ensures StartsWith(Join(parts, sep), parts[0])
  {
  }

  /** Neighbouring parts occur in a joined string in order, with exactly
      the separator between them. */
  lemma {:induction false} JoinAdjacent(parts: seq<string>, sep: string, k: nat)
    requires k + 1 < |parts|
    ensures IsInfix(parts[k] + sep + parts[k + 1], Join(parts, sep))
    decreases k
  {
    var rest := Join(parts[1..], sep);
    assert Join(parts, sep) == parts[0] + sep + rest;
    if k == 0 {
      JoinFirst(parts[1..], sep);
      var t := parts[0] + sep + parts[1];
      assert (parts[0] + sep + rest)[..|t|] == t;
      assert Slice(Join(parts, sep), t, 0);
    } else {
      JoinAdjacent(parts[1..], sep, k - 1);
      assert parts[1..][k - 1] == parts[k] && parts[1..][k] == parts[k + 1];
      InfixExtend(parts[k] + sep + parts[k + 1], parts[0] + sep, rest, "");
      assert parts[0] + sep + rest + "" == Join(parts, sep);
    }
  }

  /** A joined string ends with its last part. */
  lemma {:induction false} JoinLast(parts: seq<string>, sep: string)
    requires |parts| > 0
    ensures EndsWith(Join(parts, sep), parts[|parts| - 1])
    decreases |parts|
  {
    if |parts| > 1 {
      JoinLast(parts[1..], sep);
      var j := Join(parts[1..], sep);
      var last := parts[|parts| - 1];
      assert Join(parts, sep) == (parts[0] + sep) + j;
      assert (parts[0] + sep + j)[|parts[0] + sep + j| - |last|..] == j[|j| - |last|..];
    }
  }

  /** Every part of a joined string occurs in it. */
  lemma {:induction false} JoinHasParts(parts: seq<string>, sep: string, k: nat)
    requires k < |parts|
    ensures IsInfix(parts[k], Join(parts, sep))
    decreases |parts|
  {
    if |parts| == 1 {
      InfixSelf(parts[0]);
    } else if k == 0 {
      InfixSelf(parts[0]);
      InfixExtend(parts[0], "", parts[0], sep + Join(parts[1..], sep));
      assert "" + parts[0] + (sep + Join(parts[1..], sep)) == Join(parts, sep);
    } else {
      JoinHasParts(parts[1..], sep, k - 1);
      InfixExtend(parts[k], parts[0] + sep, Join(parts[1..], sep), "");
      assert parts[0] + sep + Join(parts[1..], sep) + "" == Join(parts, sep);
    }
  }

  /** `"".join(parts)` */
  function Concat(parts: seq<string>): string
    decreases |parts|
  {
    if |parts| == 0 then "" else parts[0] + Concat(parts[1..])
  }

  /** Every piece of a concatenation occurs in it. */
  lemma {:induction false} ConcatHasParts(parts: seq<string>, k: nat)
    requires k < |parts|
    ensures IsInfix(parts[k], Concat(parts))
    decreases |parts|
  {
    if k == 0 {
      InfixSelf(parts[0]);
      InfixExtend(parts[0], "", parts[0], Concat(parts[1..]));
      assert "" + parts[0] + Concat(parts[1..]) == Concat(parts);
    } else {
      ConcatHasParts(parts[1..], k - 1);
      InfixExtend(parts[k], parts[0], Concat(parts[1..]), "");
      assert parts[0] + Concat(parts[1..]) + "" == Concat(parts);
    }
  }

  lemma InfixSelf(t: string)
    ensures IsInfix(t, t)
  {
    assert Slice(t, t, 0);
  }
}
