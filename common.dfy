/** Values and string operations shared by the resume analyser's modules.
    Python's str methods are modelled on ASCII: letters are 'A'..'Z' and 'a'..'z', and
    whitespace is the ten ASCII characters that str.split() and str.strip() treat as
    whitespace: space, tab to carriage return, and the separators 0x1C to 0x1F. */
module Common {

  datatype Option<+T> = None | Some(value: T) {
    /** dict.get(key, default) on a key that may be missing */
    function GetOr(default: T): T {
      match this
      case Some(v) => v
      case None => default
    }
  }

  // ---------------------------------------------------------------- characters

  predicate IsUpper(c: char) { 'A' <= c <= 'Z' }
  predicate IsLower(c: char) { 'a' <= c <= 'z' }
  predicate IsLetter(c: char) { IsUpper(c) || IsLower(c) }
  predicate IsSpace(c: char) {
    c == ' ' || '\t' <= c <= '\r' || '\U{001C}' <= c <= '\U{001F}'
  }

  function ToLower(c: char): (r: char)
    ensures !IsUpper(r)
    ensures IsLetter(c) <==> IsLetter(r)
  {
    if IsUpper(c) then (c as int + 32) as char else c
  }

  function ToUpper(c: char): (r: char)
    ensures !IsLower(r)
    ensures IsLetter(c) <==> IsLetter(r)
  {
    if IsLower(c) then (c as int - 32) as char else c
  }

  /** str.lower() */
  function Lower(s: string): (r: string)
    ensures |r| == |s|
    ensures forall i :: 0 <= i < |r| ==> !IsUpper(r[i])
  {
    seq(|s|, i requires 0 <= i < |s| => ToLower(s[i]))
  }

  /** str.replace(a, b) for single characters */
  function ReplaceChar(s: string, a: char, b: char): (r: string)
    ensures |r| == |s|
  {
    seq(|s|, i requires 0 <= i < |s| => if s[i] == a then b else s[i])
  }

  /** str.title(): a letter is upper-cased when it starts a run of letters and lower-cased otherwise */
  function Title(s: string): (r: string)
    ensures |r| == |s|
  {
    seq(|s|, i requires 0 <= i < |s| =>
      if !IsLetter(s[i]) then s[i]
      else if i == 0 || !IsLetter(s[i - 1]) then ToUpper(s[i])
      else ToLower(s[i]))
  }

  /** `name.replace('_', ' ').title()`, the display form of a dictionary key */
  function DisplayName(key: string): string {
    Title(ReplaceChar(key, '_', ' '))
  }

  /** For a key of lower-case letters and underscores, lower-casing the display name gives the
      key with spaces for underscores. */
  lemma LowerDisplayName(key: string)
    requires forall i :: 0 <= i < |key| ==> IsLower(key[i]) || key[i] == '_'
    ensures Lower(DisplayName(key)) == ReplaceChar(key, '_', ' ')
  {
    var spaced := ReplaceChar(key, '_', ' ');
    forall i | 0 <= i < |key| ensures Lower(DisplayName(key))[i] == spaced[i] {
      assert Title(spaced)[i] == spaced[i] || Title(spaced)[i] == ToUpper(spaced[i]) ||
             Title(spaced)[i] == ToLower(spaced[i]);
    }
  }

  /** str.capitalize(): first character upper-cased, the rest lower-cased */
  function Capitalize(s: string): (r: string)
    ensures |r| == |s|
  {
    if s == [] then [] else [ToUpper(s[0])] + Lower(s[1..])
  }

  /** str.isalpha() */
  predicate IsAlpha(s: string) {
    |s| > 0 && forall i :: 0 <= i < |s| ==> IsLetter(s[i])
  }

  // ---------------------------------------------------------------- substrings

  predicate StartsWith(s: string, p: string) {
    |p| <= |s| && s[..|p|] == p
  }

  predicate OccursAt(s: string, pat: string, k: nat) {
    k + |pat| <= |s| && s[k..k + |pat|] == pat
  }

  /** Python's `t in s` on strings */
  predicate Contains(s: string, t: string) {
    exists k: nat | k <= |s| :: OccursAt(s, t, k)
  }

  lemma PrefixContained(s: string, t: string)
    requires StartsWith(s, t)
    ensures Contains(s, t)
  {
    assert OccursAt(s, t, 0);
  }

  /** A string that lacks one of the characters of `t` does not contain `t`. */
  lemma AbsentCharNotContained(s: string, t: string, j: nat)
    requires j < |t| && t[j] !in s
    ensures !Contains(s, t)
  {
    forall k: nat | OccursAt(s, t, k) ensures false {
    }
  }

  /** Replacing a character by another leaves alone whether a pattern holding neither occurs. */
  lemma ReplaceCharContains(s: string, a: char, b: char, t: string)
    requires a !in t && b !in t
    ensures Contains(ReplaceChar(s, a, b), t) == Contains(s, t)
  {
    var r := ReplaceChar(s, a, b);
    forall k: nat | k <= |s| ensures OccursAt(r, t, k) <==> OccursAt(s, t, k) {
      if k + |t| <= |s| {
        ReplaceCharWindow(s, a, b, t, k);
      }
    }
  }

  lemma ReplaceCharWindow(s: string, a: char, b: char, t: string, k: nat)
    requires a !in t && b !in t && k + |t| <= |s|
    ensures OccursAt(ReplaceChar(s, a, b), t, k) <==> OccursAt(s, t, k)
  {
    var ws, wr := s[k..k + |t|], ReplaceChar(s, a, b)[k..k + |t|];
    assert forall i :: 0 <= i < |t| ==> wr[i] == if ws[i] == a then b else ws[i];
    if ws == t {
      assert forall i :: 0 <= i < |t| ==> t[i] in t && wr[i] == t[i];
      assert wr == t;
    }
    if wr == t {
      assert forall i :: 0 <= i < |t| ==> t[i] in t && ws[i] == t[i];
      assert ws == t;
    }
  }

  /** str.find(pat, start) */
  function FindFrom(s: string, pat: string, start: nat): (r: int)
    ensures r == -1 || (start <= r && OccursAt(s, pat, r))
    ensures forall k: nat :: start <= k && (r == -1 || k < r) ==> !OccursAt(s, pat, k)
    decreases |s| - start
  {
    if start + |pat| > |s| then -1
    else if OccursAt(s, pat, start) then start
    else FindFrom(s, pat, start + 1)
  }

  /** str.split(sep) with a non-empty separator */
  function SplitOn(s: string, sep: string): (parts: seq<string>)
    requires |sep| > 0
    ensures |parts| >= 1
    decreases |s|
  {
    var i := FindFrom(s, sep, 0);
    if i < 0 then [s] else [s[..i]] + SplitOn(s[i + |sep|..], sep)
  }

  /** str.find(pat) is -1 exactly when pat does not occur. */
  lemma FindNotContained(s: string, pat: string)
    ensures FindFrom(s, pat, 0) == -1 <==> !Contains(s, pat)
  {
    var i := FindFrom(s, pat, 0);
    if i != -1 {
      assert OccursAt(s, pat, i);
    }
  }

  /** str.find(pat, start) returns the first occurrence at or after start. */
  lemma {:induction false} FindFromFirst(s: string, pat: string, start: nat, i: nat)
    requires start <= i && OccursAt(s, pat, i)
    requires forall k: nat :: start <= k < i ==> !OccursAt(s, pat, k)
    ensures FindFrom(s, pat, start) == i
    decreases i - start
  {
    if start < i {
      FindFromFirst(s, pat, start + 1, i);
    }
  }

  /** A prefix ending before the first occurrence holds none. */
  lemma PrefixClean(s: string, pat: string, i: nat)
    requires |pat| > 0 && i <= |s| && forall k: nat :: k < i ==> !OccursAt(s, pat, k)
    ensures !Contains(s[..i], pat)
  {
    forall k: nat | k <= i ensures !OccursAt(s[..i], pat, k) {
      if k + |pat| <= i {
        assert s[..i][k..k + |pat|] == s[k..k + |pat|];
        assert !OccursAt(s, pat, k);
      }
    }
  }

  /** A piece of a string without occurrences holds none. */
  lemma SliceClean(s: string, pat: string, i: nat, j: nat)
    requires i <= j <= |s| && !Contains(s, pat)
    ensures !Contains(s[i..j], pat)
  {
    forall k: nat | k <= j - i ensures !OccursAt(s[i..j], pat, k) {
      if k + |pat| <= j - i {
        var m: nat := i + k;
        assert m <= |s|;
        assert !OccursAt(s, pat, m);
        assert s[i..j][k..k + |pat|] == s[m..m + |pat|];
      }
    }
  }

  /** A string without the separator splits into itself alone. */
  lemma SplitOnClean1(q: string, sep: string)
    requires |sep| > 0 && !Contains(q, sep)
    ensures SplitOn(q, sep) == [q]
  {
    FindNotContained(q, sep);
  }

  /** A string that splits into one part holds no separator. */
  lemma SplitOnOne(s: string, sep: string)
    requires |sep| > 0 && |SplitOn(s, sep)| == 1
    ensures !Contains(s, sep)
  {
    FindNotContained(s, sep);
  }

  /** Only the empty string occurs in the empty string. */
  lemma ContainsInEmpty(t: string)
    requires t != []
    ensures !Contains([], t)
  {
  }

  /** No part of a split holds the separator. */
  lemma {:induction false} SplitOnClean(s: string, sep: string)
    requires |sep| > 0
    ensures forall p :: p in SplitOn(s, sep) ==> !Contains(p, sep)
    decreases |s|
  {
    var i := FindFrom(s, sep, 0);
    if i < 0 {
      FindNotContained(s, sep);
    } else {
      SplitOnClean(s[i + |sep|..], sep);
      PrefixClean(s, sep, i);
    }
  }

  /** With a two-character separator whose characters differ, a split at the end of a part
      without the separator is the first split. */
  lemma SplitAround(p: string, sep: string, q: string)
    requires |sep| == 2 && sep[0] != sep[1] && !Contains(p, sep)
    ensures SplitOn(p + sep + q, sep) == [p] + SplitOn(q, sep)
  {
    var s := p + sep + q;
    assert s[..|p|] == p;
    assert s[|p| + 2..] == q;
    assert s[|p|..|p| + 2] == sep;
    forall k: nat | k < |p| ensures !OccursAt(s, sep, k) {
      if k + 2 <= |p| {
        assert s[k..k + 2] == p[k..k + 2];
        assert !OccursAt(p, sep, k);
      } else {
        assert s[k + 1] == sep[0];
      }
    }
    FindFromFirst(s, sep, 0, |p|);
  }

  /** With a two-character separator whose characters differ, a part without the separator
      keeps none when the separator's first character is appended. */
  lemma AppendFirstClean(q: string, sep: string)
    requires |sep| == 2 && sep[0] != sep[1] && !Contains(q, sep)
    ensures !Contains(q + [sep[0]], sep)
  {
    var s := q + [sep[0]];
    forall k: nat | k <= |s| ensures !OccursAt(s, sep, k) {
      if k + 2 <= |q| {
        assert s[k..k + 2] == q[k..k + 2];
        assert !OccursAt(q, sep, k);
      } else if k + 2 == |s| {
        assert s[k + 1] == sep[0];
      }
    }
  }

  /** Changing the case of letters keeps a pattern of non-letters away. */
  lemma CapitalizeClean(s: string, t: string)
    requires forall j :: 0 <= j < |t| ==> !IsLetter(t[j])
    requires !Contains(s, t)
    ensures !Contains(Capitalize(s), t)
  {
    var c := Capitalize(s);
    forall k: nat | k <= |c| ensures !OccursAt(c, t, k) {
      if k + |t| <= |c| {
        assert !OccursAt(s, t, k);
        var j :| 0 <= j < |t| && s[k..k + |t|][j] != t[j];
        assert s[k..k + |t|][j] == s[k + j];
        CapitalizeAt(s, k + j);
        assert c[k + j] != t[j];
        assert c[k..k + |t|][j] == c[k + j];
      }
    }
  }

  /** Capitalising keeps which characters are letters and leaves the others alone. */
  lemma CapitalizeAt(s: string, i: nat)
    requires i < |s|
    ensures IsLetter(Capitalize(s)[i]) <==> IsLetter(s[i])
    ensures !IsLetter(s[i]) ==> Capitalize(s)[i] == s[i]
  {
    var c := Capitalize(s);
    if i == 0 {
      assert c[0] == ToUpper(s[0]);
    } else {
      var rest := Lower(s[1..]);
      assert c == [ToUpper(s[0])] + rest;
      assert c[i] == rest[i - 1];
      assert s[1..][i - 1] == s[i];
      assert rest[i - 1] == ToLower(s[i]);
    }
  }

  /** sep.join(parts) */
  function Join(parts: seq<string>, sep: string): string
    decreases |parts|
  {
    if |parts| == 0 then ""
    else if |parts| == 1 then parts[0]
    else parts[0] + sep + Join(parts[1..], sep)
  }

  /** Splitting on a separator and joining with it gives the string back. */
  lemma {:induction false} JoinSplitOn(s: string, sep: string)
    requires |sep| > 0
    ensures Join(SplitOn(s, sep), sep) == s
    decreases |s|
  {
    var i := FindFrom(s, sep, 0);
    if i >= 0 {
      var rest := s[i + |sep|..];
      var tail := SplitOn(rest, sep);
      JoinSplitOn(rest, sep);
      var parts := SplitOn(s, sep);
      assert parts == [s[..i]] + tail;
      assert parts[1..] == tail;
      assert Join(parts, sep) == s[..i] + sep + Join(tail, sep);
      assert s == s[..i] + s[i..i + |sep|] + rest;
    }
  }

  /** Joining the first two parts and then the rest is joining them all. */
  lemma JoinFirstTwo(parts: seq<string>, sep: string)
    requires |parts| > 2
    ensures Join(parts, sep) == Join(parts[..2], sep) + sep + Join(parts[2..], sep)
  {
    assert parts[..2][1..] == [parts[1]];
    assert parts[1..][1..] == parts[2..];
  }

  // ---------------------------------------------------------------- whitespace

  function LStrip(s: string): (r: string)
    ensures |r| <= |s| && r == s[|s| - |r|..]
    ensures r == [] || !IsSpace(r[0])
    ensures forall i :: 0 <= i < |s| - |r| ==> IsSpace(s[i])
    decreases |s|
  {
    if |s| > 0 && IsSpace(s[0]) then LStrip(s[1..]) else s
  }

  function RStrip(s: string): (r: string)
    ensures |r| <= |s| && r == s[..|r|]
    ensures r == [] || !IsSpace(r[|r| - 1])
    ensures forall i :: |r| <= i < |s| ==> IsSpace(s[i])
    decreases |s|
  {
    if |s| > 0 && IsSpace(s[|s| - 1]) then RStrip(s[..|s| - 1]) else s
  }

  /** where the run of non-whitespace characters that ends s[..j] starts */
  function RunStart(s: string, j: nat): (k: nat)
    requires j <= |s|
    ensures k <= j
    ensures forall i :: k <= i < j ==> !IsSpace(s[i])
    ensures k > 0 ==> IsSpace(s[k - 1])
    decreases j
  {
    if j > 0 && !IsSpace(s[j - 1]) then RunStart(s, j - 1) else j
  }

  /** str.split()[-1], the last word of a string that has one */
  function LastWord(s: string): string {
    var t := RStrip(s);
    t[RunStart(t, |t|)..]
  }

  /** str.strip() */
  function Strip(s: string): string {
    RStrip(LStrip(s))
  }

  /** Number of words starting in `s` when the character before `s` is whitespace iff `afterSpace`. */
  function WordStarts(s: string, afterSpace: bool): nat
    decreases |s|
  {
    if s == [] then 0
    else (if afterSpace && !IsSpace(s[0]) then 1 else 0) + WordStarts(s[1..], IsSpace(s[0]))
  }

  /** len(s.split()): the number of maximal runs of non-whitespace characters */
  function WordCount(s: string): nat {
    WordStarts(s, true)
  }

  lemma {:induction false} LeadingSpaceWords(s: string)
    ensures WordCount(LStrip(s)) == WordCount(s)
    decreases |s|
  {
    if |s| > 0 && IsSpace(s[0]) {
      LeadingSpaceWords(s[1..]);
    }
  }

  lemma {:induction false} AllSpaceWords(w: string, afterSpace: bool)
    requires forall i :: 0 <= i < |w| ==> IsSpace(w[i])
    ensures WordStarts(w, afterSpace) == 0
    decreases |w|
  {
    if w != [] {
      AllSpaceWords(w[1..], true);
    }
  }

  lemma {:induction false} TrailingSpaceWords(u: string, w: string, afterSpace: bool)
    requires forall i :: 0 <= i < |w| ==> IsSpace(w[i])
    ensures WordStarts(u + w, afterSpace) == WordStarts(u, afterSpace)
    decreases |u|
  {
    if u == [] {
      assert u + w == w;
      AllSpaceWords(w, afterSpace);
    } else {
      assert (u + w)[1..] == u[1..] + w;
      TrailingSpaceWords(u[1..], w, IsSpace(u[0]));
    }
  }

  /** Stripping a string keeps its words: `len(s.strip().split()) == len(s.split())`. */
  lemma StripKeepsWordCount(s: string)
    ensures WordCount(Strip(s)) == WordCount(s)
  {
    LeadingSpaceWords(s);
    TrailingWhitespaceWords(LStrip(s));
  }

  lemma TrailingWhitespaceWords(t: string)
    ensures WordCount(RStrip(t)) == WordCount(t)
  {
    var r := RStrip(t);
    var w := t[|r|..];
    assert t == r + w;
    forall i | 0 <= i < |w| ensures IsSpace(w[i]) {
      assert w[i] == t[|r| + i];
    }
    TrailingSpaceWords(r, w, true);
  }

  // ---------------------------------------------------------------- numbers

  function DigitChar(d: nat): (c: char)
    requires d < 10
  {
    ('0' as int + d) as char
  }

  /** str(n) for a natural number */
  function NatToString(n: nat): (s: string)
    ensures |s| > 0
    ensures forall i :: 0 <= i < |s| ==> '0' <= s[i] <= '9'
    decreases n
  {
    if n < 10 then [DigitChar(n)] else NatToString(n / 10) + [DigitChar(n % 10)]
  }

  /** int(s) for a string of decimal digits */
  function ParseDigits(s: string): nat
    requires forall i :: 0 <= i < |s| ==> '0' <= s[i] <= '9'
    decreases |s|
  {
    if s == [] then 0 else 10 * ParseDigits(s[..|s| - 1]) + (s[|s| - 1] as int - '0' as int)
  }

  /** Printing a number and reading it back gives the number. */
  lemma {:induction false} ParseNatToString(n: nat)
    ensures ParseDigits(NatToString(n)) == n
    decreases n
  {
    if n >= 10 {
      ParseNatToString(n / 10);
      var s := NatToString(n);
      assert s[..|s| - 1] == NatToString(n / 10);
    }
  }

  /** round(x, 1) on the reals, rounding halves upward */
  function Round1(x: real): real {
    ((x * 10.0 + 0.5).Floor as real) / 10.0
  }

  /** round(x, 2) on the reals, rounding halves upward */
  function Round2(x: real): real {
    ((x * 100.0 + 0.5).Floor as real) / 100.0
  }

  lemma Round1Close(x: real)
    ensures x - 0.05 < Round1(x) <= x + 0.05
  {
  }

  lemma Round1Monotone(x: real, y: real)
    requires x <= y
    ensures Round1(x) <= Round1(y)
  {
    assert (x * 10.0 + 0.5).Floor <= (y * 10.0 + 0.5).Floor;
  }

  /** Rounding keeps a value inside [lo, hi] when both ends have one decimal. */
  lemma Round1Within(x: real, lo: int, hi: int)
    requires lo as real / 10.0 <= x <= hi as real / 10.0
    ensures lo as real / 10.0 <= Round1(x) <= hi as real / 10.0
  {
    assert lo as real <= x * 10.0 <= hi as real;
    assert lo <= (x * 10.0 + 0.5).Floor <= hi;
  }

  lemma Round2Within(x: real, lo: int, hi: int)
    requires lo as real / 100.0 <= x <= hi as real / 100.0
    ensures lo as real / 100.0 <= Round2(x) <= hi as real / 100.0
  {
    assert lo as real <= x * 100.0 <= hi as real;
    assert lo <= (x * 100.0 + 0.5).Floor <= hi;
  }

  lemma Round2NonNegative(x: real)
    requires 0.0 <= x
    ensures 0.0 <= Round2(x)
  {
    assert 0.0 <= x * 100.0;
  }

  /** k / n for 0 <= k <= n, n > 0, lies in [0, 1] */
  lemma FractionBounds(k: nat, n: nat)
    requires 0 < n && k <= n
    ensures 0.0 <= k as real / n as real <= 1.0
  {
  }

  // ---------------------------------------------------------------- sequences

  /** s[:n] */
  function Take<T>(s: seq<T>, n: nat): (r: seq<T>)
    ensures |r| == if n <= |s| then n else |s|
    ensures r == s[..|r|]
  {
    if n <= |s| then s[..n] else s
  }

  /** s[a:b] for 0 <= a <= b */
  function Slice<T>(s: seq<T>, a: nat, b: nat): (r: seq<T>)
    requires a <= b
    ensures |r| <= b - a
    ensures forall x :: x in r ==> x in s
  {
    if a <= |s| then Take(s[a..], b - a) else []
  }

  /** [x for x in s if p(x)] */
  function Filter<T(!new)>(s: seq<T>, p: T -> bool): (r: seq<T>)
    ensures |r| <= |s|
    ensures forall x :: x in r <==> x in s && p(x)
    decreases |s|
  {
    if s == [] then []
    else if p(s[0]) then [s[0]] + Filter(s[1..], p)
    else Filter(s[1..], p)
  }

  lemma {:induction false} FilterNone<T(!new)>(s: seq<T>, p: T -> bool)
    requires forall x :: x in s ==> !p(x)
    ensures Filter(s, p) == []
    decreases |s|
  {
    if s != [] {
      assert s[0] in s;
      FilterNone(s[1..], p);
    }
  }

  lemma FilterAppend<T(!new)>(s: seq<T>, x: T, p: T -> bool)
    ensures Filter(s + [x], p) == Filter(s, p) + (if p(x) then [x] else [])
    decreases |s|
  {
    if s != [] {
      assert (s + [x])[1..] == s[1..] + [x];
    } else {
      assert s + [x] == [x];
    }
  }

  /** Filtering with a predicate every element meets keeps the sequence. */
  lemma {:induction false} FilterAll<T(!new)>(s: seq<T>, p: T -> bool)
    requires forall x :: x in s ==> p(x)
    ensures Filter(s, p) == s
    decreases |s|
  {
    if s != [] {
      assert s[0] in s;
      FilterAll(s[1..], p);
      assert s == [s[0]] + s[1..];
    }
  }

  lemma {:induction false} FilterSubMultiset<T(!new)>(s: seq<T>, p: T -> bool)
    ensures multiset(Filter(s, p)) <= multiset(s)
    decreases |s|
  {
    if s != [] {
      FilterSubMultiset(s[1..], p);
      assert s == [s[0]] + s[1..];
    }
  }

  /** [f(x) for x in s] */
  function Map<T, U>(s: seq<T>, f: T -> U): (r: seq<U>)
    ensures |r| == |s|
    ensures forall i :: 0 <= i < |s| ==> r[i] == f(s[i])
  {
    seq(|s|, i requires 0 <= i < |s| => f(s[i]))
  }

  lemma MapAppend<T, U>(a: seq<T>, b: seq<T>, f: T -> U)
    ensures Map(a + b, f) == Map(a, f) + Map(b, f)
  {
    assert forall i :: 0 <= i < |a + b| ==> Map(a + b, f)[i] == (Map(a, f) + Map(b, f))[i];
  }

  predicate Distinct<T(==)>(s: seq<T>) {
    forall i, j :: 0 <= i < j < |s| ==> s[i] != s[j]
  }

  /** A sequence whose elements all come from a sequence without repeats, at most once each, has none. */
  lemma MultisetDistinct<T>(s: seq<T>, big: seq<T>)
    requires Distinct(big) && multiset(s) <= multiset(big)
    ensures Distinct(s)
  {
    forall i, j | 0 <= i < j < |s| ensures s[i] != s[j] {
      if s[i] == s[j] {
        var x := s[i];
        assert s == s[..i] + [x] + s[i + 1..];
        assert s[i + 1..] == s[i + 1..j] + [x] + s[j + 1..];
        assert multiset(s)[x] >= 2;
        DistinctCount(big, x);
      }
    }
  }

  lemma {:induction false} DistinctCount<T>(s: seq<T>, x: T)
    requires Distinct(s)
    ensures multiset(s)[x] <= 1
    decreases |s|
  {
    if s != [] {
      assert s == [s[0]] + s[1..];
      assert Distinct(s[1..]) by {
        forall i, j | 0 <= i < j < |s[1..]| ensures s[1..][i] != s[1..][j] {
          assert s[1..][i] == s[i + 1] && s[1..][j] == s[j + 1];
        }
      }
      DistinctCount(s[1..], x);
      if s[0] == x {
        assert x !in s[1..] by {
          forall k | 0 <= k < |s[1..]| ensures s[1..][k] != x {
            assert s[1..][k] == s[k + 1];
          }
        }
      }
    }
  }

  /** the distinct elements of `s` in order of first occurrence */
  function Dedup<T(==,!new)>(s: seq<T>): (r: seq<T>)
    ensures Distinct(r)
    ensures forall x :: x in r <==> x in s
    ensures |r| <= |s|
    decreases |s|
  {
    if s == [] then []
    else
      var d := Dedup(s[..|s| - 1]);
      var x := s[|s| - 1];
      assert forall y :: y in s <==> y in s[..|s| - 1] || y == x by {
        assert s == s[..|s| - 1] + [x];
      }
      if x in d then d else d + [x]
  }

  /** Filtering a list keeps it in ascending order of a key. */
  lemma {:induction false} FilterAscending<T(!new)>(s: seq<T>, p: T -> bool, key: T -> real)
    requires forall i, j :: 0 <= i < j < |s| ==> key(s[i]) <= key(s[j])
    ensures forall i, j :: 0 <= i < j < |Filter(s, p)| ==> key(Filter(s, p)[i]) <= key(Filter(s, p)[j])
    decreases |s|
  {
    if s != [] {
      var rest := Filter(s[1..], p);
      FilterAscending(s[1..], p, key);
      if p(s[0]) {
        assert Filter(s, p) == [s[0]] + rest;
        forall j | 0 <= j < |rest| ensures key(s[0]) <= key(rest[j]) {
          assert rest[j] in s[1..];
          var k :| 0 <= k < |s[1..]| && s[1..][k] == rest[j];
          assert s[k + 1] == rest[j];
        }
      } else {
        assert Filter(s, p) == rest;
      }
    }
  }

  /** Filtering a sequence without repeats leaves none. */
  lemma FilterDistinct<T(!new)>(s: seq<T>, p: T -> bool)
    requires Distinct(s)
    ensures Distinct(Filter(s, p))
  {
    FilterSubMultiset(s, p);
    MultisetDistinct(Filter(s, p), s);
  }

  /** A sequence without repeats is its own deduplication. */
  lemma {:induction false} DedupDistinct<T(!new)>(s: seq<T>)
    requires Distinct(s)
    ensures Dedup(s) == s
    decreases |s|
  {
    if s != [] {
      var init := s[..|s| - 1];
      assert Distinct(init) by {
        forall i, j | 0 <= i < j < |init| ensures init[i] != init[j] {
          assert init[i] == s[i] && init[j] == s[j];
        }
      }
      DedupDistinct(init);
      assert s[|s| - 1] !in init by {
        forall k | 0 <= k < |init| ensures init[k] != s[|s| - 1] {
          assert init[k] == s[k];
        }
      }
      assert s == init + [s[|s| - 1]];
    }
  }

  /** number of occurrences of `x` in `s` */
  function Count<T(==)>(s: seq<T>, x: T): nat
    decreases |s|
  {
    if s == [] then 0 else (if s[0] == x then 1 else 0) + Count(s[1..], x)
  }

  /** sum(len(v) for v in lists) */
  function SumLengths<K, V>(m: seq<(K, seq<V>)>): nat
    decreases |m|
  {
    if m == [] then 0 else |m[0].1| + SumLengths(m[1..])
  }

  // ---------------------------------------------------------------- association lists

  /** The keys of an insertion-ordered dictionary, in order. */
  function Keys<K, V>(m: seq<(K, V)>): (ks: seq<K>)
    ensures |ks| == |m|
    ensures forall i :: 0 <= i < |m| ==> ks[i] == m[i].0
  {
    seq(|m|, i requires 0 <= i < |m| => m[i].0)
  }

  /** A Python dict: no key appears twice. */
  predicate IsDict<K(==), V>(m: seq<(K, V)>) {
    Distinct(Keys(m))
  }

  predicate HasKey<K(==), V>(m: seq<(K, V)>, k: K) {
    k in Keys(m)
  }

  /** m[k] for a key that is present: the value at its first position */
  function Lookup<K(==), V>(m: seq<(K, V)>, k: K): V
    requires HasKey(m, k)
    decreases |m|
  {
    if m[0].0 == k then m[0].1
    else
      assert Keys(m)[1..] == Keys(m[1..]);
      Lookup(m[1..], k)
  }

  /** In a dict, looking up the key stored at position i gives the value stored there. */
  lemma {:induction false} LookupAt<K, V>(m: seq<(K, V)>, i: nat)
    requires IsDict(m) && i < |m|
    ensures HasKey(m, m[i].0) && Lookup(m, m[i].0) == m[i].1
    decreases i
  {
    assert Keys(m)[i] == m[i].0;
    if i > 0 {
      assert Keys(m)[0] != Keys(m)[i];
      assert Keys(m)[1..] == Keys(m[1..]);
      LookupAt(m[1..], i - 1);
    }
  }

  /** The value looked up is stored under its key. */
  lemma {:induction false} LookupIn<K, V>(m: seq<(K, V)>, k: K)
    requires HasKey(m, k)
    ensures (k, Lookup(m, k)) in m
    decreases |m|
  {
    if m[0].0 != k {
      assert Keys(m)[1..] == Keys(m[1..]);
      LookupIn(m[1..], k);
    }
  }

  /** The rest of a dict is a dict without its first key. */
  lemma DictTail<K, V>(m: seq<(K, V)>)
    requires IsDict(m) && m != []
    ensures IsDict(m[1..]) && !HasKey(m[1..], m[0].0)
  {
    assert Keys(m)[1..] == Keys(m[1..]);
    forall i, j | 0 <= i < j < |m[1..]| ensures Keys(m[1..])[i] != Keys(m[1..])[j] {
      assert Keys(m)[i + 1] != Keys(m)[j + 1];
    }
    forall k | 0 <= k < |m[1..]| ensures Keys(m[1..])[k] != m[0].0 {
      assert Keys(m)[0] != Keys(m)[k + 1];
    }
  }

  /** A new key put in front of a dict keeps it a dict. */
  lemma DictCons<K, V>(e: (K, V), m: seq<(K, V)>)
    requires IsDict(m) && !HasKey(m, e.0)
    ensures IsDict([e] + m)
  {
    var r := [e] + m;
    assert Keys(r)[1..] == Keys(m);
    forall i, j | 0 <= i < j < |r| ensures Keys(r)[i] != Keys(r)[j] {
      if i == 0 {
        assert Keys(r)[j] == Keys(m)[j - 1];
      } else {
        assert Keys(r)[i] == Keys(m)[i - 1] && Keys(r)[j] == Keys(m)[j - 1];
      }
    }
  }

  /** The keys of entries drawn from m are keys of m. */
  lemma KeysOfSubset<K, V>(t: seq<(K, V)>, m: seq<(K, V)>, k: K)
    requires forall e :: e in t ==> e in m
    requires HasKey(t, k)
    ensures HasKey(m, k)
  {
    var i :| 0 <= i < |t| && Keys(t)[i] == k;
    assert t[i] in m;
    var j :| 0 <= j < |m| && m[j] == t[i];
    assert Keys(m)[j] == k;
  }

  // ---------------------------------------------------------------- accumulation loops

  /** what a loop that appends chunk(i, xs[i]) for each i < n builds */
  function Collect<T, U>(xs: seq<T>, n: nat, chunk: (nat, T) -> seq<U>): seq<U>
    requires n <= |xs|
  {
    if n == 0 then [] else Collect(xs, n - 1, chunk) + chunk(n - 1, xs[n - 1])
  }

  /** Every element collected comes from the chunk of some position before n. */
  lemma {:induction false} CollectMember<T, U>(xs: seq<T>, n: nat, chunk: (nat, T) -> seq<U>, y: U)
    requires n <= |xs| && y in Collect(xs, n, chunk)
    ensures exists i :: 0 <= i < n && y in chunk(i, xs[i])
  {
    if y !in chunk(n - 1, xs[n - 1]) {
      CollectMember(xs, n - 1, chunk, y);
    }
  }

  /** The chunk of every position before n is collected. */
  lemma {:induction false} CollectContains<T, U>(xs: seq<T>, n: nat, chunk: (nat, T) -> seq<U>, i: nat, y: U)
    requires i < n <= |xs| && y in chunk(i, xs[i])
    ensures y in Collect(xs, n, chunk)
  {
    if i < n - 1 {
      CollectContains(xs, n - 1, chunk, i, y);
    }
  }

  /** Chunks of at most m elements collect at most n * m. */
  lemma {:induction false} CollectLength<T, U>(xs: seq<T>, n: nat, chunk: (nat, T) -> seq<U>, m: nat)
    requires n <= |xs| && forall i :: 0 <= i < n ==> |chunk(i, xs[i])| <= m
    ensures |Collect(xs, n, chunk)| <= n * m
  {
    if n > 0 {
      CollectLength(xs, n - 1, chunk, m);
    }
  }

  /** [f(x)] when p(x) holds, and nothing otherwise */
  function Guarded<T, U>(p: T -> bool, f: T -> U, x: T): seq<U> {
    if p(x) then [f(x)] else []
  }

  /** Appending x to the filtered input appends [f(x)] or nothing to the mapped output. */
  lemma GuardedStep<T(!new), U>(prev: seq<T>, x: T, p: T -> bool, f: T -> U, c: seq<U>)
    requires c == Guarded(p, f, x)
    ensures Map(Filter(prev + [x], p), f) == Map(Filter(prev, p), f) + c
  {
    FilterAppend(prev, x, p);
    var tail := if p(x) then [x] else [];
    MapAppend(Filter(prev, p), tail, f);
    assert Map(tail, f) == c;
  }

  /** A chunk that is [f(x)] when p(x) holds and empty otherwise collects
      [f(x) for x in xs[:n] if p(x)]. */
  lemma {:induction false} CollectGuarded<T(!new), U>(xs: seq<T>, n: nat, chunk: (nat, T) -> seq<U>,
                                                      p: T -> bool, f: T -> U)
    requires n <= |xs|
    requires forall i :: 0 <= i < n ==> chunk(i, xs[i]) == Guarded(p, f, xs[i])
    ensures Collect(xs, n, chunk) == Map(Filter(xs[..n], p), f)
  {
    if n > 0 {
      CollectGuarded(xs, n - 1, chunk, p, f);
      var prev, x := xs[..n - 1], xs[n - 1];
      assert xs[..n] == prev + [x];
      GuardedStep(prev, x, p, f, chunk(n - 1, x));
      assert Collect(xs, n, chunk) == Map(Filter(prev, p), f) + chunk(n - 1, x);
    } else {
      assert xs[..0] == [];
    }
  }
}
