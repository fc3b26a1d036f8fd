/**
 * The Python `str` operations the modelled scripts rely on, stated over
 * `seq<char>`. Case mapping covers ASCII letters only; whitespace is the full
 * class Python's `str.isspace` (and the regex class `\s`) recognises.
 */
module Text {
  import opened Wrappers

  /** `c.isspace()`; also the characters the regex class `\s` matches. */
  predicate IsSpace(c: char) {
    c == ' ' || ('\t' <= c <= '\r') || ('\U{1c}' <= c <= '\U{1f}') || c == '\U{85}' || c == '\U{a0}'
    || c == '\U{1680}' || ('\U{2000}' <= c <= '\U{200a}') || c == '\U{2028}' || c == '\U{2029}'
    || c == '\U{202f}' || c == '\U{205f}' || c == '\U{3000}'
  }

  /** `\w` on ASCII text. */
  predicate IsWordChar(c: char) {
    'a' <= c <= 'z' || 'A' <= c <= 'Z' || '0' <= c <= '9' || c == '_'
  }

  /** The regex `\b` at index `i` of `s`: a word character on exactly one side of it. */
  predicate WordBoundary(s: string, i: int) {
    (0 < i <= |s| && IsWordChar(s[i - 1])) != (0 <= i < |s| && IsWordChar(s[i]))
  }

  /** Every character is whitespace (so `not s.strip()` holds). */
  predicate IsBlank(s: string) {
    forall i :: 0 <= i < |s| ==> IsSpace(s[i])
  }

  function LowerChar(c: char): char {
    if 'A' <= c <= 'Z' then (c as int + 32) as char else c
  }

  /** `s.lower()` on ASCII letters; every other character is kept. */
  function Lower(s: string): (r: string)
    ensures |r| == |s|
    ensures forall i :: 0 <= i < |s| ==> r[i] == LowerChar(s[i])
  {
    seq(|s|, i requires 0 <= i < |s| => LowerChar(s[i]))
  }

  /** `s.lstrip()`: the suffix left after dropping leading whitespace. */
  function LStrip(s: string): (r: string)
    ensures |r| <= |s| && r == s[|s| - |r|..]
    ensures IsBlank(s[..|s| - |r|])
    ensures r != [] ==> !IsSpace(r[0])
  {
    if s != [] && IsSpace(s[0]) then LStrip(s[1..]) else s
  }

  /**
   * `s.strip()`: leading and trailing whitespace removed, one character at a
   * time; `StripBlank` says when nothing is left.
   */
  function Strip(s: string): (r: string)
    ensures |r| <= |s|
    ensures r != [] ==> !IsSpace(r[0]) && !IsSpace(r[|r| - 1])
  {
    if s != [] && IsSpace(s[0]) then Strip(s[1..])
    else if s != [] && IsSpace(s[|s| - 1]) then Strip(s[..|s| - 1])
    else s
  }

  /** `s.strip()` keeps only characters of `s`. */
  lemma {:induction false} StripChars(s: string)
    ensures forall c | c in Strip(s) :: c in s
    decreases |s|
  {
    if s != [] && IsSpace(s[0]) {
      StripChars(s[1..]);
    } else if s != [] && IsSpace(s[|s| - 1]) {
      StripChars(s[..|s| - 1]);
    }
  }

  /** `s.strip()` is empty exactly when `s` is blank. */
  lemma {:induction false} StripBlank(s: string)
    ensures Strip(s) == [] <==> IsBlank(s)
  {
    if s != [] && IsSpace(s[0]) {
      StripBlank(s[1..]);
      assert forall i :: 0 < i < |s| ==> s[i] == s[1..][i - 1];
    } else if s != [] && IsSpace(s[|s| - 1]) {
      StripBlank(s[..|s| - 1]);
      assert forall i :: 0 <= i < |s| - 1 ==> s[i] == s[..|s| - 1][i];
    }
  }

  /** Every line stripped, as a loop that strips each line before using it sees them. */
  function StripAll(lines: seq<string>): (ts: seq<string>)
    ensures |ts| == |lines|
    ensures forall i :: 0 <= i < |lines| ==> ts[i] == Strip(lines[i])
  {
    seq(|lines|, i requires 0 <= i < |lines| => Strip(lines[i]))
  }

  /** `s.rstrip(c)` for a single character `c`. */
  function RStripChar(s: string, c: char): (r: string)
    ensures |r| <= |s| && r == s[..|r|]
    ensures forall i :: |r| <= i < |s| ==> s[i] == c
    ensures r != [] ==> r[|r| - 1] != c
  {
    if s != [] && s[|s| - 1] == c then RStripChar(s[..|s| - 1], c) else s
  }

  /** `sub` occurs in `s` starting at index `i`. */
  predicate SubAt(s: string, sub: string, i: int) {
    0 <= i && i + |sub| <= |s| && s[i..i + |sub|] == sub
  }

  /** Python's `sub in s`. */
  predicate Contains(s: string, sub: string) {
    exists i | 0 <= i <= |s| - |sub| :: SubAt(s, sub, i)
  }

  lemma ContainsLeft(a: string, b: string, sub: string)
    requires Contains(a, sub)
    ensures Contains(a + b, sub)
  {
    var i :| 0 <= i <= |a| - |sub| && SubAt(a, sub, i);
    assert (a + b)[i..i + |sub|] == a[i..i + |sub|];
    assert SubAt(a + b, sub, i);
  }

  lemma ContainsRight(a: string, b: string, sub: string)
    requires Contains(b, sub)
    ensures Contains(a + b, sub)
  {
    var i :| 0 <= i <= |b| - |sub| && SubAt(b, sub, i);
    assert (a + b)[|a| + i..|a| + i + |sub|] == b[i..i + |sub|];
    assert SubAt(a + b, sub, |a| + i);
  }

  lemma ContainsPrefix(s: string, p: string)
    requires p <= s
    ensures Contains(s, p)
  {
    assert SubAt(s, p, 0);
  }

  /** Whatever occurs in a part of `s` occurs in `s`. */
  lemma ContainsTrans(s: string, mid: string, sub: string)
    requires Contains(s, mid) && Contains(mid, sub)
    ensures Contains(s, sub)
  {
    var i :| 0 <= i <= |s| - |mid| && SubAt(s, mid, i);
    var j :| 0 <= j <= |mid| - |sub| && SubAt(mid, sub, j);
    forall k | 0 <= k < |sub|
      ensures s[i + j + k] == sub[k]
    {
      assert s[i + j + k] == s[i..i + |mid|][j + k];
      assert mid[j + k] == mid[j..j + |sub|][k];
    }
    assert s[i + j..i + j + |sub|] == sub;
    assert 0 <= i + j <= |s| - |sub| && SubAt(s, sub, i + j);
  }

  /** `w` placed after `a` occurs at index `|a|` of `a + w + b`. */
  lemma SubAtMiddle(a: string, w: string, b: string)
    ensures SubAt(a + w + b, w, |a|)
  {
    assert (a + w + b)[|a|..|a| + |w|] == w;
  }

  /** A character is `in` a string only if it occurs at some index. */
  lemma ContainsChar(s: string, c: char)
    ensures Contains(s, [c]) <==> c in s
  {
    if c in s {
      var i :| 0 <= i < |s| && s[i] == c;
      assert SubAt(s, [c], i);
    }
    if Contains(s, [c]) {
      var i :| 0 <= i <= |s| - 1 && SubAt(s, [c], i);
      assert s[i] == s[i..i + 1][0];
    }
  }

  /** A non-empty needle occurs only in a haystack holding its first character. */
  lemma ContainsNeedsChar(s: string, sub: string)
    requires sub != [] && Contains(s, sub)
    ensures sub[0] in s
  {
    var i :| 0 <= i <= |s| - |sub| && SubAt(s, sub, i);
    assert s[i] == s[i..i + |sub|][0];
  }

  /** `s.startswith(p)`. */
  predicate StartsWith(s: string, p: string) {
    p <= s
  }

  /** `s.endswith(p)`. */
  predicate EndsWith(s: string, p: string) {
    |p| <= |s| && s[|s| - |p|..] == p
  }

  /** `s.replace(pat, rep)`: non-overlapping occurrences, scanning left to right. */
  function Replace(s: string, pat: string, rep: string): string
    requires pat != []
    decreases |s|
  {
    if |s| < |pat| then s
    else if s[..|pat|] == pat then rep + Replace(s[|pat|..], pat, rep)
    else [s[0]] + Replace(s[1..], pat, rep)
  }

  /** Every occurrence of character `c` written as `rep`, every other character kept. */
  function Subst(s: string, c: char, rep: string): string {
    if s == [] then [] else (if s[0] == c then rep else [s[0]]) + Subst(s[1..], c, rep)
  }

  lemma {:induction false} SubstAppend(a: string, b: string, c: char, rep: string)
    ensures Subst(a + b, c, rep) == Subst(a, c, rep) + Subst(b, c, rep)
  {
    if a != [] {
      assert (a + b)[1..] == a[1..] + b;
      SubstAppend(a[1..], b, c, rep);
    } else {
      assert a + b == b;
    }
  }

  lemma SubstNoOccurrence(s: string, c: char, rep: string)
    requires c !in s
    ensures Subst(s, c, rep) == s
  {
    if s != [] { SubstNoOccurrence(s[1..], c, rep); }
  }

  /** Replacing a one-character pattern is the same as substituting each occurrence. */
  lemma {:induction false} ReplaceOneChar(s: string, c: char, rep: string)
    ensures Replace(s, [c], rep) == Subst(s, c, rep)
    decreases |s|
  {
    if |s| >= 1 {
      ReplaceOneChar(s[1..], c, rep);
      assert s[..1] == [s[0]];
    }
  }

  /** `s[:n]`. */
  function Take(s: string, n: nat): (r: string)
    ensures |r| == Min(n, |s|) && r == s[..|r|]
  {
    if n <= |s| then s[..n] else s
  }

  /** `s[-n:]` for a positive `n`. */
  function TakeLast(s: string, n: nat): (r: string)
    ensures |r| == Min(n, |s|) && r == s[|s| - |r|..]
  {
    if n <= |s| then s[|s| - n..] else s
  }

  /** `sep.join(parts)`. */
  function Join(sep: string, parts: seq<string>): string
    decreases |parts|
  {
    if parts == [] then ""
    else if |parts| == 1 then parts[0]
    else parts[0] + sep + Join(sep, parts[1..])
  }

  /** The first index of `c` in `s`. */
  function IndexOfChar(s: string, c: char): (i: nat)
    requires c in s
    ensures i < |s| && s[i] == c && c !in s[..i]
  {
    if s[0] == c then 0
    else
      var j := IndexOfChar(s[1..], c);
      assert s[..j + 1] == [s[0]] + s[1..][..j];
      j + 1
  }

  /** `s.split(c)` for a single-character separator: always at least one field. */
  function Split(s: string, c: char): (r: seq<string>)
    ensures |r| >= 1
    ensures forall k :: 0 <= k < |r| ==> c !in r[k]
    decreases |s|
  {
    if c in s then
      var i := IndexOfChar(s, c);
      [s[..i]] + Split(s[i + 1..], c)
    else [s]
  }

  /** Joining the fields of a split with the separator gives back the string. */
  lemma {:induction false} JoinSplit(s: string, c: char)
    ensures Join([c], Split(s, c)) == s
    decreases |s|
  {
    if c in s {
      var i := IndexOfChar(s, c);
      JoinSplit(s[i + 1..], c);
      var rest := Split(s[i + 1..], c);
      assert Split(s, c) == [s[..i]] + rest;
      assert ([s[..i]] + rest)[1..] == rest;
      assert s == s[..i] + [c] + s[i + 1..];
    }
  }

  /** The first separator after a separator-free field is the one that ends it. */
  lemma FirstSeparatorEndsField(a: string, c: char, b: string)
    requires c !in a
    ensures c in a + [c] + b
    ensures IndexOfChar(a + [c] + b, c) == |a|
    ensures (a + [c] + b)[..|a|] == a && (a + [c] + b)[|a| + 1..] == b
  {
    var s := a + [c] + b;
    assert s[|a|] == c;
  }

  /** Splitting at a separator that follows a separator-free field yields that field first. */
  lemma SplitAtFirst(a: string, c: char, b: string)
    requires c !in a
    ensures Split(a + [c] + b, c) == [a] + Split(b, c)
  {
    FirstSeparatorEndsField(a, c, b);
  }

  /** Splitting a join of separator-free fields gives back the fields. */
  lemma {:induction false} SplitJoin(parts: seq<string>, c: char)
    requires |parts| >= 1
    requires forall k :: 0 <= k < |parts| ==> c !in parts[k]
    ensures Split(Join([c], parts), c) == parts
    decreases |parts|
  {
    if |parts| == 1 {
      assert Join([c], parts) == parts[0];
    } else {
      var rest := parts[1..];
      var tail := Join([c], rest);
      assert Join([c], parts) == parts[0] + [c] + tail;
      SplitAtFirst(parts[0], c, tail);
      assert forall k :: 0 <= k < |rest| ==> rest[k] == parts[k + 1];
      SplitJoin(rest, c);
      assert parts == [parts[0]] + rest;
    }
  }

  /** Concatenation regrouped, for proofs that split a sequence in two places. */
  lemma SeqAssoc<T>(a: seq<T>, b: seq<T>, c: seq<T>)
    ensures a + (b + c) == a + b + c
  {
  }

  /** One more element of a prefix. */
  lemma PrefixSnoc<T>(s: seq<T>, i: nat)
    requires i < |s|
    ensures s[..i + 1] == s[..i] + [s[i]]
  {
  }

  /** A non-empty sequence is its front followed by its last element. */
  lemma SplitLast<T>(s: seq<T>)
    requires s != []
    ensures s == s[..|s| - 1] + [s[|s| - 1]]
  {
  }

  /** Length of the leading run of non-whitespace characters. */
  function TokenLen(s: string): (n: nat)
    ensures n <= |s|
    ensures forall j :: 0 <= j < n ==> !IsSpace(s[j])
    ensures n < |s| ==> IsSpace(s[n])
  {
    if s == [] || IsSpace(s[0]) then 0 else 1 + TokenLen(s[1..])
  }

  /** A non-empty run of non-whitespace characters. */
  predicate IsWord(w: string) {
    w != [] && forall j :: 0 <= j < |w| ==> !IsSpace(w[j])
  }

  /** `s.split()` with no argument: the maximal runs of non-whitespace, in order. */
  function Words(s: string): (r: seq<string>)
    ensures forall k :: 0 <= k < |r| ==> IsWord(r[k])
    decreases |s|
  {
    if s == [] then []
    else if IsSpace(s[0]) then Words(s[1..])
    else
      var n := TokenLen(s);
      [s[..n]] + Words(s[n..])
  }

  /** `re.sub(r'\s+', ' ', s)`: each maximal whitespace run becomes one space. */
  function Collapse(s: string): (r: string)
    ensures r == [] <==> s == []
    ensures r != [] ==> (r[0] == ' ' <==> IsSpace(s[0])) && (!IsSpace(s[0]) ==> r[0] == s[0])
    ensures r != [] ==> (IsSpace(r[|r| - 1]) <==> IsSpace(s[|s| - 1])) && (!IsSpace(s[|s| - 1]) ==> r[|r| - 1] == s[|s| - 1])
    ensures forall i :: 0 <= i < |r| && IsSpace(r[i]) ==> r[i] == ' '
    ensures forall i :: 0 <= i < |r| - 1 ==> !(IsSpace(r[i]) && IsSpace(r[i + 1]))
    decreases |s|
  {
    if s == [] then []
    else if IsSpace(s[0]) then
      var t := LStrip(s);
      var rest := Collapse(t);
      assert t == [] ==> IsBlank(s) by {
        if t == [] { assert s[..|s| - |t|] == s; }
      }
      assert t != [] ==> t[|t| - 1] == s[|s| - 1];
      SpacedCons(' ', rest);
      " " + rest
    else
      var rest := Collapse(s[1..]);
      SpacedCons(s[0], rest);
      [s[0]] + rest
  }

  /** A character in front of single-spaced text keeps it single-spaced, unless a space meets a space. */
  lemma SpacedCons(c: char, rest: string)
    requires IsSpace(c) ==> c == ' ' && (rest == [] || !IsSpace(rest[0]))
    requires forall i :: 0 <= i < |rest| && IsSpace(rest[i]) ==> rest[i] == ' '
    requires forall i :: 0 <= i < |rest| - 1 ==> !(IsSpace(rest[i]) && IsSpace(rest[i + 1]))
    ensures var r := [c] + rest;
      && (forall i :: 0 <= i < |r| && IsSpace(r[i]) ==> r[i] == ' ')
      && (forall i :: 0 <= i < |r| - 1 ==> !(IsSpace(r[i]) && IsSpace(r[i + 1])))
  {
    var r := [c] + rest;
    forall i | 0 < i < |r|
      ensures r[i] == rest[i - 1]
    {
    }
  }

  predicate IsDigit(c: char) {
    '0' <= c <= '9'
  }

  /** `s.isdigit()` for ASCII digits: non-empty and all digits. */
  predicate IsDigits(s: string) {
    s != [] && forall i :: 0 <= i < |s| ==> IsDigit(s[i])
  }

  function DigitValue(c: char): nat
    requires IsDigit(c)
  {
    c as int - '0' as int
  }

  function DigitChar(d: nat): (c: char)
    requires d < 10
    ensures IsDigit(c) && DigitValue(c) == d
  {
    ('0' as int + d) as char
  }

  /** `int(s)` for a string of ASCII digits. */
  function DigitsValue(s: string): nat
    requires forall i :: 0 <= i < |s| ==> IsDigit(s[i])
  {
    if s == [] then 0 else DigitsValue(s[..|s| - 1]) * 10 + DigitValue(s[|s| - 1])
  }

  /** `str(n)` for a natural number. */
  function NatToString(n: nat): (r: string)
    ensures IsDigits(r)
  {
    if n < 10 then [DigitChar(n)] else NatToString(n / 10) + [DigitChar(n % 10)]
  }

  /** Reading back the decimal text of `n` gives `n`. */
  lemma {:induction false} NatToStringRoundTrip(n: nat)
    ensures DigitsValue(NatToString(n)) == n
  {
    var r := NatToString(n);
    if n >= 10 {
      NatToStringRoundTrip(n / 10);
      assert r[..|r| - 1] == NatToString(n / 10);
    } else {
      assert r[..|r| - 1] == [];
    }
  }

  /** Distinct numbers have distinct decimal texts. */
  lemma NatToStringInjective(a: nat, b: nat)
    requires NatToString(a) == NatToString(b)
    ensures a == b
  {
    NatToStringRoundTrip(a);
    NatToStringRoundTrip(b);
  }

  /** `str(i)` for an integer. */
  function IntToString(i: int): string {
    if i < 0 then "-" + NatToString(-i) else NatToString(i)
  }

  /** Python's `<` on strings: lexicographic by code point, a proper prefix first. */
  predicate StrLt(a: string, b: string)
    decreases |a|
  {
    if a == [] then b != []
    else if b == [] then false
    else if a[0] != b[0] then a[0] < b[0]
    else StrLt(a[1..], b[1..])
  }

  lemma {:induction false} StrLtIrreflexive(a: string)
    ensures !StrLt(a, a)
    decreases |a|
  {
    if a != [] {
      StrLtIrreflexive(a[1..]);
    }
  }

  lemma {:induction false} StrLtTrans(a: string, b: string, c: string)
    requires StrLt(a, b) && StrLt(b, c)
    ensures StrLt(a, c)
    decreases |a|
  {
    if a != [] && a[0] == b[0] && b[0] == c[0] {
      StrLtTrans(a[1..], b[1..], c[1..]);
    }
  }

  lemma {:induction false} StrLtTotal(a: string, b: string)
    requires a != b
    ensures StrLt(a, b) || StrLt(b, a)
    decreases |a|
  {
    if a != [] && b != [] && a[0] == b[0] {
      assert a == [a[0]] + a[1..] && b == [b[0]] + b[1..];
      StrLtTotal(a[1..], b[1..]);
    }
  }

  lemma StrLtAsym(a: string, b: string)
    requires StrLt(a, b)
    ensures !StrLt(b, a)
  {
    if StrLt(b, a) {
      StrLtTrans(a, b, a);
      StrLtIrreflexive(a);
    }
  }
}
