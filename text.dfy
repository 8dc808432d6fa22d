/** String operations of the JavaScript runtime that the post generator relies on:
    `trim`, the `\s` class, ASCII `toLowerCase`, `split` on one character, `join`,
    `includes`/`indexOf`, `replace` of the first occurrence, `replace(/\s+/g, x)` and
    the decimal rendering of a number inside a template literal. */
module Text {

  /** The characters JavaScript's `\s` and `String.prototype.trim` treat as white space. */
  predicate IsWhitespace(c: char) {
    || c == ' ' || c == '\t' || c == '\n' || c == '\r' || c == '\U{B}' || c == '\U{C}'
    || c == '\U{A0}' || c == '\U{1680}' || ('\U{2000}' <= c <= '\U{200A}')
    || c == '\U{2028}' || c == '\U{2029}' || c == '\U{202F}' || c == '\U{205F}'
    || c == '\U{3000}' || c == '\U{FEFF}'
  }

  predicate NoWhitespace(s: string) {
    forall i :: 0 <= i < |s| ==> !IsWhitespace(s[i])
  }

  /** `s.trimStart()`: drop the leading white-space run. */
  function TrimStart(s: string): (r: string)
    ensures |r| <= |s| && r == s[|s| - |r|..]
    ensures forall i :: 0 <= i < |s| - |r| ==> IsWhitespace(s[i])
    ensures r == [] || !IsWhitespace(r[0])
    decreases |s|
  {
    if |s| > 0 && IsWhitespace(s[0]) then TrimStart(s[1..]) else s
  }

  /** `s.trimEnd()`: drop the trailing white-space run. */
  function TrimEnd(s: string): (r: string)
    ensures |r| <= |s| && r == s[..|r|]
    ensures forall i :: |r| <= i < |s| ==> IsWhitespace(s[i])
    ensures r == [] || !IsWhitespace(r[|r| - 1])
    decreases |s|
  {
    if |s| > 0 && IsWhitespace(s[|s| - 1]) then TrimEnd(s[..|s| - 1]) else s
  }

  /** `s.trim()`. */
  function Trim(s: string): string {
    TrimEnd(TrimStart(s))
  }

  /** A trimmed string neither starts nor ends with white space, and it is a
      contiguous piece of the original with only white space cut away. */
  lemma TrimShape(s: string)
    ensures var r := Trim(s);
      && (r == [] || (!IsWhitespace(r[0]) && !IsWhitespace(r[|r| - 1])))
      && var k := |s| - |TrimStart(s)|; k + |r| <= |s| && r == s[k..k + |r|]
  {
    TrimEnds(s);
    TrimSlice(s);
  }

  lemma TrimEnds(s: string)
    ensures var r := Trim(s); r == [] || (!IsWhitespace(r[0]) && !IsWhitespace(r[|r| - 1]))
  {
    var t := TrimStart(s);
    var r := TrimEnd(t);
    if r != [] {
      assert r[0] == t[0];
    }
  }

  lemma TrimSlice(s: string)
    ensures var k := |s| - |TrimStart(s)|; k + |Trim(s)| <= |s| && Trim(s) == s[k..k + |Trim(s)|]
  {
    var t := TrimStart(s);
    var r := TrimEnd(t);
    var k := |s| - |t|;
    assert t == s[k..] && r == t[..|r|];
    SliceOfSuffix(s, k, |r|);
  }

  /** A prefix of a suffix is a slice. */
  lemma SliceOfSuffix(s: string, k: nat, n: nat)
    requires k + n <= |s|
    ensures s[k..][..n] == s[k..k + n]
  {
  }

  /** Trimming is idempotent. */
  lemma {:induction false} TrimIdempotent(s: string)
    ensures Trim(Trim(s)) == Trim(s)
  {
    TrimShape(s);
    var r := Trim(s);
    if r != [] {
      assert TrimStart(r) == r;
      assert TrimEnd(r) == r;
    }
  }

  /** `s.trim()` is empty exactly when `s` is all white space. */
  lemma TrimEmptyIff(s: string)
    ensures Trim(s) == [] <==> forall i :: 0 <= i < |s| ==> IsWhitespace(s[i])
  {
  }

  /** A string without white space is its own trim. */
  lemma TrimOfNoWhitespace(s: string)
    requires NoWhitespace(s)
    ensures Trim(s) == s
  {
    assert TrimStart(s) == s;
    assert TrimEnd(s) == s;
  }

  predicate StartsWith(s: string, p: string) {
    |p| <= |s| && s[..|p|] == p
  }

  predicate EndsWith(s: string, p: string) {
    |p| <= |s| && s[|s| - |p|..] == p
  }

  /** `a + m + b` starts with `a` and ends with `b`. */
  lemma Framed(a: string, m: string, b: string)
    ensures StartsWith(a + m + b, a) && EndsWith(a + m + b, b)
  {
    var s := a + m + b;
    assert s[..|a|] == a;
    assert s[|s| - |b|..] == b;
  }

  /** `s.indexOf(t)`: the first position of `t` in `s`, or -1. */
  predicate OccursAt(s: string, t: string, j: int) {
    0 <= j && j + |t| <= |s| && s[j..j + |t|] == t
  }

  function IndexOf(s: string, t: string): (r: int)
    ensures r == -1 || OccursAt(s, t, r)
    ensures forall j :: 0 <= j && (r < 0 || j < r) ==> !OccursAt(s, t, j)
    decreases |s|
  {
    if |t| > |s| then -1
    else if s[..|t|] == t then 0
    else
      var k := IndexOf(s[1..], t);
      assert forall j :: 1 <= j ==> OccursAt(s, t, j) == OccursAt(s[1..], t, j - 1);
      if k < 0 then -1 else k + 1
  }

  /** `s.includes(t)`. */
  predicate Contains(s: string, t: string) {
    IndexOf(s, t) >= 0
  }

  /** An occurrence at a known position makes `includes` true. */
  lemma ContainsAt(s: string, t: string, i: nat)
    requires i + |t| <= |s| && s[i..i + |t|] == t
    ensures Contains(s, t)
  {
    assert OccursAt(s, t, i);
  }

  /** A string contains whatever it is built around: `a + t + b` includes `t`. */
  lemma ContainsMiddle(a: string, t: string, b: string)
    ensures Contains(a + t + b, t)
  {
    var s := a + t + b;
    assert s[|a|..|a| + |t|] == t;
    ContainsAt(s, t, |a|);
  }

  /** `s.replace(t, '')` for a string pattern: only the first occurrence is removed. */
  function RemoveFirst(s: string, t: string): (r: string)
    ensures !Contains(s, t) ==> r == s
    ensures Contains(s, t) ==>
      (|r| == |s| - |t| && r == s[..IndexOf(s, t)] + s[IndexOf(s, t) + |t|..])
  {
    var k := IndexOf(s, t);
    if k < 0 then s else s[..k] + s[k + |t|..]
  }

  function CountChar(s: string, c: char): nat {
    if s == [] then 0 else (if s[0] == c then 1 else 0) + CountChar(s[1..], c)
  }

  /** `s.split(c)` for a one-character separator. */
  function Split(s: string, c: char): (r: seq<string>)
    ensures |r| >= 1
    decreases |s|
  {
    if s == [] then [[]]
    else
      var rest := Split(s[1..], c);
      if s[0] == c then [[]] + rest else [[s[0]] + rest[0]] + rest[1..]
  }

  /** `xs.join(sep)`. */
  function Join(xs: seq<string>, sep: string): string
    decreases |xs|
  {
    if |xs| == 0 then []
    else if |xs| == 1 then xs[0]
    else xs[0] + sep + Join(xs[1..], sep)
  }

  /** `join` step by step: an empty list joins to the empty string, one element to itself,
      and a longer list to its head, the separator and the join of the rest. */
  lemma JoinStep(x: string, xs: seq<string>, sep: string)
    ensures Join([], sep) == [] && Join([x], sep) == x
    ensures |xs| >= 1 ==> Join([x] + xs, sep) == x + sep + Join(xs, sep)
  {
    assert ([x] + xs)[1..] == xs;
  }

  /** Whatever `b` includes, `a + b + c` includes. */
  lemma ContainsWithin(a: string, b: string, c: string, t: string)
    requires Contains(b, t)
    ensures Contains(a + b + c, t)
  {
    var k := IndexOf(b, t);
    var s := a + b + c;
    assert s[|a| + k..|a| + k + |t|] == b[k..k + |t|];
    ContainsAt(s, t, |a| + k);
  }

  /** A join includes every element joined, whatever the elements hold. */
  lemma {:induction false} JoinContainsEach(xs: seq<string>, sep: string, i: nat)
    requires i < |xs|
    ensures Contains(Join(xs, sep), xs[i])
    decreases i
  {
    if |xs| == 1 {
      ContainsMiddle([], xs[0], []);
      assert [] + xs[0] + [] == xs[0];
    } else if i == 0 {
      var rest := sep + Join(xs[1..], sep);
      ContainsMiddle([], xs[0], rest);
      assert Join(xs, sep) == [] + xs[0] + rest;
    } else {
      var j := Join(xs[1..], sep);
      JoinContainsEach(xs[1..], sep, i - 1);
      ContainsWithin(xs[0] + sep, j, [], xs[i]);
      assert Join(xs, sep) == (xs[0] + sep) + j + [];
    }
  }

  /** `s.split(c).length` is one more than the number of separators. */
  lemma {:induction false} SplitLength(s: string, c: char)
    ensures |Split(s, c)| == CountChar(s, c) + 1
    decreases |s|
  {
    if s != [] {
      SplitLength(s[1..], c);
    }
  }

  /** No piece of a split contains the separator. */
  lemma {:induction false} SplitPiecesFree(s: string, c: char)
    ensures forall k :: 0 <= k < |Split(s, c)| ==> c !in Split(s, c)[k]
    decreases |s|
  {
    if s != [] {
      SplitPiecesFree(s[1..], c);
    }
  }

  /** Joining the pieces of a split with the separator gives the string back. */
  lemma {:induction false} JoinSplit(s: string, c: char)
    ensures Join(Split(s, c), [c]) == s
    decreases |s|
  {
    if s != [] {
      var rest := Split(s[1..], c);
      JoinSplit(s[1..], c);
      if s[0] == c {
        assert Split(s, c) == [[]] + rest;
        assert ([[]] + rest)[1..] == rest;
      } else {
        var r := [[s[0]] + rest[0]] + rest[1..];
        assert Split(s, c) == r;
        if |rest| == 1 {
        } else {
          assert r[1..] == rest[1..];
          assert Join(rest, [c]) == rest[0] + [c] + Join(rest[1..], [c]);
        }
      }
    }
  }

  /** Splitting a join of separator-free pieces gives the pieces back. */
  lemma {:induction false} SplitJoin(xs: seq<string>, c: char)
    requires |xs| >= 1
    requires forall k :: 0 <= k < |xs| ==> c !in xs[k]
    ensures Split(Join(xs, [c]), c) == xs
    decreases |xs|, |xs[0]|
  {
    if |xs| == 1 {
      SplitOfFree(xs[0], c);
    } else if xs[0] == [] {
      var j := Join(xs[1..], [c]);
      assert Join(xs, [c]) == [c] + j;
      SplitJoin(xs[1..], c);
      assert ([c] + j)[1..] == j;
      assert xs == [[]] + xs[1..];
    } else {
      var ys := [xs[0][1..]] + xs[1..];
      assert ys[1..] == xs[1..];
      var j := Join(xs, [c]);
      var jy := Join(ys, [c]);
      assert j == [xs[0][0]] + jy;
      assert j[1..] == jy;
      SplitJoin(ys, c);
      assert [xs[0][0]] + xs[0][1..] == xs[0];
      assert xs == [[xs[0][0]] + ys[0]] + ys[1..];
    }
  }

  lemma {:induction false} SplitOfFree(s: string, c: char)
    requires c !in s
    ensures Split(s, c) == [s]
    decreases |s|
  {
    if s != [] {
      SplitOfFree(s[1..], c);
      assert [s[0]] + s[1..] == s;
    }
  }

  /** The first piece of a split is everything before the first separator. */
  lemma {:induction false} SplitFirstPiece(a: string, c: char, b: string)
    requires c !in a
    ensures Split(a + [c] + b, c)[0] == a
    decreases |a|
  {
    var s := a + [c] + b;
    if a == [] {
      assert s[0] == c;
    } else {
      assert s[1..] == a[1..] + [c] + b;
      SplitFirstPiece(a[1..], c, b);
      assert [a[0]] + a[1..] == a;
    }
  }

  /** ASCII `toLowerCase`: only `A`..`Z` change. */
  function LowerChar(c: char): char {
    if 'A' <= c <= 'Z' then (c as int - 'A' as int + 'a' as int) as char else c
  }

  function Lower(s: string): (r: string)
    ensures |r| == |s|
    ensures forall i :: 0 <= i < |s| ==> r[i] == LowerChar(s[i])
  {
    seq(|s|, i requires 0 <= i < |s| => LowerChar(s[i]))
  }

  /** Lower-casing leaves no ASCII capitals and is idempotent. */
  lemma LowerIdempotent(s: string)
    ensures Lower(Lower(s)) == Lower(s)
    ensures forall i :: 0 <= i < |s| ==> !('A' <= Lower(s)[i] <= 'Z')
  {
  }

  /** `s.replace(/\s+/g, '')`. */
  function RemoveWhitespace(s: string): (r: string)
    ensures NoWhitespace(r)
    ensures |r| <= |s|
  {
    if s == [] then []
    else if IsWhitespace(s[0]) then RemoveWhitespace(s[1..])
    else [s[0]] + RemoveWhitespace(s[1..])
  }

  /** Removing white space works piece by piece: it distributes over concatenation. */
  lemma {:induction false} RemoveWhitespaceAppend(a: string, b: string)
    ensures RemoveWhitespace(a + b) == RemoveWhitespace(a) + RemoveWhitespace(b)
    decreases |a|
  {
    if a == [] {
      assert a + b == b;
    } else {
      assert (a + b)[0] == a[0] && (a + b)[1..] == a[1..] + b;
      RemoveWhitespaceAppend(a[1..], b);
    }
  }

  /** A run of white space, of any of the `\s` characters, is removed entirely. */
  lemma {:induction false} RemoveWhitespaceOfRun(w: string)
    requires forall i :: 0 <= i < |w| ==> IsWhitespace(w[i])
    ensures RemoveWhitespace(w) == ""
    decreases |w|
  {
    if w != [] {
      assert IsWhitespace(w[0]);
      RemoveWhitespaceOfRun(w[1..]);
    }
  }

  /** A string without white space is unchanged by `replace(/\s+/g, '')`. */
  lemma {:induction false} RemoveWhitespaceIdentity(s: string)
    requires NoWhitespace(s)
    ensures RemoveWhitespace(s) == s
    decreases |s|
  {
    if s != [] {
      RemoveWhitespaceIdentity(s[1..]);
      assert [s[0]] + s[1..] == s;
    }
  }

  /** `s.replace(/\s+/g, rep)`: each maximal white-space run becomes one `rep`. */
  function ReplaceWhitespaceRuns(s: string, rep: string): string
    decreases |s|
  {
    if s == [] then []
    else if IsWhitespace(s[0]) then rep + ReplaceWhitespaceRuns(TrimStart(s), rep)
    else [s[0]] + ReplaceWhitespaceRuns(s[1..], rep)
  }

  /** `trimStart` drops exactly a leading white-space run that ends before a non-white-space
      character or the end. */
  lemma {:induction false} TrimStartOfRun(w: string, b: string)
    requires forall k :: 0 <= k < |w| ==> IsWhitespace(w[k])
    requires b == [] || !IsWhitespace(b[0])
    ensures TrimStart(w + b) == b
    decreases |w|
  {
    if w == [] {
      assert w + b == b;
    } else {
      assert (w + b)[0] == w[0] && (w + b)[1..] == w[1..] + b;
      TrimStartOfRun(w[1..], b);
    }
  }

  /** A leading white-space run before a white-space-free string becomes one `rep`. */
  lemma ReplaceLeadingRun(w: string, b: string, rep: string)
    requires NoWhitespace(b)
    requires |w| >= 1 && forall k :: 0 <= k < |w| ==> IsWhitespace(w[k])
    ensures ReplaceWhitespaceRuns(w + b, rep) == rep + b
  {
    var s := w + b;
    assert s[0] == w[0];
    TrimStartOfRun(w, b);
    ReplaceWhitespaceRunsIdentity(b, rep);
    assert ReplaceWhitespaceRuns(s, rep) == rep + ReplaceWhitespaceRuns(TrimStart(s), rep);
  }

  /** A character that is not white space is copied over. */
  lemma ReplaceStep(c: char, t: string, rep: string)
    requires !IsWhitespace(c)
    ensures ReplaceWhitespaceRuns([c] + t, rep) == [c] + ReplaceWhitespaceRuns(t, rep)
  {
    assert ([c] + t)[0] == c && ([c] + t)[1..] == t;
  }

  /** A white-space-free prefix is copied over unchanged. */
  lemma {:induction false} ReplaceAfterPlainPrefix(a: string, t: string, rep: string)
    requires NoWhitespace(a)
    ensures ReplaceWhitespaceRuns(a + t, rep) == a + ReplaceWhitespaceRuns(t, rep)
    decreases |a|
  {
    if a == [] {
      assert a + t == t;
    } else {
      var tail := a[1..];
      var u := tail + t;
      var y := ReplaceWhitespaceRuns(t, rep);
      assert NoWhitespace(tail);
      ReplaceAfterPlainPrefix(tail, t, rep);
      assert ReplaceWhitespaceRuns(u, rep) == tail + y;
      ReplaceStep(a[0], u, rep);
      assert a == [a[0]] + tail;
      SeqAssoc([a[0]], tail, t);
      SeqAssoc([a[0]], tail, y);
    }
  }

  /** One white-space run between two white-space-free strings becomes one `rep`. */
  lemma ReplaceWhitespaceRunsOfRun(a: string, w: string, b: string, rep: string)
    requires NoWhitespace(a) && NoWhitespace(b)
    requires |w| >= 1 && forall k :: 0 <= k < |w| ==> IsWhitespace(w[k])
    ensures ReplaceWhitespaceRuns(a + w + b, rep) == a + rep + b
  {
    var s := w + b;
    var x := ReplaceWhitespaceRuns(s, rep);
    ReplaceLeadingRun(w, b, rep);
    assert x == rep + b;
    ReplaceAfterPlainPrefix(a, s, rep);
    assert ReplaceWhitespaceRuns(a + s, rep) == a + x;
    SeqAssoc(a, w, b);
    SeqAssoc(a, rep, b);
  }

  /** Concatenation is associative. */
  lemma SeqAssoc(a: string, b: string, c: string)
    ensures a + b + c == a + (b + c)
  {
  }

  /** With a white-space-free replacement no white space survives. */
  lemma {:induction false} ReplaceWhitespaceRunsFree(s: string, rep: string)
    requires NoWhitespace(rep)
    ensures NoWhitespace(ReplaceWhitespaceRuns(s, rep))
    decreases |s|
  {
    if s != [] {
      if IsWhitespace(s[0]) {
        ReplaceWhitespaceRunsFree(TrimStart(s), rep);
      } else {
        ReplaceWhitespaceRunsFree(s[1..], rep);
      }
    }
  }

  /** A string with no white space is left as it is. */
  lemma {:induction false} ReplaceWhitespaceRunsIdentity(s: string, rep: string)
    requires NoWhitespace(s)
    ensures ReplaceWhitespaceRuns(s, rep) == s
    decreases |s|
  {
    if s != [] {
      ReplaceWhitespaceRunsIdentity(s[1..], rep);
    }
  }

  predicate IsDigit(c: char) { '0' <= c <= '9' }

  function DigitChar(d: nat): char
    requires d < 10
  {
    ('0' as int + d) as char
  }

  /** The decimal rendering of a non-negative integer. */
  function NatToString(n: nat): (r: string)
    ensures |r| >= 1
    ensures forall i :: 0 <= i < |r| ==> IsDigit(r[i])
  {
    if n < 10 then [DigitChar(n)] else NatToString(n / 10) + [DigitChar(n % 10)]
  }

  /** Reading a string of digits as a decimal number. */
  function DigitsValue(s: string): nat
    requires forall i :: 0 <= i < |s| ==> IsDigit(s[i])
  {
    if s == [] then 0
    else
      assert IsDigit(s[|s| - 1]);
      10 * DigitsValue(s[..|s| - 1]) + (s[|s| - 1] as int - '0' as int)
  }

  /** The decimal rendering reads back as the same number. */
  lemma {:induction false} NatToStringRoundTrip(n: nat)
    ensures DigitsValue(NatToString(n)) == n
  {
    if n >= 10 {
      var s := NatToString(n);
      assert s[..|s| - 1] == NatToString(n / 10);
      NatToStringRoundTrip(n / 10);
    }
  }
}
