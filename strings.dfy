/**
 * The JavaScript string operations the application relies on, stated over
 * `seq<char>`: the `\s` character class (also what `trim` removes),
 * `split(/\s+/)`, `trim`, `toLowerCase` (ASCII letters), `indexOf`,
 * `startsWith` and `substring(0, n)`.
 */
module Strings {
  import opened Wrappers

  /** The characters matched by JavaScript's `\s` and removed by `String.prototype.trim`. */
  predicate IsSpace(c: char) {
    || c == ' ' || c == '\t' || c == '\n' || c == '\r' || c == '\U{000B}' || c == '\U{000C}'
    || c == '\U{00A0}' || c == '\U{1680}' || ('\U{2000}' <= c <= '\U{200A}')
    || c == '\U{2028}' || c == '\U{2029}' || c == '\U{202F}' || c == '\U{205F}'
    || c == '\U{3000}' || c == '\U{FEFF}'
  }

  /** The characters JavaScript's `.` refuses to match (line terminators). */
  predicate IsLineTerminator(c: char) {
    c == '\n' || c == '\r' || c == '\U{2028}' || c == '\U{2029}'
  }

  predicate NoSpace(s: string) {
    forall i :: 0 <= i < |s| ==> !IsSpace(s[i])
  }

  predicate AllSpace(s: string) {
    forall i :: 0 <= i < |s| ==> IsSpace(s[i])
  }

  /** The first `k` characters of `s` hold no white space. */
  predicate NoSpaceUpTo(s: string, k: nat)
    requires k <= |s|
  {
    NoSpace(s[..k])
  }

  /** The first `k` characters of `s` are all white space. */
  predicate AllSpaceUpTo(s: string, k: nat)
    requires k <= |s|
  {
    AllSpace(s[..k])
  }

  predicate StartsWith(s: string, prefix: string) {
    |prefix| <= |s| && s[..|prefix|] == prefix
  }

  /** `pat` occurs in `s` at position `i`. */
  predicate OccursAt(s: string, pat: string, i: int) {
    0 <= i && i + |pat| <= |s| && s[i..i + |pat|] == pat
  }

  predicate Contains(s: string, pat: string) {
    exists i :: 0 <= i <= |s| && OccursAt(s, pat, i)
  }

  // ---------------------------------------------------------------------------
  // Runs of white space and of other characters
  // ---------------------------------------------------------------------------

  /** Length of the longest prefix of `s` that holds no white space. */
  function WordLength(s: string): (k: nat)
    ensures k <= |s| && NoSpaceUpTo(s, k)
    ensures k < |s| ==> IsSpace(s[k])
  {
    if s == [] || IsSpace(s[0]) then 0 else 1 + WordLength(s[1..])
  }

  /** Length of the longest prefix of `s` that is all white space. */
  function SpaceRunLength(s: string): (k: nat)
    ensures k <= |s| && AllSpaceUpTo(s, k)
    ensures k < |s| ==> !IsSpace(s[k])
  {
    if s == [] || !IsSpace(s[0]) then 0 else 1 + SpaceRunLength(s[1..])
  }

  // ---------------------------------------------------------------------------
  // split(/\s+/)
  // ---------------------------------------------------------------------------

  /**
   * `s.split(/\s+/)`: the pieces of `s` between maximal runs of white space,
   * in order. Nothing is filtered, so a leading (trailing) run yields an empty
   * first (last) piece and the empty string yields one empty piece.
   */
  function Split(s: string): (words: seq<string>)
    ensures |words| >= 1
    ensures forall i :: 0 <= i < |words| ==> NoSpace(words[i])
    decreases |s|
  {
    var k := WordLength(s);
    if k == |s| then [s]
    else
      var rest := s[k..];
      [s[..k]] + Split(rest[SpaceRunLength(rest)..])
  }

  /** Number of maximal runs of white space in `s`, counted left to right. */
  function CountSpaceRuns(s: string): nat
    decreases |s|
  {
    if s == [] then 0
    else if IsSpace(s[0]) then 1 + CountSpaceRuns(s[SpaceRunLength(s)..])
    else CountSpaceRuns(s[1..])
  }

  /** `s` with every white-space character removed. */
  function RemoveSpaces(s: string): string {
    if s == [] then [] else (if IsSpace(s[0]) then [] else [s[0]]) + RemoveSpaces(s[1..])
  }

  function Concat(words: seq<string>): string {
    if words == [] then [] else words[0] + Concat(words[1..])
  }

  lemma {:induction false} CountSpaceRunsSkipsWord(s: string, k: nat)
    requires k <= |s| && NoSpace(s[..k])
    ensures CountSpaceRuns(s) == CountSpaceRuns(s[k..])
    decreases k
  {
    if k > 0 {
      assert !IsSpace(s[..k][0]);
      assert s[1..][..k - 1] == s[1..k];
      CountSpaceRunsSkipsWord(s[1..], k - 1);
      assert s[1..][k - 1..] == s[k..];
    }
  }

  /** One piece more than there are white-space runs. */
  lemma {:induction false} SplitCount(s: string)
    ensures |Split(s)| == CountSpaceRuns(s) + 1
    decreases |s|
  {
    var k := WordLength(s);
    CountSpaceRunsSkipsWord(s, k);
    if k < |s| {
      var rest := s[k..];
      SplitCount(rest[SpaceRunLength(rest)..]);
    }
  }

  lemma {:induction false} RemoveSpacesOfWord(s: string)
    requires NoSpace(s)
    ensures RemoveSpaces(s) == s
    decreases |s|
  {
    if s != [] {
      RemoveSpacesOfWord(s[1..]);
    }
  }

  lemma {:induction false} RemoveSpacesOfSpaces(s: string)
    requires AllSpace(s)
    ensures RemoveSpaces(s) == []
    decreases |s|
  {
    if s != [] {
      RemoveSpacesOfSpaces(s[1..]);
    }
  }

  lemma {:induction false} RemoveSpacesAppend(a: string, b: string)
    ensures RemoveSpaces(a + b) == RemoveSpaces(a) + RemoveSpaces(b)
    decreases |a|
  {
    if a != [] {
      var head := if IsSpace(a[0]) then [] else [a[0]];
      assert (a + b)[0] == a[0];
      assert (a + b)[1..] == a[1..] + b;
      assert RemoveSpaces(a + b) == head + RemoveSpaces(a[1..] + b);
      RemoveSpacesAppend(a[1..], b);
      assert RemoveSpaces(a) == head + RemoveSpaces(a[1..]);
    } else {
      assert a + b == b;
    }
  }

  /** How `Split` unfolds once the first word of `s` is followed by white space. */
  lemma SplitUnfold(s: string) returns (k: nat, tail: string)
    requires WordLength(s) < |s|
    ensures k == WordLength(s) && k < |s| && |tail| < |s| && |s| - |tail| > k
    ensures s == s[..k] + s[k..|s| - |tail|] + tail && AllSpace(s[k..|s| - |tail|])
    ensures tail != [] ==> !IsSpace(tail[0])
    ensures Split(s) == [s[..k]] + Split(tail)
  {
    k := WordLength(s);
    var rest := s[k..];
    var j := SpaceRunLength(rest);
    tail := rest[j..];
    assert s[k..|s| - |tail|] == rest[..j];
  }

  lemma ConcatCons(w: string, words: seq<string>)
    ensures Concat([w] + words) == w + Concat(words)
  {
    assert ([w] + words)[1..] == words;
  }

  /** Joining the pieces gives back every non-space character of `s`, in order. */
  lemma {:induction false} SplitConcat(s: string)
    ensures Concat(Split(s)) == RemoveSpaces(s)
    decreases |s|
  {
    if WordLength(s) == |s| {
      assert s[..|s|] == s;
      RemoveSpacesOfWord(s);
      assert Split(s) == [s];
      ConcatCons(s, []);
      assert [s] + [] == [s];
    } else {
      var k, tail := SplitUnfold(s);
      var word, gap := s[..k], s[k..|s| - |tail|];
      SplitConcat(tail);
      ConcatCons(word, Split(tail));
      RemoveSpacesAppend(word + gap, tail);
      RemoveSpacesAppend(word, gap);
      RemoveSpacesOfWord(word);
      RemoveSpacesOfSpaces(gap);
      var ct := Concat(Split(tail));
      var rt := RemoveSpaces(tail);
      assert ct == rt;
      assert Concat(Split(s)) == word + ct;
      assert RemoveSpaces(word + gap) == word;
      assert RemoveSpaces(word + gap + tail) == word + rt;
      assert s == word + gap + tail;
    }
  }

  /**
   * Only the first and the last piece can be empty: the first one exactly when
   * `s` is empty or starts with white space, the last one (when there are two
   * or more) exactly when `s` ends with white space.
   */
  lemma SplitEmptyPieces(s: string)
    ensures Split(s)[0] == [] <==> (s == [] || IsSpace(s[0]))
    ensures forall i :: 0 < i < |Split(s)| - 1 ==> Split(s)[i] != []
    ensures |Split(s)| > 1 ==> (Split(s)[|Split(s)| - 1] == [] <==> IsSpace(s[|s| - 1]))
  {
    SplitFirstPiece(s);
    SplitInnerPieces(s);
    SplitLastPiece(s);
  }

  /** The first piece is the first word. */
  lemma SplitFirstPiece(s: string)
    ensures Split(s)[0] == s[..WordLength(s)]
    ensures Split(s)[0] == [] <==> (s == [] || IsSpace(s[0]))
  {
    if WordLength(s) == |s| {
      assert s[..|s|] == s;
    }
  }

  lemma {:induction false} SplitInnerPieces(s: string)
    ensures forall i :: 0 < i < |Split(s)| - 1 ==> Split(s)[i] != []
    decreases |s|
  {
    if WordLength(s) < |s| {
      var k, tail := SplitUnfold(s);
      SplitInnerPieces(tail);
      SplitAfterSpace(tail);
      var words, rest := Split(s), Split(tail);
      assert forall i :: 0 < i < |words| ==> words[i] == rest[i - 1];
    }
  }

  /** What follows a run of white space splits into a non-empty first piece, unless it is the only one. */
  lemma SplitAfterSpace(tail: string)
    requires tail != [] ==> !IsSpace(tail[0])
    ensures |Split(tail)| > 1 ==> Split(tail)[0] != []
  {
    SplitFirstPiece(tail);
    assert Split([]) == [[]];
  }

  lemma {:induction false} SplitLastPiece(s: string)
    ensures |Split(s)| > 1 ==> (Split(s)[|Split(s)| - 1] == [] <==> IsSpace(s[|s| - 1]))
    decreases |s|
  {
    if WordLength(s) < |s| {
      var k, tail := SplitUnfold(s);
      SplitLastPiece(tail);
      var words, rest := Split(s), Split(tail);
      assert words[|words| - 1] == rest[|rest| - 1];
      if tail == [] {
        assert s[|s| - 1] == s[k..|s| - |tail|][|s| - 1 - k];
      } else {
        assert s[|s| - 1] == tail[|tail| - 1];
        if |rest| == 1 {
          assert WordLength(tail) == |tail|;
          assert tail[..|tail|] == tail;
        }
      }
    }
  }

  // ---------------------------------------------------------------------------
  // trim
  // ---------------------------------------------------------------------------

  /** Length of `s` once its trailing white space is dropped. */
  function TrimEndLength(s: string): (k: nat)
    ensures k <= |s| && AllSpace(s[k..])
    ensures k > 0 ==> !IsSpace(s[k - 1])
  {
    if s == [] || !IsSpace(s[|s| - 1]) then |s|
    else
      var k := TrimEndLength(s[..|s| - 1]);
      assert s[k..] == s[..|s| - 1][k..] + [s[|s| - 1]];
      k
  }

  /** `s.trim()`: `s` without leading and trailing white space. */
  function Trim(s: string): (r: string)
    ensures r == [] || (!IsSpace(r[0]) && !IsSpace(r[|r| - 1]))
  {
    var t := s[SpaceRunLength(s)..];
    t[..TrimEndLength(t)]
  }

  /** The trimmed string is the middle of `s`; what was cut off is white space. */
  lemma TrimIsMiddle(s: string) returns (i: nat, j: nat)
    ensures i <= j <= |s| && Trim(s) == s[i..j]
    ensures AllSpace(s[..i]) && AllSpace(s[j..])
  {
    i := SpaceRunLength(s);
    var t := s[i..];
    j := i + TrimEndLength(t);
    assert s[j..] == t[TrimEndLength(t)..];
  }

  lemma {:induction false} SpaceRunLengthAppend(w: string, s: string)
    requires AllSpace(w)
    ensures SpaceRunLength(w + s) == |w| + SpaceRunLength(s)
    decreases |w|
  {
    if w != [] {
      assert (w + s)[0] == w[0];
      assert IsSpace(w[0]);
      assert (w + s)[1..] == w[1..] + s;
      assert SpaceRunLength(w + s) == 1 + SpaceRunLength(w[1..] + s);
      SpaceRunLengthAppend(w[1..], s);
    } else {
      assert w + s == s;
    }
  }

  /** Leading white space makes no difference to `trim`. */
  lemma TrimSkipsLeadingSpace(w: string, s: string)
    requires AllSpace(w)
    ensures Trim(w + s) == Trim(s)
  {
    SpaceRunLengthAppend(w, s);
    assert (w + s)[|w| + SpaceRunLength(s)..] == s[SpaceRunLength(s)..];
  }

  /** A string without white space at either end is its own trim. */
  lemma TrimOfTrimmed(s: string)
    requires s == [] || (!IsSpace(s[0]) && !IsSpace(s[|s| - 1]))
    ensures Trim(s) == s
  {
    assert s[..|s|] == s;
  }

  /** `trim` is idempotent. */
  lemma TrimIdempotent(s: string)
    ensures Trim(Trim(s)) == Trim(s)
  {
    TrimOfTrimmed(Trim(s));
  }

  // ---------------------------------------------------------------------------
  // toLowerCase, indexOf, substring, character removal
  // ---------------------------------------------------------------------------

  function LowerChar(c: char): char {
    if 'A' <= c <= 'Z' then (c as int - 'A' as int + 'a' as int) as char else c
  }

  /** `s.toLowerCase()` over ASCII letters. */
  function ToLower(s: string): (r: string)
    ensures |r| == |s| && forall i :: 0 <= i < |s| ==> r[i] == LowerChar(s[i])
  {
    if s == [] then [] else [LowerChar(s[0])] + ToLower(s[1..])
  }

  /** `s.indexOf(pat, from)`, with `None` for JavaScript's -1. */
  function IndexOfFrom(s: string, pat: string, from: nat): (r: Option<nat>)
    ensures r.Some? ==> from <= r.value && OccursAt(s, pat, r.value)
    ensures forall i :: from <= i && (r.Some? ==> i < r.value) ==> !OccursAt(s, pat, i)
    decreases |s| - from
  {
    if from + |pat| > |s| then None
    else if s[from..from + |pat|] == pat then Some(from)
    else IndexOfFrom(s, pat, from + 1)
  }

  /** `s.indexOf(pat)`: the first occurrence of `pat` in `s`, if any. */
  function IndexOf(s: string, pat: string): (r: Option<nat>)
    ensures r.None? <==> !Contains(s, pat)
    ensures r.Some? ==> OccursAt(s, pat, r.value) && forall i :: 0 <= i < r.value ==> !OccursAt(s, pat, i)
  {
    IndexOfFrom(s, pat, 0)
  }

  /** An occurrence with none before it is what `indexOf` finds. */
  lemma IndexOfFirst(s: string, pat: string, i: nat)
    requires OccursAt(s, pat, i) && forall j :: 0 <= j < i ==> !OccursAt(s, pat, j)
    ensures IndexOf(s, pat) == Some(i)
  {
    assert i <= |s|;
  }

  /** `s.substring(0, n)`: at most the first `n` characters. */
  function Prefix(s: string, n: nat): (r: string)
    ensures |r| == (if |s| < n then |s| else n) && StartsWith(s, r)
  {
    if |s| <= n then s else s[..n]
  }

  /** `s` with every character of `drop` removed, the others kept in order. */
  function RemoveChars(s: string, drop: set<char>): (r: string)
    ensures forall i :: 0 <= i < |r| ==> r[i] !in drop
    ensures forall c :: c in r <==> c in s && c !in drop
    ensures |r| <= |s|
  {
    if s == [] then []
    else (if s[0] in drop then [] else [s[0]]) + RemoveChars(s[1..], drop)
  }

  /** Removal keeps every other character, so removing twice removes nothing more. */
  lemma {:induction false} RemoveCharsKeepsClean(s: string, drop: set<char>)
    requires forall i :: 0 <= i < |s| ==> s[i] !in drop
    ensures RemoveChars(s, drop) == s
    decreases |s|
  {
    if s != [] {
      RemoveCharsKeepsClean(s[1..], drop);
    }
  }

  /** A stretch inside a known part of `s` is the matching stretch of that part. */
  lemma SliceWithin(s: string, g: nat, t: string, i: nat, j: nat)
    requires g + |t| <= |s| && s[g..g + |t|] == t && i <= j <= |t|
    ensures s[g + i..g + j] == t[i..j]
  {
    forall k | 0 <= k < j - i ensures s[g + i..g + j][k] == t[i..j][k] {
      assert s[g..g + |t|][i + k] == s[g + i + k];
    }
  }

  /** The middle part of a concatenation of three. */
  lemma MiddleOf(a: string, b: string, c: string)
    ensures (a + b + c)[|a|..|a| + |b|] == b
  {
    forall k | 0 <= k < |b| ensures (a + b + c)[|a|..|a| + |b|][k] == b[k] {
      assert (a + b + c)[|a| + k] == b[k];
    }
  }

  /** A white-space stretch up to a non-space character is what `\s*` takes. */
  lemma SpaceRunTo(s: string, q: nat, g: nat)
    requires q <= g < |s| && AllSpace(s[q..g]) && !IsSpace(s[g])
    ensures SpaceRunLength(s[q..]) == g - q
  {
    assert s[q..] == s[q..g] + s[g..];
    assert s[g..][0] == s[g];
    SpaceRunLengthAppend(s[q..g], s[g..]);
  }

  /** Removal works character by character: it distributes over concatenation. */
  lemma {:induction false} RemoveCharsAppend(a: string, b: string, drop: set<char>)
    ensures RemoveChars(a + b, drop) == RemoveChars(a, drop) + RemoveChars(b, drop)
    decreases |a|
  {
    if a == [] {
      assert a + b == b;
    } else {
      assert (a + b)[0] == a[0] && (a + b)[1..] == a[1..] + b;
      RemoveCharsAppend(a[1..], b, drop);
    }
  }

  /** Every `c` in `s` replaced by `d`. */
  function ReplaceAll(s: string, c: char, d: char): (r: string)
    ensures |r| == |s|
  {
    if s == [] then [] else [if s[0] == c then d else s[0]] + ReplaceAll(s[1..], c, d)
  }

  lemma {:induction false} ReplaceAllAbsent(s: string, c: char, d: char)
    requires c !in s
    ensures ReplaceAll(s, c, d) == s
    decreases |s|
  {
    if s != [] {
      assert c !in s[1..];
      ReplaceAllAbsent(s[1..], c, d);
    }
  }

  lemma {:induction false} ReplaceAllAt(a: string, c: char, b: string, d: char)
    requires c !in a && c !in b
    ensures ReplaceAll(a + [c] + b, c, d) == a + [d] + b
  {
    var cb := [c] + b;
    calc {
      ReplaceAll(a + [c] + b, c, d);
      { assert a + [c] + b == a + cb; }
      ReplaceAll(a + cb, c, d);
      { ReplaceAllAppend(a, cb, c, d); }
      ReplaceAll(a, c, d) + ReplaceAll(cb, c, d);
      { ReplaceAllAbsent(a, c, d); }
      a + ReplaceAll(cb, c, d);
      { ReplaceAllAppend([c], b, c, d); ReplaceAllSingle(c, d); ReplaceAllAbsent(b, c, d); }
      a + ([d] + b);
      { assert a + [d] + b == a + ([d] + b); }
      a + [d] + b;
    }
  }

  lemma ReplaceAllSingle(c: char, d: char)
    ensures ReplaceAll([c], c, d) == [d]
  {
    assert [c][1..] == [];
  }

  /** Replacing works piece by piece. */
  lemma {:induction false} ReplaceAllAppend(x: string, y: string, c: char, d: char)
    ensures ReplaceAll(x + y, c, d) == ReplaceAll(x, c, d) + ReplaceAll(y, c, d)
    decreases |x|
  {
    if x == [] {
      assert x + y == y;
    } else {
      assert (x + y)[0] == x[0] && (x + y)[1..] == x[1..] + y;
      ReplaceAllAppend(x[1..], y, c, d);
    }
  }

  /** Without a `c`, `replace` changes nothing. */
  lemma {:induction false} ReplaceFirstAbsent(s: string, c: char, d: char)
    requires c !in s
    ensures ReplaceFirst(s, c, d) == s
    decreases |s|
  {
    if s != [] {
      assert c !in s[1..];
      ReplaceFirstAbsent(s[1..], c, d);
    }
  }

  /** Only the first `c` is replaced, whatever follows it. */
  lemma {:induction false} ReplaceFirstAt(a: string, c: char, b: string, d: char)
    requires c !in a
    ensures ReplaceFirst(a + [c] + b, c, d) == a + [d] + b
    decreases |a|
  {
    if a == [] {
      assert a + [c] + b == [c] + b;
      assert (a + [c] + b)[1..] == b;
    } else {
      assert (a + [c] + b)[0] == a[0];
      assert (a + [c] + b)[1..] == a[1..] + [c] + b;
      assert c !in a[1..];
      ReplaceFirstAt(a[1..], c, b, d);
      assert a + [d] + b == [a[0]] + (a[1..] + [d] + b);
    }
  }

  /** `s.replace(c, d)` for a one-character pattern: only the first `c` becomes `d`. */
  function ReplaceFirst(s: string, c: char, d: char): (r: string)
    ensures |r| == |s|
  {
    if s == [] then []
    else if s[0] == c then [d] + s[1..]
    else [s[0]] + ReplaceFirst(s[1..], c, d)
  }

  // ---------------------------------------------------------------------------
  // Numbers as text
  // ---------------------------------------------------------------------------

  predicate IsDigit(c: char) {
    '0' <= c <= '9'
  }

  /** The number a string of decimal digits denotes, most significant first. */
  function DigitsValue(s: string): nat
    requires forall i :: 0 <= i < |s| ==> IsDigit(s[i])
  {
    if s == [] then 0
    else
      assert IsDigit(s[|s| - 1]);
      10 * DigitsValue(s[..|s| - 1]) + (s[|s| - 1] as int - '0' as int)
  }

  /** `${n}` (or `n.toString()`) for a natural number. */
  function Decimal(n: nat): (s: string)
    ensures |s| >= 1
    ensures forall i :: 0 <= i < |s| ==> IsDigit(s[i])
    ensures |s| > 1 ==> s[0] != '0'
  {
    var last := ['0' + (n % 10) as char];
    if n < 10 then last else Decimal(n / 10) + last
  }

  /** The digits read back as the number they were written from. */
  lemma {:induction false} DecimalValue(n: nat)
    ensures DigitsValue(Decimal(n)) == n
    decreases n
  {
    if n >= 10 {
      var s := Decimal(n);
      assert s[..|s| - 1] == Decimal(n / 10);
      DecimalValue(n / 10);
    }
  }

  /** Different numbers are written differently. */
  lemma DecimalInjective(m: nat, n: nat)
    requires Decimal(m) == Decimal(n)
    ensures m == n
  {
    DecimalValue(m);
    DecimalValue(n);
  }
}
