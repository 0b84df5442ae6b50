/**
 * The parts of Python's `str` that the core relies on: `isspace`, `strip`,
 * `lstrip`, `rstrip`, `lower` (ASCII letters), `in`, `find`, `split(sep)`,
 * `split()`, `join`, `replace`, slicing with a non-negative stop, `str(n)` for a natural `n`
 * and `int(str)` in base 10.  Strings are sequences of Unicode scalar values,
 * as Python's are sequences of code points.
 */
module PyStr {
  import opened Wrappers

  // ---------------------------------------------------------------------------
  // Whitespace and stripping
  // ---------------------------------------------------------------------------

  /** The characters for which Python's `str.isspace()` is true. */
  predicate IsSpace(c: char) {
    || c == ' '
    || ('\t' <= c <= '\r')
    || ('\U{1C}' <= c <= '\U{1F}')
    || c == '\U{85}' || c == '\U{A0}' || c == '\U{1680}'
    || ('\U{2000}' <= c <= '\U{200A}')
    || c == '\U{2028}' || c == '\U{2029}' || c == '\U{202F}' || c == '\U{205F}' || c == '\U{3000}'
  }

  predicate NoSpace(s: string) {
    forall i :: 0 <= i < |s| ==> !IsSpace(s[i])
  }

  predicate AllSpace(s: string) {
    forall i :: 0 <= i < |s| ==> IsSpace(s[i])
  }

  /** `s.lstrip()`: the suffix left after dropping leading whitespace. */
  function LStrip(s: string): (r: string)
    ensures |r| <= |s| && r == s[|s| - |r|..]
    ensures r == [] || !IsSpace(r[0])
  {
    if s != [] && IsSpace(s[0]) then LStrip(s[1..]) else s
  }

  /** What `lstrip` drops is whitespace. */
  lemma {:induction false} LStripDropsSpace(s: string)
    ensures AllSpace(s[..|s| - |LStrip(s)|])
    decreases |s|
  {
    if s != [] && IsSpace(s[0]) {
      LStripDropsSpace(s[1..]);
      var k := |s| - |LStrip(s)|;
      forall i | 0 <= i < k ensures IsSpace(s[i]) {
        if i > 0 { assert s[i] == s[1..][..k - 1][i - 1]; }
      }
    }
  }

  /** `s.rstrip()`: the prefix left after dropping trailing whitespace. */
  function RStrip(s: string): (r: string)
    ensures |r| <= |s| && r == s[..|r|]
    ensures r == [] || !IsSpace(r[|r| - 1])
  {
    if s != [] && IsSpace(s[|s| - 1]) then RStrip(s[..|s| - 1]) else s
  }

  /** What `rstrip` drops is whitespace. */
  lemma {:induction false} RStripDropsSpace(s: string)
    ensures AllSpace(s[|RStrip(s)|..])
    decreases |s|
  {
    if s != [] && IsSpace(s[|s| - 1]) {
      var s' := s[..|s| - 1];
      RStripDropsSpace(s');
      var k := |RStrip(s)|;
      forall i | k <= i < |s| ensures IsSpace(s[i]) {
        if i < |s| - 1 { assert s[i] == s'[k..][i - k]; }
      }
    }
  }

  /** `s.strip()`. */
  function Strip(s: string): (r: string)
    ensures r == [] || (!IsSpace(r[0]) && !IsSpace(r[|r| - 1]))
    ensures |r| <= |s|
  {
    RStrip(LStrip(s))
  }

  /** A string whose ends are not whitespace strips to itself. */
  lemma {:induction false} StripUnchanged(s: string)
    requires s == [] || (!IsSpace(s[0]) && !IsSpace(s[|s| - 1]))
    ensures Strip(s) == s
  {
    assert LStrip(s) == s;
  }

  /** A string strips to nothing exactly when it is all whitespace. */
  lemma {:induction false} StripEmptyIffAllSpace(s: string)
    ensures Strip(s) == [] <==> AllSpace(s)
  {
    var l := LStrip(s);
    LStripDropsSpace(s);
    RStripDropsSpace(l);
    if Strip(s) == [] {
      assert l == [];
      assert s[..|s|] == s;
    }
    if l != [] {
      assert !IsSpace(s[|s| - |l|]);
    }
  }

  // ---------------------------------------------------------------------------
  // Case, replacement, slicing
  // ---------------------------------------------------------------------------

  function LowerChar(c: char): char {
    if 'A' <= c <= 'Z' then (c as int + 32) as char else c
  }

  /** `s.lower()` restricted to ASCII letters; every other character is kept. */
  function Lower(s: string): (r: string)
    ensures |r| == |s|
  {
    seq(|s|, i requires 0 <= i < |s| => LowerChar(s[i]))
  }

  /** Lower-case letters and digits are left alone by `strip()` and `lower()`. */
  lemma {:induction false} PlainWordNormal(w: string)
    requires forall i :: 0 <= i < |w| ==> 'a' <= w[i] <= 'z' || '0' <= w[i] <= '9'
    ensures Lower(Strip(w)) == w
  {
    PlainUnpadded(w);
    PlainLower(w);
  }

  lemma {:induction false} PlainUnpadded(w: string)
    requires forall i :: 0 <= i < |w| ==> 'a' <= w[i] <= 'z' || '0' <= w[i] <= '9'
    ensures Strip(w) == w
  {
    if w != [] {
      assert !IsSpace(w[0]) && !IsSpace(w[|w| - 1]);
    }
    StripUnchanged(w);
  }

  lemma {:induction false} PlainLower(w: string)
    requires forall i :: 0 <= i < |w| ==> 'a' <= w[i] <= 'z' || '0' <= w[i] <= '9'
    ensures Lower(w) == w
  {
    assert forall i :: 0 <= i < |w| ==> LowerChar(w[i]) == w[i];
  }

  lemma {:induction false} LowerKeepsSpace(c: char)
    ensures IsSpace(LowerChar(c)) == IsSpace(c)
  {}
  lemma {:induction false} LowerTail(s: string)
    requires s != []
    ensures Lower(s)[1..] == Lower(s[1..]) && Lower(s)[0] == LowerChar(s[0])
  {}
  lemma {:induction false} LowerInit(s: string)
    requires s != []
    ensures Lower(s)[..|s| - 1] == Lower(s[..|s| - 1]) && Lower(s)[|s| - 1] == LowerChar(s[|s| - 1])
  {}
  lemma {:induction false} LStripLower(s: string)
    ensures LStrip(Lower(s)) == Lower(LStrip(s))
    decreases |s|
  {
    if s != [] {
      LowerKeepsSpace(s[0]);
      LowerTail(s);
      if IsSpace(s[0]) { LStripLower(s[1..]); }
    }
  }
  lemma {:induction false} RStripLower(s: string)
    ensures RStrip(Lower(s)) == Lower(RStrip(s))
    decreases |s|
  {
    if s != [] {
      LowerKeepsSpace(s[|s| - 1]);
      LowerInit(s);
      if IsSpace(s[|s| - 1]) { RStripLower(s[..|s| - 1]); }
    }
  }
  /** Stripping and ASCII lowercasing commute. */
  lemma {:induction false} StripLower(s: string)
    ensures Strip(Lower(s)) == Lower(Strip(s))
  {
    LStripLower(s);
    RStripLower(LStrip(s));
  }
  /** Lowercasing is idempotent. */
  lemma {:induction false} LowerTwice(s: string)
    ensures Lower(Lower(s)) == Lower(s)
  {}

  /** `s.replace(a, b)` for one-character `a` and `b`. */
  function ReplaceChar(s: string, a: char, b: char): (r: string)
    ensures |r| == |s|
    ensures a != b ==> forall i :: 0 <= i < |r| ==> r[i] != a
  {
    seq(|s|, i requires 0 <= i < |s| => if s[i] == a then b else s[i])
  }

  /** `s[:n]` for a non-negative `n`, on strings and lists alike. */
  function Prefix<T>(s: seq<T>, n: nat): (r: seq<T>)
    ensures |r| <= n && |r| <= |s| && r == s[..|r|]
    ensures |s| <= n ==> r == s
  {
    if n <= |s| then s[..n] else s
  }

  // ---------------------------------------------------------------------------
  // Searching
  // ---------------------------------------------------------------------------

  predicate StartsWith(s: string, p: string) {
    |p| <= |s| && s[..|p|] == p
  }

  predicate EndsWith(s: string, p: string) {
    |p| <= |s| && s[|s| - |p|..] == p
  }

  /** `p` occurs in `s` starting at index `j`. */
  predicate OccursAt(s: string, p: string, j: int) {
    0 <= j && j + |p| <= |s| && s[j..j + |p|] == p
  }

  /** `s.find(p)`, with None for -1: the first index at which `p` occurs. */
  function Find(s: string, p: string): (r: Option<nat>)
    ensures r.Some? ==> OccursAt(s, p, r.value)
    ensures forall j :: 0 <= j <= |s| && (r.None? || j < r.value) ==> !OccursAt(s, p, j)
    decreases |s|
  {
    if StartsWith(s, p) then Some(0)
    else if s == [] then None
    else
      var r' := Find(s[1..], p);
      forall j | 1 <= j <= |s|
        ensures OccursAt(s, p, j) == OccursAt(s[1..], p, j - 1)
      {
        OccursShift(s, p, j);
      }
      assert !OccursAt(s, p, 0);
      match r'
      case None => None
      case Some(k) => Some(k + 1)
  }

  lemma {:induction false} OccursShift(s: string, p: string, j: int)
    requires 1 <= j <= |s|
    ensures OccursAt(s, p, j) == OccursAt(s[1..], p, j - 1)
  {
    if j + |p| <= |s| {
      var t := s[1..];
      var u, v := s[j..j + |p|], t[j - 1..j - 1 + |p|];
      assert forall k :: 0 <= k < |p| ==> u[k] == v[k];
      assert u == v;
    }
  }

  /** Python's `p in s`. */
  predicate Contains(s: string, p: string) {
    Find(s, p).Some?
  }

  lemma {:induction false} OccursImpliesContains(s: string, p: string, j: int)
    requires OccursAt(s, p, j)
    ensures Contains(s, p)
  {
  }

  lemma {:induction false} ContainsInfix(a: string, b: string, c: string)
    ensures Contains(a + b + c, b)
  {
    assert (a + b + c)[|a|..|a| + |b|] == b;
    OccursImpliesContains(a + b + c, b, |a|);
  }

  lemma {:induction false} ContainsExtend(s: string, p: string, a: string, c: string)
    requires Contains(s, p)
    ensures Contains(a + s + c, p)
  {
    var j := Find(s, p).value;
    assert (a + s + c)[|a| + j..|a| + j + |p|] == s[j..j + |p|];
    OccursImpliesContains(a + s + c, p, |a| + j);
  }

  predicate Lacks(s: string, c: char) {
    forall i :: 0 <= i < |s| ==> s[i] != c
  }

  lemma {:induction false} LacksNotContains(s: string, c: char)
    requires Lacks(s, c)
    ensures !Contains(s, [c])
  {
    forall j | 0 <= j <= |s| ensures !OccursAt(s, [c], j) {
      if j + 1 <= |s| { assert s[j..j + 1] == [s[j]]; }
    }
  }

  /** A prefix that lacks the first character of `p` cannot hold the start of an occurrence of `p`. */
  lemma {:induction false} FindAfter(a: string, b: string, p: string)
    requires p != [] && Lacks(a, p[0])
    ensures Find(a + b, p) == match Find(b, p) case None => None case Some(k) => Some(|a| + k)
    decreases |a|
  {
    if a == [] {
      assert a + b == b;
    } else {
      assert (a + b)[0] == a[0];
      FindStep(a + b, p);
      DropOfConcat(a, b, 1);
      assert Lacks(a[1..], p[0]);
      FindAfter(a[1..], b, p);
    }
  }

  /** Where `p` does not start at the front, `find` looks one character further on. */
  lemma {:induction false} FindStep(s: string, p: string)
    requires s != [] && p != [] && s[0] != p[0]
    ensures Find(s, p) == match Find(s[1..], p) case None => None case Some(k) => Some(k + 1)
  {
    assert !StartsWith(s, p);
  }

  /** An occurrence of `p` cannot reach into a tail made of characters `p` does not use. */
  lemma {:induction false} NotAcross(x: string, y: string, p: string)
    requires p != [] && !Contains(x, p)
    requires forall i :: 0 <= i < |y| ==> Lacks(p, y[i])
    ensures !Contains(x + y, p)
  {
    var s := x + y;
    forall j | 0 <= j <= |s| && j + |p| <= |s|
      ensures !OccursAt(s, p, j)
    {
      if j + |p| <= |x| {
        assert s[j..j + |p|] == x[j..j + |p|];
        assert !OccursAt(x, p, j);
      } else {
        var m := if j >= |x| then j else |x|;
        assert s[j..j + |p|][m - j] == y[m - |x|];
        assert p[m - j] != y[m - |x|];
      }
    }
  }

  /** `p` is found right at the boundary when the text before it lacks `p` and ends in a character `p` does not use. */
  lemma {:induction false} FirstAtBoundary(a: string, b: string, p: string)
    requires p != [] && a != [] && !Contains(a, p) && Lacks(p, a[|a| - 1]) && StartsWith(b, p)
    ensures Find(a + b, p) == Some(|a|)
  {
    var s := a + b;
    assert s[|a|..|a| + |p|] == b[..|p|];
    assert OccursAt(s, p, |a|);
    forall j | 0 <= j < |a| && j + |p| <= |s|
      ensures !OccursAt(s, p, j)
    {
      if j + |p| <= |a| {
        assert s[j..j + |p|] == a[j..j + |p|];
        assert !OccursAt(a, p, j);
      } else {
        assert s[j..j + |p|][|a| - 1 - j] == a[|a| - 1];
        assert p[|a| - 1 - j] != a[|a| - 1];
      }
    }
  }

  /** A text that starts with `p` finds it at 0. */
  lemma {:induction false} FindAtStart(s: string, p: string)
    requires StartsWith(s, p)
    ensures Find(s, p) == Some(0)
  {
  }

  // ---------------------------------------------------------------------------
  // Joining and splitting
  // ---------------------------------------------------------------------------

  /** `sep.join(parts)`. */
  function Join(sep: string, parts: seq<string>): string {
    if |parts| == 0 then ""
    else if |parts| == 1 then parts[0]
    else parts[0] + sep + Join(sep, parts[1..])
  }

  lemma {:induction false} JoinAppend(sep: string, a: seq<string>, b: seq<string>)
    requires a != [] && b != []
    ensures Join(sep, a + b) == Join(sep, a) + sep + Join(sep, b)
    decreases |a|
  {
    if |a| == 1 {
      assert (a + b)[1..] == b;
    } else {
      assert (a + b)[1..] == a[1..] + b;
      JoinAppend(sep, a[1..], b);
    }
  }

  /** The length of a join: the parts plus one separator between each two. */
  lemma {:induction false} JoinLength(sep: string, parts: seq<string>)
    ensures parts != [] ==> |Join(sep, parts)| == JoinedLength(sep, parts)
    decreases |parts|
  {
    if |parts| > 1 {
      JoinLength(sep, parts[1..]);
    }
  }

  function JoinedLength(sep: string, parts: seq<string>): nat
    requires parts != []
    decreases |parts|
  {
    if |parts| == 1 then |parts[0]| else |parts[0]| + |sep| + JoinedLength(sep, parts[1..])
  }

  /** Every part occurs in the joined text. */
  lemma {:induction false} JoinContains(sep: string, parts: seq<string>, k: nat)
    requires k < |parts|
    ensures Contains(Join(sep, parts), parts[k])
    decreases |parts|
  {
    var j := Join(sep, parts);
    if |parts| == 1 {
      assert j == [] + parts[0] + [];
      ContainsInfix([], parts[0], []);
    } else if k == 0 {
      assert j == [] + parts[0] + (sep + Join(sep, parts[1..]));
      ContainsInfix([], parts[0], sep + Join(sep, parts[1..]));
    } else {
      var rest := Join(sep, parts[1..]);
      JoinContains(sep, parts[1..], k - 1);
      assert j == (parts[0] + sep) + rest + [];
      ContainsExtend(rest, parts[k], parts[0] + sep, []);
    }
  }

  /** The text before the first occurrence of `p` does not contain `p`. */
  lemma {:induction false} HeadBeforeFind(s: string, p: string, i: nat)
    requires p != [] && Find(s, p) == Some(i)
    ensures !Contains(s[..i], p)
  {
    var head := s[..i];
    forall j | 0 <= j <= |head|
      ensures !OccursAt(head, p, j)
    {
      if j + |p| <= |head| {
        SliceOfPrefix(s, i, j, j + |p|);
        assert j < i;
        assert !OccursAt(s, p, j);
      }
    }
  }

  lemma {:induction false} SliceOfPrefix(s: string, i: nat, j: nat, k: nat)
    requires j <= k <= i <= |s|
    ensures s[..i][j..k] == s[j..k]
  {
    var u, v := s[..i][j..k], s[j..k];
    assert forall m :: 0 <= m < |u| ==> u[m] == v[m];
  }

  /** `s.split(sep)` for a non-empty separator (Python raises on an empty one). */
  function Split(s: string, sep: string): (r: seq<string>)
    requires sep != []
    ensures |r| >= 1
    ensures Join(sep, r) == s
    ensures forall k :: 0 <= k < |r| ==> !Contains(r[k], sep)
    decreases |s|
  {
    match Find(s, sep)
    case None => [s]
    case Some(i) =>
      var head := s[..i];
      HeadBeforeFind(s, sep, i);
      var rest := Split(s[i + |sep|..], sep);
      assert s == head + sep + s[i + |sep|..];
      [head] + rest
  }

  /** Splitting on a one-character separator undoes joining parts that do not hold it. */
  lemma {:induction false} SplitJoinChar(parts: seq<string>, c: char)
    requires parts != []
    requires forall k :: 0 <= k < |parts| ==> Lacks(parts[k], c)
    ensures Split(Join([c], parts), [c]) == parts
    decreases |parts|
  {
    var p0 := parts[0];
    if |parts| == 1 {
      LacksNotContains(p0, c);
    } else {
      var tail := Join([c], parts[1..]);
      var s := Join([c], parts);
      assert s == p0 + ([c] + tail);
      FindAfter(p0, [c] + tail, [c]);
      assert StartsWith([c] + tail, [c]);
      assert Find(s, [c]) == Some(|p0|);
      assert s[..|p0|] == p0;
      assert s[|p0| + 1..] == tail;
      SplitJoinChar(parts[1..], c);
      assert Split(s, [c]) == [p0] + Split(tail, [c]);
      assert [p0] + parts[1..] == parts;
    }
  }

  // ---------------------------------------------------------------------------
  // Whitespace-separated words
  // ---------------------------------------------------------------------------

  /** The longest prefix of `s` without whitespace. */
  function Token(s: string): (w: string)
    ensures |w| <= |s| && w == s[..|w|] && NoSpace(w)
    ensures |w| == |s| || IsSpace(s[|w|])
    ensures s != [] && !IsSpace(s[0]) ==> w != []
  {
    if s == [] || IsSpace(s[0]) then [] else [s[0]] + Token(s[1..])
  }

  /** `s.split()`: the maximal runs of non-whitespace characters, in order. */
  function Words(s: string): seq<string>
    decreases |s|
  {
    if s == [] then []
    else if IsSpace(s[0]) then Words(s[1..])
    else
      var w := Token(s);
      [w] + Words(s[|w|..])
  }

  /** Every word is non-empty and holds no whitespace. */
  lemma {:induction false} WordsProper(s: string)
    ensures ProperWords(Words(s))
    decreases |s|
  {
    if s != [] {
      if IsSpace(s[0]) {
        WordsProper(s[1..]);
      } else {
        var w := Token(s);
        WordsProper(s[|w|..]);
        ProperCons(w, Words(s[|w|..]));
      }
    }
  }

  lemma {:induction false} ProperCons(w: string, more: seq<string>)
    requires w != [] && NoSpace(w) && ProperWords(more)
    ensures ProperWords([w] + more)
  {
  }

  /** `" ".join(s.split())`: whitespace collapsed to single spaces, none at the ends. */
  function Collapse(s: string): string {
    Join(" ", Words(s))
  }

  /** Every whitespace character is a single space that follows a non-space. */
  predicate SingleSpaced(s: string) {
    forall i :: 0 <= i < |s| && IsSpace(s[i]) ==> s[i] == ' ' && 0 < i && !IsSpace(s[i - 1])
  }

  predicate Collapsed(s: string) {
    SingleSpaced(s) && (s == [] || !IsSpace(s[|s| - 1]))
  }

  predicate ProperWords(ws: seq<string>) {
    forall k :: 0 <= k < |ws| ==> ws[k] != [] && NoSpace(ws[k])
  }

  lemma {:induction false} WordsSkipSpace(s: string)
    requires s != [] && IsSpace(s[0])
    ensures Words(s) == Words(s[1..])
  {
  }

  lemma {:induction false} WordsOfWord(w: string)
    requires w != [] && NoSpace(w)
    ensures Words(w) == [w]
  {
    TokenOfWord(w, []);
    assert w + [] == w;
  }

  lemma {:induction false} TokenOfWord(w: string, t: string)
    requires NoSpace(w)
    requires t == [] || IsSpace(t[0])
    ensures Token(w + t) == w
    decreases |w|
  {
    if w != [] {
      assert (w + t)[0] == w[0];
      assert (w + t)[1..] == w[1..] + t;
      TokenOfWord(w[1..], t);
    }
  }

  /** A string that starts with a non-space begins with its first token. */
  lemma {:induction false} WordsCons(s: string)
    requires s != [] && !IsSpace(s[0])
    ensures Words(s) == [Token(s)] + Words(s[|Token(s)|..])
  {
  }

  /** A whitespace character separates the words on its left from those on its right. */
  lemma {:induction false} WordsSplitAt(a: string, c: char, b: string)
    requires IsSpace(c)
    ensures Words(a + [c] + b) == Words(a) + Words(b)
    decreases |a|, 1
  {
    if a == [] {
      var s := a + [c] + b;
      assert s == [c] + b;
      WordsSkipSpace(s);
      assert s[1..] == b;
    } else if IsSpace(a[0]) {
      WordsSplitSpace(a, c, b);
    } else {
      WordsSplitToken(a, c, b);
    }
  }

  lemma {:induction false} WordsSplitSpace(a: string, c: char, b: string)
    requires IsSpace(c) && a != [] && IsSpace(a[0])
    ensures Words(a + [c] + b) == Words(a) + Words(b)
    decreases |a|, 0
  {
    var s := a + [c] + b;
    assert s[0] == a[0];
    WordsSkipSpace(s);
    assert s[1..] == a[1..] + [c] + b;
    WordsSplitAt(a[1..], c, b);
    WordsSkipSpace(a);
  }

  lemma {:induction false} WordsSplitToken(a: string, c: char, b: string)
    requires IsSpace(c) && a != [] && !IsSpace(a[0])
    ensures Words(a + [c] + b) == Words(a) + Words(b)
    decreases |a|, 0
  {
    var rest := a[|Token(a)|..];
    WordsThroughToken(a, [c] + b);
    Associative(a, [c], b);
    Associative(rest, [c], b);
    WordsSplitAt(rest, c, b);
    WordsCons(a);
    Associative([Token(a)], Words(rest), Words(b));
  }

  lemma {:induction false} Associative<T>(x: seq<T>, y: seq<T>, z: seq<T>)
    ensures x + (y + z) == x + y + z
  {
  }

  /** Whitespace after `a` ends the first token of `a` there. */
  lemma {:induction false} WordsThroughToken(a: string, t: string)
    requires a != [] && !IsSpace(a[0]) && (t == [] || IsSpace(t[0]))
    ensures Words(a + t) == [Token(a)] + Words(a[|Token(a)|..] + t)
  {
    var s := a + t;
    var w := Token(a);
    TokenPrefix(a, t);
    assert s[0] == a[0];
    WordsCons(s);
    DropOfConcat(a, t, |w|);
  }

  lemma {:induction false} DropOfConcat<T>(x: seq<T>, y: seq<T>, k: nat)
    requires k <= |x|
    ensures (x + y)[k..] == x[k..] + y
  {
  }

  /** Token reads across a boundary only when the left part has no whitespace at all. */
  lemma {:induction false} TokenPrefix(x: string, y: string)
    requires y == [] || IsSpace(y[0])
    ensures Token(x + y) == Token(x)
    decreases |x|
  {
    if x != [] {
      assert (x + y)[0] == x[0];
      assert (x + y)[1..] == x[1..] + y;
      TokenPrefix(x[1..], y);
    }
  }

  /** Joining proper words with single spaces yields a collapsed string. */
  lemma {:induction false} JoinWordsCollapsed(ws: seq<string>)
    requires ProperWords(ws)
    ensures Collapsed(Join(" ", ws))
    decreases |ws|
  {
    if |ws| > 1 {
      JoinWordsCollapsed(ws[1..]);
      JoinNonEmpty(ws[1..]);
      var w := ws[0];
      var rest := Join(" ", ws[1..]);
      var s := w + " " + rest;
      assert forall i :: 0 <= i < |w| ==> s[i] == w[i];
      assert s[|w|] == ' ';
      assert forall i :: |w| < i < |s| ==> s[i] == rest[i - |w| - 1];
      assert s[|w| + 1] == rest[0];
    }
  }

  lemma {:induction false} JoinNonEmpty(ws: seq<string>)
    requires ws != [] && ProperWords(ws)
    ensures Join(" ", ws) != []
    ensures Join(" ", ws)[0] == ws[0][0]
  {
  }

  /** Splitting a single-spaced join of proper words gives the words back. */
  lemma {:induction false} WordsOfJoin(ws: seq<string>)
    requires ProperWords(ws)
    ensures Words(Join(" ", ws)) == ws
    decreases |ws|
  {
    if |ws| == 1 {
      WordsOfWord(ws[0]);
    } else if |ws| > 1 {
      var rest := Join(" ", ws[1..]);
      assert Join(" ", ws) == ws[0] + [' '] + rest;
      WordsSplitAt(ws[0], ' ', rest);
      WordsOfWord(ws[0]);
      WordsOfJoin(ws[1..]);
      assert [ws[0]] + ws[1..] == ws;
    }
  }

  lemma {:induction false} WordsOfSpaces(s: string)
    requires AllSpace(s)
    ensures Words(s) == []
    decreases |s|
  {
    if s != [] {
      WordsSkipSpace(s);
      WordsOfSpaces(s[1..]);
    }
  }

  /** Leading whitespace does not change the words. */
  lemma {:induction false} WordsAfterSpaces(pre: string, x: string)
    requires AllSpace(pre)
    ensures Words(pre + x) == Words(x)
    decreases |pre|
  {
    if pre != [] {
      var s := pre + x;
      assert s[0] == pre[0];
      WordsSkipSpace(s);
      DropOfConcat(pre, x, 1);
      WordsAfterSpaces(pre[1..], x);
    } else {
      assert pre + x == x;
    }
  }

  /** Trailing whitespace does not change the words. */
  lemma {:induction false} WordsBeforeSpaces(x: string, post: string)
    requires post != [] && AllSpace(post)
    ensures Words(x + post) == Words(x)
  {
    assert x + post == x + [post[0]] + post[1..];
    WordsSplitAt(x, post[0], post[1..]);
    WordsOfSpaces(post[1..]);
    assert Words(x) + [] == Words(x);
  }

  /** Joining parts that lack `c` with a separator that lacks `c` gives a text lacking `c`. */
  lemma {:induction false} JoinLacks(sep: string, parts: seq<string>, c: char)
    requires Lacks(sep, c)
    requires forall k :: 0 <= k < |parts| ==> Lacks(parts[k], c)
    ensures Lacks(Join(sep, parts), c)
    decreases |parts|
  {
    if |parts| > 1 {
      JoinLacks(sep, parts[1..], c);
    }
  }

  /** Collapsing whitespace twice is the same as collapsing it once. */
  lemma {:induction false} CollapseIdempotent(s: string)
    ensures Collapse(Collapse(s)) == Collapse(s)
  {
    WordsProper(s);
    WordsOfJoin(Words(s));
  }

  /** A collapsed string's words are separated by exactly one space. */
  lemma {:induction false} CollapseIsCollapsed(s: string)
    ensures Collapsed(Collapse(s))
  {
    WordsProper(s);
    JoinWordsCollapsed(Words(s));
  }

  /** Collapsing never lengthens a string. */
  lemma {:induction false} CollapseShorter(s: string)
    ensures |Collapse(s)| <= |s|
    decreases |s|
  {
    if s != [] {
      if IsSpace(s[0]) {
        CollapseShorter(s[1..]);
      } else {
        var w := Token(s);
        var u := s[|w|..];
        if Words(u) != [] {
          assert IsSpace(u[0]);
          CollapseShorter(u[1..]);
          assert Words(s) == [w] + Words(u[1..]);
          assert Collapse(s) == w + " " + Collapse(u[1..]);
        } else {
          assert Words(s) == [w];
        }
      }
    }
  }

  /** Whitespace at either end does not change the words. */
  lemma {:induction false} WordsOfLStrip(s: string)
    ensures Words(LStrip(s)) == Words(s)
    decreases |s|
  {
    if s != [] && IsSpace(s[0]) {
      WordsSkipSpace(s);
      WordsOfLStrip(s[1..]);
    }
  }

  lemma {:induction false} WordsOfRStrip(s: string)
    ensures Words(RStrip(s)) == Words(s)
    decreases |s|
  {
    if s != [] && IsSpace(s[|s| - 1]) {
      var init := s[..|s| - 1];
      assert s == init + [s[|s| - 1]] + [];
      WordsSplitAt(init, s[|s| - 1], []);
      assert Words([]) == [];
      assert Words(init) + [] == Words(init);
      WordsOfRStrip(init);
    }
  }

  /** `" ".join(s.strip().split())` is `" ".join(s.split())`. */
  lemma {:induction false} CollapseOfStrip(s: string)
    ensures Collapse(Strip(s)) == Collapse(s)
  {
    WordsOfLStrip(s);
    WordsOfRStrip(LStrip(s));
  }

  /** Cutting a single-spaced text short keeps it single-spaced. */
  lemma {:induction false} SingleSpacedPrefix(s: string, n: nat)
    requires SingleSpaced(s)
    ensures SingleSpaced(Prefix(s, n))
  {
    var r := Prefix(s, n);
    forall i | 0 <= i < |r| && IsSpace(r[i])
      ensures r[i] == ' ' && 0 < i && !IsSpace(r[i - 1])
    {
      assert r[i] == s[i];
      if 0 < i {
        assert r[i - 1] == s[i - 1];
      }
    }
  }

  /** A text that lacks a character of `p` does not contain `p`. */
  lemma {:induction false} LacksPart(s: string, p: string, j: nat)
    requires j < |p| && Lacks(s, p[j])
    ensures !Contains(s, p)
  {
    forall i | 0 <= i <= |s|
      ensures !OccursAt(s, p, i)
    {
      if i + |p| <= |s| {
        assert s[i..i + |p|][j] == s[i + j];
      }
    }
  }

  // ---------------------------------------------------------------------------
  // Decimal integers
  // ---------------------------------------------------------------------------

  predicate IsDigit(c: char) {
    '0' <= c <= '9'
  }

  function DigitChar(d: nat): (c: char)
    requires d < 10
    ensures IsDigit(c) && c as int - '0' as int == d
  {
    ('0' as int + d) as char
  }

  /** `str(n)` for a natural number. */
  function NatToString(n: nat): (r: string)
    ensures r != []
    decreases n
  {
    if n < 10 then [DigitChar(n)] else NatToString(n / 10) + [DigitChar(n % 10)]
  }

  predicate AllDigits(s: string) {
    forall i :: 0 <= i < |s| ==> IsDigit(s[i])
  }

  lemma {:induction false} NatToStringDigits(n: nat)
    ensures AllDigits(NatToString(n))
    decreases n
  {
    if n >= 10 {
      NatToStringDigits(n / 10);
      var a := NatToString(n / 10);
      var r := a + [DigitChar(n % 10)];
      assert forall i :: 0 <= i < |a| ==> r[i] == a[i];
    }
  }

  /** The digits of a decimal literal as `int()` accepts them: a digit, then digits each optionally preceded by one underscore. */
  predicate WellFormedDigits(d: string) {
    d != [] && IsDigit(d[0]) && DigitGroups(d[1..])
  }

  predicate DigitGroups(r: string)
    decreases |r|
  {
    || r == []
    || (IsDigit(r[0]) && DigitGroups(r[1..]))
    || (r[0] == '_' && |r| >= 2 && IsDigit(r[1]) && DigitGroups(r[2..]))
  }

  /** The value of a digit string, underscores ignored. */
  function DigitsValue(d: string): nat
    decreases |d|
  {
    if d == [] then 0
    else if IsDigit(d[|d| - 1]) then DigitsValue(d[..|d| - 1]) * 10 + (d[|d| - 1] as int - '0' as int)
    else DigitsValue(d[..|d| - 1])
  }

  /** `int(s)` in base 10 (ASCII digits), None where Python raises ValueError. */
  function ParseInt(s: string): Option<int> {
    ParseLiteral(Strip(s))
  }

  /** An optional sign followed by a well-formed digit string. */
  function ParseLiteral(t: string): Option<int> {
    if t != [] && t[0] == '-' && WellFormedDigits(t[1..]) then Some(-(DigitsValue(t[1..]) as int))
    else if t != [] && t[0] == '+' && WellFormedDigits(t[1..]) then Some(DigitsValue(t[1..]))
    else if WellFormedDigits(t) then Some(DigitsValue(t))
    else None
  }

  lemma {:induction false} DigitsValueOfNat(n: nat)
    ensures DigitsValue(NatToString(n)) == n
    decreases n
  {
    var r := NatToString(n);
    if n >= 10 {
      DigitsValueOfNat(n / 10);
      assert r[..|r| - 1] == NatToString(n / 10);
    }
  }

  lemma {:induction false} DigitsWellFormed(d: string)
    requires AllDigits(d)
    ensures DigitGroups(d)
    decreases |d|
  {
    if d != [] {
      assert AllDigits(d[1..]);
      DigitsWellFormed(d[1..]);
    }
  }

  lemma {:induction false} NatStringStripped(n: nat)
    ensures Strip(NatToString(n)) == NatToString(n)
  {
    var r := NatToString(n);
    NatToStringDigits(n);
    assert IsDigit(r[0]) && IsDigit(r[|r| - 1]);
    StripUnchanged(r);
  }

  lemma {:induction false} NatStringWellFormed(n: nat)
    ensures WellFormedDigits(NatToString(n))
  {
    var r := NatToString(n);
    NatToStringDigits(n);
    assert IsDigit(r[0]);
    assert AllDigits(r[1..]);
    DigitsWellFormed(r[1..]);
  }

  /** The rendering of a natural number is a stripped, well-formed literal of its value. */
  lemma {:induction false} NatStringLiteral(n: nat)
    ensures Strip(NatToString(n)) == NatToString(n)
    ensures WellFormedDigits(NatToString(n))
    ensures DigitsValue(NatToString(n)) == n
  {
    NatStringStripped(n);
    NatStringWellFormed(n);
    DigitsValueOfNat(n);
  }

  lemma {:induction false} ParseUnsigned(t: string)
    requires Strip(t) == t && WellFormedDigits(t)
    ensures ParseInt(t) == Some(DigitsValue(t))
  {
    assert t[0] != '-' && t[0] != '+';
  }

  lemma {:induction false} ParseNatString(n: nat)
    ensures ParseInt(NatToString(n)) == Some(n)
  {
    NatStringLiteral(n);
    ParseUnsigned(NatToString(n));
  }

  lemma {:induction false} LiteralNeedsDigit(t: string)
    requires forall i :: 0 <= i < |t| ==> !IsDigit(t[i])
    ensures ParseLiteral(t) == None
  {
    if |t| > 1 {
      assert t[1..][0] == t[1];
    }
  }

  /** A string without a single digit is never an integer literal. */
  lemma {:induction false} ParseIntNeedsDigit(s: string)
    requires forall i :: 0 <= i < |s| ==> !IsDigit(s[i])
    ensures ParseInt(s) == None
  {
    var t := Strip(s);
    forall i | 0 <= i < |t|
      ensures !IsDigit(t[i])
    {
      StripChar(s, i);
    }
    LiteralNeedsDigit(t);
  }

  /** Every character of the stripped text comes from the text. */
  lemma {:induction false} StripChar(s: string, i: nat)
    requires i < |Strip(s)|
    ensures Strip(s)[i] in s
  {
    var l := LStrip(s);
    var t := Strip(s);
    assert t == l[..|t|];
    assert l == s[|s| - |l|..];
    assert t[i] == s[|s| - |l| + i];
  }
}
