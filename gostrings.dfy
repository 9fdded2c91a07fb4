/**
 * The few functions of Go's `strings` package the pruner relies on, over
 * strings as sequences of code points: `Index`, `Split` (with a non-empty
 * separator), `TrimSpace`, and `Join` as the inverse of `Split`.
 */
module GoStrings {

  /** `sep` occurs in `s` starting at position `j`. */
  predicate At(s: string, sep: string, j: int) {
    0 <= j && j + |sep| <= |s| && s[j..j + |sep|] == sep
  }

  /** `sep` occurs somewhere in `s` (strings.Contains). */
  predicate Occurs(s: string, sep: string) {
    exists j | 0 <= j <= |s| :: At(s, sep, j)
  }

  lemma AtShift(s: string, sep: string, j: int)
    requires 1 <= j && s != []
    ensures At(s, sep, j) <==> At(s[1..], sep, j - 1)
  {
    if j + |sep| <= |s| {
      assert s[1..][j - 1..j - 1 + |sep|] == s[j..j + |sep|];
    }
  }

  /** strings.Index: the position of the first occurrence of `sep` in `s`, or -1. */
  function Index(s: string, sep: string): (r: int)
    requires sep != []
    ensures r == -1 || At(s, sep, r)
    ensures forall j :: 0 <= j && (r == -1 || j < r) ==> !At(s, sep, j)
    decreases |s|
  {
    if |s| < |sep| then -1
    else if s[..|sep|] == sep then 0
    else
      var k := Index(s[1..], sep);
      assert forall j :: 1 <= j ==> (At(s, sep, j) <==> At(s[1..], sep, j - 1)) by {
        forall j | 1 <= j { AtShift(s, sep, j); }
      }
      if k == -1 then -1 else k + 1
  }

  /**
   * strings.Split with a non-empty separator: the pieces between the
   * successive leftmost occurrences of `sep`; a string without `sep` is one
   * piece, even the empty string.
   */
  function Split(s: string, sep: string): (parts: seq<string>)
    requires sep != []
    ensures |parts| >= 1
    ensures |parts| == 1 <==> !Occurs(s, sep)
    decreases |s|
  {
    var i := Index(s, sep);
    if i == -1 then [s] else [s[..i]] + Split(s[i + |sep|..], sep)
  }

  /** strings.Join: the pieces with `sep` between neighbours. */
  function Join(parts: seq<string>, sep: string): string {
    if |parts| == 0 then ""
    else if |parts| == 1 then parts[0]
    else parts[0] + sep + Join(parts[1..], sep)
  }

  /** Joining the pieces of a split gives back the original string. */
  lemma {:induction false} JoinSplit(s: string, sep: string)
    requires sep != []
    ensures Join(Split(s, sep), sep) == s
    decreases |s|
  {
    var i := SplitFirst(s, sep);
    if i != -1 {
      var rest := s[i + |sep|..];
      JoinSplit(rest, sep);
      JoinCons(s[..i], Split(rest, sep), sep);
    }
  }

  /** The first step of Split: no occurrence leaves `s` whole, otherwise the text before the first one is split off. */
  lemma SplitFirst(s: string, sep: string) returns (i: int)
    requires sep != []
    ensures i == -1 ==> Split(s, sep) == [s]
    ensures i != -1 ==> 0 <= i && i + |sep| <= |s|
    ensures i != -1 ==> Split(s, sep) == [s[..i]] + Split(s[i + |sep|..], sep)
    ensures i != -1 ==> s == s[..i] + sep + s[i + |sep|..]
  {
    i := Index(s, sep);
    if i != -1 {
      assert s[i..i + |sep|] == sep;
      assert s == s[..i] + s[i..i + |sep|] + s[i + |sep|..];
    }
  }

  /** No piece of a split contains the separator: every occurrence is a cut. */
  lemma {:induction false} SplitPiecesFree(s: string, sep: string)
    requires sep != []
    ensures forall p :: p in Split(s, sep) ==> !Occurs(p, sep)
    decreases |s|
  {
    var i := SplitFirst(s, sep);
    if i != -1 {
      SplitPiecesFree(s[i + |sep|..], sep);
      PrefixFree(s, sep);
    }
  }

  /** The text before the first occurrence of `sep` does not contain `sep`. */
  lemma PrefixFree(s: string, sep: string)
    requires sep != [] && Index(s, sep) != -1
    ensures !Occurs(s[..Index(s, sep)], sep)
  {
    var i := Index(s, sep);
    forall j | 0 <= j <= i ensures !At(s[..i], sep, j) {
      if j + |sep| <= i {
        assert j < i && !At(s, sep, j);
        assert s[..i][j..j + |sep|] == s[j..j + |sep|];
      }
    }
  }

  /** A string that splits into two pieces is the first, the separator and the second, neither holding it. */
  lemma SplitTwo(s: string, sep: string)
    requires sep != [] && |Split(s, sep)| == 2
    ensures s == Split(s, sep)[0] + sep + Split(s, sep)[1]
    ensures !Occurs(Split(s, sep)[0], sep) && !Occurs(Split(s, sep)[1], sep)
  {
    var parts := Split(s, sep);
    JoinSplit(s, sep);
    SplitPiecesFree(s, sep);
    assert parts == [parts[0]] + [parts[1]];
    JoinCons(parts[0], [parts[1]], sep);
    assert parts[0] in parts && parts[1] in parts;
  }

  /** The first piece of a split is the text before the first occurrence of `sep`, or all of `s`. */
  lemma SplitHead(s: string, sep: string)
    requires sep != []
    ensures var head := Split(s, sep)[0];
      head <= s && !Occurs(head, sep) && (head == s || At(s, sep, |head|))
  {
    SplitPiecesFree(s, sep);
    assert Split(s, sep)[0] in Split(s, sep);
    var i := Index(s, sep);
    if i != -1 {
      assert Split(s, sep)[0] == s[..i];
    }
  }

  lemma JoinCons(first: string, parts: seq<string>, sep: string)
    requires parts != []
    ensures Join([first] + parts, sep) == first + sep + Join(parts, sep)
  {
    assert ([first] + parts)[1..] == parts;
  }

  /** A string in which `sep` does not occur is not split. */
  lemma SplitWhole(s: string, sep: string)
    requires sep != [] && !Occurs(s, sep)
    ensures Split(s, sep) == [s]
  {
  }

  /**
   * When the first character of `sep` does not occur in `a`, the first
   * occurrence of `sep` in `a + sep + b` is the one right after `a`.
   */
  lemma SplitAfter(a: string, sep: string, b: string)
    requires sep != [] && sep[0] !in a
    ensures Split(a + sep + b, sep) == [a] + Split(b, sep)
  {
    var s := a + sep + b;
    assert At(s, sep, |a|) by { assert s[|a|..|a| + |sep|] == sep; }
    forall j | 0 <= j < |a| ensures !At(s, sep, j) {
      assert s[j] == a[j];
    }
    assert Index(s, sep) == |a|;
    assert s[..|a|] == a && s[|a| + |sep|..] == b;
  }

  /** A string without the (only) character of a one-character separator. */
  lemma SplitFree(s: string, sep: string)
    requires |sep| == 1 && sep[0] !in s
    ensures Split(s, sep) == [s]
  {
    forall j | 0 <= j < |s| ensures !At(s, sep, j) {
      assert s[j..j + 1][0] == s[j];
    }
  }

  /** unicode.IsSpace, the characters strings.TrimSpace removes. */
  predicate IsSpace(c: char) {
    || c == ' ' || c == '\t' || c == '\n' || c == '\U{000B}' || c == '\U{000C}' || c == '\r'
    || c == '\U{0085}' || c == '\U{00A0}' || c == '\U{1680}'
    || ('\U{2000}' <= c <= '\U{200A}')
    || c == '\U{2028}' || c == '\U{2029}' || c == '\U{202F}' || c == '\U{205F}' || c == '\U{3000}'
  }

  /** `s` neither starts nor ends with white space. */
  predicate Trimmed(s: string) {
    s == [] || (!IsSpace(s[0]) && !IsSpace(s[|s| - 1]))
  }

  /** strings.TrimLeftFunc(s, unicode.IsSpace): drops the leading white space. */
  function TrimLeft(s: string): (r: string)
    ensures |r| <= |s| && r == s[|s| - |r|..]
    ensures r == [] || !IsSpace(r[0])
    ensures forall i :: 0 <= i < |s| - |r| ==> IsSpace(s[i])
    decreases |s|
  {
    if s != [] && IsSpace(s[0]) then TrimLeft(s[1..]) else s
  }

  /** strings.TrimRightFunc(s, unicode.IsSpace): drops the trailing white space. */
  function TrimRight(s: string): (r: string)
    ensures |r| <= |s| && r == s[..|r|]
    ensures r == [] || !IsSpace(r[|r| - 1])
    ensures forall i :: |r| <= i < |s| ==> IsSpace(s[i])
    decreases |s|
  {
    if s != [] && IsSpace(s[|s| - 1]) then TrimRight(s[..|s| - 1]) else s
  }

  /**
   * strings.TrimSpace: `s` without its leading and trailing white space.
   * A string that is already trimmed is returned unchanged.
   */
  function TrimSpace(s: string): (r: string)
    ensures Trimmed(r)
    ensures Trimmed(s) ==> r == s
  {
    var l := TrimLeft(s);
    var r := TrimRight(l);
    assert r != [] ==> r[0] == l[0];
    r
  }

  /** Every non-white character of `s` survives TrimSpace, in a block taken out of `s` whose surroundings are white. */
  lemma TrimSpaceCore(s: string) returns (k: nat)
    ensures k + |TrimSpace(s)| <= |s| && TrimSpace(s) == s[k..k + |TrimSpace(s)|]
    ensures forall i :: 0 <= i < k ==> IsSpace(s[i])
    ensures forall i :: k + |TrimSpace(s)| <= i < |s| ==> IsSpace(s[i])
  {
    var l := TrimLeft(s);
    var r := TrimRight(l);
    k := |s| - |l|;
    assert TrimSpace(s) == r;
    InnerBlock(s, l, r, k);
  }

  /**
   * A prefix `r` of the suffix `l` of `s` that starts at `k` is the block of
   * `s` at `k`, and white space after `r` in `l` is white space after the block.
   */
  lemma InnerBlock(s: string, l: string, r: string, k: nat)
    requires k <= |s| && l == s[k..] && |r| <= |l| && r == l[..|r|]
    requires forall i :: |r| <= i < |l| ==> IsSpace(l[i])
    ensures k + |r| <= |s| && r == s[k..k + |r|]
    ensures forall i :: k + |r| <= i < |s| ==> IsSpace(s[i])
  {
    forall i | k + |r| <= i < |s| ensures IsSpace(s[i]) {
      assert s[i] == l[i - k];
    }
  }
}
