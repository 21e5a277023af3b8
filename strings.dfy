/** The parts of Go's `strings` package that the proxy relies on, over
    `string` (that is, `seq<char>`). Go works on bytes; for valid UTF-8
    every operation here only compares, cuts and concatenates, so a
    sequence of characters gives the same answers. Strings that are not
    valid UTF-8 (a decoded URL path, the contents of a file) have no
    counterpart here. */
module Strings {

  /** `strings.HasPrefix` */
  predicate HasPrefix(s: string, p: string) {
    |p| <= |s| && s[..|p|] == p
  }

  /** `strings.TrimPrefix`: drops `p` from the front of `s` when it is there. */
  function TrimPrefix(s: string, p: string): (r: string)
    ensures HasPrefix(s, p) ==> p + r == s
    ensures !HasPrefix(s, p) ==> r == s
  {
    if HasPrefix(s, p) then s[|p|..] else s
  }

  /** `sep` occurs in `s` starting at index `i`. */
  predicate OccursAt(s: string, sep: string, i: int) {
    0 <= i && i + |sep| <= |s| && s[i..i + |sep|] == sep
  }

  /** First occurrence of `sep` in `s` at or after `from`, or -1. */
  function IndexFrom(s: string, sep: string, from: nat): (r: int)
    requires from <= |s|
    ensures r == -1 || (from <= r <= |s| && OccursAt(s, sep, r))
    ensures r == -1 ==> forall j | from <= j <= |s| :: !OccursAt(s, sep, j)
    ensures r != -1 ==> forall j | from <= j < r :: !OccursAt(s, sep, j)
    decreases |s| - from
  {
    if OccursAt(s, sep, from) then from
    else if from == |s| then -1
    else IndexFrom(s, sep, from + 1)
  }

  /** `strings.Index`: the first occurrence of `sep` in `s`, or -1
      (the empty separator occurs at 0). */
  function Index(s: string, sep: string): (r: int)
    ensures r == -1 || (0 <= r <= |s| && OccursAt(s, sep, r))
    ensures r == -1 <==> forall j | 0 <= j <= |s| :: !OccursAt(s, sep, j)
    ensures r != -1 ==> forall j | 0 <= j < r :: !OccursAt(s, sep, j)
  {
    IndexFrom(s, sep, 0)
  }

  /** `strings.Contains` */
  predicate Contains(s: string, sep: string) {
    Index(s, sep) != -1
  }

  datatype CutResult = CutResult(before: string, after: string, found: bool)

  /** `strings.Cut`: splits `s` around the FIRST occurrence of `sep`. */
  function Cut(s: string, sep: string): (r: CutResult)
    ensures r.found <==> Contains(s, sep)
    ensures r.found ==> r.before + sep + r.after == s
    ensures r.found ==> forall j | 0 <= j < |r.before| :: !OccursAt(s, sep, j)
    ensures !r.found ==> r.before == s && r.after == ""
    ensures r.found && |sep| > 0 ==> !Contains(r.before, sep)
  {
    var i := Index(s, sep);
    if i == -1 then CutResult(s, "", false)
    else
      assert s == s[..i] + s[i..i + |sep|] + s[i + |sep|..];
      var before := s[..i];
      OccursInPrefix(s, sep, i);
      CutResult(before, s[i + |sep|..], true)
  }

  /** An occurrence in a prefix of `s` is an occurrence in `s`. */
  lemma OccursInPrefix(s: string, sep: string, i: nat)
    requires i <= |s|
    ensures forall j | OccursAt(s[..i], sep, j) :: OccursAt(s, sep, j)
  {
  }

  /** `strings.Join` */
  function Join(elems: seq<string>, sep: string): (r: string)
    ensures |elems| == 0 ==> r == ""
    ensures |elems| == 1 ==> r == elems[0]
    decreases |elems|
  {
    if |elems| == 0 then ""
    else if |elems| == 1 then elems[0]
    else elems[0] + sep + Join(elems[1..], sep)
  }

  /** Joining one more element appends the separator and that element. */
  lemma {:induction false} JoinSnoc(elems: seq<string>, x: string, sep: string)
    requires |elems| > 0
    ensures Join(elems + [x], sep) == Join(elems, sep) + sep + x
    decreases |elems|
  {
    if |elems| == 1 {
      assert elems + [x] == [elems[0], x];
      assert ([elems[0], x])[1..] == [x];
    } else {
      assert (elems + [x])[1..] == elems[1..] + [x];
      JoinSnoc(elems[1..], x, sep);
    }
  }

  /** The characters Go's `unicode.IsSpace` accepts. */
  predicate IsSpace(c: char) {
    c == ' ' || c == '\t' || c == '\n' || c == '\U{0B}' || c == '\U{0C}' || c == '\r'
    || c == '\U{85}' || c == '\U{A0}' || c == '\U{1680}'
    || ('\U{2000}' <= c <= '\U{200A}')
    || c == '\U{2028}' || c == '\U{2029}' || c == '\U{202F}' || c == '\U{205F}' || c == '\U{3000}'
  }

  /** Drops the leading white space. */
  function TrimLeftSpace(s: string): (r: string)
    ensures |r| <= |s| && r == s[|s| - |r|..]
    ensures r == [] || !IsSpace(r[0])
    ensures forall i | 0 <= i < |s| - |r| :: IsSpace(s[i])
    decreases |s|
  {
    if |s| > 0 && IsSpace(s[0]) then TrimLeftSpace(s[1..]) else s
  }

  /** Drops the trailing white space. */
  function TrimRightSpace(s: string): (r: string)
    ensures |r| <= |s| && r == s[..|r|]
    ensures r == [] || !IsSpace(r[|r| - 1])
    ensures forall i | |r| <= i < |s| :: IsSpace(s[i])
    decreases |s|
  {
    if |s| > 0 && IsSpace(s[|s| - 1]) then TrimRightSpace(s[..|s| - 1]) else s
  }

  /** `r` is the infix of `s` at `i`, and everything around it is white space. */
  predicate SpaceFramed(s: string, i: int, r: string) {
    0 <= i <= |s| - |r| && r == s[i..i + |r|]
    && (forall k | 0 <= k < i :: IsSpace(s[k]))
    && (forall k | i + |r| <= k < |s| :: IsSpace(s[k]))
  }

  /** `strings.TrimSpace`: `s` without leading and trailing white space. */
  function TrimSpace(s: string): (r: string)
    ensures exists i :: SpaceFramed(s, i, r)
    ensures r == [] || (!IsSpace(r[0]) && !IsSpace(r[|r| - 1]))
  {
    var left := TrimLeftSpace(s);
    var r := TrimRightSpace(left);
    var i := |s| - |left|;
    assert SpaceFramed(s, i, r);
    r
  }
}
