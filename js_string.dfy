/** The two JavaScript string built-ins the client relies on, for a one-character needle. */
module JsString {

  /** `s.indexOf(c)`: the first position of `c` in `s`, or -1 when there is none. */
  function IndexOf(s: string, c: char): (r: int)
    ensures -1 <= r < |s|
    ensures r == -1 <==> c !in s
    ensures 0 <= r ==> s[r] == c && c !in s[..r]
  {
    if |s| == 0 then -1
    else if s[0] == c then 0
    else
      var k := IndexOf(s[1..], c);
      assert s[1..][..if k < 0 then 0 else k] == s[1..if k < 0 then 1 else k + 1];
      if k == -1 then -1 else k + 1
  }

  /** `parts.join(c)` for a non-empty array: the inverse of `Split`. */
  function Join(parts: seq<string>, c: char): string
    requires |parts| >= 1
    decreases |parts|
  {
    if |parts| == 1 then parts[0] else parts[0] + [c] + Join(parts[1..], c)
  }

  /**
   * `s.split(c)`: the maximal `c`-free segments of `s`, in order. There is
   * always at least one segment, and exactly one when `c` does not occur.
   */
  function Split(s: string, c: char): (parts: seq<string>)
    ensures |parts| >= 1
    ensures forall i :: 0 <= i < |parts| ==> c !in parts[i]
    ensures |parts| == 1 <==> c !in s
    ensures Join(parts, c) == s
    decreases |s|
  {
    var k := IndexOf(s, c);
    if k == -1 then [s]
    else
      var rest := Split(s[k + 1..], c);
      assert s == s[..k] + [c] + s[k + 1..];
      [s[..k]] + rest
  }

  /** The text up to the first separator of a joined sequence is its first part. */
  lemma JoinFirst(parts: seq<string>, c: char)
    requires |parts| >= 1
    ensures |parts[0]| <= |Join(parts, c)|
    ensures Join(parts, c)[..|parts[0]|] == parts[0]
    ensures |parts| == 1 ==> Join(parts, c) == parts[0]
    ensures |parts| > 1 ==>
      |parts[0]| < |Join(parts, c)| &&
      Join(parts, c)[|parts[0]|] == c &&
      Join(parts, c)[|parts[0]| + 1..] == Join(parts[1..], c)
  {
    if |parts| > 1 {
      var s := Join(parts, c);
      assert s == parts[0] + [c] + Join(parts[1..], c);
    }
  }

  /** Splitting a join of `c`-free parts gives the parts back. */
  lemma {:induction false} SplitJoin(parts: seq<string>, c: char)
    requires |parts| >= 1
    requires forall i :: 0 <= i < |parts| ==> c !in parts[i]
    ensures Split(Join(parts, c), c) == parts
    decreases |parts|
  {
    var s := Join(parts, c);
    if |parts| == 1 {
      assert s == parts[0];
    } else {
      JoinFirst(parts, c);
      var n := |parts[0]|;
      var k := IndexOf(s, c);
      assert s[..n] == parts[0];
      assert s[n] == c;
      assert forall j :: 0 <= j < n ==> s[j] == parts[0][j];
      assert k == n;
      SplitJoin(parts[1..], c);
      assert Split(s, c) == [s[..k]] + Split(s[k + 1..], c);
      assert parts == [parts[0]] + parts[1..];
    }
  }

  /** A position holding `c` with no `c` before it is the one `IndexOf` finds. */
  lemma IndexOfAt(s: string, c: char, p: int)
    requires 0 <= p < |s| && s[p] == c && c !in s[..p]
    ensures IndexOf(s, c) == p
  {
    var r := IndexOf(s, c);
    assert forall j :: 0 <= j < p ==> s[..p][j] == s[j];
    assert forall j :: 0 <= j < r ==> s[..r][j] == s[j];
  }
}
