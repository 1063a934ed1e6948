/** The small part of the Java runtime that the realm and the userinfo client lean on:
    nullable references, thrown exceptions, 32-bit integers and the String methods
    indexOf, lastIndexOf, substring and split, plus the space Joiner. */
module Java {

  /** A Java reference that may be null: None stands for null. */
  datatype Option<+T> = None | Some(value: T)

  /** A value, or the exception thrown instead of producing it. */
  datatype Result<+T, +E> = Success(value: T) | Failure(error: E)

  /** The exceptions the modelled code can raise, by kind. */
  datatype Exception =
    | NullPointer                     // NullPointerException, also Preconditions.checkNotNull
    | IllegalArgument                 // IllegalArgumentException, also Preconditions.checkArgument
    | StringIndexOutOfBounds
    | ArrayIndexOutOfBounds
    | ClassCast
    | UnsupportedOperation(message: string)
    | Runtime(message: string)

  /** java.lang.Integer values. */
  newtype Int32 = x: int | -0x8000_0000 <= x < 0x8000_0000

  /** String.isNullOrEmpty of the HTTP client library. */
  predicate IsNullOrEmpty(s: Option<string>) {
    s.None? || s.value == ""
  }

  /** s.indexOf(c): the first position of c in s, or -1. */
  function IndexOf(s: string, c: char): (r: int)
    ensures -1 <= r < |s|
    ensures r == -1 <==> c !in s
    ensures r >= 0 ==> s[r] == c && c !in s[..r]
  {
    if |s| == 0 then -1
    else if s[0] == c then 0
    else
      var k := IndexOf(s[1..], c);
      assert s[1..][..if k < 0 then 0 else k] == s[1..1 + (if k < 0 then 0 else k)];
      if k < 0 then -1 else k + 1
  }

  /** s.lastIndexOf(c): the last position of c in s, or -1. */
  function LastIndexOf(s: string, c: char): (r: int)
    ensures -1 <= r < |s|
    ensures r == -1 <==> c !in s
    ensures r >= 0 ==> s[r] == c && forall j | r < j < |s| :: s[j] != c
  {
    assert s[..|s|] == s;
    LastIndexBelow(s, c, |s|)
  }

  /** The last position of c among the first n characters of s, or -1. */
  function LastIndexBelow(s: string, c: char, n: nat): (r: int)
    requires n <= |s|
    ensures -1 <= r < n
    ensures r == -1 <==> c !in s[..n]
    ensures r >= 0 ==> s[r] == c && forall j | r < j < n :: s[j] != c
  {
    if n == 0 then -1
    else if s[n - 1] == c then n - 1
    else
      assert s[..n] == s[..n - 1] + [s[n - 1]];
      LastIndexBelow(s, c, n - 1)
  }

  /** s.substring(begin, end): fails unless 0 <= begin <= end <= s.length(). */
  function Substring(s: string, begin: int, end: int): (r: Result<string, Exception>)
    ensures r.Success? <==> 0 <= begin <= end <= |s|
    ensures r.Success? ==> |r.value| == end - begin && r.value == s[begin..end]
    ensures r.Failure? ==> r.error == StringIndexOutOfBounds
  {
    if 0 <= begin <= end <= |s| then Success(s[begin..end]) else Failure(StringIndexOutOfBounds)
  }

  /** Every segment of s between occurrences of c, in order (s.split with a negative limit). */
  function Pieces(s: string, c: char): (r: seq<string>)
    ensures |r| >= 1
    decreases |s|
  {
    var i := IndexOf(s, c);
    if i < 0 then [s] else [s[..i]] + Pieces(s[i + 1..], c)
  }

  /** xs without its trailing empty strings. */
  function DropTrailingEmpty(xs: seq<string>): (r: seq<string>)
    ensures |r| <= |xs| && r == xs[..|r|]
    ensures r == [] || r[|r| - 1] != ""
    ensures forall k | |r| <= k < |xs| :: xs[k] == ""
  {
    if |xs| > 0 && xs[|xs| - 1] == "" then DropTrailingEmpty(xs[..|xs| - 1]) else xs
  }

  /** s.split(String.valueOf(c)) for a separator that is not a regular-expression
      metacharacter: a string without c is returned whole (so "" yields [""]);
      otherwise the pieces, with trailing empty pieces removed. */
  function Split(s: string, c: char): (r: seq<string>)
    ensures c !in s ==> r == [s]
    ensures c in s ==> r == [] || r[|r| - 1] != ""
    ensures forall p | p in r :: c !in p
  {
    if c !in s then [s]
    else
      var ps := Pieces(s, c);
      PiecesAvoidSeparator(s, c);
      DropTrailingEmpty(ps)
  }

  /** No piece contains the separator. */
  lemma {:induction false} PiecesAvoidSeparator(s: string, c: char)
    ensures forall p | p in Pieces(s, c) :: c !in p
    decreases |s|
  {
    var i := IndexOf(s, c);
    if i >= 0 {
      PiecesAvoidSeparator(s[i + 1..], c);
      assert Pieces(s, c) == [s[..i]] + Pieces(s[i + 1..], c);
    }
  }

  /** Joiner.on(sep).join(parts): the parts in order, one sep between neighbours. */
  function Join(parts: seq<string>, sep: char): (r: string)
    ensures |parts| == 0 ==> r == ""
    ensures |parts| > 0 ==> |r| >= |parts| - 1
    ensures |parts| > 0 ==> |parts[0]| <= |r| && r[..|parts[0]|] == parts[0]
  {
    if |parts| == 0 then ""
    else if |parts| == 1 then parts[0]
    else parts[0] + [sep] + Join(parts[1..], sep)
  }

  /** Splitting a join on its separator gives back the parts, provided none of them
      contains the separator: join and the full split are inverse. */
  lemma {:induction false} PiecesOfJoin(parts: seq<string>, sep: char)
    requires |parts| > 0
    requires forall k | 0 <= k < |parts| :: sep !in parts[k]
    ensures Pieces(Join(parts, sep), sep) == parts
  {
    if |parts| > 1 {
      var s := Join(parts, sep);
      var p0 := parts[0];
      assert s == p0 + [sep] + Join(parts[1..], sep);
      var i := IndexOf(s, sep);
      assert s[|p0|] == sep;
      assert s[..|p0|] == p0;
      assert i == |p0|;
      assert s[i + 1..] == Join(parts[1..], sep);
      PiecesOfJoin(parts[1..], sep);
    }
  }
}
