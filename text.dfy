/** The few Python string operations the client relies on, on `seq<char>`. */
module Text {
  import opened Wrappers

  /** `s.startswith(prefix)` */
  predicate StartsWith(s: string, prefix: string) {
    |prefix| <= |s| && s[..|prefix|] == prefix
  }

  /** `s.endswith(suffix)` */
  predicate EndsWith(s: string, suffix: string) {
    |suffix| <= |s| && s[|s| - |suffix|..] == suffix
  }

  /** `needle in s` */
  predicate Contains(s: string, needle: string)
    decreases |s|
  {
    StartsWith(s, needle) || (|s| > 0 && Contains(s[1..], needle))
  }

  /** `s.find(sep)`: the index of the first occurrence of `sep`, if any. */
  function IndexOf(s: string, sep: string): (r: Option<nat>)
    ensures r.Some? ==> r.value + |sep| <= |s| && s[r.value..r.value + |sep|] == sep
    ensures r.Some? ==> forall j :: 0 <= j < r.value ==> !StartsWith(s[j..], sep)
    ensures r.None? <==> !Contains(s, sep)
    decreases |s|
  {
    if StartsWith(s, sep) then Some(0)
    else if |s| == 0 then None
    else
      match IndexOf(s[1..], sep)
      case None => None
      case Some(i) =>
        assert forall j :: 1 <= j <= i ==> s[1..][j - 1..] == s[j..];
        Some(i + 1)
  }

  /** `s.split(sep)` for a non-empty separator. */
  function Split(s: string, sep: string): (parts: seq<string>)
    requires |sep| > 0
    ensures |parts| >= 1
    decreases |s|
  {
    match IndexOf(s, sep)
    case None => [s]
    case Some(i) => [s[..i]] + Split(s[i + |sep|..], sep)
  }

  /** `s.split(sep, 1)`, as the pair of pieces when `sep` occurs. */
  function SplitOnce(s: string, sep: string): (r: Option<(string, string)>)
    requires |sep| > 0
    ensures r.Some? <==> Contains(s, sep)
    ensures r.Some? ==> s == r.value.0 + sep + r.value.1 && !Contains(r.value.0, sep)
  {
    match IndexOf(s, sep)
    case None => None
    case Some(i) =>
      assert s == s[..i] + sep + s[i + |sep|..];
      NoEarlierOccurrence(s, sep, i);
      Some((s[..i], s[i + |sep|..]))
  }

  /** `s.replace(target, replacement)`: every non-overlapping occurrence, left to right. */
  function ReplaceAll(s: string, target: string, replacement: string): string
    requires |target| > 0
    decreases |s|
  {
    if |s| == 0 then ""
    else if StartsWith(s, target) then replacement + ReplaceAll(s[|target|..], target, replacement)
    else [s[0]] + ReplaceAll(s[1..], target, replacement)
  }

  /** `c.upper()` on the ASCII letters. */
  function UpperChar(c: char): char {
    if 'a' <= c <= 'z' then (c as int - 32) as char else c
  }

  /** `s.upper()` on ASCII text. */
  function Upper(s: string): (r: string)
    ensures |r| == |s|
    ensures forall i :: 0 <= i < |s| ==> r[i] == UpperChar(s[i])
  {
    seq(|s|, i requires 0 <= i < |s| => UpperChar(s[i]))
  }

  /** No character of `s` is `c`. */
  predicate Avoids(s: string, c: char) {
    forall k :: 0 <= k < |s| ==> s[k] != c
  }

  lemma NoEarlierOccurrence(s: string, sep: string, i: nat)
    requires |sep| > 0 && i <= |s|
    requires forall j :: 0 <= j < i ==> !StartsWith(s[j..], sep)
    requires i + |sep| <= |s|
    ensures !Contains(s[..i], sep)
  {
    PrefixesAvoid(s, sep, i, 0);
    assert s[0..i] == s[..i];
  }

  lemma {:induction false} PrefixesAvoid(s: string, sep: string, i: nat, j: nat)
    requires |sep| > 0 && j <= i <= |s|
    requires forall k :: 0 <= k < i ==> !StartsWith(s[k..], sep)
    ensures !Contains(s[j..i], sep)
    decreases i - j
  {
    if j < i {
      assert s[j..i][1..] == s[j + 1..i];
      assert !StartsWith(s[j..], sep);
      PrefixesAvoid(s, sep, i, j + 1);
    }
  }

  /** When the first character of `sep` never occurs in `a`, the first `sep` of `a + sep + b` is right after `a`. */
  lemma {:induction false} IndexOfAfter(a: string, sep: string, b: string)
    requires |sep| > 0 && Avoids(a, sep[0])
    ensures IndexOf(a + sep + b, sep) == Some(|a|)
  {
    var s := a + sep + b;
    if |a| == 0 {
      assert s == sep + b;
      assert s[..|sep|] == sep;
    } else {
      assert s[0] == a[0];
      assert !StartsWith(s, sep);
      assert s[1..] == a[1..] + sep + b;
      IndexOfAfter(a[1..], sep, b);
    }
  }

  /** A string that a character-disjoint needle cannot start in does not contain it. */
  lemma {:induction false} AvoidsNotContains(s: string, needle: string)
    requires |needle| > 0 && Avoids(s, needle[0])
    ensures !Contains(s, needle)
    decreases |s|
  {
    if |s| > 0 {
      assert s[0] != needle[0];
      AvoidsNotContains(s[1..], needle);
    }
  }

  /** Replacing a needle that does not occur leaves the text unchanged. */
  lemma {:induction false} ReplaceAbsent(s: string, target: string, replacement: string)
    requires |target| > 0 && !Contains(s, target)
    ensures ReplaceAll(s, target, replacement) == s
    decreases |s|
  {
    if |s| > 0 {
      ReplaceAbsent(s[1..], target, replacement);
      assert s == [s[0]] + s[1..];
    }
  }

  /** The first piece of a split is the text before the first separator, or all of it. */
  lemma {:induction false} SplitHead(s: string, sep: string)
    requires |sep| > 0
    ensures Split(s, sep)[0] == match IndexOf(s, sep) case None => s case Some(i) => s[..i]
  {
  }

  /** The first piece of a split never holds the separator. */
  lemma {:induction false} FirstPieceAvoids(s: string, sep: string)
    requires |sep| > 0
    ensures !Contains(Split(s, sep)[0], sep)
  {
    SplitHead(s, sep);
    match IndexOf(s, sep)
    case None =>
    case Some(i) =>
      PrefixesAvoid(s, sep, i, 0);
      assert s[0..i] == s[..i];
  }

  /** One step of a split whose first separator is at `i`. */
  lemma {:induction false} SplitStep(s: string, sep: string, i: nat)
    requires |sep| > 0 && IndexOf(s, sep) == Some(i)
    ensures Split(s, sep) == [s[..i]] + Split(s[i + |sep|..], sep)
  {
  }

  /** The second piece of a split is the first piece of what follows the first separator. */
  lemma {:induction false} SplitSecond(s: string, sep: string, i: nat)
    requires |sep| > 0 && IndexOf(s, sep) == Some(i)
    ensures |Split(s, sep)| >= 2 && Split(s, sep)[1] == Split(s[i + |sep|..], sep)[0]
  {
    SplitStep(s, sep, i);
    var rest := Split(s[i + |sep|..], sep);
    assert ([s[..i]] + rest)[1] == rest[0];
  }
}
