/**
 * The three string operations the interface tools rely on:
 * `Array#join`, `String#downcase` and `String#sub(/.+:/, '')`.
 */
module Text {

  // ---------------------------------------------------------------------------
  // Array#join

  /** Sum of the lengths of the parts. */
  function TotalLength(parts: seq<string>): nat
  {
    if parts == [] then 0 else |parts[0]| + TotalLength(parts[1..])
  }

  /** Where part `i` starts in `Join(parts, sep)`: each earlier part with the separator after it. */
  function PartOffset(parts: seq<string>, sep: string, i: nat): nat
    requires i <= |parts|
  {
    if i == 0 then 0 else |parts[0]| + |sep| + PartOffset(parts[1..], sep, i - 1)
  }

  /** `parts.join(sep)`: the parts in order, with `sep` between each consecutive pair. */
  function Join(parts: seq<string>, sep: string): (r: string)
    ensures |parts| == 0 ==> r == ""
    ensures |parts| > 0 ==> |r| == TotalLength(parts) + (|parts| - 1) * |sep|
  {
    if |parts| == 0 then ""
    else if |parts| == 1 then parts[0]
    else parts[0] + sep + Join(parts[1..], sep)
  }

  /**
   * Every part appears in the joined string at its offset: the joined string
   * lists the parts in their given order.
   */
  lemma {:induction false} JoinPlacesPart(parts: seq<string>, sep: string, i: nat)
    requires i < |parts|
    ensures PartOffset(parts, sep, i) + |parts[i]| <= |Join(parts, sep)|
    ensures Join(parts, sep)[PartOffset(parts, sep, i)..PartOffset(parts, sep, i) + |parts[i]|] == parts[i]
  {
    if |parts| > 1 {
      var j, rest := Join(parts, sep), parts[1..];
      var tail, lead := Join(rest, sep), |parts[0]| + |sep|;
      assert j == parts[0] + sep + tail;
      if i == 0 {
        assert j[..|parts[0]|] == parts[0];
      } else {
        JoinPlacesPart(rest, sep, i - 1);
        var off := PartOffset(rest, sep, i - 1);
        assert rest[i - 1] == parts[i];
        assert j[lead + off..lead + off + |parts[i]|] == tail[off..off + |parts[i]|];
      }
    }
  }

  /** Between each part and the next, the joined string holds the separator. */
  lemma {:induction false} JoinPlacesSeparator(parts: seq<string>, sep: string, i: nat)
    requires i + 1 < |parts|
    ensures PartOffset(parts, sep, i) + |parts[i]| + |sep| == PartOffset(parts, sep, i + 1)
    ensures PartOffset(parts, sep, i + 1) <= |Join(parts, sep)|
    ensures Join(parts, sep)[PartOffset(parts, sep, i) + |parts[i]|..PartOffset(parts, sep, i + 1)] == sep
  {
    var j, rest := Join(parts, sep), parts[1..];
    var tail, lead := Join(rest, sep), |parts[0]| + |sep|;
    assert j == parts[0] + sep + tail;
    if i == 0 {
      assert j[|parts[0]|..lead] == sep;
    } else {
      JoinPlacesSeparator(rest, sep, i - 1);
      var e := PartOffset(rest, sep, i - 1) + |parts[i]|;
      assert rest[i - 1] == parts[i];
      assert j[lead + e..lead + e + |sep|] == tail[e..e + |sep|];
    }
  }

  // ---------------------------------------------------------------------------
  // String#downcase (ASCII letters only, as in Ruby 1.8)

  function LowerChar(c: char): char
  {
    if 'A' <= c <= 'Z' then (c as int + 32) as char else c
  }

  predicate IsUpper(c: char)
  {
    'A' <= c <= 'Z'
  }

  /** `s.downcase`: every ASCII capital replaced by its small letter, everything else kept. */
  function ToLower(s: string): (r: string)
    ensures |r| == |s|
    ensures forall i :: 0 <= i < |s| ==> r[i] == LowerChar(s[i])
  {
    if s == [] then [] else [LowerChar(s[0])] + ToLower(s[1..])
  }

  /** A downcased string has no capitals left, and downcasing it again changes nothing. */
  lemma ToLowerIsLower(s: string)
    ensures forall i :: 0 <= i < |s| ==> !IsUpper(ToLower(s)[i])
    ensures ToLower(ToLower(s)) == ToLower(s)
  {
  }

  // ---------------------------------------------------------------------------
  // String#sub(/.+:/, '')

  /**
   * Greedy end of a match of `.+:` that starts at `start`, scanning from `k`:
   * the last ':' after `start` that comes before the next line break
   * (`.` does not match a line break). `found` is the best end seen so far.
   */
  function LastColonBeforeBreak(s: string, start: nat, k: nat, found: int): (j: int)
    requires start <= k <= |s|
    ensures j == found || (start < j < |s| && s[j] == ':')
    decreases |s| - k
  {
    if k == |s| || s[k] == '\n' then found
    else LastColonBeforeBreak(s, start, k + 1, if s[k] == ':' && k > start then k else found)
  }

  /** Leftmost match of `.+:` at or after `i`, removed; `s` itself when there is none. */
  function SubFrom(s: string, i: nat): (r: string)
    requires i <= |s|
    ensures r == s || |r| + 2 <= |s|
    decreases |s| - i
  {
    if i == |s| then s
    else
      var j := LastColonBeforeBreak(s, i, i, -1);
      if j >= 0 then s[..i] + s[j + 1..] else SubFrom(s, i + 1)
  }

  /** `s.sub(/.+:/, '')`: the first match of one or more characters followed by ':', removed. */
  function StripThroughColon(s: string): (r: string)
    ensures r == s || |r| + 2 <= |s|
  {
    SubFrom(s, 0)
  }

  lemma {:induction false} ScanFindsNothing(s: string, start: nat, k: nat, found: int)
    requires start <= k <= |s|
    requires forall m :: k <= m < |s| && start < m ==> s[m] != ':'
    ensures LastColonBeforeBreak(s, start, k, found) == found
    decreases |s| - k
  {
    if k < |s| && s[k] != '\n' {
      ScanFindsNothing(s, start, k + 1, found);
    }
  }

  lemma {:induction false} ScanFindsLastColon(s: string, start: nat, k: nat, found: int, j: nat)
    requires start <= k <= j < |s| && start < j
    requires s[j] == ':'
    requires forall m :: j < m < |s| ==> s[m] != ':'
    requires forall m :: k <= m < |s| ==> s[m] != '\n'
    ensures LastColonBeforeBreak(s, start, k, found) == j
    decreases |s| - k
  {
    if k == j {
      ScanFindsNothing(s, start, k + 1, j);
    } else {
      ScanFindsLastColon(s, start, k + 1, if s[k] == ':' && k > start then k else found, j);
    }
  }

  /**
   * On a string without line breaks whose last ':' is at `j >= 1`, the
   * substitution keeps exactly what follows that ':'.
   */
  lemma StripRemovesThroughLastColon(s: string, j: nat)
    requires forall m :: 0 <= m < |s| ==> s[m] != '\n'
    requires 1 <= j < |s| && s[j] == ':'
    requires forall m :: j < m < |s| ==> s[m] != ':'
    ensures StripThroughColon(s) == s[j + 1..]
  {
    ScanFindsLastColon(s, 0, 0, -1, j);
    assert s[..0] + s[j + 1..] == s[j + 1..];
  }

  lemma {:induction false} SubFromNoMatch(s: string, i: nat)
    requires i <= |s|
    requires forall m :: 1 <= m < |s| ==> s[m] != ':'
    ensures SubFrom(s, i) == s
    decreases |s| - i
  {
    if i < |s| {
      ScanFindsNothing(s, i, i, -1);
      SubFromNoMatch(s, i + 1);
    }
  }

  /** With no ':' after the first character there is no match, and nothing is removed. */
  lemma StripKeepsUnqualified(s: string)
    requires forall m :: 1 <= m < |s| ==> s[m] != ':'
    ensures StripThroughColon(s) == s
  {
    SubFromNoMatch(s, 0);
  }
}
