/** The two regular-expression searches the scripts run, as `re.search` performs them:
    the match attempt at each position, left to right, and the first group of the
    leftmost match.
      - `(\d+)\s+bytes_i` and `(\d+)\s+bytes_o` on `ipsec statusall` output;
      - `rtt [^=]+= [\d.]+/([\d.]+)/` on `ping` output.
    Each attempt is written the way the matcher's greedy, backtracking evaluation ends
    up behaving, and a lemma shows that it finds a match exactly when the pattern's
    declarative reading allows one. */
module Patterns {
  import opened PyText
  import opened Tools

  /** The end of the run of characters satisfying `p` that starts at `i`. */
  function RunEnd(s: string, i: nat, p: char -> bool): (j: nat)
    requires i <= |s|
    ensures i <= j <= |s|
    ensures forall k :: i <= k < j ==> p(s[k])
    ensures j == |s| || !p(s[j])
    decreases |s| - i
  {
    if i < |s| && p(s[i]) then RunEnd(s, i + 1, p) else i
  }

  // ---------------------------------------------------------------------------
  // (\d+)\s+<tag>

  /** `(\d+)\s+<tag>` matches at `i`, with its digits `s[i..m]` and its whitespace `s[m..n]`. */
  ghost predicate DigitsTagSpan(s: string, tag: string, i: nat, m: nat, n: nat) {
    i < m < n && n + |tag| <= |s| && AllDigits(s[i..m]) && AllSpace(s[m..n])
    && s[n..n + |tag|] == tag
  }

  ghost predicate DigitsTagMatches(s: string, tag: string, i: nat) {
    exists m: nat, n: nat :: DigitsTagSpan(s, tag, i, m, n)
  }

  /** The match attempt at `i`: all the digits, then all the whitespace, then the tag;
      the result is the digit group. */
  function DigitsTagAt(s: string, tag: string, i: nat): Option<string>
    requires i <= |s|
  {
    var m := RunEnd(s, i, IsDigit);
    var n := RunEnd(s, m, IsSpace);
    if i < m < n && n + |tag| <= |s| && s[n..n + |tag|] == tag then Some(s[i..m]) else None
  }

  /** The attempt at `i` succeeds exactly when the pattern matches there, and then its
      group is the digits of that match (the only one there is, when the tag does not
      start with whitespace). */
  lemma DigitsTagAtMatches(s: string, tag: string, i: nat)
    requires i <= |s|
    requires tag != [] && !IsSpace(tag[0])
    ensures DigitsTagAt(s, tag, i).Some? <==> DigitsTagMatches(s, tag, i)
    ensures forall m: nat, n: nat :: DigitsTagSpan(s, tag, i, m, n) ==>
      DigitsTagAt(s, tag, i) == Some(s[i..m])
  {
    var m := RunEnd(s, i, IsDigit);
    var n := RunEnd(s, m, IsSpace);
    if DigitsTagAt(s, tag, i).Some? {
      assert DigitsTagSpan(s, tag, i, m, n);
    }
    forall m': nat, n': nat | DigitsTagSpan(s, tag, i, m', n')
      ensures DigitsTagAt(s, tag, i) == Some(s[i..m'])
    {
      assert forall k :: i <= k < m' ==> IsDigit(s[k]) by {
        forall k | i <= k < m' ensures IsDigit(s[k]) {
          assert s[i..m'][k - i] == s[k];
        }
      }
      assert IsSpace(s[m']) by {
        assert s[m'..n'][0] == s[m'];
      }
      assert m' == m;
      assert forall k :: m <= k < n' ==> IsSpace(s[k]) by {
        forall k | m <= k < n' ensures IsSpace(s[k]) {
          assert s[m..n'][k - m] == s[k];
        }
      }
      assert !IsSpace(s[n']) by {
        assert s[n'..n' + |tag|][0] == s[n'];
      }
      assert n' == n;
    }
  }

  /** `re.search`: the attempt at the leftmost position from `from` on that succeeds. */
  function SearchDigitsTag(s: string, tag: string, from: nat): (r: Option<string>)
    requires from <= |s|
    ensures r.None? ==> forall k :: from <= k <= |s| ==> DigitsTagAt(s, tag, k).None?
    ensures r.Some? ==> exists k :: (from <= k <= |s| && DigitsTagAt(s, tag, k) == r
      && forall k' :: from <= k' < k ==> DigitsTagAt(s, tag, k').None?)
    decreases |s| - from
  {
    var here := DigitsTagAt(s, tag, from);
    if here.Some? || from == |s| then here else SearchDigitsTag(s, tag, from + 1)
  }

  /** `re.search(r'(\d+)\s+' + tag, s).group(1)`, or `None` when there is no match. */
  function FirstDigitsBefore(s: string, tag: string): Option<string>
  {
    SearchDigitsTag(s, tag, 0)
  }

  /** The search finds nothing exactly when the pattern matches nowhere; otherwise it
      returns the digits of the leftmost match. */
  lemma FirstDigitsBeforeIsLeftmost(s: string, tag: string)
    requires tag != [] && !IsSpace(tag[0])
    ensures FirstDigitsBefore(s, tag).None? <==>
      forall i :: 0 <= i <= |s| ==> !DigitsTagMatches(s, tag, i)
    ensures FirstDigitsBefore(s, tag).Some? ==>
      exists i: nat, m: nat, n: nat :: DigitsTagSpan(s, tag, i, m, n)
        && FirstDigitsBefore(s, tag) == Some(s[i..m])
        && forall k :: 0 <= k < i ==> !DigitsTagMatches(s, tag, k)
  {
    if FirstDigitsBefore(s, tag).None? {
      DigitsTagNowhere(s, tag);
    } else {
      var i :| 0 <= i <= |s| && DigitsTagAt(s, tag, i) == FirstDigitsBefore(s, tag)
        && forall k' :: 0 <= k' < i ==> DigitsTagAt(s, tag, k').None?;
      DigitsTagFirst(s, tag, i);
      var m: nat, n: nat :|
        DigitsTagSpan(s, tag, i, m, n) && DigitsTagAt(s, tag, i) == Some(s[i..m]);
      assert DigitsTagSpan(s, tag, i, m, n) && FirstDigitsBefore(s, tag) == Some(s[i..m]);
      assert DigitsTagMatches(s, tag, i);
    }
  }

  /** No attempt succeeds, so the pattern matches nowhere. */
  lemma DigitsTagNowhere(s: string, tag: string)
    requires tag != [] && !IsSpace(tag[0])
    requires forall k :: 0 <= k <= |s| ==> DigitsTagAt(s, tag, k).None?
    ensures forall i :: 0 <= i <= |s| ==> !DigitsTagMatches(s, tag, i)
  {
    forall i | 0 <= i <= |s| ensures !DigitsTagMatches(s, tag, i) {
      DigitsTagAtMatches(s, tag, i);
    }
  }

  /** The first attempt that succeeds is the leftmost match. */
  lemma DigitsTagFirst(s: string, tag: string, i: nat)
    requires tag != [] && !IsSpace(tag[0])
    requires i <= |s| && DigitsTagAt(s, tag, i).Some?
    requires forall k' :: 0 <= k' < i ==> DigitsTagAt(s, tag, k').None?
    ensures exists m: nat, n: nat ::
      DigitsTagSpan(s, tag, i, m, n) && DigitsTagAt(s, tag, i) == Some(s[i..m])
    ensures forall k :: 0 <= k < i ==> !DigitsTagMatches(s, tag, k)
  {
    DigitsTagAtMatches(s, tag, i);
    var m: nat, n: nat :| DigitsTagSpan(s, tag, i, m, n);
    forall k | 0 <= k < i ensures !DigitsTagMatches(s, tag, k) {
      DigitsTagAtMatches(s, tag, k);
    }
  }

  /** The number the search returns is a whole run of digits: the leftmost match never
      starts right after another digit. */
  lemma FirstDigitsBeforeWholeRun(s: string, tag: string, i: nat)
    requires i <= |s|
    requires DigitsTagAt(s, tag, i).Some?
    requires forall k :: 0 <= k < i ==> DigitsTagAt(s, tag, k).None?
    ensures i == 0 || !IsDigit(s[i - 1])
  {
    if i > 0 {
      assert DigitsTagAt(s, tag, i - 1).None?;
    }
  }

  // ---------------------------------------------------------------------------
  // rtt [^=]+= [\d.]+/([\d.]+)/

  predicate IsDecimalChar(c: char) {
    IsDigit(c) || c == '.'
  }

  predicate NotEquals(c: char) {
    c != '='
  }

  /** `rtt [^=]+= [\d.]+/([\d.]+)/` matches at `i`: `s[i+4..e]` is the `[^=]+` part, the
      `=` is at `e`, the first number is `s[e+2..p]` and the group is `s[p+1..q]`. */
  ghost predicate RttSpan(s: string, i: nat, e: nat, p: nat, q: nat) {
    i + 4 < e && e + 2 < p && p + 1 < q && q < |s|
    && s[i..i + 4] == "rtt "
    && (forall k :: i + 4 <= k < e ==> s[k] != '=') && s[e] == '=' && s[e + 1] == ' '
    && (forall k :: e + 2 <= k < p ==> IsDecimalChar(s[k])) && s[p] == '/'
    && (forall k :: p + 1 <= k < q ==> IsDecimalChar(s[k])) && s[q] == '/'
  }

  ghost predicate RttMatches(s: string, i: nat) {
    exists e: nat, p: nat, q: nat :: RttSpan(s, i, e, p, q)
  }

  /** The match attempt at `i`; the result is the second number (the average). */
  function RttAt(s: string, i: nat): Option<string>
    requires i <= |s|
  {
    if !(i + 4 <= |s| && s[i..i + 4] == "rtt ") then None
    else
      var e := RunEnd(s, i + 4, NotEquals);
      if !(i + 4 < e && e + 1 < |s| && s[e + 1] == ' ') then None
      else
        var p := RunEnd(s, e + 2, IsDecimalChar);
        if !(e + 2 < p < |s| && s[p] == '/') then None
        else
          var q := RunEnd(s, p + 1, IsDecimalChar);
          if p + 1 < q < |s| && s[q] == '/' then Some(s[p + 1..q]) else None
  }

  /** The attempt at `i` succeeds exactly when the pattern matches there, and its group
      is that of the match. */
  lemma RttAtMatches(s: string, i: nat)
    requires i <= |s|
    ensures RttAt(s, i).Some? <==> RttMatches(s, i)
    ensures forall e: nat, p: nat, q: nat :: RttSpan(s, i, e, p, q) ==> RttAt(s, i) == Some(s[p + 1..q])
  {
    if RttAt(s, i).Some? {
      RttAtSpan(s, i);
    }
    forall e: nat, p: nat, q: nat | RttSpan(s, i, e, p, q)
      ensures RttAt(s, i) == Some(s[p + 1..q])
    {
      RttSpanAt(s, i, e, p, q);
    }
  }

  /** A successful attempt spans a match. */
  lemma RttAtSpan(s: string, i: nat)
    requires i <= |s| && RttAt(s, i).Some?
    ensures RttMatches(s, i)
  {
    var e := RunEnd(s, i + 4, NotEquals);
    var p := RunEnd(s, e + 2, IsDecimalChar);
    var q := RunEnd(s, p + 1, IsDecimalChar);
    assert RttSpan(s, i, e, p, q);
  }

  /** A match is the one the greedy attempt finds. */
  lemma RttSpanAt(s: string, i: nat, e: nat, p: nat, q: nat)
    requires RttSpan(s, i, e, p, q)
    ensures RttAt(s, i) == Some(s[p + 1..q])
  {
    assert e == RunEnd(s, i + 4, NotEquals);
    assert p == RunEnd(s, e + 2, IsDecimalChar);
    assert q == RunEnd(s, p + 1, IsDecimalChar);
  }

  function SearchRtt(s: string, from: nat): (r: Option<string>)
    requires from <= |s|
    ensures r.None? ==> forall k :: from <= k <= |s| ==> RttAt(s, k).None?
    ensures r.Some? ==> exists k :: (from <= k <= |s| && RttAt(s, k) == r
      && forall k' :: from <= k' < k ==> RttAt(s, k').None?)
    decreases |s| - from
  {
    var here := RttAt(s, from);
    if here.Some? || from == |s| then here else SearchRtt(s, from + 1)
  }

  /** `re.search(r'rtt [^=]+= [\d.]+/([\d.]+)/', s).group(1)`, or `None`. */
  function RttAverage(s: string): Option<string>
  {
    SearchRtt(s, 0)
  }

  /** The search finds nothing exactly when the pattern matches nowhere; what it finds
      is made of digits and dots only. */
  lemma RttAverageIsLeftmost(s: string)
    ensures RttAverage(s).None? <==> forall i :: 0 <= i <= |s| ==> !RttMatches(s, i)
    ensures RttAverage(s).Some? ==>
      exists i: nat, e: nat, p: nat, q: nat :: RttSpan(s, i, e, p, q)
        && RttAverage(s) == Some(s[p + 1..q])
        && forall k :: 0 <= k < i ==> !RttMatches(s, k)
  {
    if RttAverage(s).None? {
      RttNowhere(s);
    } else {
      var i :| 0 <= i <= |s| && RttAt(s, i) == RttAverage(s)
        && forall k' :: 0 <= k' < i ==> RttAt(s, k').None?;
      RttFirst(s, i);
      var e: nat, p: nat, q: nat :|
        RttSpan(s, i, e, p, q) && RttAt(s, i) == Some(s[p + 1..q]);
      assert RttSpan(s, i, e, p, q) && RttAverage(s) == Some(s[p + 1..q]);
      assert RttMatches(s, i);
    }
  }

  /** No attempt succeeds, so the pattern matches nowhere. */
  lemma RttNowhere(s: string)
    requires forall k :: 0 <= k <= |s| ==> RttAt(s, k).None?
    ensures forall i :: 0 <= i <= |s| ==> !RttMatches(s, i)
  {
    forall i | 0 <= i <= |s| ensures !RttMatches(s, i) {
      RttAtMatches(s, i);
    }
  }

  /** The first attempt that succeeds is the leftmost match. */
  lemma RttFirst(s: string, i: nat)
    requires i <= |s| && RttAt(s, i).Some?
    requires forall k' :: 0 <= k' < i ==> RttAt(s, k').None?
    ensures exists e: nat, p: nat, q: nat ::
      RttSpan(s, i, e, p, q) && RttAt(s, i) == Some(s[p + 1..q])
    ensures forall k :: 0 <= k < i ==> !RttMatches(s, k)
  {
    RttAtMatches(s, i);
    var e: nat, p: nat, q: nat :| RttSpan(s, i, e, p, q);
    forall k | 0 <= k < i ensures !RttMatches(s, k) {
      RttAtMatches(s, k);
    }
  }
}
