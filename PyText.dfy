/** Python's built-in text operations, as the exporter and the push script use them:
    `str.split(sep)`, `sep.join`, `file.readlines()`, `str.split()`, `str.strip()`,
    `str.startswith`, `str.count`, `str.replace` and `str(int)`. */
module PyText {

  /** `c.isspace()`: the characters that `strip()`, `split()` and the regular-expression
      class `\s` all treat as whitespace. */
  predicate IsSpace(c: char) {
    var n := c as int;
    (9 <= n <= 13) || (28 <= n <= 32) || n == 0x85 || n == 0xA0 || n == 0x1680
    || (0x2000 <= n <= 0x200A) || n == 0x2028 || n == 0x2029 || n == 0x202F
    || n == 0x205F || n == 0x3000
  }

  /** The ASCII digits `0`..`9`. */
  predicate IsDigit(c: char) {
    '0' <= c <= '9'
  }

  predicate AllDigits(s: string) {
    forall i :: 0 <= i < |s| ==> IsDigit(s[i])
  }

  predicate AllSpace(s: string) {
    forall i :: 0 <= i < |s| ==> IsSpace(s[i])
  }

  predicate NoSpace(s: string) {
    forall i :: 0 <= i < |s| ==> !IsSpace(s[i])
  }

  lemma DigitIsNotSpace(c: char)
    requires IsDigit(c)
    ensures !IsSpace(c)
  {
  }

  // ---------------------------------------------------------------------------
  // s.split(sep) and sep.join(pieces) for a one-character separator

  /** `s.split(sep)`: the pieces between consecutive separators; never empty, since
      `''.split(sep) == ['']`. */
  function Split(s: string, sep: char): (pieces: seq<string>)
    ensures |pieces| >= 1
    decreases |s|
  {
    if s == [] then [""]
    else
      var rest := Split(s[1..], sep);
      if s[0] == sep then [""] + rest
      else [[s[0]] + rest[0]] + rest[1..]
  }

  /** No piece of a split holds the separator. */
  lemma {:induction false} SplitPiecesWithoutSep(s: string, sep: char)
    ensures forall p :: p in Split(s, sep) ==> sep !in p
    decreases |s|
  {
    if s != [] {
      var rest := Split(s[1..], sep);
      SplitPiecesWithoutSep(s[1..], sep);
      assert rest[0] in rest;
      var pieces := Split(s, sep);
      if s[0] == sep {
        assert forall p :: p in pieces ==> p == "" || p in rest;
      } else {
        assert forall p :: p in pieces ==> p == [s[0]] + rest[0] || p in rest;
      }
    }
  }

  /** `sep.join(pieces)`. */
  function Join(pieces: seq<string>, sep: char): string
  {
    if |pieces| == 0 then ""
    else if |pieces| == 1 then pieces[0]
    else pieces[0] + [sep] + Join(pieces[1..], sep)
  }

  /** Joining the pieces of a split gives back the text. */
  lemma {:induction false} JoinSplit(s: string, sep: char)
    ensures Join(Split(s, sep), sep) == s
  {
    if s != [] {
      var rest := Split(s[1..], sep);
      JoinSplit(s[1..], sep);
      if s[0] == sep {
        assert Split(s, sep) == [""] + rest;
        assert Join(Split(s, sep), sep) == "" + [sep] + Join(rest, sep);
      } else if |rest| == 1 {
        assert Join(Split(s, sep), sep) == [s[0]] + rest[0];
      } else {
        var pieces := Split(s, sep);
        assert pieces == [[s[0]] + rest[0]] + rest[1..];
        assert pieces[1..] == rest[1..];
        assert Join(pieces, sep) == [s[0]] + rest[0] + [sep] + Join(rest[1..], sep);
        assert Join(rest, sep) == rest[0] + [sep] + Join(rest[1..], sep);
      }
    }
  }

  lemma {:induction false} SplitWithoutSep(a: string, sep: char)
    requires sep !in a
    ensures Split(a, sep) == [a]
  {
    if a != [] {
      SplitWithoutSep(a[1..], sep);
      assert [a[0]] + a[1..] == a;
    }
  }

  lemma {:induction false} SplitAfterPiece(a: string, b: string, sep: char)
    requires sep !in a
    ensures Split(a + [sep] + b, sep) == [a] + Split(b, sep)
  {
    var s := a + [sep] + b;
    if a == [] {
      assert s[0] == sep && s[1..] == b;
    } else {
      assert s[0] == a[0] && s[1..] == a[1..] + [sep] + b;
      SplitAfterPiece(a[1..], b, sep);
      assert [a[0]] + a[1..] == a;
    }
  }

  /** Splitting a join of separator-free pieces gives back the pieces. */
  lemma {:induction false} SplitJoin(pieces: seq<string>, sep: char)
    requires |pieces| >= 1
    requires forall p :: p in pieces ==> sep !in p
    ensures Split(Join(pieces, sep), sep) == pieces
  {
    assert pieces[0] in pieces;
    if |pieces| == 1 {
      SplitWithoutSep(pieces[0], sep);
    } else {
      assert forall p :: p in pieces[1..] ==> p in pieces;
      SplitJoin(pieces[1..], sep);
      SplitAfterPiece(pieces[0], Join(pieces[1..], sep), sep);
      assert [pieces[0]] + pieces[1..] == pieces;
    }
  }

  lemma {:induction false} JoinSnoc(pieces: seq<string>, last: string, sep: char)
    requires |pieces| >= 1
    ensures Join(pieces + [last], sep) == Join(pieces, sep) + [sep] + last
  {
    if |pieces| == 1 {
      assert (pieces + [last])[1..] == [last];
    } else {
      assert (pieces + [last])[1..] == pieces[1..] + [last];
      JoinSnoc(pieces[1..], last, sep);
    }
  }

  /** A character absent from a join is absent from each piece. */
  lemma {:induction false} JoinPieceWithout(pieces: seq<string>, sep: char, j: nat, c: char)
    requires j < |pieces|
    requires c !in Join(pieces, sep)
    ensures c !in pieces[j]
  {
    if |pieces| > 1 {
      assert Join(pieces, sep) == pieces[0] + ([sep] + Join(pieces[1..], sep));
      if j > 0 {
        JoinPieceWithout(pieces[1..], sep, j - 1, c);
      }
    }
  }

  /** `'\n'.join(lines) + '\n'`: a text document whose lines are `lines`. */
  function JoinLines(lines: seq<string>): string
  {
    Join(lines, '\n') + "\n"
  }

  /** Reading a document back with `doc.split('\n')` gives its lines and then the empty
      text after the final newline. */
  lemma JoinLinesSplit(lines: seq<string>)
    requires |lines| >= 1
    requires forall l :: l in lines ==> '\n' !in l
    ensures Split(JoinLines(lines), '\n') == lines + [""]
  {
    JoinSnoc(lines, "", '\n');
    assert Join(lines + [""], '\n') == JoinLines(lines);
    SplitJoin(lines + [""], '\n');
  }

  // ---------------------------------------------------------------------------
  // f.readlines()

  /** A line as `readlines()` yields it: not empty, a newline only as its last character. */
  predicate LineShaped(l: string) {
    l != [] && forall i :: 0 <= i < |l| - 1 ==> l[i] != '\n'
  }

  /** Every line except the last one of a text ends with a newline. */
  predicate Terminated(l: string) {
    l != [] && l[|l| - 1] == '\n'
  }

  function Concat(lines: seq<string>): string
  {
    if lines == [] then "" else lines[0] + Concat(lines[1..])
  }

  /** `readlines()`: the lines of a text, each keeping its terminating newline (the last
      one may lack it); an empty text has no lines. */
  function ReadLines(s: string): seq<string>
    decreases |s|
  {
    if s == [] then []
    else
      var rest := ReadLines(s[1..]);
      if s[0] == '\n' || rest == [] then [[s[0]]] + rest
      else [[s[0]] + rest[0]] + rest[1..]
  }

  /** Every line `readlines()` yields is line-shaped, and every one but the last ends with
      a newline. */
  lemma {:induction false} ReadLinesShape(s: string)
    ensures forall l :: l in ReadLines(s) ==> LineShaped(l)
    ensures forall i :: 0 <= i < |ReadLines(s)| - 1 ==> Terminated(ReadLines(s)[i])
    decreases |s|
  {
    if s != [] {
      var rest := ReadLines(s[1..]);
      ReadLinesShape(s[1..]);
      var lines := ReadLines(s);
      if s[0] == '\n' || rest == [] {
        assert forall l :: l in lines ==> l == [s[0]] || l in rest;
        forall i | 0 <= i < |lines| - 1 ensures Terminated(lines[i]) {
          if i > 0 {
            assert lines[i] == rest[i - 1];
          }
        }
      } else {
        assert rest[0] in rest;
        var first := [s[0]] + rest[0];
        assert LineShaped(first) by {
          forall i | 0 <= i < |first| - 1 ensures first[i] != '\n' {
            if i > 0 { assert first[i] == rest[0][i - 1]; }
          }
        }
        assert forall l :: l in lines ==> l == first || l in rest;
        forall i | 0 <= i < |lines| - 1 ensures Terminated(lines[i]) {
          if i > 0 {
            assert lines[i] == rest[i];
          } else {
            assert Terminated(rest[0]);
          }
        }
      }
    }
  }

  /** The lines of a text put back together give the text. */
  lemma {:induction false} ConcatReadLines(s: string)
    ensures Concat(ReadLines(s)) == s
  {
    if s != [] {
      var rest := ReadLines(s[1..]);
      ConcatReadLines(s[1..]);
      if s[0] == '\n' || rest == [] {
        assert ReadLines(s) == [[s[0]]] + rest;
        assert Concat(ReadLines(s)) == [s[0]] + Concat(rest);
      } else {
        var lines := ReadLines(s);
        assert lines == [[s[0]] + rest[0]] + rest[1..];
        assert lines[1..] == rest[1..];
        assert Concat(lines) == [s[0]] + rest[0] + Concat(rest[1..]);
      }
    }
  }

  /** A complete first line is read as it is, and the rest of the text on its own. */
  lemma {:induction false} ReadLinesAfterLine(l: string, rest: string)
    requires LineShaped(l) && Terminated(l)
    ensures ReadLines(l + rest) == [l] + ReadLines(rest)
    decreases |l|
  {
    var s := l + rest;
    if |l| == 1 {
      assert s[0] == '\n' && s[1..] == rest && l == [s[0]];
    } else {
      assert s[0] == l[0] && l[0] != '\n';
      assert s[1..] == l[1..] + rest;
      assert LineShaped(l[1..]) && Terminated(l[1..]) by {
        forall i | 0 <= i < |l[1..]| - 1 ensures l[1..][i] != '\n' {
          assert l[1..][i] == l[i + 1];
        }
      }
      ReadLinesAfterLine(l[1..], rest);
      assert [l[0]] + l[1..] == l;
    }
  }

  // ---------------------------------------------------------------------------
  // s.split() with no argument, and ' '.join

  /** `s.split()`: the maximal runs of non-whitespace characters, in order. */
  function SplitWs(s: string): (words: seq<string>)
    ensures s != [] && !IsSpace(s[0]) ==> words != [] && |words[0]| > 0 && words[0][0] == s[0]
    decreases |s|
  {
    if s == [] then []
    else
      var rest := SplitWs(s[1..]);
      if IsSpace(s[0]) then rest
      else if |s| > 1 && !IsSpace(s[1]) then [[s[0]] + rest[0]] + rest[1..]
      else [[s[0]]] + rest
  }

  /** The words are not empty and hold no whitespace. */
  lemma {:induction false} SplitWsWords(s: string)
    ensures forall w :: w in SplitWs(s) ==> w != [] && NoSpace(w)
    decreases |s|
  {
    if s != [] {
      var rest := SplitWs(s[1..]);
      SplitWsWords(s[1..]);
      var words := SplitWs(s);
      if IsSpace(s[0]) {
      } else if |s| > 1 && !IsSpace(s[1]) {
        assert rest[0] in rest;
        var first := [s[0]] + rest[0];
        assert NoSpace(first) by {
          forall i | 0 <= i < |first| ensures !IsSpace(first[i]) {
            if i > 0 { assert first[i] == rest[0][i - 1]; }
          }
        }
        assert forall w :: w in words ==> w == first || w in rest;
      } else {
        assert forall w :: w in words ==> w == [s[0]] || w in rest;
      }
    }
  }

  lemma {:induction false} SplitWsWord(w: string, rest: string)
    requires w != [] && NoSpace(w)
    requires rest == [] || IsSpace(rest[0])
    ensures SplitWs(w + rest) == [w] + SplitWs(rest)
    decreases |w|
  {
    var s := w + rest;
    assert s[0] == w[0] && s[1..] == w[1..] + rest;
    if |w| == 1 {
      assert s[1..] == rest && w == [s[0]];
    } else {
      assert s[1] == w[1];
      SplitWsWord(w[1..], rest);
      assert [w[0]] + w[1..] == w;
    }
  }

  /** `' '.join(words)`. */
  function JoinWs(words: seq<string>): string
  {
    Join(words, ' ')
  }

  /** Whitespace-splitting a space-joined list of words gives back the words. */
  lemma {:induction false} SplitWsJoinWs(words: seq<string>)
    requires forall w :: w in words ==> w != [] && NoSpace(w)
    ensures SplitWs(JoinWs(words)) == words
  {
    if |words| == 1 {
      assert words[0] in words;
      SplitWsWord(words[0], "");
      assert words[0] + "" == words[0];
    } else if |words| > 1 {
      assert words[0] in words;
      assert forall w :: w in words[1..] ==> w in words;
      SplitWsJoinWs(words[1..]);
      assert JoinWs(words) == words[0] + (" " + JoinWs(words[1..]));
      SplitWsWord(words[0], " " + JoinWs(words[1..]));
      assert (" " + JoinWs(words[1..]))[1..] == JoinWs(words[1..]);
      assert [words[0]] + words[1..] == words;
    }
  }

  // ---------------------------------------------------------------------------
  // s.strip() and s.startswith(prefix)

  function TrimStart(s: string): (r: string)
    ensures |r| <= |s|
    decreases |s|
  {
    if s != [] && IsSpace(s[0]) then TrimStart(s[1..]) else s
  }

  /** `lstrip()` keeps a suffix of the text, drops only whitespace, and stops at the
      first other character. */
  lemma {:induction false} TrimStartShape(s: string)
    ensures TrimStart(s) == s[|s| - |TrimStart(s)|..]
    ensures AllSpace(s[..|s| - |TrimStart(s)|])
    ensures TrimStart(s) == [] || !IsSpace(TrimStart(s)[0])
    decreases |s|
  {
    if s != [] && IsSpace(s[0]) {
      TrimStartShape(s[1..]);
      var r := TrimStart(s);
      var i := |s| - |r|;
      assert s[1..][|s| - 1 - |r|..] == s[i..];
      forall k | 0 <= k < i ensures IsSpace(s[..i][k]) {
        if k > 0 {
          assert s[..i][k] == s[1..][..i - 1][k - 1];
        }
      }
    }
  }

  function TrimEnd(s: string): (r: string)
    ensures |r| <= |s|
    decreases |s|
  {
    if s != [] && IsSpace(s[|s| - 1]) then TrimEnd(s[..|s| - 1]) else s
  }

  /** `rstrip()` keeps a prefix of the text, drops only whitespace, and stops at the last
      other character. */
  lemma {:induction false} TrimEndShape(s: string)
    ensures TrimEnd(s) == s[..|TrimEnd(s)|]
    ensures AllSpace(s[|TrimEnd(s)|..])
    ensures TrimEnd(s) == [] || !IsSpace(TrimEnd(s)[|TrimEnd(s)| - 1])
    decreases |s|
  {
    if s != [] && IsSpace(s[|s| - 1]) {
      var t := s[..|s| - 1];
      TrimEndShape(t);
      var r := TrimEnd(s);
      assert t[..|r|] == s[..|r|];
      forall k | 0 <= k < |s| - |r| ensures IsSpace(s[|r|..][k]) {
        if k < |t| - |r| {
          assert s[|r|..][k] == t[|r|..][k];
        }
      }
    }
  }

  /** `s.strip()`: the text without its leading and trailing whitespace. */
  function Strip(s: string): (r: string)
    ensures |r| <= |s|
  {
    TrimEnd(TrimStart(s))
  }

  /** What `strip()` keeps is the slice `s[i..i + |Strip(s)|]`, where `i` is where
      `lstrip()` starts; it neither starts nor ends with whitespace. */
  lemma StripShape(s: string)
    ensures |s| - |TrimStart(s)| + |Strip(s)| <= |s|
    ensures Strip(s) == s[|s| - |TrimStart(s)|..][..|Strip(s)|]
    ensures Strip(s) == [] || (!IsSpace(Strip(s)[0]) && !IsSpace(Strip(s)[|Strip(s)| - 1]))
  {
    var t := TrimStart(s);
    var r := Strip(s);
    TrimStartShape(s);
    TrimEndShape(t);
    if r != [] {
      assert r[0] == t[0];
    }
  }

  /** What `strip()` removes is whitespace: all of the text before what it keeps, and
      all of the text after it. */
  lemma StripRemovesSpace(s: string, i: nat)
    requires i == |s| - |TrimStart(s)|
    ensures AllSpace(s[..i])
    ensures i + |Strip(s)| <= |s| && AllSpace(s[i + |Strip(s)|..])
  {
    var t := TrimStart(s);
    var r := TrimEnd(t);
    TrimStartShape(s);
    TrimEndShape(t);
    assert t == s[i..];
    assert AllSpace(t[|r|..]);
    forall k | i + |r| <= k < |s| ensures IsSpace(s[k]) {
      assert s[k] == t[k - i];
      assert t[k - i] == t[|r|..][k - i - |r|];
    }
  }

  /** `strip()` keeps a character out if it was not in the text. */
  lemma StripWithout(s: string, c: char)
    requires c !in s
    ensures c !in Strip(s)
  {
    StripShape(s);
  }

  /** `s.startswith(prefix)`. */
  predicate StartsWith(s: string, prefix: string) {
    |prefix| <= |s| && s[..|prefix|] == prefix
  }

  // ---------------------------------------------------------------------------
  // s.count(pattern)

  /** `pattern` occurs in `s` starting at index `i`. */
  predicate OccursAt(s: string, pattern: string, i: nat) {
    i + |pattern| <= |s| && s[i..i + |pattern|] == pattern
  }

  ghost predicate Occurs(s: string, pattern: string) {
    exists i: nat :: OccursAt(s, pattern, i)
  }

  /** `s.count(pattern)`: the non-overlapping occurrences of `pattern`, scanning from
      the left and resuming after each occurrence found. */
  function Count(s: string, pattern: string): (n: nat)
    requires pattern != []
    ensures n * |pattern| <= |s|
    decreases |s|
  {
    if |s| < |pattern| then 0
    else if s[..|pattern|] == pattern then 1 + Count(s[|pattern|..], pattern)
    else Count(s[1..], pattern)
  }

  /** The count is positive exactly when the pattern occurs at all. */
  lemma {:induction false} CountPositive(s: string, pattern: string)
    requires pattern != []
    ensures Count(s, pattern) > 0 <==> Occurs(s, pattern)
    decreases |s|
  {
    if |s| < |pattern| {
      assert forall i: nat :: !OccursAt(s, pattern, i);
    } else if s[..|pattern|] == pattern {
      assert OccursAt(s, pattern, 0);
    } else {
      CountPositive(s[1..], pattern);
      if Count(s, pattern) > 0 {
        var i: nat :| OccursAt(s[1..], pattern, i);
        assert s[1..][i..i + |pattern|] == s[i + 1..i + 1 + |pattern|];
        assert OccursAt(s, pattern, i + 1);
      }
      if Occurs(s, pattern) {
        var i: nat :| OccursAt(s, pattern, i);
        assert i != 0;
        assert s[1..][i - 1..i - 1 + |pattern|] == s[i..i + |pattern|];
        assert OccursAt(s[1..], pattern, i - 1);
      }
    }
  }

  // ---------------------------------------------------------------------------
  // s.replace(from, to) for single characters

  /** `s.replace(from, to)` where both are single characters. */
  function ReplaceChar(s: string, from: char, to: char): (r: string)
    ensures |r| == |s|
    ensures forall i :: 0 <= i < |s| ==> r[i] == (if s[i] == from then to else s[i])
    ensures from != to ==> from !in r
  {
    if s == [] then []
    else [if s[0] == from then to else s[0]] + ReplaceChar(s[1..], from, to)
  }

  // ---------------------------------------------------------------------------
  // str(n) for integers

  function DigitChar(d: nat): (c: char)
    requires d < 10
    ensures IsDigit(c)
  {
    ('0' as int + d) as char
  }

  /** `str(n)` for a non-negative integer: its decimal digits, most significant first,
      with no leading zero. */
  function NatText(n: nat): (t: string)
    ensures t != [] && AllDigits(t)
    ensures t[0] == '0' ==> n == 0
    decreases n
  {
    if n < 10 then [DigitChar(n)] else NatText(n / 10) + [DigitChar(n % 10)]
  }

  /** The number a run of decimal digits stands for. */
  function DigitsValue(t: string): nat
    requires AllDigits(t)
    decreases |t|
  {
    if t == [] then 0 else DigitsValue(t[..|t| - 1]) * 10 + (t[|t| - 1] as int - '0' as int)
  }

  /** Reading back the text of a number gives the number. */
  lemma {:induction false} NatTextValue(n: nat)
    ensures DigitsValue(NatText(n)) == n
    decreases n
  {
    if n >= 10 {
      NatTextValue(n / 10);
      var t := NatText(n);
      assert t[..|t| - 1] == NatText(n / 10);
    }
  }

  /** `str(i)` for any integer. */
  function IntText(i: int): string
  {
    if i < 0 then "-" + NatText(-i) else NatText(i)
  }

  /** `str(i)` is a minus sign and digits. */
  lemma IntTextChars(i: int)
    ensures forall k :: 0 <= k < |IntText(i)| ==> IntText(i)[k] == '-' || IsDigit(IntText(i)[k])
  {
    var digits := NatText(if i < 0 then -i else i);
    if i < 0 {
      forall k | 0 <= k < |IntText(i)| ensures IntText(i)[k] == '-' || IsDigit(IntText(i)[k]) {
        if k > 0 {
          assert IntText(i)[k] == digits[k - 1];
        }
      }
    }
  }

  /** The integer a text written by `str` stands for. */
  function IntValue(t: string): int
    requires t != []
    requires if t[0] == '-' then AllDigits(t[1..]) else AllDigits(t)
  {
    if t[0] == '-' then -(DigitsValue(t[1..]) as int) else DigitsValue(t)
  }

  lemma IntTextValue(i: int)
    ensures var t := IntText(i);
      (t != [] && (if t[0] == '-' then AllDigits(t[1..]) else AllDigits(t)) && IntValue(t) == i)
  {
    NatTextValue(if i < 0 then -i else i);
    if i < 0 {
      assert IntText(i)[1..] == NatText(-i);
    }
  }
}
