/** Text helpers: Python's `str(int)`, an ASCII `str.lower`, prefix and
    substring tests, and the newline structure of rendered text. */
module Text {
  import opened Wrappers

  // ---------------------------------------------------------------------------
  // Integers as decimal text
  // ---------------------------------------------------------------------------

  predicate IsDigit(c: char) {
    '0' <= c <= '9'
  }

  predicate IsDigits(s: string) {
    |s| >= 1 && forall i :: 0 <= i < |s| ==> IsDigit(s[i])
  }

  function DigitChar(d: nat): (c: char)
    requires d < 10
    ensures IsDigit(c)
  {
    ('0' as int + d) as char
  }

  function DigitValue(c: char): (d: nat)
    requires IsDigit(c)
    ensures d < 10
  {
    (c as int - '0' as int) as nat
  }

  /** Decimal digits of `n` without leading zeros. */
  function NatToString(n: nat): (s: string)
    ensures IsDigits(s)
    ensures s[0] == '0' ==> n == 0 && |s| == 1
  {
    if n < 10 then [DigitChar(n)] else NatToString(n / 10) + [DigitChar(n % 10)]
  }

  /** Python's `str(i)`: a minus sign for negative numbers, then the digits. */
  function IntToString(i: int): (s: string)
    ensures |s| >= 1
    ensures NoNewline(s)
  {
    if i < 0 then "-" + NatToString(-i) else NatToString(i)
  }

  function ParseDigits(s: string): nat
    requires IsDigits(s)
  {
    if |s| == 1 then DigitValue(s[0])
    else ParseDigits(s[..|s| - 1]) * 10 + DigitValue(s[|s| - 1])
  }

  /** Reads back a rendering produced by `IntToString`. */
  function ParseInt(s: string): int
    requires IsDigits(s) || (|s| >= 2 && s[0] == '-' && IsDigits(s[1..]))
  {
    if s[0] == '-' then -(ParseDigits(s[1..]) as int) else ParseDigits(s)
  }

  lemma {:induction false} ParseNatToString(n: nat)
    ensures ParseDigits(NatToString(n)) == n
    decreases n
  {
    if n >= 10 {
      var s := NatToString(n);
      assert s[..|s| - 1] == NatToString(n / 10);
      ParseNatToString(n / 10);
    }
  }

  /** `str(i)` loses nothing: the number is recovered from its text, so distinct
      numbers render differently. */
  lemma IntToStringRoundTrip(i: int)
    ensures var s := IntToString(i);
      (IsDigits(s) || (|s| >= 2 && s[0] == '-' && IsDigits(s[1..]))) && ParseInt(s) == i
  {
    if i < 0 {
      var s := IntToString(i);
      assert s[1..] == NatToString(-i);
      ParseNatToString(-i);
    } else {
      ParseNatToString(i);
    }
  }

  // ---------------------------------------------------------------------------
  // Case folding, prefixes, substrings
  // ---------------------------------------------------------------------------

  function LowerChar(c: char): char {
    if 'A' <= c <= 'Z' then (c as int + 32) as char else c
  }

  /** `str.lower` restricted to ASCII letters; every other character is kept. */
  function Lower(s: string): (r: string)
    ensures |r| == |s|
    ensures forall i :: 0 <= i < |s| ==> r[i] == LowerChar(s[i])
  {
    if |s| == 0 then [] else [LowerChar(s[0])] + Lower(s[1..])
  }

  /** Lower-casing twice is lower-casing once. */
  lemma LowerIdempotent(s: string)
    ensures Lower(Lower(s)) == Lower(s)
  {
    var l := Lower(s);
    assert forall i :: 0 <= i < |s| ==> Lower(l)[i] == LowerChar(LowerChar(s[i]));
  }

  predicate StartsWith(s: string, prefix: string) {
    |prefix| <= |s| && s[..|prefix|] == prefix
  }

  predicate EndsWith(s: string, suffix: string) {
    |suffix| <= |s| && s[|s| - |suffix|..] == suffix
  }

  /** `pattern` occurs in `s` starting at position `i`. */
  predicate OccursAt(s: string, pattern: string, i: nat) {
    i + |pattern| <= |s| && s[i..i + |pattern|] == pattern
  }

  /** Dropping the first character shifts every occurrence one place left. */
  lemma OccursAtShift(s: string, pattern: string, i: nat)
    requires |s| > 0
    ensures OccursAt(s[1..], pattern, i) <==> OccursAt(s, pattern, i + 1)
  {
    if i + 1 + |pattern| <= |s| {
      assert s[i + 1..i + 1 + |pattern|] == s[1..][i..i + |pattern|];
    }
  }

  /** Python's `pattern in s` for strings, scanning from the left. */
  function Contains(s: string, pattern: string): (b: bool)
    ensures b <==> exists i: nat :: OccursAt(s, pattern, i)
    decreases |s|
  {
    if StartsWith(s, pattern) then
      assert OccursAt(s, pattern, 0);
      true
    else if |s| == 0 then false
    else
      var rest := Contains(s[1..], pattern);
      assert !OccursAt(s, pattern, 0);
      forall i: nat
        ensures OccursAt(s[1..], pattern, i) <==> OccursAt(s, pattern, i + 1)
      {
        OccursAtShift(s, pattern, i);
      }
      assert (exists i: nat :: OccursAt(s, pattern, i)) ==> exists i: nat :: OccursAt(s[1..], pattern, i) by {
        if exists i: nat :: OccursAt(s, pattern, i) {
          var i: nat :| OccursAt(s, pattern, i);
          assert i > 0 && OccursAt(s[1..], pattern, i - 1);
        }
      }
      rest
  }

  // ---------------------------------------------------------------------------
  // Lines
  // ---------------------------------------------------------------------------

  predicate NoNewline(s: string) {
    '\n' !in s
  }

  predicate AllNoNewline(lines: seq<string>) {
    forall i :: 0 <= i < |lines| ==> NoNewline(lines[i])
  }

  /** Python's `s.split("\n")`: the pieces between newlines, always at least one. */
  function Split(s: string): (r: seq<string>)
    ensures |r| >= 1
    ensures AllNoNewline(r)
  {
    if |s| == 0 then [""]
    else
      var rest := Split(s[1..]);
      if s[0] == '\n' then [""] + rest
      else [[s[0]] + rest[0]] + rest[1..]
  }

  /** Python's `"\n".join(lines)`. */
  function Join(lines: seq<string>): string {
    if |lines| == 0 then ""
    else if |lines| == 1 then lines[0]
    else lines[0] + "\n" + Join(lines[1..])
  }

  /** The text produced by appending `line + "\n"` for each line in turn. */
  function Unlines(lines: seq<string>): string {
    if |lines| == 0 then ""
    else Unlines(lines[..|lines| - 1]) + lines[|lines| - 1] + "\n"
  }

  /** A newline-free string is a single line. */
  lemma {:induction false} SplitLine(s: string)
    requires NoNewline(s)
    ensures Split(s) == [s]
    decreases |s|
  {
    if |s| > 0 {
      SplitLine(s[1..]);
      assert [s[0]] + s[1..] == s;
    }
  }

  /** Splitting distributes over a newline. */
  lemma {:induction false} SplitAtNewline(a: string, b: string)
    ensures Split(a + "\n" + b) == Split(a) + Split(b)
    decreases |a|
  {
    if |a| == 0 {
      assert a + "\n" + b == "\n" + b;
      assert ("\n" + b)[1..] == b;
    } else {
      var s := a + "\n" + b;
      assert s[0] == a[0];
      assert s[1..] == a[1..] + "\n" + b;
      SplitAtNewline(a[1..], b);
    }
  }

  /** Joining newline-free lines and splitting the result gives the lines back. */
  lemma {:induction false} SplitJoin(lines: seq<string>)
    requires |lines| >= 1
    requires AllNoNewline(lines)
    ensures Split(Join(lines)) == lines
    decreases |lines|
  {
    SplitLine(lines[0]);
    if |lines| > 1 {
      SplitJoin(lines[1..]);
      SplitAtNewline(lines[0], Join(lines[1..]));
    }
  }

  /** Splitting any text and joining the pieces gives the text back: `Split`
      loses nothing, so the line-structure lemmas stated through `Split(s)`
      pin down `s` itself. */
  lemma {:induction false} JoinSplit(s: string)
    ensures Join(Split(s)) == s
    decreases |s|
  {
    if |s| > 0 {
      var rest := Split(s[1..]);
      JoinSplit(s[1..]);
      if s[0] == '\n' {
        assert Split(s) == [""] + rest;
        assert ([""] + rest)[1..] == rest;
      } else {
        var r := [[s[0]] + rest[0]] + rest[1..];
        assert Split(s) == r;
        if |rest| > 1 {
          assert r[1..] == rest[1..];
          assert Join(rest) == rest[0] + "\n" + Join(rest[1..]);
        }
      }
    }
  }

  lemma {:induction false} UnlinesAppend(a: seq<string>, b: seq<string>)
    ensures Unlines(a + b) == Unlines(a) + Unlines(b)
    decreases |b|
  {
    if |b| == 0 {
      assert a + b == a;
    } else {
      var b' := b[..|b| - 1];
      assert (a + b)[..|a + b| - 1] == a + b';
      UnlinesAppend(a, b');
    }
  }

  /** The first line comes first. */
  lemma {:induction false} UnlinesFirst(lines: seq<string>)
    requires |lines| > 0
    ensures Unlines(lines) == lines[0] + "\n" + Unlines(lines[1..])
    decreases |lines|
  {
    var init := lines[..|lines| - 1];
    var last := lines[|lines| - 1];
    if |lines| == 1 {
      assert init == [] && lines[1..] == [];
    } else {
      UnlinesFirst(init);
      assert init[0] == lines[0];
      assert lines[1..] == init[1..] + [last];
      assert lines[1..][..|lines[1..]| - 1] == init[1..];
    }
  }

  lemma AllNoNewlineConcat(a: seq<string>, b: seq<string>)
    requires AllNoNewline(a) && AllNoNewline(b)
    ensures AllNoNewline(a + b)
  {
    forall i | 0 <= i < |a + b|
      ensures NoNewline((a + b)[i])
    {
      if i < |a| {
        assert (a + b)[i] == a[i];
      } else {
        assert (a + b)[i] == b[i - |a|];
      }
    }
  }

  /** Text made of newline-terminated lines splits into exactly those lines,
      followed by the pieces of whatever comes after them. */
  lemma {:induction false} SplitUnlines(lines: seq<string>, rest: string)
    requires AllNoNewline(lines)
    ensures Split(Unlines(lines) + rest) == lines + Split(rest)
    decreases |lines|
  {
    if |lines| == 0 {
      assert Unlines(lines) + rest == rest;
    } else {
      var init := lines[..|lines| - 1];
      var last := lines[|lines| - 1];
      assert lines == init + [last];
      UnlinesAppend(init, [last]);
      assert Unlines([last]) == last + "\n" by {
        assert [last][..0] == [];
      }
      assert Unlines(lines) + rest == Unlines(init) + (last + "\n" + rest);
      SplitUnlines(init, last + "\n" + rest);
      SplitAtNewline(last, rest);
      SplitLine(last);
    }
  }

  /** Fixed text, a line break, newline-terminated lines, then fixed text again. */
  function Framed(head: string, lines: seq<string>, tail: string): string {
    head + "\n" + Unlines(lines) + tail
  }

  lemma FramedStart(head: string, lines: seq<string>, tail: string)
    ensures StartsWith(Framed(head, lines, tail), head)
  {
    var s := Framed(head, lines, tail);
    assert s[..|head|] == head;
  }

  /** The framed lines come out of the split exactly, between the pieces of
      the fixed texts. */
  lemma SplitFramed(head: string, lines: seq<string>, tail: string)
    requires AllNoNewline(lines)
    ensures Split(Framed(head, lines, tail)) == Split(head) + lines + Split(tail)
  {
    assert Framed(head, lines, tail) == head + "\n" + (Unlines(lines) + tail);
    SplitAtNewline(head, Unlines(lines) + tail);
    SplitUnlines(lines, tail);
  }

  /** Two texts whose first characters differ do not share a prefix. */
  lemma FirstCharDiffers(s: string, prefix: string, other: string)
    requires StartsWith(s, prefix) && |prefix| > 0 && |other| > 0 && prefix[0] != other[0]
    ensures !StartsWith(s, other)
  {
    assert s[0] == prefix[0];
  }

  // ---------------------------------------------------------------------------
  // Templates with one slot
  // ---------------------------------------------------------------------------

  /** An f-string with a single placeholder: fixed text, the argument, fixed text. */
  function Fill(head: string, tail: string, x: string): string {
    head + x + tail
  }

  /** Reads the argument back out of a filled template, if `s` is one. */
  function Extract(head: string, tail: string, s: string): (r: Option<string>)
    ensures r.Some? ==> |r.value| == |s| - |head| - |tail|
  {
    if |head| + |tail| <= |s| && StartsWith(s, head) && EndsWith(s, tail)
    then Some(s[|head|..|s| - |tail|])
    else None
  }

  /** The argument is embedded verbatim and can be recovered. */
  lemma FillExtract(head: string, tail: string, x: string)
    ensures Extract(head, tail, Fill(head, tail, x)) == Some(x)
  {
    var s := Fill(head, tail, x);
    assert s[..|head|] == head;
    assert s[|s| - |tail|..] == tail;
    assert s[|head|..|s| - |tail|] == x;
  }

  /** Whatever `Extract` accepts is exactly the template filled with what it returns. */
  lemma ExtractFill(head: string, tail: string, s: string)
    requires Extract(head, tail, s).Some?
    ensures Fill(head, tail, Extract(head, tail, s).value) == s
  {
    var x := Extract(head, tail, s).value;
    assert s == s[..|head|] + s[|head|..|s| - |tail|] + s[|s| - |tail|..];
  }
}
