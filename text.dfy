/** Java string operations the resolver relies on: `String.replace` with a
    literal target (and `replaceAll` with a one-character literal pattern, which
    behaves the same), and the decimal rendering of an `int` used when a status
    code is concatenated into a message. */
module Text {

  /** True when `pat` occurs in `s` at position `i`. */
  ghost predicate OccursAt(s: string, pat: string, i: int)
  {
    0 <= i && i + |pat| <= |s| && s[i..i + |pat|] == pat
  }

  /** True when `pat` occurs anywhere in `s`. */
  ghost predicate Occurs(s: string, pat: string)
  {
    exists i :: OccursAt(s, pat, i)
  }

  /** `s.replace(pat, rep)`: scanning left to right, every non-overlapping
      occurrence of `pat` is replaced by `rep`. An empty target inserts `rep`
      before every character and at the end, as Java does. */
  function Replace(s: string, pat: string, rep: string): (r: string)
    ensures pat == [] ==> |r| == |s| + (|s| + 1) * |rep|
    ensures pat != [] && |rep| == |pat| ==> |r| == |s|
    ensures pat != [] && rep == pat ==> r == s
    decreases |s|
  {
    if pat == [] then
      if s == [] then rep else rep + [s[0]] + Replace(s[1..], pat, rep)
    else if |s| < |pat| then s
    else if s[..|pat|] == pat then
      assert s == s[..|pat|] + s[|pat|..];
      rep + Replace(s[|pat|..], pat, rep)
    else
      assert s == [s[0]] + s[1..];
      [s[0]] + Replace(s[1..], pat, rep)
  }

  /** The pieces of `s` between the occurrences of `pat` that `Replace` finds,
      in order: an independent view of the same left-to-right scan. */
  function Split(s: string, pat: string): (pieces: seq<string>)
    requires pat != []
    ensures |pieces| > 0
    ensures |pieces[0]| <= |s| && pieces[0] == s[..|pieces[0]|]
    decreases |s|
  {
    if |s| < |pat| then [s]
    else if s[..|pat|] == pat then [""] + Split(s[|pat|..], pat)
    else
      var rest := Split(s[1..], pat);
      [[s[0]] + rest[0]] + rest[1..]
  }

  /** The pieces glued back together with `sep` between neighbours. */
  function Join(pieces: seq<string>, sep: string): string
    decreases |pieces|
  {
    if pieces == [] then []
    else if |pieces| == 1 then pieces[0]
    else pieces[0] + sep + Join(pieces[1..], sep)
  }

  /** Prefixing the first piece prefixes the joined string. */
  lemma JoinExtendFirst(c: string, pieces: seq<string>, sep: string)
    requires |pieces| > 0
    ensures Join([c + pieces[0]] + pieces[1..], sep) == c + Join(pieces, sep)
  {
    var extended := [c + pieces[0]] + pieces[1..];
    if |pieces| > 1 {
      assert extended[1..] == pieces[1..];
    }
  }

  lemma JoinEmptyFirst(pieces: seq<string>, sep: string)
    requires |pieces| > 0
    ensures Join([""] + pieces, sep) == sep + Join(pieces, sep)
  {
    assert ([""] + pieces)[1..] == pieces;
  }

  /** Joining the pieces with the target itself gives back the input:
      `Split` loses nothing. */
  lemma {:induction false} JoinSplit(s: string, pat: string)
    requires pat != []
    ensures Join(Split(s, pat), pat) == s
    decreases |s|
  {
    if |s| < |pat| {
    } else if s[..|pat|] == pat {
      JoinSplitAtTarget(s, pat);
    } else {
      JoinSplitPastChar(s, pat);
    }
  }

  lemma {:induction false} JoinSplitAtTarget(s: string, pat: string)
    requires pat != [] && |s| >= |pat| && s[..|pat|] == pat
    ensures Join(Split(s, pat), pat) == s
    decreases |s|, 0
  {
    var rest := s[|pat|..];
    assert Split(s, pat) == [""] + Split(rest, pat);
    JoinSplit(rest, pat);
    JoinEmptyFirst(Split(rest, pat), pat);
    assert s == pat + rest;
  }

  lemma {:induction false} JoinSplitPastChar(s: string, pat: string)
    requires pat != [] && |s| >= |pat| && s[..|pat|] != pat
    ensures Join(Split(s, pat), pat) == s
    decreases |s|, 0
  {
    var rest := Split(s[1..], pat);
    assert Split(s, pat) == [[s[0]] + rest[0]] + rest[1..];
    JoinSplit(s[1..], pat);
    JoinExtendFirst([s[0]], rest, pat);
    assert s == [s[0]] + s[1..];
  }

  /** Replacing is splitting at the occurrences and joining with the
      replacement: every occurrence gets the same value and the text between
      occurrences is kept as it is. */
  lemma {:induction false} ReplaceIsJoinOfSplit(s: string, pat: string, rep: string)
    requires pat != []
    ensures Replace(s, pat, rep) == Join(Split(s, pat), rep)
    decreases |s|
  {
    if |s| < |pat| {
    } else if s[..|pat|] == pat {
      ReplaceIsJoinOfSplit(s[|pat|..], pat, rep);
    } else {
      ReplaceIsJoinOfSplit(s[1..], pat, rep);
      JoinExtendFirst([s[0]], Split(s[1..], pat), rep);
    }
  }

  /** No piece left between the replaced occurrences still holds the target. */
  lemma {:induction false} SplitPiecesHoldNoTarget(s: string, pat: string)
    requires pat != []
    ensures forall k :: 0 <= k < |Split(s, pat)| ==> !Occurs(Split(s, pat)[k], pat)
    decreases |s|
  {
    var pieces := Split(s, pat);
    if |s| < |pat| {
      forall i | OccursAt(s, pat, i) ensures false { }
    } else if s[..|pat|] == pat {
      SplitPiecesHoldNoTarget(s[|pat|..], pat);
      forall i | OccursAt("", pat, i) ensures false { }
    } else {
      SplitPiecesHoldNoTarget(s[1..], pat);
      var rest := Split(s[1..], pat);
      assert pieces == [[s[0]] + rest[0]] + rest[1..];
      HeadOccurrenceShifts(s, pat, rest[0]);
      forall k | 0 <= k < |pieces| ensures !Occurs(pieces[k], pat) {
        if k > 0 {
          assert pieces[k] == rest[k];
        }
      }
    }
  }

  /** An occurrence in the first piece grown by one character is an
      occurrence in the first piece itself, one place earlier, when the target
      does not start at that character. */
  lemma HeadOccurrenceShifts(s: string, pat: string, first: string)
    requires pat != [] && |s| >= |pat| && s[..|pat|] != pat
    requires |first| <= |s| - 1 && first == s[1..][..|first|]
    ensures forall i :: OccursAt([s[0]] + first, pat, i) ==> i > 0 && OccursAt(first, pat, i - 1)
  {
    var head := [s[0]] + first;
    if |pat| <= |head| {
      assert head[..|pat|] == s[..|pat|];
    }
    forall i | OccursAt(head, pat, i) && i > 0 ensures OccursAt(first, pat, i - 1) {
      assert first[i - 1..i - 1 + |pat|] == head[i..i + |pat|];
    }
  }

  /** A string without the target is left unchanged. */
  lemma {:induction false} ReplaceWithoutTarget(s: string, pat: string, rep: string)
    requires pat != [] && !Occurs(s, pat)
    ensures Replace(s, pat, rep) == s
    decreases |s|
  {
    if |s| >= |pat| {
      assert !OccursAt(s, pat, 0);
      forall i | OccursAt(s[1..], pat, i) ensures OccursAt(s, pat, i + 1) {
        assert s[1..][i..i + |pat|] == s[i + 1..i + 1 + |pat|];
      }
      ReplaceWithoutTarget(s[1..], pat, rep);
      assert s == [s[0]] + s[1..];
    }
  }

  /** A string without the character `c` is left unchanged by replacing `c`. */
  lemma {:induction false} ReplaceAbsentChar(s: string, c: char, rep: string)
    requires c !in s
    ensures Replace(s, [c], rep) == s
    decreases |s|
  {
    if s != [] {
      assert s[..1] == [s[0]];
      ReplaceAbsentChar(s[1..], c, rep);
      assert s == [s[0]] + s[1..];
    }
  }

  /** Replacing a character by a string without it leaves none of it. */
  lemma {:induction false} ReplaceRemovesChar(s: string, c: char, rep: string)
    requires c !in rep
    ensures c !in Replace(s, [c], rep)
    decreases |s|
  {
    if s != [] {
      ReplaceRemovesChar(s[1..], c, rep);
      if s[..1] != [c] {
        assert s[0] != c;
      }
    }
  }

  /** The character of one decimal digit. */
  function DigitChar(d: nat): (c: char)
    requires d < 10
    ensures '0' <= c <= '9'
  {
    ('0' as int + d) as char
  }

  /** The value of a decimal digit character; other characters count as 0. */
  function DigitValue(c: char): nat
  {
    if '0' <= c <= '9' then c as int - '0' as int else 0
  }

  /** Decimal digits of a natural number, most significant first. */
  function NatDigits(n: nat): (r: string)
    ensures |r| > 0 && '0' <= r[0] <= '9'
    decreases n
  {
    if n < 10 then [DigitChar(n)] else NatDigits(n / 10) + [DigitChar(n % 10)]
  }

  /** Java's `Integer.toString`: a minus sign for negative values. */
  function Decimal(n: int): string
  {
    if n < 0 then "-" + NatDigits(-n) else NatDigits(n)
  }

  /** Reads back a string of decimal digits (the inverse of `NatDigits`). */
  function ParseNat(s: string): nat
    decreases |s|
  {
    if s == [] then 0 else ParseNat(s[..|s| - 1]) * 10 + DigitValue(s[|s| - 1])
  }

  /** Reads back an optionally signed decimal number. */
  function ParseInt(s: string): int
  {
    if |s| > 0 && s[0] == '-' then 0 - ParseNat(s[1..]) as int else ParseNat(s)
  }

  lemma {:induction false} NatDigitsRoundTrip(n: nat)
    ensures ParseNat(NatDigits(n)) == n
    decreases n
  {
    if n >= 10 {
      NatDigitsRoundTrip(n / 10);
      var d := NatDigits(n);
      assert d[..|d| - 1] == NatDigits(n / 10);
      assert DigitValue(d[|d| - 1]) == n % 10;
      assert ParseNat(d) == (n / 10) * 10 + n % 10;
    }
  }

  /** The number in a message produced by `Decimal` can always be read back. */
  lemma DecimalRoundTrip(n: int)
    ensures ParseInt(Decimal(n)) == n
  {
    if n < 0 {
      NatDigitsRoundTrip(-n);
      assert ("-" + NatDigits(-n))[1..] == NatDigits(-n);
    } else {
      NatDigitsRoundTrip(n);
    }
  }
}
