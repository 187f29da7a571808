/** Character-level helpers of the log reader: reading lines, searching, trimming, and parsing numbers. */
module Text {
  import opened Seqs

  predicate StartsWith(s: string, prefix: string) { prefix <= s }

  predicate EndsWith(s: string, suffix: string)
  {
    |suffix| <= |s| && s[|s| - |suffix|..] == suffix
  }

  // ---------- Lines ----------

  /** The position of the first c in s, or the length of s. */
  function IndexOf(s: string, c: char): (n: nat)
    ensures n <= |s|
  {
    if s == "" || s[0] == c then 0 else 1 + IndexOf(s[1..], c)
  }

  lemma {:induction false} IndexOfIsFirst(s: string, c: char)
    ensures forall k :: 0 <= k < IndexOf(s, c) ==> s[k] != c
    ensures IndexOf(s, c) < |s| ==> s[IndexOf(s, c)] == c
  {
    if s != "" && s[0] != c {
      IndexOfIsFirst(s[1..], c);
      assert forall k :: 1 <= k < |s| ==> s[k] == s[1..][k - 1];
    }
  }

  /** The length of the first line of s, its newline included; all of s when there is no newline. */
  function LineLength(s: string): (n: nat)
    ensures n <= |s|
    ensures s != "" ==> n > 0
  {
    var n := IndexOf(s, '\n');
    if n < |s| then n + 1 else n
  }

  /** The lines of s, each with its newline; only the last may lack one. */
  function Lines(s: string): (ls: seq<string>)
    decreases |s|
  {
    if s == "" then [] else [s[..LineLength(s)]] + Lines(s[LineLength(s)..])
  }

  predicate IsTerminated(l: string) { l != "" && l[|l| - 1] == '\n' }

  /** A line: non-empty, with no newline before its last character. */
  predicate IsLine(l: string)
  {
    l != "" && forall k :: 0 <= k < |l| - 1 ==> l[k] != '\n'
  }

  /** A list of lines, all but the last of them terminated. */
  predicate AreLines(ls: seq<string>)
  {
    && (forall i :: 0 <= i < |ls| ==> IsLine(ls[i]))
    && (forall i :: 0 <= i < |ls| - 1 ==> IsTerminated(ls[i]))
  }

  lemma AreLinesCons(l: string, rest: seq<string>)
    requires IsLine(l) && AreLines(rest) && (rest != [] ==> IsTerminated(l))
    ensures AreLines([l] + rest)
  {
  }

  lemma FirstIsLine(s: string)
    requires s != ""
    ensures IsLine(s[..LineLength(s)])
    ensures LineLength(s) < |s| ==> IsTerminated(s[..LineLength(s)])
  {
    IndexOfIsFirst(s, '\n');
  }

  /** Cutting a text into lines loses nothing. */
  lemma {:induction false} LinesRebuild(s: string)
    ensures AreLines(Lines(s)) && Flatten(Lines(s)) == s
    decreases |s|
  {
    if s != "" {
      FirstIsLine(s);
      hide IsLine, IsTerminated, LineLength, AreLines, Flatten;
      var l, rest := s[..LineLength(s)], s[LineLength(s)..];
      assert s == l + rest;
      LinesRebuild(rest);
      FlattenCons(l, Lines(rest));
      assert Lines(rest) != [] ==> rest != "";
      AreLinesCons(l, Lines(rest));
    } else {
      assert Lines(s) == [];
    }
  }

  /** The first line of a line followed by more text is that line. */
  lemma FirstLine(l: string, rest: string)
    requires IsLine(l) && (rest == "" || IsTerminated(l))
    ensures LineLength(l + rest) == |l|
  {
    var s := l + rest;
    IndexOfIsFirst(s, '\n');
    var n := IndexOf(s, '\n');
    assert forall k :: 0 <= k < |l| ==> s[k] == l[k];
    assert n < |l| ==> l[n] == '\n';
  }

  /** Any list of lines is what its concatenation is cut into. */
  lemma {:induction false} LinesOfFlatten(ls: seq<string>)
    requires AreLines(ls)
    ensures Lines(Flatten(ls)) == ls
    decreases |ls|
  {
    if ls != [] {
      var l, rest := ls[0], ls[1..];
      assert AreLines(rest) by {
        assert forall i :: 0 <= i < |rest| ==> rest[i] == ls[i + 1];
      }
      LinesOfFlatten(rest);
      assert ls == [l] + rest;
      FlattenCons(l, rest);
      var s := l + Flatten(rest);
      if Flatten(rest) != "" {
        assert IsTerminated(ls[0]);
      }
      FirstLine(l, Flatten(rest));
      assert s[..|l|] == l && s[|l|..] == Flatten(rest);
    }
  }

  /** A view into the log: where it starts and what it reads. */
  datatype Ref = Ref(at: nat, text: string)

  /** What is left of data at a read position; None stands for npos. */
  function Rest(data: string, pos: Option<nat>): string
  {
    if pos.None? || pos.value >= |data| then "" else data[pos.value..]
  }

  /** Where the unread part of data starts. */
  function Offset(data: string, pos: Option<nat>): nat
  {
    if pos.None? || pos.value >= |data| then |data| else pos.value
  }

  /** Reads the next line and advances the position; an empty line signals the end. */
  method ReadLine(data: string, pos: Option<nat>) returns (line: Ref, newPos: Option<nat>)
    ensures line.text == Rest(data, pos)[..LineLength(Rest(data, pos))]
    ensures Rest(data, newPos) == Rest(data, pos)[|line.text|..]
    ensures line.text != "" ==> line.at == Offset(data, pos)
    ensures Offset(data, newPos) == Offset(data, pos) + |line.text|
  {
    if pos.None? || pos.value >= |data| {
      return Ref(0, ""), pos;
    }
    var rest := data[pos.value..];
    var newline := IndexOf(rest, '\n');
    var length := if newline < |rest| then newline + 1 else newline;
    line := Ref(pos.value, rest[..length]);
    newPos := if newline == |rest| then None else Some(pos.value + length);
    assert Rest(data, newPos) == rest[length..];
  }

  /** Reading a line takes the first of the lines that are left. */
  lemma {:induction false} NextLine(s: string, lines: seq<string>, n: nat)
    requires n <= |lines| && Lines(s) == lines[n..]
    ensures s[..LineLength(s)] == "" <==> n == |lines|
    ensures n < |lines| ==> lines[n] == s[..LineLength(s)] && Lines(s[LineLength(s)..]) == lines[n + 1..]
  {
    if s != "" {
      var l, rest := s[..LineLength(s)], Lines(s[LineLength(s)..]);
      assert lines[n..] == [l] + rest;
      assert lines[n] == lines[n..][0];
      assert lines[n + 1..] == lines[n..][1..];
    }
  }

  // ---------- Searching ----------

  predicate OccursAt(s: string, sub: string, i: nat)
  {
    i + |sub| <= |s| && s[i..i + |sub|] == sub
  }

  function FindFrom(s: string, sub: string, from: nat): (r: Option<nat>)
    requires from <= |s|
    ensures r.Some? ==>
              && from <= r.value <= |s| && OccursAt(s, sub, r.value)
              && forall k: nat :: from <= k < r.value ==> !OccursAt(s, sub, k)
    ensures r.None? ==> forall k: nat :: from <= k ==> !OccursAt(s, sub, k)
    decreases |s| - from
  {
    if OccursAt(s, sub, from) then Some(from)
    else if from == |s| then None
    else FindFrom(s, sub, from + 1)
  }

  /** The first place where sub occurs in s. */
  function Find(s: string, sub: string): (r: Option<nat>)
    ensures r.Some? ==> OccursAt(s, sub, r.value) && forall k: nat :: k < r.value ==> !OccursAt(s, sub, k)
    ensures r.None? <==> forall k: nat :: !OccursAt(s, sub, k)
  {
    FindFrom(s, sub, 0)
  }

  predicate Contains(s: string, sub: string) { Find(s, sub).Some? }

  // ---------- Searching by lines ----------

  /** A line other than the first begins with start. */
  predicate LaterLineStarts(lines: seq<string>, start: string)
  {
    exists k :: 0 < k < |lines| && start <= lines[k]
  }

  lemma {:induction false} FirstLineStarts(s: string, start: string)
    requires start != "" && forall k :: 0 <= k < |start| ==> start[k] != '\n'
    ensures start <= s <==> Lines(s) != [] && start <= Lines(s)[0]
  {
    if s != "" {
      IndexOfIsFirst(s, '\n');
      var n := LineLength(s);
      assert Lines(s)[0] == s[..n];
      if start <= s {
        assert forall k :: 0 <= k < |start| ==> s[k] == start[k];
        assert |start| <= n;
        assert start == s[..|start|] == s[..n][..|start|];
      }
    }
  }

  lemma {:induction false} OccursShifted(a: string, b: string, sub: string, i: nat)
    ensures OccursAt(a + b, sub, |a| + i) <==> OccursAt(b, sub, i)
  {
    if i + |sub| <= |b| {
      assert (a + b)[|a| + i..|a| + i + |sub|] == b[i..i + |sub|];
    }
  }

  /** Behind a newline is where a later line begins. */
  lemma {:induction false} NewlineThenStart(s: string, start: string)
    requires start != "" && forall k :: 0 <= k < |start| ==> start[k] != '\n'
    ensures (exists i: nat :: OccursAt(s, "\n" + start, i)) <==> LaterLineStarts(Lines(s), start)
    decreases |s|
  {
    hide LineLength, Lines, OccursAt;
    if s == "" {
      NothingOccurs(start);
    } else {
      var l, rest := s[..LineLength(s)], s[LineLength(s)..];
      assert s == l + rest && Lines(s) == [l] + Lines(rest) by {
        LinesOfNonEmpty(s);
      }
      NewlineThenStart(rest, start);
      FirstLineStarts(rest, start);
      StartOrRest(s, l, rest, start);
      LaterOrRest(l, Lines(rest), start);
    }
  }

  lemma LinesOfNonEmpty(s: string)
    requires s != ""
    ensures Lines(s) == [s[..LineLength(s)]] + Lines(s[LineLength(s)..]) && 0 < LineLength(s) <= |s|
  {
  }

  lemma NothingOccurs(start: string)
    ensures forall i: nat :: !OccursAt("", "\n" + start, i)
    ensures !LaterLineStarts(Lines(""), start)
  {
  }

  lemma LaterOrRest(l: string, lines: seq<string>, start: string)
    ensures LaterLineStarts([l] + lines, start) <==> (lines != [] && start <= lines[0]) || LaterLineStarts(lines, start)
  {
    var all := [l] + lines;
    if lines != [] && start <= lines[0] {
      assert start <= all[1];
    }
    if k :| 0 < k < |lines| && start <= lines[k] {
      assert start <= all[k + 1];
    }
    if k :| 0 < k < |all| && start <= all[k] {
      assert all[k] == lines[k - 1];
    }
  }

  /** A newline and start occur in s where its first line ends, or further on. */
  lemma {:induction false} StartOrRest(s: string, l: string, rest: string, start: string)
    requires s != "" && l == s[..LineLength(s)] && rest == s[LineLength(s)..] && start != ""
    ensures (exists i: nat :: OccursAt(s, "\n" + start, i)) <==>
            start <= rest || (exists i: nat :: OccursAt(rest, "\n" + start, i))
  {
    var sub := "\n" + start;
    FirstIsLine(s);
    assert s == l + rest;
    hide LineLength;
    if start <= rest {
      assert IsTerminated(l);
      AtLineEnd(l, rest, start);
    }
    if i: nat :| OccursAt(rest, sub, i) {
      OccursShifted(l, rest, sub, i);
    }
    if i: nat :| OccursAt(s, sub, i) {
      OccursHere(s, sub, i);
      if i >= |l| {
        OccursShifted(l, rest, sub, i - |l|);
      } else {
        assert l[i] == '\n' && i == |l| - 1;
        assert IsTerminated(l);
        AtLineEnd(l, rest, start);
      }
    }
  }

  lemma OccursHere(s: string, sub: string, i: nat)
    requires sub != ""
    ensures OccursAt(s, sub, i) ==> i < |s| && s[i] == sub[0]
  {
    if OccursAt(s, sub, i) {
      assert s[i..i + |sub|][0] == s[i];
    }
  }

  lemma {:induction false} AtLineEnd(l: string, rest: string, start: string)
    requires IsTerminated(l)
    ensures OccursAt(l + rest, "\n" + start, |l| - 1) <==> start <= rest
  {
    var s, sub, n := l + rest, "\n" + start, |l| - 1;
    if n + |sub| <= |s| {
      assert s[n..n + |sub|] == "\n" + rest[..|start|];
      assert sub[1..] == start && ("\n" + rest[..|start|])[1..] == rest[..|start|];
    }
  }

  // ---------- Trimming ----------

  predicate IsBlank(c: char) { c == ' ' || c == '\n' || c == '\r' || c == '\t' }

  /** How many blanks s begins with, and how many characters it has up to its last non-blank. */
  function LeadingBlanks(s: string): (n: nat)
    ensures n <= |s|
  {
    if s != "" && IsBlank(s[0]) then 1 + LeadingBlanks(s[1..]) else 0
  }

  function WithoutTrailing(s: string): (n: nat)
    ensures n <= |s|
  {
    if s != "" && IsBlank(s[|s| - 1]) then WithoutTrailing(s[..|s| - 1]) else |s|
  }

  function TrimLeft(s: string): string { s[LeadingBlanks(s)..] }

  function TrimRight(s: string): string { s[..WithoutTrailing(s)] }

  /** s without the blanks at its two ends. */
  function Trim(s: string): (r: string) { TrimRight(TrimLeft(s)) }

  lemma {:induction false} LeadingAreBlank(s: string)
    ensures forall k :: 0 <= k < LeadingBlanks(s) ==> IsBlank(s[k])
    ensures LeadingBlanks(s) < |s| ==> !IsBlank(s[LeadingBlanks(s)])
  {
    if s != "" && IsBlank(s[0]) {
      LeadingAreBlank(s[1..]);
      assert forall k :: 1 <= k < |s| ==> s[k] == s[1..][k - 1];
    }
  }

  lemma {:induction false} TrailingAreBlank(s: string)
    ensures forall k :: WithoutTrailing(s) <= k < |s| ==> IsBlank(s[k])
    ensures WithoutTrailing(s) > 0 ==> !IsBlank(s[WithoutTrailing(s) - 1])
  {
    if s != "" && IsBlank(s[|s| - 1]) {
      TrailingAreBlank(s[..|s| - 1]);
    }
  }

  /** The blanks are the four characters of the source's set. */
  lemma BlankIff(c: char)
    ensures IsBlank(c) <==> c in " \n\r\t"
  {
    var blanks := " \n\r\t";
    assert blanks[0] == ' ' && blanks[1] == '\n' && blanks[2] == '\r' && blanks[3] == '\t';
  }

  ghost predicate AllBlank(s: string) { forall k :: 0 <= k < |s| ==> IsBlank(s[k]) }

  /** Trimming takes blanks off the two ends, all of them, and nothing else. */
  lemma TrimIsMiddle(s: string) returns (left: string, right: string)
    ensures s == left + Trim(s) + right && AllBlank(left) && AllBlank(right)
    ensures Trim(s) != "" ==> !IsBlank(Trim(s)[0]) && !IsBlank(Trim(s)[|Trim(s)| - 1])
  {
    hide IsBlank;
    var t, n := TrimLeft(s), LeadingBlanks(s);
    var m := WithoutTrailing(t);
    LeadingAreBlank(s);
    TrailingAreBlank(t);
    hide LeadingBlanks, WithoutTrailing;
    left, right := s[..n], t[m..];
  }

  // ---------- Numbers ----------

  const ULLONG_MAX: nat := 0xFFFF_FFFF_FFFF_FFFF

  predicate IsSpace(c: char) { c == ' ' || '\t' <= c <= '\r' }

  predicate IsDigit(c: char) { '0' <= c <= '9' }

  function SkipSpace(s: string): string
  {
    if s != "" && IsSpace(s[0]) then SkipSpace(s[1..]) else s
  }

  /** The value of the digits s begins with, after the digits whose value is acc. */
  function Digits(s: string, acc: nat): nat
  {
    if s != "" && IsDigit(s[0]) then Digits(s[1..], 10 * acc + (s[0] as int - '0' as int)) else acc
  }

  /** strtoull in base 10: spaces, a sign, digits; saturating, with '-' wrapping around. */
  function Strtoull(s: string): (n: nat)
    ensures n <= ULLONG_MAX
  {
    var t := SkipSpace(s);
    var negative := t != "" && t[0] == '-';
    var value := Digits(if t != "" && (t[0] == '-' || t[0] == '+') then t[1..] else t, 0);
    if value > ULLONG_MAX then ULLONG_MAX
    else if negative && value > 0 then ULLONG_MAX + 1 - value
    else value
  }

  /** The number that follows the first occurrence of a label, if the label occurs. */
  function NumberAfter(s: string, wanted: string): Option<nat>
  {
    var found := Find(s, wanted);
    if found.None? then None else Some(Strtoull(s[found.value + |wanted|..]))
  }

  /** A number as it is printed in decimal. */
  function Decimal(n: nat): (s: string)
    ensures s != "" && forall k :: 0 <= k < |s| ==> IsDigit(s[k])
  {
    var digit := '0' + (n % 10) as char;
    if n < 10 then [digit] else Decimal(n / 10) + [digit]
  }

  /** Behind a number that has been printed no digit follows. */
  predicate EndsNumber(rest: string) { rest == "" || !('0' <= rest[0] <= '9') }

  lemma {:induction false} DigitsSkip(s: string, acc: nat, rest: string)
    requires (forall k :: 0 <= k < |s| ==> IsDigit(s[k])) && EndsNumber(rest)
    ensures Digits(s + rest, acc) == Digits(s, acc)
  {
    if s == "" {
      assert s + rest == rest;
    } else {
      assert (s + rest)[1..] == s[1..] + rest;
      DigitsSkip(s[1..], 10 * acc + (s[0] as int - '0' as int), rest);
    }
  }

  lemma {:induction false} DigitsPush(s: string, acc: nat, c: char)
    requires (forall k :: 0 <= k < |s| ==> IsDigit(s[k])) && IsDigit(c)
    ensures Digits(s + [c], acc) == 10 * Digits(s, acc) + (c as int - '0' as int)
  {
    if s == "" {
      assert s + [c] == [c] && [c][1..] == "";
    } else {
      assert (s + [c])[1..] == s[1..] + [c];
      DigitsPush(s[1..], 10 * acc + (s[0] as int - '0' as int), c);
    }
  }

  lemma {:induction false} DigitsOfDecimal(n: nat)
    ensures Digits(Decimal(n), 0) == n
  {
    var c := '0' + (n % 10) as char;
    if n < 10 {
      DigitsPush("", 0, c);
      assert "" + [c] == [c];
    } else {
      DigitsOfDecimal(n / 10);
      DigitsPush(Decimal(n / 10), 0, c);
    }
  }

  /** White space as strtoull skips it. */
  predicate IsWhite(c: char)
  {
    c == ' ' || c == '\t' || c == '\n' || c == '\U{00000B}' || c == '\U{00000C}' || c == '\r'
  }

  predicate AllWhite(s: string) { forall k :: 0 <= k < |s| ==> IsWhite(s[k]) }

  lemma {:induction false} SkipsPad(pad: string, rest: string)
    requires AllWhite(pad) && (rest == "" || !IsWhite(rest[0]))
    ensures SkipSpace(pad + rest) == rest
  {
    if pad == "" {
      assert pad + rest == rest;
    } else {
      assert (pad + rest)[1..] == pad[1..] + rest;
      SkipsPad(pad[1..], rest);
    }
  }

  predicate AllZero(s: string) { forall k :: 0 <= k < |s| ==> s[k] == '0' }

  lemma {:induction false} DigitsAfterZeros(zeros: string, s: string)
    requires AllZero(zeros)
    ensures Digits(zeros + s, 0) == Digits(s, 0)
  {
    if zeros == "" {
      assert zeros + s == s;
    } else {
      assert (zeros + s)[1..] == zeros[1..] + s;
      DigitsAfterZeros(zeros[1..], s);
    }
  }

  /** The digits of a number, with leading zeros and with whatever follows it. */
  lemma {:induction false} PrintedDigits(zeros: string, n: nat, rest: string)
    requires AllZero(zeros) && EndsNumber(rest)
    ensures Digits(zeros + Decimal(n) + rest, 0) == n
    ensures IsDigit((zeros + Decimal(n))[0])
  {
    hide Digits, Decimal;
    assert zeros + Decimal(n) + rest == zeros + (Decimal(n) + rest);
    DigitsAfterZeros(zeros, Decimal(n) + rest);
    DigitsSkip(Decimal(n), 0, rest);
    DigitsOfDecimal(n);
    assert (zeros + Decimal(n))[0] == if zeros == "" then Decimal(n)[0] else zeros[0];
  }

  /**
    A printed number is read back behind any white space, sign and leading zeros; one that does not fit reads as the
    largest, and a minus sign wraps around.
   */
  lemma {:induction false} StrtoullReadsBack(pad: string, sign: string, zeros: string, n: nat, rest: string)
    requires AllWhite(pad) && AllZero(zeros) && EndsNumber(rest) && (sign == "" || sign == "+" || sign == "-")
    ensures Strtoull(pad + (sign + (zeros + Decimal(n) + rest))) ==
            if n > 0xFFFF_FFFF_FFFF_FFFF then 0xFFFF_FFFF_FFFF_FFFF
            else if sign == "-" && n > 0 then 0x1_0000_0000_0000_0000 - n
            else n
  {
    hide Digits, Decimal, SkipSpace;
    var digits := zeros + Decimal(n) + rest;
    var s := sign + digits;
    PrintedDigits(zeros, n, rest);
    assert digits[0] == (zeros + Decimal(n))[0];
    assert s[0] == if sign == "" then digits[0] else sign[0];
    SkipsPad(pad, s);
    if sign != "" {
      assert s[1..] == digits;
    } else {
      assert s == digits;
    }
  }

  /** Without a digit behind the white space and the sign nothing is read. */
  lemma {:induction false} StrtoullReadsNothing(pad: string, sign: string, rest: string)
    requires AllWhite(pad) && EndsNumber(rest) && (sign == "" || sign == "+" || sign == "-")
    requires sign == "" && rest != "" ==> !IsWhite(rest[0]) && rest[0] != '+' && rest[0] != '-'
    ensures Strtoull(pad + (sign + rest)) == 0
  {
    hide SkipSpace;
    var s := sign + rest;
    assert sign != "" ==> s[0] == sign[0] && s[1..] == rest;
    assert sign == "" ==> s == rest;
    SkipsPad(pad, s);
  }

  /** A number behind the first occurrence of its label, padded or not, is read back. */
  lemma {:induction false} LabelledReadsBack(before: string, wanted: string, pad: string, n: nat, rest: string)
    requires AllWhite(pad) && EndsNumber(rest)
    requires forall k: nat :: k < |before| ==> !OccursAt(before + wanted + pad + Decimal(n) + rest, wanted, k)
    ensures NumberAfter(before + wanted + pad + Decimal(n) + rest, wanted) ==
            Some(if n <= 0xFFFF_FFFF_FFFF_FFFF then n else 0xFFFF_FFFF_FFFF_FFFF)
  {
    hide Decimal, Strtoull;
    var s := before + wanted + pad + Decimal(n) + rest;
    LabelFound(before, wanted, pad + Decimal(n) + rest);
    assert before + wanted + (pad + Decimal(n) + rest) == s;
    hide OccursAt;
    assert pad + Decimal(n) + rest == pad + ("" + ("" + Decimal(n) + rest));
    StrtoullReadsBack(pad, "", "", n, rest);
  }

  lemma LabelFound(before: string, wanted: string, behind: string)
    ensures var s := before + wanted + behind;
            OccursAt(s, wanted, |before|) && s[|before| + |wanted|..] == behind
  {
    assert (before + wanted + behind)[|before|..|before| + |wanted|] == wanted;
  }
}
