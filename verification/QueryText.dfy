/** The SQL text of a log record: metadata and timestamps dropped, lines trimmed and joined. */
module QueryText {
  import opened Seqs
  import opened Text

  predicate IsMetadata(line: string) { StartsWith(line, "#") }

  predicate IsSetTimestamp(line: string) { StartsWith(line, "SET timestamp=") }

  /** The lines from the first one that is not metadata. */
  function DropMetadata(lines: seq<string>): seq<string>
  {
    if lines != [] && IsMetadata(lines[0]) then DropMetadata(lines[1..]) else lines
  }

  predicate Dropped(removeTimestamp: bool, line: string) { removeTimestamp && IsSetTimestamp(line) }

  /** The trimmed lines that are neither dropped nor blank. */
  function Pieces(removeTimestamp: bool, lines: seq<string>): seq<string>
  {
    if lines == [] then []
    else
      var line := lines[|lines| - 1];
      Pieces(removeTimestamp, lines[..|lines| - 1])
      + (if Dropped(removeTimestamp, line) || Trim(line) == "" then [] else [Trim(line)])
  }

  /** The pieces with one space between neighbours. */
  function JoinWithSpace(pieces: seq<string>): string
  {
    if pieces == [] then ""
    else if |pieces| == 1 then pieces[0]
    else JoinWithSpace(pieces[..|pieces| - 1]) + " " + pieces[|pieces| - 1]
  }

  function QueryOfLines(removeTimestamp: bool, lines: seq<string>): string
  {
    JoinWithSpace(Pieces(removeTimestamp, DropMetadata(lines)))
  }

  /** What getQuery computes, as a pipeline over the lines of the record. */
  function QueryOf(data: string, removeTimestamp: bool): string
  {
    QueryOfLines(removeTimestamp, Lines(data))
  }

  // ---------- The loop computes the pipeline ----------

  lemma {:induction false} DropMetadataPush(lines: seq<string>, line: string)
    ensures DropMetadata(lines + [line]) ==
            if DropMetadata(lines) == [] && IsMetadata(line) then [] else DropMetadata(lines) + [line]
  {
    hide IsMetadata;
    var all := lines + [line];
    assert all[0] == if lines == [] then line else lines[0];
    if lines == [] {
      assert all[1..] == [] && DropMetadata([]) == [];
    } else if IsMetadata(lines[0]) {
      assert all[1..] == lines[1..] + [line];
      DropMetadataPush(lines[1..], line);
    }
  }

  lemma {:induction false} PiecesPush(removeTimestamp: bool, lines: seq<string>, line: string)
    ensures Pieces(removeTimestamp, lines + [line]) ==
            Pieces(removeTimestamp, lines)
            + (if Dropped(removeTimestamp, line) || Trim(line) == "" then [] else [Trim(line)])
  {
    hide Dropped, Trim;
    assert (lines + [line])[..|lines|] == lines;
  }

  /** The text so far, after a further piece. */
  lemma {:induction false} JoinPush(pieces: seq<string>, piece: string)
    requires forall i :: 0 <= i < |pieces| ==> pieces[i] != ""
    ensures JoinWithSpace(pieces) == "" <==> pieces == []
    ensures JoinWithSpace(pieces + [piece]) ==
            (if JoinWithSpace(pieces) == "" then "" else JoinWithSpace(pieces) + " ") + piece
  {
    assert (pieces + [piece])[..|pieces|] == pieces;
  }

  lemma {:induction false} PiecesNonEmpty(removeTimestamp: bool, lines: seq<string>)
    ensures forall i :: 0 <= i < |Pieces(removeTimestamp, lines)| ==> Pieces(removeTimestamp, lines)[i] != ""
  {
    hide Dropped, Trim;
    if lines != [] {
      PiecesNonEmpty(removeTimestamp, lines[..|lines| - 1]);
    }
  }

  /** What one more line does to the text. */
  lemma {:induction false} QueryPush(removeTimestamp: bool, lines: seq<string>, line: string)
    ensures QueryOfLines(removeTimestamp, lines + [line]) ==
            if (DropMetadata(lines) == [] && IsMetadata(line)) || Dropped(removeTimestamp, line) || Trim(line) == ""
            then QueryOfLines(removeTimestamp, lines)
            else (if QueryOfLines(removeTimestamp, lines) == "" then "" else QueryOfLines(removeTimestamp, lines) + " ")
                 + Trim(line)
  {
    hide IsMetadata, Dropped, Trim, DropMetadata, Pieces, JoinWithSpace;
    var kept := DropMetadata(lines);
    DropMetadataPush(lines, line);
    if kept != [] || !IsMetadata(line) {
      var pieces := Pieces(removeTimestamp, kept);
      PiecesPush(removeTimestamp, kept, line);
      PiecesNonEmpty(removeTimestamp, kept);
      if Dropped(removeTimestamp, line) || Trim(line) == "" {
        assert pieces + [] == pieces;
      } else {
        JoinPush(pieces, Trim(line));
      }
    }
  }

  lemma QueryOfNothing(removeTimestamp: bool, lines: seq<string>)
    requires lines == []
    ensures QueryOfLines(removeTimestamp, lines) == "" && DropMetadata(lines) == []
  {
  }

  method GetQuery(data: string, removeTimestamp: bool) returns (ret: string)
    ensures ret == QueryOf(data, removeTimestamp)
  {
    hide IsMetadata, Dropped, Trim, LineLength, Lines, QueryOfLines, DropMetadata, Offset;
    ret := "";
    ghost var lines, n := Lines(data), 0;
    var pos := Some(0);
    var foundNonCommentLine := false;
    QueryOfNothing(removeTimestamp, lines[..0]);
    assert Rest(data, pos) == data;
    while true
      invariant n <= |lines| && Lines(Rest(data, pos)) == lines[n..]
      invariant foundNonCommentLine <==> DropMetadata(lines[..n]) != []
      invariant ret == QueryOfLines(removeTimestamp, lines[..n])
      decreases |lines| - n
    {
      NextLine(Rest(data, pos), lines, n);
      var line;
      line, pos := ReadLine(data, pos);
      if line.text == "" {
        break;
      }
      assert line.text == lines[n] && lines[..n + 1] == lines[..n] + [line.text];
      QueryPush(removeTimestamp, lines[..n], line.text);
      DropMetadataPush(lines[..n], line.text);
      n := n + 1;
      if !foundNonCommentLine && IsMetadata(line.text) {
        continue;
      }
      foundNonCommentLine := true;
      if Dropped(removeTimestamp, line.text) {
        continue;
      }
      var trimmed := Trim(line.text);
      if trimmed == "" {
        continue;
      }
      if ret != "" {
        ret := ret + " ";
      }
      ret := ret + trimmed;
    }
    assert lines[..n] == lines;
  }

  // ---------- What the text looks like ----------

  function NotBlank(): char -> bool { (c: char) => !IsBlank(c) }

  /** A text without blanks. */
  function Strip(s: string): string { Filter(NotBlank(), s) }

  function StripAll(lines: seq<string>): string
  {
    if lines == [] then "" else StripAll(lines[..|lines| - 1]) + Strip(lines[|lines| - 1])
  }

  lemma StripTrimLeft(s: string)
    ensures Strip(TrimLeft(s)) == Strip(s)
  {
    var n := LeadingBlanks(s);
    LeadingAreBlank(s);
    hide LeadingBlanks, IsBlank;
    var head, tail := s[..n], s[n..];
    assert forall c :: c in head ==> !NotBlank()(c);
    FilterNone(NotBlank(), head);
    FilterAppend(NotBlank(), head, tail);
    assert s == head + tail;
  }

  lemma StripTrimRight(s: string)
    ensures Strip(TrimRight(s)) == Strip(s)
  {
    var n := WithoutTrailing(s);
    TrailingAreBlank(s);
    hide WithoutTrailing, IsBlank;
    var head, tail := s[..n], s[n..];
    assert forall c :: c in tail ==> !NotBlank()(c);
    FilterNone(NotBlank(), tail);
    FilterAppend(NotBlank(), head, tail);
    assert s == head + tail;
  }

  lemma StripTrim(s: string)
    ensures Strip(Trim(s)) == Strip(s)
  {
    hide Strip, TrimLeft, TrimRight;
    StripTrimLeft(s);
    StripTrimRight(TrimLeft(s));
  }

  /** The lines the text is made of: after the metadata, without the timestamp lines if those are removed. */
  function KeptLines(removeTimestamp: bool, lines: seq<string>): seq<string>
  {
    if lines == [] then []
    else
      var line := lines[|lines| - 1];
      KeptLines(removeTimestamp, lines[..|lines| - 1]) + (if Dropped(removeTimestamp, line) then [] else [line])
  }

  lemma {:induction false} StripPieces(removeTimestamp: bool, lines: seq<string>)
    ensures StripAll(Pieces(removeTimestamp, lines)) == StripAll(KeptLines(removeTimestamp, lines))
  {
    hide Dropped, Trim, Strip;
    if lines != [] {
      var init, line := lines[..|lines| - 1], lines[|lines| - 1];
      StripPieces(removeTimestamp, init);
      StripTrim(line);
      var before, kept := Pieces(removeTimestamp, init), KeptLines(removeTimestamp, init);
      assert (before + [Trim(line)])[..|before|] == before;
      assert (kept + [line])[..|kept|] == kept;
      assert before + [] == before && kept + [] == kept;
      StripNothing();
    }
  }

  lemma StripNothing()
    ensures Strip("") == "" && Strip(" ") == ""
  {
    assert " "[..0] == "";
  }

  lemma {:induction false} StripJoin(pieces: seq<string>)
    ensures Strip(JoinWithSpace(pieces)) == StripAll(pieces)
  {
    if |pieces| == 1 {
      assert StripAll(pieces) == StripAll(pieces[..0]) + Strip(pieces[0]);
    } else if pieces != [] {
      var init, last := pieces[..|pieces| - 1], pieces[|pieces| - 1];
      StripJoin(init);
      FilterAppend(NotBlank(), JoinWithSpace(init) + " ", last);
      FilterAppend(NotBlank(), JoinWithSpace(init), " ");
      StripNothing();
    }
  }

  /** Apart from blanks the text is exactly what the kept lines say, in order. */
  lemma {:induction false} QueryKeepsText(data: string, removeTimestamp: bool)
    ensures Strip(QueryOf(data, removeTimestamp)) == StripAll(KeptLines(removeTimestamp, DropMetadata(Lines(data))))
  {
    StripJoin(Pieces(removeTimestamp, DropMetadata(Lines(data))));
    StripPieces(removeTimestamp, DropMetadata(Lines(data)));
  }

  /** One line, with no blank at either end. */
  predicate IsTidy(s: string)
  {
    && (forall k :: 0 <= k < |s| ==> s[k] != '\n')
    && (s != "" ==> !IsBlank(s[0]) && !IsBlank(s[|s| - 1]))
  }

  lemma TrimOfLine(line: string)
    requires IsLine(line)
    ensures IsTidy(Trim(line))
  {
    var t := TrimLeft(line);
    LeadingAreBlank(line);
    TrailingAreBlank(t);
    hide LeadingBlanks, WithoutTrailing;
    var n, m := LeadingBlanks(line), WithoutTrailing(t);
    forall k | 0 <= k < m
      ensures t[..m][k] != '\n'
    {
      assert t[k] == line[n + k];
      assert k < m - 1 || !IsBlank(t[k]);
    }
  }

  lemma {:induction false} JoinTidy(pieces: seq<string>)
    requires forall i :: 0 <= i < |pieces| ==> IsTidy(pieces[i]) && pieces[i] != ""
    ensures IsTidy(JoinWithSpace(pieces)) && (pieces != [] ==> JoinWithSpace(pieces) != "")
  {
    if |pieces| > 1 {
      JoinTidy(pieces[..|pieces| - 1]);
    }
  }

  lemma {:induction false} PiecesTidy(removeTimestamp: bool, lines: seq<string>)
    requires forall i :: 0 <= i < |lines| ==> IsLine(lines[i])
    ensures forall i :: 0 <= i < |Pieces(removeTimestamp, lines)| ==>
              IsTidy(Pieces(removeTimestamp, lines)[i]) && Pieces(removeTimestamp, lines)[i] != ""
  {
    hide Dropped, Trim, IsTidy, IsLine;
    if lines != [] {
      PiecesTidy(removeTimestamp, lines[..|lines| - 1]);
      TrimOfLine(lines[|lines| - 1]);
    }
  }

  lemma {:induction false} DropMetadataMembers(lines: seq<string>)
    requires forall i :: 0 <= i < |lines| ==> IsLine(lines[i])
    ensures forall i :: 0 <= i < |DropMetadata(lines)| ==> IsLine(DropMetadata(lines)[i])
  {
    hide IsMetadata, IsLine;
    if lines != [] {
      DropMetadataMembers(lines[1..]);
    }
  }

  /** The text is a single line without outer blanks. */
  lemma QueryIsTidy(data: string, removeTimestamp: bool)
    ensures IsTidy(QueryOf(data, removeTimestamp))
  {
    hide IsTidy, IsLine, IsTerminated, Pieces, DropMetadata, JoinWithSpace, Lines;
    LinesRebuild(data);
    DropMetadataMembers(Lines(data));
    PiecesTidy(removeTimestamp, DropMetadata(Lines(data)));
    JoinTidy(Pieces(removeTimestamp, DropMetadata(Lines(data))));
  }

  lemma {:induction false} LinesOfTidy(q: string)
    requires IsTidy(q) && q != ""
    ensures Lines(q) == [q]
  {
    IndexOfIsFirst(q, '\n');
    assert LineLength(q) == |q|;
    assert q[..|q|] == q && Lines(q[|q|..]) == [];
  }

  lemma TrimOfTidy(s: string)
    requires IsTidy(s)
    ensures Trim(s) == s
  {
    assert LeadingBlanks(s) == 0 && WithoutTrailing(s) == |s|;
  }

  /** Extracting again changes a text exactly when it reads like a metadata or timestamp line. */
  lemma QueryFixedPointIff(data: string, removeTimestamp: bool)
    ensures var q := QueryOf(data, removeTimestamp);
            QueryOf(q, removeTimestamp) == q <==> q == "" || !(IsMetadata(q) || Dropped(removeTimestamp, q))
  {
    var q := QueryOf(data, removeTimestamp);
    QueryIsTidy(data, removeTimestamp);
    hide IsMetadata, Dropped, Trim, IsTidy, QueryOfLines, LineLength;
    if q == "" {
      QueryOfNothing(removeTimestamp, Lines(q));
    } else {
      hide Lines;
      LinesOfTidy(q);
      TrimOfTidy(q);
      QueryOfNothing(removeTimestamp, []);
      QueryPush(removeTimestamp, [], q);
      assert [] + [q] == [q];
    }
  }

  lemma {:induction false} TwoLines(a: string, b: string)
    requires IsLine(a) && IsTerminated(a) && IsLine(b)
    ensures Lines(a + b) == [] + [a] + [b]
  {
    hide IsLine, IsTerminated, Lines;
    LinesOfFlatten([] + [a] + [b]);
    FlattenCons(a, [b]);
    FlattenCons(b, []);
    assert [a] + [b] == [] + [a] + [b] && [b] + [] == [b] && b + "" == b;
    assert Flatten<char>([]) == "";
  }

  lemma TrimExample()
    ensures Trim(" #x\n") == "#x"
  {
    var s := " #x\n";
    assert s[1..] == "#x\n" && LeadingBlanks("#x\n") == 0 && LeadingBlanks(s) == 1;
    assert "#x\n"[..2] == "#x" && WithoutTrailing("#x") == 2 && WithoutTrailing("#x\n") == 2;
  }

  /** Such texts come up: an indented line behind the metadata may read like metadata once it has been trimmed. */
  lemma NotAlwaysFixed(removeTimestamp: bool)
    ensures QueryOf("#u\n" + " #x\n", removeTimestamp) == "#x"
    ensures QueryOf("#x", removeTimestamp) != "#x"
  {
    var a, b := "#u\n", " #x\n";
    assert b[0] != "#"[0] && b[0] != "SET timestamp="[0];
    assert IsLine(a) && IsTerminated(a) && IsLine(b) && IsMetadata(a) && !IsMetadata(b);
    assert IsMetadata("#x") && !Dropped(removeTimestamp, b);
    hide IsLine, IsTerminated, IsMetadata, Dropped, Lines, QueryOfLines, DropMetadata, Trim;
    TwoLines(a, b);
    TrimExample();
    QueryOfNothing(removeTimestamp, []);
    QueryPush(removeTimestamp, [], a);
    QueryPush(removeTimestamp, [] + [a], b);
    QueryFixedPointIff(a + b, removeTimestamp);
  }

  // ---------- The text said in other words ----------

  /** The metadata of a record are the first k of its lines. */
  ghost predicate MetadataEnds(lines: seq<string>, k: nat)
  {
    && k <= |lines| && (forall m :: 0 <= m < k ==> "#" <= lines[m])
    && (k < |lines| ==> !("#" <= lines[k]))
  }

  function Wanted(removeTimestamp: bool): string -> bool
  {
    (line: string) => !(removeTimestamp && "SET timestamp=" <= line)
  }

  function Printed(): char -> bool { (c: char) => c != ' ' && c != '\n' && c != '\r' && c != '\t' }

  predicate NothingPrinted(s: string) { forall k :: 0 <= k < |s| ==> !Printed()(s[k]) }

  /** t is what lies between the outer blanks of line. */
  ghost predicate IsMiddle(line: string, t: string, i: nat, j: nat)
  {
    && i <= j <= |line| && t == line[i..j] && NothingPrinted(line[..i]) && NothingPrinted(line[j..])
    && (t != "" ==> Printed()(t[0]) && Printed()(t[|t| - 1]))
  }

  ghost predicate IsTrimmed(line: string, t: string) { exists i, j :: IsMiddle(line, t, i, j) }

  ghost predicate AreTrimmed(lines: seq<string>, ts: seq<string>)
  {
    |ts| == |lines| && forall i :: 0 <= i < |ts| ==> IsTrimmed(lines[i], ts[i])
  }

  function IsNonEmpty(): string -> bool { (t: string) => t != "" }

  function Spaced(pieces: seq<string>): (r: seq<string>)
    ensures |r| == |pieces| && forall i :: 0 <= i < |r| ==> r[i] == " " + pieces[i]
  {
    seq(|pieces|, i requires 0 <= i < |pieces| => " " + pieces[i])
  }

  /** The first piece, and each further one behind a single space. */
  function Joined(pieces: seq<string>): string
  {
    if pieces == [] then "" else pieces[0] + Flatten(Spaced(pieces[1..]))
  }

  /** The text is made of kept lines: trimmed, those left empty dropped, the others joined. */
  ghost predicate MadeOf(kept: seq<string>, ts: seq<string>, text: string)
  {
    AreTrimmed(kept, ts) && text == Joined(Filter(IsNonEmpty(), ts))
  }

  /** One line, neither beginning nor ending with a blank. */
  ghost predicate IsOneLine(text: string)
  {
    && (forall k :: 0 <= k < |text| ==> text[k] != '\n')
    && (text != "" ==> Printed()(text[0]) && Printed()(text[|text| - 1]))
  }

  /**
    The text of a record whose lines are given: a single line, made of the lines from the first one that does not
    begin with '#', without those that begin with "SET timestamp=" if they are to be removed, and with exactly the
    non-blank characters of these.
   */
  ghost predicate IsTextOf(lines: seq<string>, removeTimestamp: bool, text: string)
  {
    exists k: nat, ts: seq<string> ::
      && MetadataEnds(lines, k)
      && IsOneLine(text)
      && MadeOf(Filter(Wanted(removeTimestamp), lines[k..]), ts, text)
      && Filter(Printed(), text) == Filter(Printed(), Flatten(Filter(Wanted(removeTimestamp), lines[k..])))
  }

  // ---------- The pipeline computes it ----------

  lemma {:induction false} MetadataDropped(lines: seq<string>) returns (k: nat)
    ensures MetadataEnds(lines, k) && DropMetadata(lines) == lines[k..]
  {
    if lines != [] && IsMetadata(lines[0]) {
      var j := MetadataDropped(lines[1..]);
      k := j + 1;
      assert lines[k..] == lines[1..][j..];
      assert forall m :: 1 <= m < k ==> lines[m] == lines[1..][m - 1];
    } else {
      k := 0;
      assert lines[0..] == lines;
    }
  }

  lemma {:induction false} KeptAreWanted(removeTimestamp: bool, lines: seq<string>)
    ensures KeptLines(removeTimestamp, lines) == Filter(Wanted(removeTimestamp), lines)
  {
    if lines != [] {
      KeptAreWanted(removeTimestamp, lines[..|lines| - 1]);
    }
  }

  function Trims(lines: seq<string>): (r: seq<string>)
    ensures |r| == |lines| && forall i :: 0 <= i < |r| ==> r[i] == Trim(lines[i])
  {
    seq(|lines|, i requires 0 <= i < |lines| => Trim(lines[i]))
  }

  lemma TrimIsTrimmed(line: string)
    ensures IsTrimmed(line, Trim(line))
  {
    hide Trim;
    var a, b := TrimIsMiddle(line);
    var t, i := Trim(line), |a|;
    var j := i + |t|;
    assert line[i..j] == t && line[..i] == a && line[j..] == b;
    assert IsMiddle(line, t, i, j);
  }

  lemma {:induction false} PiecesAreTrims(removeTimestamp: bool, lines: seq<string>)
    ensures Pieces(removeTimestamp, lines) == Filter(IsNonEmpty(), Trims(KeptLines(removeTimestamp, lines)))
  {
    hide Dropped, Trim;
    if lines == [] {
      assert Trims(KeptLines(removeTimestamp, lines)) == [];
    } else {
      var init, line := lines[..|lines| - 1], lines[|lines| - 1];
      PiecesAreTrims(removeTimestamp, init);
      var kept := KeptLines(removeTimestamp, init);
      assert Trims(kept + [line]) == Trims(kept) + [Trim(line)];
      FilterPush(IsNonEmpty(), Trims(kept), Trim(line));
      assert kept + [] == kept && Pieces(removeTimestamp, init) + [] == Pieces(removeTimestamp, init);
    }
  }

  lemma {:induction false} JoinIsJoined(pieces: seq<string>)
    ensures JoinWithSpace(pieces) == Joined(pieces)
  {
    if |pieces| == 1 {
      assert Spaced(pieces[1..]) == [];
      assert pieces[0] + "" == pieces[0];
    } else if |pieces| > 1 {
      var init, last := pieces[..|pieces| - 1], pieces[|pieces| - 1];
      JoinIsJoined(init);
      var front, all := Spaced(init[1..]), Spaced(pieces[1..]);
      assert all == front + [" " + last];
      assert all[..|all| - 1] == front;
      assert pieces[0] + (Flatten(front) + (" " + last)) == pieces[0] + Flatten(front) + " " + last;
    }
  }

  lemma {:induction false} StripAllIsPrinted(lines: seq<string>)
    ensures StripAll(lines) == Filter(Printed(), Flatten(lines))
  {
    if lines != [] {
      var init, line := lines[..|lines| - 1], lines[|lines| - 1];
      StripAllIsPrinted(init);
      StripIsPrinted(line);
      FilterAppend(Printed(), Flatten(init), line);
    }
  }

  lemma StripIsPrinted(s: string)
    ensures Strip(s) == Filter(Printed(), s)
  {
    FilterSame(NotBlank(), Printed(), s);
  }

  /** What is sent to the server for a record. */
  lemma QueryIsText(data: string, removeTimestamp: bool)
    ensures IsTextOf(Lines(data), removeTimestamp, QueryOf(data, removeTimestamp))
  {
    var lines, text := Lines(data), QueryOf(data, removeTimestamp);
    QueryIsTidy(data, removeTimestamp);
    assert IsOneLine(text);
    QueryKeepsText(data, removeTimestamp);
    hide IsTidy, IsOneLine, Lines, DropMetadata, MetadataEnds, Filter, Trim, Joined, JoinWithSpace, Pieces, KeptLines,
      IsTrimmed, Strip, Wanted, Printed;
    var k := MetadataDropped(lines);
    var kept := Filter(Wanted(removeTimestamp), lines[k..]);
    KeptAreWanted(removeTimestamp, lines[k..]);
    PiecesAreTrims(removeTimestamp, lines[k..]);
    JoinIsJoined(Pieces(removeTimestamp, lines[k..]));
    StripAllIsPrinted(kept);
    StripIsPrinted(text);
    forall i | 0 <= i < |kept|
      ensures IsTrimmed(kept[i], Trims(kept)[i])
    {
      TrimIsTrimmed(kept[i]);
    }
    assert MadeOf(kept, Trims(kept), text);
  }
}
