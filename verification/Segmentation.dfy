/** How the lines of a slow query log are cut into records: blocks of consecutive lines. */
module Segmentation {
  import opened Seqs
  import opened Text

  /**
    What the reader distinguishes about a line: a time line ("# Time"), a user line ("# User@Host"),
    another line starting with '#', and any other line.
   */
  datatype Kind = Time | UserHost | Comment | Sql

  function KindOf(line: string): Kind
  {
    if !StartsWith(line, "#") then Sql
    else if StartsWith(line, "# Time") then Time
    else if StartsWith(line, "# User@Host") then UserHost
    else Comment
  }

  function Kinds(lines: seq<string>): (ks: seq<Kind>)
    ensures |ks| == |lines| && forall i :: 0 <= i < |ks| ==> ks[i] == KindOf(lines[i])
  {
    seq(|lines|, i requires 0 <= i < |lines| => KindOf(lines[i]))
  }

  /** A line that ends the record being read. */
  predicate IsStop(k: Kind) { k.UserHost? || k.Time? }

  /** A line that starts a record when none is being read. */
  predicate IsOpener(k: Kind) { k.UserHost? || k.Comment? }

  /** The kinds in terms of the tests the reader makes. */
  lemma KindTests(line: string)
    ensures KindOf(line).Sql? <==> !StartsWith(line, "#")
    ensures KindOf(line).Time? <==> StartsWith(line, "# Time")
    ensures IsStop(KindOf(line)) <==> StartsWith(line, "# User@Host") || StartsWith(line, "# Time")
    ensures IsOpener(KindOf(line)) <==> StartsWith(line, "#") && !StartsWith(line, "# Time")
  {
  }

  /** The kinds by the first characters of the line. */
  lemma KindMeans(line: string)
    ensures KindOf(line) == Sql <==> !("#" <= line)
    ensures KindOf(line) == Time <==> "# Time" <= line
    ensures KindOf(line) == UserHost <==> "# User@Host" <= line
  {
    if "# User@Host" <= line {
      assert "# User@Host"[2] == line[2] && "# Time"[2] != line[2];
    }
  }

  /** The lines of one record: from lo up to, not including, hi. */
  datatype Block = Block(lo: nat, hi: nat)

  /** The first stop line at or after i, or the end of the log. */
  function BlockEnd(ks: seq<Kind>, i: nat): (j: nat)
    requires i <= |ks|
    ensures i <= j <= |ks|
    ensures forall k :: i <= k < j ==> !IsStop(ks[k])
    ensures j == |ks| || IsStop(ks[j])
    decreases |ks| - i
  {
    if i == |ks| || IsStop(ks[i]) then i else BlockEnd(ks, i + 1)
  }

  /** The blocks found from line i on, when no record is being read there. */
  function Blocks(ks: seq<Kind>, i: nat): seq<Block>
    requires i <= |ks|
    decreases |ks| - i
  {
    if i == |ks| then []
    else if IsOpener(ks[i]) then
      var hi := BlockEnd(ks, i + 1);
      [Block(i, hi)] + Blocks(ks, hi)
    else Blocks(ks, i + 1)
  }

  // ---------- What a segmentation is, without saying how it is computed ----------

  /** A block starts at an opener and extends as far as possible without a second record or a time line. */
  ghost predicate IsBlock(ks: seq<Kind>, b: Block)
  {
    && b.lo < b.hi <= |ks|
    && IsOpener(ks[b.lo])
    && (forall k :: b.lo < k < b.hi ==> !IsStop(ks[k]))
    && (b.hi == |ks| || IsStop(ks[b.hi]))
  }

  predicate Inside(b: Block, k: nat) { b.lo <= k < b.hi }

  ghost predicate Covered(bs: seq<Block>, k: nat)
  {
    exists m :: 0 <= m < |bs| && Inside(bs[m], k)
  }

  ghost predicate AllBlocks(ks: seq<Kind>, i: nat, bs: seq<Block>)
  {
    forall m :: 0 <= m < |bs| ==> IsBlock(ks, bs[m]) && i <= bs[m].lo
  }

  ghost predicate Ordered(bs: seq<Block>)
  {
    forall m, n :: 0 <= m < n < |bs| ==> bs[m].hi <= bs[n].lo
  }

  ghost predicate CoversOpeners(ks: seq<Kind>, i: nat, bs: seq<Block>)
  {
    forall k :: i <= k < |ks| && IsOpener(ks[k]) ==> Covered(bs, k)
  }

  /** Ordered disjoint blocks at or after line i that cover every opener at or after line i. */
  ghost predicate IsSegmentation(ks: seq<Kind>, i: nat, bs: seq<Block>)
  {
    AllBlocks(ks, i, bs) && Ordered(bs) && CoversOpeners(ks, i, bs)
  }

  /** The scan produces a segmentation. */
  lemma {:induction false} BlocksSegment(ks: seq<Kind>, i: nat)
    requires i <= |ks|
    ensures IsSegmentation(ks, i, Blocks(ks, i))
    decreases |ks| - i
  {
    if i < |ks| {
      if IsOpener(ks[i]) {
        var b := Block(i, BlockEnd(ks, i + 1));
        var rest := Blocks(ks, b.hi);
        BlocksSegment(ks, b.hi);
        SegmentationCons(ks, b, rest);
      } else {
        BlocksSegment(ks, i + 1);
      }
    }
  }

  lemma SegmentationCons(ks: seq<Kind>, b: Block, rest: seq<Block>)
    requires IsBlock(ks, b) && IsSegmentation(ks, b.hi, rest)
    ensures IsSegmentation(ks, b.lo, [b] + rest)
  {
    CoversCons(ks, b, rest);
    assert AllBlocks(ks, b.lo, [b] + rest);
    assert Ordered([b] + rest) by {
      hide IsBlock;
      OrderedCons(b, rest);
    }
  }

  lemma OrderedCons(b: Block, rest: seq<Block>)
    requires Ordered(rest) && forall m :: 0 <= m < |rest| ==> b.hi <= rest[m].lo
    ensures Ordered([b] + rest)
  {
  }

  lemma CoversCons(ks: seq<Kind>, b: Block, rest: seq<Block>)
    requires CoversOpeners(ks, b.hi, rest)
    ensures CoversOpeners(ks, b.lo, [b] + rest)
  {
    var bs := [b] + rest;
    forall k | b.lo <= k < |ks| && IsOpener(ks[k])
      ensures Covered(bs, k)
    {
      if k < b.hi {
        assert Inside(bs[0], k);
      } else {
        var m :| 0 <= m < |rest| && Inside(rest[m], k);
        assert Inside(bs[m + 1], k);
      }
    }
  }

  lemma FirstBlockStarts(ks: seq<Kind>, i: nat, bs: seq<Block>)
    requires i < |ks| && IsOpener(ks[i]) && IsSegmentation(ks, i, bs)
    ensures bs != [] && bs[0].lo == i
  {
    hide IsOpener, BlockEnd, Blocks;
    assert Covered(bs, i);
    var m :| 0 <= m < |bs| && Inside(bs[m], i);
    hide CoversOpeners;
    assert IsBlock(ks, bs[0]) && i <= bs[0].lo < bs[0].hi;
    assert IsBlock(ks, bs[m]) && bs[m].lo == i;
  }

  /** The first stop line found is where the scan ends. */
  lemma BlockEndFound(ks: seq<Kind>, i: nat, j: nat)
    requires i <= j <= |ks| && (forall k :: i <= k < j ==> !IsStop(ks[k])) && (j == |ks| || IsStop(ks[j]))
    ensures BlockEnd(ks, i) == j
  {
    hide IsStop;
  }

  /** A block reaches as far as the scan from its second line does. */
  lemma BlockReaches(ks: seq<Kind>, b: Block)
    requires IsBlock(ks, b)
    ensures b.hi == BlockEnd(ks, b.lo + 1)
  {
    hide IsStop, IsOpener, BlockEnd;
    BlockEndFound(ks, b.lo + 1, b.hi);
  }

  /** Where a record starts, the first block is the one the scan finds. */
  lemma {:induction false} FirstBlock(ks: seq<Kind>, i: nat, bs: seq<Block>)
    requires i < |ks| && IsOpener(ks[i]) && IsSegmentation(ks, i, bs)
    ensures bs != [] && bs[0] == Block(i, BlockEnd(ks, i + 1))
  {
    FirstBlockStarts(ks, i, bs);
    hide IsOpener, Blocks, CoversOpeners, Ordered, IsBlock, BlockEnd;
    BlockReaches(ks, bs[0]);
  }

  lemma LaterBlocks(ks: seq<Kind>, bs: seq<Block>)
    requires bs != [] && AllBlocks(ks, bs[0].lo, bs) && Ordered(bs)
    ensures AllBlocks(ks, bs[0].hi, bs[1..]) && Ordered(bs[1..])
  {
    hide IsBlock;
  }

  lemma LaterCovers(ks: seq<Kind>, bs: seq<Block>)
    requires bs != [] && CoversOpeners(ks, bs[0].lo, bs) && bs[0].lo < bs[0].hi
    ensures CoversOpeners(ks, bs[0].hi, bs[1..])
  {
    hide IsOpener;
    var rest := bs[1..];
    forall k | bs[0].hi <= k < |ks| && IsOpener(ks[k])
      ensures Covered(rest, k)
    {
      assert Covered(bs, k);
      var m :| 0 <= m < |bs| && Inside(bs[m], k);
      assert Inside(rest[m - 1], k);
    }
  }

  /** Behind the first block the other blocks are a segmentation. */
  lemma SegmentationTail(ks: seq<Kind>, bs: seq<Block>)
    requires bs != [] && IsSegmentation(ks, bs[0].lo, bs)
    ensures IsSegmentation(ks, bs[0].hi, bs[1..]) && bs[0].lo < bs[0].hi <= |ks|
  {
    hide CoversOpeners, Ordered;
    assert IsBlock(ks, bs[0]);
    hide AllBlocks, IsBlock;
    LaterBlocks(ks, bs);
    LaterCovers(ks, bs);
  }

  /** Where no record starts, the blocks are a segmentation from the next line on. */
  lemma SegmentationSkip(ks: seq<Kind>, i: nat, bs: seq<Block>)
    requires i < |ks| && !IsOpener(ks[i]) && IsSegmentation(ks, i, bs)
    ensures IsSegmentation(ks, i + 1, bs)
  {
    hide IsOpener, Ordered, IsStop, Covered;
    forall m | 0 <= m < |bs|
      ensures IsBlock(ks, bs[m]) && i + 1 <= bs[m].lo
    {
      assert IsBlock(ks, bs[m]);
    }
  }

  lemma NoBlocksAtEnd(ks: seq<Kind>, bs: seq<Block>)
    requires AllBlocks(ks, |ks|, bs)
    ensures bs == []
  {
    assert bs != [] ==> IsBlock(ks, bs[0]);
  }

  /** ... and there is no other: the declarative conditions determine the blocks. */
  lemma {:induction false} SegmentationUnique(ks: seq<Kind>, i: nat, bs: seq<Block>)
    requires i <= |ks| && IsSegmentation(ks, i, bs)
    ensures bs == Blocks(ks, i)
    decreases |ks| - i
  {
    hide AllBlocks, Ordered, CoversOpeners, IsOpener, BlockEnd;
    if i == |ks| {
      NoBlocksAtEnd(ks, bs);
    } else if IsOpener(ks[i]) {
      FirstBlock(ks, i, bs);
      SegmentationTail(ks, bs);
      hide IsSegmentation;
      SegmentationUnique(ks, bs[0].hi, bs[1..]);
      assert bs == [bs[0]] + bs[1..];
    } else {
      SegmentationSkip(ks, i, bs);
      hide IsSegmentation;
      SegmentationUnique(ks, i + 1, bs);
    }
  }

  /** Every opener lies in exactly one block. */
  lemma {:induction false} OpenerInOneBlock(ks: seq<Kind>, k: nat)
    requires k < |ks| && IsOpener(ks[k])
    ensures exists m :: 0 <= m < |Blocks(ks, 0)| && Inside(Blocks(ks, 0)[m], k)
    ensures forall m, n :: 0 <= m < n < |Blocks(ks, 0)| ==>
              !(Inside(Blocks(ks, 0)[m], k) && Inside(Blocks(ks, 0)[n], k))
  {
    BlocksSegment(ks, 0);
    assert Covered(Blocks(ks, 0), k);
  }

  /** No time line lies in any block. */
  lemma {:induction false} TimeInNoBlock(ks: seq<Kind>, k: nat)
    requires k < |ks| && ks[k].Time?
    ensures !Covered(Blocks(ks, 0), k)
  {
    hide Blocks, Ordered, CoversOpeners, IsBlock;
    BlocksSegment(ks, 0);
    var bs := Blocks(ks, 0);
    forall m | 0 <= m < |bs|
      ensures !Inside(bs[m], k)
    {
      TimeOutside(ks, bs[m], k);
    }
  }

  lemma TimeOutside(ks: seq<Kind>, b: Block, k: nat)
    requires IsBlock(ks, b) && k < |ks| && ks[k].Time?
    ensures !Inside(b, k)
  {
  }

  /** A record is open at line k: an opener came before with no time line since. */
  ghost predicate OpenAt(ks: seq<Kind>, k: nat)
    requires k < |ks|
  {
    exists m :: 0 <= m < k && OpensUpTo(ks, m, k)
  }

  ghost predicate OpensUpTo(ks: seq<Kind>, m: nat, k: nat)
    requires m <= k < |ks|
  {
    IsOpener(ks[m]) && forall t :: m < t <= k ==> !ks[t].Time?
  }

  /** A block is open at each of its query lines. */
  lemma BlockIsOpen(ks: seq<Kind>, b: Block, k: nat)
    requires IsBlock(ks, b) && Inside(b, k) && k < |ks| && ks[k].Sql?
    ensures OpenAt(ks, k)
  {
    assert b.lo < k;
    assert OpensUpTo(ks, b.lo, k);
  }

  /** The block that starts at line m either covers line k or ends in a record that starts at or before it. */
  lemma NextOpener(ks: seq<Kind>, b: Block, m: nat, k: nat)
    requires m <= k < |ks| && OpensUpTo(ks, m, k) && IsBlock(ks, b) && Inside(b, m) && b.hi <= k
    ensures m < b.hi && OpensUpTo(ks, b.hi, k)
  {
  }

  lemma {:induction false} OpenLineCovered(ks: seq<Kind>, bs: seq<Block>, m: nat, k: nat)
    requires m <= k < |ks| && OpensUpTo(ks, m, k) && IsSegmentation(ks, 0, bs)
    ensures Covered(bs, k)
    decreases k - m
  {
    assert IsOpener(ks[m]);
    hide OpensUpTo, IsOpener, IsBlock, Ordered;
    assert Covered(bs, m);
    var n :| 0 <= n < |bs| && Inside(bs[n], m);
    assert IsBlock(ks, bs[n]);
    hide CoversOpeners, AllBlocks;
    if bs[n].hi <= k {
      NextOpener(ks, bs[n], m, k);
      OpenLineCovered(ks, bs, bs[n].hi, k);
    } else {
      assert Inside(bs[n], k);
    }
  }

  /**
    A query line belongs to a record exactly when an opener precedes it with no time line between:
    text is dropped only before the first record and between a time line and the next record.
   */
  lemma {:induction false} QueryLineCoverage(ks: seq<Kind>, k: nat)
    requires k < |ks| && ks[k].Sql?
    ensures Covered(Blocks(ks, 0), k) <==> OpenAt(ks, k)
  {
    hide Blocks, Ordered, CoversOpeners, IsBlock, OpensUpTo, Inside;
    BlocksSegment(ks, 0);
    var bs := Blocks(ks, 0);
    if Covered(bs, k) {
      var m :| 0 <= m < |bs| && Inside(bs[m], k);
      BlockIsOpen(ks, bs[m], k);
    }
    hide AllBlocks, IsSegmentation;
    if OpenAt(ks, k) {
      var m :| 0 <= m < k && OpensUpTo(ks, m, k);
      OpenLineCovered(ks, bs, m, k);
    }
  }
}
