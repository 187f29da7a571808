/** Cutting a string at delimiter characters. */
module Tokenize {
  import opened Seqs

  /** The position of the first delimiter in s, or the length of s. */
  function FirstOf(s: string, delimiters: string): (k: nat)
    ensures k <= |s|
  {
    if s == "" || s[0] in delimiters then 0 else 1 + FirstOf(s[1..], delimiters)
  }

  /** The pieces between delimiters, empty ones included. */
  function Tokens(s: string, delimiters: string): seq<string>
    decreases |s|
  {
    var k := FirstOf(s, delimiters);
    if k == |s| then [s] else [s[..k]] + Tokens(s[k + 1..], delimiters)
  }

  function NonEmpty(): string -> bool { (t: string) => t != "" }

  /** The delimiters of s in order. */
  function IsIn(delimiters: string): char -> bool { (c: char) => c in delimiters }

  function Delimiters(s: string, delimiters: string): string
    decreases |s|
  {
    var k := FirstOf(s, delimiters);
    if k == |s| then "" else [s[k]] + Delimiters(s[k + 1..], delimiters)
  }

  /** Tokens with separators between them. */
  function Interleave(tokens: seq<string>, separators: string): string
    requires |tokens| == |separators| + 1
  {
    if |tokens| == 1 then tokens[0]
    else tokens[0] + [separators[0]] + Interleave(tokens[1..], separators[1..])
  }

  predicate Free(t: string, delimiters: string) { forall c :: c in t ==> c !in delimiters }

  lemma {:induction false} FirstOfIsFirst(s: string, delimiters: string)
    ensures Free(s[..FirstOf(s, delimiters)], delimiters)
    ensures FirstOf(s, delimiters) < |s| ==> s[FirstOf(s, delimiters)] in delimiters
  {
    if s != "" && s[0] !in delimiters {
      FirstOfIsFirst(s[1..], delimiters);
      var k := FirstOf(s, delimiters);
      assert s[..k] == [s[0]] + s[1..][..k - 1];
    }
  }

  /** Tokens are free of delimiters, one more than there are delimiters, and with them rebuild the string. */
  lemma {:induction false} TokensRebuild(s: string, delimiters: string)
    ensures |Tokens(s, delimiters)| == |Delimiters(s, delimiters)| + 1
    ensures Interleave(Tokens(s, delimiters), Delimiters(s, delimiters)) == s
    ensures forall i :: 0 <= i < |Tokens(s, delimiters)| ==> Free(Tokens(s, delimiters)[i], delimiters)
    decreases |s|
  {
    hide FirstOf, Free;
    var k := FirstOf(s, delimiters);
    FirstOfIsFirst(s, delimiters);
    if k < |s| {
      var rest := s[k + 1..];
      TokensRebuild(rest, delimiters);
      var ts, ds := Tokens(s, delimiters), Delimiters(s, delimiters);
      assert ts[1..] == Tokens(rest, delimiters) && ds[1..] == Delimiters(rest, delimiters);
      assert s == s[..k] + [s[k]] + rest;
    } else {
      assert s[..k] == s;
    }
  }

  /** The delimiters are all the delimiter characters of the string, in order. */
  lemma {:induction false} DelimitersAreAll(s: string, delimiters: string)
    ensures Delimiters(s, delimiters) == Filter(IsIn(delimiters), s)
    decreases |s|
  {
    hide FirstOf, Tokens, Filter;
    var k := FirstOf(s, delimiters);
    var p, head := IsIn(delimiters), s[..k];
    FirstOfIsFirst(s, delimiters);
    assert forall c :: c in head ==> !p(c);
    FilterNone(p, head);
    hide Free, IsIn;
    if k < |s| {
      var rest := s[k + 1..];
      var tail := [s[k]] + rest;
      DelimitersAreAll(rest, delimiters);
      FilterCons(p, s[k], rest);
      FilterAppend(p, head, tail);
      assert s == head + tail;
      assert Delimiters(s, delimiters) == [s[k]] + Delimiters(rest, delimiters);
      assert [] + Filter(p, tail) == Filter(p, tail);
    } else {
      assert s == head;
    }
  }

  /** Reading back: delimiter-free tokens joined by delimiters are the tokens of the result. */
  lemma {:induction false} TokenizeInterleaved(tokens: seq<string>, separators: string, delimiters: string)
    requires |tokens| == |separators| + 1
    requires forall i :: 0 <= i < |tokens| ==> Free(tokens[i], delimiters)
    requires forall i :: 0 <= i < |separators| ==> separators[i] in delimiters
    ensures Tokens(Interleave(tokens, separators), delimiters) == tokens
  {
    hide Free;
    if |tokens| == 1 {
      FirstOfFree(tokens[0], "", delimiters);
      assert tokens[0] + "" == tokens[0];
    } else {
      var rest := Interleave(tokens[1..], separators[1..]);
      TokenizeInterleaved(tokens[1..], separators[1..], delimiters);
      FirstOfFree(tokens[0], [separators[0]] + rest, delimiters);
      var s := tokens[0] + ([separators[0]] + rest);
      assert Interleave(tokens, separators) == s;
      assert s[..|tokens[0]|] == tokens[0] && s[|tokens[0]| + 1..] == rest;
    }
  }

  lemma {:induction false} FirstOfFree(t: string, rest: string, delimiters: string)
    requires Free(t, delimiters) && (rest != "" ==> rest[0] in delimiters)
    ensures FirstOf(t + rest, delimiters) == |t|
  {
    if t == "" {
      assert t + rest == rest;
    } else {
      FirstOfFree(t[1..], rest, delimiters);
      assert (t + rest)[1..] == t[1..] + rest;
    }
  }

  /** The token that starts at from, and those behind it. */
  lemma {:induction false} TokensFrom(s: string, delimiters: string, from: nat, to: nat)
    requires from <= |s| && to == from + FirstOf(s[from..], delimiters)
    ensures to <= |s|
    ensures Tokens(s[from..], delimiters) == [s[from..to]] + (if to == |s| then [] else Tokens(s[to + 1..], delimiters))
  {
    hide FirstOf;
    var rest, k := s[from..], to - from;
    assert rest[..k] == s[from..to];
    if to < |s| {
      assert rest[k + 1..] == s[to + 1..];
    } else {
      assert rest == s[from..to];
    }
  }

  lemma Reassociate(done: seq<string>, token: string, behind: seq<string>)
    ensures done + ([token] + behind) == done + [token] + behind
    ensures done + ([token] + []) == done + [token]
  {
  }

  /** The loop of tokenize: all tokens, or with trimEmpty those that are not empty. */
  method Tokenize(s: string, delimiters: string, trimEmpty: bool) returns (tokens: seq<string>)
    ensures tokens == if trimEmpty then Filter(NonEmpty(), Tokens(s, delimiters)) else Tokens(s, delimiters)
  {
    hide FirstOf, Tokens, Filter;
    tokens := [];
    ghost var done: seq<string> := [];
    var lastPos := 0;
    assert s[0..] == s && done + Tokens(s, delimiters) == Tokens(s, delimiters);
    FilterNone(NonEmpty(), done);
    while true
      invariant lastPos <= |s|
      invariant done + Tokens(s[lastPos..], delimiters) == Tokens(s, delimiters)
      invariant tokens == if trimEmpty then Filter(NonEmpty(), done) else done
      decreases |s| - lastPos
    {
      var pos := lastPos + FirstOf(s[lastPos..], delimiters);
      TokensFrom(s, delimiters, lastPos, pos);
      ghost var token := s[lastPos..pos];
      FilterPush(NonEmpty(), done, token);
      if pos != lastPos || !trimEmpty {
        tokens := tokens + [s[lastPos..pos]];
      }
      if pos == |s| {
        Reassociate(done, token, []);
        break;
      }
      Reassociate(done, token, Tokens(s[pos + 1..], delimiters));
      done := done + [token];
      lastPos := pos + 1;
    }
  }
}
