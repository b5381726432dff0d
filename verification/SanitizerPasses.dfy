/** The passes of the sanitizer, read from the left: what one more character adds to the result. */
module SanitizerPasses {
  import opened Sanitizer

  /** What the characters level drops. */
  predicate Dropped(c: Code) {
    || 0x00 <= c <= 0x08 || 0x0B <= c <= 0x0C || 0x0E <= c <= 0x1F || 0x7F <= c <= 0x9F
    || 0xFDD0 <= c <= 0xFDEF || 0xFFFE <= c <= 0xFFFF || 0xD800 <= c <= 0xDFFF || c == 0xFFFD
    || c == 0xAD || c == 0x061C || 0x200B <= c <= 0x200F || 0x202A <= c <= 0x202E || c == 0x2060
    || 0x2066 <= c <= 0x2069 || c == 0xFEFF
  }

  lemma {:induction false} DropAppend(t: seq<Code>, p: Code -> bool, c: Code)
    ensures Drop(t + [c], p) == Drop(t, p) + (if p(c) then [] else [c])
  {
    if t == [] {
      assert [c][1..] == [];
    } else {
      assert (t + [c])[1..] == t[1..] + [c];
      DropAppend(t[1..], p, c);
    }
  }

  lemma {:induction false} TranslateAppend(t: seq<Code>, f: Code -> Code, c: Code)
    ensures Translate(t + [c], f) == Translate(t, f) + [f(c)]
  {
    if t == [] {
      assert [c][1..] == [];
    } else {
      assert (t + [c])[1..] == t[1..] + [c];
      TranslateAppend(t[1..], f, c);
    }
  }

  lemma DropMaybe(t: seq<Code>, p: Code -> bool, c: seq<Code>)
    requires |c| <= 1
    ensures Drop(t + c, p) == Drop(t, p) + (if c != [] && p(c[0]) then [] else c)
  {
    if c == [] {
      assert t + c == t;
    } else {
      assert c == [c[0]];
      DropAppend(t, p, c[0]);
    }
  }

  lemma CleanedAppend(t: seq<Code>, c: Code)
    ensures Cleaned(t + [c]) == Cleaned(t) + (if Dropped(c) then [] else [c])
  {
    var t1 := Drop(t, Control);
    var t2 := Drop(t1, Noncharacter);
    var t3 := Drop(t2, Surrogate);
    var t4 := Drop(t3, Replacement);
    var c1 := if Control(c) then [] else [c];
    var c2 := if c1 != [] && Noncharacter(c) then [] else c1;
    var c3 := if c2 != [] && Surrogate(c) then [] else c2;
    var c4 := if c3 != [] && Replacement(c) then [] else c3;
    DropMaybe(t, Control, [c]);
    DropMaybe(t1, Noncharacter, c1);
    DropMaybe(t2, Surrogate, c2);
    DropMaybe(t3, Replacement, c3);
    DropMaybe(t4, Invisible, c4);
    hide Drop;
  }

  /** The characters level: what is dropped, what becomes narrow, what becomes a plain space. */
  lemma CharactersAppend(t: seq<Code>, c: Code)
    ensures Characters(t + [c]) == Characters(t) +
            (if Dropped(c) then []
             else if 0xFF01 <= c <= 0xFF5E then [c - 0xFEE0]
             else if c == 0xA0 || c == 0x2007 || c == 0x202F || c == 0x3000 then [0x20]
             else [c])
  {
    CleanedAppend(t, c);
    var e := Cleaned(t);
    if Dropped(c) {
      assert e + [] == e;
      assert Characters(t) + [] == Characters(t);
    } else {
      TranslateAppend(e, Narrow, c);
      TranslateAppend(Translate(e, Narrow), PlainSpace, Narrow(c));
    }
    hide Translate, Cleaned, Dropped;
  }

  lemma Regroup(head: seq<Code>, x: seq<Code>, tail: seq<Code>)
    ensures head + (x + tail) == (head + x) + tail
  {
  }

  lemma LineBreaksStart(t: seq<Code>, k: nat, first: Code)
    requires t != [] && k == (if t[0] == CR && |t| > 1 && t[1] == LF then 2 else 1)
    requires first == if t[0] == CR || Break(t[0]) then LF else t[0]
    ensures LineBreaks(t) == [first] + LineBreaks(t[k..])
  {
  }

  lemma LineBreaksOne(c: Code)
    ensures LineBreaks([]) == [] && LineBreaks([c]) == [if c == CR || Break(c) then LF else c]
  {
    assert [c][1..] == [];
  }

  /** The last character of what is left when the first line end or character is taken off. */
  lemma LastStays(t: seq<Code>, k: nat)
    requires k <= |t|
    ensures t[k..] == [] <==> k == |t|
    ensures k < |t| ==> t[k..][|t[k..]| - 1] == t[|t| - 1]
    ensures k + 1 < |t| ==> t[k..][|t[k..]| - 2] == t[|t| - 2]
  {
  }

  /** Every line end becomes one line feed; the line feed after a carriage return belongs to it. */
  lemma {:induction false} LineBreaksAppend(t: seq<Code>, c: Code)
    ensures LineBreaks(t + [c]) ==
            if c == 0x0A && t != [] && t[|t| - 1] == 0x0D then LineBreaks(t)
            else LineBreaks(t) + [if c == 0x0A || c == 0x0D || c == 0x2028 || c == 0x2029 then 0x0A else c]
    decreases |t|
  {
    hide LineBreaks;
    LineBreaksOne(c);
    if t == [] {
      assert t + [c] == [c];
    } else {
      var k := if t[0] == CR && |t| > 1 && t[1] == LF then 2 else 1;
      var first := if t[0] == CR || Break(t[0]) then LF else t[0];
      LineBreaksStart(t, k, first);
      if t[0] == CR && |t| == 1 && c == LF {
        assert (t + [c])[2..] == [] && t[1..] == [];
        LineBreaksStart(t + [c], 2, LF);
      } else {
        assert (t + [c])[k..] == t[k..] + [c];
        LineBreaksStart(t + [c], k, first);
        LineBreaksAppend(t[k..], c);
        LastStays(t, k);
        Regroup([first], LineBreaks(t[k..]), [if c == 0x0A || c == 0x0D || c == 0x2028 || c == 0x2029 then 0x0A else c]);
      }
    }
  }

  lemma {:induction false} RunAppend(t: seq<Code>, p: Code -> bool, c: Code)
    ensures RunLength(t + [c], p) == if RunLength(t, p) == |t| && p(c) then |t| + 1 else RunLength(t, p)
  {
    if t == [] {
      assert [c][1..] == [];
    } else {
      assert (t + [c])[1..] == t[1..] + [c];
      RunAppend(t[1..], p, c);
    }
  }

  lemma SpaceRunsStart(t: seq<Code>, n: nat)
    requires n == RunLength(t, Blank) && t != []
    ensures SpaceRuns(t) == if n > 0 then [SPACE] + SpaceRuns(t[n..]) else [t[0]] + SpaceRuns(t[1..])
  {
  }

  lemma NothingRuns()
    ensures SpaceRuns([]) == [] && BlankLines([]) == []
  {
  }

  /** A run of spaces and tabs becomes one space. */
  lemma {:induction false} SpaceRunsAppend(t: seq<Code>, c: Code)
    ensures SpaceRuns(t + [c]) ==
            if (c == 0x20 || c == 0x09) && t != [] && (t[|t| - 1] == 0x20 || t[|t| - 1] == 0x09) then SpaceRuns(t)
            else SpaceRuns(t) + [if c == 0x20 || c == 0x09 then 0x20 else c]
    decreases |t|
  {
    hide SpaceRuns;
    var all := t + [c];
    var n := RunLength(t, Blank);
    NothingRuns();
    RunAppend(t, Blank, c);
    SpaceRunsStart(all, RunLength(all, Blank));
    if t == [] {
      assert all == [c] && [c][1..] == [];
    } else {
      SpaceRunsStart(t, n);
      if n == |t| {
        assert t[n..] == [];
        if Blank(c) {
          assert all[n + 1..] == [];
        } else {
          assert all[n..] == [c];
          SpaceRunsStart([c], 0);
          assert [c][1..] == [];
        }
      } else {
        var k := if n > 0 then n else 1;
        assert all[k..] == t[k..] + [c];
        SpaceRunsAppend(t[k..], c);
      }
    }
  }

  lemma BlankLinesStart(t: seq<Code>, n: nat)
    requires n == RunLength(t, LineFeed) && t != []
    ensures BlankLines(t) ==
            if n >= 3 then [LF, LF] + BlankLines(t[n..]) else if n > 0 then t[..n] + BlankLines(t[n..])
            else [t[0]] + BlankLines(t[1..])
  {
  }

  /** How many characters the head of a text keeps to itself, and how many line feeds of it are one too many. */
  function Head(t: seq<Code>): (k: nat)
    requires t != []
    ensures k <= 2 && k <= |t|
  {
    if t[0] != LF || |t| == 1 || t[1] != LF then 1 else if |t| == 2 || t[2] != LF then 2 else 0
  }

  lemma BlankLinesHead(t: seq<Code>)
    requires t != []
    ensures Head(t) > 0 ==> BlankLines(t) == t[..Head(t)] + BlankLines(t[Head(t)..])
    ensures Head(t) == 0 ==> BlankLines(t) == BlankLines(t[1..])
  {
    var n := RunLength(t, LineFeed);
    BlankLinesStart(t, n);
    if t[0] == LF {
      assert t[0..] == t;
      RunOfTail(t, n);
      if Head(t) == 0 {
        BlankLinesStart(t[1..], n - 1);
        assert t[1..][n - 1..] == t[n..];
        assert n == 3 ==> t[1..][..2] == [LF, LF];
      }
    }
    hide BlankLines;
  }

  lemma RunOfTail(t: seq<Code>, n: nat)
    requires t != [] && t[0] == LF && n == RunLength(t, LineFeed)
    ensures n == 1 + RunLength(t[1..], LineFeed)
    ensures Head(t) == 1 ==> n == 1
    ensures Head(t) == 2 ==> n == 2
    ensures Head(t) == 0 ==> n >= 3
  {
  }

  /** A line feed after two is one too many. */
  lemma {:induction false} BlankLinesAppend(t: seq<Code>, c: Code)
    ensures BlankLines(t + [c]) ==
            if c == 0x0A && |t| >= 2 && t[|t| - 1] == 0x0A && t[|t| - 2] == 0x0A then BlankLines(t)
            else BlankLines(t) + [c]
    decreases |t|
  {
    hide BlankLines, Head;
    NothingRuns();
    BlankLinesOne(c);
    if t == [] {
      assert t + [c] == [c];
    } else if t == [LF] {
      BlankLinesOne(LF);
      BlankLinesTwo(c);
    } else if t == [LF, LF] {
      BlankLinesTwo(LF);
      BlankLinesThree(c);
    } else {
      HeadStays(t, c);
      BlankLinesHead(t);
      BlankLinesHead(t + [c]);
      var k := if Head(t) > 0 then Head(t) else 1;
      BlankLinesAppend(t[k..], c);
      LastStays(t, k);
      Regroup(t[..Head(t)], BlankLines(t[k..]), [c]);
    }
  }

  lemma BlankLinesOne(c: Code)
    ensures BlankLines([c]) == [c]
  {
    assert [c][1..] == [] && [c][..1] == [c];
  }

  lemma BlankLinesTwo(c: Code)
    ensures [LF] + [c] == [LF, c] && BlankLines([LF, c]) == [LF, c]
  {
    hide BlankLines;
    BlankLinesHead([LF, c]);
    BlankLinesOne(c);
    NothingRuns();
    assert [LF, c][1..] == [c] && [LF, c][2..] == [] && [LF, c][..2] == [LF, c] && [LF, c][..1] == [LF];
  }

  lemma BlankLinesThree(c: Code)
    ensures [LF, LF] + [c] == [LF, LF, c] && BlankLines([LF, LF, c]) == if c == LF then [LF, LF] else [LF, LF, c]
  {
    hide BlankLines;
    var t := [LF, LF, c];
    BlankLinesHead(t);
    BlankLinesTwo(c);
    BlankLinesOne(c);
    assert t[1..] == [LF, c] && t[2..] == [c] && t[..2] == [LF, LF];
  }

  /** The head of a text does not depend on a character behind it, but for texts of one or two line feeds. */
  lemma HeadStays(t: seq<Code>, c: Code)
    requires t != [] && t != [LF] && t != [LF, LF]
    ensures Head(t + [c]) == Head(t)
    ensures (t + [c])[..Head(t)] == t[..Head(t)]
    ensures (t + [c])[Head(t)..] == t[Head(t)..] + [c] && (t + [c])[1..] == t[1..] + [c]
    ensures Head(t) == 0 ==> |t| >= 3 && t[1] == LF && t[2] == LF
    ensures Head(t) == 2 ==> |t| >= 3 && t[2] != LF
    ensures Head(t) == 1 && |t| >= 2 ==> t[0] != LF || t[1] != LF
  {
    assert t[0] == LF && |t| == 1 ==> t == [LF];
    assert |t| == 2 && t[0] == LF && t[1] == LF ==> t == [LF, LF];
  }

  /** Stripping drops both private-use planes. */
  lemma StrippedAppend(t: seq<Code>, c: Code)
    ensures Drop(t + [c], PrivateUse) ==
            Drop(t, PrivateUse) + (if 0xE000 <= c <= 0xF8FF || 0xF0000 <= c <= 0x10FFFD then [] else [c])
  {
    DropAppend(t, PrivateUse, c);
  }

  /** A stored name loses what the characters level drops and the first private-use plane, and nothing else changes. */
  lemma MetadataAppend(t: seq<Code>, c: Code)
    ensures SanitizeMetadata(t + [c]) == SanitizeMetadata(t) + (if Dropped(c) || 0xE000 <= c <= 0xF8FF then [] else [c])
  {
    CleanedAppend(t, c);
    DropMaybe(Cleaned(t), PrivateUseBmp, if Dropped(c) then [] else [c]);
    hide Cleaned, Drop, Dropped;
  }
}
