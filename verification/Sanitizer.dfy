/**
The text sanitizer of backend/document/text_sanitizer.py over code points, after its canonical
composition, which `SanitizerForms` puts in front.
*/
module Sanitizer {

  type Code = int

  const TAB: Code := 0x09
  const LF: Code := 0x0A
  const CR: Code := 0x0D
  const SPACE: Code := 0x20

  // ---- character classes ----

  predicate Control(c: Code) {
    0 <= c <= 0x08 || 0x0B <= c <= 0x0C || 0x0E <= c <= 0x1F || 0x7F <= c <= 0x9F
  }

  predicate Noncharacter(c: Code) {
    0xFDD0 <= c <= 0xFDEF || 0xFFFE <= c <= 0xFFFF
  }

  predicate Surrogate(c: Code) {
    0xD800 <= c <= 0xDFFF
  }

  predicate Invisible(c: Code) {
    || c == 0xAD || c == 0x61C || 0x200B <= c <= 0x200F || 0x202A <= c <= 0x202E
    || c == 0x2060 || 0x2066 <= c <= 0x2069 || c == 0xFEFF
  }

  predicate PrivateUse(c: Code) {
    0xE000 <= c <= 0xF8FF || 0xF0000 <= c <= 0x10FFFD
  }

  predicate Blank(c: Code) {
    c == SPACE || c == TAB
  }

  predicate Replacement(c: Code) {
    c == 0xFFFD
  }

  predicate LineFeed(c: Code) {
    c == LF
  }

  predicate Break(c: Code) {
    c == LF || c == 0x2028 || c == 0x2029
  }

  function Narrow(c: Code): Code {
    if 0xFF01 <= c <= 0xFF5E then c - 0xFF01 + 0x21 else c
  }

  function PlainSpace(c: Code): Code {
    if c == 0xA0 || c == 0x2007 || c == 0x202F || c == 0x3000 then SPACE else c
  }

  // ---- the passes ----

  function Drop(t: seq<Code>, p: Code -> bool): seq<Code> {
    if t == [] then [] else (if p(t[0]) then [] else [t[0]]) + Drop(t[1..], p)
  }

  function Translate(t: seq<Code>, f: Code -> Code): seq<Code> {
    if t == [] then [] else [f(t[0])] + Translate(t[1..], f)
  }

  function LineBreaks(t: seq<Code>): seq<Code> {
    if t == [] then []
    else if t[0] == CR then [LF] + LineBreaks(if |t| > 1 && t[1] == LF then t[2..] else t[1..])
    else [if Break(t[0]) then LF else t[0]] + LineBreaks(t[1..])
  }

  /** The length of the longest prefix of characters satisfying `p`. */
  function RunLength(t: seq<Code>, p: Code -> bool): (n: nat)
    ensures n <= |t| && (n < |t| ==> !p(t[n])) && forall i :: 0 <= i < n ==> p(t[i])
  {
    if t == [] || !p(t[0]) then 0 else 1 + RunLength(t[1..], p)
  }

  function SpaceRuns(t: seq<Code>): seq<Code>
    decreases |t|
  {
    if t == [] then []
    else
      var n := RunLength(t, Blank);
      if n > 0 then [SPACE] + SpaceRuns(t[n..]) else [t[0]] + SpaceRuns(t[1..])
  }

  function BlankLines(t: seq<Code>): seq<Code>
    decreases |t|
  {
    if t == [] then []
    else
      var n := RunLength(t, LineFeed);
      if n >= 3 then [LF, LF] + BlankLines(t[n..])
      else if n > 0 then t[..n] + BlankLines(t[n..])
      else [t[0]] + BlankLines(t[1..])
  }

  /** The characters level. */
  function Cleaned(t: seq<Code>): seq<Code> {
    Drop(Drop(Drop(Drop(Drop(t, Control), Noncharacter), Surrogate), Replacement), Invisible)
  }

  /** The characters level, then the width and space folding. */
  function Characters(t: seq<Code>): seq<Code> {
    Translate(Translate(Cleaned(t), Narrow), PlainSpace)
  }

  /** Everything before private-use removal. */
  function Normalise(t: seq<Code>): seq<Code> {
    BlankLines(SpaceRuns(LineBreaks(Characters(t))))
  }

  function SanitizeText(t: seq<Code>, stripPua: bool): seq<Code> {
    if t == [] then []
    else if stripPua then Drop(Normalise(t), PrivateUse)
    else Normalise(t)
  }

  // ---- normal texts ----

  /** Characters every pass but the whitespace ones leaves alone. */
  predicate Plain(c: Code) {
    && !Control(c) && !Noncharacter(c) && !Surrogate(c) && c != 0xFFFD && !Invisible(c)
    && Narrow(c) == c && PlainSpace(c) == c
  }

  /** Plain, and white space is `SPACE` and `LF` only. */
  predicate Settled(c: Code) {
    Plain(c) && c != CR && c != 0x2028 && c != 0x2029 && c != TAB
  }

  ghost predicate All(t: seq<Code>, p: Code -> bool) {
    forall c :: c in t ==> p(c)
  }

  predicate NoDoubleSpace(t: seq<Code>) {
    forall i :: 0 <= i < |t| - 1 ==> t[i] != SPACE || t[i + 1] != SPACE
  }

  predicate NoTripleBreak(t: seq<Code>) {
    forall i :: 0 <= i < |t| - 2 ==> t[i] != LF || t[i + 1] != LF || t[i + 2] != LF
  }

  ghost predicate Normal(t: seq<Code>) {
    All(t, Settled) && NoDoubleSpace(t) && NoTripleBreak(t)
  }

  // ---- the passes on any text ----

  lemma {:induction false} DropMembers(t: seq<Code>, p: Code -> bool)
    ensures forall c :: c in Drop(t, p) <==> c in t && !p(c)
  {
    if t != [] {
      DropMembers(t[1..], p);
      assert forall c :: c in t <==> c == t[0] || c in t[1..];
    }
  }

  lemma {:induction false} TranslateAt(t: seq<Code>, f: Code -> Code)
    ensures |Translate(t, f)| == |t| && forall i :: 0 <= i < |t| ==> Translate(t, f)[i] == f(t[i])
  {
    if t != [] { TranslateAt(t[1..], f); }
  }

  lemma CleanedMembers(t: seq<Code>, x: Code)
    requires x in Cleaned(t)
    ensures x in t && !Control(x) && !Noncharacter(x) && !Surrogate(x) && !Replacement(x) && !Invisible(x)
  {
    var a := Drop(t, Control);
    var b := Drop(a, Noncharacter);
    var c := Drop(b, Surrogate);
    DropMembers(t, Control);
    DropMembers(a, Noncharacter);
    DropMembers(b, Surrogate);
    DropMembers(c, Replacement);
    DropMembers(Drop(c, Replacement), Invisible);
  }

  lemma CharactersMember(t: seq<Code>, c: Code) returns (b: Code)
    requires c in Characters(t)
    ensures b in Cleaned(t) && c == PlainSpace(Narrow(b))
  {
    var e := Cleaned(t);
    TranslateAt(e, Narrow);
    TranslateAt(Translate(e, Narrow), PlainSpace);
    var i :| 0 <= i < |Characters(t)| && Characters(t)[i] == c;
    b := e[i];
  }

  lemma CharactersArePlain(t: seq<Code>)
    ensures All(Characters(t), Plain)
  {
    forall c | c in Characters(t) ensures Plain(c) {
      var b := CharactersMember(t, c);
      CleanedMembers(t, b);
    }
  }

  predicate BreaksAreLf(c: Code) {
    Plain(c) && c != CR && c != 0x2028 && c != 0x2029
  }

  lemma {:induction false} LineBreaksSettle(t: seq<Code>)
    requires All(t, Plain)
    ensures All(LineBreaks(t), BreaksAreLf)
  {
    if t != [] {
      var rest := if t[0] == CR && |t| > 1 && t[1] == LF then t[2..] else t[1..];
      assert forall c :: c in rest ==> c in t;
      LineBreaksSettle(rest);
      assert t[0] in t;
    }
  }

  lemma NoDoubleCons(c: Code, t: seq<Code>)
    requires NoDoubleSpace(t) && (t == [] || c != SPACE || t[0] != SPACE)
    ensures NoDoubleSpace([c] + t)
  {
  }

  lemma {:induction false} SpaceRunsSettle(t: seq<Code>)
    requires All(t, BreaksAreLf)
    ensures All(SpaceRuns(t), Settled) && NoDoubleSpace(SpaceRuns(t))
    ensures SpaceRuns(t) == [] <==> t == []
    ensures t != [] && !Blank(t[0]) ==> SpaceRuns(t)[0] == t[0]
    decreases |t|
  {
    if t != [] {
      var n := RunLength(t, Blank);
      var first, rest := if n > 0 then SPACE else t[0], t[if n > 0 then n else 1..];
      SpaceRunsStep(t, n, first, rest);
      SpaceRunsSettle(rest);
      NoDoubleCons(first, SpaceRuns(rest));
      assert All([first] + SpaceRuns(rest), Settled);
    }
  }

  lemma SpaceRunsStep(t: seq<Code>, n: nat, first: Code, rest: seq<Code>)
    requires All(t, BreaksAreLf) && t != [] && n == RunLength(t, Blank)
    requires first == (if n > 0 then SPACE else t[0]) && rest == t[if n > 0 then n else 1..]
    ensures SpaceRuns(t) == [first] + SpaceRuns(rest) && All(rest, BreaksAreLf) && Settled(first)
    ensures first == SPACE && rest != [] ==> !Blank(rest[0])
    ensures !Blank(t[0]) ==> first == t[0]
  {
    assert t[0] in t && forall c :: c in rest ==> c in t;
  }

  /** One more character in front of normal text. */
  lemma NormalCons(c: Code, t: seq<Code>)
    requires Normal(t) && Settled(c)
    requires t == [] || c != SPACE || t[0] != SPACE
    requires c != LF || |t| < 2 || t[0] != LF || t[1] != LF
    ensures Normal([c] + t)
  {
    NoDoubleCons(c, t);
  }

  lemma {:induction false} BlankLinesSettle(t: seq<Code>)
    requires All(t, Settled) && NoDoubleSpace(t)
    ensures Normal(BlankLines(t))
    ensures BlankLines(t) == [] <==> t == []
    ensures t != [] ==> BlankLines(t)[0] == t[0]
    decreases |t|
  {
    if t != [] {
      var n := RunLength(t, LineFeed);
      var rest := t[if n > 0 then n else 1..];
      BlankLinesStep(t, n, rest);
      BlankLinesSettle(rest);
      NormalCons(t[0], BlankLines(rest));
      if n > 1 { NormalCons(LF, [LF] + BlankLines(rest)); }
    }
  }

  lemma BlankLinesStep(t: seq<Code>, n: nat, rest: seq<Code>)
    requires t != [] && n == RunLength(t, LineFeed) && rest == t[if n > 0 then n else 1..]
    requires All(t, Settled) && NoDoubleSpace(t)
    ensures All(rest, Settled) && NoDoubleSpace(rest) && Settled(t[0])
    ensures n > 0 ==> t[0] == LF && (rest == [] || rest[0] != LF)
    ensures n == 0 && rest != [] ==> t[0] != LF && (t[0] != SPACE || rest[0] != SPACE)
    ensures BlankLines(t) == if n > 1 then [LF] + ([LF] + BlankLines(rest)) else [t[0]] + BlankLines(rest)
  {
    assert t[0] in t && forall c :: c in rest ==> c in t;
    assert n > 0 ==> LineFeed(t[0]);
    BlankLinesUnfolds(t, n, rest, BlankLines(rest));
  }

  lemma BlankLinesUnfolds(t: seq<Code>, n: nat, rest: seq<Code>, r: seq<Code>)
    requires t != [] && n == RunLength(t, LineFeed) && rest == t[if n > 0 then n else 1..] && r == BlankLines(rest)
    ensures BlankLines(t) == if n > 1 then [LF] + ([LF] + r) else [t[0]] + r
  {
    assert [LF] + ([LF] + r) == [LF, LF] + r;
    if n == 1 || n == 2 {
      assert forall i :: 0 <= i < n ==> LineFeed(t[i]);
      assert t[..n] == if n == 1 then [t[0]] else [LF, LF];
    }
  }

  lemma NormaliseIsNormal(t: seq<Code>)
    ensures Normal(Normalise(t))
  {
    CharactersArePlain(t);
    LineBreaksSettle(Characters(t));
    SpaceRunsSettle(LineBreaks(Characters(t)));
    BlankLinesSettle(SpaceRuns(LineBreaks(Characters(t))));
  }

  // ---- the passes on normal text ----

  lemma {:induction false} DropNothing(t: seq<Code>, p: Code -> bool)
    requires forall i :: 0 <= i < |t| ==> !p(t[i])
    ensures Drop(t, p) == t
  {
    if t != [] {
      DropNothing(t[1..], p);
      assert [t[0]] + t[1..] == t;
    }
  }

  lemma TranslateNothing(t: seq<Code>, f: Code -> Code)
    requires forall i :: 0 <= i < |t| ==> f(t[i]) == t[i]
    ensures Translate(t, f) == t
  {
    TranslateAt(t, f);
  }

  lemma CharactersKeepsPlain(t: seq<Code>)
    requires All(t, Settled)
    ensures Characters(t) == t
  {
    forall i | 0 <= i < |t| ensures Settled(t[i]) { assert t[i] in t; }
    DropNothing(t, Control);
    DropNothing(t, Noncharacter);
    DropNothing(t, Surrogate);
    DropNothing(t, Replacement);
    DropNothing(t, Invisible);
    assert Cleaned(t) == t;
    TranslateNothing(t, Narrow);
    TranslateNothing(t, PlainSpace);
  }

  lemma {:induction false} LineBreaksKeepsNormal(t: seq<Code>)
    requires All(t, Settled)
    ensures LineBreaks(t) == t
  {
    if t != [] {
      assert t[0] in t && [t[0]] + t[1..] == t;
      LineBreaksKeepsNormal(t[1..]);
    }
  }

  lemma {:induction false} SpaceRunsKeepsNormal(t: seq<Code>)
    requires All(t, Settled) && NoDoubleSpace(t)
    ensures SpaceRuns(t) == t
  {
    if t != [] {
      assert t[0] in t && [t[0]] + t[1..] == t;
      assert |t| > 1 ==> t[1] in t;
      assert RunLength(t, Blank) <= 1;
      SpaceRunsKeepsNormal(t[1..]);
    }
  }

  lemma {:induction false} BlankLinesKeepsNormal(t: seq<Code>)
    requires NoTripleBreak(t)
    ensures BlankLines(t) == t
    decreases |t|
  {
    if t != [] {
      var n := RunLength(t, LineFeed);
      assert (n >= 1 ==> LineFeed(t[0])) && (n >= 2 ==> LineFeed(t[1])) && (n >= 3 ==> LineFeed(t[2]));
      if n == 0 { assert [t[0]] + t[1..] == t; } else { assert t[..n] + t[n..] == t; }
      BlankLinesKeepsNormal(t[if n > 0 then n else 1..]);
    }
  }

  lemma NormaliseKeepsNormal(t: seq<Code>)
    requires Normal(t)
    ensures Normalise(t) == t
  {
    CharactersKeepsPlain(t);
    LineBreaksKeepsNormal(t);
    SpaceRunsKeepsNormal(t);
    BlankLinesKeepsNormal(t);
  }

  // ---- idempotence ----

  /** With private-use characters kept, sanitizing is idempotent. */
  lemma IdempotentKeepingPua(t: seq<Code>)
    ensures SanitizeText(SanitizeText(t, false), false) == SanitizeText(t, false)
  {
    NormaliseIsNormal(t);
    NormaliseKeepsNormal(Normalise(t));
  }

  lemma NormaliseAddsNoPua(t: seq<Code>)
    requires forall c :: c in t ==> !PrivateUse(c)
    ensures forall c :: c in Normalise(t) ==> !PrivateUse(c)
  {
    forall c | c in Characters(t) ensures !PrivateUse(c) {
      var b := CharactersMember(t, c);
      CleanedMembers(t, b);
    }
    WhiteSpaceAddsOnlySpace(Characters(t));
    WhiteSpaceAddsOnlySpace(LineBreaks(Characters(t)));
    WhiteSpaceAddsOnlySpace(SpaceRuns(LineBreaks(Characters(t))));
  }

  lemma {:induction false} WhiteSpaceAddsOnlySpace(t: seq<Code>)
    ensures forall c :: c in LineBreaks(t) ==> c in t || c == LF
    ensures forall c :: c in SpaceRuns(t) ==> c in t || c == SPACE
    ensures forall c :: c in BlankLines(t) ==> c in t
    decreases |t|
  {
    if t != [] {
      assert forall n, c :: 1 <= n <= |t| && c in t[n..] ==> c in t;
      WhiteSpaceAddsOnlySpace(t[1..]);
      if |t| > 1 { WhiteSpaceAddsOnlySpace(t[2..]); }
      WhiteSpaceAddsOnlySpace(t[if RunLength(t, Blank) > 0 then RunLength(t, Blank) else 1..]);
      var n := RunLength(t, LineFeed);
      WhiteSpaceAddsOnlySpace(t[if n > 0 then n else 1..]);
      assert t[0] in t && forall c :: c in t[..n] ==> c in t;
    }
  }

  /** And so it is, either way, on texts without private-use characters. */
  lemma IdempotentWithoutPua(t: seq<Code>, stripPua: bool)
    requires forall c :: c in t ==> !PrivateUse(c)
    ensures SanitizeText(SanitizeText(t, stripPua), stripPua) == SanitizeText(t, stripPua)
  {
    NormaliseIsNormal(t);
    NormaliseAddsNoPua(t);
    DropNothing(Normalise(t), PrivateUse);
    NormaliseKeepsNormal(Normalise(t));
  }

  lemma StrippedIsSettled(t: seq<Code>)
    ensures All(SanitizeText(t, true), Settled)
    ensures forall c :: c in SanitizeText(t, true) ==> !PrivateUse(c)
  {
    NormaliseIsNormal(t);
    DropMembers(Normalise(t), PrivateUse);
  }

  // ---- what stripping joins ----

  /** The positions, counted from `start`, of the characters that stay. */
  function Kept(t: seq<Code>, p: Code -> bool, start: nat): seq<nat> {
    if t == [] then [] else (if p(t[0]) then [] else [start]) + Kept(t[1..], p, start + 1)
  }

  lemma {:induction false} KeptLength(t: seq<Code>, p: Code -> bool, start: nat)
    ensures |Kept(t, p, start)| == |Drop(t, p)|
  {
    if t != [] { KeptLength(t[1..], p, start + 1); }
  }

  lemma {:induction false} KeptFact(t: seq<Code>, p: Code -> bool, start: nat, a: nat)
    requires a < |Drop(t, p)|
    ensures a < |Kept(t, p, start)| && start <= Kept(t, p, start)[a] < start + |t|
    ensures Drop(t, p)[a] == t[Kept(t, p, start)[a] - start] && !p(t[Kept(t, p, start)[a] - start])
  {
    KeptLength(t, p, start);
    if p(t[0]) {
      KeptFact(t[1..], p, start + 1, a);
    } else if a > 0 {
      KeptFact(t[1..], p, start + 1, a - 1);
    }
  }

  lemma {:induction false} KeptIncreases(t: seq<Code>, p: Code -> bool, start: nat, a: nat, b: nat)
    requires a < b < |Kept(t, p, start)|
    ensures Kept(t, p, start)[a] < Kept(t, p, start)[b]
  {
    if p(t[0]) {
      KeptIncreases(t[1..], p, start + 1, a, b);
    } else if a > 0 {
      KeptIncreases(t[1..], p, start + 1, a - 1, b - 1);
    } else {
      KeptLength(t[1..], p, start + 1);
      KeptFact(t[1..], p, start + 1, b - 1);
    }
  }

  lemma {:induction false} KeptHasAll(t: seq<Code>, p: Code -> bool, start: nat, i: nat)
    requires i < |t| && !p(t[i])
    ensures start + i in Kept(t, p, start)
  {
    if i > 0 { KeptHasAll(t[1..], p, start + 1, i - 1); }
  }

  /** Between positions `i` and `j` there is nothing but private use. */
  predicate OnlyPua(t: seq<Code>, i: nat, j: nat)
    requires i < j <= |t|
  {
    forall k :: i < k < j ==> PrivateUse(t[k])
  }

  lemma KeptAt(t: seq<Code>, i: nat) returns (a: nat)
    requires i < |t| && !PrivateUse(t[i])
    ensures a < |Kept(t, PrivateUse, 0)| && Kept(t, PrivateUse, 0)[a] == i
  {
    KeptHasAll(t, PrivateUse, 0, i);
    a :| 0 <= a < |Kept(t, PrivateUse, 0)| && Kept(t, PrivateUse, 0)[a] == i;
  }

  lemma KeptInOrder(t: seq<Code>, a: nat, b: nat)
    requires a < |Kept(t, PrivateUse, 0)| && b < |Kept(t, PrivateUse, 0)|
    ensures a < b <==> Kept(t, PrivateUse, 0)[a] < Kept(t, PrivateUse, 0)[b]
    ensures Kept(t, PrivateUse, 0)[a] < |t| && !PrivateUse(t[Kept(t, PrivateUse, 0)[a]])
  {
    hide Kept, Drop, PrivateUse;
    KeptLength(t, PrivateUse, 0);
    KeptFact(t, PrivateUse, 0, a);
    if a < b { KeptIncreases(t, PrivateUse, 0, a, b); }
    if b < a { KeptIncreases(t, PrivateUse, 0, b, a); }
  }

  lemma KeptCharacter(t: seq<Code>, a: nat)
    requires a < |Drop(t, PrivateUse)| || a < |Kept(t, PrivateUse, 0)|
    ensures a < |Drop(t, PrivateUse)| && a < |Kept(t, PrivateUse, 0)| && Kept(t, PrivateUse, 0)[a] < |t|
    ensures Drop(t, PrivateUse)[a] == t[Kept(t, PrivateUse, 0)[a]]
  {
    hide Kept, Drop, PrivateUse;
    KeptLength(t, PrivateUse, 0);
    KeptFact(t, PrivateUse, 0, a);
  }

  /** There is only private use between neighbouring kept positions. */
  lemma GapIsPua(t: seq<Code>, a: nat)
    requires a + 1 < |Kept(t, PrivateUse, 0)|
    ensures var ks := Kept(t, PrivateUse, 0); ks[a] < ks[a + 1] < |t| && OnlyPua(t, ks[a], ks[a + 1])
  {
    hide Kept, PrivateUse;
    var ks := Kept(t, PrivateUse, 0);
    KeptInOrder(t, a, a + 1);
    KeptInOrder(t, a + 1, a);
    forall k | ks[a] < k < ks[a + 1] ensures PrivateUse(t[k]) {
      if !PrivateUse(t[k]) {
        var c := KeptAt(t, k);
        KeptInOrder(t, a, c);
        KeptInOrder(t, c, a + 1);
      }
    }
  }

  /** The next kept position is the next one with only private use before it. */
  lemma NextIsKept(t: seq<Code>, a: nat, j: nat)
    requires a < |Kept(t, PrivateUse, 0)| && Kept(t, PrivateUse, 0)[a] < j < |t| && !PrivateUse(t[j])
    requires OnlyPua(t, Kept(t, PrivateUse, 0)[a], j)
    ensures a + 1 < |Kept(t, PrivateUse, 0)| && Kept(t, PrivateUse, 0)[a + 1] == j
  {
    hide Kept, PrivateUse;
    var b := KeptAt(t, j);
    KeptInOrder(t, a, b);
    KeptInOrder(t, a, a + 1);
    KeptInOrder(t, a + 1, b);
  }

  /** Two spaces of `t` with only private use between them. */
  ghost predicate JoinsSpaces(t: seq<Code>) {
    exists i, j :: 0 <= i < j < |t| && t[i] == SPACE && t[j] == SPACE && OnlyPua(t, i, j)
  }

  /** Three line breaks of `t` with only private use between them. */
  ghost predicate JoinsBreaks(t: seq<Code>) {
    exists i, j, k :: 0 <= i < j < k < |t| && t[i] == LF && t[j] == LF && t[k] == LF && OnlyPua(t, i, j) && OnlyPua(t, j, k)
  }

  lemma PlainIsKept()
    ensures !PrivateUse(SPACE) && !PrivateUse(LF)
  {
  }

  lemma SpacesAt(t: seq<Code>, i: nat, j: nat)
    requires i < j < |t| && t[i] == SPACE && t[j] == SPACE && OnlyPua(t, i, j)
    ensures JoinsSpaces(t)
  {
  }

  lemma StrippedSpaces(t: seq<Code>)
    ensures NoDoubleSpace(Drop(t, PrivateUse)) <==> !JoinsSpaces(t)
  {
    var ks, d := Kept(t, PrivateUse, 0), Drop(t, PrivateUse);
    PlainIsKept();
    hide Kept, Drop, PrivateUse;
    if i, j :| 0 <= i < j < |t| && t[i] == SPACE && t[j] == SPACE && OnlyPua(t, i, j) {
      var a := KeptAt(t, i);
      NextIsKept(t, a, j);
      KeptCharacter(t, a);
      KeptCharacter(t, a + 1);
      assert d[a] == SPACE && d[a + 1] == SPACE;
    }
    if a :| 0 <= a < |d| - 1 && d[a] == SPACE && d[a + 1] == SPACE {
      KeptCharacter(t, a);
      KeptCharacter(t, a + 1);
      GapIsPua(t, a);
      SpacesAt(t, ks[a], ks[a + 1]);
    }
  }

  lemma JoinedBreaks(t: seq<Code>)
    requires JoinsBreaks(t)
    ensures !NoTripleBreak(Drop(t, PrivateUse))
  {
    var d := Drop(t, PrivateUse);
    PlainIsKept();
    hide Kept, Drop, PrivateUse;
    var i, j, k :| 0 <= i < j < k < |t| && t[i] == LF && t[j] == LF && t[k] == LF && OnlyPua(t, i, j) && OnlyPua(t, j, k);
    hide OnlyPua, JoinsBreaks;
    var a := KeptAt(t, i);
    NextIsKept(t, a, j);
    NextIsKept(t, a + 1, k);
    KeptCharacter(t, a);
    KeptCharacter(t, a + 1);
    KeptCharacter(t, a + 2);
    assert d[a] == LF && d[a + 1] == LF && d[a + 2] == LF;
  }

  lemma BreaksAt(t: seq<Code>, i: nat, j: nat, k: nat)
    requires i < j < k < |t| && t[i] == LF && t[j] == LF && t[k] == LF && OnlyPua(t, i, j) && OnlyPua(t, j, k)
    ensures JoinsBreaks(t)
  {
  }

  lemma TripledBreaks(t: seq<Code>)
    requires !NoTripleBreak(Drop(t, PrivateUse))
    ensures JoinsBreaks(t)
  {
    hide Kept, Drop, PrivateUse, OnlyPua, JoinsBreaks;
    var ks, d := Kept(t, PrivateUse, 0), Drop(t, PrivateUse);
    var a :| 0 <= a < |d| - 2 && d[a] == LF && d[a + 1] == LF && d[a + 2] == LF;
    KeptCharacter(t, a);
    KeptCharacter(t, a + 1);
    KeptCharacter(t, a + 2);
    GapIsPua(t, a);
    GapIsPua(t, a + 1);
    BreaksAt(t, ks[a], ks[a + 1], ks[a + 2]);
  }

  /**
  Stripping private-use characters comes last. A second application changes nothing if and only if
  the text without stripping has no two spaces and no three line breaks that only private use keeps
  apart.
  */
  lemma StrippingIdempotence(t: seq<Code>)
    ensures var once, kept := SanitizeText(t, true), SanitizeText(t, false);
            SanitizeText(once, true) == once <==> !JoinsSpaces(kept) && !JoinsBreaks(kept)
  {
    var once := SanitizeText(t, true);
    StrippedIsSettled(t);
    NormaliseIsNormal(once);
    NormaliseAddsNoPua(once);
    DropNothing(Normalise(once), PrivateUse);
    if NoDoubleSpace(once) && NoTripleBreak(once) { NormaliseKeepsNormal(once); }
    assert once == Drop(SanitizeText(t, false), PrivateUse);
    StrippedSpaces(SanitizeText(t, false));
    if JoinsBreaks(SanitizeText(t, false)) { JoinedBreaks(SanitizeText(t, false)); }
    if !NoTripleBreak(once) { TripledBreaks(SanitizeText(t, false)); }
  }

  /** Two applications always reach a fixpoint. */
  lemma TwoApplicationsSettle(t: seq<Code>, stripPua: bool)
    ensures var twice := SanitizeText(SanitizeText(t, stripPua), stripPua); SanitizeText(twice, stripPua) == twice
  {
    if stripPua {
      StrippedIsSettled(t);
      IdempotentWithoutPua(SanitizeText(t, true), true);
    } else {
      IdempotentKeepingPua(t);
    }
  }

  /** One may not: a private-use character between two spaces. */
  lemma OneApplicationMayNotSettle()
    ensures SanitizeText([SPACE, 0xE000, SPACE], true) == [SPACE, SPACE]
    ensures SanitizeText([SPACE, SPACE], true) == [SPACE]
  {
    var t := [SPACE, 0xE000, SPACE];
    NormaliseKeepsNormal(t);
    DropNothing([SPACE], PrivateUse);
    assert t[1..] == [0xE000, SPACE] && t[1..][1..] == [SPACE];
    assert Drop(t[1..], PrivateUse) == [] + Drop(t[1..][1..], PrivateUse);
    var d := [SPACE, SPACE];
    CharactersKeepsPlain(d);
    LineBreaksKeepsNormal(d);
    assert RunLength(d, Blank) == 2 && d[2..] == [];
    assert SpaceRuns(d) == [SPACE] + SpaceRuns([]);
    BlankLinesKeepsNormal([SPACE]);
  }

  // ---- file names ----

  predicate PrivateUseBmp(c: Code) {
    0xE000 <= c <= 0xF8FF
  }

  /** What the metadata variant removes; it leaves white space and wide characters alone. */
  predicate Scrubbed(c: Code) {
    || Control(c) || Noncharacter(c) || Surrogate(c) || Replacement(c) || Invisible(c) || PrivateUseBmp(c)
  }

  function SanitizeMetadata(t: seq<Code>): seq<Code> {
    Drop(Cleaned(t), PrivateUseBmp)
  }

  lemma {:induction false} DropShortens(t: seq<Code>, p: Code -> bool)
    ensures |Drop(t, p)| < |t| || Drop(t, p) == t
    ensures Drop(t, p) == t <==> forall i :: 0 <= i < |t| ==> !p(t[i])
  {
    if t != [] {
      DropShortens(t[1..], p);
      if p(t[0]) {
        assert |Drop(t, p)| < |t|;
      } else {
        assert Drop(t, p)[1..] == Drop(t[1..], p) && Drop(t, p)[0] == t[0];
        assert Drop(t, p) == t <==> Drop(t[1..], p) == t[1..];
      }
    }
  }

  /** A name is stored as it is if and only if it has none of the removed characters. */
  lemma MetadataUnchanged(t: seq<Code>)
    ensures SanitizeMetadata(t) == t <==> forall i :: 0 <= i < |t| ==> !Scrubbed(t[i])
  {
    var a := Drop(t, Control);
    var b := Drop(a, Noncharacter);
    var c := Drop(b, Surrogate);
    var d := Drop(c, Replacement);
    var e := Drop(d, Invisible);
    DropShortens(t, Control);
    DropShortens(a, Noncharacter);
    DropShortens(b, Surrogate);
    DropShortens(c, Replacement);
    DropShortens(d, Invisible);
    DropShortens(e, PrivateUseBmp);
    hide Drop;
  }
}
