/**
The sanitizer with canonical composition (NFC) in front. The composition tables are not spelled out:
`nfc` is any function with the listed properties of canonical composition.
*/
module SanitizerForms {
  import opened Sanitizer

  type Form = seq<Code> -> seq<Code>

  ghost predicate Lacks(t: seq<Code>, p: Code -> bool) {
    forall c :: c in t ==> !p(c)
  }

  /** White space of every kind the passes look for. */
  predicate White(c: Code) {
    Blank(c) || c == CR || Break(c)
  }

  /**
  Composing is idempotent, yields no white space, control, invisible, wide or private-use character
  that was not there, and does not reach across white space.
  */
  ghost predicate Canonical(nfc: Form) {
    && nfc([]) == []
    && (forall t :: nfc(nfc(t)) == nfc(t))
    && (forall t :: Normal(t) ==> Normal(nfc(t)))
    && (forall t :: Lacks(t, PrivateUse) ==> Lacks(nfc(t), PrivateUse))
    && (forall t :: Lacks(t, Scrubbed) ==> Lacks(nfc(t), Scrubbed))
    && (forall t :: Lacks(t, White) ==> Lacks(nfc(t), White))
    && (forall a, c, b :: White(c) ==> nfc(a + [c] + b) == nfc(a) + [c] + nfc(b))
  }

  function Sanitized(nfc: Form, t: seq<Code>, stripPua: bool): seq<Code> {
    if t == [] then [] else SanitizeText(nfc(t), stripPua)
  }

  function StoredName(nfc: Form, name: seq<Code>): seq<Code> {
    if name == [] then [] else SanitizeMetadata(nfc(name))
  }

  /** Without stripping the result is normal, whatever is composed. */
  lemma KeptTextIsNormal(nfc: Form, t: seq<Code>)
    ensures Normal(Sanitized(nfc, t, false))
  {
    if t != [] { NormaliseIsNormal(nfc(t)); }
  }

  lemma SanitizeNormal(t: seq<Code>)
    requires Normal(t)
    ensures SanitizeText(t, false) == t
    ensures Lacks(t, PrivateUse) ==> SanitizeText(t, true) == t
  {
    NormaliseKeepsNormal(t);
    if Lacks(t, PrivateUse) { DropNothing(t, PrivateUse); }
  }

  lemma StrippedIsNormal(t: seq<Code>)
    requires Lacks(t, PrivateUse)
    ensures SanitizeText(t, true) == Normalise(t)
    ensures Normal(SanitizeText(t, true)) && Lacks(SanitizeText(t, true), PrivateUse)
  {
    NormaliseIsNormal(t);
    NormaliseAddsNoPua(t);
    DropNothing(Normalise(t), PrivateUse);
  }

  // ---- composing works word by word ----

  function Ended(word: seq<Code>): seq<seq<Code>> {
    if word == [] then [] else [word]
  }

  /** The words of a text, less the characters `p`; `word` is the beginning of the first. */
  function Words(p: Code -> bool, word: seq<Code>, t: seq<Code>): seq<seq<Code>>
    decreases t
  {
    if t == [] then Ended(word)
    else if White(t[0]) then Ended(word) + Words(p, [], t[1..])
    else Words(p, if p(t[0]) then word else word + [t[0]], t[1..])
  }

  predicate Nothing(c: Code) {
    false
  }

  ghost predicate AllComposed(nfc: Form, words: seq<seq<Code>>) {
    forall w :: w in words ==> nfc(w) == w
  }

  lemma AllComposedConcat(nfc: Form, a: seq<seq<Code>>, b: seq<seq<Code>>)
    ensures AllComposed(nfc, a + b) <==> AllComposed(nfc, a) && AllComposed(nfc, b)
  {
    assert forall w :: w in a + b <==> w in a || w in b;
  }

  lemma EndedComposed(nfc: Form, word: seq<Code>)
    requires nfc([]) == []
    ensures AllComposed(nfc, Ended(word)) <==> nfc(word) == word
  {
    assert word != [] ==> word in Ended(word);
  }

  /** A text with one white character splits there in one way only. */
  lemma SplitAtWhite(a: seq<Code>, b: seq<Code>, a': seq<Code>, b': seq<Code>, c: Code)
    requires White(c) && Lacks(a, White) && Lacks(a', White)
    requires a + [c] + b == a' + [c] + b'
    ensures a == a' && b == b'
  {
    var t := a + [c] + b;
    assert t[|a|] == c && t[|a'|] == c;
    assert forall k :: 0 <= k < |a| ==> t[k] == a[k] && a[k] in a;
    assert forall k :: 0 <= k < |a'| ==> t[k] == a'[k] && a'[k] in a';
    assert t[..|a|] == a && t[..|a'|] == a';
    assert t[|a| + 1..] == b && t[|a'| + 1..] == b';
  }

  /** A text is composed if and only if each of its words is. */
  lemma {:induction false} ComposedByWords(nfc: Form, word: seq<Code>, t: seq<Code>)
    requires Canonical(nfc) && Lacks(word, White)
    ensures nfc(word + t) == word + t <==> AllComposed(nfc, Words(Nothing, word, t))
    decreases |t|
  {
    hide Canonical, AllComposed, Ended, White;
    if t == [] {
      assert word + t == word;
      NothingIsComposed(nfc);
      EndedComposed(nfc, word);
    } else if White(t[0]) {
      NothingIsComposed(nfc);
      assert word + t == word + [t[0]] + t[1..];
      ComposedAround(nfc, word, t[0], t[1..]);
      assert [] + t[1..] == t[1..];
      ComposedByWords(nfc, [], t[1..]);
      EndedComposed(nfc, word);
      AllComposedConcat(nfc, Ended(word), Words(Nothing, [], t[1..]));
    } else {
      assert word + t == word + [t[0]] + t[1..];
      ComposedByWords(nfc, word + [t[0]], t[1..]);
    }
  }

  lemma NothingIsComposed(nfc: Form)
    requires Canonical(nfc)
    ensures nfc([]) == []
  {
  }

  lemma ComposedAround(nfc: Form, a: seq<Code>, c: Code, b: seq<Code>)
    requires Canonical(nfc) && White(c) && Lacks(a, White)
    ensures nfc(a + [c] + b) == a + [c] + b <==> nfc(a) == a && nfc(b) == b
  {
    hide White, Normal;
    assert Lacks(nfc(a), White);
    if nfc(a + [c] + b) == a + [c] + b { SplitAtWhite(nfc(a), nfc(b), a, b, c); }
  }

  // ---- the white-space passes keep the words ----

  lemma {:induction false} LineBreaksKeepWords(p: Code -> bool, word: seq<Code>, t: seq<Code>)
    ensures Words(p, word, LineBreaks(t)) == Words(p, word, t)
    decreases |t|
  {
    if t == [] {
    } else if t[0] == CR {
      var rest := if |t| > 1 && t[1] == LF then t[2..] else t[1..];
      LineBreaksKeepWords(p, [], rest);
      assert Words(p, [], t[1..]) == Words(p, [], rest) by {
        if |t| > 1 && t[1] == LF { assert t[1..][0] == LF && t[1..][1..] == t[2..]; }
      }
      assert LineBreaks(t)[1..] == LineBreaks(rest);
    } else {
      assert LineBreaks(t)[1..] == LineBreaks(t[1..]);
      LineBreaksKeepWords(p, if White(t[0]) then [] else if p(t[0]) then word else word + [t[0]], t[1..]);
    }
  }

  /** A run of white space ends one word. */
  lemma {:induction false} RunEndsWord(p: Code -> bool, word: seq<Code>, t: seq<Code>, n: nat)
    requires 1 <= n <= |t| && forall i :: 0 <= i < n ==> White(t[i])
    ensures Words(p, word, t) == Ended(word) + Words(p, [], t[n..])
    decreases n
  {
    if n > 1 {
      RunEndsWord(p, [], t[1..], n - 1);
      assert t[1..][n - 1..] == t[n..];
    }
  }

  lemma {:induction false} SpaceRunsKeepWords(p: Code -> bool, word: seq<Code>, t: seq<Code>)
    ensures Words(p, word, SpaceRuns(t)) == Words(p, word, t)
    decreases |t|
  {
    if t != [] {
      var n := RunLength(t, Blank);
      if n > 0 {
        RunEndsWord(p, word, t, n);
        SpaceRunsKeepWords(p, [], t[n..]);
        assert SpaceRuns(t)[1..] == SpaceRuns(t[n..]);
      } else {
        assert SpaceRuns(t)[1..] == SpaceRuns(t[1..]);
        SpaceRunsKeepWords(p, if White(t[0]) then [] else if p(t[0]) then word else word + [t[0]], t[1..]);
      }
    }
  }

  lemma {:induction false} BlankLinesKeepWords(p: Code -> bool, word: seq<Code>, t: seq<Code>)
    ensures Words(p, word, BlankLines(t)) == Words(p, word, t)
    decreases |t|
  {
    if t != [] {
      var n := RunLength(t, LineFeed);
      if n > 0 {
        var breaks := if n >= 3 then [LF, LF] else t[..n];
        var rest := BlankLines(t[n..]);
        assert BlankLines(t) == breaks + rest && (breaks + rest)[|breaks|..] == rest;
        RunEndsWord(p, word, t, n);
        RunEndsWord(p, word, breaks + rest, |breaks|);
        BlankLinesKeepWords(p, [], t[n..]);
      } else {
        assert BlankLines(t)[1..] == BlankLines(t[1..]);
        BlankLinesKeepWords(p, if White(t[0]) then [] else if p(t[0]) then word else word + [t[0]], t[1..]);
      }
    }
  }

  lemma NormaliseKeepsWords(p: Code -> bool, t: seq<Code>)
    ensures Words(p, [], Normalise(t)) == Words(p, [], Characters(t))
  {
    hide Words, LineBreaks, SpaceRuns, BlankLines, Characters;
    LineBreaksKeepWords(p, [], Characters(t));
    SpaceRunsKeepWords(p, [], LineBreaks(Characters(t)));
    BlankLinesKeepWords(p, [], SpaceRuns(LineBreaks(Characters(t))));
  }

  lemma {:induction false} WordsOfDrop(p: Code -> bool, word: seq<Code>, t: seq<Code>)
    requires forall c :: p(c) ==> !White(c)
    ensures Words(Nothing, word, Drop(t, p)) == Words(p, word, t)
    decreases |t|
  {
    if t == [] {
    } else if p(t[0]) {
      assert Drop(t, p) == Drop(t[1..], p);
      WordsOfDrop(p, word, t[1..]);
    } else {
      assert Drop(t, p)[0] == t[0] && Drop(t, p)[1..] == Drop(t[1..], p);
      WordsOfDrop(p, if White(t[0]) then [] else word + [t[0]], t[1..]);
    }
  }

  lemma ComposedText(nfc: Form, t: seq<Code>)
    requires Canonical(nfc)
    ensures nfc(t) == t <==> AllComposed(nfc, Words(Nothing, [], t))
  {
    hide Canonical, AllComposed, Words;
    assert [] + t == t;
    ComposedByWords(nfc, [], t);
  }

  /** Folding white space neither composes a text nor takes it apart. */
  lemma FoldingKeepsComposed(nfc: Form, t: seq<Code>)
    requires Canonical(nfc)
    ensures nfc(Normalise(t)) == Normalise(t) <==> nfc(Characters(t)) == Characters(t)
  {
    hide Canonical, AllComposed, Words, Normalise, Characters;
    ComposedText(nfc, Normalise(t));
    ComposedText(nfc, Characters(t));
    NormaliseKeepsWords(Nothing, t);
  }

  /** Nor does it when private use is stripped afterwards. */
  lemma FoldingKeepsStripped(nfc: Form, t: seq<Code>)
    requires Canonical(nfc)
    ensures var once, bare := Drop(Normalise(t), PrivateUse), Drop(Characters(t), PrivateUse);
            nfc(once) == once <==> nfc(bare) == bare
  {
    assert forall c :: PrivateUse(c) ==> !White(c);
    hide Canonical, AllComposed, Words, Normalise, Characters, Drop, White, PrivateUse;
    ComposedText(nfc, Drop(Normalise(t), PrivateUse));
    ComposedText(nfc, Drop(Characters(t), PrivateUse));
    WordsOfDrop(PrivateUse, [], Normalise(t));
    WordsOfDrop(PrivateUse, [], Characters(t));
    NormaliseKeepsWords(PrivateUse, t);
  }

  // ---- when one application is enough ----

  /** With private-use characters kept, a second application composes what the first brought together. */
  lemma TwiceKeeping(nfc: Form, t: seq<Code>)
    requires Canonical(nfc)
    ensures var once := Sanitized(nfc, t, false); Sanitized(nfc, once, false) == nfc(once)
  {
    hide SanitizeText, Normal;
    var once := Sanitized(nfc, t, false);
    KeptTextIsNormal(nfc, t);
    SanitizeNormal(nfc(once));
  }

  lemma SanitizedText(nfc: Form, t: seq<Code>)
    requires Canonical(nfc)
    ensures Sanitized(nfc, t, false) == Normalise(nfc(t))
    ensures Sanitized(nfc, t, true) == Drop(Normalise(nfc(t)), PrivateUse)
  {
    if t == [] { SanitizeNothing(); }
  }

  lemma SanitizeNothing()
    ensures Normalise([]) == [] && Characters([]) == [] && Drop([], PrivateUse) == []
  {
  }

  /**
  It changes nothing if and only if the characters left after removal and width folding are composed
  as they stand.
  */
  lemma KeepingIdempotence(nfc: Form, t: seq<Code>)
    requires Canonical(nfc)
    ensures var once, left := Sanitized(nfc, t, false), Characters(nfc(t));
            Sanitized(nfc, once, false) == once <==> nfc(left) == left
  {
    TwiceKeeping(nfc, t);
    SanitizedText(nfc, t);
    hide Canonical, Normalise, Characters;
    FoldingKeepsComposed(nfc, nfc(t));
  }

  /** On a stripped text that composing changes, a second application changes something too. */
  lemma UncomposedIsChanged(nfc: Form, once: seq<Code>)
    requires Canonical(nfc) && Lacks(once, PrivateUse) && once != [] && nfc(once) != once
    ensures Sanitized(nfc, once, true) != once
  {
    hide SanitizeText, Normal;
    StrippedIsNormal(nfc(once));
    if Sanitized(nfc, once, true) == once { SanitizeNormal(nfc(once)); }
  }

  lemma StrippedTwice(nfc: Form, t: seq<Code>)
    requires Canonical(nfc)
    ensures var once, kept := Sanitized(nfc, t, true), Sanitized(nfc, t, false);
            Sanitized(nfc, once, true) == once <==> nfc(once) == once && !JoinsSpaces(kept) && !JoinsBreaks(kept)
  {
    var u := if t == [] then [] else nfc(t);
    var once := SanitizeText(u, true);
    StrippingIdempotence(u);
    StrippedIsSettled(u);
    hide JoinsSpaces, JoinsBreaks;
    if nfc(once) != once { UncomposedIsChanged(nfc, once); }
  }

  /**
  With stripping, a second application changes nothing if and only if the characters left after
  removal, width folding and stripping are composed as they stand, and private use keeps no two
  spaces and no three line breaks apart in the text without stripping.
  */
  lemma StrippedIdempotence(nfc: Form, t: seq<Code>)
    requires Canonical(nfc)
    ensures var once, kept := Sanitized(nfc, t, true), Sanitized(nfc, t, false);
            var left := Drop(Characters(nfc(t)), PrivateUse);
            Sanitized(nfc, once, true) == once <==> nfc(left) == left && !JoinsSpaces(kept) && !JoinsBreaks(kept)
  {
    StrippedTwice(nfc, t);
    SanitizedText(nfc, t);
    hide Canonical, Normalise, Characters, JoinsSpaces, JoinsBreaks;
    FoldingKeepsStripped(nfc, nfc(t));
  }

  /** Where there is nothing to remove and nothing wide, one application is enough. */
  lemma UntouchedSettlesAtOnce(nfc: Form, t: seq<Code>)
    requires Canonical(nfc) && Characters(nfc(t)) == nfc(t)
    ensures var once := Sanitized(nfc, t, false); Sanitized(nfc, once, false) == once
    ensures Lacks(nfc(t), PrivateUse) ==> var once := Sanitized(nfc, t, true); Sanitized(nfc, once, true) == once
  {
    KeepingIdempotence(nfc, t);
    assert nfc(nfc(t)) == nfc(t);
    if Lacks(nfc(t), PrivateUse) {
      DropNothing(nfc(t), PrivateUse);
      StrippedIdempotence(nfc, t);
      IdempotentWithoutPua(nfc(t), true);
      StrippingIdempotence(nfc(t));
      SanitizedText(nfc, t);
    }
  }

  // ---- two applications are always enough ----

  lemma {:induction false} ComposingKeepsSettled(nfc: Form, word: seq<Code>, t: seq<Code>)
    requires Canonical(nfc) && Lacks(word, White) && All(word + t, Settled)
    ensures All(nfc(word + t), Settled)
    decreases |t|
  {
    hide White, Settled;
    if t == [] {
      assert word + t == word;
      WordIsNormal(word);
      hide Canonical;
      WordStaysSettled(nfc, word);
    } else if White(t[0]) {
      assert word + t == word + [t[0]] + t[1..];
      assert nfc(word + [t[0]] + t[1..]) == nfc(word) + [t[0]] + nfc(t[1..]);
      hide Canonical;
      WordStaysSettled(nfc, word);
      assert [] + t[1..] == t[1..];
      ComposingKeepsSettled(nfc, [], t[1..]);
    } else {
      hide Canonical;
      assert word + t == word + [t[0]] + t[1..];
      ComposingKeepsSettled(nfc, word + [t[0]], t[1..]);
    }
  }

  lemma WordIsNormal(word: seq<Code>)
    requires Lacks(word, White) && All(word, Settled)
    ensures Normal(word)
  {
    forall i | 0 <= i < |word| ensures word[i] != SPACE && word[i] != LF { assert word[i] in word; }
  }

  lemma WordStaysSettled(nfc: Form, word: seq<Code>)
    requires Canonical(nfc) && Lacks(word, White) && All(word, Settled)
    ensures All(nfc(word), Settled)
  {
    WordIsNormal(word);
  }

  lemma StrippedResult(nfc: Form, t: seq<Code>)
    ensures Lacks(Sanitized(nfc, t, true), PrivateUse) && All(Sanitized(nfc, t, true), Settled)
  {
    if t != [] { StrippedIsSettled(nfc(t)); }
  }

  /** The second application of stripping yields a composed text. */
  lemma TwiceStrippedIsComposed(nfc: Form, once: seq<Code>)
    requires Canonical(nfc) && All(once, Settled) && Lacks(once, PrivateUse)
    ensures var twice := Sanitized(nfc, once, true);
            nfc(twice) == twice && Normal(twice) && Lacks(twice, PrivateUse)
  {
    var u := nfc(once);
    assert [] + once == once;
    assert nfc(u) == u && Lacks(u, PrivateUse);
    ComposingKeepsSettled(nfc, [], once);
    CharactersKeepsPlain(u);
    StrippedIsNormal(u);
    SanitizedText(nfc, once);
    assert nfc([]) == [];
    if once == [] { SanitizeNothing(); }
    hide Canonical, Normalise, Characters, Normal, Settled, PrivateUse, SanitizeText;
    FoldingKeepsComposed(nfc, u);
  }

  /** A third application never changes anything. */
  lemma ApplicationsSettle(nfc: Form, t: seq<Code>, stripPua: bool)
    requires Canonical(nfc)
    ensures var twice := Sanitized(nfc, Sanitized(nfc, t, stripPua), stripPua); Sanitized(nfc, twice, stripPua) == twice
  {
    hide SanitizeText, Normal, Settled, PrivateUse;
    var once := Sanitized(nfc, t, stripPua);
    if stripPua {
      StrippedResult(nfc, t);
      TwiceStrippedIsComposed(nfc, once);
      SanitizeNormal(Sanitized(nfc, once, true));
    } else {
      TwiceKeeping(nfc, t);
      TwiceKeeping(nfc, once);
    }
  }

  // ---- one application may not do ----

  lemma DropTheMiddle(b: Code, z: Code, m: Code)
    requires !Invisible(b) && Invisible(z) && !Invisible(m)
    ensures Drop([b, z, m], Invisible) == [b, m]
  {
    assert [b, z, m][1..] == [z, m] && [z, m][1..] == [m];
    DropNothing([m], Invisible);
    assert Drop([z, m], Invisible) == [] + Drop([m], Invisible);
    assert Drop([b, z, m], Invisible) == [b] + Drop([z, m], Invisible);
  }

  lemma CharactersOfThree(b: Code, z: Code, m: Code)
    requires Settled(b) && Settled(m)
    requires Invisible(z) && !Control(z) && !Noncharacter(z) && !Surrogate(z) && !Replacement(z)
    ensures Characters([b, z, m]) == [b, m]
  {
    var t := [b, z, m];
    DropNothing(t, Control);
    DropNothing(t, Noncharacter);
    DropNothing(t, Surrogate);
    DropNothing(t, Replacement);
    DropTheMiddle(b, z, m);
    TranslateNothing([b, m], Narrow);
    TranslateNothing([b, m], PlainSpace);
    hide Drop, Translate;
  }

  lemma DropMiddle(b: Code, z: Code, m: Code)
    requires Settled(b) && Settled(m) && b != SPACE && b != LF && !PrivateUse(b) && !PrivateUse(m)
    requires Invisible(z) && !Control(z) && !Noncharacter(z) && !Surrogate(z) && !Replacement(z)
    ensures SanitizeText([b, z, m], true) == [b, m] && SanitizeText([b, z, m], false) == [b, m]
  {
    hide Settled, PrivateUse, Invisible, Control, Noncharacter, Surrogate, Replacement, Drop, LineBreaks, SpaceRuns, BlankLines;
    CharactersOfThree(b, z, m);
    NormaliseKeepsNormal([b, m]);
    CharactersKeepsPlain([b, m]);
    DropNothing([b, m], PrivateUse);
    hide Characters;
  }

  lemma OneLetter(c: Code)
    requires Settled(c) && !PrivateUse(c)
    ensures SanitizeText([c], true) == [c] && SanitizeText([c], false) == [c]
  {
    hide SanitizeText, Settled, PrivateUse;
    SanitizeNormal([c]);
  }

  /** An invisible character between a letter and its accent: its removal leaves them to the second application. */
  lemma AccentMeetsItsLetter(nfc: Form, stripPua: bool)
    requires nfc([0x65, 0x200B, 0x301]) == [0x65, 0x200B, 0x301] && nfc([0x65, 0x301]) == [0xE9]
    ensures var once := Sanitized(nfc, [0x65, 0x200B, 0x301], stripPua);
            once == [0x65, 0x301] && Sanitized(nfc, once, stripPua) == [0xE9]
  {
    hide SanitizeText;
    DropMiddle(0x65, 0x200B, 0x301);
    OneLetter(0xE9);
  }

  // ---- file names ----

  lemma ScrubNothing(t: seq<Code>)
    ensures SanitizeMetadata(t) == t <==> Lacks(t, Scrubbed)
    ensures Lacks(SanitizeMetadata(t), Scrubbed)
  {
    MetadataUnchanged(t);
    CleanedLacks(t);
    DropMembers(Cleaned(t), PrivateUseBmp);
  }

  lemma CleanedLacks(t: seq<Code>)
    ensures forall c :: c in Cleaned(t) ==>
              !Control(c) && !Noncharacter(c) && !Surrogate(c) && !Replacement(c) && !Invisible(c)
  {
    forall c | c in Cleaned(t)
      ensures !Control(c) && !Noncharacter(c) && !Surrogate(c) && !Replacement(c) && !Invisible(c)
    {
      CleanedMembers(t, c);
    }
  }

  /** A name is stored as it is if and only if it is composed and has none of the removed characters. */
  lemma NameIsStoredUnchanged(nfc: Form, name: seq<Code>)
    requires Canonical(nfc)
    ensures StoredName(nfc, name) == name <==> nfc(name) == name && Lacks(name, Scrubbed)
  {
    hide SanitizeMetadata, Scrubbed, Normal;
    ScrubNothing(name);
    ScrubNothing(nfc(name));
  }
}
