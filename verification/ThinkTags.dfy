/**
Think-tagged model output: the streaming scanner of frontend/src/utils/sse.ts and the
whole-text deletion of backend/rag/rag_utils.py.
*/
module ThinkTags {
  import opened Wrappers
  import opened Text

  datatype TagPair = TagPair(open: string, close: string)

  /** Tags of which the closing one cannot start inside the opening one. */
  type Tags = t: TagPair | t.open != "" && |t.close| > 1 && t.close[1] !in t.open && t.open[|t.open| - 1] != t.close[0]
    witness TagPair("a", "bc")

  function Think(): Tags {
    TagPair("<think>", "</think>")
  }

  /** The two texts of a message so far, and the side the next character goes to. */
  datatype State = State(visible: string, hidden: string, hiding: bool) {
    function Put(text: string): State {
      if hiding then this.(hidden := hidden + text) else this.(visible := visible + text)
    }

    function Flip(): State {
      this.(hiding := !hiding)
    }

    /** The output of a call appended to what was there. */
    function Add(output: State): State {
      State(visible + output.visible, hidden + output.hidden, output.hiding)
    }
  }

  function Marker(t: Tags, hiding: bool): (m: string)
    ensures m != ""
  {
    if hiding then t.close else t.open
  }

  /** Character by character: the awaited marker flips the side, anything else goes to the current one. */
  function Scan(t: Tags, s: State, input: string): State
    decreases |input|
  {
    if input == "" then s
    else if StartsWith(input, Marker(t, s.hiding)) then Scan(t, s.Flip(), input[|Marker(t, s.hiding)|..])
    else Scan(t, s.Put(input[..1]), input[1..])
  }

  lemma PutPut(s: State, u: string, v: string)
    ensures s.Put(u).Put(v) == s.Put(u + v) && s.Put("") == s
  {
    assert (s.hidden + u) + v == s.hidden + (u + v) && (s.visible + u) + v == s.visible + (u + v);
    assert s.hidden + "" == s.hidden && s.visible + "" == s.visible;
  }

  lemma ScanFlips(t: Tags, s: State, input: string, rest: string)
    requires input != "" && StartsWith(input, Marker(t, s.hiding)) && rest == input[|Marker(t, s.hiding)|..]
    ensures Scan(t, s, input) == Scan(t, s.Flip(), rest)
  {
  }

  lemma ScanNothing(t: Tags, s: State)
    ensures Scan(t, s, "") == s
  {
  }

  lemma ScanPuts(t: Tags, s: State, input: string, c: string, rest: string)
    requires input != "" && !StartsWith(input, Marker(t, s.hiding)) && c == input[..1] && rest == input[1..]
    ensures Scan(t, s, input) == Scan(t, s.Put(c), rest)
  {
  }

  lemma {:induction false} ScanToMarker(t: Tags, s: State, input: string, i: nat, after: State, rest: string)
    requires IndexOf(input, Marker(t, s.hiding)) == Some(i)
    requires after == s.Put(input[..i]).Flip() && rest == input[i + |Marker(t, s.hiding)|..]
    ensures Scan(t, s, input) == Scan(t, after, rest)
    decreases i
  {
    hide IndexOf, Scan;
    IndexOfStep(input, Marker(t, s.hiding));
    if i == 0 {
      assert input[..0] == "";
      PutPut(s, "", "");
      ScanFlips(t, s, input, rest);
    } else {
      var c, tail := input[..1], input[1..];
      ScanPuts(t, s, input, c, tail);
      PutPut(s, c, tail[..i - 1]);
      assert c + tail[..i - 1] == input[..i];
      assert tail[i - 1 + |Marker(t, s.hiding)|..] == rest;
      ScanToMarker(t, s.Put(c), tail, i - 1, after, rest);
    }
  }

  lemma {:induction false} ScanWithoutMarker(t: Tags, s: State, input: string)
    requires IndexOf(input, Marker(t, s.hiding)).None?
    ensures Scan(t, s, input) == s.Put(input)
    decreases |input|
  {
    if input == "" {
      PutPut(s, "", "");
    } else {
      ScanWithoutMarker(t, s.Put(input[..1]), input[1..]);
      PutPut(s, input[..1], input[1..]);
      assert input[..1] + input[1..] == input;
    }
  }

  method ConsumeThink(t: Tags, input: string, wasHiding: bool) returns (visible: string, hidden: string, hiding: bool)
    ensures State(visible, hidden, hiding) == Scan(t, State("", "", wasHiding), input)
  {
    hide IndexOf, Scan;
    var remaining := input;
    visible, hidden, hiding := "", "", wasHiding;
    while |remaining| > 0
      invariant Scan(t, State("", "", wasHiding), input) == Scan(t, State(visible, hidden, hiding), remaining)
      decreases |remaining|
    {
      var marker := Marker(t, hiding);
      var idx := IndexOf(remaining, marker);
      if idx.None? {
        ScanWithoutMarker(t, State(visible, hidden, hiding), remaining);
        ScanNothing(t, State(visible, hidden, hiding).Put(remaining));
        if hiding { hidden := hidden + remaining; } else { visible := visible + remaining; }
        remaining := "";
        continue;
      }
      ghost var rest := remaining[idx.value + |marker|..];
      ScanToMarker(t, State(visible, hidden, hiding), remaining, idx.value,
                   State(visible, hidden, hiding).Put(remaining[..idx.value]).Flip(), rest);
      if hiding {
        hidden := hidden + remaining[..idx.value];
        remaining := remaining[idx.value + |marker|..];
        hiding := false;
      } else {
        visible := visible + remaining[..idx.value];
        remaining := remaining[idx.value + |marker|..];
        hiding := true;
      }
    }
    ScanNothing(t, State(visible, hidden, hiding));
  }

  /** A call's output does not depend on what the message already holds. */
  lemma {:induction false} ScanAdds(t: Tags, s: State, o: State, input: string)
    requires o.hiding == s.hiding || input == ""
    ensures Scan(t, s.Add(o), input) == s.Add(Scan(t, o, input))
    decreases |input|
  {
    if input != "" {
      if StartsWith(input, Marker(t, o.hiding)) {
        assert s.Add(o).Flip() == s.Add(o.Flip());
        ScanAdds(t, s.Flip(), o.Flip(), input[|Marker(t, o.hiding)|..]);
      } else {
        assert s.Add(o).Put(input[..1]) == s.Add(o.Put(input[..1])) by {
          assert (s.hidden + o.hidden) + input[..1] == s.hidden + (o.hidden + input[..1]);
          assert (s.visible + o.visible) + input[..1] == s.visible + (o.visible + input[..1]);
        }
        ScanAdds(t, s, o.Put(input[..1]), input[1..]);
      }
    }
  }

  // ---- conservation ----

  /** The closing tags the scanner passes. */
  function Closes(t: Tags, hiding: bool, input: string): nat
    decreases |input|
  {
    if input == "" then 0
    else if StartsWith(input, Marker(t, hiding)) then
      Closes(t, !hiding, input[|Marker(t, hiding)|..]) + (if hiding then 1 else 0)
    else Closes(t, hiding, input[1..])
  }

  /** The characters a state accounts for, counting an opening tag not yet closed. */
  function Weight(t: Tags, s: State): nat {
    |s.visible| + |s.hidden| + (if s.hiding then |t.open| else 0)
  }

  lemma OneMore(m: int, n: int)
    ensures m * (n + 1) == m * n + m
  {
  }

  /** Every character is shown, hidden or part of a tag. */
  lemma {:induction false} LengthIsConserved(t: Tags, s: State, input: string)
    ensures Weight(t, s) + |input|
         == Weight(t, Scan(t, s, input)) + (|t.open| + |t.close|) * Closes(t, s.hiding, input)
    decreases |input|
  {
    if input != "" {
      if StartsWith(input, Marker(t, s.hiding)) {
        OneMore(|t.open| + |t.close|, Closes(t, !s.hiding, input[|Marker(t, s.hiding)|..]));
        LengthIsConserved(t, s.Flip(), input[|Marker(t, s.hiding)|..]);
      } else {
        LengthIsConserved(t, s.Put(input[..1]), input[1..]);
      }
    }
  }

  // ---- chunks ----

  /** A marker the scanner of `a + b` would take starts in `a` and ends in `b`. */
  predicate CutsTag(t: Tags, hiding: bool, a: string, b: string)
    decreases |a|
  {
    if a == "" then false
    else if StartsWith(a, Marker(t, hiding)) then CutsTag(t, !hiding, a[|Marker(t, hiding)|..], b)
    else StartsWith(a + b, Marker(t, hiding)) || CutsTag(t, hiding, a[1..], b)
  }

  /** Two chunks that cut no tag read as their concatenation. */
  lemma {:induction false} TwoChunks(t: Tags, s: State, a: string, b: string)
    requires !CutsTag(t, s.hiding, a, b)
    ensures Scan(t, s, a + b) == Scan(t, Scan(t, s, a), b)
    decreases |a|
  {
    if a == "" {
      assert a + b == b;
    } else if StartsWith(a, Marker(t, s.hiding)) {
      var n := |Marker(t, s.hiding)|;
      TwoChunks(t, s.Flip(), a[n..], b);
      assert (a + b)[n..] == a[n..] + b && (a + b)[..n] == a[..n];
    } else {
      TwoChunks(t, s.Put(a[..1]), a[1..], b);
      assert (a + b)[1..] == a[1..] + b && (a + b)[..1] == a[..1];
    }
  }

  function Concat(chunks: seq<string>): string {
    if chunks == [] then "" else Concat(chunks[..|chunks| - 1]) + chunks[|chunks| - 1]
  }

  /** The message after one call of `ConsumeThink` per chunk. */
  function ScanChunks(t: Tags, s: State, chunks: seq<string>): State {
    if chunks == [] then s
    else
      var before := ScanChunks(t, s, chunks[..|chunks| - 1]);
      before.Add(Scan(t, State("", "", before.hiding), chunks[|chunks| - 1]))
  }

  ghost predicate ChunksCutNoTag(t: Tags, hiding: bool, chunks: seq<string>) {
    forall k :: 0 <= k <= |chunks| ==> !CutsTag(t, hiding, Concat(chunks[..k]), Concat(chunks[k..]))
  }

  lemma {:induction false} CutsTagMonotone(t: Tags, hiding: bool, a: string, b: string, c: string)
    requires CutsTag(t, hiding, a, b)
    ensures CutsTag(t, hiding, a, b + c)
    decreases |a|
  {
    if StartsWith(a, Marker(t, hiding)) {
      CutsTagMonotone(t, !hiding, a[|Marker(t, hiding)|..], b, c);
    } else if StartsWith(a + b, Marker(t, hiding)) {
      assert a + (b + c) == (a + b) + c;
    } else {
      CutsTagMonotone(t, hiding, a[1..], b, c);
    }
  }

  lemma ConcatAppend(chunks: seq<string>, last: string)
    ensures Concat(chunks + [last]) == Concat(chunks) + last
  {
    assert (chunks + [last])[..|chunks|] == chunks;
  }

  lemma FrontCutsNoTag(t: Tags, hiding: bool, front: seq<string>, last: string)
    requires ChunksCutNoTag(t, hiding, front + [last])
    ensures ChunksCutNoTag(t, hiding, front)
    ensures !CutsTag(t, hiding, Concat(front), last)
  {
    var chunks := front + [last];
    forall k | 0 <= k <= |front| ensures !CutsTag(t, hiding, Concat(front[..k]), Concat(front[k..])) {
      assert front[..k] == chunks[..k] && chunks[k..] == front[k..] + [last];
      ConcatAppend(front[k..], last);
      if CutsTag(t, hiding, Concat(front[..k]), Concat(front[k..])) {
        CutsTagMonotone(t, hiding, Concat(front[..k]), Concat(front[k..]), last);
      }
    }
    assert chunks[..|front|] == front && chunks[|front|..] == [] + [last];
    ConcatAppend([], last);
    assert "" + last == last;
  }

  /** Any number of chunks that cut no tag read as the whole text. */
  lemma {:induction false} ChunksReadAsWhole(t: Tags, s: State, chunks: seq<string>)
    requires ChunksCutNoTag(t, s.hiding, chunks)
    ensures ScanChunks(t, s, chunks) == Scan(t, s, Concat(chunks))
  {
    if chunks != [] {
      var front, last := chunks[..|chunks| - 1], chunks[|chunks| - 1];
      assert chunks == front + [last];
      FrontCutsNoTag(t, s.hiding, front, last);
      ChunksReadAsWhole(t, s, front);
      var before := Scan(t, s, Concat(front));
      ScanAdds(t, before, State("", "", before.hiding), last);
      assert before.Add(State("", "", before.hiding)) == before by {
        assert before.visible + "" == before.visible && before.hidden + "" == before.hidden;
      }
      TwoChunks(t, s, Concat(front), last);
    }
  }

  // ---- which ends are safe to cut at ----

  /** Whatever follows the last marker in `a` ends in a proper, non-empty prefix of the next one. */
  predicate Pending(t: Tags, hiding: bool, a: string)
    decreases |a|
  {
    if a == "" then false
    else if StartsWith(a, Marker(t, hiding)) then Pending(t, !hiding, a[|Marker(t, hiding)|..])
    else a <= Marker(t, hiding) || Pending(t, hiding, a[1..])
  }

  /** A marker that reaches beyond `a` has all of `a` as a prefix. */
  lemma PendingOverlap(m: string, a: string, b: string)
    requires !StartsWith(a, m) && StartsWith(a + b, m)
    ensures StartsWith(m, a)
  {
    assert forall k :: 0 <= k < |m| ==> (a + b)[k] == m[k];
  }

  lemma {:induction false} NotPendingNotCut(t: Tags, hiding: bool, a: string, b: string)
    requires !Pending(t, hiding, a)
    ensures !CutsTag(t, hiding, a, b)
    decreases |a|
  {
    if a != "" {
      if StartsWith(a, Marker(t, hiding)) {
        NotPendingNotCut(t, !hiding, a[|Marker(t, hiding)|..], b);
      } else {
        if StartsWith(a + b, Marker(t, hiding)) { PendingOverlap(Marker(t, hiding), a, b); }
        NotPendingNotCut(t, hiding, a[1..], b);
      }
    }
  }

  lemma {:induction false} ShortTextHasNoMarker(t: Tags, s: State, b: string)
    requires |b| < |Marker(t, s.hiding)|
    ensures Scan(t, s, b).hiding == s.hiding
    decreases |b|
  {
    if b != "" { ShortTextHasNoMarker(t, s.Put(b[..1]), b[1..]); }
  }

  /** From a pending end, the rest of the marker is read differently on its own. */
  /** A marker cut in two is missed. */
  lemma CutMarker(t: Tags, s: State, m: string, a: string, b: string)
    requires m == Marker(t, s.hiding) && StartsWith(m, a) && !StartsWith(a, m) && a != "" && b == m[|a|..]
    ensures Scan(t, s, a + b).hiding != Scan(t, Scan(t, s, a), b).hiding
  {
    hide Scan;
    assert a + b == m && m[|m|..] == "";
    ShortTextHasNoMarker(t, s, a);
    ShortTextHasNoMarker(t, Scan(t, s, a), b);
    ScanFlips(t, s, a + b, "");
    ScanNothing(t, s.Flip());
  }

  lemma {:induction false} PendingCanGoWrong(t: Tags, s: State, a: string) returns (b: string)
    requires Pending(t, s.hiding, a)
    ensures Scan(t, s, a + b).hiding != Scan(t, Scan(t, s, a), b).hiding
    decreases |a|
  {
    hide Scan;
    var m := Marker(t, s.hiding);
    if StartsWith(a, m) {
      b := PendingCanGoWrong(t, s.Flip(), a[|m|..]);
      assert (a + b)[|m|..] == a[|m|..] + b && StartsWith(a + b, m);
      ScanFlips(t, s, a, a[|m|..]);
      ScanFlips(t, s, a + b, a[|m|..] + b);
    } else if StartsWith(m, a) {
      b := m[|a|..];
      CutMarker(t, s, m, a, b);
    } else {
      b := PendingCanGoWrong(t, s.Put(a[..1]), a[1..]);
      assert (a + b)[1..] == a[1..] + b && (a + b)[..1] == a[..1];
      if StartsWith(a + b, m) { PendingOverlap(m, a, b); }
      ScanPuts(t, s, a, a[..1], a[1..]);
      ScanPuts(t, s, a + b, a[..1], a[1..] + b);
    }
  }

  /** A cut after `a` is harmless whatever comes next, if and only if no tag is pending there. */
  lemma SafeCuts(t: Tags, s: State, a: string)
    ensures !Pending(t, s.hiding, a) <==> forall b :: Scan(t, s, a + b) == Scan(t, Scan(t, s, a), b)
  {
    if Pending(t, s.hiding, a) {
      var b := PendingCanGoWrong(t, s, a);
      assert Scan(t, s, a + b) != Scan(t, Scan(t, s, a), b);
    } else {
      forall b ensures Scan(t, s, a + b) == Scan(t, Scan(t, s, a), b) {
        NotPendingNotCut(t, s.hiding, a, b);
        TwoChunks(t, s, a, b);
      }
    }
  }

  // ---- the whole-text form ----

  /** Substituting the empty string for the non-greedy `open[\s\S]*?close`. */
  function DeleteBlocks(t: Tags, text: string): string
    decreases |text|
  {
    if text == "" then ""
    else if StartsWith(text, t.open) && IndexOf(text[|t.open|..], t.close).Some? then
      DeleteBlocks(t, text[|t.open|..][IndexOf(text[|t.open|..], t.close).value + |t.close|..])
    else text[..1] + DeleteBlocks(t, text[1..])
  }

  function StripThink(text: string): string {
    Trim(DeleteBlocks(Think(), text))
  }

  lemma InsideOpen(t: Tags, text: string, j: nat)
    requires StartsWith(text, t.open) && j < |t.open|
    ensures !StartsWith(text[j..], t.close)
  {
    assert forall k :: 0 <= k < |t.open| ==> text[k] == t.open[k];
  }

  lemma {:induction false} UnclosedStays(t: Tags, text: string)
    requires IndexOf(text, t.close).None?
    ensures DeleteBlocks(t, text) == text
  {
    if text != "" {
      if StartsWith(text, t.open) {
        IndexOfIsFirst(text, t.close);
        IndexOfIsFirst(text[|t.open|..], t.close);
        assert forall j :: 0 <= j <= |text| - |t.open| ==> text[|t.open|..][j..] == text[|t.open| + j..];
      }
      UnclosedStays(t, text[1..]);
      assert text[..1] + text[1..] == text;
    }
  }

  lemma UnclosedTail(t: Tags, text: string)
    requires StartsWith(text, t.open) && IndexOf(text[|t.open|..], t.close).None?
    ensures IndexOf(text, t.close).None?
  {
    IndexOfIsFirst(text, t.close);
    IndexOfIsFirst(text[|t.open|..], t.close);
    forall j | 0 <= j <= |text| ensures !StartsWith(text[j..], t.close) {
      if j >= |t.open| {
        assert text[j..] == text[|t.open|..][j - |t.open|..];
      } else {
        InsideOpen(t, text, j);
      }
    }
  }

  /** From `before` to `after` the scanner shows `kept`, or stops inside a block and shows less. */
  predicate Shows(t: Tags, before: State, after: State, kept: string) {
    && (!after.hiding ==> after.visible == before.visible + kept)
    && (after.hiding ==> |before.visible| + |kept| >= |after.visible| + |t.open|)
  }

  /** A closed block at the start is hidden by the one form and deleted by the other. */
  lemma DeleteClosed(t: Tags, text: string, i: nat, rest: string)
    requires StartsWith(text, t.open) && IndexOf(text[|t.open|..], t.close) == Some(i)
    requires rest == text[|t.open|..][i + |t.close|..]
    ensures text != "" && DeleteBlocks(t, text) == DeleteBlocks(t, rest)
  {
    hide IndexOf;
  }

  lemma ClosedBlock(t: Tags, s: State, text: string, i: nat, rest: string) returns (after: State)
    requires !s.hiding && StartsWith(text, t.open) && IndexOf(text[|t.open|..], t.close) == Some(i)
    requires rest == text[|t.open|..][i + |t.close|..]
    ensures Scan(t, s, text) == Scan(t, after, rest) && DeleteBlocks(t, text) == DeleteBlocks(t, rest)
    ensures !after.hiding && after.visible == s.visible
  {
    DeleteClosed(t, text, i, rest);
    hide IndexOf, Scan, DeleteBlocks, StartsWith;
    var inside := text[|t.open|..];
    after := s.Flip().Put(inside[..i]).Flip();
    ScanFlips(t, s, text, inside);
    ScanToMarker(t, s.Flip(), inside, i, after, rest);
  }

  lemma {:induction false} StreamAgainstBatch(t: Tags, s: State, text: string)
    requires !s.hiding
    ensures Shows(t, s, Scan(t, s, text), DeleteBlocks(t, text))
    decreases |text|
  {
    hide IndexOf, Scan;
    if text == "" {
      ScanNothing(t, s);
      assert s.visible + "" == s.visible;
    } else if StartsWith(text, t.open) {
      var inside := text[|t.open|..];
      var i := IndexOf(inside, t.close);
      if i.Some? {
        var rest := inside[i.value + |t.close|..];
        var after := ClosedBlock(t, s, text, i.value, rest);
        StreamAgainstBatch(t, after, rest);
      } else {
        ScanFlips(t, s, text, inside);
        ScanWithoutMarker(t, s.Flip(), inside);
        UnclosedTail(t, text);
        UnclosedStays(t, text);
      }
    } else {
      ScanPuts(t, s, text, text[..1], text[1..]);
      StreamAgainstBatch(t, s.Put(text[..1]), text[1..]);
      assert (s.visible + text[..1]) + DeleteBlocks(t, text[1..]) == s.visible + DeleteBlocks(t, text);
    }
  }

  /** Every opening tag, searched from the end of the last block, is followed by a closing one. */
  predicate BlocksClosed(t: Tags, text: string)
    decreases |text|
  {
    var i := IndexOf(text, t.open);
    i.None? ||
    var inside := text[i.value + |t.open|..];
    var j := IndexOf(inside, t.close);
    j.Some? && BlocksClosed(t, inside[j.value + |t.close|..])
  }

  /** The scanner ends outside a block if and only if all blocks of the text are closed. */
  lemma {:induction false} EndsOutside(t: Tags, s: State, text: string)
    requires !s.hiding
    ensures !Scan(t, s, text).hiding <==> BlocksClosed(t, text)
    decreases |text|
  {
    hide IndexOf, Scan;
    var i := IndexOf(text, t.open);
    if i.None? {
      ScanWithoutMarker(t, s, text);
    } else {
      var inside := text[i.value + |t.open|..];
      var entered := s.Put(text[..i.value]).Flip();
      ScanToMarker(t, s, text, i.value, entered, inside);
      var j := IndexOf(inside, t.close);
      if j.None? {
        ScanWithoutMarker(t, entered, inside);
      } else {
        var rest := inside[j.value + |t.close|..];
        var closed := entered.Put(inside[..j.value]).Flip();
        ScanToMarker(t, entered, inside, j.value, closed, rest);
        EndsOutside(t, closed, rest);
      }
    }
  }

  /** The streamed and the batch form agree exactly on texts whose blocks are all closed. */
  lemma StreamIsBatch(t: Tags, text: string)
    ensures Scan(t, State("", "", false), text).visible == DeleteBlocks(t, text) <==> BlocksClosed(t, text)
  {
    EndsOutside(t, State("", "", false), text);
    hide Scan, BlocksClosed;
    StreamAgainstBatch(t, State("", "", false), text);
    assert "" + DeleteBlocks(t, text) == DeleteBlocks(t, text);
  }

  /** With all blocks closed, the batch form is the streamed text with its ends trimmed. */
  lemma StripThinkTrimsVisible(text: string)
    requires BlocksClosed(Think(), text)
    ensures StripThink(text) == Trim(Scan(Think(), State("", "", false), text).visible)
  {
    StreamIsBatch(Think(), text);
  }

  /** The lengths of the tags in use: a block costs 15 characters. */
  lemma ThinkLengthIsConserved(text: string)
    ensures var end := Scan(Think(), State("", "", false), text);
            |text| == |end.visible| + |end.hidden| + 15 * Closes(Think(), false, text) + (if end.hiding then 7 else 0)
  {
    LengthIsConserved(Think(), State("", "", false), text);
    assert |Think().open| == 7 && |Think().close| == 8;
  }
}
