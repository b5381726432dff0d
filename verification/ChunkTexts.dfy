/** The texts the splitter emits: under every chunk the pieces its own text is cut into, and in their order. */
module ChunkTexts {
  import opened Wrappers
  import opened Text
  import opened Positions
  import opened ChunkTree
  import opened ChunkTreeTheorems

  /** The pieces of a cut, trimmed, less the blank ones. */
  function Pieces(cut: seq<string>): seq<string> {
    if cut == [] then []
    else
      var n := |cut| - 1;
      Pieces(cut[..n]) + (if Trim(cut[n]) != "" then [Trim(cut[n])] else [])
  }

  /** The texts of the chunks of a level that name `parent`, in order. */
  function TextsUnder(chunks: seq<Chunk>, parent: string, level: int): seq<string> {
    if chunks == [] then []
    else
      var n := |chunks| - 1;
      TextsUnder(chunks[..n], parent, level) +
      (if chunks[n].parent == parent && chunks[n].level == level then [chunks[n].text] else [])
  }

  /** Below `c` stand the pieces of its own text. */
  predicate IsCut(sp: Splitters, chunks: seq<Chunk>, c: Chunk) {
    && (c.level == 1 ==> TextsUnder(chunks, c.id, 2) == Pieces(sp.two(c.text)))
    && (c.level == 2 ==> TextsUnder(chunks, c.id, 3) == Pieces(sp.three(c.text)))
  }

  /** Piece by piece: those with something left after trimming, and nothing else. */
  lemma {:induction false} PiecesPicked(cut: seq<string>) returns (at: seq<nat>)
    ensures Picks(cut, Pieces(cut), at, Trim)
    ensures forall i :: 0 <= i < |cut| ==> (i in at <==> Trim(cut[i]) != "")
  {
    hide Trim;
    if cut == [] {
      at := [];
    } else {
      var n := |cut| - 1;
      var before := PiecesPicked(cut[..n]);
      at := Also(before, n, Trim(cut[n]) != "");
      PicksAlso(cut, n, Pieces(cut[..n]), before, Trim, Trim(cut[n]) != "", Pieces(cut));
      forall i | 0 <= i < |cut| ensures i in at <==> Trim(cut[i]) != "" {
        if i < n { assert cut[..n][i] == cut[i]; }
      }
    }
  }

  function TextOf(c: Chunk): string {
    c.text
  }

  /** Chunk by chunk: those of the level that name the parent, and nothing else. */
  lemma {:induction false} UnderPicked(chunks: seq<Chunk>, parent: string, level: int) returns (at: seq<nat>)
    ensures Picks(chunks, TextsUnder(chunks, parent, level), at, TextOf)
    ensures forall i :: 0 <= i < |chunks| ==> (i in at <==> chunks[i].parent == parent && chunks[i].level == level)
  {
    if chunks == [] {
      at := [];
    } else {
      var n := |chunks| - 1;
      var before := UnderPicked(chunks[..n], parent, level);
      var keep := chunks[n].parent == parent && chunks[n].level == level;
      at := Also(before, n, keep);
      PicksAlso(chunks, n, TextsUnder(chunks[..n], parent, level), before, TextOf, keep, TextsUnder(chunks, parent, level));
      forall i | 0 <= i < |chunks| ensures i in at <==> chunks[i].parent == parent && chunks[i].level == level {
        if i < n { assert chunks[..n][i] == chunks[i]; }
      }
    }
  }

  lemma PiecesNext(cut: seq<string>, n: nat)
    requires n < |cut|
    ensures Pieces(cut[..n + 1]) == Pieces(cut[..n]) + (if Trim(cut[n]) != "" then [Trim(cut[n])] else [])
  {
    hide Trim;
    assert cut[..n + 1][..n] == cut[..n];
  }

  lemma UnderAppend(chunks: seq<Chunk>, c: Chunk, parent: string, level: int)
    ensures TextsUnder(chunks + [c], parent, level)
         == TextsUnder(chunks, parent, level) + (if c.parent == parent && c.level == level then [c.text] else [])
  {
    assert (chunks + [c])[..|chunks|] == chunks;
  }

  lemma {:induction false} UnderConcat(a: seq<Chunk>, b: seq<Chunk>, parent: string, level: int)
    ensures TextsUnder(a + b, parent, level) == TextsUnder(a, parent, level) + TextsUnder(b, parent, level)
    decreases |b|
  {
    if b == [] {
      assert a + b == a;
    } else {
      var n := |b| - 1;
      assert a + b == (a + b[..n]) + [b[n]] && b == b[..n] + [b[n]];
      UnderConcat(a, b[..n], parent, level);
      UnderAppend(a + b[..n], b[n], parent, level);
    }
  }

  lemma {:induction false} NothingUnder(chunks: seq<Chunk>, parent: string, level: int)
    requires forall c :: c in chunks ==> c.parent != parent
    ensures TextsUnder(chunks, parent, level) == []
  {
    if chunks != [] { NothingUnder(chunks[..|chunks| - 1], parent, level); }
  }

  // ---- the id of a new chunk is not used yet ----

  lemma NewIdIsFresh(b: Base, start: int, chunks: seq<Chunk>, level: int, c: Chunk)
    requires PageTree(b, start, chunks) && c in chunks
    ensures c.id != IdAt(b, level, OfLevel(chunks, level)) && c.id != ""
  {
    var i :| 0 <= i < |chunks| && chunks[i] == c;
    assert InPage(b, start, chunks, i);
    var m, n := OfLevel(chunks[..i], c.level), OfLevel(chunks, level);
    if c.id == IdAt(b, level, n) {
      var ns := if b.documentId != "" then b.documentId else b.filename;
      RenderInjective(ns, b.page, c.level, m, ns, b.page, level, n);
      assert chunks[..|chunks|] == chunks;
      OfLevelGrows(chunks, i, |chunks|);
    }
  }

  lemma NothingUnderNew(b: Base, start: int, chunks: seq<Chunk>, level: int, below: int)
    requires PageTree(b, start, chunks)
    ensures TextsUnder(chunks, IdAt(b, level, OfLevel(chunks, level)), below) == []
  {
    var id := IdAt(b, level, OfLevel(chunks, level));
    IdNonEmpty(b, level, OfLevel(chunks, level));
    forall c | c in chunks ensures c.parent != id {
      var i :| 0 <= i < |chunks| && chunks[i] == c;
      assert InPage(b, start, chunks, i) && Placed(chunks, i);
      if c.level > 1 {
        assert ParentBefore(chunks, i, c);
        var j :| 0 <= j < i && IsParent(chunks[j], c);
        NewIdIsFresh(b, start, chunks, level, chunks[j]);
      }
    }
    NothingUnder(chunks, id, below);
  }

  // ---- the three loops ----

  lemma {:induction false} LeavesUnder(b: Base, start: int, chunks: seq<Chunk>, mid: Chunk, cut: seq<string>, parent: string, level: int)
    requires mid.level == 2
    ensures TextsUnder(AddLeaves(b, start, chunks, mid, cut), parent, level)
         == TextsUnder(chunks, parent, level) + (if parent == mid.id && level == 3 then Pieces(cut) else [])
    ensures forall c :: c in AddLeaves(b, start, chunks, mid, cut) ==> c in chunks || c.level == 3
  {
    hide Trim, IdAt;
    if cut != [] {
      var n := |cut| - 1;
      var before := AddLeaves(b, start, chunks, mid, cut[..n]);
      LeavesUnder(b, start, chunks, mid, cut[..n], parent, level);
      if Trim(cut[n]) != "" { UnderAppend(before, NewChild(b, start, before, mid, Trim(cut[n])), parent, level); }
    }
  }

  /** All chunks but those of id `open` have their pieces below them. */
  ghost predicate CutBut(sp: Splitters, chunks: seq<Chunk>, open: string) {
    forall c :: c in chunks && c.id != open ==> IsCut(sp, chunks, c)
  }

  lemma MidUnder(sp: Splitters, b: Base, start: int, before: seq<Chunk>, mid: Chunk, parent: string, level: int)
    requires mid.level == 2
    ensures TextsUnder(AddLeaves(b, start, before + [mid], mid, sp.three(mid.text)), parent, level)
         == TextsUnder(before, parent, level)
            + (if parent == mid.parent && level == 2 then [mid.text] else [])
            + (if parent == mid.id && level == 3 then Pieces(sp.three(mid.text)) else [])
  {
    hide TextsUnder, AddLeaves, Pieces;
    LeavesUnder(b, start, before + [mid], mid, sp.three(mid.text), parent, level);
    UnderAppend(before, mid, parent, level);
  }

  lemma NothingAdded(texts: seq<string>)
    ensures texts + [] == texts && [] + texts == texts
  {
  }

  /** A chunk and all its leaves have been added below `root`. */
  lemma MidIsCut(sp: Splitters, b: Base, start: int, before: seq<Chunk>, root: Chunk, text: string, all: seq<Chunk>)
    requires PageTree(b, start, before) && root in before && root.level == 1 && CutBut(sp, before, root.id)
    requires var mid := NewChild(b, start, before, root, text);
             all == AddLeaves(b, start, before + [mid], mid, sp.three(text))
    ensures CutBut(sp, all, root.id)
    ensures TextsUnder(all, root.id, 2) == TextsUnder(before, root.id, 2) + [text]
    ensures TextsUnder(all, "", 1) == TextsUnder(before, "", 1)
  {
    hide TextsUnder, AddLeaves, Pieces, PageTree, IdAt, OfLevel;
    var mid := NewChild(b, start, before, root, text);
    NewIdIsFresh(b, start, before, 2, root);
    NothingUnderNew(b, start, before, 2, 3);
    IdNonEmpty(b, 2, OfLevel(before, 2));
    MidUnder(sp, b, start, before, mid, root.id, 2);
    MidUnder(sp, b, start, before, mid, "", 1);
    LeavesUnder(b, start, before + [mid], mid, sp.three(text), "", 1);
    forall c | c in all && c.id != root.id ensures IsCut(sp, all, c) {
      if c in before { NewIdIsFresh(b, start, before, 2, c); }
      MidUnder(sp, b, start, before, mid, c.id, 2);
      MidUnder(sp, b, start, before, mid, c.id, 3);
      NothingAdded(Pieces(sp.three(text)));
    }
  }

  lemma {:induction false} MidsAreCut(sp: Splitters, b: Base, start: int, chunks: seq<Chunk>, root: Chunk, cut: seq<string>)
    requires PageTree(b, start, chunks) && root in chunks && root.level == 1 && CutBut(sp, chunks, root.id)
    ensures var all := AddMids(sp, b, start, chunks, root, cut);
            && CutBut(sp, all, root.id)
            && TextsUnder(all, root.id, 2) == TextsUnder(chunks, root.id, 2) + Pieces(cut)
            && TextsUnder(all, "", 1) == TextsUnder(chunks, "", 1)
  {
    hide Trim, IdAt, TextsUnder, CutBut, AddLeaves, PageTree;
    if cut != [] {
      var n := |cut| - 1;
      var before := AddMids(sp, b, start, chunks, root, cut[..n]);
      MidsAreCut(sp, b, start, chunks, root, cut[..n]);
      MidsKeepTree(sp, b, start, chunks, root, cut[..n]);
      if Trim(cut[n]) != "" {
        MidIsCut(sp, b, start, before, root, Trim(cut[n]), AddMids(sp, b, start, chunks, root, cut));
      }
    }
  }

  /** A root and everything below it have been added. */
  lemma RootIsCut(sp: Splitters, b: Base, start: int, before: seq<Chunk>, text: string, all: seq<Chunk>)
    requires PageTree(b, start, before) && CutBut(sp, before, "") && text != ""
    requires var root := NewRoot(b, start, before, text);
             all == AddMids(sp, b, start, before + [root], root, sp.two(text))
    ensures CutBut(sp, all, "")
    ensures TextsUnder(all, "", 1) == TextsUnder(before, "", 1) + [text]
  {
    var root := NewRoot(b, start, before, text);
    var with := before + [root];
    RootAppend(b, start, before, text);
    IdNonEmpty(b, 1, OfLevel(before, 1));
    NothingUnderNew(b, start, before, 1, 2);
    forall parent, level | parent != ""
      ensures TextsUnder(with, parent, level) == TextsUnder(before, parent, level)
    {
      UnderAppend(before, root, parent, level);
    }
    UnderAppend(before, root, "", 1);
    forall c | c in with && c.id != root.id ensures IsCut(sp, with, c) { NewIdIsFresh(b, start, before, 1, c); }
    MidsAreCut(sp, b, start, with, root, sp.two(text));
    RootOfId(sp, b, start, with, root, sp.two(text), all);
    assert IsCut(sp, all, root);
  }

  /** The root is the only chunk of its id. */
  lemma RootOfId(sp: Splitters, b: Base, start: int, chunks: seq<Chunk>, root: Chunk, cut: seq<string>, all: seq<Chunk>)
    requires PageTree(b, start, chunks) && root in chunks && root.level == 1
    requires all == AddMids(sp, b, start, chunks, root, cut)
    ensures forall c :: c in all && c.id == root.id ==> c == root
  {
    MidsKeepTree(sp, b, start, chunks, root, cut);
    PageIdsDistinct(b, start, all);
    assert root in all;
  }

  lemma {:induction false} RootsAreCut(sp: Splitters, b: Base, start: int, cut: seq<string>)
    ensures var all := AddRoots(sp, b, start, [], cut);
            CutBut(sp, all, "") && TextsUnder(all, "", 1) == Pieces(cut)
  {
    hide Trim, IdAt, AddMids, PageTree;
    if cut != [] {
      var n := |cut| - 1;
      var before := AddRoots(sp, b, start, [], cut[..n]);
      RootsAreCut(sp, b, start, cut[..n]);
      EmptyPageTree(b, start);
      RootsKeepTree(sp, b, start, [], cut[..n]);
      if Trim(cut[n]) != "" { RootIsCut(sp, b, start, before, Trim(cut[n]), AddRoots(sp, b, start, [], cut)); }
    }
  }

  lemma EmptyPageTree(b: Base, start: int)
    ensures PageTree(b, start, [])
  {
  }

  // ---- pages and documents ----

  function RootPieces(sp: Splitters, text: string): seq<string> {
    if text == "" then [] else Pieces(sp.one(text))
  }

  /**
  The roots of a page are the non-blank pieces of its text, trimmed and in order; below every root
  stand the pieces of the root's text, below every chunk of level two those of its own.
  */
  lemma PageIsCut(sp: Splitters, b: Base, start: int, text: string)
    ensures var chunks := PageChunks(sp, b, start, text);
            && TextsUnder(chunks, "", 1) == RootPieces(sp, text)
            && forall c :: c in chunks ==> IsCut(sp, chunks, c)
  {
    hide IdAt, Trim, AddRoots, IsCut;
    var chunks := PageChunks(sp, b, start, text);
    if text != "" {
      RootsAreCut(sp, b, start, sp.one(text));
      PageIsTree(sp, b, start, text);
      forall c | c in chunks ensures IsCut(sp, chunks, c) {
        NewIdIsFresh(b, start, chunks, 1, c);
      }
    }
  }

  function DocumentPieces(sp: Splitters, pages: seq<Page>): seq<string> {
    if pages == [] then []
    else DocumentPieces(sp, pages[..|pages| - 1]) + RootPieces(sp, pages[|pages| - 1].text)
  }

  lemma {:induction false} DocumentRoots(sp: Splitters, documentId: string, filename: string, pages: seq<Page>)
    ensures TextsUnder(DocumentChunks(sp, documentId, filename, pages), "", 1) == DocumentPieces(sp, pages)
  {
    if pages != [] {
      var n := |pages| - 1;
      var before := DocumentChunks(sp, documentId, filename, pages[..n]);
      var b := BaseOf(documentId, filename, pages[n]);
      DocumentRoots(sp, documentId, filename, pages[..n]);
      PageIsCut(sp, b, |before|, pages[n].text);
      UnderConcat(before, PageChunks(sp, b, |before|, pages[n].text), "", 1);
    }
  }

  /** Chunks of two lists without a common id are under none of the other's chunks. */
  lemma ApartUnder(documentId: string, before: seq<Chunk>, page: seq<Chunk>, c: Chunk, level: int)
    requires DocumentTree(documentId, before) && c.id != "" && forall d :: d in before ==> d.id != c.id
    ensures TextsUnder(before + page, c.id, level) == TextsUnder(page, c.id, level)
  {
    forall d | d in before ensures d.parent != c.id {
      var i :| 0 <= i < |before| && before[i] == d;
      assert Placed(before, i);
      if d.level > 1 {
        assert ParentBefore(before, i, d);
        var j :| 0 <= j < i && IsParent(before[j], d);
        assert before[j] in before;
      }
    }
    NothingUnder(before, c.id, level);
    UnderConcat(before, page, c.id, level);
  }

  lemma ApartUnderPage(b: Base, start: int, before: seq<Chunk>, page: seq<Chunk>, c: Chunk, level: int)
    requires PageTree(b, start, page) && c.id != "" && forall d :: d in page ==> d.id != c.id
    ensures TextsUnder(before + page, c.id, level) == TextsUnder(before, c.id, level)
  {
    forall d | d in page ensures d.parent != c.id {
      var i :| 0 <= i < |page| && page[i] == d;
      assert InPage(b, start, page, i) && Placed(page, i);
      if d.level > 1 {
        assert ParentBefore(page, i, d);
        var j :| 0 <= j < i && IsParent(page[j], d);
        assert page[j] in page;
      }
    }
    NothingUnder(page, c.id, level);
    UnderConcat(before, page, c.id, level);
  }

  lemma ConcatIsCut(sp: Splitters, documentId: string, b: Base, before: seq<Chunk>, page: seq<Chunk>)
    requires DocumentTree(documentId, before) && PageTree(b, |before|, page) && IdsDistinct(before + page)
    requires (forall c :: c in before ==> IsCut(sp, before, c)) && (forall c :: c in page ==> IsCut(sp, page, c))
    ensures forall c :: c in before + page ==> IsCut(sp, before + page, c)
  {
    var all := before + page;
    forall c, d | c in before && d in page ensures c.id != d.id && c.id != "" && d.id != "" {
      var i :| 0 <= i < |before| && before[i] == c;
      var j :| 0 <= j < |page| && page[j] == d;
      assert all[i] == c && all[|before| + j] == d;
    }
    forall c | c in all ensures IsCut(sp, all, c) {
      if c in before {
        var i :| 0 <= i < |before| && before[i] == c;
        assert all[i] == c && c.id != "";
        ApartUnderPage(b, |before|, before, page, c, 2);
        ApartUnderPage(b, |before|, before, page, c, 3);
      } else {
        var j :| 0 <= j < |page| && page[j] == c;
        assert all[|before| + j] == c && c.id != "";
        ApartUnder(documentId, before, page, c, 2);
        ApartUnder(documentId, before, page, c, 3);
      }
    }
  }

  /** The same through a document whose chunks can be told apart by their ids. */
  lemma {:induction false} DocumentIsCut(sp: Splitters, documentId: string, filename: string, pages: seq<Page>)
    requires PagesDistinct(sp, pages)
    ensures var chunks := DocumentChunks(sp, documentId, filename, pages);
            && TextsUnder(chunks, "", 1) == DocumentPieces(sp, pages)
            && forall c :: c in chunks ==> IsCut(sp, chunks, c)
  {
    hide IsCut, PageChunks, TextsUnder, DocumentPieces, Productive, IdsDistinct;
    DocumentRoots(sp, documentId, filename, pages);
    if pages != [] {
      var n := |pages| - 1;
      var before := DocumentChunks(sp, documentId, filename, pages[..n]);
      var b := BaseOf(documentId, filename, pages[n]);
      var page := PageChunks(sp, b, |before|, pages[n].text);
      DocumentIsCut(sp, documentId, filename, pages[..n]);
      DocumentIsTree(sp, documentId, filename, pages[..n]);
      PageIsTree(sp, b, |before|, pages[n].text);
      PageIsCut(sp, b, |before|, pages[n].text);
      DistinctPagesGiveDistinctIds(sp, documentId, filename, pages);
      ConcatIsCut(sp, documentId, b, before, page);
    }
  }
}
