/** What the splitter emits is a tree with unambiguous ids, and the validator accepts it. */
module ChunkTreeTheorems {
  import opened Wrappers
  import opened Text
  import opened Positions
  import opened ChunkTree

  // ---- chunk ids are injective ----

  lemma {:induction false} DigitsFacts(n: nat)
    ensures Digits(n) != "" && Digits(n)[0] != '-' && ':' !in Digits(n)
    ensures !IsSpace(Digits(n)[|Digits(n)| - 1])
  {
    if n >= 10 { DigitsFacts(n / 10); }
  }

  lemma LastDigit(n: nat)
    ensures var s := Digits(n);
            && s != "" && s[|s| - 1] as int == '0' as int + n % 10
            && (n >= 10 ==> s[..|s| - 1] == Digits(n / 10))
            && (n < 10 <==> |s| == 1)
  {
    if n >= 10 { DigitsFacts(n / 10); }
  }

  lemma {:induction false} DigitsInjective(m: nat, n: nat)
    requires Digits(m) == Digits(n)
    ensures m == n
  {
    LastDigit(m);
    LastDigit(n);
    assert m % 10 == n % 10;
    if m >= 10 { DigitsInjective(m / 10, n / 10); }
  }

  lemma DecimalFacts(n: int)
    ensures Decimal(n) != "" && ':' !in Decimal(n) && !IsSpace(Decimal(n)[|Decimal(n)| - 1])
  {
    DigitsFacts(if n < 0 then -n else n);
  }

  lemma DecimalInjective(m: int, n: int)
    requires Decimal(m) == Decimal(n)
    ensures m == n
  {
    var m', n' := if m < 0 then -m else m, if n < 0 then -n else n;
    DigitsFacts(m');
    DigitsFacts(n');
    if m < 0 && n < 0 {
      assert Digits(m') == Decimal(m)[1..] && Digits(n') == Decimal(n)[1..];
    }
    assert (m < 0) == (Decimal(m)[0] == '-');
    DigitsInjective(m', n');
  }

  predicate AreDigits(s: string) {
    forall k :: 0 <= k < |s| ==> '0' <= s[k] <= '9'
  }

  /** What decimal digits stand for. */
  function ValueOf(s: string): int
    requires AreDigits(s)
  {
    if s == "" then 0 else 10 * ValueOf(s[..|s| - 1]) + (s[|s| - 1] as int - '0' as int)
  }

  lemma {:induction false} DigitsRead(n: nat)
    ensures AreDigits(Digits(n)) && ValueOf(Digits(n)) == n
    ensures Digits(n) != "" && (n >= 1 ==> Digits(n)[0] != '0')
  {
    if n >= 10 {
      DigitsRead(n / 10);
      assert Digits(n)[..|Digits(n)| - 1] == Digits(n / 10);
    } else {
      assert Digits(n)[..0] == "";
    }
  }

  /** A number is written in base ten, with a minus sign if it is negative and without leading zeros. */
  lemma DecimalReads(n: int)
    ensures n == 0 ==> Decimal(n) == "0"
    ensures n > 0 ==> Decimal(n) != "" && AreDigits(Decimal(n)) && ValueOf(Decimal(n)) == n && Decimal(n)[0] != '0'
    ensures n < 0 ==> Decimal(n) == "-" + Decimal(-n)
  {
    DigitsRead(if n < 0 then -n else n);
  }

  /** A chunk id is the namespace, then page, level and index behind their markers. */
  lemma RenderReads(namespace: string, page: int, level: int, index: int)
    ensures Render(namespace, page, level, index)
         == namespace + "::p" + Decimal(page) + "::l" + Decimal(level) + "::" + Decimal(index)
  {
    hide Decimal;
    assert "::" + "p" == "::p" && "::" + "l" == "::l";
  }

  lemma ShiftedField(p: string, f: string, q: string, g: string)
    requires Field(p, f) == Field(q, g) && |p| < |q|
    ensures ':' in f
  {
    assert Field(q, g)[|q| + 1] == ':' && Field(p, f)[|q| + 1] == f[|q| - |p| - 1];
  }

  lemma FieldInjective(p: string, f: string, q: string, g: string)
    requires Field(p, f) == Field(q, g) && ':' !in f && ':' !in g
    ensures p == q && f == g
  {
    if |p| < |q| {
      ShiftedField(p, f, q, g);
    } else if |q| < |p| {
      ShiftedField(q, g, p, f);
    } else {
      assert p == Field(p, f)[..|p|] && q == Field(q, g)[..|q|];
      assert f == Field(p, f)[|p| + 2..] && g == Field(q, g)[|q| + 2..];
    }
  }

  lemma PrefixedInjective(c: char, m: int, n: int)
    requires c != ':'
    ensures ':' !in [c] + Decimal(m)
    ensures [c] + Decimal(m) == [c] + Decimal(n) ==> m == n
  {
    DecimalFacts(m);
    if [c] + Decimal(m) == [c] + Decimal(n) {
      assert Decimal(m) == ([c] + Decimal(m))[1..] && Decimal(n) == ([c] + Decimal(n))[1..];
      DecimalInjective(m, n);
    }
  }

  /** Whatever the namespace contains, an id determines namespace, page, level and index. */
  lemma RenderInjective(ns: string, page: int, level: int, index: int, ns': string, page': int, level': int, index': int)
    requires Render(ns, page, level, index) == Render(ns', page', level', index')
    ensures ns == ns' && page == page' && level == level' && index == index'
  {
    DecimalFacts(index);
    DecimalFacts(index');
    PrefixedInjective('l', level, level');
    PrefixedInjective('l', level', level);
    PrefixedInjective('p', page, page');
    PrefixedInjective('p', page', page);
    FieldInjective(Field(Field(ns, "p" + Decimal(page)), "l" + Decimal(level)), Decimal(index),
                   Field(Field(ns', "p" + Decimal(page')), "l" + Decimal(level')), Decimal(index'));
    FieldInjective(Field(ns, "p" + Decimal(page)), "l" + Decimal(level),
                   Field(ns', "p" + Decimal(page')), "l" + Decimal(level'));
    FieldInjective(ns, "p" + Decimal(page), ns', "p" + Decimal(page'));
    DecimalInjective(index, index');
  }

  // ---- the tree ----

  /** `p` is the parent of `c`: the id it names, one level up, under the same root. */
  predicate IsParent(p: Chunk, c: Chunk) {
    p.id == c.parent && p.level == c.level - 1 && p.root == c.root
  }

  ghost predicate ParentBefore(chunks: seq<Chunk>, i: nat, c: Chunk)
    requires i <= |chunks|
  {
    exists j :: 0 <= j < i && IsParent(chunks[j], c)
  }

  ghost predicate Placed(chunks: seq<Chunk>, i: nat)
    requires i < |chunks|
  {
    var c := chunks[i];
    && c.level in {1, 2, 3} && c.text != "" && c.id != ""
    && (c.level == 1 ==> c.parent == "" && c.root == c.id)
    && (c.level > 1 ==> ParentBefore(chunks, i, c))
  }

  ghost predicate InPage(b: Base, start: int, chunks: seq<Chunk>, i: nat)
    requires i < |chunks|
  {
    var c := chunks[i];
    c.base == b && c.idx == start + i && c.id == IdAt(b, c.level, OfLevel(chunks[..i], c.level)) && Placed(chunks, i)
  }

  /** The chunks of one page, the first of which is number `start` of the document. */
  ghost predicate PageTree(b: Base, start: int, chunks: seq<Chunk>) {
    forall i :: 0 <= i < |chunks| ==> InPage(b, start, chunks, i)
  }

  lemma PlacedLater(before: seq<Chunk>, chunks: seq<Chunk>, after: seq<Chunk>, i: nat)
    requires i < |chunks| && Placed(chunks, i)
    ensures Placed(before + chunks + after, |before| + i)
  {
    var all := before + chunks + after;
    assert all[|before| + i] == chunks[i];
    if chunks[i].level > 1 {
      var j :| 0 <= j < i && IsParent(chunks[j], chunks[i]);
      assert all[|before| + j] == chunks[j];
      assert ParentBefore(all, |before| + i, chunks[i]);
    }
  }

  lemma InPageLater(b: Base, start: int, chunks: seq<Chunk>, c: Chunk, i: nat)
    requires i < |chunks| && InPage(b, start, chunks, i)
    ensures InPage(b, start, chunks + [c], i)
  {
    PlacedLater([], chunks, [c], i);
    assert [] + chunks + [c] == chunks + [c] && (chunks + [c])[..i] == chunks[..i];
  }

  lemma PageTreeAppend(b: Base, start: int, chunks: seq<Chunk>, c: Chunk)
    requires PageTree(b, start, chunks) && InPage(b, start, chunks + [c], |chunks|)
    ensures PageTree(b, start, chunks + [c])
  {
    forall i | 0 <= i < |chunks| ensures InPage(b, start, chunks + [c], i) {
      InPageLater(b, start, chunks, c, i);
    }
  }

  lemma IdNonEmpty(b: Base, level: int, index: int)
    ensures IdAt(b, level, index) != ""
  {
  }

  lemma RootAppend(b: Base, start: int, chunks: seq<Chunk>, text: string)
    requires PageTree(b, start, chunks) && text != ""
    ensures PageTree(b, start, chunks + [NewRoot(b, start, chunks, text)])
  {
    IdNonEmpty(b, 1, OfLevel(chunks, 1));
    assert (chunks + [NewRoot(b, start, chunks, text)])[..|chunks|] == chunks;
    PageTreeAppend(b, start, chunks, NewRoot(b, start, chunks, text));
  }

  lemma ChildAppend(b: Base, start: int, chunks: seq<Chunk>, parent: Chunk, text: string)
    requires PageTree(b, start, chunks) && text != "" && parent in chunks && parent.level in {1, 2}
    ensures PageTree(b, start, chunks + [NewChild(b, start, chunks, parent, text)])
  {
    var c := NewChild(b, start, chunks, parent, text);
    IdNonEmpty(b, c.level, OfLevel(chunks, c.level));
    var all := chunks + [c];
    assert all[..|chunks|] == chunks;
    var j :| 0 <= j < |chunks| && chunks[j] == parent;
    assert IsParent(all[j], c);
    assert ParentBefore(all, |chunks|, c);
    PageTreeAppend(b, start, chunks, c);
  }

  lemma {:induction false} LeavesKeepTree(b: Base, start: int, chunks: seq<Chunk>, mid: Chunk, texts: seq<string>)
    requires PageTree(b, start, chunks) && mid in chunks && mid.level == 2
    ensures PageTree(b, start, AddLeaves(b, start, chunks, mid, texts)) && chunks <= AddLeaves(b, start, chunks, mid, texts)
  {
    if texts != [] {
      var n := |texts| - 1;
      LeavesKeepTree(b, start, chunks, mid, texts[..n]);
      var before := AddLeaves(b, start, chunks, mid, texts[..n]);
      if Trim(texts[n]) != "" { ChildAppend(b, start, before, mid, Trim(texts[n])); }
    }
  }

  lemma {:induction false} MidsKeepTree(sp: Splitters, b: Base, start: int, chunks: seq<Chunk>, root: Chunk, texts: seq<string>)
    requires PageTree(b, start, chunks) && root in chunks && root.level == 1
    ensures PageTree(b, start, AddMids(sp, b, start, chunks, root, texts))
    ensures chunks <= AddMids(sp, b, start, chunks, root, texts)
  {
    if texts != [] {
      var n := |texts| - 1;
      MidsKeepTree(sp, b, start, chunks, root, texts[..n]);
      var before := AddMids(sp, b, start, chunks, root, texts[..n]);
      if Trim(texts[n]) != "" {
        ChildAppend(b, start, before, root, Trim(texts[n]));
        var c := NewChild(b, start, before, root, Trim(texts[n]));
        LeavesKeepTree(b, start, before + [c], c, sp.three(Trim(texts[n])));
      }
    }
  }

  lemma {:induction false} RootsKeepTree(sp: Splitters, b: Base, start: int, chunks: seq<Chunk>, texts: seq<string>)
    requires PageTree(b, start, chunks)
    ensures PageTree(b, start, AddRoots(sp, b, start, chunks, texts)) && chunks <= AddRoots(sp, b, start, chunks, texts)
  {
    if texts != [] {
      var n := |texts| - 1;
      RootsKeepTree(sp, b, start, chunks, texts[..n]);
      var before := AddRoots(sp, b, start, chunks, texts[..n]);
      if Trim(texts[n]) != "" {
        RootAppend(b, start, before, Trim(texts[n]));
        var c := NewRoot(b, start, before, Trim(texts[n]));
        MidsKeepTree(sp, b, start, before + [c], c, sp.two(Trim(texts[n])));
      }
    }
  }

  lemma PageIsTree(sp: Splitters, b: Base, start: int, text: string)
    ensures PageTree(b, start, PageChunks(sp, b, start, text))
  {
    if text != "" { RootsKeepTree(sp, b, start, [], sp.one(text)); }
  }

  /** The chunks of a document, in emission order. */
  ghost predicate DocumentTree(documentId: string, chunks: seq<Chunk>) {
    forall i :: 0 <= i < |chunks| ==>
      chunks[i].idx == i && chunks[i].base.documentId == documentId && Placed(chunks, i)
  }

  lemma {:induction false} DocumentIsTree(sp: Splitters, documentId: string, filename: string, pages: seq<Page>)
    ensures DocumentTree(documentId, DocumentChunks(sp, documentId, filename, pages))
  {
    if pages != [] {
      var n := |pages| - 1;
      DocumentIsTree(sp, documentId, filename, pages[..n]);
      var before := DocumentChunks(sp, documentId, filename, pages[..n]);
      var b := BaseOf(documentId, filename, pages[n]);
      PageIsTree(sp, b, |before|, pages[n].text);
      ConcatIsTree(documentId, b, before, PageChunks(sp, b, |before|, pages[n].text));
    }
  }

  lemma ConcatIsTree(documentId: string, b: Base, before: seq<Chunk>, page: seq<Chunk>)
    requires DocumentTree(documentId, before) && PageTree(b, |before|, page) && b.documentId == documentId
    ensures DocumentTree(documentId, before + page)
  {
    var all := before + page;
    forall i | 0 <= i < |all|
      ensures all[i].idx == i && all[i].base.documentId == documentId && Placed(all, i)
    {
      if i < |before| {
        PlacedLater([], before, page, i);
        assert [] + before + page == all;
      } else {
        assert InPage(b, |before|, page, i - |before|);
        PlacedLater(before, page, [], i - |before|);
        assert before + page + [] == all;
      }
    }
  }

  // ---- distinct ids, exactly when productive pages have distinct numbers ----

  lemma {:induction false} OfLevelGrows(chunks: seq<Chunk>, i: nat, j: nat)
    requires i < j <= |chunks|
    ensures OfLevel(chunks[..i], chunks[i].level) < OfLevel(chunks[..j], chunks[i].level)
  {
    assert chunks[..j] == chunks[..j - 1] + [chunks[j - 1]];
    OfLevelAppend(chunks[..j - 1], chunks[j - 1], chunks[i].level);
    if i < j - 1 { OfLevelGrows(chunks, i, j - 1); }
  }

  lemma SamePageIdsDiffer(b: Base, start: int, chunks: seq<Chunk>, i: nat, j: nat)
    requires PageTree(b, start, chunks) && i < j < |chunks|
    ensures chunks[i].id != chunks[j].id
  {
    var m, n := OfLevel(chunks[..i], chunks[i].level), OfLevel(chunks[..j], chunks[j].level);
    assert InPage(b, start, chunks, i) && InPage(b, start, chunks, j);
    if chunks[i].id == chunks[j].id {
      var ns := if b.documentId != "" then b.documentId else b.filename;
      RenderInjective(ns, b.page, chunks[i].level, m, ns, b.page, chunks[j].level, n);
      OfLevelGrows(chunks, i, j);
      assert false;
    }
  }

  lemma OtherPageIdsDiffer(c: Chunk, m: int, d: Chunk, n: int)
    requires c.id == IdAt(c.base, c.level, m) && d.id == IdAt(d.base, d.level, n)
    requires c.base.documentId == d.base.documentId && c.base.filename == d.base.filename && c.base.page != d.base.page
    ensures c.id != d.id
  {
    if c.id == d.id {
      var ns := if c.base.documentId != "" then c.base.documentId else c.base.filename;
      RenderInjective(ns, c.base.page, c.level, m, ns, d.base.page, d.level, n);
      assert false;
    }
  }

  /** A page yields chunks. */
  predicate Productive(sp: Splitters, page: Page) {
    page.text != "" && exists i :: 0 <= i < |sp.one(page.text)| && Trim(sp.one(page.text)[i]) != ""
  }

  function NumberOf(page: Page): int {
    if page.number.Some? then page.number.value else 0
  }

  ghost predicate PagesDistinct(sp: Splitters, pages: seq<Page>) {
    forall i, j :: 0 <= i < j < |pages| && Productive(sp, pages[i]) && Productive(sp, pages[j])
      ==> NumberOf(pages[i]) != NumberOf(pages[j])
  }

  lemma {:induction false} RootsYield(sp: Splitters, b: Base, start: int, texts: seq<string>)
    ensures AddRoots(sp, b, start, [], texts) != [] <==> exists i :: 0 <= i < |texts| && Trim(texts[i]) != ""
  {
    if texts != [] {
      var n := |texts| - 1;
      RootsYield(sp, b, start, texts[..n]);
      RootsKeepTree(sp, b, start, [], texts[..n]);
      if Trim(texts[n]) != "" {
        var before := AddRoots(sp, b, start, [], texts[..n]);
        var c := NewRoot(b, start, before, Trim(texts[n]));
        RootAppend(b, start, before, Trim(texts[n]));
        MidsKeepTree(sp, b, start, before + [c], c, sp.two(Trim(texts[n])));
      } else if i :| 0 <= i < |texts| && Trim(texts[i]) != "" {
        assert texts[..n][i] == texts[i];
      }
    }
  }

  lemma ProductiveYields(sp: Splitters, b: Base, start: int, page: Page)
    ensures PageChunks(sp, b, start, page.text) != [] <==> Productive(sp, page)
  {
    RootsYield(sp, b, start, sp.one(page.text));
  }

  /** Every chunk's id is one of its own page's; a productive page has its first root. */
  ghost predicate FromPage(sp: Splitters, documentId: string, filename: string, pages: seq<Page>, c: Chunk) {
    exists k, m: int :: 0 <= k < |pages| && Productive(sp, pages[k]) && c.base == BaseOf(documentId, filename, pages[k])
                   && c.id == IdAt(c.base, c.level, m)
  }

  lemma {:induction false} ChunksComeFromPages(sp: Splitters, documentId: string, filename: string, pages: seq<Page>, c: Chunk)
    requires c in DocumentChunks(sp, documentId, filename, pages)
    ensures FromPage(sp, documentId, filename, pages, c)
  {
    var n := |pages| - 1;
    var before := DocumentChunks(sp, documentId, filename, pages[..n]);
    var b := BaseOf(documentId, filename, pages[n]);
    if c in before {
      ChunksComeFromPages(sp, documentId, filename, pages[..n], c);
      var k, m: int :| 0 <= k < n && Productive(sp, pages[..n][k]) && c.base == BaseOf(documentId, filename, pages[..n][k])
                  && c.id == IdAt(c.base, c.level, m);
      assert pages[..n][k] == pages[k];
    } else {
      var page := PageChunks(sp, b, |before|, pages[n].text);
      PageIsTree(sp, b, |before|, pages[n].text);
      ProductiveYields(sp, b, |before|, pages[n]);
      var i :| 0 <= i < |page| && page[i] == c;
      assert InPage(b, |before|, page, i);
      assert c.id == IdAt(c.base, c.level, OfLevel(page[..i], c.level));
    }
  }

  lemma FirstRoot(sp: Splitters, b: Base, start: int, page: Page)
    requires Productive(sp, page)
    ensures var chunks := PageChunks(sp, b, start, page.text); chunks != [] && chunks[0].id == IdAt(b, 1, 0)
  {
    ProductiveYields(sp, b, start, page);
    PageIsTree(sp, b, start, page.text);
    var chunks := PageChunks(sp, b, start, page.text);
    assert InPage(b, start, chunks, 0);
  }

  lemma {:induction false} EveryProductivePageHasItsRoot(
    sp: Splitters, documentId: string, filename: string, pages: seq<Page>, k: nat)
    requires k < |pages| && Productive(sp, pages[k])
    ensures exists c :: c in DocumentChunks(sp, documentId, filename, pages)
                     && c.id == IdAt(BaseOf(documentId, filename, pages[k]), 1, 0)
  {
    var n := |pages| - 1;
    var before := DocumentChunks(sp, documentId, filename, pages[..n]);
    if k < n {
      EveryProductivePageHasItsRoot(sp, documentId, filename, pages[..n], k);
    } else {
      FirstRoot(sp, BaseOf(documentId, filename, pages[n]), |before|, pages[n]);
      assert PageChunks(sp, BaseOf(documentId, filename, pages[n]), |before|, pages[n].text)[0]
          in DocumentChunks(sp, documentId, filename, pages);
    }
  }

  /** No chunk of the last page has the id of an earlier page's chunk. */
  lemma LastPageIsNew(sp: Splitters, documentId: string, filename: string, pages: seq<Page>, start: int, c: Chunk, j: nat)
    requires pages != [] && PagesDistinct(sp, pages)
    requires c in DocumentChunks(sp, documentId, filename, pages[..|pages| - 1])
    requires j < |PageChunks(sp, BaseOf(documentId, filename, pages[|pages| - 1]), start, pages[|pages| - 1].text)|
    ensures c.id != PageChunks(sp, BaseOf(documentId, filename, pages[|pages| - 1]), start, pages[|pages| - 1].text)[j].id
  {
    var n := |pages| - 1;
    var b := BaseOf(documentId, filename, pages[n]);
    var page := PageChunks(sp, b, start, pages[n].text);
    ChunksComeFromPages(sp, documentId, filename, pages[..n], c);
    var k, m: int :| 0 <= k < n && Productive(sp, pages[..n][k]) && c.base == BaseOf(documentId, filename, pages[..n][k])
                && c.id == IdAt(c.base, c.level, m);
    assert pages[..n][k] == pages[k];
    PageIsTree(sp, b, start, pages[n].text);
    ProductiveYields(sp, b, start, pages[n]);
    assert InPage(b, start, page, j);
    assert NumberOf(pages[k]) != NumberOf(pages[n]);
    OtherPageIdsDiffer(c, m, page[j], OfLevel(page[..j], page[j].level));
  }

  lemma DistinctConcat(before: seq<Chunk>, page: seq<Chunk>)
    requires IdsDistinct(before) && IdsDistinct(page)
    requires forall c, j :: c in before && 0 <= j < |page| ==> c.id != page[j].id
    ensures IdsDistinct(before + page)
  {
  }

  lemma PageIdsDistinct(b: Base, start: int, chunks: seq<Chunk>)
    requires PageTree(b, start, chunks)
    ensures IdsDistinct(chunks)
  {
    forall i | 0 <= i < |chunks| ensures chunks[i].id != "" { assert InPage(b, start, chunks, i); }
    forall i, j | 0 <= i < j < |chunks| ensures chunks[i].id != chunks[j].id {
      SamePageIdsDiffer(b, start, chunks, i, j);
    }
  }

  lemma {:induction false} DistinctPagesGiveDistinctIds(sp: Splitters, documentId: string, filename: string, pages: seq<Page>)
    requires PagesDistinct(sp, pages)
    ensures IdsDistinct(DocumentChunks(sp, documentId, filename, pages))
  {
    if pages != [] {
      var n := |pages| - 1;
      DistinctPagesGiveDistinctIds(sp, documentId, filename, pages[..n]);
      var before := DocumentChunks(sp, documentId, filename, pages[..n]);
      var b := BaseOf(documentId, filename, pages[n]);
      var page := PageChunks(sp, b, |before|, pages[n].text);
      PageIsTree(sp, b, |before|, pages[n].text);
      PageIdsDistinct(b, |before|, page);
      forall c, j | c in before && 0 <= j < |page| ensures c.id != page[j].id {
        LastPageIsNew(sp, documentId, filename, pages, |before|, c, j);
      }
      DistinctConcat(before, page);
    }
  }

  lemma RootPosition(sp: Splitters, documentId: string, filename: string, pages: seq<Page>, k: nat) returns (i: nat)
    requires k < |pages| && Productive(sp, pages[k])
    ensures var chunks := DocumentChunks(sp, documentId, filename, pages);
            i < |chunks| && chunks[i].id == IdAt(BaseOf(documentId, filename, pages[k]), 1, 0)
  {
    hide DocumentChunks, Productive, IdAt, BaseOf;
    EveryProductivePageHasItsRoot(sp, documentId, filename, pages, k);
    var chunks := DocumentChunks(sp, documentId, filename, pages);
    var c :| c in chunks && c.id == IdAt(BaseOf(documentId, filename, pages[k]), 1, 0);
    i :| 0 <= i < |chunks| && chunks[i] == c;
  }

  /** Distinct ids tell a productive last page from an earlier one: both roots would have one id. */
  lemma LastPageIsApart(sp: Splitters, documentId: string, filename: string, earlier: seq<Page>, last: Page, k: nat)
    requires IdsDistinct(DocumentChunks(sp, documentId, filename, earlier + [last]))
    requires k < |earlier| && Productive(sp, earlier[k]) && Productive(sp, last)
    ensures NumberOf(earlier[k]) != NumberOf(last)
  {
    var before := DocumentChunks(sp, documentId, filename, earlier);
    var page := PageChunks(sp, BaseOf(documentId, filename, last), |before|, last.text);
    DocumentStep(sp, documentId, filename, earlier, last);
    hide DocumentChunks, PageChunks, Productive;
    FirstRoot(sp, BaseOf(documentId, filename, last), |before|, last);
    var i := RootPosition(sp, documentId, filename, earlier, k);
    hide IdAt;
    assert (before + page)[i] == before[i] && (before + page)[|before|] == page[0];
  }

  lemma DocumentStep(sp: Splitters, documentId: string, filename: string, earlier: seq<Page>, last: Page)
    ensures var before := DocumentChunks(sp, documentId, filename, earlier);
            (DocumentChunks(sp, documentId, filename, earlier + [last])
             == before + PageChunks(sp, BaseOf(documentId, filename, last), |before|, last.text))
  {
    assert (earlier + [last])[..|earlier|] == earlier;
    hide PageChunks, BaseOf;
  }

  lemma DistinctPrefix(before: seq<Chunk>, page: seq<Chunk>)
    requires IdsDistinct(before + page)
    ensures IdsDistinct(before)
  {
    assert forall i :: 0 <= i < |before| ==> before[i] == (before + page)[i];
  }

  lemma {:induction false} DistinctIdsNeedDistinctPages(sp: Splitters, documentId: string, filename: string, pages: seq<Page>)
    requires IdsDistinct(DocumentChunks(sp, documentId, filename, pages))
    ensures PagesDistinct(sp, pages)
  {
    hide DocumentChunks, PageChunks, Productive, IdsDistinct;
    if pages != [] {
      var earlier, last := pages[..|pages| - 1], pages[|pages| - 1];
      assert pages == earlier + [last];
      DocumentStep(sp, documentId, filename, earlier, last);
      var before := DocumentChunks(sp, documentId, filename, earlier);
      DistinctPrefix(before, PageChunks(sp, BaseOf(documentId, filename, last), |before|, last.text));
      DistinctIdsNeedDistinctPages(sp, documentId, filename, earlier);
      forall k | 0 <= k < |earlier| && Productive(sp, earlier[k]) && Productive(sp, last)
        ensures NumberOf(earlier[k]) != NumberOf(last)
      {
        LastPageIsApart(sp, documentId, filename, earlier, last, k);
      }
    }
  }

  /**
  The validator accepts what the loader emits for a version if and only if the pages that yield
  chunks have pairwise distinct numbers.
  */
  lemma LoadedDocumentsAreValid(sp: Splitters, documentId: string, filename: string, pages: seq<Page>)
    ensures Valid(DocumentChunks(sp, documentId, filename, pages), documentId) <==> PagesDistinct(sp, pages)
  {
    var docs := DocumentChunks(sp, documentId, filename, pages);
    if PagesDistinct(sp, pages) {
      DistinctPagesGiveDistinctIds(sp, documentId, filename, pages);
      DocumentIsTree(sp, documentId, filename, pages);
      forall c | c in docs ensures RightVersion(c, documentId) && HasParent(docs, c) {
        var i :| 0 <= i < |docs| && docs[i] == c;
        assert Placed(docs, i);
        if c.level != 1 {
          assert ParentBefore(docs, i, c);
          var j :| 0 <= j < i && IsParent(docs[j], c);
          assert docs[j] in docs;
        }
      }
    } else if Valid(docs, documentId) {
      DistinctIdsNeedDistinctPages(sp, documentId, filename, pages);
      assert false;
    }
  }

  /** Readers that number no pages make the second productive page collide with the first. */
  lemma UnnumberedPagesCollide(sp: Splitters, documentId: string, filename: string, first: string, second: string)
    requires Productive(sp, Page(None, first)) && Productive(sp, Page(None, second))
    ensures !IdsDistinct(DocumentChunks(sp, documentId, filename, [Page(None, first), Page(None, second)]))
  {
    var pages := [Page(None, first), Page(None, second)];
    assert Productive(sp, pages[0]) && Productive(sp, pages[1]);
    assert !PagesDistinct(sp, pages);
    if IdsDistinct(DocumentChunks(sp, documentId, filename, pages)) {
      DistinctIdsNeedDistinctPages(sp, documentId, filename, pages);
      assert false;
    }
  }

  // ---- what the validator accepts, and what it hands on ----

  ghost predicate ParentStands(docs: seq<Chunk>, i: nat)
    requires i < |docs|
  {
    exists j :: 0 <= j < |docs| && docs[j].id == docs[i].parent && docs[j].level + 1 == docs[i].level
  }

  /** Distinct non-empty ids, one document, three levels, and above every lower chunk its parent. */
  lemma ValidMeans(docs: seq<Chunk>, documentId: string)
    ensures Valid(docs, documentId) <==>
              && (forall i :: 0 <= i < |docs| ==>
                    docs[i].id != "" && docs[i].base.documentId == documentId && docs[i].level in {1, 2, 3})
              && (forall i, j :: 0 <= i < j < |docs| ==> docs[i].id != docs[j].id)
              && (forall i :: 0 <= i < |docs| && docs[i].level != 1 ==> ParentStands(docs, i))
  {
    forall i | 0 <= i < |docs| && docs[i].level in {2, 3} ensures HasParent(docs, docs[i]) <==> ParentStands(docs, i) {
      if p :| p in docs && p.id == docs[i].parent && p.level == docs[i].level - 1 && p.level in {1, 2} {
        var j :| 0 <= j < |docs| && docs[j] == p;
      }
    }
    if forall i :: 0 <= i < |docs| ==> RightVersion(docs[i], documentId) && HasParent(docs, docs[i]) {
      forall c | c in docs ensures RightVersion(c, documentId) && HasParent(docs, c) {
        var i :| 0 <= i < |docs| && docs[i] == c;
      }
    }
  }

  /** The parents and the leaves are the documents of their levels, each in its place. */
  lemma {:induction false} KeepPicks(docs: seq<Chunk>, levels: set<int>) returns (at: seq<nat>)
    ensures Picks(docs, Keep(docs, levels), at, Same<Chunk>)
    ensures forall i :: 0 <= i < |docs| ==> (i in at <==> docs[i].level in levels)
  {
    if docs == [] {
      at := [];
    } else {
      var n := |docs| - 1;
      var before := KeepPicks(docs[..n], levels);
      at := Also(before, n, docs[n].level in levels);
      PicksAlso(docs, n, Keep(docs[..n], levels), before, Same<Chunk>, docs[n].level in levels, Keep(docs, levels));
      forall i | 0 <= i < |docs| ensures i in at <==> docs[i].level in levels {
        if i < n { assert docs[..n][i] == docs[i]; }
      }
    }
  }
}
