/** Chunks of any number of loaded documents meet what auto-merging assumes of store and hits. */
module ChunkRetrieval {
  import opened Wrappers
  import opened Text
  import opened ChunkTree
  import opened ChunkTreeTheorems
  import opened AutoMerge
  import opened AutoMergeTheorems

  /** The id under which the parent store keeps a chunk. */
  function StoredId(c: Chunk): string {
    Trim(c.id)
  }

  ghost predicate StoredApart(all: seq<Chunk>) {
    && (forall i :: 0 <= i < |all| ==> StoredId(all[i]) != "")
    && (forall i, j :: 0 <= i < j < |all| ==> StoredId(all[i]) != StoredId(all[j]))
  }

  /** Chunks of several documents: stored ids are distinct, parents are present one level up. */
  ghost predicate Forest(all: seq<Chunk>) {
    StoredApart(all) && forall c :: c in all ==> InForest(all, c)
  }

  ghost predicate InForest(all: seq<Chunk>, c: Chunk) {
    && c.level in {1, 2, 3}
    && (c.level == 1 ==> c.parent == "")
    && (c.level > 1 ==> exists p :: p in all && p.id == c.parent && p.level == c.level - 1)
  }

  predicate IsHitOf(h: Hit, c: Chunk) {
    h.chunkId == c.id && h.parentId == c.parent && h.level == c.level
  }

  predicate IsRowOf(h: Hit, c: Chunk) {
    h.chunkId == StoredId(c) && h.parentId == c.parent && h.level == c.level && c.level in {1, 2}
  }

  /** The store holds parent rows of some of the documents, whichever are live. */
  ghost predicate StoreFrom(store: Store, all: seq<Chunk>) {
    forall p :: p in store ==> store[p].chunkId == p && exists c :: c in all && IsRowOf(store[p], c)
  }

  ghost predicate HitsFrom(docs: seq<Hit>, all: seq<Chunk>) {
    Distinct(docs) && forall h :: h in docs ==> exists c :: c in all && c.level == 3 && IsHitOf(h, c)
  }

  lemma SameStoredId(all: seq<Chunk>, c: Chunk, d: Chunk)
    requires StoredApart(all) && c in all && d in all && StoredId(c) == StoredId(d)
    ensures c == d
  {
  }

  lemma StoredIdIsNotEmpty(all: seq<Chunk>, c: Chunk)
    requires StoredApart(all) && c in all
    ensures StoredId(c) != ""
  {
  }

  /** The trimmed parent id of a chunk names the chunk one level up, or nothing. */
  lemma ParentOfChunk(all: seq<Chunk>, c: Chunk, d: Chunk)
    requires Forest(all) && c in all && d in all && Trim(c.parent) == StoredId(d)
    ensures c.level > 1 && d.level == c.level - 1
  {
    assert InForest(all, c);
    StoredIdIsNotEmpty(all, d);
    if c.level > 1 {
      var p :| p in all && p.id == c.parent && p.level == c.level - 1;
      SameStoredId(all, p, d);
    }
  }

  lemma StoreIsOk(all: seq<Chunk>, store: Store)
    requires Forest(all) && StoreFrom(store, all)
    ensures StoreOk(store)
  {
    forall p | p in store
      ensures p != "" && store[p].chunkId == p && store[p].level in {1, 2}
      ensures store[p].level == 1 ==> ParentOf(store[p]) == ""
      ensures ParentOf(store[p]) in store ==> store[ParentOf(store[p])].level == 1
    {
      var c :| c in all && IsRowOf(store[p], c);
      assert InForest(all, c);
      StoredIdIsNotEmpty(all, c);
      if ParentOf(store[p]) in store {
        var d :| d in all && IsRowOf(store[ParentOf(store[p])], d);
        ParentOfChunk(all, c, d);
      }
    }
  }

  lemma LeafIsOk(all: seq<Chunk>, store: Store, h: Hit, c: Chunk)
    requires Forest(all) && StoreFrom(store, all) && c in all && c.level == 3 && IsHitOf(h, c)
    ensures IsLeaf(h, store)
  {
    if h.chunkId in store {
      var d :| d in all && IsRowOf(store[h.chunkId], d);
      TrimIdempotent(d.id);
      SameStoredId(all, c, d);
    }
    if ParentOf(h) in store {
      var d :| d in all && IsRowOf(store[ParentOf(h)], d);
      ParentOfChunk(all, c, d);
    }
  }

  /** A leaf is nobody's parent, also when its own id would change on trimming. */
  lemma LeafIsNoParent(all: seq<Chunk>, c: Chunk, g: Hit, d: Chunk)
    requires Forest(all) && c in all && d in all && d.level == 3 && IsHitOf(g, d)
    ensures Trim(c.parent) != g.chunkId
  {
    if Trim(c.parent) == g.chunkId {
      TrimIdempotent(c.parent);
      assert InForest(all, c);
      ParentOfChunk(all, c, d);
    }
  }

  /** Hits on leaves of the documents, over their parent rows, meet the premises of auto-merging. */
  lemma ForestFeedsAutoMerge(all: seq<Chunk>, store: Store, docs: seq<Hit>)
    requires Forest(all) && StoreFrom(store, all) && HitsFrom(docs, all)
    ensures StoreOk(store) && LeavesOk(docs, store)
  {
    StoreIsOk(all, store);
    forall h | h in docs ensures IsLeaf(h, store) {
      var c :| c in all && c.level == 3 && IsHitOf(h, c);
      LeafIsOk(all, store, h, c);
    }
    forall g | g in docs
      ensures forall h :: h in docs ==> ParentOf(h) != g.chunkId
      ensures forall p :: p in store ==> ParentOf(store[p]) != g.chunkId
    {
      var d :| d in all && d.level == 3 && IsHitOf(g, d);
      forall h | h in docs ensures ParentOf(h) != g.chunkId {
        var c :| c in all && c.level == 3 && IsHitOf(h, c);
        LeafIsNoParent(all, c, g, d);
      }
      forall p | p in store ensures ParentOf(store[p]) != g.chunkId {
        var c :| c in all && IsRowOf(store[p], c);
        LeafIsNoParent(all, c, g, d);
      }
    }
  }

  // ---- loaded documents form a forest, exactly when their pages are told apart ----

  datatype Document = Document(documentId: string, filename: string, pages: seq<Page>)

  function NamespaceOf(d: Document): string {
    if d.documentId != "" then d.documentId else d.filename
  }

  function ChunksOf(sp: Splitters, d: Document): seq<Chunk> {
    DocumentChunks(sp, d.documentId, d.filename, d.pages)
  }

  function Corpus(sp: Splitters, documents: seq<Document>): seq<Chunk> {
    if documents == [] then []
    else Corpus(sp, documents[..|documents| - 1]) + ChunksOf(sp, documents[|documents| - 1])
  }

  /** No productive pages of the two documents agree in number and in namespace, up to leading white space. */
  ghost predicate Apart(sp: Splitters, d: Document, e: Document) {
    TrimLeft(NamespaceOf(d)) == TrimLeft(NamespaceOf(e)) ==>
      forall k, l :: 0 <= k < |d.pages| && 0 <= l < |e.pages| && Productive(sp, d.pages[k]) && Productive(sp, e.pages[l])
        ==> NumberOf(d.pages[k]) != NumberOf(e.pages[l])
  }

  ghost predicate PagesApart(sp: Splitters, documents: seq<Document>) {
    && (forall d :: d in documents ==> PagesDistinct(sp, d.pages))
    && (forall i, j :: 0 <= i < j < |documents| ==> Apart(sp, documents[i], documents[j]))
  }

  lemma {:induction false} TrimLeftOfConcat(s: string, t: string)
    requires t != "" && !IsSpace(t[0])
    ensures TrimLeft(s + t) == TrimLeft(s) + t
  {
    if s == "" {
      assert s + t == t;
    } else if IsSpace(s[0]) {
      assert (s + t)[1..] == s[1..] + t;
      TrimLeftOfConcat(s[1..], t);
    }
  }

  /** What follows the namespace in an id. */
  function Suffix(page: int, level: int, index: int): string {
    "::" + ("p" + Decimal(page)) + "::" + ("l" + Decimal(level)) + "::" + Decimal(index)
  }

  lemma RenderIsSuffix(ns: string, page: int, level: int, index: int)
    ensures Render(ns, page, level, index) == ns + Suffix(page, level, index)
    ensures var t := Suffix(page, level, index); t != "" && !IsSpace(t[0]) && !IsSpace(t[|t| - 1])
  {
    var p, l, i := "p" + Decimal(page), "l" + Decimal(level), Decimal(index);
    DecimalFacts(index);
    assert Suffix(page, level, index)[0] == ':';
    assert Suffix(page, level, index)[|Suffix(page, level, index)| - 1] == i[|i| - 1];
    assert ns + "::" + p + "::" + l + "::" + i == ns + ("::" + p + "::" + l + "::" + i);
  }

  /** Trimming an id trims its namespace on the left. */
  lemma TrimOfRender(ns: string, page: int, level: int, index: int)
    ensures Trim(Render(ns, page, level, index)) == Render(TrimLeft(ns), page, level, index)
  {
    var t := Suffix(page, level, index);
    RenderIsSuffix(ns, page, level, index);
    RenderIsSuffix(TrimLeft(ns), page, level, index);
    TrimLeftOfConcat(ns, t);
    assert (TrimLeft(ns) + t)[|TrimLeft(ns) + t| - 1] == t[|t| - 1];
  }

  lemma BaseNamespace(d: Document, page: Page, level: int, index: int)
    ensures IdAt(BaseOf(d.documentId, d.filename, page), level, index)
         == Render(NamespaceOf(d), NumberOf(page), level, index)
  {
  }

  /** Every chunk comes from a productive page, and its stored id says from which. */
  lemma OriginOf(sp: Splitters, d: Document, c: Chunk) returns (k: nat, m: int)
    requires c in ChunksOf(sp, d)
    ensures k < |d.pages| && Productive(sp, d.pages[k])
    ensures c.id == Render(NamespaceOf(d), NumberOf(d.pages[k]), c.level, m)
    ensures StoredId(c) == Render(TrimLeft(NamespaceOf(d)), NumberOf(d.pages[k]), c.level, m)
  {
    ChunksComeFromPages(sp, d.documentId, d.filename, d.pages, c);
    var k0: int, m0: int :| 0 <= k0 < |d.pages| && Productive(sp, d.pages[k0])
                  && c.base == BaseOf(d.documentId, d.filename, d.pages[k0]) && c.id == IdAt(c.base, c.level, m0);
    k, m := k0, m0;
    BaseNamespace(d, d.pages[k], c.level, m);
    TrimOfRender(NamespaceOf(d), NumberOf(d.pages[k]), c.level, m);
  }

  /** A productive page has its first root. */
  lemma RootOf(sp: Splitters, d: Document, k: nat) returns (c: Chunk)
    requires k < |d.pages| && Productive(sp, d.pages[k])
    ensures c in ChunksOf(sp, d) && StoredId(c) == Render(TrimLeft(NamespaceOf(d)), NumberOf(d.pages[k]), 1, 0)
  {
    EveryProductivePageHasItsRoot(sp, d.documentId, d.filename, d.pages, k);
    c :| c in ChunksOf(sp, d) && c.id == IdAt(BaseOf(d.documentId, d.filename, d.pages[k]), 1, 0);
    BaseNamespace(d, d.pages[k], 1, 0);
    TrimOfRender(NamespaceOf(d), NumberOf(d.pages[k]), 1, 0);
  }

  /** Within one document the stored ids are told apart exactly as the ids are. */
  lemma StoredIdsFollowIds(sp: Splitters, d: Document, c: Chunk, g: Chunk)
    requires c in ChunksOf(sp, d) && g in ChunksOf(sp, d)
    ensures StoredId(c) == StoredId(g) <==> c.id == g.id
    ensures StoredId(c) != "" && c.id != ""
  {
    var k, m := OriginOf(sp, d, c);
    var l, n := OriginOf(sp, d, g);
    var ns := TrimLeft(NamespaceOf(d));
    if StoredId(c) == StoredId(g) {
      RenderInjective(ns, NumberOf(d.pages[k]), c.level, m, ns, NumberOf(d.pages[l]), g.level, n);
    }
    RenderIsSuffix(ns, NumberOf(d.pages[k]), c.level, m);
    RenderIsSuffix(NamespaceOf(d), NumberOf(d.pages[k]), c.level, m);
  }

  /** A document's parents are among its own chunks, whatever its page numbers. */
  lemma ChunkInForest(sp: Splitters, d: Document, c: Chunk)
    requires c in ChunksOf(sp, d)
    ensures InForest(ChunksOf(sp, d), c)
  {
    var all := ChunksOf(sp, d);
    DocumentIsTree(sp, d.documentId, d.filename, d.pages);
    var i :| 0 <= i < |all| && all[i] == c;
    assert Placed(all, i);
    if c.level > 1 {
      assert ParentBefore(all, i, c);
      var j :| 0 <= j < i && IsParent(all[j], c);
      assert all[j] in all;
    }
  }

  lemma DocumentIsForest(sp: Splitters, d: Document)
    ensures Forest(ChunksOf(sp, d)) <==> PagesDistinct(sp, d.pages)
  {
    var all := ChunksOf(sp, d);
    forall c | c in all ensures InForest(all, c) { ChunkInForest(sp, d, c); }
    forall i | 0 <= i < |all| ensures StoredId(all[i]) != "" && all[i].id != "" {
      StoredIdsFollowIds(sp, d, all[i], all[i]);
    }
    forall i, j | 0 <= i < j < |all| ensures StoredId(all[i]) == StoredId(all[j]) <==> all[i].id == all[j].id {
      StoredIdsFollowIds(sp, d, all[i], all[j]);
    }
    if PagesDistinct(sp, d.pages) {
      DistinctPagesGiveDistinctIds(sp, d.documentId, d.filename, d.pages);
    } else if StoredApart(all) {
      assert IdsDistinct(all);
      DistinctIdsNeedDistinctPages(sp, d.documentId, d.filename, d.pages);
    }
  }

  ghost predicate Disjoint(a: seq<Chunk>, b: seq<Chunk>) {
    forall c, g :: c in a && g in b ==> StoredId(c) != StoredId(g)
  }

  /** Two documents share no stored id if and only if their productive pages are told apart. */
  lemma ApartIsDisjoint(sp: Splitters, d: Document, e: Document)
    ensures Disjoint(ChunksOf(sp, d), ChunksOf(sp, e)) <==> Apart(sp, d, e)
  {
    if Apart(sp, d, e) {
      forall c, g | c in ChunksOf(sp, d) && g in ChunksOf(sp, e) ensures StoredId(c) != StoredId(g) {
        var k, m := OriginOf(sp, d, c);
        var l, n := OriginOf(sp, e, g);
        if StoredId(c) == StoredId(g) {
          RenderInjective(TrimLeft(NamespaceOf(d)), NumberOf(d.pages[k]), c.level, m,
                          TrimLeft(NamespaceOf(e)), NumberOf(e.pages[l]), g.level, n);
          assert false;
        }
      }
    } else {
      var k, l :| 0 <= k < |d.pages| && 0 <= l < |e.pages| && Productive(sp, d.pages[k]) && Productive(sp, e.pages[l])
             && NumberOf(d.pages[k]) == NumberOf(e.pages[l]);
      var c := RootOf(sp, d, k);
      var g := RootOf(sp, e, l);
      assert StoredId(c) == StoredId(g);
    }
  }

  lemma ForestConcat(a: seq<Chunk>, b: seq<Chunk>)
    requires (forall c :: c in a ==> InForest(a, c)) && (forall c :: c in b ==> InForest(b, c))
    ensures Forest(a + b) <==> Forest(a) && Forest(b) && Disjoint(a, b)
    ensures forall c :: c in a + b ==> InForest(a + b, c)
  {
    var all := a + b;
    forall c | c in all ensures InForest(all, c) {
      if c in a { assert InForest(a, c); } else { assert InForest(b, c); }
    }
    assert forall i :: 0 <= i < |a| ==> all[i] == a[i];
    assert forall j :: 0 <= j < |b| ==> all[|a| + j] == b[j];
  }

  lemma {:induction false} CorpusDisjoint(sp: Splitters, documents: seq<Document>, b: seq<Chunk>)
    ensures Disjoint(Corpus(sp, documents), b) <==> forall d :: d in documents ==> Disjoint(ChunksOf(sp, d), b)
  {
    if documents != [] {
      var n := |documents| - 1;
      CorpusDisjoint(sp, documents[..n], b);
      assert documents == documents[..n] + [documents[n]];
    }
  }

  lemma {:induction false} CorpusInForest(sp: Splitters, documents: seq<Document>)
    ensures forall c :: c in Corpus(sp, documents) ==> InForest(Corpus(sp, documents), c)
  {
    if documents != [] {
      var n := |documents| - 1;
      CorpusInForest(sp, documents[..n]);
      forall c | c in ChunksOf(sp, documents[n]) ensures InForest(ChunksOf(sp, documents[n]), c) {
        ChunkInForest(sp, documents[n], c);
      }
      ForestConcat(Corpus(sp, documents[..n]), ChunksOf(sp, documents[n]));
    }
  }

  lemma PagesApartStep(sp: Splitters, documents: seq<Document>, e: Document)
    ensures PagesApart(sp, documents + [e])
       <==> PagesApart(sp, documents) && PagesDistinct(sp, e.pages) && forall d :: d in documents ==> Apart(sp, d, e)
  {
    hide Apart, PagesDistinct;
    var all := documents + [e];
    assert forall i :: 0 <= i < |documents| ==> all[i] == documents[i];
    assert all[|documents|] == e;
  }

  lemma EmptyCorpus(sp: Splitters)
    ensures Forest(Corpus(sp, [])) && PagesApart(sp, [])
  {
  }

  /** Any corpus is a forest if and only if its productive pages are told apart by namespace and number. */
  lemma {:induction false} CorpusIsForest(sp: Splitters, documents: seq<Document>)
    ensures Forest(Corpus(sp, documents)) <==> PagesApart(sp, documents)
  {
    hide Forest, InForest, PagesApart, Apart, PagesDistinct, Disjoint, ChunksOf;
    EmptyCorpus(sp);
    if documents != [] {
      var n := |documents| - 1;
      var before, e := documents[..n], documents[n];
      CorpusIsForest(sp, before);
      CorpusInForest(sp, before);
      forall c | c in ChunksOf(sp, e) ensures InForest(ChunksOf(sp, e), c) { ChunkInForest(sp, e, c); }
      ForestConcat(Corpus(sp, before), ChunksOf(sp, e));
      DocumentIsForest(sp, e);
      CorpusDisjoint(sp, before, ChunksOf(sp, e));
      forall d | d in before ensures Disjoint(ChunksOf(sp, d), ChunksOf(sp, e)) <==> Apart(sp, d, e) {
        ApartIsDisjoint(sp, d, e);
      }
      assert documents == before + [e];
      PagesApartStep(sp, before, e);
    }
  }

  /** Whatever the splitters do, hits on loaded documents merge to a fixpoint in two passes. */
  lemma RetrievalReachesFixpoint(sp: Splitters, documents: seq<Document>, store: Store, docs: seq<Hit>, threshold: int)
    requires PagesApart(sp, documents)
    requires StoreFrom(store, Corpus(sp, documents)) && HitsFrom(docs, Corpus(sp, documents))
    ensures var out := TwoPasses(docs, store, threshold);
            MergePass(out, store, threshold) == Pass(out, 0) && NoParentBesideChild(out) && Distinct(out)
  {
    CorpusIsForest(sp, documents);
    ForestFeedsAutoMerge(Corpus(sp, documents), store, docs);
    TwoPassesReachFixpoint(docs, store, threshold);
    TwoPassesSeparate(docs, store, threshold);
  }
}
