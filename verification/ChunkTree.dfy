/**
The three-level splitter of backend/document/document_loader.py and the validator of
backend/document/ingestion.py. Splitters are arbitrary functions.
*/
module ChunkTree {
  import opened Wrappers
  import opened Text

  // ---- chunk ids ----

  function Digit(d: nat): char
    requires d < 10
  {
    ('0' as int + d) as char
  }

  function Digits(n: nat): string {
    if n < 10 then [Digit(n)] else Digits(n / 10) + [Digit(n % 10)]
  }

  function Decimal(n: int): string {
    if n < 0 then "-" + Digits(-n) else Digits(n)
  }

  function Field(prefix: string, field: string): string {
    prefix + "::" + field
  }

  /** `{namespace}::p{page}::l{level}::{index}` */
  function Render(namespace: string, page: int, level: int, index: int): string {
    Field(Field(Field(namespace, "p" + Decimal(page)), "l" + Decimal(level)), Decimal(index))
  }

  // ---- chunks ----

  /** What all chunks of one page share. */
  datatype Base = Base(documentId: string, filename: string, page: int)

  datatype Chunk = Chunk(id: string, parent: string, root: string, level: int, idx: int, base: Base, text: string)

  datatype Splitters = Splitters(one: string -> seq<string>, two: string -> seq<string>, three: string -> seq<string>)

  /** A page as the file reader delivers it, its text already sanitized. */
  datatype Page = Page(number: Option<int>, text: string)

  function IdAt(b: Base, level: int, index: int): string {
    Render(if b.documentId != "" then b.documentId else b.filename, b.page, level, index)
  }

  /** How many chunks of a level there are. */
  function OfLevel(chunks: seq<Chunk>, level: int): nat {
    if chunks == [] then 0
    else OfLevel(chunks[..|chunks| - 1], level) + (if chunks[|chunks| - 1].level == level then 1 else 0)
  }

  // ---- the splitter, declaratively: an id ends in the rank of the chunk on its level ----

  function NewRoot(b: Base, start: int, chunks: seq<Chunk>, text: string): Chunk {
    var id := IdAt(b, 1, OfLevel(chunks, 1));
    Chunk(id, "", id, 1, start + |chunks|, b, text)
  }

  function NewChild(b: Base, start: int, chunks: seq<Chunk>, parent: Chunk, text: string): Chunk {
    Chunk(IdAt(b, parent.level + 1, OfLevel(chunks, parent.level + 1)), parent.id, parent.root, parent.level + 1,
          start + |chunks|, b, text)
  }

  function AddLeaves(b: Base, start: int, chunks: seq<Chunk>, mid: Chunk, texts: seq<string>): seq<Chunk> {
    if texts == [] then chunks
    else
      var before := AddLeaves(b, start, chunks, mid, texts[..|texts| - 1]);
      var text := Trim(texts[|texts| - 1]);
      if text == "" then before else before + [NewChild(b, start, before, mid, text)]
  }

  function AddMids(sp: Splitters, b: Base, start: int, chunks: seq<Chunk>, root: Chunk, texts: seq<string>): seq<Chunk> {
    if texts == [] then chunks
    else
      var before := AddMids(sp, b, start, chunks, root, texts[..|texts| - 1]);
      var text := Trim(texts[|texts| - 1]);
      if text == "" then before
      else
        var mid := NewChild(b, start, before, root, text);
        AddLeaves(b, start, before + [mid], mid, sp.three(text))
  }

  function AddRoots(sp: Splitters, b: Base, start: int, chunks: seq<Chunk>, texts: seq<string>): seq<Chunk> {
    if texts == [] then chunks
    else
      var before := AddRoots(sp, b, start, chunks, texts[..|texts| - 1]);
      var text := Trim(texts[|texts| - 1]);
      if text == "" then before
      else
        var root := NewRoot(b, start, before, text);
        AddMids(sp, b, start, before + [root], root, sp.two(text))
  }

  function PageChunks(sp: Splitters, b: Base, start: int, text: string): seq<Chunk> {
    if text == "" then [] else AddRoots(sp, b, start, [], sp.one(text))
  }

  function BaseOf(documentId: string, filename: string, page: Page): Base {
    Base(documentId, filename, if page.number.Some? then page.number.value else 0)
  }

  function DocumentChunks(sp: Splitters, documentId: string, filename: string, pages: seq<Page>): seq<Chunk> {
    if pages == [] then []
    else
      var before := DocumentChunks(sp, documentId, filename, pages[..|pages| - 1]);
      var page := pages[|pages| - 1];
      before + PageChunks(sp, BaseOf(documentId, filename, page), |before|, page.text)
  }

  // ---- the splitter, as it is run: counters advance beside the list ----

  lemma OfLevelAppend(chunks: seq<Chunk>, c: Chunk, level: int)
    ensures OfLevel(chunks + [c], level) == OfLevel(chunks, level) + (if c.level == level then 1 else 0)
  {
    assert (chunks + [c])[..|chunks|] == chunks;
  }

  /** The counters of the three levels. */
  predicate Counters(chunks: seq<Chunk>, one: nat, two: nat, three: nat) {
    one == OfLevel(chunks, 1) && two == OfLevel(chunks, 2) && three == OfLevel(chunks, 3)
  }

  lemma CountersAppend(chunks: seq<Chunk>, c: Chunk, one: nat, two: nat, three: nat)
    requires Counters(chunks, one, two, three) && c.level in {1, 2, 3}
    ensures c.level == 1 ==> Counters(chunks + [c], one + 1, two, three)
    ensures c.level == 2 ==> Counters(chunks + [c], one, two + 1, three)
    ensures c.level == 3 ==> Counters(chunks + [c], one, two, three + 1)
  {
    OfLevelAppend(chunks, c, 1);
    OfLevelAppend(chunks, c, 2);
    OfLevelAppend(chunks, c, 3);
  }

  /** The innermost loop. */
  method SplitLeaves(sp: Splitters, b: Base, start: int, sofar: seq<Chunk>, mid: Chunk, counter1: nat, counter2: nat,
    counter: nat, next: int) returns (chunks: seq<Chunk>, counter3: nat, idx: int)
    requires mid.level == 2 && Counters(sofar, counter1, counter2, counter) && next == start + |sofar|
    ensures chunks == AddLeaves(b, start, sofar, mid, sp.three(mid.text))
    ensures Counters(chunks, counter1, counter2, counter3) && idx == start + |chunks|
  {
    hide IdAt, Trim;
    chunks, counter3, idx := sofar, counter, next;
    var leaves := sp.three(mid.text);
    for k := 0 to |leaves|
      invariant chunks == AddLeaves(b, start, sofar, mid, leaves[..k]) && idx == start + |chunks|
      invariant Counters(chunks, counter1, counter2, counter3)
    {
      assert leaves[..k + 1][..k] == leaves[..k];
      var text3 := Trim(leaves[k]);
      if text3 != "" {
        var leaf := Chunk(IdAt(b, 3, counter3), mid.id, mid.root, 3, idx, b, text3);
        assert leaf == NewChild(b, start, chunks, mid, text3);
        CountersAppend(chunks, leaf, counter1, counter2, counter3);
        counter3, idx, chunks := counter3 + 1, idx + 1, chunks + [leaf];
      }
    }
    assert leaves[..|leaves|] == leaves;
  }

  /** The loop over the pieces of one root. */
  method SplitMids(sp: Splitters, b: Base, start: int, sofar: seq<Chunk>, root: Chunk, counter1: nat, middle: nat,
    counter: nat, next: int) returns (chunks: seq<Chunk>, counter2: nat, counter3: nat, idx: int)
    requires root.level == 1 && Counters(sofar, counter1, middle, counter) && next == start + |sofar|
    ensures chunks == AddMids(sp, b, start, sofar, root, sp.two(root.text))
    ensures Counters(chunks, counter1, counter2, counter3) && idx == start + |chunks|
  {
    hide IdAt, Trim;
    chunks, counter2, counter3, idx := sofar, middle, counter, next;
    var mids := sp.two(root.text);
    for j := 0 to |mids|
      invariant chunks == AddMids(sp, b, start, sofar, root, mids[..j]) && idx == start + |chunks|
      invariant Counters(chunks, counter1, counter2, counter3)
    {
      assert mids[..j + 1][..j] == mids[..j];
      var text2 := Trim(mids[j]);
      if text2 != "" {
        var mid := Chunk(IdAt(b, 2, counter2), root.id, root.root, 2, idx, b, text2);
        assert mid == NewChild(b, start, chunks, root, text2);
        CountersAppend(chunks, mid, counter1, counter2, counter3);
        counter2, idx, chunks := counter2 + 1, idx + 1, chunks + [mid];
        chunks, counter3, idx := SplitLeaves(sp, b, start, chunks, mid, counter1, counter2, counter3, idx);
      }
    }
    assert mids[..|mids|] == mids;
  }

  method SplitPageToThreeLevels(sp: Splitters, text: string, b: Base, start: int) returns (chunks: seq<Chunk>)
    ensures chunks == PageChunks(sp, b, start, text)
  {
    hide IdAt, Trim;
    chunks := [];
    if text == "" { return; }
    var idx := start;
    var counter1, counter2, counter3 := 0, 0, 0;
    var roots := sp.one(text);
    for i := 0 to |roots|
      invariant chunks == AddRoots(sp, b, start, [], roots[..i]) && idx == start + |chunks|
      invariant Counters(chunks, counter1, counter2, counter3)
    {
      assert roots[..i + 1][..i] == roots[..i];
      var text1 := Trim(roots[i]);
      if text1 != "" {
        var root := Chunk(IdAt(b, 1, counter1), "", IdAt(b, 1, counter1), 1, idx, b, text1);
        assert root == NewRoot(b, start, chunks, text1);
        CountersAppend(chunks, root, counter1, counter2, counter3);
        counter1, idx, chunks := counter1 + 1, idx + 1, chunks + [root];
        chunks, counter2, counter3, idx :=
          SplitMids(sp, b, start, chunks, root, counter1, counter2, counter3, idx);
      }
    }
    assert roots[..|roots|] == roots;
  }

  method LoadDocument(sp: Splitters, documentId: string, filename: string, pages: seq<Page>) returns (documents: seq<Chunk>)
    ensures documents == DocumentChunks(sp, documentId, filename, pages)
  {
    documents := [];
    var idx := 0;
    for i := 0 to |pages|
      invariant documents == DocumentChunks(sp, documentId, filename, pages[..i]) && idx == |documents|
    {
      assert pages[..i + 1][..i] == pages[..i];
      var chunks := SplitPageToThreeLevels(sp, pages[i].text, BaseOf(documentId, filename, pages[i]), idx);
      idx := idx + |chunks|;
      documents := documents + chunks;
    }
    assert pages[..|pages|] == pages;
  }

  // ---- the validator ----

  datatype ChunkError = NothingExtracted | MissingOrDuplicateId | WrongVersionOrLevel | BrokenParent

  datatype Split = Split(parents: seq<Chunk>, leaves: seq<Chunk>)

  ghost predicate IdsDistinct(docs: seq<Chunk>) {
    && (forall i :: 0 <= i < |docs| ==> docs[i].id != "")
    && (forall i, j :: 0 <= i < j < |docs| ==> docs[i].id != docs[j].id)
  }

  predicate RightVersion(c: Chunk, documentId: string) {
    c.base.documentId == documentId && 1 <= c.level <= 3
  }

  /** `c` is a root or its parent is in the list, on the level above. */
  ghost predicate HasParent(docs: seq<Chunk>, c: Chunk) {
    c.level != 1 ==> exists p :: p in docs && p.id == c.parent && p.level == c.level - 1 && p.level in {1, 2}
  }

  ghost predicate Valid(docs: seq<Chunk>, documentId: string) {
    IdsDistinct(docs) && forall c :: c in docs ==> RightVersion(c, documentId) && HasParent(docs, c)
  }

  function Keep(docs: seq<Chunk>, levels: set<int>): seq<Chunk> {
    if docs == [] then []
    else Keep(docs[..|docs| - 1], levels) + (if docs[|docs| - 1].level in levels then [docs[|docs| - 1]] else [])
  }

  lemma {:induction false} KeepMembers(docs: seq<Chunk>, levels: set<int>, c: Chunk)
    ensures c in Keep(docs, levels) <==> c in docs && c.level in levels
  {
    if docs != [] {
      KeepMembers(docs[..|docs| - 1], levels, c);
      assert docs == docs[..|docs| - 1] + [docs[|docs| - 1]];
    }
  }

  method CheckIds(docs: seq<Chunk>) returns (ok: bool)
    ensures ok <==> IdsDistinct(docs)
  {
    var seen: set<string> := {};
    for i := 0 to |docs|
      invariant IdsDistinct(docs[..i]) && forall id :: id in seen <==> exists k :: 0 <= k < i && docs[k].id == id
    {
      if docs[i].id == "" || docs[i].id in seen { return false; }
      seen := seen + {docs[i].id};
    }
    assert docs[..|docs|] == docs;
    return true;
  }

  ghost predicate ParentMap(parents: map<string, Chunk>, docs: seq<Chunk>) {
    && (forall id :: id in parents ==> parents[id] in docs && parents[id].id == id && parents[id].level in {1, 2})
    && (forall c :: c in docs && c.level in {1, 2} ==> c.id in parents)
  }

  lemma KeepNext(docs: seq<Chunk>, levels: set<int>, i: nat)
    requires i < |docs|
    ensures Keep(docs[..i + 1], levels) == Keep(docs[..i], levels) + (if docs[i].level in levels then [docs[i]] else [])
  {
    assert docs[..i + 1][..i] == docs[..i];
  }

  lemma MapNext(parents: map<string, Chunk>, docs: seq<Chunk>, i: nat)
    requires i < |docs| && ParentMap(parents, docs[..i])
    ensures ParentMap(if docs[i].level in {1, 2} then parents[docs[i].id := docs[i]] else parents, docs[..i + 1])
  {
    assert docs[..i + 1] == docs[..i] + [docs[i]];
  }

  method SplitByLevel(docs: seq<Chunk>) returns (parents: map<string, Chunk>, split: Split)
    ensures ParentMap(parents, docs) && split == Split(Keep(docs, {1, 2}), Keep(docs, {3}))
  {
    parents := map[];
    assert ParentMap(parents, docs[..0]);
    assert Keep(docs[..0], {1, 2}) == [] && Keep(docs[..0], {3}) == [];
    hide Keep, ParentMap;
    var parentList, leaves := [], [];
    for i := 0 to |docs|
      invariant ParentMap(parents, docs[..i])
      invariant parentList == Keep(docs[..i], {1, 2}) && leaves == Keep(docs[..i], {3})
    {
      KeepNext(docs, {1, 2}, i);
      KeepNext(docs, {3}, i);
      MapNext(parents, docs, i);
      if docs[i].level in {1, 2} {
        parents := parents[docs[i].id := docs[i]];
        parentList := parentList + [docs[i]];
      }
      if docs[i].level == 3 { leaves := leaves + [docs[i]]; }
    }
    assert docs[..|docs|] == docs;
    split := Split(parentList, leaves);
  }

  /** With distinct ids the map has the one chunk a parent id can mean. */
  lemma ParentLookup(parents: map<string, Chunk>, docs: seq<Chunk>, c: Chunk)
    requires ParentMap(parents, docs) && IdsDistinct(docs)
    ensures HasParent(docs, c) <==> (c.level == 1 || (c.parent in parents && parents[c.parent].level == c.level - 1))
  {
    if c.level != 1 && c.parent !in parents {
      assert forall p :: p in docs && p.id == c.parent ==> p.level !in {1, 2};
    } else if c.level != 1 {
      assert forall p :: p in docs && p.id == c.parent ==> p == parents[c.parent];
    }
  }

  ghost predicate SoundUpTo(docs: seq<Chunk>, documentId: string, i: nat)
    requires i <= |docs|
  {
    forall k :: 0 <= k < i ==> RightVersion(docs[k], documentId) && HasParent(docs, docs[k])
  }

  /** The first fault in list order, or the parents and the leaves. */
  method Validate(docs: seq<Chunk>, documentId: string) returns (r: Result<Split, ChunkError>)
    ensures r.Ok? <==> Valid(docs, documentId)
    ensures r.Ok? ==> r.value == Split(Keep(docs, {1, 2}), Keep(docs, {3}))
    ensures r == Err(MissingOrDuplicateId) <==> !IdsDistinct(docs)
    ensures r == Err(WrongVersionOrLevel) ==>
              exists i :: 0 <= i < |docs| && SoundUpTo(docs, documentId, i) && !RightVersion(docs[i], documentId)
    ensures r == Err(BrokenParent) ==>
              exists i :: 0 <= i < |docs| && SoundUpTo(docs, documentId, i)
                       && RightVersion(docs[i], documentId) && !HasParent(docs, docs[i])
  {
    var ok := CheckIds(docs);
    if !ok { return Err(MissingOrDuplicateId); }
    var parents, split := SplitByLevel(docs);
    for i := 0 to |docs|
      invariant SoundUpTo(docs, documentId, i)
    {
      var c := docs[i];
      if !RightVersion(c, documentId) { return Err(WrongVersionOrLevel); }
      ParentLookup(parents, docs, c);
      if c.level != 1 && (c.parent !in parents || parents[c.parent].level != c.level - 1) {
        return Err(BrokenParent);
      }
    }
    return Ok(split);
  }

  /** `_chunks`: the stored manifest if there is one, else the loader's output, which becomes the manifest. */
  method Chunks(manifest: Option<seq<Chunk>>, sp: Splitters, documentId: string, filename: string, pages: seq<Page>)
    returns (r: Result<Split, ChunkError>, saved: Option<seq<Chunk>>)
    ensures var loaded := DocumentChunks(sp, documentId, filename, pages);
            var docs := if manifest.Some? then manifest.value else loaded;
            && (saved == if manifest.None? && loaded == [] then None else Some(docs))
            && (saved.None? ==> r == Err(NothingExtracted))
            && (saved.Some? ==> (r.Ok? <==> Valid(docs, documentId)))
            && (r.Ok? ==> r.value == Split(Keep(docs, {1, 2}), Keep(docs, {3})))
  {
    var docs;
    if manifest.Some? {
      docs := manifest.value;
    } else {
      docs := LoadDocument(sp, documentId, filename, pages);
      if docs == [] { return Err(NothingExtracted), None; }
    }
    r := Validate(docs, documentId);
    saved := Some(docs);
  }
}
