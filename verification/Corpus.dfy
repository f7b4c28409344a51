/**
 * The fixture corpus of `evals/corpus.ts`: pages cut into chunks, and queries
 * with gold keys that have to be answerable inside their own grant.
 */
module Corpora {
  import opened Prelude
  import opened Metrics

  type Origin = string
  type Token = string
  type PageId = string
  type QueryId = string

  datatype QuestionType = Relational | NamedEntity | Temporal | ContextFenced

  datatype QueryFamily = TitleSubstring | Alias | Dilution | General

  const ORIGIN_CONTEXTS: set<Origin> := {
    "personal:mail", "personal:chat", "personal:files", "personal:calendar",
    "work:mail", "work:files", "work:calendar"
  }

  const SOURCE_TYPES: set<string> := {
    "email", "chat", "document", "web", "note", "calendar", "transcript", "file"
  }

  /** Some text, and the tokens the retrieval arms see in it. */
  datatype Passage = Passage(text: string, tokens: seq<Token>)

  datatype Page = Page(
    id: PageId,
    sourceType: string,
    origin: Origin,
    createdAt: string,
    title: Passage,
    paragraphs: seq<Passage>,
    dupGroup: Option<GroupId>,
    deleted: bool,
    quarantined: bool)

  datatype Chunk = Chunk(
    id: ChunkId,
    page: PageId,
    tokens: seq<Token>,
    origin: Origin,
    dupGroup: Option<GroupId>,
    live: bool)

  /** `supporting` is a record from chunk id to grade; its keys are distinct. */
  datatype Query = Query(
    id: QueryId,
    text: Passage,
    relations: set<string>,
    questionType: QuestionType,
    family: QueryFamily,
    grant: seq<Origin>,
    mechanisms: seq<string>,
    evidence: string,
    answers: seq<ChunkId>,
    supporting: seq<Graded>,
    requiredGroups: Option<seq<GroupId>>)

  datatype CorpusInput = CorpusInput(pages: seq<Page>, queries: seq<Query>)

  type ChunkTable = map<ChunkId, Chunk>

  datatype CorpusFault =
    | PageFault(page: PageId) | NoChunks | QueryFault(query: QueryId)
    | UnprobedGroup(group: GroupId) | NoDeletedPage | NoQuarantinedPage

  // -------------------------------------------------------------------------
  // Pages into chunks.
  // -------------------------------------------------------------------------

  function Decimal(n: nat): string {
    if n < 10 then ["0123456789"[n]] else Decimal(n / 10) + ["0123456789"[n % 10]]
  }

  function ChunkIdFor(page: PageId, ordinal: nat): ChunkId {
    page + "#" + Decimal(ordinal)
  }

  /** `p-<slug>`: in particular, no '#'. */
  predicate IsPageId(id: PageId) {
    && |id| >= 3 && id[..2] == "p-"
    && forall i :: 2 <= i < |id| ==> 'a' <= id[i] <= 'z' || '0' <= id[i] <= '9' || id[i] == '-'
  }

  predicate IsLive(page: Page) {
    !page.deleted && !page.quarantined
  }

  function ChunkOf(page: Page, ordinal: nat): Chunk
    requires ordinal < |page.paragraphs|
  {
    Chunk(ChunkIdFor(page.id, ordinal), page.id, page.title.tokens + page.paragraphs[ordinal].tokens,
          page.origin, page.dupGroup, IsLive(page))
  }

  /** The chunks of the first `n` paragraphs, on top of those already there. */
  function AddChunks(chunks: ChunkTable, page: Page, n: nat): ChunkTable
    requires n <= |page.paragraphs|
  {
    if n == 0 then chunks else AddChunks(chunks, page, n - 1)[ChunkIdFor(page.id, n - 1) := ChunkOf(page, n - 1)]
  }

  function ChunksOf(pages: seq<Page>): ChunkTable {
    if pages == [] then map[]
    else
      var page := pages[|pages| - 1];
      AddChunks(ChunksOf(pages[..|pages| - 1]), page, |page.paragraphs|)
  }

  /** The ids of the first `n` paragraphs, after those already there. */
  function AddIds(ids: seq<ChunkId>, page: Page, n: nat): seq<ChunkId> {
    if n == 0 then ids else AddIds(ids, page, n - 1) + [ChunkIdFor(page.id, n - 1)]
  }

  /** Every chunk id, in the order the pages and their paragraphs come. */
  function IdsOf(pages: seq<Page>): seq<ChunkId> {
    if pages == [] then []
    else
      var page := pages[|pages| - 1];
      AddIds(IdsOf(pages[..|pages| - 1]), page, |page.paragraphs|)
  }

  predicate HasParagraphs(page: Page) {
    page.paragraphs != [] && forall i :: 0 <= i < |page.paragraphs| ==> !IsBlank(page.paragraphs[i].text)
  }

  predicate IsPage(page: Page) {
    && IsPageId(page.id) && page.sourceType in SOURCE_TYPES && page.origin in ORIGIN_CONTEXTS
    && IsIsoDate(page.createdAt) && !IsBlank(page.title.text)
    && HasParagraphs(page)
  }

  predicate ArePages(pages: seq<Page>) {
    && (forall i :: 0 <= i < |pages| ==> IsPage(pages[i]))
    && forall i, j :: 0 <= i < j < |pages| ==> pages[i].id != pages[j].id
  }

  /** The id of one of the first `n` paragraphs. */
  predicate IsChunkId(page: Page, n: nat, id: ChunkId) {
    n > 0 && (id == ChunkIdFor(page.id, n - 1) || IsChunkId(page, n - 1, id))
  }

  function FirstHash(s: string): nat {
    if s == "" || s[0] == '#' then 0 else 1 + FirstHash(s[1..])
  }

  lemma {:induction false} FirstHashEndsThePage(page: string, rest: string)
    requires forall i :: 0 <= i < |page| ==> page[i] != '#'
    ensures FirstHash(page + "#" + rest) == |page|
  {
    if page != "" {
      assert (page + "#" + rest)[1..] == page[1..] + "#" + rest;
      FirstHashEndsThePage(page[1..], rest);
    }
  }

  /** Chunk ids of different pages differ: the first '#' ends the page id. */
  lemma ChunkIdNamesItsPage(a: PageId, i: nat, b: PageId, j: nat)
    requires IsPageId(a) && IsPageId(b) && ChunkIdFor(a, i) == ChunkIdFor(b, j)
    ensures a == b
  {
    FirstHashEndsThePage(a, Decimal(i));
    FirstHashEndsThePage(b, Decimal(j));
    assert a == ChunkIdFor(a, i)[..|a|] == ChunkIdFor(b, j)[..|b|] == b;
  }

  lemma {:induction false} ChunkIdsOfOnePage(a: Page, n: nat, b: Page, m: nat, id: ChunkId)
    requires IsPageId(a.id) && IsPageId(b.id) && IsChunkId(a, n, id) && IsChunkId(b, m, id)
    ensures a.id == b.id
    decreases n + m
  {
    if id != ChunkIdFor(a.id, n - 1) {
      ChunkIdsOfOnePage(a, n - 1, b, m, id);
    } else if id != ChunkIdFor(b.id, m - 1) {
      ChunkIdsOfOnePage(a, n, b, m - 1, id);
    } else {
      ChunkIdNamesItsPage(a.id, n - 1, b.id, m - 1);
    }
  }

  /** A chunk carries what its page says. */
  ghost predicate IsFrom(chunk: Chunk, page: Page) {
    && chunk.page == page.id && chunk.origin == page.origin
    && chunk.dupGroup == page.dupGroup && chunk.live == IsLive(page)
  }

  lemma {:induction false} AddedChunks(chunks: ChunkTable, page: Page, n: nat, id: ChunkId)
    requires n <= |page.paragraphs|
    ensures id in AddChunks(chunks, page, n) <==> id in chunks || IsChunkId(page, n, id)
    ensures IsChunkId(page, n, id) ==> IsFrom(AddChunks(chunks, page, n)[id], page)
    ensures id in chunks && !IsChunkId(page, n, id) ==> AddChunks(chunks, page, n)[id] == chunks[id]
  {
    if n > 0 {
      AddedChunks(chunks, page, n - 1, id);
    }
  }

  lemma {:induction false} IdsNameTheChunks(pages: seq<Page>, id: ChunkId)
    ensures id in IdsOf(pages) <==> id in ChunksOf(pages)
  {
    if pages != [] {
      var page := pages[|pages| - 1];
      IdsNameTheChunks(pages[..|pages| - 1], id);
      AddedIds(IdsOf(pages[..|pages| - 1]), page, |page.paragraphs|, id);
      AddedChunks(ChunksOf(pages[..|pages| - 1]), page, |page.paragraphs|, id);
    }
  }

  lemma {:induction false} AddedIds(ids: seq<ChunkId>, page: Page, n: nat, id: ChunkId)
    ensures id in AddIds(ids, page, n) <==> id in ids || IsChunkId(page, n, id)
  {
    if n > 0 {
      AddedIds(ids, page, n - 1, id);
    }
  }

  predicate Declares(pages: seq<Page>, p: int, id: ChunkId) {
    0 <= p < |pages| && IsChunkId(pages[p], |pages[p].paragraphs|, id)
  }

  /** Every chunk in the table belongs to the page its id names. */
  lemma {:induction false} ChunksComeFromPages(pages: seq<Page>, id: ChunkId)
    requires ArePages(pages)
    ensures id in ChunksOf(pages) <==> exists p :: Declares(pages, p, id)
    ensures forall p :: Declares(pages, p, id) ==> id in ChunksOf(pages) && IsFrom(ChunksOf(pages)[id], pages[p])
  {
    if pages != [] {
      var last := |pages| - 1;
      var before := pages[..last];
      ChunksComeFromPages(before, id);
      AddedChunks(ChunksOf(before), pages[last], |pages[last].paragraphs|, id);
      forall p | Declares(pages, p, id) ensures id in ChunksOf(pages) && IsFrom(ChunksOf(pages)[id], pages[p]) {
        if p < last {
          assert Declares(before, p, id);
          if IsChunkId(pages[last], |pages[last].paragraphs|, id) {
            ChunkIdsOfOnePage(pages[p], |pages[p].paragraphs|, pages[last], |pages[last].paragraphs|, id);
          }
        }
      }
      if id in ChunksOf(before) {
        var p :| Declares(before, p, id);
        assert Declares(pages, p, id);
      }
      if IsChunkId(pages[last], |pages[last].paragraphs|, id) {
        assert Declares(pages, last, id);
      }
    }
  }

  /** The chunks of a duplicate group; a group exists when a page declares it. */
  ghost predicate IsMember(chunks: ChunkTable, group: GroupId, id: ChunkId) {
    id in chunks && chunks[id].dupGroup == Some(group)
  }

  ghost predicate IsGroup(pages: seq<Page>, group: GroupId) {
    exists p :: 0 <= p < |pages| && pages[p].dupGroup == Some(group)
  }

  /** What `dupGroupMembers` holds: for each declared group, the ids of its chunks. */
  ghost predicate AreMembers(pages: seq<Page>, chunks: ChunkTable, members: map<GroupId, seq<ChunkId>>) {
    && (forall group :: group in members <==> IsGroup(pages, group))
    && (forall group :: group in members ==> forall id :: id in members[group] <==> IsMember(chunks, group, id))
  }

  // -------------------------------------------------------------------------
  // Gold keys.
  // -------------------------------------------------------------------------

  /** A chunk the query's own credential may be shown. */
  predicate IsVisible(chunks: ChunkTable, grant: seq<Origin>, id: ChunkId) {
    id in chunks && chunks[id].live && chunks[id].origin in grant
  }

  function Sees(chunks: ChunkTable, grant: seq<Origin>): ChunkId -> bool {
    (id: ChunkId) => IsVisible(chunks, grant, id)
  }

  predicate IsDistinct<T(==)>(s: seq<T>) {
    forall i, j :: 0 <= i < j < |s| ==> s[i] != s[j]
  }

  /** A question, the mechanisms it exercises, and a note of some length on why it can be answered. */
  predicate IsAudited(q: Query) {
    && !IsBlank(q.text.text)
    && q.mechanisms != [] && IsDistinct(q.mechanisms)
    && |Trim(q.evidence)| >= 40
  }

  predicate HasGrant(q: Query) {
    && q.grant != []
    && (forall origin :: origin in q.grant ==> origin in ORIGIN_CONTEXTS)
    && IsDistinct(q.grant)
  }

  predicate HasAnswers(q: Query, chunks: ChunkTable) {
    && q.answers != [] && IsDistinct(q.answers)
    && forall i :: 0 <= i < |q.answers| ==> IsVisible(chunks, q.grant, q.answers[i])
  }

  predicate HasSupport(q: Query, chunks: ChunkTable) {
    forall i :: 0 <= i < |q.supporting| ==>
      && IsVisible(chunks, q.grant, q.supporting[i].id)
      && 1 <= q.supporting[i].grade <= 2
      && q.supporting[i].id !in q.answers
  }

  predicate IsGraded(q: Query, id: ChunkId) {
    id in q.answers || exists i :: 0 <= i < |q.supporting| && q.supporting[i].id == id
  }

  /** The group has a chunk the query may see and grades. */
  ghost predicate IsReachable(q: Query, chunks: ChunkTable, group: GroupId) {
    exists id :: IsMember(chunks, group, id) && IsVisible(chunks, q.grant, id) && IsGraded(q, id)
  }

  ghost predicate HasRequirement(q: Query, chunks: ChunkTable) {
    if q.family.Dilution? then
      && q.requiredGroups.Some? && |q.requiredGroups.value| >= 2 && IsDistinct(q.requiredGroups.value)
      && forall i :: 0 <= i < |q.requiredGroups.value| ==> IsReachable(q, chunks, q.requiredGroups.value[i])
    else q.requiredGroups.None?
  }

  ghost predicate IsAnswerable(q: Query, chunks: ChunkTable) {
    && IsAudited(q) && HasGrant(q)
    && HasAnswers(q, chunks) && HasSupport(q, chunks) && HasRequirement(q, chunks)
  }

  /** The graded gold key: answers at 3, then the supporting grades. */
  function GoldKey(q: Query): seq<Graded> {
    seq(|q.answers|, i requires 0 <= i < |q.answers| => Graded(q.answers[i], 3)) + q.supporting
  }

  /** A record's keys are distinct. */
  predicate IsRecord(supporting: seq<Graded>) {
    forall i, j :: 0 <= i < j < |supporting| ==> supporting[i].id != supporting[j].id
  }

  ghost predicate IsProbed(queries: seq<Query>, group: GroupId) {
    exists i :: 0 <= i < |queries| && queries[i].requiredGroups.Some? && group in queries[i].requiredGroups.value
  }

  ghost predicate IsAcceptable(input: CorpusInput) {
    var chunks := ChunksOf(input.pages);
    && ArePages(input.pages) && chunks != map[]
    && HaveDistinctIds(input.queries) && AreAnswerable(input.queries, chunks)
    && (forall group :: IsGroup(input.pages, group) ==> IsProbed(input.queries, group))
    && HasDeletedPage(input.pages) && HasQuarantinedPage(input.pages)
  }

  predicate HasDeletedPage(pages: seq<Page>) {
    exists p :: 0 <= p < |pages| && pages[p].deleted
  }

  predicate HasQuarantinedPage(pages: seq<Page>) {
    exists p :: 0 <= p < |pages| && pages[p].quarantined
  }

  datatype Corpus = Corpus(
    chunks: ChunkTable,
    chunkIds: seq<ChunkId>,
    queries: seq<Query>,
    queriesById: map<QueryId, Query>,
    gold: map<QueryId, seq<Graded>>)
  {
    function GroupOf(id: ChunkId): Option<GroupId> {
      if id in chunks then chunks[id].dupGroup else None
    }

    /** None: the query was never authored, and the code throws. */
    function RelevanceFor(id: QueryId): Option<seq<Graded>> {
      if id in gold then Some(gold[id]) else None
    }

    /** What `grant` opens up of the corpus, in the order the chunks were loaded. */
    function Visible(grant: seq<Origin>): seq<ChunkId> {
      Keep(chunkIds, Sees(chunks, grant))
    }
  }

  function Keep<T>(s: seq<T>, p: T -> bool): (r: seq<T>)
    ensures forall x :: x in r ==> x in s && p(x)
  {
    if s == [] then []
    else
      assert s == s[..|s| - 1] + [s[|s| - 1]];
      Keep(s[..|s| - 1], p) + if p(s[|s| - 1]) then [s[|s| - 1]] else []
  }

  lemma {:induction false} KeepKeeps<T>(s: seq<T>, p: T -> bool, x: T)
    requires x in s && p(x)
    ensures x in Keep(s, p)
  {
    if s[|s| - 1] != x {
      assert s == s[..|s| - 1] + [s[|s| - 1]];
      KeepKeeps(s[..|s| - 1], p, x);
    }
  }

  lemma KeptAreThose<T(!new)>(s: seq<T>, p: T -> bool)
    ensures forall x :: x in Keep(s, p) <==> x in s && p(x)
  {
    forall x | x in s && p(x) ensures x in Keep(s, p) {
      KeepKeeps(s, p, x);
    }
  }

  /** What a corpus says about the input it was built from. */
  ghost predicate IsBuiltFrom(c: Corpus, input: CorpusInput) {
    && c.chunks == ChunksOf(input.pages)
    && c.chunkIds == IdsOf(input.pages)
    && c.queries == input.queries && AreIndexed(c.queries, c.queriesById, c.gold)
  }

  // -------------------------------------------------------------------------
  // The loader.
  // -------------------------------------------------------------------------

  method CheckAnswers(q: Query, chunks: ChunkTable) returns (ok: bool, graded: seq<Graded>)
    ensures ok <==> HasAnswers(q, chunks)
    ensures ok ==> graded == GoldKey(q)[..|q.answers|]
  {
    graded := [];
    if |q.answers| == 0 || !IsDistinct(q.answers) {
      return false, graded;
    }
    for i := 0 to |q.answers|
      invariant graded == GoldKey(q)[..i]
      invariant forall j :: 0 <= j < i ==> IsVisible(chunks, q.grant, q.answers[j])
    {
      var answer := q.answers[i];
      if answer !in chunks || !chunks[answer].live || chunks[answer].origin !in q.grant {
        return false, graded;
      }
      graded := graded + [Graded(answer, 3)];
    }
    ok := true;
  }

  method CheckSupport(q: Query, chunks: ChunkTable, answers: seq<Graded>) returns (ok: bool, graded: seq<Graded>)
    requires answers == GoldKey(q)[..|q.answers|]
    ensures ok <==> HasSupport(q, chunks)
    ensures ok ==> graded == GoldKey(q)
  {
    graded := answers;
    for i := 0 to |q.supporting|
      invariant graded == GoldKey(q)[..|q.answers| + i]
      invariant forall j :: 0 <= j < i ==>
        IsVisible(chunks, q.grant, q.supporting[j].id) && 1 <= q.supporting[j].grade <= 2
          && q.supporting[j].id !in q.answers
    {
      var entry := q.supporting[i];
      if entry.id !in chunks || (entry.grade != 1 && entry.grade != 2) || entry.id in q.answers
         || !chunks[entry.id].live || chunks[entry.id].origin !in q.grant {
        return false, graded;
      }
      graded := graded + [entry];
    }
    assert GoldKey(q)[..|q.answers| + |q.supporting|] == GoldKey(q);
    ok := true;
  }

  method CheckRequirement(q: Query, chunks: ChunkTable, members: map<GroupId, seq<ChunkId>>, ghost pages: seq<Page>)
    returns (ok: bool)
    requires AreMembers(pages, chunks, members)
    requires forall group, id :: IsMember(chunks, group, id) ==> IsGroup(pages, group)
    ensures ok <==> HasRequirement(q, chunks)
  {
    if !q.family.Dilution? {
      return q.requiredGroups.None?;
    }
    if q.requiredGroups.None? || |q.requiredGroups.value| < 2 || !IsDistinct(q.requiredGroups.value) {
      return false;
    }
    var required := q.requiredGroups.value;
    for i := 0 to |required|
      invariant forall j :: 0 <= j < i ==> IsReachable(q, chunks, required[j])
    {
      var group := required[i];
      if group !in members {
        return false;
      }
      var reachable := Keep(members[group], id => IsVisible(chunks, q.grant, id));
      var graded := Keep(reachable, id => IsGraded(q, id));
      if |reachable| == 0 || |graded| == 0 {
        forall id | IsMember(chunks, group, id) && IsVisible(chunks, q.grant, id) && IsGraded(q, id) ensures false {
          KeepKeeps(members[group], x => IsVisible(chunks, q.grant, x), id);
          KeepKeeps(reachable, x => IsGraded(q, x), id);
        }
        return false;
      }
      assert IsMember(chunks, group, graded[0]) by {
        assert graded[0] in graded;
      }
    }
    ok := true;
  }

  method AddPage(page: Page, chunks: ChunkTable, ids: seq<ChunkId>, members: map<GroupId, seq<ChunkId>>)
    returns (chunks': ChunkTable, ids': seq<ChunkId>, members': map<GroupId, seq<ChunkId>>)
    requires IsPage(page)
    ensures chunks' == AddChunks(chunks, page, |page.paragraphs|)
    ensures ids' == AddIds(ids, page, |page.paragraphs|)
    ensures HasGained(page, |page.paragraphs|, members, members')
  {
    chunks', ids', members' := chunks, ids, members;
    for ordinal := 0 to |page.paragraphs|
      invariant chunks' == AddChunks(chunks, page, ordinal)
      invariant ids' == AddIds(ids, page, ordinal)
      invariant if ordinal == 0 then members' == members else HasGained(page, ordinal, members, members')
    {
      var id := ChunkIdFor(page.id, ordinal);
      chunks' := chunks'[id := ChunkOf(page, ordinal)];
      ids' := ids' + [id];
      if page.dupGroup.Some? {
        var group := page.dupGroup.value;
        members' := members'[group := (if group in members' then members'[group] else []) + [id]];
      }
    }
  }

  /** Only the page's own group moved, and it gained the ids of the page's first `n` chunks. */
  ghost predicate HasGained(page: Page, n: nat, before: map<GroupId, seq<ChunkId>>, after: map<GroupId, seq<ChunkId>>) {
    if page.dupGroup.None? then after == before
    else
      var own := page.dupGroup.value;
      && after.Keys == before.Keys + {own}
      && (forall group :: group in before && group != own ==> after[group] == before[group])
      && (forall id :: id in after[own] <==> (own in before && id in before[own]) || IsChunkId(page, n, id))
  }

  lemma GroupsAfterPage(pages: seq<Page>, n: nat, group: GroupId)
    requires n < |pages|
    ensures IsGroup(pages[..n + 1], group) <==> IsGroup(pages[..n], group) || pages[n].dupGroup == Some(group)
  {
    var upTo := pages[..n + 1];
    if IsGroup(pages[..n], group) {
      var p :| 0 <= p < n && pages[..n][p].dupGroup == Some(group);
      assert upTo[p].dupGroup == Some(group);
    }
    if pages[n].dupGroup == Some(group) {
      assert upTo[n].dupGroup == Some(group);
    }
    if IsGroup(upTo, group) {
      var p :| 0 <= p < |upTo| && upTo[p].dupGroup == Some(group);
      assert p < n ==> pages[..n][p] == upTo[p];
    }
  }

  /** A page's ids are new to the table, so what was there stays as it was. */
  lemma MemberAfterPage(pages: seq<Page>, n: nat, group: GroupId, id: ChunkId)
    requires ArePages(pages) && n < |pages|
    ensures IsMember(ChunksOf(pages[..n + 1]), group, id) <==>
      || IsMember(ChunksOf(pages[..n]), group, id)
      || (pages[n].dupGroup == Some(group) && IsChunkId(pages[n], |pages[n].paragraphs|, id))
  {
    var upTo := pages[..n + 1];
    assert upTo[..n] == pages[..n] && upTo[n] == pages[n];
    AddedChunks(ChunksOf(pages[..n]), pages[n], |pages[n].paragraphs|, id);
    if IsChunkId(pages[n], |pages[n].paragraphs|, id) {
      OnePageNamesTheChunk(pages, n, id);
    }
  }

  lemma OnePageNamesTheChunk(pages: seq<Page>, n: nat, id: ChunkId)
    requires ArePages(pages) && n < |pages| && IsChunkId(pages[n], |pages[n].paragraphs|, id)
    ensures id !in ChunksOf(pages[..n])
  {
    ChunksComeFromPages(pages[..n], id);
    if id in ChunksOf(pages[..n]) {
      var p :| Declares(pages[..n], p, id);
      ChunkIdsOfOnePage(pages[p], |pages[p].paragraphs|, pages[n], |pages[n].paragraphs|, id);
      assert false;
    }
  }

  lemma MemberOfAGroupAfterPage(
    pages: seq<Page>, n: nat, before: map<GroupId, seq<ChunkId>>, after: map<GroupId, seq<ChunkId>>,
    group: GroupId, id: ChunkId)
    requires ArePages(pages) && n < |pages|
    requires AreMembers(pages[..n], ChunksOf(pages[..n]), before)
    requires HasGained(pages[n], |pages[n].paragraphs|, before, after) && group in after
    ensures id in after[group] <==> IsMember(ChunksOf(pages[..n + 1]), group, id)
  {
    MemberAfterPage(pages, n, group, id);
    if group !in before && IsMember(ChunksOf(pages[..n]), group, id) {
      MembersHaveGroups(pages[..n], group, id);
    }
  }

  /** The group table stays right when a page is added. */
  lemma MembersAfterPage(pages: seq<Page>, n: nat, before: map<GroupId, seq<ChunkId>>, after: map<GroupId,
      seq<ChunkId>>)
    requires ArePages(pages) && n < |pages|
    requires AreMembers(pages[..n], ChunksOf(pages[..n]), before)
    requires HasGained(pages[n], |pages[n].paragraphs|, before, after)
    ensures AreMembers(pages[..n + 1], ChunksOf(pages[..n + 1]), after)
  {
    forall group ensures group in after <==> IsGroup(pages[..n + 1], group) {
      GroupsAfterPage(pages, n, group);
    }
    forall group, id | group in after ensures id in after[group] <==> IsMember(ChunksOf(pages[..n + 1]), group, id) {
      MemberOfAGroupAfterPage(pages, n, before, after, group, id);
    }
  }

  /** `group` is declared because one of its chunks is there. */
  lemma MembersHaveGroups(pages: seq<Page>, group: GroupId, id: ChunkId)
    requires ArePages(pages) && IsMember(ChunksOf(pages), group, id)
    ensures IsGroup(pages, group)
  {
    ChunksComeFromPages(pages, id);
    var p :| Declares(pages, p, id);
  }

  lemma OneIdMore(pages: seq<Page>, n: nat, seen: set<PageId>)
    requires n < |pages| && AreSeen(pages[..n], seen)
    ensures AreSeen(pages[..n + 1], seen + {pages[n].id})
    ensures pages[n].id in seen <==> exists p :: 0 <= p < n && pages[p].id == pages[n].id
  {
    var upTo := pages[..n + 1];
    assert forall i :: 0 <= i < n ==> upTo[i] == pages[..n][i] == pages[i];
    forall id | id in seen + {pages[n].id} ensures exists p :: 0 <= p < |upTo| && upTo[p].id == id {
      if id in seen {
        var p :| 0 <= p < n && pages[..n][p].id == id;
        assert upTo[p].id == id;
      } else {
        assert upTo[n].id == id;
      }
    }
    if pages[n].id in seen {
      var p :| 0 <= p < n && pages[..n][p].id == pages[n].id;
      assert pages[p].id == pages[n].id;
    }
  }

  lemma OnePageMore(pages: seq<Page>, n: nat, seen: set<PageId>)
    requires n < |pages| && ArePages(pages[..n]) && AreSeen(pages[..n], seen)
    ensures ArePages(pages[..n + 1]) <==> pages[n].id !in seen && IsPage(pages[n])
  {
    var upTo := pages[..n + 1];
    OneIdMore(pages, n, seen);
    assert upTo[n] == pages[n];
    if pages[n].id in seen {
      var p :| 0 <= p < n && pages[p].id == pages[n].id;
      assert upTo[p].id == upTo[n].id;
    } else if IsPage(pages[n]) {
      forall i | 0 <= i < |upTo| ensures IsPage(upTo[i]) {
        assert i < n ==> upTo[i] == pages[..n][i];
      }
      forall i, j | 0 <= i < j < |upTo| ensures upTo[i].id != upTo[j].id {
        assert upTo[i] == pages[..n][i];
        assert j < n ==> upTo[j] == pages[..n][j];
        assert pages[..n][i].id in seen;
      }
    }
  }

  ghost predicate AreSeen(pages: seq<Page>, seen: set<PageId>) {
    && (forall p :: 0 <= p < |pages| ==> pages[p].id in seen)
    && forall id :: id in seen ==> exists p :: 0 <= p < |pages| && pages[p].id == id
  }

  lemma PrefixOfPages(pages: seq<Page>, n: nat)
    requires n <= |pages|
    ensures ArePages(pages) ==> ArePages(pages[..n])
  {
  }

  method LoadPages(pages: seq<Page>)
    returns (fault: Option<CorpusFault>, chunks: ChunkTable, ids: seq<ChunkId>, members: map<GroupId, seq<ChunkId>>)
    ensures fault.None? <==> ArePages(pages)
    ensures fault.None? ==> chunks == ChunksOf(pages) && ids == IdsOf(pages) && AreMembers(pages, chunks, members)
  {
    var seen: set<PageId> := {};
    chunks, ids, members := map[], [], map[];
    for i := 0 to |pages|
      invariant ArePages(pages[..i]) && AreSeen(pages[..i], seen)
      invariant chunks == ChunksOf(pages[..i]) && ids == IdsOf(pages[..i])
      invariant AreMembers(pages[..i], chunks, members)
    {
      var page := pages[i];
      ghost var upTo := pages[..i + 1];
      assert upTo[..i] == pages[..i] && upTo[..i + 1] == upTo;
      OnePageMore(pages, i, seen);
      OneIdMore(pages, i, seen);
      if page.id in seen || !IsPage(page) {
        PrefixOfPages(pages, i + 1);
        return Some(PageFault(page.id)), chunks, ids, members;
      }
      seen := seen + {page.id};
      ghost var before := members;
      chunks, ids, members := AddPage(page, chunks, ids, members);
      MembersAfterPage(upTo, i, before, members);
    }
    assert pages[..|pages|] == pages;
    fault := None;
  }

  /** The gold key of a query that passes every check, and None for any other. */
  method CheckQuery(q: Query, chunks: ChunkTable, members: map<GroupId, seq<ChunkId>>, ghost pages: seq<Page>)
    returns (gold: Option<seq<Graded>>)
    requires ArePages(pages) && chunks == ChunksOf(pages) && AreMembers(pages, chunks, members)
    ensures gold == if IsAnswerable(q, chunks) then Some(GoldKey(q)) else None
  {
    if !IsAudited(q) || !HasGrant(q) {
      return None;
    }
    var answered, answers := CheckAnswers(q, chunks);
    if !answered {
      return None;
    }
    var supported, graded := CheckSupport(q, chunks, answers);
    if !supported {
      return None;
    }
    forall group, id | IsMember(chunks, group, id) ensures IsGroup(pages, group) {
      MembersHaveGroups(pages, group, id);
    }
    var required := CheckRequirement(q, chunks, members, pages);
    if !required {
      return None;
    }
    gold := Some(graded);
  }

  /** Each query under its id, with its gold key, and nothing else. */
  ghost predicate AreIndexed(queries: seq<Query>, byId: map<QueryId, Query>, gold: map<QueryId, seq<Graded>>) {
    && (forall i :: 0 <= i < |queries| ==> IsIndexed(queries[i], byId, gold))
    && (forall id :: id in byId ==> HasQuery(queries, id))
    && byId.Keys == gold.Keys
  }

  ghost predicate IsIndexed(q: Query, byId: map<QueryId, Query>, gold: map<QueryId, seq<Graded>>) {
    q.id in byId && byId[q.id] == q && q.id in gold && gold[q.id] == GoldKey(q)
  }

  ghost predicate HasQuery(queries: seq<Query>, id: QueryId) {
    exists i :: 0 <= i < |queries| && queries[i].id == id
  }

  lemma IndexOneMore(queries: seq<Query>, n: nat, byId: map<QueryId, Query>, gold: map<QueryId, seq<Graded>>)
    requires n < |queries| && queries[n].id !in byId && AreIndexed(queries[..n], byId, gold)
    ensures AreIndexed(queries[..n + 1], byId[queries[n].id := queries[n]], gold[queries[n].id := GoldKey(queries[n])])
    ensures forall i :: 0 <= i < n ==> queries[i].id != queries[n].id
  {
    var q := queries[n];
    var upTo := queries[..n + 1];
    var byId' := byId[q.id := q];
    var gold' := gold[q.id := GoldKey(q)];
    forall i | 0 <= i < n ensures IsIndexed(upTo[i], byId', gold') && queries[i].id != q.id {
      assert upTo[i] == queries[..n][i];
      assert IsIndexed(queries[..n][i], byId, gold);
    }
    forall id | id in byId' ensures HasQuery(upTo, id) {
      if id in byId {
        var i :| 0 <= i < n && queries[..n][i].id == id;
        assert upTo[i].id == id;
      } else {
        assert upTo[n].id == id;
      }
    }
  }

  lemma AnIndexedIdIsTaken(queries: seq<Query>, n: nat, byId: map<QueryId, Query>, gold: map<QueryId, seq<Graded>>)
    requires n < |queries| && queries[n].id in byId && AreIndexed(queries[..n], byId, gold)
    ensures !HaveDistinctIds(queries)
  {
    assert HasQuery(queries[..n], queries[n].id);
    var i :| 0 <= i < n && queries[..n][i].id == queries[n].id;
    assert queries[i].id == queries[n].id;
  }

  ghost predicate HaveDistinctIds(queries: seq<Query>) {
    forall i, j :: 0 <= i < j < |queries| ==> queries[i].id != queries[j].id
  }

  ghost predicate AreAnswerable(queries: seq<Query>, chunks: ChunkTable) {
    forall i :: 0 <= i < |queries| ==> IsAnswerable(queries[i], chunks)
  }

  lemma LoadableOneMore(queries: seq<Query>, n: nat, chunks: ChunkTable)
    requires n < |queries| && HaveDistinctIds(queries[..n]) && AreAnswerable(queries[..n], chunks)
    requires (forall i :: 0 <= i < n ==> queries[i].id != queries[n].id) && IsAnswerable(queries[n], chunks)
    ensures HaveDistinctIds(queries[..n + 1]) && AreAnswerable(queries[..n + 1], chunks)
  {
    var upTo := queries[..n + 1];
    assert upTo[n] == queries[n] && forall i :: 0 <= i < n ==> upTo[i] == queries[..n][i] == queries[i];
  }

  lemma AnUnanswerableQuery(queries: seq<Query>, n: nat, chunks: ChunkTable)
    requires n < |queries| && !IsAnswerable(queries[n], chunks)
    ensures !AreAnswerable(queries, chunks)
  {
  }

  method LoadQueries(queries: seq<Query>, chunks: ChunkTable, members: map<GroupId, seq<ChunkId>>,
      ghost pages: seq<Page>)
    returns (fault: Option<CorpusFault>, byId: map<QueryId, Query>, gold: map<QueryId, seq<Graded>>)
    requires ArePages(pages) && chunks == ChunksOf(pages) && AreMembers(pages, chunks, members)
    ensures fault.None? <==> HaveDistinctIds(queries) && AreAnswerable(queries, chunks)
    ensures fault.None? ==> AreIndexed(queries, byId, gold)
  {
    byId, gold := map[], map[];
    for i := 0 to |queries|
      invariant HaveDistinctIds(queries[..i])
      invariant AreAnswerable(queries[..i], chunks)
      invariant AreIndexed(queries[..i], byId, gold)
    {
      var q := queries[i];
      if q.id in byId {
        AnIndexedIdIsTaken(queries, i, byId, gold);
        return Some(QueryFault(q.id)), byId, gold;
      }
      var graded := CheckQuery(q, chunks, members, pages);
      if graded.None? {
        AnUnanswerableQuery(queries, i, chunks);
        return Some(QueryFault(q.id)), byId, gold;
      }
      IndexOneMore(queries, i, byId, gold);
      LoadableOneMore(queries, i, chunks);
      byId := byId[q.id := q];
      gold := gold[q.id := graded.value];
    }
    assert queries[..|queries|] == queries;
    fault := None;
  }

  method ProbedGroups(queries: seq<Query>) returns (probed: set<GroupId>)
    ensures forall group :: group in probed <==> IsProbed(queries, group)
  {
    probed := {};
    for i := 0 to |queries|
      invariant forall group :: group in probed <==> IsProbed(queries[..i], group)
    {
      ghost var before := probed;
      if queries[i].requiredGroups.Some? {
        probed := probed + set group | group in queries[i].requiredGroups.value;
      }
      forall group ensures group in probed <==> IsProbed(queries[..i + 1], group) {
        ProbedSoFar(queries, i, group);
      }
    }
    assert queries[..|queries|] == queries;
  }

  /** `buildCorpus`: a corpus exactly when every check passes. */
  method BuildCorpus(input: CorpusInput) returns (r: Result<Corpus, CorpusFault>)
    ensures r.Ok? <==> IsAcceptable(input)
    ensures r.Ok? ==> IsBuiltFrom(r.value, input)
  {
    var fault, chunks, ids, members := LoadPages(input.pages);
    if fault.Some? {
      return Err(fault.value);
    }
    if chunks == map[] {
      return Err(NoChunks);
    }
    var queryFault, byId, gold := LoadQueries(input.queries, chunks, members, input.pages);
    if queryFault.Some? {
      return Err(queryFault.value);
    }
    var probed := ProbedGroups(input.queries);
    var unprobed := members.Keys - probed;
    if unprobed != {} {
      var group :| group in unprobed;
      assert IsGroup(input.pages, group) && !IsProbed(input.queries, group);
      return Err(UnprobedGroup(group));
    }
    if !HasDeletedPage(input.pages) {
      return Err(NoDeletedPage);
    }
    if !HasQuarantinedPage(input.pages) {
      return Err(NoQuarantinedPage);
    }
    forall group | IsGroup(input.pages, group) ensures IsProbed(input.queries, group) {
      assert group in members && group !in unprobed;
    }
    r := Ok(Corpus(chunks, ids, input.queries, byId, gold));
  }

  lemma ProbedSoFar(queries: seq<Query>, i: nat, group: GroupId)
    requires i < |queries|
    ensures IsProbed(queries[..i + 1], group) <==>
      IsProbed(queries[..i], group) || (queries[i].requiredGroups.Some? && group in queries[i].requiredGroups.value)
  {
    var upTo := queries[..i + 1];
    if IsProbed(queries[..i], group) {
      var k :| 0 <= k < i && queries[..i][k].requiredGroups.Some? && group in queries[..i][k].requiredGroups.value;
      assert upTo[k] == queries[..i][k];
    }
    if queries[i].requiredGroups.Some? && group in queries[i].requiredGroups.value {
      assert upTo[i] == queries[i];
    }
    if IsProbed(upTo, group) {
      var k :| 0 <= k < |upTo| && upTo[k].requiredGroups.Some? && group in upTo[k].requiredGroups.value;
      if k < i {
        assert queries[..i][k] == upTo[k];
      }
    }
  }

  // -------------------------------------------------------------------------
  // The visibility cache.
  // -------------------------------------------------------------------------

  lemma {:induction false} KeepDependsOnTheTest<T>(s: seq<T>, p: T -> bool, q: T -> bool)
    requires forall x :: x in s ==> (p(x) <==> q(x))
    ensures Keep(s, p) == Keep(s, q)
  {
    if s != [] {
      assert s == s[..|s| - 1] + [s[|s| - 1]];
      KeepDependsOnTheTest(s[..|s| - 1], p, q);
    }
  }

  /** The order in which a credential lists its origins is immaterial. */
  lemma GrantOrderIsImmaterial(c: Corpus, a: seq<Origin>, b: seq<Origin>)
    requires multiset(a) == multiset(b)
    ensures c.Visible(a) == c.Visible(b)
  {
    forall origin ensures origin in a <==> origin in b {
      assert origin in a <==> origin in multiset(a);
      assert origin in b <==> origin in multiset(b);
    }
    KeepDependsOnTheTest(c.chunkIds, Sees(c.chunks, a), Sees(c.chunks, b));
  }

  /** `visibleTo`, memoised under the sorted grant; a multiset stands for the sorted list. */
  class VisibilityView {
    const corpus: Corpus
    var cache: map<multiset<Origin>, seq<ChunkId>>

    ghost predicate Valid()
      reads this
    {
      forall grant: seq<Origin> :: multiset(grant) in cache ==> cache[multiset(grant)] == corpus.Visible(grant)
    }

    constructor (corpus: Corpus)
      ensures Valid() && this.corpus == corpus
    {
      this.corpus := corpus;
      cache := map[];
    }

    /** None: the code refuses an empty grant. */
    method VisibleTo(grant: seq<Origin>) returns (visible: Option<seq<ChunkId>>)
      requires Valid()
      modifies this
      ensures Valid()
      ensures visible == if grant == [] then None else Some(corpus.Visible(grant))
    {
      if |grant| == 0 {
        return None;
      }
      var key := multiset(grant);
      if key in cache {
        return Some(cache[key]);
      }
      var found := corpus.Visible(grant);
      forall other: seq<Origin> | multiset(other) == key ensures corpus.Visible(other) == found {
        GrantOrderIsImmaterial(corpus, other, grant);
      }
      cache := cache[key := found];
      visible := Some(found);
    }
  }

  // -------------------------------------------------------------------------
  // The oracle of evals/baselines.ts.
  // -------------------------------------------------------------------------

  const RESULT_LIMIT: nat := 50

  const NDCG_CUTOFF: nat := 10

  predicate StringAtMost(a: string, b: string) {
    a == "" || (b != "" && (a[0] < b[0] || (a[0] == b[0] && StringAtMost(a[1..], b[1..]))))
  }

  lemma {:induction false} StringsCompare(a: string, b: string)
    ensures StringAtMost(a, b) || StringAtMost(b, a)
    ensures StringAtMost(a, b) && StringAtMost(b, a) ==> a == b
  {
    if a != "" && b != "" && a[0] == b[0] {
      StringsCompare(a[1..], b[1..]);
      assert a == [a[0]] + a[1..] && b == [b[0]] + b[1..];
    }
  }

  lemma {:induction false} StringsChain(a: string, b: string, c: string)
    requires StringAtMost(a, b) && StringAtMost(b, c)
    ensures StringAtMost(a, c)
  {
    if a != "" && a[0] == b[0] && b[0] == c[0] {
      StringsChain(a[1..], b[1..], c[1..]);
    }
  }

  /** The first string is a prefix, or has the lesser character at the first difference. */
  predicate IsNoLater(a: string, b: string) {
    a <= b || exists k :: 0 <= k < |a| && k < |b| && a[..k] == b[..k] && a[k] < b[k]
  }

  lemma {:induction false} StringOrderIs(a: string, b: string)
    ensures StringAtMost(a, b) <==> IsNoLater(a, b)
  {
    if a != "" && b != "" {
      if a[0] == b[0] {
        StringOrderIs(a[1..], b[1..]);
        SameStart(a, b);
      } else if a[0] < b[0] {
        assert a[..0] == b[..0];
      }
    }
  }

  lemma SameStart(a: string, b: string)
    requires a != "" && b != "" && a[0] == b[0]
    ensures IsNoLater(a, b) <==> IsNoLater(a[1..], b[1..])
  {
    assert a <= b <==> a[1..] <= b[1..];
    if k :| 0 <= k < |a| && k < |b| && a[..k] == b[..k] && a[k] < b[k] {
      assert a[1..][..k - 1] == a[..k][1..] == b[..k][1..] == b[1..][..k - 1];
      assert a[1..][k - 1] < b[1..][k - 1];
    }
    if k :| 0 <= k < |a[1..]| && k < |b[1..]| && a[1..][..k] == b[1..][..k] && a[1..][k] < b[1..][k] {
      assert a[..k + 1] == [a[0]] + a[1..][..k] == [b[0]] + b[1..][..k] == b[..k + 1];
      assert a[k + 1] < b[k + 1];
    }
  }

  /** By grade, best first, then by id. */
  predicate Precedes(a: Graded, b: Graded) {
    a.grade > b.grade || (a.grade == b.grade && StringAtMost(a.id, b.id))
  }

  function SortGraded(gold: seq<Graded>): seq<Graded> {
    SortBy(gold, Precedes)
  }

  /** `goldOracle.rank`: the gold key in its own best order. */
  function GoldOracle(gold: seq<Graded>): seq<ChunkId> {
    var sorted := SortGraded(gold);
    seq(Min(RESULT_LIMIT, |sorted|), i requires 0 <= i < Min(RESULT_LIMIT, |sorted|) => sorted[i].id)
  }

  lemma SortGradedShape(gold: seq<Graded>, t: int)
    ensures IsDescending(Grades(SortGraded(gold)))
    ensures multiset(SortGraded(gold)) == multiset(gold)
    ensures CountFrom(Grades(SortGraded(gold)), t) == CountFrom(Grades(gold), t)
  {
    var grade := (g: Graded) => g.grade;
    SortByKeeps(gold, Precedes);
    SortByOrders(gold, Precedes, grade);
    SortByCounts(gold, Precedes, grade, t);
    assert Grades(gold) == Each(gold, grade) && Grades(SortGraded(gold)) == Each(SortGraded(gold), grade);
  }

  lemma {:induction false} PermutedKeysStayDistinct(a: seq<Graded>, b: seq<Graded>)
    requires multiset(a) == multiset(b) && IsGoldKey(a)
    ensures IsGoldKey(b) && |a| == |b|
  {
    assert |multiset(a)| == |a| && |multiset(b)| == |b|;
    forall i, j | 0 <= i < j < |b| ensures b[i].id != b[j].id {
      assert b == b[..i] + [b[i]] + b[i + 1..j] + [b[j]] + b[j + 1..];
      assert b[i] in multiset(a) && b[j] in multiset(a);
      if b[i] == b[j] {
        assert multiset(b)[b[i]] >= 2;
        TwiceInASequence(a, b[i]);
      }
    }
  }

  lemma {:induction false} TwiceInASequence(a: seq<Graded>, x: Graded)
    requires multiset(a)[x] >= 2
    ensures exists i, j :: 0 <= i < j < |a| && a[i] == x && a[j] == x
  {
    assert a == [a[0]] + a[1..];
    if a[0] == x {
      assert x in multiset(a[1..]);
      var j :| 0 <= j < |a[1..]| && a[1..][j] == x;
      assert a[0] == x && a[j + 1] == x;
    } else {
      TwiceInASequence(a[1..], x);
      var i, j :| 0 <= i < j < |a[1..]| && a[1..][i] == x && a[1..][j] == x;
      assert a[i + 1] == x && a[j + 1] == x;
    }
  }

  /** What a passing query makes of its gold key. */
  lemma GoldKeysAreSound(q: Query, chunks: ChunkTable)
    requires IsRecord(q.supporting) && IsAnswerable(q, chunks)
    ensures IsGoldKey(GoldKey(q)) && HasGrades(GoldKey(q))
    ensures forall g :: g in GoldKey(q) ==> IsVisible(chunks, q.grant, g.id) && (g.grade == 3 <==> g.id in q.answers)
  {
    var gold := GoldKey(q);
    forall i, j | 0 <= i < j < |gold| ensures gold[i].id != gold[j].id {
      if i < |q.answers| <= j {
        assert gold[j] == q.supporting[j - |q.answers|];
        assert gold[i].id in q.answers;
      } else if |q.answers| <= i {
        assert gold[i] == q.supporting[i - |q.answers|] && gold[j] == q.supporting[j - |q.answers|];
      }
    }
    forall g | g in gold ensures IsVisible(chunks, q.grant, g.id) && (g.grade == 3 <==>
      g.id in q.answers) && IsGrade(g.grade) {
      var i :| 0 <= i < |gold| && gold[i] == g;
      if i < |q.answers| {
        assert g.id == q.answers[i];
      } else {
        assert g == q.supporting[i - |q.answers|];
      }
    }
    forall i | 0 <= i < |gold| ensures IsGrade(gold[i].grade) {
      assert gold[i] in gold;
    }
  }

  /** Two descending gradings that reach each grade equally often earn the same. */
  lemma EqualCountsEarnTheSame(d: nat -> real, a: seq<int>, b: seq<int>, k: nat)
    requires IsDiscount(d) && IsDescending(a) && IsDescending(b)
    requires AreGradesOrZero(a) && AreGradesOrZero(b)
    requires CountFrom(a, 1) == CountFrom(b, 1) && CountFrom(a, 2) == CountFrom(b, 2) && CountFrom(a, 3) ==
      CountFrom(b, 3)
    ensures Dcg(d, Padded(a, k), k) == Dcg(d, Padded(b, k), k)
  {
    DcgByThreshold(d, Padded(a, k), k);
    DcgByThreshold(d, Padded(b, k), k);
    DescendingHits(d, a, 1, k);
    DescendingHits(d, a, 2, k);
    DescendingHits(d, a, 3, k);
    DescendingHits(d, b, 1, k);
    DescendingHits(d, b, 2, k);
    DescendingHits(d, b, 3, k);
  }

  lemma DescendingHits(d: nat -> real, a: seq<int>, t: int, k: nat)
    requires IsDiscount(d) && IsDescending(a) && AreGradesOrZero(a) && t >= 1
    ensures Hits(d, Padded(a, k), t, k) == Front(d, Min(k, CountFrom(a, t)))
  {
    PaddedCounts(a, t, k);
    DescendingIsFrontLoaded(Padded(a, k), t, k);
    FrontIsBest(d, Padded(a, k), t, k);
  }

  /** The oracle's order carries the gold key's own grades, best first. */
  lemma TheOracleRanksByGrade(gold: seq<Graded>)
    requires IsGoldKey(gold) && HasGrades(gold)
    ensures NoRepeats(GoldOracle(gold))
    ensures TopGrades(GoldOracle(gold), gold, NDCG_CUTOFF) == Padded(Grades(SortGraded(gold)), NDCG_CUTOFF)
    ensures forall k :: 0 <= k < |SortGraded(gold)| ==> SortGraded(gold)[k] in gold
  {
    var sorted := SortGraded(gold);
    SortGradedShape(gold, 1);
    PermutedKeysStayDistinct(gold, sorted);
    forall k | 0 <= k < |sorted| ensures sorted[k] in gold && GradeOf(gold, sorted[k].id) == sorted[k].grade {
      assert sorted[k] in multiset(sorted);
      GradeOfEntry(gold, sorted[k].id);
    }
  }

  /** Sorting by grade and id, or by grade alone, earns the same. */
  lemma TheOracleEarnsTheIdeal(d: nat -> real, gold: seq<Graded>)
    requires IsDiscount(d) && IsGoldKey(gold) && HasGrades(gold)
    ensures Ndcg(d, GoldOracle(gold), gold, NDCG_CUTOFF) == 1.0
  {
    var byGrade := SortDescending(Grades(gold));
    var sorted := Grades(SortGraded(gold));
    TheOracleRanksByGrade(gold);
    forall t ensures CountFrom(sorted, t) == CountFrom(byGrade, t) && IsDescending(sorted) && IsDescending(byGrade) {
      SortGradedShape(gold, t);
      SortIsDescendingPermutation(Grades(gold), t);
    }
    IdealShape(gold, |byGrade|);
    SortIsDescendingPermutation(Grades(gold), 0);
    assert byGrade == IdealGrades(gold, |byGrade|);
    forall i | 0 <= i < |sorted| ensures 0 <= sorted[i] <= MAX_GRADE {
      assert SortGraded(gold)[i] in gold;
    }
    EqualCountsEarnTheSame(d, sorted, byGrade, NDCG_CUTOFF);
    IdealIsPositive(d, gold, NDCG_CUTOFF);
    Quotient(Dcg(d, Padded(sorted, NDCG_CUTOFF), NDCG_CUTOFF), Dcg(d, IdealGrades(gold, NDCG_CUTOFF), NDCG_CUTOFF));
  }

  /** A gold key with a top grade has one first. */
  lemma TheOracleLeadsWithAnAnswer(gold: seq<Graded>, best: Graded)
    requires IsGoldKey(gold) && HasGrades(gold) && best in gold && best.grade == MAX_GRADE
    ensures |GoldOracle(gold)| > 0 && Graded(GoldOracle(gold)[0], MAX_GRADE) in gold
  {
    var sorted := SortGraded(gold);
    SortGradedShape(gold, 1);
    TheOracleRanksByGrade(gold);
    assert best in multiset(gold);
    var at :| 0 <= at < |sorted| && sorted[at] == best;
    assert Grades(sorted)[0] >= Grades(sorted)[at];
    assert sorted[0] in gold;
  }

  /**
   * For every query of every corpus the loader accepts, the oracle repeats
   * nothing, stays within the result limit, shows only what the query's own
   * credential may see, scores nDCG@10 = 1 and has an answer at rank 1.
   */
  lemma TheOracleIsPerfect(d: nat -> real, input: CorpusInput, i: nat)
    requires IsDiscount(d) && IsAcceptable(input) && i < |input.queries|
    requires IsRecord(input.queries[i].supporting)
    ensures var q := input.queries[i];
      var gold := GoldKey(q);
      var ranked := GoldOracle(gold);
      && IsGoldKey(gold) && HasGrades(gold)
      && NoRepeats(ranked) && |ranked| <= RESULT_LIMIT
      && (forall k :: 0 <= k < |ranked| ==> IsVisible(ChunksOf(input.pages), q.grant, ranked[k]))
      && Ndcg(d, ranked, gold, NDCG_CUTOFF) == 1.0
      && IsHit(ranked, q.answers, 1)
  {
    var q := input.queries[i];
    var gold := GoldKey(q);
    assert IsAnswerable(q, ChunksOf(input.pages));
    GoldKeysAreSound(q, ChunksOf(input.pages));
    TheOracleRanksByGrade(gold);
    TheOracleEarnsTheIdeal(d, gold);
    assert gold[0] == Graded(q.answers[0], 3);
    TheOracleLeadsWithAnAnswer(gold, gold[0]);
    assert GoldOracle(gold)[0] in q.answers;
  }
}
