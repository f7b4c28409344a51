/**
 * What `buildCorpus` of `evals/corpus.ts` refuses a corpus for, read off the
 * pages and queries it is given.
 */
module CorpusRules {
  import opened Prelude
  import opened Metrics
  import opened Corpora

  // -------------------------------------------------------------------------
  // Pages.
  // -------------------------------------------------------------------------

  /** A small letter, a digit or a hyphen. */
  predicate IsSlugCharacter(c: char) {
    97 <= c as int <= 122 || 48 <= c as int <= 57 || c as int == 45
  }

  predicate IsMisnamed(id: PageId) {
    |id| < 3 || id[0] != 'p' || id[1] != '-' || exists i :: 2 <= i < |id| && !IsSlugCharacter(id[i])
  }

  predicate SaysSomething(text: string) {
    exists i :: 0 <= i < |text| && !IsSpace(text[i])
  }

  predicate IsDate(s: string) {
    && |s| == 10 && s[4] == '-' && s[7] == '-'
    && forall i :: 0 <= i < 10 && i != 4 && i != 7 ==> 48 <= s[i] as int <= 57
  }

  predicate PageIsRefused(page: Page) {
    || IsMisnamed(page.id) || page.sourceType !in SOURCE_TYPES || page.origin !in ORIGIN_CONTEXTS
    || !IsDate(page.createdAt) || !SaysSomething(page.title.text) || page.paragraphs == []
    || exists n :: 0 <= n < |page.paragraphs| && !SaysSomething(page.paragraphs[n].text)
  }

  lemma PagesAreRefusedIff(page: Page)
    ensures PageIsRefused(page) <==> !IsPage(page)
  {
    MisnamedIff(page.id);
    DatesAreIso(page.createdAt);
    forall n | 0 <= n < |page.paragraphs|
      ensures SaysSomething(page.paragraphs[n].text) <==> !IsBlank(page.paragraphs[n].text) {
    }
  }

  lemma MisnamedIff(id: PageId)
    ensures IsMisnamed(id) <==> !IsPageId(id)
  {
    if |id| >= 3 {
      assert id[..2] == [id[0], id[1]];
    }
  }

  lemma DatesAreIso(s: string)
    ensures IsDate(s) <==> IsIsoDate(s)
  {
  }

  // -------------------------------------------------------------------------
  // What a query can be shown.
  // -------------------------------------------------------------------------

  /** `n` is the number the id gives after the id of its page. */
  predicate IsNumbered(page: Page, n: nat, id: ChunkId) {
    id == page.id + "#" + Decimal(n)
  }

  /** The page can be shown: it is neither deleted nor quarantined, and is granted. */
  predicate IsGranted(page: Page, grant: seq<Origin>) {
    !page.deleted && !page.quarantined && page.origin in grant
  }

  ghost predicate IsOn(page: Page, id: ChunkId) {
    exists n: nat :: n < |page.paragraphs| && IsNumbered(page, n, id)
  }

  ghost predicate IsShown(pages: seq<Page>, grant: seq<Origin>, id: ChunkId) {
    exists p :: 0 <= p < |pages| && IsOn(pages[p], id) && IsGranted(pages[p], grant)
  }

  lemma {:induction false} ChunkIdsAreNumbered(page: Page, n: nat, id: ChunkId)
    ensures IsChunkId(page, n, id) <==> exists k: nat :: k < n && IsNumbered(page, k, id)
  {
    if n > 0 {
      ChunkIdsAreNumbered(page, n - 1, id);
      if id == ChunkIdFor(page.id, n - 1) {
        assert IsNumbered(page, n - 1, id);
      }
    }
  }

  lemma DeclaredByAParagraph(pages: seq<Page>, p: int, id: ChunkId)
    requires 0 <= p < |pages|
    ensures Declares(pages, p, id) <==> IsOn(pages[p], id)
  {
    ChunkIdsAreNumbered(pages[p], |pages[p].paragraphs|, id);
  }

  /** What the chunk table holds for the id of a paragraph, and that it holds nothing else. */
  lemma ChunksAreParagraphs(pages: seq<Page>, id: ChunkId)
    requires ArePages(pages)
    ensures id in ChunksOf(pages) <==> exists p :: 0 <= p < |pages| && IsOn(pages[p], id)
    ensures forall p :: 0 <= p < |pages| && IsOn(pages[p], id) ==>
      id in ChunksOf(pages) && IsFrom(ChunksOf(pages)[id], pages[p])
  {
    ChunksComeFromPages(pages, id);
    forall p | 0 <= p < |pages| ensures Declares(pages, p, id) <==> IsOn(pages[p], id) {
      DeclaredByAParagraph(pages, p, id);
    }
  }

  /** A query may be shown exactly the paragraphs of the live pages it is granted. */
  lemma ShownIsVisible(pages: seq<Page>, grant: seq<Origin>, id: ChunkId)
    requires ArePages(pages)
    ensures IsVisible(ChunksOf(pages), grant, id) <==> IsShown(pages, grant, id)
  {
    ChunksAreParagraphs(pages, id);
  }

  /** An answer or a supporting chunk of the query. */
  predicate IsNamed(q: Query, id: ChunkId) {
    id in q.answers || exists i :: 0 <= i < |q.supporting| && q.supporting[i].id == id
  }

  /** A page of the group that the query can be shown has a paragraph it names. */
  ghost predicate IsReached(pages: seq<Page>, q: Query, group: GroupId) {
    exists p, id :: 0 <= p < |pages| && IsReachedOn(pages[p], q, group, id)
  }

  ghost predicate IsReachedOn(page: Page, q: Query, group: GroupId, id: ChunkId) {
    page.dupGroup == Some(group) && IsGranted(page, q.grant) && IsOn(page, id) && IsNamed(q, id)
  }

  lemma ReachedIsReachable(pages: seq<Page>, q: Query, group: GroupId)
    requires ArePages(pages)
    ensures IsReachable(q, ChunksOf(pages), group) <==> IsReached(pages, q, group)
  {
    var chunks := ChunksOf(pages);
    if IsReachable(q, chunks, group) {
      var id :| IsMember(chunks, group, id) && IsVisible(chunks, q.grant, id) && IsGraded(q, id);
      ChunksAreParagraphs(pages, id);
      var p :| 0 <= p < |pages| && IsOn(pages[p], id);
      assert IsReachedOn(pages[p], q, group, id);
    }
    if IsReached(pages, q, group) {
      var p, id :| 0 <= p < |pages| && IsReachedOn(pages[p], q, group, id);
      ChunksAreParagraphs(pages, id);
      assert IsMember(chunks, group, id) && IsVisible(chunks, q.grant, id) && IsGraded(q, id);
    }
  }

  // -------------------------------------------------------------------------
  // Queries.
  // -------------------------------------------------------------------------

  predicate Repeats<T(==)>(s: seq<T>) {
    exists i, j :: 0 <= i < j < |s| && s[i] == s[j]
  }

  ghost predicate AnswersAreRefused(pages: seq<Page>, q: Query) {
    || q.answers == [] || Repeats(q.answers)
    || exists i :: 0 <= i < |q.answers| && !IsShown(pages, q.grant, q.answers[i])
  }

  ghost predicate SupportIsRefused(pages: seq<Page>, q: Query) {
    exists i :: 0 <= i < |q.supporting| &&
      (|| (q.supporting[i].grade != 1 && q.supporting[i].grade != 2)
       || q.supporting[i].id in q.answers || !IsShown(pages, q.grant, q.supporting[i].id))
  }

  ghost predicate RequirementIsRefused(pages: seq<Page>, q: Query) {
    if q.family != Dilution then q.requiredGroups != None
    else
      || q.requiredGroups == None || |q.requiredGroups.value| < 2 || Repeats(q.requiredGroups.value)
      || exists g :: 0 <= g < |q.requiredGroups.value| && !IsReached(pages, q, q.requiredGroups.value[g])
  }

  predicate FormIsRefused(q: Query) {
    || !SaysSomething(q.text.text) || |Trim(q.evidence)| < 40
    || q.mechanisms == [] || Repeats(q.mechanisms)
    || q.grant == [] || Repeats(q.grant) || exists i :: 0 <= i < |q.grant| && q.grant[i] !in ORIGIN_CONTEXTS
  }

  ghost predicate QueryIsRefused(pages: seq<Page>, q: Query) {
    FormIsRefused(q) || AnswersAreRefused(pages, q) || SupportIsRefused(pages, q) || RequirementIsRefused(pages, q)
  }

  lemma FormIsRefusedIff(q: Query)
    ensures FormIsRefused(q) <==> !(IsAudited(q) && HasGrant(q))
  {
    assert forall i :: 0 <= i < |q.grant| ==> q.grant[i] in q.grant;
  }

  lemma AnswersAreRefusedIff(pages: seq<Page>, q: Query)
    requires ArePages(pages)
    ensures AnswersAreRefused(pages, q) <==> !HasAnswers(q, ChunksOf(pages))
  {
    forall i | 0 <= i < |q.answers|
      ensures IsShown(pages, q.grant, q.answers[i]) <==> IsVisible(ChunksOf(pages), q.grant, q.answers[i]) {
      ShownIsVisible(pages, q.grant, q.answers[i]);
    }
  }

  lemma SupportIsRefusedIff(pages: seq<Page>, q: Query)
    requires ArePages(pages)
    ensures SupportIsRefused(pages, q) <==> !HasSupport(q, ChunksOf(pages))
  {
    forall i | 0 <= i < |q.supporting|
      ensures IsShown(pages, q.grant, q.supporting[i].id)
        <==> IsVisible(ChunksOf(pages), q.grant, q.supporting[i].id) {
      ShownIsVisible(pages, q.grant, q.supporting[i].id);
    }
  }

  lemma RequirementIsRefusedIff(pages: seq<Page>, q: Query)
    requires ArePages(pages)
    ensures RequirementIsRefused(pages, q) <==> !HasRequirement(q, ChunksOf(pages))
  {
    if q.family == Dilution && q.requiredGroups != None {
      var groups := q.requiredGroups.value;
      forall g | 0 <= g < |groups|
        ensures IsReached(pages, q, groups[g]) <==> IsReachable(q, ChunksOf(pages), groups[g]) {
        ReachedIsReachable(pages, q, groups[g]);
      }
    }
  }

  lemma QueriesAreRefusedIff(pages: seq<Page>, q: Query)
    requires ArePages(pages)
    ensures QueryIsRefused(pages, q) <==> !IsAnswerable(q, ChunksOf(pages))
  {
    FormIsRefusedIff(q);
    AnswersAreRefusedIff(pages, q);
    SupportIsRefusedIff(pages, q);
    RequirementIsRefusedIff(pages, q);
  }

  // -------------------------------------------------------------------------
  // The whole input.
  // -------------------------------------------------------------------------

  predicate PagesAreRefused(pages: seq<Page>) {
    || (exists p :: 0 <= p < |pages| && PageIsRefused(pages[p]))
    || exists i, j :: 0 <= i < j < |pages| && pages[i].id == pages[j].id
  }

  ghost predicate QueriesAreRefused(pages: seq<Page>, queries: seq<Query>) {
    || (exists i :: 0 <= i < |queries| && QueryIsRefused(pages, queries[i]))
    || exists i, j :: 0 <= i < j < |queries| && queries[i].id == queries[j].id
  }

  /** A page is in a group that no query requires. */
  predicate HasAnOrphan(pages: seq<Page>, queries: seq<Query>) {
    exists p :: 0 <= p < |pages| && pages[p].dupGroup.Some?
      && forall i :: 0 <= i < |queries| ==>
          queries[i].requiredGroups == None || pages[p].dupGroup.value !in queries[i].requiredGroups.value
  }

  /** No page is in the state, so that it is never exercised. */
  predicate LacksAState(pages: seq<Page>) {
    (forall p :: 0 <= p < |pages| ==> !pages[p].deleted) || (forall p :: 0 <= p < |pages| ==> !pages[p].quarantined)
  }

  ghost predicate InputIsRefused(input: CorpusInput) {
    || input.pages == [] || PagesAreRefused(input.pages) || QueriesAreRefused(input.pages, input.queries)
    || HasAnOrphan(input.pages, input.queries) || LacksAState(input.pages)
  }

  lemma PagesAreFine(pages: seq<Page>)
    ensures PagesAreRefused(pages) <==> !ArePages(pages)
  {
    forall p | 0 <= p < |pages| ensures PageIsRefused(pages[p]) <==> !IsPage(pages[p]) {
      PagesAreRefusedIff(pages[p]);
    }
  }

  lemma QueriesAreFine(pages: seq<Page>, queries: seq<Query>)
    requires ArePages(pages)
    ensures QueriesAreRefused(pages, queries) <==>
      !(HaveDistinctIds(queries) && AreAnswerable(queries, ChunksOf(pages)))
  {
    forall i | 0 <= i < |queries|
      ensures QueryIsRefused(pages, queries[i]) <==> !IsAnswerable(queries[i], ChunksOf(pages)) {
      QueriesAreRefusedIff(pages, queries[i]);
    }
  }

  lemma PagesMakeChunks(pages: seq<Page>)
    requires ArePages(pages)
    ensures ChunksOf(pages) == map[] <==> pages == []
  {
    if pages != [] {
      var id := pages[0].id + "#" + Decimal(0);
      assert IsPage(pages[0]) && IsNumbered(pages[0], 0, id);
      ChunksAreParagraphs(pages, id);
    }
  }

  lemma OrphansAreUnprobed(pages: seq<Page>, queries: seq<Query>)
    ensures HasAnOrphan(pages, queries) <==> !forall group :: IsGroup(pages, group) ==> IsProbed(queries, group)
  {
    if HasAnOrphan(pages, queries) {
      var p :| 0 <= p < |pages| && pages[p].dupGroup.Some?
        && forall i :: 0 <= i < |queries| ==>
            queries[i].requiredGroups == None || pages[p].dupGroup.value !in queries[i].requiredGroups.value;
      assert IsGroup(pages, pages[p].dupGroup.value) && !IsProbed(queries, pages[p].dupGroup.value);
    }
  }

  /**
   * A corpus is refused exactly for these: a misnamed, misdated, blank, empty or
   * repeated page, a query whose form, answers, supporting chunks or required
   * groups are not in order, a group nobody probes, or a state nobody is in.
   */
  lemma WhatIsRefused(input: CorpusInput)
    ensures IsAcceptable(input) <==> !InputIsRefused(input)
  {
    PagesAreFine(input.pages);
    if ArePages(input.pages) {
      QueriesAreFine(input.pages, input.queries);
      PagesMakeChunks(input.pages);
      OrphansAreUnprobed(input.pages, input.queries);
    }
  }

  // -------------------------------------------------------------------------
  // What a chunk shows.
  // -------------------------------------------------------------------------

  lemma {:induction false} NumeralsTellApart(m: nat, n: nat)
    requires Decimal(m) == Decimal(n)
    ensures m == n
  {
    var digits := "0123456789";
    assert |Decimal(m)| >= 1 && |Decimal(n)| >= 1;
    assert Decimal(m)[|Decimal(m)| - 1] == digits[m % 10];
    assert Decimal(n)[|Decimal(n)| - 1] == digits[n % 10];
    DigitsTellApart(m % 10, n % 10);
    if m >= 10 && n >= 10 {
      assert Decimal(m / 10) == Decimal(m)[..|Decimal(m)| - 1] == Decimal(n / 10);
      NumeralsTellApart(m / 10, n / 10);
    }
  }

  lemma DigitsTellApart(a: int, b: int)
    requires 0 <= a < 10 && 0 <= b < 10 && "0123456789"[a] == "0123456789"[b]
    ensures a == b
  {
  }

  lemma {:induction false} AddedChunkShowsItsParagraph(chunks: ChunkTable, page: Page, n: nat, k: nat)
    requires k < n <= |page.paragraphs|
    ensures var id := page.id + "#" + Decimal(k);
      && id in AddChunks(chunks, page, n)
      && AddChunks(chunks, page, n)[id].tokens == page.title.tokens + page.paragraphs[k].tokens
  {
    if k < n - 1 {
      AddedChunkShowsItsParagraph(chunks, page, n - 1, k);
      if ChunkIdFor(page.id, n - 1) == ChunkIdFor(page.id, k) {
        assert Decimal(k) == ChunkIdFor(page.id, k)[|page.id| + 1..];
        assert Decimal(n - 1) == ChunkIdFor(page.id, n - 1)[|page.id| + 1..];
        NumeralsTellApart(n - 1, k);
      }
    }
  }

  /** A chunk shows the title of its page and the one paragraph its id names. */
  lemma {:induction false} ChunksShowTheirParagraphs(pages: seq<Page>, p: nat, k: nat)
    requires ArePages(pages) && p < |pages| && k < |pages[p].paragraphs|
    ensures var id := pages[p].id + "#" + Decimal(k);
      id in ChunksOf(pages) && ChunksOf(pages)[id].tokens == pages[p].title.tokens + pages[p].paragraphs[k].tokens
  {
    var last := |pages| - 1;
    var before := ChunksOf(pages[..last]);
    var id := pages[p].id + "#" + Decimal(k);
    if p == last {
      AddedChunkShowsItsParagraph(before, pages[last], |pages[last].paragraphs|, k);
    } else {
      ChunksShowTheirParagraphs(pages[..last], p, k);
      AddedChunks(before, pages[last], |pages[last].paragraphs|, id);
      if IsChunkId(pages[last], |pages[last].paragraphs|, id) {
        assert IsNumbered(pages[p], k, id);
        ChunkIdsAreNumbered(pages[p], |pages[p].paragraphs|, id);
        ChunkIdsOfOnePage(pages[p], |pages[p].paragraphs|, pages[last], |pages[last].paragraphs|, id);
      }
    }
  }
}
