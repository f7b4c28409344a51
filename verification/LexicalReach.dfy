/**
 * Which gold answers a keyed mechanism could find (`evals/lexical-reach.ts`): the names a text
 * mentions, the keys a chunk carries, and whether the query's evidence singles a chunk out.
 */
module LexicalReach {
  import opened Prelude
  import opened Metrics
  import opened Corpora

  type EntityId = string

  datatype DictionaryEntry = DictionaryEntry(parts: seq<Token>, entity: EntityId)

  datatype Span = Span(start: nat, length: nat)

  // -------------------------------------------------------------------------
  // Leftmost-longest matching.
  // -------------------------------------------------------------------------

  predicate OccursAt(hay: seq<Token>, pos: nat, parts: seq<Token>) {
    pos + |parts| <= |hay| && hay[pos..pos + |parts|] == parts
  }

  /** The length of the longest name that starts at `pos`; 0 when none does. */
  function LongestAt(hay: seq<Token>, pos: nat, dictionary: seq<DictionaryEntry>): nat {
    if dictionary == [] then 0
    else
      var last := dictionary[|dictionary| - 1].parts;
      Max(LongestAt(hay, pos, dictionary[..|dictionary| - 1]), if OccursAt(hay, pos, last) then |last| else 0)
  }

  /** The first entry spelled like this. */
  function Credit(dictionary: seq<DictionaryEntry>, parts: seq<Token>): Option<EntityId> {
    if dictionary == [] then None
    else if dictionary[0].parts == parts then Some(dictionary[0].entity)
    else Credit(dictionary[1..], parts)
  }

  function SpansFrom(hay: seq<Token>, pos: nat, dictionary: seq<DictionaryEntry>): seq<Span>
    decreases |hay| - pos
  {
    if pos >= |hay| then []
    else
      var length := LongestAt(hay, pos, dictionary);
      if length == 0 then SpansFrom(hay, pos + 1, dictionary)
      else [Span(pos, length)] + SpansFrom(hay, pos + length, dictionary)
  }

  function CreditAt(hay: seq<Token>, dictionary: seq<DictionaryEntry>, span: Span): Option<EntityId> {
    if span.start + span.length <= |hay| then Credit(dictionary, hay[span.start..span.start + span.length]) else None
  }

  function EntitiesOf(hay: seq<Token>, dictionary: seq<DictionaryEntry>, spans: seq<Span>): set<EntityId> {
    set i | 0 <= i < |spans| && CreditAt(hay, dictionary, spans[i]).Some? :: CreditAt(hay, dictionary, spans[i]).value
  }

  /** The entities a text mentions. */
  function MentionsOf(hay: seq<Token>, dictionary: seq<DictionaryEntry>): set<EntityId> {
    EntitiesOf(hay, dictionary, SpansFrom(hay, 0, dictionary))
  }

  /** Names as the index keeps them: never empty, longer ones first. */
  predicate IsDictionary(dictionary: seq<DictionaryEntry>) {
    && (forall i :: 0 <= i < |dictionary| ==> dictionary[i].parts != [])
    && forall i, j :: 0 <= i < j < |dictionary| ==> |dictionary[i].parts| >= |dictionary[j].parts|
  }

  lemma {:induction false} LongestIsLongest(hay: seq<Token>, pos: nat, dictionary: seq<DictionaryEntry>)
    ensures forall e :: e in dictionary && OccursAt(hay, pos, e.parts) ==> |e.parts| <= LongestAt(hay, pos, dictionary)
    ensures LongestAt(hay, pos, dictionary) > 0 ==>
      exists e :: e in dictionary && OccursAt(hay, pos, e.parts) && |e.parts| == LongestAt(hay, pos, dictionary)
  {
    if dictionary != [] {
      var before := dictionary[..|dictionary| - 1];
      var last := dictionary[|dictionary| - 1];
      LongestIsLongest(hay, pos, before);
      assert dictionary == before + [last];
      if LongestAt(hay, pos, dictionary) > 0 {
        if LongestAt(hay, pos, before) == LongestAt(hay, pos, dictionary) {
          var e :| e in before && OccursAt(hay, pos, e.parts) && |e.parts| == LongestAt(hay, pos, before);
          assert e in dictionary;
        } else {
          assert last in dictionary && OccursAt(hay, pos, last.parts);
        }
      }
    }
  }

  lemma {:induction false} CreditIsTheFirst(dictionary: seq<DictionaryEntry>, k: nat)
    requires k < |dictionary| && forall j :: 0 <= j < k ==> dictionary[j].parts != dictionary[k].parts
    ensures Credit(dictionary, dictionary[k].parts) == Some(dictionary[k].entity)
  {
    if k > 0 {
      CreditIsTheFirst(dictionary[1..], k - 1);
    }
  }

  method Agrees(hay: seq<Token>, pos: nat, parts: seq<Token>) returns (ok: bool)
    requires pos + |parts| <= |hay|
    ensures ok <==> OccursAt(hay, pos, parts)
  {
    for offset := 0 to |parts|
      invariant forall o :: 0 <= o < offset ==> hay[pos + o] == parts[o]
    {
      if hay[pos + offset] != parts[offset] {
        assert hay[pos..pos + |parts|][offset] != parts[offset];
        return false;
      }
    }
    ok := true;
  }

  /** The first entry that occurs is a longest one, because longer ones come first. */
  method MatchAt(hay: seq<Token>, pos: nat, dictionary: seq<DictionaryEntry>) returns (hit: Option<DictionaryEntry>)
    requires IsDictionary(dictionary)
    ensures hit.None? ==> LongestAt(hay, pos, dictionary) == 0
    ensures hit.Some? ==>
      && OccursAt(hay, pos, hit.value.parts) && |hit.value.parts| == LongestAt(hay, pos, dictionary) > 0
      && Credit(dictionary, hit.value.parts) == Some(hit.value.entity)
  {
    LongestIsLongest(hay, pos, dictionary);
    for i := 0 to |dictionary|
      invariant forall j :: 0 <= j < i ==> !OccursAt(hay, pos, dictionary[j].parts)
    {
      var entry := dictionary[i];
      if pos + |entry.parts| > |hay| {
        continue;
      }
      var ok := Agrees(hay, pos, entry.parts);
      if !ok {
        continue;
      }
      CreditIsTheFirst(dictionary, i);
      forall e | e in dictionary && OccursAt(hay, pos, e.parts) ensures |e.parts| <= |entry.parts| {
        var j :| 0 <= j < |dictionary| && dictionary[j] == e;
      }
      assert entry in dictionary;
      return Some(entry);
    }
    hit := None;
  }

  lemma EntitiesOneMore(hay: seq<Token>, dictionary: seq<DictionaryEntry>, span: Span, spans: seq<Span>)
    ensures EntitiesOf(hay, dictionary, [span] + spans) ==
      EntitiesOf(hay, dictionary, spans)
      + if CreditAt(hay, dictionary, span).Some? then {CreditAt(hay, dictionary, span).value} else {}
  {
    var all := [span] + spans;
    assert forall i :: 0 <= i < |spans| ==> all[i + 1] == spans[i];
    forall id | id in EntitiesOf(hay, dictionary, spans) ensures id in EntitiesOf(hay, dictionary, all) {
      var i :| 0 <= i < |spans| && CreditAt(hay, dictionary, spans[i]) == Some(id);
      assert CreditAt(hay, dictionary, all[i + 1]) == Some(id);
    }
    assert CreditAt(hay, dictionary, all[0]) == CreditAt(hay, dictionary, span);
  }

  lemma SpansFromUnfolds(hay: seq<Token>, dictionary: seq<DictionaryEntry>, pos: nat)
    ensures pos >= |hay| ==> SpansFrom(hay, pos, dictionary) == []
    ensures pos < |hay| && LongestAt(hay, pos, dictionary) == 0 ==>
      SpansFrom(hay, pos, dictionary) == SpansFrom(hay, pos + 1, dictionary)
    ensures pos < |hay| && LongestAt(hay, pos, dictionary) > 0 ==>
      SpansFrom(hay, pos, dictionary) ==
      [Span(pos, LongestAt(hay, pos, dictionary))] + SpansFrom(hay, pos + LongestAt(hay, pos, dictionary), dictionary)
  {
  }

  /** What the tokens from `pos` on mention. */
  function MentionsFrom(hay: seq<Token>, pos: nat, dictionary: seq<DictionaryEntry>): set<EntityId> {
    EntitiesOf(hay, dictionary, SpansFrom(hay, pos, dictionary))
  }

  lemma MentionsWithAHit(hay: seq<Token>, dictionary: seq<DictionaryEntry>, pos: nat, hit: DictionaryEntry)
    requires OccursAt(hay, pos, hit.parts) && |hit.parts| == LongestAt(hay, pos, dictionary) > 0
    requires Credit(dictionary, hit.parts) == Some(hit.entity)
    ensures MentionsFrom(hay, pos, dictionary) ==
      MentionsFrom(hay, pos + |hit.parts|, dictionary) + {hit.entity}
  {
    SpansFromUnfolds(hay, dictionary, pos);
    EntitiesOneMore(hay, dictionary, Span(pos, |hit.parts|), SpansFrom(hay, pos + |hit.parts|, dictionary));
  }

  lemma MentionsWithoutAHit(hay: seq<Token>, dictionary: seq<DictionaryEntry>, pos: nat)
    requires LongestAt(hay, pos, dictionary) == 0
    ensures pos < |hay| ==> MentionsFrom(hay, pos, dictionary) == MentionsFrom(hay, pos + 1, dictionary)
  {
    SpansFromUnfolds(hay, dictionary, pos);
  }

  lemma NothingLeftToMention(hay: seq<Token>, dictionary: seq<DictionaryEntry>, pos: nat)
    requires pos >= |hay|
    ensures MentionsFrom(hay, pos, dictionary) == {}
  {
    SpansFromUnfolds(hay, dictionary, pos);
  }

  /** One turn of the loop: what it adds, and how far it moves. */
  method MentionAt(hay: seq<Token>, pos: nat, dictionary: seq<DictionaryEntry>)
    returns (found: set<EntityId>, next: nat)
    requires IsDictionary(dictionary) && pos < |hay|
    ensures pos < next
    ensures MentionsFrom(hay, pos, dictionary) == MentionsFrom(hay, next, dictionary) + found
  {
    var hit := MatchAt(hay, pos, dictionary);
    if hit.Some? {
      MentionsWithAHit(hay, dictionary, pos, hit.value);
      found, next := {hit.value.entity}, pos + |hit.value.parts|;
    } else {
      MentionsWithoutAHit(hay, dictionary, pos);
      found, next := {}, pos + 1;
    }
  }

  /** `mentions` */
  method Mentions(hay: seq<Token>, dictionary: seq<DictionaryEntry>) returns (found: set<EntityId>)
    requires IsDictionary(dictionary)
    ensures found == MentionsOf(hay, dictionary)
  {
    found := {};
    var position := 0;
    while position < |hay|
      invariant found + MentionsFrom(hay, position, dictionary) == MentionsFrom(hay, 0, dictionary)
      decreases |hay| - position
    {
      var more, next := MentionAt(hay, position, dictionary);
      found := found + more;
      position := next;
    }
    NothingLeftToMention(hay, dictionary, position);
  }

  // -------------------------------------------------------------------------
  // What makes a segmentation leftmost-longest.
  // -------------------------------------------------------------------------

  ghost predicate IsName(dictionary: seq<DictionaryEntry>, parts: seq<Token>) {
    exists e :: e in dictionary && e.parts == parts
  }

  ghost predicate IsCovered(spans: seq<Span>, p: nat) {
    exists i :: 0 <= i < |spans| && spans[i].start <= p < spans[i].start + spans[i].length
  }

  /** A name no longer one starts with. */
  ghost predicate IsLongest(hay: seq<Token>, dictionary: seq<DictionaryEntry>, span: Span) {
    && 0 < span.length && span.start + span.length <= |hay|
    && IsName(dictionary, hay[span.start..span.start + span.length])
    && forall e :: e in dictionary && OccursAt(hay, span.start, e.parts) ==> |e.parts| <= span.length
  }

  /**
   * From `pos` on: disjoint spans in order, each the longest name where it
   * starts, and no name starting at a place they leave uncovered.
   */
  ghost predicate IsLeftmostLongest(hay: seq<Token>, dictionary: seq<DictionaryEntry>, pos: nat, spans: seq<Span>) {
    && (forall i :: 0 <= i < |spans| ==> spans[i].start >= pos && IsLongest(hay, dictionary, spans[i]))
    && (forall i, j :: 0 <= i < j < |spans| ==> spans[i].start + spans[i].length <= spans[j].start)
    && forall p :: pos <= p < |hay| && !IsCovered(spans, p) ==>
        forall e :: e in dictionary ==> e.parts == [] || !OccursAt(hay, p, e.parts)
  }

  lemma TheLongestNameIsLongest(hay: seq<Token>, dictionary: seq<DictionaryEntry>, pos: nat)
    requires LongestAt(hay, pos, dictionary) > 0
    ensures IsLongest(hay, dictionary, Span(pos, LongestAt(hay, pos, dictionary)))
  {
    LongestIsLongest(hay, pos, dictionary);
    var e :| e in dictionary && OccursAt(hay, pos, e.parts) && |e.parts| == LongestAt(hay, pos, dictionary);
    assert e.parts == hay[pos..pos + LongestAt(hay, pos, dictionary)];
  }

  lemma CoveredByOneMore(span: Span, rest: seq<Span>, p: nat)
    ensures IsCovered([span] + rest, p) <==> span.start <= p < span.start + span.length || IsCovered(rest, p)
  {
    var spans := [span] + rest;
    if IsCovered(rest, p) {
      var i :| 0 <= i < |rest| && rest[i].start <= p < rest[i].start + rest[i].length;
      assert spans[i + 1] == rest[i];
    }
    if span.start <= p < span.start + span.length {
      assert spans[0] == span;
    }
    if IsCovered(spans, p) {
      var i :| 0 <= i < |spans| && spans[i].start <= p < spans[i].start + spans[i].length;
      assert i == 0 || spans[i] == rest[i - 1];
    }
  }

  lemma OneSpanMore(hay: seq<Token>, dictionary: seq<DictionaryEntry>, pos: nat, rest: seq<Span>)
    requires LongestAt(hay, pos, dictionary) > 0
    requires IsLeftmostLongest(hay, dictionary, pos + LongestAt(hay, pos, dictionary), rest)
    ensures IsLeftmostLongest(hay, dictionary, pos, [Span(pos, LongestAt(hay, pos, dictionary))] + rest)
  {
    TheLongestNameIsLongest(hay, dictionary, pos);
    forall p: nat ensures IsCovered([Span(pos, LongestAt(hay, pos, dictionary))] + rest, p) <==>
        pos <= p < pos + LongestAt(hay, pos, dictionary) || IsCovered(rest, p) {
      CoveredByOneMore(Span(pos, LongestAt(hay, pos, dictionary)), rest, p);
    }
  }

  lemma OnePositionMore(hay: seq<Token>, dictionary: seq<DictionaryEntry>, pos: nat, spans: seq<Span>)
    requires LongestAt(hay, pos, dictionary) == 0 && IsLeftmostLongest(hay, dictionary, pos + 1, spans)
    ensures IsLeftmostLongest(hay, dictionary, pos, spans)
  {
    LongestIsLongest(hay, pos, dictionary);
  }

  lemma SpansAfterAGap(hay: seq<Token>, dictionary: seq<DictionaryEntry>, pos: nat)
    requires pos < |hay| && LongestAt(hay, pos, dictionary) == 0
    requires IsLeftmostLongest(hay, dictionary, pos + 1, SpansFrom(hay, pos + 1, dictionary))
    ensures IsLeftmostLongest(hay, dictionary, pos, SpansFrom(hay, pos, dictionary))
  {
    OnePositionMore(hay, dictionary, pos, SpansFrom(hay, pos + 1, dictionary));
  }

  lemma SpansAfterAName(hay: seq<Token>, dictionary: seq<DictionaryEntry>, pos: nat)
    requires pos < |hay| && LongestAt(hay, pos, dictionary) > 0
    requires var next := pos + LongestAt(hay, pos, dictionary);
      IsLeftmostLongest(hay, dictionary, next, SpansFrom(hay, next, dictionary))
    ensures IsLeftmostLongest(hay, dictionary, pos, SpansFrom(hay, pos, dictionary))
  {
    OneSpanMore(hay, dictionary, pos, SpansFrom(hay, pos + LongestAt(hay, pos, dictionary), dictionary));
  }

  /** What `mentions` walks is a leftmost-longest segmentation. */
  lemma {:induction false} SpansAreLeftmostLongest(hay: seq<Token>, dictionary: seq<DictionaryEntry>, pos: nat)
    ensures IsLeftmostLongest(hay, dictionary, pos, SpansFrom(hay, pos, dictionary))
    decreases |hay| - pos
  {
    if pos < |hay| {
      var length := LongestAt(hay, pos, dictionary);
      if length == 0 {
        SpansAreLeftmostLongest(hay, dictionary, pos + 1);
        SpansAfterAGap(hay, dictionary, pos);
      } else {
        SpansAreLeftmostLongest(hay, dictionary, pos + length);
        SpansAfterAName(hay, dictionary, pos);
      }
    }
  }

  /** And there is no other. */
  lemma {:induction false} LeftmostLongestIsUnique(hay: seq<Token>, dictionary: seq<DictionaryEntry>, pos: nat,
      spans: seq<Span>)
    requires IsLeftmostLongest(hay, dictionary, pos, spans)
    ensures spans == SpansFrom(hay, pos, dictionary)
    decreases |hay| - pos
  {
    SpansFromUnfolds(hay, dictionary, pos);
    if spans != [] {
      SpansNeedRoom(hay, dictionary, pos, spans);
    }
    if pos < |hay| {
      var length := LongestAt(hay, pos, dictionary);
      if length == 0 {
        SkippedPosition(hay, dictionary, pos, spans);
        LeftmostLongestIsUnique(hay, dictionary, pos + 1, spans);
      } else {
        FirstSpan(hay, dictionary, pos, spans);
        TailSpans(hay, dictionary, pos, spans);
        LeftmostLongestIsUnique(hay, dictionary, pos + length, spans[1..]);
        assert spans == [Span(pos, length)] + spans[1..];
      }
    }
  }

  lemma SpansNeedRoom(hay: seq<Token>, dictionary: seq<DictionaryEntry>, pos: nat, spans: seq<Span>)
    requires IsLeftmostLongest(hay, dictionary, pos, spans) && spans != []
    ensures pos < |hay|
  {
    assert IsLongest(hay, dictionary, spans[0]);
  }

  lemma NoNameNoSpan(hay: seq<Token>, dictionary: seq<DictionaryEntry>, pos: nat, span: Span)
    requires LongestAt(hay, pos, dictionary) == 0 && IsLongest(hay, dictionary, span)
    ensures span.start != pos
  {
    LongestIsLongest(hay, pos, dictionary);
    var e :| e in dictionary && e.parts == hay[span.start..span.start + span.length];
    assert OccursAt(hay, span.start, e.parts);
  }

  lemma SkippedPosition(hay: seq<Token>, dictionary: seq<DictionaryEntry>, pos: nat, spans: seq<Span>)
    requires IsLeftmostLongest(hay, dictionary, pos, spans) && LongestAt(hay, pos, dictionary) == 0
    ensures IsLeftmostLongest(hay, dictionary, pos + 1, spans)
  {
    forall i | 0 <= i < |spans| ensures spans[i].start >= pos + 1 {
      assert IsLongest(hay, dictionary, spans[i]);
      NoNameNoSpan(hay, dictionary, pos, spans[i]);
    }
  }

  lemma ANameIsCovered(hay: seq<Token>, dictionary: seq<DictionaryEntry>, pos: nat, spans: seq<Span>)
    requires IsLeftmostLongest(hay, dictionary, pos, spans) && pos < |hay| && LongestAt(hay, pos, dictionary) > 0
    ensures spans != [] && spans[0].start == pos
  {
    LongestIsLongest(hay, pos, dictionary);
    assert IsCovered(spans, pos);
    var i :| 0 <= i < |spans| && spans[i].start <= pos < spans[i].start + spans[i].length;
    assert IsLongest(hay, dictionary, spans[0]) && spans[0].start >= pos;
  }

  lemma LongestSpansAreLongest(hay: seq<Token>, dictionary: seq<DictionaryEntry>, span: Span)
    requires IsLongest(hay, dictionary, span)
    ensures span.length == LongestAt(hay, span.start, dictionary)
  {
    LongestIsLongest(hay, span.start, dictionary);
    var e :| e in dictionary && e.parts == hay[span.start..span.start + span.length];
    assert OccursAt(hay, span.start, e.parts);
  }

  lemma FirstSpan(hay: seq<Token>, dictionary: seq<DictionaryEntry>, pos: nat, spans: seq<Span>)
    requires IsLeftmostLongest(hay, dictionary, pos, spans) && pos < |hay| && LongestAt(hay, pos, dictionary) > 0
    ensures spans != [] && spans[0] == Span(pos, LongestAt(hay, pos, dictionary))
  {
    ANameIsCovered(hay, dictionary, pos, spans);
    LongestSpansAreLongest(hay, dictionary, spans[0]);
  }

  lemma TailSpans(hay: seq<Token>, dictionary: seq<DictionaryEntry>, pos: nat, spans: seq<Span>)
    requires IsLeftmostLongest(hay, dictionary, pos, spans) && spans != [] && spans[0].start == pos
    ensures IsLeftmostLongest(hay, dictionary, pos + spans[0].length, spans[1..])
  {
    forall p: nat ensures IsCovered(spans, p) <==> pos <= p < pos + spans[0].length || IsCovered(spans[1..], p) {
      CoveredByOneMore(spans[0], spans[1..], p);
      assert spans == [spans[0]] + spans[1..];
    }
  }

  /** No two entities share a spelling. */
  predicate IsUnambiguous(dictionary: seq<DictionaryEntry>) {
    forall i, j :: 0 <= i < |dictionary| && 0 <= j < |dictionary| && dictionary[i].parts == dictionary[j].parts ==>
      dictionary[i].entity == dictionary[j].entity
  }

  lemma {:induction false} CreditOfAName(dictionary: seq<DictionaryEntry>, parts: seq<Token>)
    ensures Credit(dictionary, parts).Some? <==> IsName(dictionary, parts)
    ensures Credit(dictionary, parts).Some? ==> DictionaryEntry(parts, Credit(dictionary, parts).value) in dictionary
  {
    if dictionary != [] {
      CreditOfAName(dictionary[1..], parts);
      assert dictionary == [dictionary[0]] + dictionary[1..];
      if IsName(dictionary, parts) && dictionary[0].parts != parts {
        var e :| e in dictionary && e.parts == parts;
        assert e in dictionary[1..];
      }
    }
  }

  /** Being leftmost-longest is about which names there are, not about their order. */
  lemma SameSpans(hay: seq<Token>, a: seq<DictionaryEntry>, b: seq<DictionaryEntry>)
    requires forall e :: e in a <==> e in b
    ensures SpansFrom(hay, 0, a) == SpansFrom(hay, 0, b)
  {
    SpansAreLeftmostLongest(hay, a, 0);
    LeftmostLongestIsUnique(hay, b, 0, SpansFrom(hay, 0, a));
  }

  lemma SameCredit(a: seq<DictionaryEntry>, b: seq<DictionaryEntry>, parts: seq<Token>)
    requires (forall e :: e in a <==> e in b) && IsUnambiguous(a)
    ensures Credit(a, parts) == Credit(b, parts)
  {
    CreditOfAName(a, parts);
    CreditOfAName(b, parts);
    assert IsName(a, parts) <==> IsName(b, parts);
    if IsName(a, parts) {
      assert DictionaryEntry(parts, Credit(a, parts).value) in a;
      assert DictionaryEntry(parts, Credit(b, parts).value) in a;
    }
  }

  /** When names are unambiguous, the order the sort leaves equally long ones in does not show. */
  lemma TieOrderIsImmaterial(hay: seq<Token>, a: seq<DictionaryEntry>, b: seq<DictionaryEntry>)
    requires (forall e :: e in a <==> e in b) && IsUnambiguous(a)
    ensures MentionsOf(hay, a) == MentionsOf(hay, b)
  {
    SameSpans(hay, a, b);
    var spans := SpansFrom(hay, 0, a);
    forall i | 0 <= i < |spans| ensures CreditAt(hay, a, spans[i]) == CreditAt(hay, b, spans[i]) {
      if spans[i].start + spans[i].length <= |hay| {
        SameCredit(a, b, hay[spans[i].start..spans[i].start + spans[i].length]);
      }
    }
  }

  // -------------------------------------------------------------------------
  // The dictionary and the index.
  // -------------------------------------------------------------------------

  /** An entity: its canonical name and aliases, and its slug, as tokens. */
  datatype Entity = Entity(id: EntityId, names: seq<seq<Token>>, slug: seq<Token>)

  datatype Fact = Fact(statement: seq<Token>, sources: seq<ChunkId>)

  datatype Edge = Edge(subject: EntityId, target: EntityId, edgeType: string)

  /** What the corpus knows besides its chunks, and the function words keys ignore. */
  datatype Knowledge = Knowledge(entities: seq<Entity>, facts: seq<Fact>, edges: seq<Edge>, stopwords: set<Token>)

  /** A JavaScript Map holds one entity per id. */
  predicate AreKeyed(entities: seq<Entity>) {
    forall i, j :: 0 <= i < j < |entities| ==> entities[i].id != entities[j].id
  }

  function EntriesOf(id: EntityId, names: seq<seq<Token>>): seq<DictionaryEntry> {
    if names == [] then []
    else
      var last := names[|names| - 1];
      EntriesOf(id, names[..|names| - 1]) + if last == [] then [] else [DictionaryEntry(last, id)]
  }

  function AllEntries(entities: seq<Entity>): seq<DictionaryEntry> {
    if entities == [] then []
    else
      var last := entities[|entities| - 1];
      AllEntries(entities[..|entities| - 1]) + EntriesOf(last.id, last.names)
  }

  function Joined(parts: seq<Token>): string {
    if parts == [] then "" else if |parts| == 1 then parts[0] else parts[0] + " " + Joined(parts[1..])
  }

  /** Longer names first, then by spelling. */
  predicate EntryPrecedes(a: DictionaryEntry, b: DictionaryEntry) {
    |a.parts| > |b.parts| || (|a.parts| == |b.parts| && StringAtMost(Joined(a.parts), Joined(b.parts)))
  }

  function DictionaryOf(entities: seq<Entity>): seq<DictionaryEntry> {
    SortBy(AllEntries(entities), EntryPrecedes)
  }

  lemma {:induction false} EntriesAreNamed(id: EntityId, names: seq<seq<Token>>)
    ensures forall e :: e in EntriesOf(id, names) ==> e.parts != []
  {
    if names != [] {
      EntriesAreNamed(id, names[..|names| - 1]);
    }
  }

  lemma {:induction false} AllEntriesAreNamed(entities: seq<Entity>)
    ensures forall e :: e in AllEntries(entities) ==> e.parts != []
  {
    if entities != [] {
      AllEntriesAreNamed(entities[..|entities| - 1]);
      EntriesAreNamed(entities[|entities| - 1].id, entities[|entities| - 1].names);
    }
  }

  /** The sort is what makes the first match a longest one. */
  lemma TheIndexIsADictionary(entities: seq<Entity>)
    ensures IsDictionary(DictionaryOf(entities))
    ensures forall e :: e in DictionaryOf(entities) <==> e in AllEntries(entities)
  {
    var entries := AllEntries(entities);
    var size := (e: DictionaryEntry) => |e.parts|;
    AllEntriesAreNamed(entities);
    SortByKeeps(entries, EntryPrecedes);
    SortByOrders(entries, EntryPrecedes, size);
    var sorted := SortBy(entries, EntryPrecedes);
    forall e ensures e in sorted <==> e in entries {
      assert e in sorted <==> e in multiset(sorted);
    }
    forall i, j | 0 <= i < j < |sorted| ensures |sorted[i].parts| >= |sorted[j].parts| {
      assert size(sorted[i]) >= size(sorted[j]);
    }
  }

  lemma EntryPrecedesIsATotalOrder()
    ensures IsTotalOrder(EntryPrecedes)
  {
    forall a: DictionaryEntry, b: DictionaryEntry ensures EntryPrecedes(a, b) || EntryPrecedes(b, a) {
      StringsCompare(Joined(a.parts), Joined(b.parts));
    }
    forall a, b, c | EntryPrecedes(a, b) && EntryPrecedes(b, c) ensures EntryPrecedes(a, c) {
      if |a.parts| == |b.parts| == |c.parts| {
        StringsChain(Joined(a.parts), Joined(b.parts), Joined(c.parts));
      }
    }
  }

  /** The key of a name: its words, with a space between any two. */
  lemma KeysAreSpaced(first: Token, rest: seq<Token>)
    ensures Joined([first]) == first
    ensures rest != [] ==> Joined([first] + rest) == first + " " + Joined(rest)
  {
    assert ([first] + rest)[1..] == rest;
  }

  /** Names of one length are in the order of their keys. */
  lemma EquallyLongNamesAreAlphabetical(entities: seq<Entity>, i: nat, j: nat)
    requires i < j < |DictionaryOf(entities)|
    requires |DictionaryOf(entities)[i].parts| == |DictionaryOf(entities)[j].parts|
    ensures IsNoLater(Joined(DictionaryOf(entities)[i].parts), Joined(DictionaryOf(entities)[j].parts))
  {
    EntryPrecedesIsATotalOrder();
    SortBySorts(AllEntries(entities), EntryPrecedes);
    assert EntryPrecedes(DictionaryOf(entities)[i], DictionaryOf(entities)[j]);
    StringOrderIs(Joined(DictionaryOf(entities)[i].parts), Joined(DictionaryOf(entities)[j].parts));
  }

  /** Every token that spells an entity, by name or by slug. */
  function SpelledBy(entity: Entity): set<Token> {
    (set i, token | 0 <= i < |entity.names| && token in entity.names[i] :: token) + set token | token in entity.slug
  }

  method AddEntity(entity: Entity, dictionary: seq<DictionaryEntry>)
    returns (dictionary': seq<DictionaryEntry>, spelled: set<Token>)
    ensures dictionary' == dictionary + EntriesOf(entity.id, entity.names)
    ensures spelled == SpelledBy(entity)
  {
    dictionary', spelled := dictionary, {};
    for i := 0 to |entity.names|
      invariant dictionary' == dictionary + EntriesOf(entity.id, entity.names[..i])
      invariant spelled == set j, token | 0 <= j < i && token in entity.names[j] :: token
    {
      var parts := entity.names[i];
      assert entity.names[..i + 1][..i] == entity.names[..i];
      if |parts| == 0 {
        continue;
      }
      dictionary' := dictionary' + [DictionaryEntry(parts, entity.id)];
      spelled := spelled + set token | token in parts;
    }
    assert entity.names[..|entity.names|] == entity.names;
    spelled := spelled + set token | token in entity.slug;
  }

  /** The dictionary, and what spells each entity. */
  method BuildDictionary(entities: seq<Entity>)
    returns (dictionary: seq<DictionaryEntry>, nameTokens: map<EntityId, set<Token>>)
    requires AreKeyed(entities)
    ensures dictionary == DictionaryOf(entities) && IsDictionary(dictionary)
    ensures nameTokens.Keys == set i | 0 <= i < |entities| :: entities[i].id
    ensures forall i :: 0 <= i < |entities| ==>
      entities[i].id in nameTokens && nameTokens[entities[i].id] == SpelledBy(entities[i])
  {
    dictionary, nameTokens := [], map[];
    for i := 0 to |entities|
      invariant dictionary == AllEntries(entities[..i])
      invariant nameTokens.Keys == set j | 0 <= j < i :: entities[j].id
      invariant forall j :: 0 <= j < i ==>
        entities[j].id in nameTokens && nameTokens[entities[j].id] == SpelledBy(entities[j])
    {
      var spelled;
      assert entities[..i + 1][..i] == entities[..i];
      dictionary, spelled := AddEntity(entities[i], dictionary);
      nameTokens := nameTokens[entities[i].id := spelled];
    }
    assert entities[..|entities|] == entities;
    dictionary := SortBy(dictionary, EntryPrecedes);
    TheIndexIsADictionary(entities);
  }

  function Lookup<K, V>(m: map<K, set<V>>, k: K): set<V> {
    if k in m then m[k] else {}
  }

  /** The edges a statement names in full. */
  function PairsOf(named: set<EntityId>, edges: seq<Edge>): set<Edge> {
    set edge | edge in edges && edge.subject in named && edge.target in named
  }

  function NamedBy(k: Knowledge, fact: Fact): set<EntityId> {
    MentionsOf(fact.statement, DictionaryOf(k.entities))
  }

  /** The entities named by the first `n` facts that source a chunk, and the edges they name. */
  function Evidenced(k: Knowledge, n: nat, id: ChunkId): set<EntityId>
    requires n <= |k.facts|
  {
    set i, entity | 0 <= i < n && id in k.facts[i].sources && entity in NamedBy(k, k.facts[i]) :: entity
  }

  function EdgesShown(k: Knowledge, n: nat, id: ChunkId): set<Edge>
    requires n <= |k.facts|
  {
    set i, edge | 0 <= i < n && id in k.facts[i].sources && edge in PairsOf(NamedBy(k, k.facts[i]), k.edges) :: edge
  }

  method AddToAll<V>(sources: seq<ChunkId>, values: set<V>, m: map<ChunkId, set<V>>) returns (m': map<ChunkId, set<V>>)
    ensures forall id :: Lookup(m', id) == Lookup(m, id) + if id in sources then values else {}
  {
    m' := m;
    for i := 0 to |sources|
      invariant forall id :: Lookup(m', id) == Lookup(m, id) + if id in sources[..i] then values else {}
    {
      assert sources[..i + 1] == sources[..i] + [sources[i]];
      m' := m'[sources[i] := Lookup(m', sources[i]) + values];
    }
    assert sources[..|sources|] == sources;
  }

  lemma OneFactMore(k: Knowledge, n: nat, id: ChunkId)
    requires n < |k.facts|
    ensures Evidenced(k, n + 1, id) ==
      Evidenced(k, n, id) + if id in k.facts[n].sources then NamedBy(k, k.facts[n]) else {}
    ensures EdgesShown(k, n + 1, id) ==
      EdgesShown(k, n, id) + if id in k.facts[n].sources then PairsOf(NamedBy(k, k.facts[n]), k.edges) else {}
  {
  }

  /** One turn of the loop: what fact `i` adds to the two maps. */
  method IndexFact(k: Knowledge, i: nat, named: set<EntityId>,
                   evidences: map<ChunkId, set<EntityId>>, edgePairs: map<ChunkId, set<Edge>>)
    returns (evidences': map<ChunkId, set<EntityId>>, edgePairs': map<ChunkId, set<Edge>>)
    requires i < |k.facts| && named == NamedBy(k, k.facts[i])
    requires forall id :: Lookup(evidences, id) == Evidenced(k, i, id)
    requires forall id :: Lookup(edgePairs, id) == EdgesShown(k, i, id)
    ensures forall id :: Lookup(evidences', id) == Evidenced(k, i + 1, id)
    ensures forall id :: Lookup(edgePairs', id) == EdgesShown(k, i + 1, id)
  {
    forall id {
      OneFactMore(k, i, id);
    }
    evidences', edgePairs' := evidences, edgePairs;
    if named == {} {
      return;
    }
    var pairs := PairsOf(named, k.edges);
    evidences' := AddToAll(k.facts[i].sources, named, evidences);
    if pairs != {} {
      edgePairs' := AddToAll(k.facts[i].sources, pairs, edgePairs);
    }
  }

  method IndexFacts(k: Knowledge, dictionary: seq<DictionaryEntry>)
    returns (evidences: map<ChunkId, set<EntityId>>, edgePairs: map<ChunkId, set<Edge>>)
    requires dictionary == DictionaryOf(k.entities)
    ensures forall id :: Lookup(evidences, id) == Evidenced(k, |k.facts|, id)
    ensures forall id :: Lookup(edgePairs, id) == EdgesShown(k, |k.facts|, id)
  {
    evidences, edgePairs := map[], map[];
    TheIndexIsADictionary(k.entities);
    for i := 0 to |k.facts|
      invariant forall id :: Lookup(evidences, id) == Evidenced(k, i, id)
      invariant forall id :: Lookup(edgePairs, id) == EdgesShown(k, i, id)
    {
      var named := Mentions(k.facts[i].statement, dictionary);
      evidences, edgePairs := IndexFact(k, i, named, evidences, edgePairs);
    }
  }

  // -------------------------------------------------------------------------
  // Keys.
  // -------------------------------------------------------------------------

  datatype ReachKey = TokenKey(token: Token) | EntityKey(entity: EntityId) | EdgeKey(subject: EntityId,
      target: EntityId)

  /** What evidence a query supplies: which subjects, and which of their documents. */
  datatype QueryKeys = QueryKeys(entities: set<EntityId>, residual: set<Token>, relations: set<string>)
  {
    function Keys(): set<ReachKey> {
      (set entity | entity in entities :: EntityKey(entity)) + set token | token in residual :: TokenKey(token)
    }
  }

  function SuppliedBy(k: Knowledge, q: Query): QueryKeys {
    var entities := MentionsOf(q.text.tokens, DictionaryOf(k.entities));
    var spelled := set i, token |
      0 <= i < |k.entities| && k.entities[i].id in entities && token in SpelledBy(k.entities[i]) :: token;
    QueryKeys(entities, (set token | token in q.text.tokens && token !in spelled && token !in k.stopwords), q.relations)
  }

  /** Which pieces of the query's evidence lead to the chunk. */
  function CarriedBy(c: Corpus, k: Knowledge, supplied: QueryKeys, id: ChunkId): set<ReachKey> {
    if id !in c.chunks then {}
    else
      var tokens := c.chunks[id].tokens;
      var names := MentionsOf(tokens, DictionaryOf(k.entities)) + Evidenced(k, |k.facts|, id);
      (set token | token in supplied.residual && token in tokens :: TokenKey(token))
      + (set entity | entity in supplied.entities && entity in names :: EntityKey(entity))
      + (set edge | edge in EdgesShown(k, |k.facts|, id) && edge.edgeType in supplied.relations
                    && (edge.subject in supplied.entities || edge.target in supplied.entities)
          :: EdgeKey(edge.subject, edge.target))
  }

  // -------------------------------------------------------------------------
  // Isolation.
  // -------------------------------------------------------------------------

  /** A result slot: the duplicate group, or the chunk itself. */
  function SlotOf(c: Corpus, id: ChunkId): string {
    if c.GroupOf(id).Some? then c.GroupOf(id).value else id
  }

  datatype IsolationVerdict = IsolationVerdict(
    chunk: ChunkId,
    cutoff: int,
    uncovered: set<ReachKey>,
    carried: set<ReachKey>,
    dominators: set<string>,
    isolable: bool)

  datatype ReachError = BadReachCutoff | NotAChunk(chunk: ChunkId) | EmptyGrant | NothingRequired

  /** What some chunk of the page carries. */
  function Covered(c: Corpus, k: Knowledge, supplied: QueryKeys, page: PageId): set<ReachKey> {
    set sibling, key | sibling in c.chunkIds && sibling in c.chunks && c.chunks[sibling].page == page
                       && key in CarriedBy(c, k, supplied, sibling) :: key
  }

  predicate Dominates(c: Corpus, k: Knowledge, q: Query, id: ChunkId, other: ChunkId) {
    && other in c.chunkIds && IsVisible(c.chunks, q.grant, other)
    && other != id && SlotOf(c, other) != SlotOf(c, id)
    && CarriedBy(c, k, SuppliedBy(k, q), id) <= CarriedBy(c, k, SuppliedBy(k, q), other)
  }

  /** The slots, other than the chunk's own, holding everything the chunk carries. */
  function Dominators(c: Corpus, k: Knowledge, q: Query, id: ChunkId): set<string> {
    set other | other in c.chunkIds && Dominates(c, k, q, id, other) :: SlotOf(c, other)
  }

  function Uncovered(c: Corpus, k: Knowledge, q: Query, id: ChunkId): set<ReachKey>
    requires id in c.chunks
  {
    SuppliedBy(k, q).Keys() - Covered(c, k, SuppliedBy(k, q), c.chunks[id].page)
  }

  /** The query's evidence could place the chunk inside the cutoff. */
  predicate IsIsolable(c: Corpus, k: Knowledge, q: Query, id: ChunkId, cutoff: int)
    requires id in c.chunks
  {
    Uncovered(c, k, q, id) == {} || |Dominators(c, k, q, id)| < cutoff
  }

  lemma VisibleAreThose(c: Corpus, grant: seq<Origin>)
    ensures forall id :: id in c.Visible(grant) <==> id in c.chunkIds && IsVisible(c.chunks, grant, id)
  {
    KeptAreThose(c.chunkIds, Sees(c.chunks, grant));
  }

  /** The slots of the dominators among the chunks listed. */
  function DominatorsAmong(c: Corpus, k: Knowledge, q: Query, id: ChunkId, others: seq<ChunkId>): set<string> {
    set other | other in others && Dominates(c, k, q, id, other) :: SlotOf(c, other)
  }

  lemma OneChunkMore(c: Corpus, k: Knowledge, q: Query, id: ChunkId, others: seq<ChunkId>, n: nat)
    requires n < |others|
    ensures DominatorsAmong(c, k, q, id, others[..n + 1]) ==
      DominatorsAmong(c, k, q, id, others[..n])
      + if Dominates(c, k, q, id, others[n]) then {SlotOf(c, others[n])} else {}
  {
    assert others[..n + 1] == others[..n] + [others[n]];
  }

  lemma DominatorsAreVisible(c: Corpus, k: Knowledge, q: Query, id: ChunkId)
    ensures DominatorsAmong(c, k, q, id, c.Visible(q.grant)) == Dominators(c, k, q, id)
  {
    VisibleAreThose(c, q.grant);
  }

  /** Whether one turn of the loop adds the slot of `other`; a slot already there is skipped unseen. */
  method DominatesAnew(c: Corpus, k: Knowledge, q: Query, id: ChunkId, carried: set<ReachKey>,
                       other: ChunkId, dominators: set<string>)
    returns (anew: bool)
    requires carried == CarriedBy(c, k, SuppliedBy(k, q), id) && other in c.Visible(q.grant)
    ensures anew || SlotOf(c, other) in dominators || !Dominates(c, k, q, id, other)
    ensures anew ==> Dominates(c, k, q, id, other)
  {
    VisibleAreThose(c, q.grant);
    if other == id {
      return false;
    }
    var slot := SlotOf(c, other);
    if slot == SlotOf(c, id) || slot in dominators {
      return false;
    }
    anew := carried <= CarriedBy(c, k, SuppliedBy(k, q), other);
  }

  /** The loop of `isolationOf`: visit order and early skips do not show in the set it leaves. */
  method CollectDominators(c: Corpus, k: Knowledge, q: Query, id: ChunkId, carried: set<ReachKey>)
    returns (dominators: set<string>)
    requires carried == CarriedBy(c, k, SuppliedBy(k, q), id)
    ensures dominators == Dominators(c, k, q, id)
  {
    var visible := c.Visible(q.grant);
    dominators := {};
    for i := 0 to |visible|
      invariant dominators == DominatorsAmong(c, k, q, id, visible[..i])
    {
      OneChunkMore(c, k, q, id, visible, i);
      var anew := DominatesAnew(c, k, q, id, carried, visible[i], dominators);
      if anew {
        dominators := dominators + {SlotOf(c, visible[i])};
      }
    }
    assert visible[..|visible|] == visible;
    DominatorsAreVisible(c, k, q, id);
  }

  function IsOnPage(c: Corpus, page: PageId): ChunkId -> bool {
    (id: ChunkId) => id in c.chunks && c.chunks[id].page == page
  }

  method CoverPage(c: Corpus, k: Knowledge, supplied: QueryKeys, page: PageId) returns (covered: set<ReachKey>)
    ensures covered == Covered(c, k, supplied, page)
  {
    var siblings := Keep(c.chunkIds, IsOnPage(c, page));
    covered := {};
    for i := 0 to |siblings|
      invariant covered == CarriedByAny(c, k, supplied, siblings[..i])
    {
      CarriedByOneMore(c, k, supplied, siblings, i);
      covered := covered + CarriedBy(c, k, supplied, siblings[i]);
    }
    assert siblings[..|siblings|] == siblings;
    KeptAreThose(c.chunkIds, IsOnPage(c, page));
    SiblingsCover(c, k, supplied, page, siblings);
  }

  function CarriedByAny(c: Corpus, k: Knowledge, supplied: QueryKeys, ids: seq<ChunkId>): set<ReachKey> {
    set id, key | id in ids && key in CarriedBy(c, k, supplied, id) :: key
  }

  lemma CarriedByOneMore(c: Corpus, k: Knowledge, supplied: QueryKeys, ids: seq<ChunkId>, n: nat)
    requires n < |ids|
    ensures CarriedByAny(c, k, supplied, ids[..n + 1]) ==
      CarriedByAny(c, k, supplied, ids[..n]) + CarriedBy(c, k, supplied, ids[n])
  {
    assert ids[..n + 1] == ids[..n] + [ids[n]];
  }

  lemma SiblingsCover(c: Corpus, k: Knowledge, supplied: QueryKeys, page: PageId, siblings: seq<ChunkId>)
    requires forall id :: id in siblings <==> id in c.chunkIds && id in c.chunks && c.chunks[id].page == page
    ensures CarriedByAny(c, k, supplied, siblings) == Covered(c, k, supplied, page)
  {
  }

  /** What a key makes of a chunk: the evidence, and whether it could place the chunk. */
  function VerdictOf(c: Corpus, k: Knowledge, q: Query, id: ChunkId, cutoff: int): IsolationVerdict
    requires id in c.chunks
  {
    IsolationVerdict(id, cutoff, Uncovered(c, k, q, id),
      CarriedBy(c, k, SuppliedBy(k, q), id), Dominators(c, k, q, id), IsIsolable(c, k, q, id, cutoff))
  }

  /** A positive cutoff, a chunk of the corpus, and a credential to see anything with. */
  predicate CanJudgeOne(c: Corpus, q: Query, id: ChunkId, cutoff: int) {
    cutoff >= 1 && id in c.chunks && q.grant != []
  }

  /** `isolationOf`; a grant is what `visibleTo` needs. */
  method IsolationOf(c: Corpus, k: Knowledge, q: Query, id: ChunkId, cutoff: int)
    returns (r: Result<IsolationVerdict, ReachError>)
    ensures r.Ok? <==> CanJudgeOne(c, q, id, cutoff)
    ensures r.Ok? ==> r.value == VerdictOf(c, k, q, id, cutoff)
  {
    if cutoff < 1 {
      return Err(BadReachCutoff);
    }
    if id !in c.chunks {
      return Err(NotAChunk(id));
    }
    var supplied := SuppliedBy(k, q);
    var carried := CarriedBy(c, k, supplied, id);
    var acrossPage := CoverPage(c, k, supplied, c.chunks[id].page);
    var uncovered := supplied.Keys() - acrossPage;
    if q.grant == [] {
      return Err(EmptyGrant);
    }
    var dominators := CollectDominators(c, k, q, id, carried);
    r := Ok(IsolationVerdict(id, cutoff, uncovered, carried, dominators, uncovered == {} || |dominators| < cutoff));
  }

  predicate CanJudge(c: Corpus, q: Query, required: seq<ChunkId>, cutoff: int) {
    required != [] && forall i :: 0 <= i < |required| ==> CanJudgeOne(c, q, required[i], cutoff)
  }

  predicate NoneOf<T>(s: seq<T>, p: T -> bool) {
    forall i :: 0 <= i < |s| ==> !p(s[i])
  }

  /** The chunks of the corpus a key could place inside the cutoff. */
  function Isolable(c: Corpus, k: Knowledge, q: Query, cutoff: int): ChunkId -> bool {
    (id: ChunkId) => id in c.chunks && IsIsolable(c, k, q, id, cutoff)
  }

  /** No required chunk is within a keyed mechanism's reach. */
  predicate IsSemanticOnly(c: Corpus, k: Knowledge, q: Query, required: seq<ChunkId>, cutoff: int) {
    NoneOf(required, Isolable(c, k, q, cutoff))
  }

  /** The verdict on each chunk, in order; or the error of the first that cannot be judged. */
  method JudgeAll(c: Corpus, k: Knowledge, q: Query, required: seq<ChunkId>, cutoff: int)
    returns (r: Result<seq<IsolationVerdict>, ReachError>)
    ensures r.Ok? <==> required == [] || CanJudge(c, q, required, cutoff)
    ensures r.Ok? ==> |r.value| == |required|
    ensures r.Ok? ==> forall i :: 0 <= i < |required| ==>
      required[i] in c.chunks && r.value[i] == VerdictOf(c, k, q, required[i], cutoff)
  {
    var verdicts := [];
    for i := 0 to |required|
      invariant |verdicts| == i
      invariant forall j :: 0 <= j < i ==>
        CanJudgeOne(c, q, required[j], cutoff) && verdicts[j] == VerdictOf(c, k, q, required[j], cutoff)
    {
      var verdict := IsolationOf(c, k, q, required[i], cutoff);
      if verdict.Err? {
        return Err(verdict.error);
      }
      verdicts := verdicts + [verdict.value];
    }
    r := Ok(verdicts);
  }

  datatype Reach = Reach(query: QueryId, cutoff: int, verdicts: seq<IsolationVerdict>, semanticOnly: bool)

  /** `probeReach` */
  method ProbeReach(c: Corpus, k: Knowledge, q: Query, required: seq<ChunkId>, cutoff: int)
    returns (r: Result<Reach, ReachError>)
    ensures r.Ok? <==> CanJudge(c, q, required, cutoff)
    ensures r.Ok? ==> r.value.query == q.id && r.value.cutoff == cutoff
    ensures r.Ok? ==> |r.value.verdicts| == |required|
    ensures r.Ok? ==> forall i :: 0 <= i < |required| ==>
      r.value.verdicts[i] == VerdictOf(c, k, q, required[i], cutoff)
    ensures r.Ok? ==> (r.value.semanticOnly <==> IsSemanticOnly(c, k, q, required, cutoff))
  {
    if |required| == 0 {
      return Err(NothingRequired);
    }
    var verdicts := JudgeAll(c, k, q, required, cutoff);
    if verdicts.Err? {
      return Err(verdicts.error);
    }
    var semanticOnly := forall i :: 0 <= i < |verdicts.value| ==> !verdicts.value[i].isolable;
    r := Ok(Reach(q.id, cutoff, verdicts.value, semanticOnly));
  }

  // -------------------------------------------------------------------------
  // What a key is, and what a verdict rests on.
  // -------------------------------------------------------------------------

  predicate Mentioned(k: Knowledge, text: seq<Token>, entity: EntityId) {
    entity in MentionsOf(text, DictionaryOf(k.entities))
  }

  /** Some fact that the chunk is a source of mentions the entity. */
  predicate IsEvidenced(k: Knowledge, id: ChunkId, entity: EntityId) {
    exists i :: 0 <= i < |k.facts| && id in k.facts[i].sources && Mentioned(k, k.facts[i].statement, entity)
  }

  /** Some fact that the chunk is a source of mentions both ends of the edge. */
  predicate IsShown(k: Knowledge, id: ChunkId, edge: Edge) {
    exists i :: 0 <= i < |k.facts| && id in k.facts[i].sources
      && Mentioned(k, k.facts[i].statement, edge.subject) && Mentioned(k, k.facts[i].statement, edge.target)
  }

  /** The token is a word of the name, or of the slug, of something the text mentions. */
  predicate SpellsAMention(k: Knowledge, text: seq<Token>, token: Token) {
    exists i :: 0 <= i < |k.entities| && Mentioned(k, text, k.entities[i].id) && Spells(k.entities[i], token)
  }

  predicate Spells(entity: Entity, token: Token) {
    token in entity.slug || exists n :: 0 <= n < |entity.names| && token in entity.names[n]
  }

  lemma SpelledByIsSpells(entity: Entity, token: Token)
    ensures token in SpelledBy(entity) <==> Spells(entity, token)
  {
  }

  /**
   * What a query supplies: the entities it mentions, and the words of it that
   * are neither function words nor part of what it mentions.
   */
  lemma WhatAQuerySupplies(k: Knowledge, q: Query, key: ReachKey)
    ensures key in SuppliedBy(k, q).Keys() <==>
      match key
      case EntityKey(entity) => Mentioned(k, q.text.tokens, entity)
      case TokenKey(token) =>
        token in q.text.tokens && token !in k.stopwords && !SpellsAMention(k, q.text.tokens, token)
      case EdgeKey(_, _) => false
  {
    forall i: nat, token | i < |k.entities|
      ensures token in SpelledBy(k.entities[i]) <==> Spells(k.entities[i], token) {
      SpelledByIsSpells(k.entities[i], token);
    }
  }

  lemma EvidencedIs(k: Knowledge, id: ChunkId, entity: EntityId)
    ensures entity in Evidenced(k, |k.facts|, id) <==> IsEvidenced(k, id, entity)
  {
    forall i | 0 <= i < |k.facts| && id in k.facts[i].sources
      ensures entity in NamedBy(k, k.facts[i]) <==> Mentioned(k, k.facts[i].statement, entity) {
    }
    if IsEvidenced(k, id, entity) {
      var i :| 0 <= i < |k.facts| && id in k.facts[i].sources && Mentioned(k, k.facts[i].statement, entity);
      assert entity in NamedBy(k, k.facts[i]);
    }
  }

  lemma EdgesShownAre(k: Knowledge, id: ChunkId, edge: Edge)
    ensures edge in EdgesShown(k, |k.facts|, id) <==> edge in k.edges && IsShown(k, id, edge)
  {
    if edge in k.edges && IsShown(k, id, edge) {
      var i :| 0 <= i < |k.facts| && id in k.facts[i].sources
        && Mentioned(k, k.facts[i].statement, edge.subject) && Mentioned(k, k.facts[i].statement, edge.target);
      assert edge in PairsOf(NamedBy(k, k.facts[i]), k.edges);
    }
  }

  /** An edge that is evidence for the chunk: of a relation the query asks about, at an entity it mentions. */
  predicate IsAskedFor(k: Knowledge, q: Query, edge: Edge) {
    edge.edgeType in q.relations
    && (Mentioned(k, q.text.tokens, edge.subject) || Mentioned(k, q.text.tokens, edge.target))
  }

  /**
   * What leads to a chunk of the corpus: a supplied word it contains, a
   * mentioned entity it mentions too or is evidence about, and an edge asked
   * for that it is evidence of.
   */
  lemma WhatAChunkCarries(c: Corpus, k: Knowledge, q: Query, id: ChunkId, key: ReachKey)
    requires id in c.chunks
    ensures key in CarriedBy(c, k, SuppliedBy(k, q), id) <==>
      match key
      case TokenKey(token) => key in SuppliedBy(k, q).Keys() && token in c.chunks[id].tokens
      case EntityKey(entity) =>
        key in SuppliedBy(k, q).Keys() && (Mentioned(k, c.chunks[id].tokens, entity) || IsEvidenced(k, id, entity))
      case EdgeKey(subject, target) =>
        exists edge :: edge in k.edges && edge.subject == subject && edge.target == target
          && IsAskedFor(k, q, edge) && IsShown(k, id, edge)
  {
    match key
    case TokenKey(_) =>
    case EntityKey(entity) => EvidencedIs(k, id, entity);
    case EdgeKey(_, _) =>
      forall edge ensures edge in EdgesShown(k, |k.facts|, id) <==> edge in k.edges && IsShown(k, id, edge) {
        EdgesShownAre(k, id, edge);
      }
  }

  /** Copies of one page, in one duplicate group, share a slot. */
  predicate AreCopies(c: Corpus, id: ChunkId, other: ChunkId) {
    id in c.chunks && other in c.chunks && c.chunks[id].dupGroup.Some?
    && c.chunks[id].dupGroup == c.chunks[other].dupGroup
  }

  /** A chunk the query may see that everything leads to that leads to `id`. */
  predicate IsRival(c: Corpus, k: Knowledge, q: Query, id: ChunkId, other: ChunkId) {
    && other in c.chunkIds && other in c.chunks && c.chunks[other].live && c.chunks[other].origin in q.grant
    && forall key :: key in CarriedBy(c, k, SuppliedBy(k, q), id) ==> key in CarriedBy(c, k, SuppliedBy(k, q), other)
  }

  /** Rivals of the chunk, none in its slot and no two in one slot. */
  predicate AreRivals(c: Corpus, k: Knowledge, q: Query, id: ChunkId, rivals: seq<ChunkId>) {
    && (forall i :: 0 <= i < |rivals| ==>
          IsRival(c, k, q, id, rivals[i]) && SlotOf(c, rivals[i]) != SlotOf(c, id))
    && forall i, j :: 0 <= i < j < |rivals| ==> SlotOf(c, rivals[i]) != SlotOf(c, rivals[j])
  }

  lemma RivalsAreNoCopies(c: Corpus, k: Knowledge, q: Query, id: ChunkId, rivals: seq<ChunkId>)
    requires AreRivals(c, k, q, id, rivals)
    ensures forall i :: 0 <= i < |rivals| ==> rivals[i] != id && !AreCopies(c, id, rivals[i])
    ensures forall i, j :: 0 <= i < j < |rivals| ==>
      rivals[i] != rivals[j] && !AreCopies(c, rivals[i], rivals[j])
  {
  }

  lemma RivalForSlot(c: Corpus, k: Knowledge, q: Query, id: ChunkId, slot: string) returns (other: ChunkId)
    requires slot in Dominators(c, k, q, id)
    ensures IsRival(c, k, q, id, other) && SlotOf(c, other) == slot != SlotOf(c, id)
  {
    other :| other in c.chunkIds && Dominates(c, k, q, id, other) && SlotOf(c, other) == slot;
  }

  lemma OneRivalMore(c: Corpus, k: Knowledge, q: Query, id: ChunkId, rivals: seq<ChunkId>, other: ChunkId)
    requires AreRivals(c, k, q, id, rivals)
    requires IsRival(c, k, q, id, other) && SlotOf(c, other) != SlotOf(c, id)
    requires forall i :: 0 <= i < |rivals| ==> SlotOf(c, rivals[i]) != SlotOf(c, other)
    ensures AreRivals(c, k, q, id, rivals + [other])
  {
  }

  /** One rival for each of as many slots as are asked for. */
  lemma {:induction false} RivalsForSlots(c: Corpus, k: Knowledge, q: Query, id: ChunkId, slots: set<string>, n: nat)
    returns (rivals: seq<ChunkId>)
    requires slots <= Dominators(c, k, q, id) && n <= |slots|
    ensures |rivals| == n && AreRivals(c, k, q, id, rivals)
    ensures forall i :: 0 <= i < n ==> SlotOf(c, rivals[i]) in slots
  {
    if n == 0 {
      return [];
    }
    var slot :| slot in slots;
    var other := RivalForSlot(c, k, q, id, slot);
    var rest := RivalsForSlots(c, k, q, id, slots - {slot}, n - 1);
    OneRivalMore(c, k, q, id, rest, other);
    rivals := rest + [other];
  }

  function SlotsOf(c: Corpus, ids: seq<ChunkId>): set<string> {
    set i | 0 <= i < |ids| :: SlotOf(c, ids[i])
  }

  lemma {:induction false} RivalsTakeASlotEach(c: Corpus, ids: seq<ChunkId>)
    requires forall i, j :: 0 <= i < j < |ids| ==> SlotOf(c, ids[i]) != SlotOf(c, ids[j])
    ensures |SlotsOf(c, ids)| == |ids|
  {
    if ids != [] {
      var last := |ids| - 1;
      RivalsTakeASlotEach(c, ids[..last]);
      assert SlotsOf(c, ids) == SlotsOf(c, ids[..last]) + {SlotOf(c, ids[last])};
    }
  }

  lemma RivalsDominate(c: Corpus, k: Knowledge, q: Query, id: ChunkId, rivals: seq<ChunkId>)
    requires AreRivals(c, k, q, id, rivals)
    ensures |Dominators(c, k, q, id)| >= |rivals|
  {
    RivalsTakeASlotEach(c, rivals);
    forall slot | slot in SlotsOf(c, rivals) ensures slot in Dominators(c, k, q, id) {
      var i :| 0 <= i < |rivals| && SlotOf(c, rivals[i]) == slot;
      assert Dominates(c, k, q, id, rivals[i]);
    }
    SubsetSize(SlotsOf(c, rivals), Dominators(c, k, q, id));
  }

  ghost predicate RivalsFill(c: Corpus, k: Knowledge, q: Query, id: ChunkId, n: nat) {
    exists rivals: seq<ChunkId> :: |rivals| == n && AreRivals(c, k, q, id, rivals)
  }

  lemma RivalsFillIff(c: Corpus, k: Knowledge, q: Query, id: ChunkId, n: nat)
    ensures RivalsFill(c, k, q, id, n) <==> |Dominators(c, k, q, id)| >= n
  {
    if |Dominators(c, k, q, id)| >= n {
      var rivals := RivalsForSlots(c, k, q, id, Dominators(c, k, q, id), n);
      assert |rivals| == n && AreRivals(c, k, q, id, rivals);
    }
    if RivalsFill(c, k, q, id, n) {
      var rivals: seq<ChunkId> :| |rivals| == n && AreRivals(c, k, q, id, rivals);
      RivalsDominate(c, k, q, id, rivals);
    }
  }

  /** Some evidence of the query leads to no chunk of the page. */
  predicate PageMisses(c: Corpus, k: Knowledge, q: Query, page: PageId) {
    exists key :: key in SuppliedBy(k, q).Keys() && IsNowhereOn(c, k, q, page, key)
  }

  predicate IsNowhereOn(c: Corpus, k: Knowledge, q: Query, page: PageId, key: ReachKey) {
    forall sibling :: sibling in c.chunkIds && sibling in c.chunks && c.chunks[sibling].page == page ==>
      key !in CarriedBy(c, k, SuppliedBy(k, q), sibling)
  }

  lemma UncoveredIsMissed(c: Corpus, k: Knowledge, q: Query, id: ChunkId)
    requires id in c.chunks
    ensures Uncovered(c, k, q, id) != {} <==> PageMisses(c, k, q, c.chunks[id].page)
  {
    forall key ensures key in Uncovered(c, k, q, id) <==>
      key in SuppliedBy(k, q).Keys() && IsNowhereOn(c, k, q, c.chunks[id].page, key) {
    }
  }

  /**
   * A chunk is out of reach exactly when its page misses some of the evidence
   * and as many rivals as there are ranks could all be placed before it.
   */
  lemma OutOfReachIffRivalsFillTheRanks(c: Corpus, k: Knowledge, q: Query, id: ChunkId, cutoff: nat)
    requires id in c.chunks
    ensures !IsIsolable(c, k, q, id, cutoff) <==>
      PageMisses(c, k, q, c.chunks[id].page) && RivalsFill(c, k, q, id, cutoff)
  {
    UncoveredIsMissed(c, k, q, id);
    RivalsFillIff(c, k, q, id, cutoff);
  }

  // -------------------------------------------------------------------------
  // What moves a verdict.
  // -------------------------------------------------------------------------

  /** A chunk within reach stays within reach when more ranks count. */
  lemma RaisingTheCutoffNeverBlocks(c: Corpus, k: Knowledge, q: Query, id: ChunkId, cutoff: int, higher: int)
    requires id in c.chunks && cutoff <= higher && IsIsolable(c, k, q, id, cutoff)
    ensures IsIsolable(c, k, q, id, higher)
  {
    assert Uncovered(c, k, q, id) == {} || |Dominators(c, k, q, id)| < cutoff <= higher;
  }

  /** A credential that sees more only adds dominators; a blocked chunk stays blocked. */
  lemma WideningTheGrantNeverFrees(c: Corpus, k: Knowledge, q: Query, id: ChunkId, cutoff: int, wider: seq<Origin>)
    requires id in c.chunks && (forall origin :: origin in q.grant ==> origin in wider)
    requires !IsIsolable(c, k, q, id, cutoff)
    ensures !IsIsolable(c, k, q.(grant := wider), id, cutoff)
  {
    var q' := q.(grant := wider);
    assert SuppliedBy(k, q') == SuppliedBy(k, q);
    forall slot | slot in Dominators(c, k, q, id) ensures slot in Dominators(c, k, q', id) {
      var other :| other in c.chunkIds && Dominates(c, k, q, id, other) && SlotOf(c, other) == slot;
      assert Dominates(c, k, q', id, other);
    }
    SubsetSize(Dominators(c, k, q, id), Dominators(c, k, q', id));
  }

  /** The order in which the corpus lists its chunks does not move a verdict. */
  lemma ChunkOrderIsImmaterial(c: Corpus, k: Knowledge, q: Query, id: ChunkId, cutoff: int, ids: seq<ChunkId>)
    requires id in c.chunks && forall x :: x in ids <==> x in c.chunkIds
    ensures Dominators(c.(chunkIds := ids), k, q, id) == Dominators(c, k, q, id)
    ensures IsIsolable(c.(chunkIds := ids), k, q, id, cutoff) == IsIsolable(c, k, q, id, cutoff)
  {
    var c' := c.(chunkIds := ids);
    var supplied := SuppliedBy(k, q);
    forall x ensures CarriedBy(c', k, supplied, x) == CarriedBy(c, k, supplied, x) && SlotOf(c', x) == SlotOf(c, x)
                     && Dominates(c', k, q, id, x) == Dominates(c, k, q, id, x) {
    }
    assert Dominators(c', k, q, id) == Dominators(c, k, q, id);
    assert Covered(c', k, supplied, c.chunks[id].page) == Covered(c, k, supplied, c.chunks[id].page);
  }

  lemma IsolableGrows(c: Corpus, k: Knowledge, q: Query, id: ChunkId, cutoff: int, higher: int)
    requires cutoff <= higher
    ensures Isolable(c, k, q, cutoff)(id) ==> Isolable(c, k, q, higher)(id)
  {
    if Isolable(c, k, q, cutoff)(id) {
      RaisingTheCutoffNeverBlocks(c, k, q, id, cutoff, higher);
    }
  }

  /** Fewer ranks can only confirm that a probe is beyond reach. */
  lemma LoweringTheCutoffNeverFrees(c: Corpus, k: Knowledge, q: Query, required: seq<ChunkId>, cutoff: int, lower: int)
    requires lower <= cutoff && IsSemanticOnly(c, k, q, required, cutoff)
    ensures IsSemanticOnly(c, k, q, required, lower)
  {
    forall i | 0 <= i < |required| ensures !Isolable(c, k, q, lower)(required[i]) {
      IsolableGrows(c, k, q, required[i], lower, cutoff);
    }
  }
}
