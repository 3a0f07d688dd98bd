/**
 Building and promoting corpora (repositories/corpus.py, services/ingestion.py). Each
 repository method is one transaction; an ingestion looks for a ready corpus in one and
 promotes or persists in a later one, so other ingestions may act in between.
 */
module CorpusActivation {
  import opened Wrappers
  import opened Sequences
  import opened Chunking
  import E = Extraction

  // ----- the rows of a candidate ------------------------------------------

  datatype Coverage = Present | LegitimatelyAbsent | Failed | NotAssessed

  type Vector = seq<real>

  /** What extraction, chunking and embedding hand over for one Item. */
  datatype ItemInput = ItemInput(coverage: Coverage, error: string, chunks: seq<Chunk>, vectors: seq<Vector>)

  const ITEMS: seq<string> := ["1", "1A", "3", "7", "7A", "8"]

  /** One input for each required Item, in their order. */
  type Candidate = c: seq<ItemInput> | |c| == |ITEMS| witness seq(6, _ => ItemInput(Failed, "", [], []))

  datatype Gold = Gold(
    text: string, lexical: Option<string>, citation: Citation, anchor: Citation, start: int, end: int,
    model: string, dimensions: nat, embedding: Vector)

  /** A chunk row and its search document, as the validation joins them. */
  datatype Record = Record(chunk: Chunk, gold: Option<Gold>)

  datatype SectionRow = SectionRow(item: string, coverage: Coverage, error: string, records: seq<Record>)

  type Size = n: nat | 0 < n witness 1

  datatype Embedding = Embedding(model: string, dimensions: Size)

  /** Every chunk has its vector, and the search table accepts each: vector_dims = embedding_dimensions. */
  predicate Embedded(x: ItemInput, e: Embedding) {
    |x.chunks| == |x.vectors| && forall v :: v in x.vectors ==> |v| == e.dimensions
  }

  function RecordOf(c: Chunk, v: Vector, e: Embedding): Record {
    Record(c, Some(Gold(c.text, Some(c.text), c.citation, c.citation, c.start, c.end, e.model, e.dimensions, v)))
  }

  function Records(chunks: seq<Chunk>, vectors: seq<Vector>, e: Embedding): seq<Record>
    requires |chunks| == |vectors|
  {
    if chunks == [] then []
    else
      Records(chunks[..|chunks| - 1], vectors[..|vectors| - 1], e)
      + [RecordOf(chunks[|chunks| - 1], vectors[|vectors| - 1], e)]
  }

  /** The sections persist writes for the first Items; None when a vector is missing, left over or refused. */
  function Rows(c: seq<ItemInput>, e: Embedding): Option<seq<SectionRow>>
    requires |c| <= |ITEMS|
  {
    if c == [] then Some([])
    else
      var last := c[|c| - 1];
      match Rows(c[..|c| - 1], e)
      case None => None
      case Some(rows) =>
        if !Embedded(last, e) then None
        else
          Some(rows + [SectionRow(ITEMS[|c| - 1], last.coverage, last.error, Records(last.chunks, last.vectors, e))])
  }

  // ----- _validate_candidate ----------------------------------------------

  predicate ValidChunk(r: Record) {
    r.chunk.end > r.chunk.start && r.chunk.text != ""
  }

  predicate HasGold(r: Record) {
    r.gold.Some?
  }

  predicate ValidGold(r: Record, e: Embedding) {
    && r.gold.Some?
    && r.gold.value.lexical == Some(r.gold.value.text)
    && r.gold.value.text == r.chunk.text
    && r.gold.value.citation == r.chunk.citation == r.gold.value.anchor
    && r.gold.value.model == e.model && r.gold.value.dimensions == e.dimensions
    && r.gold.value.start == r.chunk.start && r.gold.value.end == r.chunk.end
  }

  function GoldCheck(e: Embedding): Record -> bool {
    r => ValidGold(r, e)
  }

  predicate RowPasses(row: SectionRow, e: Embedding) {
    var chunks := |row.records|;
    && !row.coverage.Failed? && !row.coverage.NotAssessed?
    && (row.coverage.Present? ==>
          && chunks > 0
          && chunks == CountWhere(row.records, HasGold)
          && chunks == CountWhere(row.records, ValidChunk)
          && chunks == CountWhere(row.records, GoldCheck(e)))
    && (row.coverage.LegitimatelyAbsent? ==> chunks == 0 && row.error != "")
  }

  predicate Passes(rows: seq<SectionRow>, e: Embedding) {
    && |rows| == |ITEMS|
    && (set row | row in rows :: row.item) == (set item | item in ITEMS)
    && forall row :: row in rows ==> RowPasses(row, e)
  }

  method ValidateCandidate(rows: seq<SectionRow>, e: Embedding) returns (ok: bool)
    ensures ok == Passes(rows, e)
  {
    if |rows| != |ITEMS| || (set row | row in rows :: row.item) != (set item | item in ITEMS) {
      return false;
    }
    for i := 0 to |rows|
      invariant forall j :: 0 <= j < i ==> RowPasses(rows[j], e)
    {
      if !RowPasses(rows[i], e) {
        assert rows[i] in rows;
        return false;
      }
    }
    return true;
  }

  /** The chunk has characters and a span, and its search document says of it what the chunk says. */
  predicate Agrees(r: Record, e: Embedding) {
    && r.chunk.start < r.chunk.end && r.chunk.text != ""
    && r.gold.Some?
    && r.gold.value.text == r.chunk.text && r.gold.value.lexical == Some(r.chunk.text)
    && r.gold.value.citation == r.chunk.citation && r.gold.value.anchor == r.chunk.citation
    && r.gold.value.start == r.chunk.start && r.gold.value.end == r.chunk.end
    && r.gold.value.model == e.model && r.gold.value.dimensions == e.dimensions
  }

  /** Present, with chunks that all agree with their search documents, or absent for a reason. */
  predicate Accounted(row: SectionRow, e: Embedding) {
    match row.coverage
    case Present => row.records != [] && forall r :: r in row.records ==> Agrees(r, e)
    case LegitimatelyAbsent => row.records == [] && row.error != ""
    case _ => false
  }

  lemma {:induction false} RowPassesMeans(row: SectionRow, e: Embedding)
    ensures RowPasses(row, e) <==> Accounted(row, e)
  {
    CountsAll(row.records, HasGold);
    CountsAll(row.records, ValidChunk);
    CountsAll(row.records, GoldCheck(e));
    assert forall r :: Agrees(r, e) <==> HasGold(r) && ValidChunk(r) && GoldCheck(e)(r);
  }

  lemma {:induction false} RequiredItems()
    ensures (set item | item in ITEMS) == {"1", "1A", "3", "7", "7A", "8"}
  {
    assert forall item :: item in ITEMS <==> item in {"1", "1A", "3", "7", "7A", "8"};
  }

  /** What the validation asks of any stored sections: one for each of the six Items, all accounted for. */
  lemma {:induction false} PassesMeans(rows: seq<SectionRow>, e: Embedding)
    ensures Passes(rows, e) <==>
      && |rows| == 6 && (set row | row in rows :: row.item) == {"1", "1A", "3", "7", "7A", "8"}
      && forall row :: row in rows ==> Accounted(row, e)
  {
    RequiredItems();
    forall row
      ensures RowPasses(row, e) <==> Accounted(row, e)
    {
      RowPassesMeans(row, e);
    }
  }

  /** What a candidate must be for its corpus to be promoted. */
  predicate ItemComplete(x: ItemInput) {
    match x.coverage
    case Present => x.chunks != [] && forall c :: c in x.chunks ==> c.end > c.start && c.text != ""
    case LegitimatelyAbsent => x.chunks == [] && x.error != ""
    case _ => false
  }

  predicate Complete(c: seq<ItemInput>, e: Embedding) {
    forall x :: x in c ==> ItemComplete(x) && Embedded(x, e)
  }

  /** The search documents persist writes always agree with their chunks. */
  lemma {:induction false} RecordsAreGold(chunks: seq<Chunk>, vectors: seq<Vector>, e: Embedding)
    requires |chunks| == |vectors|
    ensures |Records(chunks, vectors, e)| == |chunks|
    ensures forall i :: 0 <= i < |chunks| ==> Records(chunks, vectors, e)[i] == RecordOf(chunks[i], vectors[i], e)
    ensures forall r :: r in Records(chunks, vectors, e) ==> ValidGold(r, e) && r.chunk in chunks
  {
    if chunks != [] {
      RecordsAreGold(chunks[..|chunks| - 1], vectors[..|vectors| - 1], e);
    }
  }

  lemma {:induction false} ChunksValidIff(chunks: seq<Chunk>, vectors: seq<Vector>, e: Embedding)
    requires |chunks| == |vectors|
    ensures CountWhere(Records(chunks, vectors, e), ValidChunk) == |chunks|
       <==> forall c :: c in chunks ==> c.end > c.start && c.text != ""
  {
    var records := Records(chunks, vectors, e);
    RecordsAreGold(chunks, vectors, e);
    CountsAll(records, ValidChunk);
    if forall r :: r in records ==> ValidChunk(r) {
      forall c | c in chunks
        ensures c.end > c.start && c.text != ""
      {
        var i :| 0 <= i < |chunks| && chunks[i] == c;
        assert records[i] in records && ValidChunk(records[i]);
      }
    }
  }

  lemma {:induction false} RowPassesIff(item: string, x: ItemInput, e: Embedding)
    requires |x.chunks| == |x.vectors|
    ensures RowPasses(SectionRow(item, x.coverage, x.error, Records(x.chunks, x.vectors, e)), e) <==> ItemComplete(x)
  {
    var records := Records(x.chunks, x.vectors, e);
    RecordsAreGold(x.chunks, x.vectors, e);
    CountsAll(records, HasGold);
    CountsAll(records, GoldCheck(e));
    ChunksValidIff(x.chunks, x.vectors, e);
  }

  lemma {:induction false} RowsIff(c: seq<ItemInput>, e: Embedding)
    requires |c| <= |ITEMS|
    ensures Rows(c, e).Some? <==> forall x :: x in c ==> Embedded(x, e)
    ensures Rows(c, e).Some? ==> |Rows(c, e).value| == |c|
  {
    if c != [] {
      var before, last := c[..|c| - 1], c[|c| - 1];
      RowsIff(before, e);
      assert forall x :: x in c <==> x in before || x == last;
    }
  }

  lemma {:induction false} RowAt(c: seq<ItemInput>, e: Embedding, i: nat)
    requires i < |c| <= |ITEMS| && Rows(c, e).Some?
    ensures i < |Rows(c, e).value| && |c[i].chunks| == |c[i].vectors|
    ensures Rows(c, e).value[i]
         == SectionRow(ITEMS[i], c[i].coverage, c[i].error, Records(c[i].chunks, c[i].vectors, e))
  {
    RowsIff(c, e);
    RowsIff(c[..|c| - 1], e);
    if i < |c| - 1 {
      RowAt(c[..|c| - 1], e, i);
    }
  }

  lemma {:induction false} RowAtPassesIff(c: Candidate, e: Embedding, i: nat)
    requires Rows(c, e).Some? && i < |ITEMS|
    ensures |Rows(c, e).value| == |ITEMS| && Rows(c, e).value[i].item == ITEMS[i]
    ensures RowPasses(Rows(c, e).value[i], e) <==> ItemComplete(c[i])
  {
    RowsIff(c, e);
    RowAt(c, e, i);
    RowPassesIff(ITEMS[i], c[i], e);
  }

  /**
   The redundant checks on search documents never decide: a candidate passes exactly when
   every Item was either found, with well-formed chunks, or explained as absent, and every
   chunk has its vector, of the configured size.
   */
  lemma {:induction false} ValidationIff(c: Candidate, e: Embedding)
    ensures Rows(c, e).Some? && Passes(Rows(c, e).value, e) <==> Complete(c, e)
  {
    RowsIff(c, e);
    if Rows(c, e).Some? {
      var rows := Rows(c, e).value;
      forall i | 0 <= i < |ITEMS|
        ensures rows[i].item == ITEMS[i] && (RowPasses(rows[i], e) <==> ItemComplete(c[i]))
      {
        RowAtPassesIff(c, e, i);
      }
      PassesIff(rows, e);
      assert (forall x :: x in c ==> ItemComplete(x)) <==> forall i :: 0 <= i < |c| ==> ItemComplete(c[i]);
    }
  }

  /** Rows of the required Items in their order pass when each does. */
  lemma {:induction false} PassesIff(rows: seq<SectionRow>, e: Embedding)
    requires |rows| == |ITEMS| && forall i :: 0 <= i < |ITEMS| ==> rows[i].item == ITEMS[i]
    ensures Passes(rows, e) <==> forall i :: 0 <= i < |rows| ==> RowPasses(rows[i], e)
  {
    ItemsNamed(rows);
    assert (forall row :: row in rows ==> RowPasses(row, e))
      <==> forall i :: 0 <= i < |rows| ==> RowPasses(rows[i], e);
  }

  lemma {:induction false} ItemsNamed(rows: seq<SectionRow>)
    requires |rows| == |ITEMS| && forall i :: 0 <= i < |ITEMS| ==> rows[i].item == ITEMS[i]
    ensures (set row | row in rows :: row.item) == (set item | item in ITEMS)
  {
    forall i | 0 <= i < |ITEMS|
      ensures ITEMS[i] in (set row | row in rows :: row.item)
    {
      assert rows[i] in rows;
    }
  }

  /** A section the extractor found, cut by the chunker, is always complete: extraction and validation agree. */
  lemma {:induction false} ExtractedSectionIsComplete(
    narrative: string, headings: seq<E.Heading>, minBody: nat, absence: string -> bool, section: E.Section,
    doc: Document, size: nat, overlap: nat, vectors: seq<Vector>)
    requires E.AllInBounds(narrative, headings) && 0 < minBody
    requires section == E.Extracted(narrative, headings, minBody, absence) && section.Present?
    requires overlap < size && Halts(section.text, size, overlap)
    ensures ItemComplete(ItemInput(Present, "", Chunks(doc, section.text, size, overlap, section.start), vectors))
  {
    E.PresentIsSlice(narrative, headings, minBody, absence);
    E.PresentSectionHasChunks(section.text, section.start, doc, size, overlap);
    forall c | c in Chunks(doc, section.text, size, overlap, section.start)
      ensures c.end > c.start && c.text != ""
    {
      E.SliceChunksResolve(narrative, section, doc, size, overlap, c);
    }
  }

  // ----- the tables -------------------------------------------------------

  datatype Filing = Filing(company: nat, cik: nat, accession: nat)

  datatype Corpus = Corpus(filing: nat, key: nat, ready: bool, rows: seq<SectionRow>)

  datatype Activation = Activation(company: nat, corpus: nat, isDefault: bool)

  datatype State = State(filings: seq<Filing>, corpora: seq<Corpus>, activations: seq<Activation>)

  const EMPTY := State([], [], [])

  function FindFiling(filings: seq<Filing>, cik: nat, accession: nat): (r: Option<nat>)
    ensures r.Some? ==> r.value < |filings| && filings[r.value].cik == cik && filings[r.value].accession == accession
    ensures r.None? ==> forall f :: f in filings ==> f.cik != cik || f.accession != accession
  {
    if filings == [] then None
    else
      var last := filings[|filings| - 1];
      if last.cik == cik && last.accession == accession then Some(|filings| - 1)
      else FindFiling(filings[..|filings| - 1], cik, accession)
  }

  function FindCorpus(corpora: seq<Corpus>, filing: nat, key: nat): (r: Option<nat>)
    ensures r.Some? ==> r.value < |corpora| && corpora[r.value].filing == filing && corpora[r.value].key == key
    ensures r.None? ==> forall c :: c in corpora ==> c.filing != filing || c.key != key
  {
    if corpora == [] then None
    else
      var last := corpora[|corpora| - 1];
      if last.filing == filing && last.key == key then Some(|corpora| - 1)
      else FindCorpus(corpora[..|corpora| - 1], filing, key)
  }

  predicate IsReadyFor(s: State, c: Corpus, company: nat, accession: nat, key: nat) {
    && c.ready && c.key == key && c.filing < |s.filings|
    && s.filings[c.filing].company == company && s.filings[c.filing].accession == accession
  }

  /** ready_corpus: the corpus of the first n rows that matches. */
  function ReadyCorpus(s: State, n: nat, company: nat, accession: nat, key: nat): (r: Option<nat>)
    requires n <= |s.corpora|
    ensures r.Some? ==> r.value < n && IsReadyFor(s, s.corpora[r.value], company, accession, key)
    ensures r.None? ==> forall i :: 0 <= i < n ==> !IsReadyFor(s, s.corpora[i], company, accession, key)
  {
    if n == 0 then None
    else if IsReadyFor(s, s.corpora[n - 1], company, accession, key) then Some(n - 1)
    else ReadyCorpus(s, n - 1, company, accession, key)
  }

  predicate IsActive(activations: seq<Activation>, corpus: nat) {
    exists a :: a in activations && a.corpus == corpus && a.isDefault
  }

  function Deactivated(activations: seq<Activation>, company: nat): (r: seq<Activation>)
    ensures |r| == |activations|
  {
    if activations == [] then []
    else
      var last := activations[|activations| - 1];
      Deactivated(activations[..|activations| - 1], company)
      + [if last.company == company then last.(isDefault := false) else last]
  }

  function WithDefault(activations: seq<Activation>, company: nat, corpus: nat): seq<Activation> {
    Deactivated(activations, company) + [Activation(company, corpus, true)]
  }

  /** One committed persist: the tables and the corpus it answers with; None is an error, rolled back. */
  function Persisted(
    s: State, company: nat, cik: nat, accession: nat, key: nat, c: Candidate, e: Embedding, promote: bool)
    : Option<(State, nat)>
  {
    var found := FindFiling(s.filings, cik, accession);
    var filings := if found.Some? then s.filings else s.filings + [Filing(company, cik, accession)];
    var filing := if found.Some? then found.value else |s.filings|;
    match FindCorpus(s.corpora, filing, key)
    case Some(existing) =>
      if s.corpora[existing].ready then Some((s.(filings := filings), existing)) else None
    case None =>
      match Rows(c, e)
      case None => None
      case Some(rows) =>
        if !Passes(rows, e) then None
        else
          Some((State(filings, s.corpora + [Corpus(filing, key, true, rows)],
                      if promote then WithDefault(s.activations, company, |s.corpora|) else s.activations),
                |s.corpora|))
  }

  /** The record keeps the chunk as it is, with its text, place and vector to search by. */
  predicate StoresChunk(x: Record, c: Chunk, v: Vector, e: Embedding) {
    && x.chunk == c
    && x.gold.Some?
    && x.gold.value.text == c.text && x.gold.value.lexical == Some(c.text)
    && x.gold.value.citation == c.citation && x.gold.value.anchor == c.citation
    && x.gold.value.start == c.start && x.gold.value.end == c.end
    && x.gold.value.model == e.model && x.gold.value.dimensions == e.dimensions
    && x.gold.value.embedding == v
  }

  /** The section keeps what was handed over for its Item, chunk by chunk. */
  predicate StoresItem(row: SectionRow, item: string, x: ItemInput, e: Embedding) {
    && row.item == item && row.coverage == x.coverage && row.error == x.error
    && |row.records| == |x.chunks| == |x.vectors|
    && forall j :: 0 <= j < |x.chunks| ==> StoresChunk(row.records[j], x.chunks[j], x.vectors[j], e)
  }

  predicate StoresCandidate(rows: seq<SectionRow>, c: Candidate, e: Embedding) {
    |rows| == |ITEMS| && forall i :: 0 <= i < |ITEMS| ==> StoresItem(rows[i], ITEMS[i], c[i], e)
  }

  lemma {:induction false} RowsStore(c: Candidate, e: Embedding)
    requires Rows(c, e).Some?
    ensures StoresCandidate(Rows(c, e).value, c, e)
  {
    RowsIff(c, e);
    forall i | 0 <= i < |ITEMS|
      ensures StoresItem(Rows(c, e).value[i], ITEMS[i], c[i], e)
    {
      RowAt(c, e, i);
      RecordsAreGold(c[i].chunks, c[i].vectors, e);
    }
  }

  /** The tables behind IngestionRepository. */
  class CorpusTables {
    var filings: seq<Filing>
    var corpora: seq<Corpus>
    var activations: seq<Activation>

    ghost function Contents(): State
      reads this
    {
      State(filings, corpora, activations)
    }

    constructor ()
      ensures Contents() == EMPTY
    {
      filings, corpora, activations := [], [], [];
    }

    method ActivateExisting(company: nat, corpus: nat)
      modifies this`activations
      ensures Contents() == old(Contents()).(activations := WithDefault(old(activations), company, corpus))
    {
      activations := Deactivated(activations, company);
      activations := activations + [Activation(company, corpus, true)];
    }

    method Persist(
      company: nat, cik: nat, accession: nat, key: nat, c: Candidate, e: Embedding, promote: bool)
      returns (corpus: Option<nat>)
      modifies this
      ensures var r := Persisted(old(Contents()), company, cik, accession, key, c, e, promote);
        && (r.None? ==> corpus == None && Contents() == old(Contents()))
        && (r.Some? ==> corpus == Some(r.value.1) && Contents() == r.value.0)
      ensures corpora == old(corpora)
              || (&& corpus == Some(|old(corpora)|) && |corpora| == |old(corpora)| + 1
                  && corpora[..|old(corpora)|] == old(corpora)
                  && StoresCandidate(corpora[|old(corpora)|].rows, c, e))
    {
      var found := FindFiling(filings, cik, accession);
      var filing := if found.Some? then found.value else |filings|;
      var existing := FindCorpus(corpora, filing, key);
      if existing.Some? {
        if !corpora[existing.value].ready {
          return None;
        }
        if found.None? {
          filings := filings + [Filing(company, cik, accession)];
        }
        return existing;
      }
      var built := BuildRows(c, e);
      if built.None? {
        return None;
      }
      var rows := built.value;
      RowsStore(c, e);
      var passes := ValidateCandidate(rows, e);
      if !passes {
        return None;
      }
      if found.None? {
        filings := filings + [Filing(company, cik, accession)];
      }
      corpus := Some(|corpora|);
      corpora := corpora + [Corpus(filing, key, true, rows)];
      if promote {
        ActivateExisting(company, corpus.value);
      }
    }
  }

  method BuildRows(c: Candidate, e: Embedding) returns (r: Option<seq<SectionRow>>)
    ensures r == Rows(c, e)
  {
    var rows: seq<SectionRow> := [];
    for i := 0 to |ITEMS|
      invariant Rows(c[..i], e) == Some(rows)
    {
      RowsUpTo(c, i, e);
      if !Embedded(c[i], e) {
        return None;
      }
      rows := rows + [SectionRow(ITEMS[i], c[i].coverage, c[i].error, Records(c[i].chunks, c[i].vectors, e))];
    }
    assert c[..|ITEMS|] == c;
    return Some(rows);
  }

  lemma {:induction false} RowsUpTo(c: seq<ItemInput>, i: nat, e: Embedding)
    requires i < |c| <= |ITEMS|
    ensures Rows(c[..i + 1], e)
         == (match Rows(c[..i], e)
             case None => None
             case Some(rows) =>
               if !Embedded(c[i], e) then None
               else
                 var records := Records(c[i].chunks, c[i].vectors, e);
                 Some(rows + [SectionRow(ITEMS[i], c[i].coverage, c[i].error, records)]))
    ensures Rows(c[..i], e).Some? && !Embedded(c[i], e) ==> Rows(c, e).None?
  {
    assert c[..i + 1][..i] == c[..i];
    assert c[i] in c;
    RowsIff(c, e);
  }

  // ----- ingestions in flight ---------------------------------------------

  datatype Mode = Latest | ExactYear

  /** What an ingestion reports about the company's default corpus. */
  datatype Disposition = Activated | Historical | Promoted | Unchanged | PreviousPreserved

  datatype Stage =
    | Looking
    | Promoting(existing: nat)
    | Building
    | Finished(disposition: Disposition, corpus: Option<nat>)

  datatype Ingestion = Ingestion(company: nat, cik: nat, accession: nat, key: nat, mode: Mode, stage: Stage)

  datatype World = World(db: State, ingestions: seq<Ingestion>)

  /** Advance takes the candidate to build, or None when the next step raises. */
  datatype Action =
    | Begin(company: nat, cik: nat, accession: nat, key: nat, mode: Mode)
    | Advance(ingestion: nat, candidate: Option<Candidate>)

  const FAILED := Finished(PreviousPreserved, None)

  /** What may reach persist: every required Item found or explained as absent, and something to embed. */
  predicate Usable(candidate: Option<Candidate>) {
    && candidate.Some?
    && (forall x :: x in candidate.value ==> !x.coverage.Failed? && !x.coverage.NotAssessed?)
    && exists x :: x in candidate.value && x.chunks != []
  }

  /** The next transaction of process_acquisition, from the look for a ready corpus on. */
  function Advanced(s: State, g: Ingestion, candidate: Option<Candidate>, e: Embedding): (State, Stage) {
    match g.stage
    case Finished(_, _) => (s, g.stage)
    case Looking =>
      if candidate.None? then (s, FAILED)
      else
        (match ReadyCorpus(s, |s.corpora|, g.company, g.accession, g.key)
         case None => (s, Building)
         case Some(corpus) =>
           if g.mode.Latest? && !IsActive(s.activations, corpus) then (s, Promoting(corpus))
           else (s, Finished(Unchanged, Some(corpus))))
    case Promoting(corpus) =>
      if candidate.None? then (s, FAILED)
      else (s.(activations := WithDefault(s.activations, g.company, corpus)), Finished(Promoted, Some(corpus)))
    case Building =>
      if !Usable(candidate) then (s, FAILED)
      else
        match Persisted(s, g.company, g.cik, g.accession, g.key, candidate.value, e, g.mode.Latest?)
        case None => (s, FAILED)
        case Some((t, corpus)) => (t, Finished(if g.mode.Latest? then Activated else Historical, Some(corpus)))
  }

  function After(w: World, a: Action, e: Embedding): World {
    match a
    case Begin(company, cik, accession, key, mode) =>
      w.(ingestions := w.ingestions + [Ingestion(company, cik, accession, key, mode, Looking)])
    case Advance(i, candidate) =>
      if i >= |w.ingestions| then w
      else
        var (t, stage) := Advanced(w.db, w.ingestions[i], candidate, e);
        World(t, w.ingestions[i := w.ingestions[i].(stage := stage)])
  }

  function Run(actions: seq<Action>, e: Embedding): World {
    if actions == [] then World(EMPTY, [])
    else After(Run(actions[..|actions| - 1], e), actions[|actions| - 1], e)
  }

  // ----- what is stored ---------------------------------------------------

  /** A persist that adds a corpus stores the whole candidate, for the filing and key it was asked for. */
  lemma {:induction false} PersistStores(
    s: State, company: nat, cik: nat, accession: nat, key: nat, c: Candidate, e: Embedding, promote: bool)
    requires Persisted(s, company, cik, accession, key, c, e, promote).Some?
    requires forall x :: x in s.corpora ==> x.filing < |s.filings|
    ensures var (t, corpus) := Persisted(s, company, cik, accession, key, c, e, promote).value;
      && corpus < |t.corpora| && t.corpora[corpus].ready && t.corpora[corpus].key == key
      && s.filings <= t.filings && t.corpora[corpus].filing < |t.filings|
      && t.filings[t.corpora[corpus].filing].cik == cik
      && t.filings[t.corpora[corpus].filing].accession == accession
      && if |t.corpora| == |s.corpora| then t.corpora == s.corpora && t.activations == s.activations
         else
           && corpus == |s.corpora| && |t.corpora| == corpus + 1 && t.corpora[..corpus] == s.corpora
           && StoresCandidate(t.corpora[corpus].rows, c, e)
           && t.activations == if promote then WithDefault(s.activations, company, corpus) else s.activations
  {
    if Rows(c, e).Some? {
      RowsStore(c, e);
    }
  }

  /** The corpus was handed to persist by one of the actions. */
  ghost predicate HandedOver(actions: seq<Action>, x: Corpus, e: Embedding) {
    exists i, c: Candidate :: Advance(i, Some(c)) in actions && StoresCandidate(x.rows, c, e)
  }

  lemma {:induction false} CorporaGrow(w: World, a: Action, e: Embedding)
    requires forall x :: x in w.db.corpora ==> x.filing < |w.db.filings|
    ensures var t := After(w, a, e).db;
      t.corpora == w.db.corpora
      || (&& |t.corpora| == |w.db.corpora| + 1 && t.corpora[..|w.db.corpora|] == w.db.corpora
          && a.Advance? && a.candidate.Some?
          && StoresCandidate(t.corpora[|w.db.corpora|].rows, a.candidate.value, e))
  {
    if a.Advance? && a.ingestion < |w.ingestions| && w.ingestions[a.ingestion].stage.Building? && Usable(a.candidate) {
      var g := w.ingestions[a.ingestion];
      if Persisted(w.db, g.company, g.cik, g.accession, g.key, a.candidate.value, e, g.mode.Latest?).Some? {
        PersistStores(w.db, g.company, g.cik, g.accession, g.key, a.candidate.value, e, g.mode.Latest?);
      }
    }
  }

  /** In every run, every corpus holds exactly the chunks, texts and vectors of some candidate. */
  lemma {:induction false} CorporaAreCandidates(actions: seq<Action>, e: Embedding, k: nat)
    requires k < |Run(actions, e).db.corpora|
    ensures HandedOver(actions, Run(actions, e).db.corpora[k], e)
  {
    var before, a := actions[..|actions| - 1], actions[|actions| - 1];
    RunIsSound(before, e);
    CorporaGrow(Run(before, e), a, e);
    assert a in actions && forall b :: b in before ==> b in actions;
    if k < |Run(before, e).db.corpora| {
      CorporaAreCandidates(before, e, k);
      var i, c: Candidate :| Advance(i, Some(c)) in before
        && StoresCandidate(Run(before, e).db.corpora[k].rows, c, e);
      assert Advance(i, Some(c)) in actions;
    } else {
      assert Advance(a.ingestion, Some(a.candidate.value)) in actions;
    }
  }

  // ----- one default per company ------------------------------------------

  function DefaultCount(activations: seq<Activation>, company: nat): nat {
    if activations == [] then 0
    else
      var last := activations[|activations| - 1];
      DefaultCount(activations[..|activations| - 1], company)
      + if last.company == company && last.isDefault then 1 else 0
  }

  /** The company's default corpus. */
  function Default(activations: seq<Activation>, company: nat): (r: Option<nat>)
    ensures r.Some? <==> DefaultCount(activations, company) > 0
  {
    if activations == [] then None
    else
      var last := activations[|activations| - 1];
      if last.company == company && last.isDefault then Some(last.corpus)
      else Default(activations[..|activations| - 1], company)
  }

  lemma {:induction false} DeactivatedDefaults(activations: seq<Activation>, company: nat, d: nat)
    ensures DefaultCount(Deactivated(activations, company), d)
         == if d == company then 0 else DefaultCount(activations, d)
    ensures Default(Deactivated(activations, company), d) == if d == company then None else Default(activations, d)
  {
    if activations != [] {
      DeactivatedDefaults(activations[..|activations| - 1], company, d);
    }
  }

  /** Activation leaves exactly one default for the company and every other company's default alone. */
  lemma {:induction false} ActivatedDefaults(activations: seq<Activation>, company: nat, corpus: nat, d: nat)
    ensures DefaultCount(WithDefault(activations, company, corpus), d)
         == if d == company then 1 else DefaultCount(activations, d)
    ensures Default(WithDefault(activations, company, corpus), d)
         == if d == company then Some(corpus) else Default(activations, d)
  {
    DeactivatedDefaults(activations, company, d);
    assert WithDefault(activations, company, corpus)[..|activations|] == Deactivated(activations, company);
  }

  ghost predicate Staged(w: World) {
    forall i :: 0 <= i < |w.ingestions| && w.ingestions[i].stage.Promoting? ==>
      w.ingestions[i].mode.Latest? && w.ingestions[i].stage.existing < |w.db.corpora|
  }

  /** What a step does to the default of company d: nothing, or what a latest-mode ingestion of d reports. */
  lemma {:induction false} DefaultAfterStep(w: World, a: Action, e: Embedding, d: nat)
    requires Staged(w)
    ensures var before, after := w.db.activations, After(w, a, e).db.activations;
      && (Default(before, d).Some? ==> Default(after, d).Some?)
      && (DefaultCount(before, d) <= 1 ==> DefaultCount(after, d) <= 1)
      && (Default(after, d) != Default(before, d) ==>
            && a.Advance? && a.ingestion < |w.ingestions|
            && w.ingestions[a.ingestion].company == d && w.ingestions[a.ingestion].mode.Latest?
            && After(w, a, e).ingestions[a.ingestion].stage.Finished?
            && After(w, a, e).ingestions[a.ingestion].stage.disposition in {Activated, Promoted}
            && Default(after, d) == After(w, a, e).ingestions[a.ingestion].stage.corpus)
  {
    if a.Advance? && a.ingestion < |w.ingestions| {
      var g := w.ingestions[a.ingestion];
      AdvancedActivations(w.db, g, a.candidate, e);
      var (t, stage) := Advanced(w.db, g, a.candidate, e);
      if stage.Finished? && stage.corpus.Some? {
        ActivatedDefaults(w.db.activations, g.company, stage.corpus.value, d);
      }
    }
  }

  /** Only a latest-mode ingestion that ends by promoting a corpus touches the activations. */
  lemma {:induction false} AdvancedActivations(s: State, g: Ingestion, candidate: Option<Candidate>, e: Embedding)
    requires g.stage.Promoting? ==> g.mode.Latest?
    ensures var (t, stage) := Advanced(s, g, candidate, e);
      t.activations == s.activations
      || (g.mode.Latest? && stage.Finished? && stage.disposition in {Activated, Promoted} && stage.corpus.Some?
          && t.activations == WithDefault(s.activations, g.company, stage.corpus.value))
  {
  }

  /** Every corpus row is ready and passed the six-Item validation; every activation names one. */
  ghost predicate Sound(s: State, e: Embedding) {
    && (forall i :: 0 <= i < |s.corpora| ==>
          s.corpora[i].ready && s.corpora[i].filing < |s.filings| && Passes(s.corpora[i].rows, e))
    && (forall i :: 0 <= i < |s.activations| ==> s.activations[i].corpus < |s.corpora|)
  }

  lemma {:induction false} DeactivatedCorpora(activations: seq<Activation>, company: nat)
    ensures forall i :: 0 <= i < |activations| ==>
      Deactivated(activations, company)[i].corpus == activations[i].corpus
      && Deactivated(activations, company)[i].company == activations[i].company
  {
    if activations != [] {
      DeactivatedCorpora(activations[..|activations| - 1], company);
    }
  }

  lemma {:induction false} ActivatedIsSound(s: State, company: nat, corpus: nat, e: Embedding)
    requires Sound(s, e) && corpus < |s.corpora|
    ensures Sound(s.(activations := WithDefault(s.activations, company, corpus)), e)
  {
    DeactivatedCorpora(s.activations, company);
  }

  lemma {:induction false} PersistedIsSound(
    s: State, company: nat, cik: nat, accession: nat, key: nat, c: Candidate, e: Embedding, promote: bool)
    requires Sound(s, e) && Persisted(s, company, cik, accession, key, c, e, promote).Some?
    ensures var (t, corpus) := Persisted(s, company, cik, accession, key, c, e, promote).value;
      Sound(t, e) && |s.corpora| <= |t.corpora| && corpus < |t.corpora|
  {
    var (t, corpus) := Persisted(s, company, cik, accession, key, c, e, promote).value;
    var plain := t.(activations := s.activations);
    assert Sound(plain, e);
    if t.activations != s.activations {
      ActivatedIsSound(plain, company, corpus, e);
    }
  }

  lemma {:induction false} AfterIsSound(w: World, a: Action, e: Embedding)
    requires Sound(w.db, e) && Staged(w)
    ensures Sound(After(w, a, e).db, e) && Staged(After(w, a, e))
  {
    if a.Advance? && a.ingestion < |w.ingestions| {
      var g := w.ingestions[a.ingestion];
      if g.stage.Promoting? {
        ActivatedIsSound(w.db, g.company, g.stage.existing, e);
      } else if g.stage.Building? && a.candidate.Some?
             && Persisted(w.db, g.company, g.cik, g.accession, g.key, a.candidate.value, e, g.mode.Latest?).Some? {
        PersistedIsSound(w.db, g.company, g.cik, g.accession, g.key, a.candidate.value, e, g.mode.Latest?);
      }
    }
  }

  lemma {:induction false} RunIsSound(actions: seq<Action>, e: Embedding)
    ensures Sound(Run(actions, e).db, e) && Staged(Run(actions, e))
  {
    if actions != [] {
      RunIsSound(actions[..|actions| - 1], e);
      AfterIsSound(Run(actions[..|actions| - 1], e), actions[|actions| - 1], e);
    }
  }

  lemma {:induction false} DefaultsAreComplete(s: State, e: Embedding, company: nat)
    requires Sound(s, e) && Default(s.activations, company).Some?
    ensures var corpus := Default(s.activations, company).value;
      corpus < |s.corpora| && s.corpora[corpus].ready && Passes(s.corpora[corpus].rows, e)
    decreases |s.activations|
  {
    var last := s.activations[|s.activations| - 1];
    if !(last.company == company && last.isDefault) {
      DefaultsAreComplete(s.(activations := s.activations[..|s.activations| - 1]), e, company);
    }
  }

  /**
   Every run of ingestions, however they interleave and wherever they stop: a company has
   at most one default corpus, and that corpus is ready and passed the validation.
   */
  lemma {:induction false} EveryDefaultIsComplete(actions: seq<Action>, e: Embedding, company: nat)
    ensures var s := Run(actions, e).db;
      && DefaultCount(s.activations, company) <= 1
      && (Default(s.activations, company).Some? ==>
            var corpus := Default(s.activations, company).value;
            corpus < |s.corpora| && s.corpora[corpus].ready && Passes(s.corpora[corpus].rows, e))
  {
    RunIsSound(actions, e);
    OneDefault(actions, e, company);
    if Default(Run(actions, e).db.activations, company).Some? {
      DefaultsAreComplete(Run(actions, e).db, e, company);
    }
  }

  lemma {:induction false} OneDefault(actions: seq<Action>, e: Embedding, company: nat)
    ensures DefaultCount(Run(actions, e).db.activations, company) <= 1
  {
    if actions != [] {
      OneDefault(actions[..|actions| - 1], e, company);
      RunIsSound(actions[..|actions| - 1], e);
      DefaultAfterStep(Run(actions[..|actions| - 1], e), actions[|actions| - 1], e, company);
    }
  }

  /** A company that has a default corpus has one ever after. */
  lemma {:induction false} DefaultIsNeverLost(actions: seq<Action>, more: seq<Action>, e: Embedding, company: nat)
    requires Default(Run(actions, e).db.activations, company).Some?
    ensures Default(Run(actions + more, e).db.activations, company).Some?
  {
    if more == [] {
      assert actions + more == actions;
    } else {
      var before := actions + more[..|more| - 1];
      assert (actions + more)[..|actions + more| - 1] == before;
      DefaultIsNeverLost(actions, more[..|more| - 1], e, company);
      RunIsSound(before, e);
      DefaultAfterStep(Run(before, e), more[|more| - 1], e, company);
    }
  }

  // ----- how an ingestion goes on -----------------------------------------

  /** Corpus i is of the filing with that CIK and accession, and was built under that key. */
  predicate IsCorpusFor(s: State, i: nat, cik: nat, accession: nat, key: nat) {
    && i < |s.corpora| && s.corpora[i].key == key && s.corpora[i].filing < |s.filings|
    && s.filings[s.corpora[i].filing].cik == cik && s.filings[s.corpora[i].filing].accession == accession
  }

  /** No filing is stored twice, and none has two corpora under one key. */
  ghost predicate Unique(s: State) {
    && (forall i, j :: 0 <= i < j < |s.filings| ==>
          s.filings[i].cik != s.filings[j].cik || s.filings[i].accession != s.filings[j].accession)
    && (forall i, j :: 0 <= i < j < |s.corpora| ==>
          s.corpora[i].filing != s.corpora[j].filing || s.corpora[i].key != s.corpora[j].key)
  }

  lemma {:induction false} PersistedIsUnique(
    s: State, company: nat, cik: nat, accession: nat, key: nat, c: Candidate, e: Embedding, promote: bool)
    requires Unique(s) && Persisted(s, company, cik, accession, key, c, e, promote).Some?
    ensures Unique(Persisted(s, company, cik, accession, key, c, e, promote).value.0)
  {
  }

  lemma {:induction false} RunIsUnique(actions: seq<Action>, e: Embedding)
    ensures Unique(Run(actions, e).db)
  {
    if actions != [] {
      var before, a := actions[..|actions| - 1], actions[|actions| - 1];
      RunIsUnique(before, e);
      AfterIsUnique(Run(before, e), a, e);
    }
  }

  lemma {:induction false} AfterIsUnique(w: World, a: Action, e: Embedding)
    requires Unique(w.db)
    ensures Unique(After(w, a, e).db)
  {
    if a.Advance? && a.ingestion < |w.ingestions| && w.ingestions[a.ingestion].stage.Building? && a.candidate.Some? {
      var g := w.ingestions[a.ingestion];
      if Persisted(w.db, g.company, g.cik, g.accession, g.key, a.candidate.value, e, g.mode.Latest?).Some? {
        PersistedIsUnique(w.db, g.company, g.cik, g.accession, g.key, a.candidate.value, e, g.mode.Latest?);
      }
    }
  }

  /** What persist looks up is the one corpus of the filing and key. */
  lemma {:induction false} StoredIsFound(s: State, i: nat, cik: nat, accession: nat, key: nat)
    requires Unique(s) && IsCorpusFor(s, i, cik, accession, key)
    ensures FindFiling(s.filings, cik, accession) == Some(s.corpora[i].filing)
    ensures FindCorpus(s.corpora, s.corpora[i].filing, key) == Some(i)
  {
  }

  /** Without one, a persist adds a corpus exactly for a complete candidate. */
  lemma {:induction false} NewIsAdded(
    s: State, company: nat, cik: nat, accession: nat, key: nat, c: Candidate, e: Embedding, promote: bool)
    requires Sound(s, e) && forall i :: 0 <= i < |s.corpora| ==> !IsCorpusFor(s, i, cik, accession, key)
    ensures var r := Persisted(s, company, cik, accession, key, c, e, promote);
      && (r.Some? <==> Complete(c, e))
      && (r.Some? ==> IsCorpusFor(r.value.0, r.value.1, cik, accession, key))
  {
    ValidationIff(c, e);
    var found := FindFiling(s.filings, cik, accession);
    var filing := if found.Some? then found.value else |s.filings|;
    var existing := FindCorpus(s.corpora, filing, key);
    assert existing.Some? ==> s.corpora[existing.value].filing < |s.filings|;
    assert existing.Some? ==> IsCorpusFor(s, existing.value, cik, accession, key);
  }

  /** persist answers with the corpus there is for the filing and key, or with a new one for a complete candidate. */
  lemma {:induction false} PersistAnswers(
    s: State, company: nat, cik: nat, accession: nat, key: nat, c: Candidate, e: Embedding, promote: bool)
    requires Sound(s, e) && Unique(s)
    ensures var r := Persisted(s, company, cik, accession, key, c, e, promote);
      && (r.None? <==> !Complete(c, e) && forall i :: 0 <= i < |s.corpora| ==> !IsCorpusFor(s, i, cik, accession, key))
      && (r.Some? ==> IsCorpusFor(r.value.0, r.value.1, cik, accession, key))
      && (forall i :: 0 <= i < |s.corpora| && IsCorpusFor(s, i, cik, accession, key) ==> r == Some((s, i)))
  {
    if i: nat :| i < |s.corpora| && IsCorpusFor(s, i, cik, accession, key) {
      StoredIsFound(s, i, cik, accession, key);
    } else {
      NewIsAdded(s, company, cik, accession, key, c, e, promote);
    }
  }

  /** Nothing to build from: an Item was not extracted, or no Item has anything to embed. */
  predicate NothingToBuild(candidate: Option<Candidate>) {
    || candidate.None?
    || (exists x :: x in candidate.value && (x.coverage.Failed? || x.coverage.NotAssessed?))
    || (forall x :: x in candidate.value ==> x.chunks == [])
  }

  /**
   The look for a ready corpus changes nothing. An ingestion builds when no ready corpus of
   its company has its accession and key; it promotes one that is nobody's default, in latest
   mode; and it is over with any other.
   */
  lemma {:induction false} LookOutcome(s: State, g: Ingestion, candidate: Option<Candidate>, e: Embedding)
    requires g.stage.Looking?
    ensures var (t, stage) := Advanced(s, g, candidate, e);
      && t == s
      && (candidate.None? ==> stage == Finished(PreviousPreserved, None))
      && (candidate.Some? && (forall x :: x in s.corpora && x.ready && x.filing < |s.filings| && x.key == g.key ==>
            s.filings[x.filing].company != g.company || s.filings[x.filing].accession != g.accession)
          ==> stage == Building)
      && (candidate.Some? && !stage.Building? ==>
            exists i: nat ::
              && i < |s.corpora| && s.corpora[i].ready && s.corpora[i].filing < |s.filings| && s.corpora[i].key == g.key
              && s.filings[s.corpora[i].filing].company == g.company
              && s.filings[s.corpora[i].filing].accession == g.accession
              && stage == if g.mode.Latest? && (forall a :: a in s.activations && a.isDefault ==> a.corpus != i)
                          then Promoting(i) else Finished(Unchanged, Some(i)))
  {
  }

  /** The corpus found is made the company's only default. */
  lemma {:induction false} PromoteOutcome(s: State, g: Ingestion, candidate: Option<Candidate>, e: Embedding, d: nat)
    requires g.stage.Promoting?
    ensures var (t, stage) := Advanced(s, g, candidate, e);
      && t.filings == s.filings && t.corpora == s.corpora
      && (candidate.None? ==> t == s && stage == Finished(PreviousPreserved, None))
      && (candidate.Some? ==>
            && stage == Finished(Promoted, Some(g.stage.existing))
            && Default(t.activations, g.company) == Some(g.stage.existing)
            && (d != g.company ==> Default(t.activations, d) == Default(s.activations, d)))
  {
    ActivatedDefaults(s.activations, g.company, g.stage.existing, g.company);
    ActivatedDefaults(s.activations, g.company, g.stage.existing, d);
  }

  /**
   A build fails, leaving the tables as they were, exactly when there is nothing to build
   from, or no corpus is stored for the filing and key and the candidate is not complete.
   Otherwise it ends with the corpus of its filing and key.
   */
  lemma {:induction false} BuildOutcome(s: State, g: Ingestion, candidate: Option<Candidate>, e: Embedding)
    requires Sound(s, e) && Unique(s) && g.stage.Building?
    ensures var (t, stage) := Advanced(s, g, candidate, e);
      if NothingToBuild(candidate)
         || (!Complete(candidate.value, e)
             && forall i :: 0 <= i < |s.corpora| ==> !IsCorpusFor(s, i, g.cik, g.accession, g.key))
      then t == s && stage == Finished(PreviousPreserved, None)
      else
        && stage.Finished? && stage.corpus.Some?
        && stage.disposition == (if g.mode.Latest? then Activated else Historical)
        && IsCorpusFor(t, stage.corpus.value, g.cik, g.accession, g.key)
  {
    if Usable(candidate) {
      PersistAnswers(s, g.company, g.cik, g.accession, g.key, candidate.value, e, g.mode.Latest?);
    }
  }

  /** How the next step of an ingestion goes, in every run. */
  lemma {:induction false} NextBuild(actions: seq<Action>, i: nat, candidate: Option<Candidate>, e: Embedding)
    requires i < |Run(actions, e).ingestions| && Run(actions, e).ingestions[i].stage.Building?
    ensures var s, g := Run(actions, e).db, Run(actions, e).ingestions[i];
      var w := Run(actions + [Advance(i, candidate)], e);
      && i < |w.ingestions| && w.ingestions[i].stage.Finished?
      && (w.ingestions[i].stage.corpus.None? <==>
            NothingToBuild(candidate)
            || (!Complete(candidate.value, e)
                && forall k :: 0 <= k < |s.corpora| ==> !IsCorpusFor(s, k, g.cik, g.accession, g.key)))
  {
    var w := Run(actions, e);
    RunPush(actions, Advance(i, candidate), e);
    RunIsSound(actions, e);
    RunIsUnique(actions, e);
    BuildOutcome(w.db, w.ingestions[i], candidate, e);
  }

  // ----- a default belongs to its company ---------------------------------

  /** Every ingestion of a company carries that company's CIK. */
  ghost predicate CiksAre(actions: seq<Action>, cik: nat -> nat) {
    forall a :: a in actions && a.Begin? ==> a.cik == cik(a.company)
  }

  ghost predicate Distinct(cik: nat -> nat) {
    forall c, d :: cik(c) == cik(d) ==> c == d
  }

  predicate CorpusIsOf(s: State, corpus: nat, company: nat) {
    corpus < |s.corpora| && s.corpora[corpus].filing < |s.filings|
    && s.filings[s.corpora[corpus].filing].company == company
  }

  ghost predicate ActivationsOwned(s: State) {
    forall i :: 0 <= i < |s.activations| ==> CorpusIsOf(s, s.activations[i].corpus, s.activations[i].company)
  }

  ghost predicate Owned(w: World, cik: nat -> nat) {
    && (forall i :: 0 <= i < |w.db.filings| ==> w.db.filings[i].cik == cik(w.db.filings[i].company))
    && (forall i :: 0 <= i < |w.ingestions| ==> w.ingestions[i].cik == cik(w.ingestions[i].company))
    && (forall i :: 0 <= i < |w.ingestions| && w.ingestions[i].stage.Promoting? ==>
          CorpusIsOf(w.db, w.ingestions[i].stage.existing, w.ingestions[i].company))
    && ActivationsOwned(w.db)
  }

  lemma {:induction false} WithDefaultIsOwned(s: State, company: nat, corpus: nat)
    requires ActivationsOwned(s) && CorpusIsOf(s, corpus, company)
    ensures ActivationsOwned(s.(activations := WithDefault(s.activations, company, corpus)))
  {
    DeactivatedCorpora(s.activations, company);
    var t := s.(activations := WithDefault(s.activations, company, corpus));
    forall i | 0 <= i < |t.activations|
      ensures CorpusIsOf(t, t.activations[i].corpus, t.activations[i].company)
    {
      if i < |s.activations| {
        assert CorpusIsOf(s, s.activations[i].corpus, s.activations[i].company);
      } else {
        assert CorpusIsOf(s, corpus, company);
      }
    }
  }

  /** The corpus persist answers with is one of the company's own filing. */
  lemma {:induction false} PersistedIsOwned(
    s: State, company: nat, c: Candidate, accession: nat, key: nat, e: Embedding, promote: bool, cik: nat -> nat)
    requires Sound(s, e) && ActivationsOwned(s) && Distinct(cik)
    requires forall i :: 0 <= i < |s.filings| ==> s.filings[i].cik == cik(s.filings[i].company)
    requires Persisted(s, company, cik(company), accession, key, c, e, promote).Some?
    ensures var (t, corpus) := Persisted(s, company, cik(company), accession, key, c, e, promote).value;
      && CorpusIsOf(t, corpus, company) && ActivationsOwned(t)
      && (forall i :: 0 <= i < |t.filings| ==> t.filings[i].cik == cik(t.filings[i].company))
      && s.filings <= t.filings && s.corpora <= t.corpora
  {
    var (t, corpus) := Persisted(s, company, cik(company), accession, key, c, e, promote).value;
    var plain := t.(activations := s.activations);
    assert CorpusIsOf(plain, corpus, company);
    forall i | 0 <= i < |s.activations|
      ensures CorpusIsOf(plain, s.activations[i].corpus, s.activations[i].company)
    {
      assert CorpusIsOf(s, s.activations[i].corpus, s.activations[i].company);
    }
    if t.activations != s.activations {
      WithDefaultIsOwned(plain, company, corpus);
    }
  }

  lemma {:induction false} AdvancedIsOwned(
    w: World, i: nat, candidate: Option<Candidate>, e: Embedding, cik: nat -> nat)
    requires Sound(w.db, e) && Staged(w) && Owned(w, cik) && Distinct(cik) && i < |w.ingestions|
    ensures var (t, stage) := Advanced(w.db, w.ingestions[i], candidate, e);
      && ActivationsOwned(t)
      && (forall j :: 0 <= j < |t.filings| ==> t.filings[j].cik == cik(t.filings[j].company))
      && w.db.filings <= t.filings && w.db.corpora <= t.corpora
      && (stage.Promoting? ==> CorpusIsOf(t, stage.existing, w.ingestions[i].company))
  {
    var g := w.ingestions[i];
    if g.stage.Promoting? {
      WithDefaultIsOwned(w.db, g.company, g.stage.existing);
    } else if g.stage.Building? && candidate.Some?
           && Persisted(w.db, g.company, g.cik, g.accession, g.key, candidate.value, e, g.mode.Latest?).Some? {
      PersistedIsOwned(w.db, g.company, candidate.value, g.accession, g.key, e, g.mode.Latest?, cik);
    }
  }

  lemma {:induction false} AfterIsOwned(w: World, a: Action, e: Embedding, cik: nat -> nat)
    requires Sound(w.db, e) && Staged(w) && Owned(w, cik) && Distinct(cik)
    requires a.Begin? ==> a.cik == cik(a.company)
    ensures Owned(After(w, a, e), cik)
  {
    if a.Advance? && a.ingestion < |w.ingestions| {
      AdvancedIsOwned(w, a.ingestion, a.candidate, e, cik);
      var v := After(w, a, e);
      forall i | 0 <= i < |v.ingestions| && v.ingestions[i].stage.Promoting?
        ensures CorpusIsOf(v.db, v.ingestions[i].stage.existing, v.ingestions[i].company)
      {
      }
    }
  }

  lemma {:induction false} RunIsOwned(actions: seq<Action>, e: Embedding, cik: nat -> nat)
    requires CiksAre(actions, cik) && Distinct(cik)
    ensures Owned(Run(actions, e), cik)
  {
    if actions != [] {
      var before, a := actions[..|actions| - 1], actions[|actions| - 1];
      assert forall b :: b in before ==> b in actions;
      assert a in actions;
      RunIsOwned(before, e, cik);
      RunIsSound(before, e);
      AfterIsOwned(Run(before, e), a, e, cik);
    }
  }

  // ----- one ingestion without interference -------------------------------

  function Three(w: World, begin: Action, candidate: Option<Candidate>, e: Embedding): World {
    var next := Advance(|w.ingestions|, candidate);
    After(After(After(w, begin, e), next, e), next, e)
  }

  lemma {:induction false} RunThree(actions: seq<Action>, begin: Action, candidate: Option<Candidate>, e: Embedding)
    ensures var next := Advance(|Run(actions, e).ingestions|, candidate);
      Run(actions + [begin, next, next], e) == Three(Run(actions, e), begin, candidate, e)
  {
    var next := Advance(|Run(actions, e).ingestions|, candidate);
    RunPush(actions, begin, e);
    RunPush(actions + [begin], next, e);
    RunPush(actions + [begin] + [next], next, e);
    assert actions + [begin] + [next] + [next] == actions + [begin, next, next];
  }

  lemma {:induction false} RunPush(actions: seq<Action>, a: Action, e: Embedding)
    ensures Run(actions + [a], e) == After(Run(actions, e), a, e)
  {
    assert (actions + [a])[..|actions|] == actions;
  }

  lemma {:induction false} TheDefaultIs(activations: seq<Activation>, a: Activation)
    requires a in activations && a.isDefault && DefaultCount(activations, a.company) <= 1
    ensures Default(activations, a.company) == Some(a.corpus)
  {
    var before, last := activations[..|activations| - 1], activations[|activations| - 1];
    if a in before {
      TheDefaultIs(before, a);
    }
  }

  /** A ready corpus that is active is the company's own default. */
  lemma {:induction false} ActiveIsDefault(s: State, company: nat, accession: nat, key: nat)
    requires ActivationsOwned(s) && DefaultCount(s.activations, company) <= 1
    requires var r := ReadyCorpus(s, |s.corpora|, company, accession, key); r.Some? && IsActive(s.activations, r.value)
    ensures Default(s.activations, company) == ReadyCorpus(s, |s.corpora|, company, accession, key)
  {
    var corpus := ReadyCorpus(s, |s.corpora|, company, accession, key).value;
    var a :| a in s.activations && a.corpus == corpus && a.isDefault;
    var i :| 0 <= i < |s.activations| && s.activations[i] == a;
    assert CorpusIsOf(s, s.activations[i].corpus, s.activations[i].company);
    TheDefaultIs(s.activations, a);
  }

  /** When no ready corpus was found, persist inserts a new one. */
  lemma {:induction false} NothingReadyMeansNew(
    s: State, company: nat, accession: nat, key: nat, c: Candidate, e: Embedding, cik: nat -> nat)
    requires Sound(s, e) && Distinct(cik)
    requires forall i :: 0 <= i < |s.filings| ==> s.filings[i].cik == cik(s.filings[i].company)
    requires ReadyCorpus(s, |s.corpora|, company, accession, key).None?
    requires Persisted(s, company, cik(company), accession, key, c, e, true).Some?
    ensures var (t, corpus) := Persisted(s, company, cik(company), accession, key, c, e, true).value;
      t.activations == WithDefault(s.activations, company, corpus)
  {
    var found := FindFiling(s.filings, cik(company), accession);
    var filing := if found.Some? then found.value else |s.filings|;
    if FindCorpus(s.corpora, filing, key).Some? {
      assert false;
    }
  }

  lemma {:induction false} LookedUpLatest(
    s: State, g: Ingestion, candidate: Option<Candidate>, e: Embedding, cik: nat -> nat)
    requires Sound(s, e) && ActivationsOwned(s) && Distinct(cik) && DefaultCount(s.activations, g.company) <= 1
    requires forall i :: 0 <= i < |s.filings| ==> s.filings[i].cik == cik(s.filings[i].company)
    requires g.stage.Looking? && g.mode.Latest? && g.cik == cik(g.company)
    ensures var (_, first) := Advanced(s, g, candidate, e);
      var (t, second) := Advanced(s, g.(stage := first), candidate, e);
      && second.Finished?
      && (second.disposition.Activated? ==> second.corpus.Some?)
      && (second.corpus.Some? ==> Default(t.activations, g.company) == second.corpus)
      && (second.corpus.None? ==> t.activations == s.activations)
  {
    var (_, first) := Advanced(s, g, candidate, e);
    var (t, second) := Advanced(s, g.(stage := first), candidate, e);
    if first.Promoting? {
      ActivatedDefaults(s.activations, g.company, first.existing, g.company);
    } else if first.Finished? {
      if first.corpus.Some? {
        ActiveIsDefault(s, g.company, g.accession, g.key);
      }
    } else if second.corpus.Some? {
      NothingReadyMeansNew(s, g.company, g.accession, g.key, candidate.value, e, cik);
      ActivatedDefaults(s.activations, g.company, second.corpus.value, g.company);
    }
  }

  /** Ingestion i has ended by reporting "activated", and the corpus it names is not the company's default. */
  predicate FalselyActivated(w: World, i: nat)
    requires i < |w.ingestions|
  {
    var g := w.ingestions[i];
    g.stage.Finished? && g.stage.disposition.Activated? && Default(w.db.activations, g.company) != g.stage.corpus
  }

  /**
   With distinct CIKs, a latest-mode ingestion that nothing interrupts ends, after any
   history, either with the reported corpus as the company's default or with an error and
   the previous defaults untouched.
   */
  lemma {:induction false} LatestMakesTheDefault(
    actions: seq<Action>, company: nat, accession: nat, key: nat, candidate: Option<Candidate>, e: Embedding,
    cik: nat -> nat)
    requires CiksAre(actions, cik) && Distinct(cik)
    ensures var begin := Begin(company, cik(company), accession, key, Latest);
      var next := Advance(|Run(actions, e).ingestions|, candidate);
      var u := Run(actions + [begin, next, next], e);
      && |u.ingestions| == |Run(actions, e).ingestions| + 1
      && !FalselyActivated(u, |u.ingestions| - 1)
      && var stage := u.ingestions[|u.ingestions| - 1].stage;
      && stage.Finished?
      && (stage.corpus.Some? ==> Default(u.db.activations, company) == stage.corpus)
      && (stage.corpus.None? ==> u.db.activations == Run(actions, e).db.activations)
  {
    var w := Run(actions, e);
    var begin := Begin(company, cik(company), accession, key, Latest);
    RunIsSound(actions, e);
    RunIsOwned(actions, e, cik);
    OneDefault(actions, e, company);
    RunThree(actions, begin, candidate, e);
    LookedUpLatest(w.db, Ingestion(company, cik(company), accession, key, Latest, Looking), candidate, e, cik);
  }

  // ----- what goes wrong otherwise ----------------------------------------

  /** The version a compatibility key gives the corpus, which is hashed into its chunks' identities. */
  function Version(key: nat): string {
    seq(key, _ => 'v')
  }

  /** The least an extracted filing can be: Item 1 in one chunk, the other Items explained as absent. */
  function Least(key: nat, e: Embedding): Candidate {
    var document := Document("a", "1", Version(key));
    var text := "Item 1. Business. " + seq(120, _ => 'x');
    var chunk := Chunk(Identity(document, 0, text), 0, text, 0, |text|, Citation("a", "1", 0));
    var absent := ItemInput(LegitimatelyAbsent, "not applicable", [], []);
    [ItemInput(Present, "", [chunk], [seq(e.dimensions, _ => 0.0)]), absent, absent, absent, absent, absent]
  }

  /** The candidate may reach persist, and passes there. */
  predicate Buildable(c: Candidate, e: Embedding) {
    Usable(Some(c)) && Complete(c, e)
  }

  lemma {:induction false} LeastIsBuildable(key: nat, e: Embedding)
    ensures Buildable(Least(key, e), e)
  {
    assert Least(key, e)[0] in Least(key, e) && Least(key, e)[0].chunks != [];
  }

  /** Chunk ids are primary keys, so only such candidates can both be stored. */
  ghost predicate ShareNoChunk(a: Candidate, b: Candidate) {
    forall x, y, c, d :: x in a && y in b && c in x.chunks && d in y.chunks ==> c.id != d.id
  }

  lemma {:induction false} LeastDiffer(j: nat, k: nat, e: Embedding)
    requires j != k
    ensures ShareNoChunk(Least(j, e), Least(k, e))
  {
    assert |Version(j)| != |Version(k)|;
  }

  /** An ingestion that finds nothing ready builds a first or a further corpus of the filing. */
  lemma {:induction false} CandidateIsBuilt(w: World, begin: Action, c: Candidate, e: Embedding)
    requires begin.Begin? && Buildable(c, e)
    requires ReadyCorpus(w.db, |w.db.corpora|, begin.company, begin.accession, begin.key).None?
    requires Persisted(w.db, begin.company, begin.cik, begin.accession, begin.key, c, e, begin.mode.Latest?).Some?
    ensures var (t, corpus) := Persisted(
        w.db, begin.company, begin.cik, begin.accession, begin.key, c, e, begin.mode.Latest?).value;
      var v := Three(w, begin, Some(c), e);
      && v.db == t
      && |v.ingestions| == |w.ingestions| + 1
      && v.ingestions[|w.ingestions|].company == begin.company
      && v.ingestions[|w.ingestions|].stage
         == Finished(if begin.mode.Latest? then Activated else Historical, Some(corpus))
  {
  }

  /** The first ingestion ever: one filing, one corpus, one default. */
  lemma {:induction false} FirstIngestion(company: nat, k: nat, key: nat, c: Candidate, e: Embedding)
    returns (actions: seq<Action>)
    requires Buildable(c, e)
    ensures forall a :: a in actions && a.Begin? ==> a == Begin(company, k, 0, key, Latest)
    ensures var w := Run(actions, e);
      && w.db.filings == [Filing(company, k, 0)]
      && |w.db.corpora| == 1 && w.db.corpora[0].filing == 0 && w.db.corpora[0].key == key && w.db.corpora[0].ready
      && w.db.activations == [Activation(company, 0, true)]
  {
    var begin := Begin(company, k, 0, key, Latest);
    var next := Advance(0, Some(c));
    ValidationIff(c, e);
    CandidateIsBuilt(Run([], e), begin, c, e);
    RunThree([], begin, Some(c), e);
    actions := [] + [begin, next, next];
  }

  function SecondIngestion(begun: seq<Action>, company: nat, k: nat, c: Candidate, e: Embedding): seq<Action> {
    var next := Advance(|Run(begun, e).ingestions|, Some(c));
    [Begin(company, k, 0, 1, Latest), next, next]
  }

  /** Two companies with one CIK: the second one's default corpus is of the first one's filing. */
  lemma {:induction false} SharedCikGivesAForeignDefault(
    c: nat, d: nat, k: nat, first: Candidate, second: Candidate, e: Embedding)
    returns (actions: seq<Action>)
    requires c != d && Buildable(first, e) && Buildable(second, e) && ShareNoChunk(first, second)
    ensures forall a :: a in actions && a.Begin? ==> a.cik == k && (a.company == c || a.company == d)
    ensures !ActivationsOwned(Run(actions, e).db)
  {
    var begun := FirstIngestion(c, k, 0, first, e);
    actions := begun + SecondIngestion(begun, d, k, second, e);
    ForeignAfter(begun, c, d, k, second, e);
  }

  lemma {:induction false} ForeignAfter(
    begun: seq<Action>, c: nat, d: nat, k: nat, candidate: Candidate, e: Embedding)
    requires c != d && Buildable(candidate, e)
    requires var s := Run(begun, e).db;
      && s.filings == [Filing(c, k, 0)] && |s.corpora| == 1 && |s.activations| == 1
      && s.corpora[0].filing == 0 && s.corpora[0].key == 0
    ensures !ActivationsOwned(Run(begun + SecondIngestion(begun, d, k, candidate, e), e).db)
  {
    SecondCorpus(Run(begun, e).db, c, d, k, candidate, e);
    CandidateIsBuilt(Run(begun, e), Begin(d, k, 0, 1, Latest), candidate, e);
    RunThree(begun, Begin(d, k, 0, 1, Latest), Some(candidate), e);
  }

  lemma {:induction false} SecondCorpus(s: State, c: nat, d: nat, k: nat, candidate: Candidate, e: Embedding)
    requires c != d && Complete(candidate, e)
    requires s.filings == [Filing(c, k, 0)] && |s.corpora| == 1 && |s.activations| == 1
    requires s.corpora[0].filing == 0 && s.corpora[0].key == 0
    ensures ReadyCorpus(s, |s.corpora|, d, 0, 1).None?
    ensures Persisted(s, d, k, 0, 1, candidate, e, true).Some?
    ensures !ActivationsOwned(Persisted(s, d, k, 0, 1, candidate, e, true).value.0)
  {
    ValidationIff(candidate, e);
    assert FindFiling(s.filings, k, 0) == Some(0);
    assert FindCorpus(s.corpora, 0, 1) == None;
    var t := Persisted(s, d, k, 0, 1, candidate, e, true).value.0;
    assert t.activations[1] == Activation(d, 1, true);
    assert !CorpusIsOf(t, t.activations[1].corpus, t.activations[1].company);
  }

  /** Every default ever made belongs to its company exactly when no two companies share a CIK. */
  lemma {:induction false} OwnedIffCiksDistinct(cik: nat -> nat, e: Embedding)
    ensures (forall actions :: CiksAre(actions, cik) ==> ActivationsOwned(Run(actions, e).db)) <==> Distinct(cik)
  {
    if Distinct(cik) {
      forall actions | CiksAre(actions, cik)
        ensures ActivationsOwned(Run(actions, e).db)
      {
        RunIsOwned(actions, e, cik);
      }
    } else {
      var c, d :| cik(c) == cik(d) && c != d;
      LeastIsBuildable(0, e);
      LeastIsBuildable(1, e);
      LeastDiffer(0, 1, e);
      var actions := SharedCikGivesAForeignDefault(c, d, cik(c), Least(0, e), Least(1, e), e);
      assert CiksAre(actions, cik);
    }
  }

  // ----- reports of promotions that did not take place --------------------

  /** The corpus there is already for the ingestion's filing and key. */
  function Stored(s: State, g: Ingestion): Option<nat> {
    match FindFiling(s.filings, g.cik, g.accession)
    case None => None
    case Some(filing) => FindCorpus(s.corpora, filing, g.key)
  }

  /** A latest-mode build whose corpus has been stored already, without being the company's default. */
  predicate Overtaken(s: State, g: Ingestion) {
    && g.stage.Building? && g.mode.Latest?
    && Stored(s, g).Some? && Default(s.activations, g.company) != Stored(s, g)
  }

  lemma {:induction false} StoredIsKept(s: State, g: Ingestion, c: Candidate, e: Embedding)
    requires Sound(s, e)
    ensures var r := Persisted(s, g.company, g.cik, g.accession, g.key, c, e, true);
      && (Stored(s, g).Some? ==> r == Some((s, Stored(s, g).value)))
      && (Stored(s, g).None? && r.Some? ==>
            r.value.1 == |s.corpora| && r.value.0.activations == WithDefault(s.activations, g.company, |s.corpora|))
  {
    if FindFiling(s.filings, g.cik, g.accession).None? && FindCorpus(s.corpora, |s.filings|, g.key).Some? {
      assert false;
    }
  }

  lemma {:induction false} BuildReports(s: State, g: Ingestion, candidate: Option<Candidate>, e: Embedding)
    requires Sound(s, e) && g.stage.Building? && g.mode.Latest?
    ensures var (t, stage) := Advanced(s, g, candidate, e);
      stage.Finished?
      && (stage.disposition.Activated? && Default(t.activations, g.company) != stage.corpus
          <==> Overtaken(s, g) && Usable(candidate))
  {
    if Usable(candidate) {
      StoredIsKept(s, g, candidate.value, e);
      ActivatedDefaults(s.activations, g.company, |s.corpora|, g.company);
    }
  }

  /**
   The report of a latest-mode build is not always true. In every run, the next step of an
   ingestion reports an activation that does not take place exactly when it hands persist a
   candidate whose corpus has been stored in the meantime, or by another company, and is not
   the default.
   */
  lemma {:induction false} ReportedActivationIff(
    actions: seq<Action>, i: nat, candidate: Option<Candidate>, e: Embedding)
    requires i < |Run(actions, e).ingestions| && !Run(actions, e).ingestions[i].stage.Finished?
    ensures i < |Run(actions + [Advance(i, candidate)], e).ingestions|
    ensures FalselyActivated(Run(actions + [Advance(i, candidate)], e), i)
       <==> Overtaken(Run(actions, e).db, Run(actions, e).ingestions[i]) && Usable(candidate)
  {
    var w := Run(actions, e);
    RunPush(actions, Advance(i, candidate), e);
    RunIsSound(actions, e);
    if w.ingestions[i].stage.Building? && w.ingestions[i].mode.Latest? {
      BuildReports(w.db, w.ingestions[i], candidate, e);
    }
  }

  /** Two ingestions of one filing, one for the exact year and one for the latest, look at the same time. */
  function Race(company: nat, k: nat, key: nat, c: Candidate): seq<Action> {
    [] + [Begin(company, k, 0, key, ExactYear)] + [Begin(company, k, 0, key, Latest)]
    + [Advance(0, Some(c))] + [Advance(1, Some(c))] + [Advance(0, Some(c))] + [Advance(1, Some(c))]
  }

  /** The second to build reports "activated", and the company has no default at all. */
  lemma {:induction false} RaceReportsFalsely(company: nat, k: nat, key: nat, c: Candidate, e: Embedding)
    requires Buildable(c, e)
    ensures var w := Run(Race(company, k, key, c), e);
      && |w.ingestions| == 2
      && w.ingestions[1].stage == Finished(Activated, Some(0))
      && w.db.activations == []
      && FalselyActivated(w, 1)
  {
    var first, second := Begin(company, k, 0, key, ExactYear), Begin(company, k, 0, key, Latest);
    var next, other := Advance(0, Some(c)), Advance(1, Some(c));
    var a := [] + [first] + [second];
    RunPush([], first, e);
    RunPush([] + [first], second, e);
    RunPush(a, next, e);
    RunPush(a + [next], other, e);
    RunPush(a + [next] + [other], next, e);
    RunPush(a + [next] + [other] + [next], other, e);
    RaceLooks(company, k, key, c, e);
    ValidationIff(c, e);
    RaceBuilds(company, k, key, c, e);
  }

  lemma {:induction false} RaceLooks(company: nat, k: nat, key: nat, c: Candidate, e: Embedding)
    ensures var g := Ingestion(company, k, 0, key, ExactYear, Building);
      var h := Ingestion(company, k, 0, key, Latest, Building);
      var v := After(World(EMPTY, []), Begin(company, k, 0, key, ExactYear), e);
      var w := After(v, Begin(company, k, 0, key, Latest), e);
      After(After(w, Advance(0, Some(c)), e), Advance(1, Some(c)), e) == World(EMPTY, [g, h])
  {
  }

  lemma {:induction false} RaceBuilds(company: nat, k: nat, key: nat, c: Candidate, e: Embedding)
    requires Usable(Some(c)) && Rows(c, e).Some? && Passes(Rows(c, e).value, e)
    ensures var g := Ingestion(company, k, 0, key, ExactYear, Building);
      var h := Ingestion(company, k, 0, key, Latest, Building);
      var y := After(After(World(EMPTY, [g, h]), Advance(0, Some(c)), e), Advance(1, Some(c)), e);
      |y.ingestions| == 2 && y.ingestions[1] == h.(stage := Finished(Activated, Some(0))) && y.db.activations == []
  {
    var g := Ingestion(company, k, 0, key, ExactYear, Building);
    var h := Ingestion(company, k, 0, key, Latest, Building);
    var stored := State([] + [Filing(company, k, 0)], [] + [Corpus(0, key, true, Rows(c, e).value)], []);
    assert Persisted(EMPTY, company, k, 0, key, c, e, false) == Some((stored, 0));
    assert After(World(EMPTY, [g, h]), Advance(0, Some(c)), e)
        == World(stored, [g.(stage := Finished(Historical, Some(0))), h]);
    assert Persisted(stored, company, k, 0, key, c, e, true) == Some((stored, 0));
  }

  /** The report of an ingestion that nothing interrupts. */
  ghost predicate ReportsTruly(
    actions: seq<Action>, company: nat, k: nat, accession: nat, key: nat, candidate: Option<Candidate>, e: Embedding)
  {
    var n := |Run(actions, e).ingestions|;
    var next := Advance(n, candidate);
    var u := Run(actions + [Begin(company, k, accession, key, Latest), next, next], e);
    n < |u.ingestions| && !FalselyActivated(u, n)
  }

  /** Without a race a report is always true exactly when no two companies share a CIK. */
  lemma {:induction false} ReportsTrulyIffCiksDistinct(cik: nat -> nat, e: Embedding)
    ensures (forall actions, company, accession, key, candidate ::
               CiksAre(actions, cik) ==> ReportsTruly(actions, company, cik(company), accession, key, candidate, e))
       <==> Distinct(cik)
  {
    if Distinct(cik) {
      forall actions, company, accession, key, candidate | CiksAre(actions, cik)
        ensures ReportsTruly(actions, company, cik(company), accession, key, candidate, e)
      {
        DistinctReportTruly(actions, company, accession, key, candidate, e, cik);
      }
    } else {
      var c, d :| cik(c) == cik(d) && c != d;
      LeastIsBuildable(0, e);
      var actions := SharedCikReportsFalsely(c, d, cik(c), Least(0, e), e);
      assert CiksAre(actions, cik);
    }
  }

  lemma {:induction false} DistinctReportTruly(
    actions: seq<Action>, company: nat, accession: nat, key: nat, candidate: Option<Candidate>, e: Embedding,
    cik: nat -> nat)
    requires CiksAre(actions, cik) && Distinct(cik)
    ensures ReportsTruly(actions, company, cik(company), accession, key, candidate, e)
  {
    LatestMakesTheDefault(actions, company, accession, key, candidate, e, cik);
  }

  /** The second of two companies with one CIK reports the first one's corpus as activated. */
  lemma {:induction false} SharedCikReportsFalsely(c: nat, d: nat, k: nat, candidate: Candidate, e: Embedding)
    returns (actions: seq<Action>)
    requires c != d && Buildable(candidate, e)
    ensures forall a :: a in actions && a.Begin? ==> a.cik == k && a.company == c
    ensures !ReportsTruly(actions, d, k, 0, 0, Some(candidate), e)
  {
    actions := FirstIngestion(c, k, 0, candidate, e);
    var v := Run(actions, e);
    var second := Begin(d, k, 0, 0, Latest);
    assert Persisted(v.db, d, k, 0, 0, candidate, e, true) == Some((v.db, 0));
    CandidateIsBuilt(v, second, candidate, e);
    RunThree(actions, second, Some(candidate), e);
    assert v.db.activations[..0] == [];
    assert Default(v.db.activations, d) == None;
  }
}
