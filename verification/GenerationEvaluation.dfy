/**
 The prompt comparison of evaluation/generation.py: the loop over cases, prompts and
 attempts, the aggregates, the selection of a winner and the validator of the finished
 artifact. Providers and the retrieval they are given are arbitrary functions of the case
 number, the prompt and the attempt; prompt ids are numbers in their string order.

 A result has no failure exactly when its answer was accepted and judged, so an accepted
 answer's citations are clean and eligibility comes down to having cases and no failures.
 The winner is the least eligible prompt in a key that does not depend on prompt order.
 */
module GenerationEvaluation {
  import opened Wrappers
  import opened Sequences
  import opened Ordering
  import Chunking

  datatype Label = Relevant | PartlyRelevant | NonRelevant

  datatype Paragraph = Paragraph(text: string, citations: seq<nat>)

  datatype Answer = Answer(answered: bool, paragraphs: seq<Paragraph>, limitations: seq<string>, insufficient: bool)

  datatype Evidence = Evidence(handle: nat, ticker: string, accession: string)

  datatype Limits = Limits(
    maxParagraphs: nat, maxParagraphChars: nat, maxLimitations: nat, maxLimitationChars: nat, maxRetries: nat)

  datatype Case = Case(id: nat, ticker: string, accession: string)

  // ----- validate_answer and citation_audit -------------------------------

  /** {item.citation_handle: item for item in evidence}.get(handle) */
  function Allowed(evidence: seq<Evidence>, handle: nat): Option<Evidence> {
    if evidence == [] then None
    else if evidence[|evidence| - 1].handle == handle then Some(evidence[|evidence| - 1])
    else Allowed(evidence[..|evidence| - 1], handle)
  }

  predicate IsKnown(evidence: seq<Evidence>, handle: nat) {
    Allowed(evidence, handle).Some?
  }

  predicate IsForeign(evidence: seq<Evidence>, c: Case, handle: nat) {
    match Allowed(evidence, handle)
    case None => false
    case Some(e) => e.ticker != c.ticker || e.accession != c.accession
  }

  predicate IsBlank(s: string) {
    forall i :: 0 <= i < |s| ==> Chunking.IsSpace(s[i])
  }

  predicate WithinLimits(a: Answer, limits: Limits) {
    && (a.answered || (a.paragraphs == [] && a.limitations == [] && !a.insufficient))
    && |a.paragraphs| <= limits.maxParagraphs
    && |a.limitations| <= limits.maxLimitations
    && (forall p :: p in a.paragraphs ==> |p.text| <= limits.maxParagraphChars)
    && (forall l :: l in a.limitations ==> !IsBlank(l) && |l| <= limits.maxLimitationChars)
  }

  /** All citations of the answer, paragraph after paragraph. */
  function Handles(paragraphs: seq<Paragraph>): seq<nat> {
    if paragraphs == [] then []
    else Handles(paragraphs[..|paragraphs| - 1]) + paragraphs[|paragraphs| - 1].citations
  }

  predicate CitationsValid(a: Answer, evidence: seq<Evidence>, c: Case) {
    forall p :: p in a.paragraphs ==>
      forall h :: h in p.citations ==> IsKnown(evidence, h) && !IsForeign(evidence, c, h)
  }

  method ValidateAnswer(a: Answer, evidence: seq<Evidence>, limits: Limits, c: Case) returns (ok: bool)
    ensures ok == (WithinLimits(a, limits) && CitationsValid(a, evidence, c))
  {
    if !WithinLimits(a, limits) {
      return false;
    }
    for i := 0 to |a.paragraphs|
      invariant forall j :: 0 <= j < i ==>
        forall h :: h in a.paragraphs[j].citations ==> IsKnown(evidence, h) && !IsForeign(evidence, c, h)
    {
      var citations := a.paragraphs[i].citations;
      for k := 0 to |citations|
        invariant forall j :: 0 <= j < k ==> IsKnown(evidence, citations[j]) && !IsForeign(evidence, c, citations[j])
      {
        if !IsKnown(evidence, citations[k]) || IsForeign(evidence, c, citations[k]) {
          assert a.paragraphs[i] in a.paragraphs && citations[k] in citations;
          return false;
        }
      }
    }
    return true;
  }

  /** The evidence that counts for a handle, the last with it, is of the case's filing. */
  ghost predicate Supports(evidence: seq<Evidence>, c: Case, handle: nat) {
    exists i ::
      && 0 <= i < |evidence| && evidence[i].handle == handle
      && (forall j :: i < j < |evidence| ==> evidence[j].handle != handle)
      && evidence[i].ticker == c.ticker && evidence[i].accession == c.accession
  }

  lemma {:induction false} AllowedIsLast(evidence: seq<Evidence>, handle: nat, i: nat)
    requires i < |evidence| && evidence[i].handle == handle
    requires forall j :: i < j < |evidence| ==> evidence[j].handle != handle
    ensures Allowed(evidence, handle) == Some(evidence[i])
  {
    if i < |evidence| - 1 {
      AllowedIsLast(evidence[..|evidence| - 1], handle, i);
    }
  }

  lemma {:induction false} AllowedComesFrom(evidence: seq<Evidence>, handle: nat) returns (i: nat)
    requires Allowed(evidence, handle).Some?
    ensures i < |evidence| && evidence[i].handle == handle && Allowed(evidence, handle) == Some(evidence[i])
    ensures forall j :: i < j < |evidence| ==> evidence[j].handle != handle
  {
    i := |evidence| - 1;
    if evidence[i].handle != handle {
      i := AllowedComesFrom(evidence[..|evidence| - 1], handle);
    }
  }

  lemma {:induction false} SupportsIff(evidence: seq<Evidence>, c: Case, handle: nat)
    ensures Supports(evidence, c, handle) <==> IsKnown(evidence, handle) && !IsForeign(evidence, c, handle)
  {
    if Supports(evidence, c, handle) {
      var i :| && 0 <= i < |evidence| && evidence[i].handle == handle
               && (forall j :: i < j < |evidence| ==> evidence[j].handle != handle)
               && evidence[i].ticker == c.ticker && evidence[i].accession == c.accession;
      AllowedIsLast(evidence, handle, i);
    } else if IsKnown(evidence, handle) {
      var i := AllowedComesFrom(evidence, handle);
    }
  }

  /** Every reason there is to refuse an answer. */
  ghost predicate Refused(a: Answer, evidence: seq<Evidence>, limits: Limits, c: Case) {
    || (!a.answered && (a.paragraphs != [] || a.limitations != [] || a.insufficient))
    || |a.paragraphs| > limits.maxParagraphs
    || |a.limitations| > limits.maxLimitations
    || (exists p :: p in a.paragraphs && |p.text| > limits.maxParagraphChars)
    || (exists l :: l in a.limitations && |l| > limits.maxLimitationChars)
    || (exists l :: l in a.limitations && forall i :: 0 <= i < |l| ==> Chunking.IsSpace(l[i]))
    || (exists p, h :: p in a.paragraphs && h in p.citations && !Supports(evidence, c, h))
  }

  lemma {:induction false} RefusedIff(a: Answer, evidence: seq<Evidence>, limits: Limits, c: Case)
    ensures Refused(a, evidence, limits, c) <==> !WithinLimits(a, limits) || !CitationsValid(a, evidence, c)
  {
    forall h
      ensures Supports(evidence, c, h) <==> IsKnown(evidence, h) && !IsForeign(evidence, c, h)
    {
      SupportsIff(evidence, c, h);
    }
  }

  datatype Audit = Audit(handles: nat, valid: nat, foreign: nat)

  const NO_CITATIONS := Audit(0, 0, 0)

  function KnownIn(evidence: seq<Evidence>): nat -> bool {
    (h: nat) => IsKnown(evidence, h)
  }

  function NativeIn(evidence: seq<Evidence>, c: Case): nat -> bool {
    (h: nat) => !IsForeign(evidence, c, h)
  }

  function CitationAudit(a: Answer, evidence: seq<Evidence>, c: Case): Audit {
    var handles := Handles(a.paragraphs);
    Audit(|handles|, CountWhere(handles, KnownIn(evidence)), |handles| - CountWhere(handles, NativeIn(evidence, c)))
  }

  predicate Clean(audit: Audit) {
    audit.valid == audit.handles && audit.foreign == 0
  }

  lemma {:induction false} HandlesOf(paragraphs: seq<Paragraph>, h: nat)
    ensures h in Handles(paragraphs) <==> exists p :: p in paragraphs && h in p.citations
  {
    if paragraphs != [] {
      var before, last := paragraphs[..|paragraphs| - 1], paragraphs[|paragraphs| - 1];
      HandlesOf(before, h);
      assert forall p :: p in paragraphs <==> p in before || p == last;
    }
  }

  /** The audit is clean exactly when the validator has nothing to say about the citations. */
  lemma {:induction false} CleanIff(a: Answer, evidence: seq<Evidence>, c: Case)
    ensures Clean(CitationAudit(a, evidence, c)) <==> CitationsValid(a, evidence, c)
  {
    var handles := Handles(a.paragraphs);
    CountsAll(handles, KnownIn(evidence));
    CountsAll(handles, NativeIn(evidence, c));
    if CitationsValid(a, evidence, c) {
      forall h | h in handles
        ensures IsKnown(evidence, h) && !IsForeign(evidence, c, h)
      {
        HandlesOf(a.paragraphs, h);
      }
    }
    if Clean(CitationAudit(a, evidence, c)) {
      forall p, h | p in a.paragraphs && h in p.citations
        ensures IsKnown(evidence, h) && !IsForeign(evidence, c, h)
      {
        HandlesOf(a.paragraphs, h);
        assert KnownIn(evidence)(h) && NativeIn(evidence, c)(h);
      }
    }
  }

  /** Each paragraph adds its citations to the audit: all, those in the evidence, and those of another filing. */
  lemma {:induction false} AuditCounts(a: Answer, p: Paragraph, evidence: seq<Evidence>, c: Case)
    ensures var before := CitationAudit(a, evidence, c);
      var known := (h: nat) => exists e :: e in evidence && e.handle == h;
      var foreign := (h: nat) => (exists e :: e in evidence && e.handle == h) && !Supports(evidence, c, h);
      CitationAudit(a.(paragraphs := a.paragraphs + [p]), evidence, c)
      == Audit(before.handles + |p.citations|, before.valid + CountWhere(p.citations, known),
               before.foreign + CountWhere(p.citations, foreign))
    ensures a.paragraphs == [] ==> CitationAudit(a, evidence, c) == Audit(0, 0, 0)
  {
    HandlesPush(a.paragraphs, p);
    CountAppend(Handles(a.paragraphs), p.citations, KnownIn(evidence));
    CountAppend(Handles(a.paragraphs), p.citations, NativeIn(evidence, c));
    KnownCount(p.citations, evidence);
    ForeignCount(p.citations, evidence, c);
  }

  lemma {:induction false} HandlesPush(paragraphs: seq<Paragraph>, p: Paragraph)
    ensures Handles(paragraphs + [p]) == Handles(paragraphs) + p.citations
  {
    assert (paragraphs + [p])[..|paragraphs|] == paragraphs;
  }

  lemma {:induction false} KnownIff(evidence: seq<Evidence>, handle: nat)
    ensures IsKnown(evidence, handle) <==> exists e :: e in evidence && e.handle == handle
  {
    if evidence != [] {
      var before, last := evidence[..|evidence| - 1], evidence[|evidence| - 1];
      KnownIff(before, handle);
      assert forall e :: e in evidence <==> e in before || e == last;
    }
  }

  lemma {:induction false} KnownCount(handles: seq<nat>, evidence: seq<Evidence>)
    ensures CountWhere(handles, KnownIn(evidence))
         == CountWhere(handles, (h: nat) => exists e :: e in evidence && e.handle == h)
  {
    forall h
      ensures IsKnown(evidence, h) <==> exists e :: e in evidence && e.handle == h
    {
      KnownIff(evidence, h);
    }
    SameCount(handles, KnownIn(evidence), (h: nat) => exists e :: e in evidence && e.handle == h);
  }

  lemma {:induction false} ForeignCount(handles: seq<nat>, evidence: seq<Evidence>, c: Case)
    ensures var foreign := (h: nat) => (exists e :: e in evidence && e.handle == h) && !Supports(evidence, c, h);
      |handles| - CountWhere(handles, NativeIn(evidence, c)) == CountWhere(handles, foreign)
  {
    var foreign := (h: nat) => (exists e :: e in evidence && e.handle == h) && !Supports(evidence, c, h);
    forall h
      ensures NativeIn(evidence, c)(h) == !foreign(h)
    {
      KnownIff(evidence, h);
      SupportsIff(evidence, c, h);
    }
    OthersCount(handles, NativeIn(evidence, c), foreign);
  }

  // ----- one case and prompt ----------------------------------------------

  /** What the answer provider did; recorded is false when storing the usage of a valid answer failed. */
  datatype Reply = NoReply | Reply(answer: Answer, latency: nat, recorded: bool)

  datatype World = World(
    evidence: nat -> seq<Evidence>, replies: (nat, nat, nat) -> Reply, verdicts: (nat, nat) -> Option<Label>)

  datatype CaseResult = CaseResult(
    caseId: nat, audit: Audit, answer: Option<Answer>, judge: Option<Label>, latency: Option<nat>, failed: bool)

  /** The variables of the attempt loop. */
  datatype Draft = Draft(answer: Option<Answer>, audit: Audit, latency: nat, accepted: bool)

  const NO_DRAFT := Draft(None, NO_CITATIONS, 0, false)

  predicate Acceptable(r: Reply, evidence: seq<Evidence>, limits: Limits, c: Case) {
    r.Reply? && r.recorded && WithinLimits(r.answer, limits) && CitationsValid(r.answer, evidence, c)
  }

  function AfterAttempt(d: Draft, r: Reply, evidence: seq<Evidence>, limits: Limits, c: Case): Draft {
    match r
    case NoReply => d
    case Reply(answer, latency, _) =>
      Draft(Some(answer), CitationAudit(answer, evidence, c), latency, Acceptable(r, evidence, limits, c))
  }

  /** The draft after at most n attempts, the loop being left at the first accepted one. */
  function Drafted(w: World, limits: Limits, c: Case, number: nat, prompt: nat, n: nat): Draft {
    if n == 0 then NO_DRAFT
    else
      var d := Drafted(w, limits, c, number, prompt, n - 1);
      if d.accepted then d else AfterAttempt(d, w.replies(number, prompt, n), w.evidence(number), limits, c)
  }

  function Outcome(w: World, limits: Limits, c: Case, number: nat, prompt: nat): CaseResult {
    var d := Drafted(w, limits, c, number, prompt, limits.maxRetries + 1);
    if !d.accepted then CaseResult(c.id, d.audit, None, None, None, true)
    else
      match w.verdicts(number, prompt)
      case Some(grade) => CaseResult(c.id, d.audit, d.answer, Some(grade), Some(d.latency), false)
      case None => CaseResult(c.id, d.audit, d.answer, None, Some(d.latency), true)
  }

  method RunCase(w: World, limits: Limits, c: Case, number: nat, prompt: nat) returns (r: CaseResult)
    ensures r == Outcome(w, limits, c, number, prompt)
  {
    var evidence := w.evidence(number);
    var answer: Option<Answer>, audit, latency, failed := None, NO_CITATIONS, 0, true;
    var attempt := 1;
    while attempt <= limits.maxRetries + 1
      invariant 1 <= attempt <= limits.maxRetries + 2
      invariant failed
      invariant Drafted(w, limits, c, number, prompt, attempt - 1) == Draft(answer, audit, latency, false)
      decreases limits.maxRetries + 2 - attempt
    {
      match w.replies(number, prompt, attempt) {
        case NoReply =>
        case Reply(given, took, recorded) =>
          answer, latency := Some(given), took;
          audit := CitationAudit(given, evidence, c);
          var valid := ValidateAnswer(given, evidence, limits, c);
          if valid && recorded {
            failed := false;
            AcceptedStays(w, limits, c, number, prompt, attempt, limits.maxRetries + 1);
            break;
          }
      }
      attempt := attempt + 1;
    }
    if failed {
      return CaseResult(c.id, audit, None, None, None, true);
    }
    match w.verdicts(number, prompt)
    case Some(grade) => return CaseResult(c.id, audit, answer, Some(grade), Some(latency), false);
    case None => return CaseResult(c.id, audit, answer, None, Some(latency), true);
  }

  lemma {:induction false} AcceptedStays(w: World, limits: Limits, c: Case, number: nat, prompt: nat, n: nat, m: nat)
    requires n <= m && Drafted(w, limits, c, number, prompt, n).accepted
    ensures Drafted(w, limits, c, number, prompt, m) == Drafted(w, limits, c, number, prompt, n)
  {
    if n < m {
      AcceptedStays(w, limits, c, number, prompt, n, m - 1);
    }
  }

  lemma {:induction false} AcceptedIsClean(w: World, limits: Limits, c: Case, number: nat, prompt: nat, n: nat)
    requires Drafted(w, limits, c, number, prompt, n).accepted
    ensures Drafted(w, limits, c, number, prompt, n).answer.Some?
    ensures Clean(Drafted(w, limits, c, number, prompt, n).audit)
  {
    if Drafted(w, limits, c, number, prompt, n - 1).accepted {
      AcceptedIsClean(w, limits, c, number, prompt, n - 1);
    } else {
      CleanIff(w.replies(number, prompt, n).answer, w.evidence(number), c);
    }
  }

  /** A result without a failure has a judged answer and a clean audit; only a failed one can keep a dirty audit. */
  lemma {:induction false} SuccessIsClean(w: World, limits: Limits, c: Case, number: nat, prompt: nat)
    ensures var r := Outcome(w, limits, c, number, prompt);
      && r.caseId == c.id
      && (r.failed <==> r.judge.None?)
      && (!r.failed ==> r.answer.Some? && r.latency.Some? && Clean(r.audit))
  {
    if Drafted(w, limits, c, number, prompt, limits.maxRetries + 1).accepted {
      AcceptedIsClean(w, limits, c, number, prompt, limits.maxRetries + 1);
    }
  }

  /** An attempt is good when the provider answered, its usage was stored and nothing speaks against the answer. */
  ghost predicate GoodAttempt(w: World, limits: Limits, c: Case, number: nat, prompt: nat, n: nat) {
    var r := w.replies(number, prompt, n);
    r.Reply? && r.recorded && !Refused(r.answer, w.evidence(number), limits, c)
  }

  lemma {:induction false} NoneAccepted(w: World, limits: Limits, c: Case, number: nat, prompt: nat, n: nat)
    requires forall m: nat :: 0 < m <= n ==> !GoodAttempt(w, limits, c, number, prompt, m)
    ensures !Drafted(w, limits, c, number, prompt, n).accepted
  {
    if n > 0 {
      NoneAccepted(w, limits, c, number, prompt, n - 1);
      assert !GoodAttempt(w, limits, c, number, prompt, n);
      var r := w.replies(number, prompt, n);
      if r.Reply? {
        RefusedIff(r.answer, w.evidence(number), limits, c);
      }
    }
  }

  /** The first good attempt gives the answer and its latency; a case without a verdict counts as failed. */
  lemma {:induction false} FirstGoodDecides(w: World, limits: Limits, c: Case, number: nat, prompt: nat, n: nat)
    requires 0 < n <= limits.maxRetries + 1 && GoodAttempt(w, limits, c, number, prompt, n)
    requires forall m: nat :: 0 < m < n ==> !GoodAttempt(w, limits, c, number, prompt, m)
    ensures var r := w.replies(number, prompt, n);
      var grade := w.verdicts(number, prompt);
      Outcome(w, limits, c, number, prompt)
      == CaseResult(c.id, CitationAudit(r.answer, w.evidence(number), c), Some(r.answer), grade, Some(r.latency),
                    grade.None?)
  {
    NoneAccepted(w, limits, c, number, prompt, n - 1);
    RefusedIff(w.replies(number, prompt, n).answer, w.evidence(number), limits, c);
    AcceptedStays(w, limits, c, number, prompt, n, limits.maxRetries + 1);
  }

  /** Among the first n attempts, k is the last the provider answered; 0 when it answered none. */
  ghost predicate LastReply(w: World, number: nat, prompt: nat, n: nat, k: nat) {
    && k <= n && (k > 0 ==> w.replies(number, prompt, k).Reply?)
    && forall m: nat :: k < m <= n ==> w.replies(number, prompt, m).NoReply?
  }

  lemma {:induction false} LastReplyIsAudited(
    w: World, limits: Limits, c: Case, number: nat, prompt: nat, n: nat, k: nat)
    requires forall m: nat :: 0 < m <= n ==> !GoodAttempt(w, limits, c, number, prompt, m)
    requires LastReply(w, number, prompt, n, k)
    ensures Drafted(w, limits, c, number, prompt, n).audit
         == if k == 0 then Audit(0, 0, 0)
            else CitationAudit(w.replies(number, prompt, k).answer, w.evidence(number), c)
  {
    if n > 0 {
      NoneAccepted(w, limits, c, number, prompt, n - 1);
      if k < n {
        LastReplyIsAudited(w, limits, c, number, prompt, n - 1, k);
      }
    }
  }

  /**
   With no good attempt among the first and its retries the case fails. Its answer is not
   judged, but the citations of the last one given are counted.
   */
  lemma {:induction false} NoGoodAttemptFails(w: World, limits: Limits, c: Case, number: nat, prompt: nat, k: nat)
    requires forall m: nat :: 0 < m <= limits.maxRetries + 1 ==> !GoodAttempt(w, limits, c, number, prompt, m)
    requires LastReply(w, number, prompt, limits.maxRetries + 1, k)
    ensures var audit := if k == 0 then Audit(0, 0, 0)
                         else CitationAudit(w.replies(number, prompt, k).answer, w.evidence(number), c);
      Outcome(w, limits, c, number, prompt) == CaseResult(c.id, audit, None, None, None, true)
  {
    NoneAccepted(w, limits, c, number, prompt, limits.maxRetries + 1);
    LastReplyIsAudited(w, limits, c, number, prompt, limits.maxRetries + 1, k);
  }

  // ----- aggregates -------------------------------------------------------

  datatype PromptEvaluation = PromptEvaluation(
    prompt: nat, cases: seq<CaseResult>, labels: seq<Label>, handles: nat, valid: nat, foreign: nat, failures: nat,
    latencies: seq<nat>)

  function Labels(cases: seq<CaseResult>): seq<Label> {
    if cases == [] then []
    else
      var last := cases[|cases| - 1];
      Labels(cases[..|cases| - 1]) + if last.judge.Some? then [last.judge.value] else []
  }

  function Latencies(cases: seq<CaseResult>): seq<nat> {
    if cases == [] then []
    else
      var last := cases[|cases| - 1];
      Latencies(cases[..|cases| - 1]) + if last.latency.Some? then [last.latency.value] else []
  }

  function SumOf(cases: seq<CaseResult>, f: CaseResult -> nat): nat {
    if cases == [] then 0 else SumOf(cases[..|cases| - 1], f) + f(cases[|cases| - 1])
  }

  function HandlesIn(r: CaseResult): nat { r.audit.handles }

  function ValidIn(r: CaseResult): nat { r.audit.valid }

  function ForeignIn(r: CaseResult): nat { r.audit.foreign }

  function FailureIn(r: CaseResult): nat { if r.failed || r.judge.None? then 1 else 0 }

  function Aggregate(prompt: nat, cases: seq<CaseResult>): PromptEvaluation {
    PromptEvaluation(prompt, cases, Labels(cases), SumOf(cases, HandlesIn), SumOf(cases, ValidIn),
                     SumOf(cases, ForeignIn), SumOf(cases, FailureIn), Latencies(cases))
  }

  predicate Eligible(p: PromptEvaluation) {
    p.failures == 0 && p.labels != [] && p.valid == p.handles && p.foreign == 0
  }

  /** A failed case and a dirty audit go together: without failures nothing else can disqualify a prompt. */
  predicate Honest(r: CaseResult) {
    (r.failed <==> r.judge.None?) && (!r.failed ==> Clean(r.audit))
  }

  lemma {:induction false} HonestSums(cases: seq<CaseResult>)
    requires forall r :: r in cases ==> Honest(r)
    requires SumOf(cases, FailureIn) == 0
    ensures |Labels(cases)| == |cases|
    ensures SumOf(cases, ValidIn) == SumOf(cases, HandlesIn) && SumOf(cases, ForeignIn) == 0
  {
    if cases != [] {
      var before, last := cases[..|cases| - 1], cases[|cases| - 1];
      assert last in cases;
      assert forall r :: r in before ==> r in cases;
      HonestSums(before);
    }
  }

  lemma {:induction false} EligibleIff(prompt: nat, cases: seq<CaseResult>)
    requires forall r :: r in cases ==> Honest(r)
    ensures Eligible(Aggregate(prompt, cases)) <==> SumOf(cases, FailureIn) == 0 && cases != []
  {
    if SumOf(cases, FailureIn) == 0 {
      HonestSums(cases);
    }
  }

  /** The audit does not count more citations as valid than there are. */
  predicate Countable(r: CaseResult) {
    r.audit.valid <= r.audit.handles
  }

  predicate Flawless(r: CaseResult) {
    !r.failed && r.judge.Some? && Clean(r.audit)
  }

  lemma {:induction false} FlawlessSums(cases: seq<CaseResult>)
    requires forall r :: r in cases ==> Countable(r)
    ensures SumOf(cases, ValidIn) <= SumOf(cases, HandlesIn)
    ensures SumOf(cases, FailureIn) == 0 && SumOf(cases, ForeignIn) == 0
            && SumOf(cases, ValidIn) == SumOf(cases, HandlesIn)
       <==> forall r :: r in cases ==> Flawless(r)
    ensures SumOf(cases, FailureIn) == 0 && cases != [] ==> Labels(cases) != []
  {
    if cases != [] {
      var before, last := cases[..|cases| - 1], cases[|cases| - 1];
      assert forall r :: r in cases <==> r in before || r == last;
      assert Countable(last);
      assert (forall r :: r in cases ==> Flawless(r)) <==> Flawless(last) && forall r :: r in before ==> Flawless(r);
      FlawlessSums(before);
    }
  }

  /** A prompt is eligible exactly when it has cases, and each was answered, judged and cleanly cited. */
  lemma {:induction false} EligibleMeans(prompt: nat, cases: seq<CaseResult>)
    requires forall r :: r in cases ==> Countable(r)
    ensures Eligible(Aggregate(prompt, cases)) <==> cases != [] && forall r :: r in cases ==> Flawless(r)
  {
    FlawlessSums(cases);
  }

  function JudgedAs(grade: Label): CaseResult -> bool {
    (r: CaseResult) => r.judge == Some(grade)
  }

  function TakingAsLong(latency: nat): CaseResult -> bool {
    (r: CaseResult) => r.latency == Some(latency)
  }

  predicate WithoutVerdict(r: CaseResult) {
    r.failed || r.judge.None?
  }

  lemma {:induction false} LabelsCollect(cases: seq<CaseResult>, grade: Label)
    ensures multiset(Labels(cases))[grade] == CountWhere(cases, JudgedAs(grade))
  {
    if cases != [] {
      var before, last := cases[..|cases| - 1], cases[|cases| - 1];
      LabelsCollect(before, grade);
      if last.judge.Some? {
        MultiplicityPush(Labels(before), last.judge.value, grade);
      } else {
        NothingAdded(Labels(before));
      }
    }
  }

  lemma {:induction false} LatenciesCollect(cases: seq<CaseResult>, latency: nat)
    ensures multiset(Latencies(cases))[latency] == CountWhere(cases, TakingAsLong(latency))
  {
    if cases != [] {
      var before, last := cases[..|cases| - 1], cases[|cases| - 1];
      LatenciesCollect(before, latency);
      if last.latency.Some? {
        MultiplicityPush(Latencies(before), last.latency.value, latency);
      } else {
        NothingAdded(Latencies(before));
      }
    }
  }

  lemma {:induction false} FailuresAre(cases: seq<CaseResult>)
    ensures SumOf(cases, FailureIn) == CountWhere(cases, WithoutVerdict)
  {
    if cases != [] {
      FailuresAre(cases[..|cases| - 1]);
    }
  }

  /** The citation counts of a prompt add up those of its cases. */
  lemma {:induction false} AuditsAddUp(prompt: nat, cases: seq<CaseResult>, r: CaseResult)
    ensures var before, row := Aggregate(prompt, cases), Aggregate(prompt, cases + [r]);
      && row.handles == before.handles + r.audit.handles
      && row.valid == before.valid + r.audit.valid
      && row.foreign == before.foreign + r.audit.foreign
    ensures var none := Aggregate(prompt, []); none.handles == none.valid == none.foreign == 0
  {
    assert (cases + [r])[..|cases|] == cases;
  }

  /** A prompt's labels and latencies are those of its judged and answered cases, and the others are its failures. */
  lemma {:induction false} AggregateCollects(prompt: nat, cases: seq<CaseResult>, grade: Label, latency: nat)
    ensures var row := Aggregate(prompt, cases);
      && row.prompt == prompt && row.cases == cases
      && multiset(row.labels)[grade] == CountWhere(cases, JudgedAs(grade))
      && multiset(row.latencies)[latency] == CountWhere(cases, TakingAsLong(latency))
      && row.failures == CountWhere(cases, WithoutVerdict)
  {
    LabelsCollect(cases, grade);
    LatenciesCollect(cases, latency);
    FailuresAre(cases);
  }

  // ----- the winner -------------------------------------------------------

  function LabelScore(l: Label): nat {
    match l
    case Relevant => 2
    case PartlyRelevant => 1
    case NonRelevant => 0
  }

  function ScoreSum(labels: seq<Label>): nat {
    if labels == [] then 0 else ScoreSum(labels[..|labels| - 1]) + LabelScore(labels[|labels| - 1])
  }

  function MeanScore(p: PromptEvaluation): real {
    if p.labels == [] then 0.0 else ScoreSum(p.labels) as real / |p.labels| as real
  }

  function RelevantCount(p: PromptEvaluation): nat {
    CountWhere(p.labels, (l: Label) => l.Relevant?)
  }

  predicate Smaller(a: nat, b: nat) {
    a < b
  }

  /** What statistics.median makes of sorted data; None is infinity, for none. */
  function Middle(sorted: seq<nat>): Option<real> {
    var n := |sorted|;
    if n == 0 then None
    else if n % 2 == 1 then Some(sorted[n / 2] as real)
    else Some((sorted[n / 2 - 1] + sorted[n / 2]) as real / 2.0)
  }

  /** The median latency; None for a prompt without one. */
  function MedianLatency(p: PromptEvaluation): Option<real> {
    Middle(SortBy(Smaller, p.latencies))
  }

  predicate Sooner(a: Option<real>, b: Option<real>) {
    a.Some? && (b.None? || a.value < b.value)
  }

  datatype Key = Key(mean: real, relevant: nat, latency: Option<real>, prompt: nat)

  function KeyOf(p: PromptEvaluation): Key {
    Key(MeanScore(p), RelevantCount(p), MedianLatency(p), p.prompt)
  }

  predicate KeyBefore(a: Key, b: Key) {
    a.mean > b.mean
    || (a.mean == b.mean
        && (a.relevant > b.relevant
            || (a.relevant == b.relevant
                && (Sooner(a.latency, b.latency) || (a.latency == b.latency && a.prompt < b.prompt)))))
  }

  predicate Wins(a: PromptEvaluation, b: PromptEvaluation) {
    KeyBefore(KeyOf(a), KeyOf(b))
  }

  function EligibleOf(rows: seq<PromptEvaluation>): seq<PromptEvaluation> {
    if rows == [] then []
    else EligibleOf(rows[..|rows| - 1]) + if Eligible(rows[|rows| - 1]) then [rows[|rows| - 1]] else []
  }

  /** select_generation_winner; None when it raises because no prompt is eligible. */
  function Winner(rows: seq<PromptEvaluation>): Option<nat> {
    var sorted := SortBy(Wins, EligibleOf(rows));
    if sorted == [] then None else Some(sorted[0].prompt)
  }

  lemma {:induction false} WinsIsWeak()
    ensures StrictWeak(Wins)
  {
    forall a, b, c
      ensures !Wins(a, a)
      ensures Wins(a, b) && Wins(b, c) ==> Wins(a, c)
      ensures !Wins(a, b) && !Wins(b, c) ==> !Wins(a, c)
    {
      var x, y, z := KeyOf(a), KeyOf(b), KeyOf(c);
      assert !KeyBefore(x, x);
      assert KeyBefore(x, y) && KeyBefore(y, z) ==> KeyBefore(x, z);
      assert !KeyBefore(x, y) && !KeyBefore(y, z) ==> !KeyBefore(x, z);
    }
  }

  lemma {:induction false} EligibleMembers(rows: seq<PromptEvaluation>, p: PromptEvaluation)
    ensures multiset(EligibleOf(rows))[p] == if Eligible(p) then multiset(rows)[p] else 0
  {
    if rows != [] {
      var before, last := rows[..|rows| - 1], rows[|rows| - 1];
      EligibleMembers(before, p);
      assert rows == before + [last];
    }
  }

  function PromptsOf(rows: seq<PromptEvaluation>): (r: seq<nat>)
    ensures |r| == |rows|
    ensures forall i :: 0 <= i < |r| ==> r[i] == rows[i].prompt
  {
    if rows == [] then [] else PromptsOf(rows[..|rows| - 1]) + [rows[|rows| - 1].prompt]
  }

  lemma {:induction false} DistinctPrompts(rows: seq<PromptEvaluation>, a: PromptEvaluation, b: PromptEvaluation)
    requires NoRepeats(PromptsOf(rows)) && a in rows && b in rows && a != b
    ensures a.prompt != b.prompt
  {
    var before, last := rows[..|rows| - 1], rows[|rows| - 1];
    assert PromptsOf(rows)[..|rows| - 1] == PromptsOf(before);
    if a == last || b == last {
      var other := if a == last then b else a;
      var i :| 0 <= i < |before| && before[i] == other;
      assert PromptsOf(before)[i] in PromptsOf(before);
    } else {
      DistinctPrompts(before, a, b);
    }
  }

  lemma {:induction false} SameEligible(rows: seq<PromptEvaluation>, other: seq<PromptEvaluation>)
    requires multiset(rows) == multiset(other)
    ensures multiset(EligibleOf(rows)) == multiset(EligibleOf(other))
  {
    forall p
      ensures multiset(EligibleOf(rows))[p] == multiset(EligibleOf(other))[p]
    {
      EligibleMembers(rows, p);
      EligibleMembers(other, p);
    }
  }

  lemma {:induction false} EligibleAreRows(rows: seq<PromptEvaluation>, p: PromptEvaluation)
    ensures p in EligibleOf(rows) <==> p in rows && Eligible(p)
  {
    EligibleMembers(rows, p);
    assert p in multiset(EligibleOf(rows)) <==> p in EligibleOf(rows);
    assert p in multiset(rows) <==> p in rows;
  }

  lemma {:induction false} EligibleDiffer(rows: seq<PromptEvaluation>)
    requires NoRepeats(PromptsOf(rows))
    ensures Distinguishes(Wins, EligibleOf(rows))
  {
    forall p, q | p in EligibleOf(rows) && q in EligibleOf(rows) && p != q
      ensures Wins(p, q) || Wins(q, p)
    {
      EligibleAreRows(rows, p);
      EligibleAreRows(rows, q);
      DistinctPrompts(rows, p, q);
    }
  }

  /** The prompt id in the key makes the winner the same whatever order the prompts were run in. */
  lemma {:induction false} WinnerIgnoresOrder(rows: seq<PromptEvaluation>, other: seq<PromptEvaluation>)
    requires multiset(rows) == multiset(other) && NoRepeats(PromptsOf(rows))
    ensures Winner(rows) == Winner(other)
  {
    SameEligible(rows, other);
    EligibleDiffer(rows);
    WinsIsWeak();
    SortForgetsOrder(Wins, EligibleOf(rows), EligibleOf(other));
  }

  lemma {:induction false} ScoresAdd(labels: seq<Label>)
    ensures ScoreSum(labels) == 2 * multiset(labels)[Relevant] + multiset(labels)[PartlyRelevant]
    ensures CountWhere(labels, (l: Label) => l.Relevant?) == multiset(labels)[Relevant]
  {
    if labels != [] {
      var before, last := labels[..|labels| - 1], labels[|labels| - 1];
      ScoresAdd(before);
      assert labels == before + [last];
    }
  }

  lemma {:induction false} Undivided(x: real, n: nat)
    requires 0 < n
    ensures x / n as real * n as real == x
  {
  }

  /** The mean score, from 0 to 2: two for each relevant answer, one for each partly relevant, 0 without answers. */
  lemma {:induction false} MeanOfScores(p: PromptEvaluation)
    ensures MeanScore(p) * |p.labels| as real
         == (2 * multiset(p.labels)[Relevant] + multiset(p.labels)[PartlyRelevant]) as real
    ensures p.labels == [] ==> MeanScore(p) == 0.0
    ensures RelevantCount(p) == multiset(p.labels)[Relevant]
  {
    ScoresAdd(p.labels);
    MeanIsScores(p);
  }

  lemma {:induction false} MeanIsScores(p: PromptEvaluation)
    ensures MeanScore(p) * |p.labels| as real == ScoreSum(p.labels) as real
  {
    if p.labels != [] {
      Undivided(ScoreSum(p.labels) as real, |p.labels|);
    }
  }

  /** Each element is at least the one before it. */
  ghost predicate Ascending(s: seq<nat>) {
    forall i, j :: 0 <= i < j < |s| ==> s[i] <= s[j]
  }

  lemma {:induction false} AscendingIsSorted(s: seq<nat>)
    requires Ascending(s)
    ensures Sorted(Smaller, s)
  {
    if s != [] {
      AscendingIsSorted(s[..|s| - 1]);
    }
  }

  lemma {:induction false} SortedOnlyOneWay(s: seq<nat>, ascending: seq<nat>)
    requires multiset(ascending) == multiset(s) && Ascending(ascending)
    ensures SortBy(Smaller, s) == ascending
  {
    AscendingIsSorted(ascending);
    SortSorted(Smaller, s);
    SortElements(Smaller, s);
    SortedUnique(Smaller, ascending, SortBy(Smaller, s));
  }

  lemma {:induction false} MiddleIs(sorted: seq<nat>, k: nat)
    ensures |sorted| == 0 ==> Middle(sorted) == None
    ensures |sorted| == 2 * k + 1 ==> Middle(sorted) == Some(sorted[k] as real)
    ensures |sorted| == 2 * k && 0 < k ==> Middle(sorted) == Some((sorted[k - 1] + sorted[k]) as real / 2.0)
  {
  }

  /** The median of the latencies in ascending order: the middle one, or half the sum of the two in the middle. */
  lemma {:induction false} MedianIsMiddle(p: PromptEvaluation, ascending: seq<nat>, k: nat)
    requires multiset(ascending) == multiset(p.latencies) && Ascending(ascending)
    ensures |ascending| == 0 ==> MedianLatency(p) == None
    ensures |ascending| == 2 * k + 1 ==> MedianLatency(p) == Some(ascending[k] as real)
    ensures |ascending| == 2 * k && 0 < k
        ==> MedianLatency(p) == Some((ascending[k - 1] + ascending[k]) as real / 2.0)
  {
    SortedOnlyOneWay(p.latencies, ascending);
    MiddleIs(ascending, k);
  }

  /** The winner's row w and any other eligible row p. */
  predicate NotWorse(w: PromptEvaluation, p: PromptEvaluation) {
    && MeanScore(p) <= MeanScore(w)
    && (MeanScore(p) == MeanScore(w) ==>
          && RelevantCount(p) <= RelevantCount(w)
          && (RelevantCount(p) == RelevantCount(w) ==>
                && (MedianLatency(w).None? ==> MedianLatency(p).None?)
                && (MedianLatency(w).Some? && MedianLatency(p).Some? ==>
                      MedianLatency(w).value <= MedianLatency(p).value)
                && (MedianLatency(w) == MedianLatency(p) ==> w.prompt <= p.prompt)))
  }

  /**
   There is a winner when a prompt is eligible: one with the best mean score, of those with
   the most relevant answers, of those with the least median latency, and then the first id.
   */
  lemma {:induction false} WinnerIsBest(rows: seq<PromptEvaluation>)
    ensures Winner(rows).None? <==> forall p :: p in rows ==> !Eligible(p)
    ensures Winner(rows).Some? ==>
      exists w :: w in rows && Eligible(w) && Winner(rows) == Some(w.prompt)
                  && forall p :: p in rows && Eligible(p) ==> NotWorse(w, p)
  {
    var eligible := EligibleOf(rows);
    var sorted := SortBy(Wins, eligible);
    forall p
      ensures p in eligible <==> p in rows && Eligible(p)
    {
      EligibleAreRows(rows, p);
    }
    SortElements(Wins, eligible);
    if sorted != [] {
      var w := sorted[0];
      assert w in sorted;
      WinsIsWeak();
      SortSorted(Wins, eligible);
      forall p | p in rows && Eligible(p)
        ensures NotWorse(w, p)
      {
        assert p in sorted;
        HeadIsLeast(Wins, sorted, p);
      }
    } else {
      assert |eligible| == 0;
    }
  }

  // ----- the whole run ----------------------------------------------------

  type Results = map<nat, seq<CaseResult>>

  /** One case put to the prompts, in order; every result is appended to its prompt's list. */
  function AfterPrompts(
    w: World, limits: Limits, c: Case, number: nat, results: Results, prompts: seq<nat>): (r: Results)
    requires forall p :: p in prompts ==> p in results
    ensures r.Keys == results.Keys
  {
    if prompts == [] then results
    else
      var last := prompts[|prompts| - 1];
      assert last in prompts;
      assert forall p :: p in prompts[..|prompts| - 1] ==> p in prompts;
      var r := AfterPrompts(w, limits, c, number, results, prompts[..|prompts| - 1]);
      r[last := r[last] + [Outcome(w, limits, c, number, last)]]
  }

  function NoResults(prompts: seq<nat>): Results {
    map p | p in prompts :: []
  }

  function AfterCases(w: World, limits: Limits, cases: seq<Case>, prompts: seq<nat>): (r: Results)
    ensures r.Keys == ToSet(prompts)
  {
    if cases == [] then NoResults(prompts)
    else
      AfterPrompts(
        w, limits, cases[|cases| - 1], |cases| - 1, AfterCases(w, limits, cases[..|cases| - 1], prompts), prompts)
  }

  function AggregateAll(results: Results, prompts: seq<nat>): (r: seq<PromptEvaluation>)
    requires forall p :: p in prompts ==> p in results
    ensures |r| == |prompts|
    ensures forall i :: 0 <= i < |r| ==> r[i] == Aggregate(prompts[i], results[prompts[i]])
  {
    if prompts == [] then []
    else
      assert forall p :: p in prompts[..|prompts| - 1] ==> p in prompts;
      AggregateAll(results, prompts[..|prompts| - 1])
      + [Aggregate(prompts[|prompts| - 1], results[prompts[|prompts| - 1]])]
  }

  function CaseIds(cases: seq<Case>): (r: seq<nat>)
    ensures |r| == |cases|
  {
    if cases == [] then [] else CaseIds(cases[..|cases| - 1]) + [cases[|cases| - 1].id]
  }

  datatype Artifact = Artifact(caseIds: seq<nat>, rows: seq<PromptEvaluation>, selected: Option<nat>)

  function Completed(w: World, limits: Limits, cases: seq<Case>, prompts: seq<nat>): Artifact {
    var results := AfterCases(w, limits, cases, prompts);
    assert forall p :: p in prompts ==> p in ToSet(prompts);
    var rows := AggregateAll(results, prompts);
    Artifact(CaseIds(cases), rows, Winner(rows))
  }

  lemma {:induction false} PromptsUpTo(
    w: World, limits: Limits, c: Case, number: nat, before: Results, prompts: seq<nat>, k: nat)
    requires k < |prompts| && forall p :: p in prompts ==> p in before
    ensures var r := AfterPrompts(w, limits, c, number, before, prompts[..k]);
      AfterPrompts(w, limits, c, number, before, prompts[..k + 1])
      == r[prompts[k] := r[prompts[k]] + [Outcome(w, limits, c, number, prompts[k])]]
  {
    assert prompts[..k + 1][..k] == prompts[..k];
  }

  /** The inner loop of run: one case put to every prompt. */
  method RunPrompts(w: World, limits: Limits, c: Case, number: nat, before: Results, prompts: seq<nat>)
    returns (results: Results)
    requires forall p :: p in prompts ==> p in before
    ensures results == AfterPrompts(w, limits, c, number, before, prompts)
  {
    results := before;
    for k := 0 to |prompts|
      invariant results.Keys == before.Keys
      invariant results == AfterPrompts(w, limits, c, number, before, prompts[..k])
    {
      PromptsUpTo(w, limits, c, number, before, prompts, k);
      var r := RunCase(w, limits, c, number, prompts[k]);
      results := results[prompts[k] := results[prompts[k]] + [r]];
    }
    assert prompts[..|prompts|] == prompts;
  }

  method Run(w: World, limits: Limits, cases: seq<Case>, prompts: seq<nat>) returns (artifact: Artifact)
    ensures artifact == Completed(w, limits, cases, prompts)
  {
    var results := NoResults(prompts);
    for number := 0 to |cases|
      invariant results == AfterCases(w, limits, cases[..number], prompts)
    {
      assert forall p :: p in prompts ==> p in ToSet(prompts);
      assert cases[..number + 1][..number] == cases[..number];
      results := RunPrompts(w, limits, cases[number], number, results, prompts);
    }
    assert cases[..|cases|] == cases;
    assert forall p :: p in prompts ==> p in ToSet(prompts);
    var rows := AggregateAll(results, prompts);
    return Artifact(CaseIds(cases), rows, Winner(rows));
  }

  // ----- what a completed run leaves --------------------------------------

  /** The results of one prompt: one per case, in case order. */
  function ResultsFor(w: World, limits: Limits, cases: seq<Case>, prompt: nat): (r: seq<CaseResult>)
    ensures |r| == |cases|
  {
    if cases == [] then []
    else
      ResultsFor(w, limits, cases[..|cases| - 1], prompt)
      + [Outcome(w, limits, cases[|cases| - 1], |cases| - 1, prompt)]
  }

  lemma {:induction false} PromptsOnce(
    w: World, limits: Limits, c: Case, number: nat, results: Results, prompts: seq<nat>, p: nat)
    requires NoRepeats(prompts) && (forall q :: q in prompts ==> q in results) && p in results
    ensures AfterPrompts(w, limits, c, number, results, prompts)[p]
         == if p in prompts then results[p] + [Outcome(w, limits, c, number, p)] else results[p]
  {
    if prompts != [] {
      var before, last := prompts[..|prompts| - 1], prompts[|prompts| - 1];
      assert forall q :: q in before ==> q in prompts;
      PromptsOnce(w, limits, c, number, results, before, p);
      assert prompts == before + [last];
    }
  }

  lemma {:induction false} ResultsOfPrompt(w: World, limits: Limits, cases: seq<Case>, prompts: seq<nat>, p: nat)
    requires NoRepeats(prompts) && p in prompts
    ensures p in AfterCases(w, limits, cases, prompts)
    ensures AfterCases(w, limits, cases, prompts)[p] == ResultsFor(w, limits, cases, p)
  {
    assert forall q :: q in prompts ==> q in ToSet(prompts);
    if cases != [] {
      var before := cases[..|cases| - 1];
      ResultsOfPrompt(w, limits, before, prompts, p);
      PromptsOnce(w, limits, cases[|cases| - 1], |cases| - 1, AfterCases(w, limits, before, prompts), prompts, p);
    }
  }

  function ResultIds(results: seq<CaseResult>): (r: seq<nat>)
    ensures |r| == |results|
  {
    if results == [] then [] else ResultIds(results[..|results| - 1]) + [results[|results| - 1].caseId]
  }

  lemma {:induction false} ResultsAreOfTheCases(w: World, limits: Limits, cases: seq<Case>, p: nat)
    ensures ResultIds(ResultsFor(w, limits, cases, p)) == CaseIds(cases)
    ensures forall r :: r in ResultsFor(w, limits, cases, p) ==> Honest(r)
  {
    if cases != [] {
      var before, last := cases[..|cases| - 1], cases[|cases| - 1];
      var results := ResultsFor(w, limits, before, p);
      var r := Outcome(w, limits, last, |cases| - 1, p);
      ResultsAreOfTheCases(w, limits, before, p);
      SuccessIsClean(w, limits, last, |cases| - 1, p);
      assert (results + [r])[..|results|] == results;
    }
  }

  /** Eligibility comes down to having cases and no failure: an accepted answer is always cleanly cited. */
  lemma {:induction false} EligibleMeansNoFailures(w: World, limits: Limits, cases: seq<Case>, p: nat)
    ensures var row := Aggregate(p, ResultsFor(w, limits, cases, p));
      Eligible(row) <==> row.failures == 0 && cases != []
  {
    ResultsAreOfTheCases(w, limits, cases, p);
    EligibleIff(p, ResultsFor(w, limits, cases, p));
  }

  // ----- the validator of the artifact ------------------------------------

  predicate RowFits(row: PromptEvaluation, caseIds: seq<nat>) {
    var ids := ResultIds(row.cases);
    row.cases != [] ==>
      && |ids| == |ToSet(ids)| && ToSet(ids) == ToSet(caseIds)
      && row.labels == Labels(row.cases)
      && row.failures == SumOf(row.cases, FailureIn)
      && row.handles == SumOf(row.cases, HandlesIn)
      && row.valid == SumOf(row.cases, ValidIn)
      && row.foreign == SumOf(row.cases, ForeignIn)
  }

  /** GenerationArtifact.cross_fields, given that the clock does not run backwards. */
  predicate CrossFields(a: Artifact) {
    && |a.caseIds| == |ToSet(a.caseIds)|
    && |ToSet(PromptsOf(a.rows))| == |a.rows|
    && (forall row :: row in a.rows ==> RowFits(row, a.caseIds))
    && (EligibleOf(a.rows) != [] ==> a.selected == Winner(a.rows))
    && (EligibleOf(a.rows) == [] ==> a.selected == None)
  }

  /**
   What the validator vouches for in any artifact: no id occurs twice, every prompt with
   results has one for each case, and its labels and counts are theirs; and the selected
   prompt is the best eligible one, or none when there is none.
   */
  lemma {:induction false} ValidArtifactIsHonest(a: Artifact, i: nat)
    requires CrossFields(a) && i < |a.rows|
    ensures NoRepeats(a.caseIds) && NoRepeats(PromptsOf(a.rows))
    ensures a.selected == None <==> forall p :: p in a.rows ==> !Eligible(p)
    ensures a.selected.Some? ==>
      exists w :: w in a.rows && Eligible(w) && a.selected == Some(w.prompt)
                  && forall p :: p in a.rows && Eligible(p) ==> NotWorse(w, p)
    ensures var row := a.rows[i];
      row.cases != [] ==>
        && NoRepeats(ResultIds(row.cases)) && (forall id :: id in ResultIds(row.cases) <==> id in a.caseIds)
        && row == Aggregate(row.prompt, row.cases).(latencies := row.latencies)
  {
    NoRepeatsIff(a.caseIds);
    NoRepeatsIff(PromptsOf(a.rows));
    WinnerIsBest(a.rows);
    assert a.rows[i] in a.rows;
    NoRepeatsIff(ResultIds(a.rows[i].cases));
    SomeEligible(a.rows);
    SameMembers(ResultIds(a.rows[i].cases), a.caseIds);
  }

  lemma {:induction false} SomeEligible(rows: seq<PromptEvaluation>)
    ensures EligibleOf(rows) == [] <==> Winner(rows) == None
  {
    SortElements(Wins, EligibleOf(rows));
  }

  lemma {:induction false} SameMembers(a: seq<nat>, b: seq<nat>)
    ensures ToSet(a) == ToSet(b) ==> forall x :: x in a <==> x in b
  {
    assert forall x :: (x in ToSet(a) <==> x in a) && (x in ToSet(b) <==> x in b);
  }

  lemma {:induction false} CompletedRow(w: World, limits: Limits, cases: seq<Case>, prompts: seq<nat>, i: nat)
    requires NoRepeats(prompts) && i < |prompts|
    ensures var rows := Completed(w, limits, cases, prompts).rows;
      |rows| == |prompts| && rows[i] == Aggregate(prompts[i], ResultsFor(w, limits, cases, prompts[i]))
  {
    ResultsOfPrompt(w, limits, cases, prompts, prompts[i]);
  }

  lemma {:induction false} RowsFit(w: World, limits: Limits, cases: seq<Case>, prompts: seq<nat>)
    requires NoRepeats(prompts) && NoRepeats(CaseIds(cases))
    ensures forall row :: row in Completed(w, limits, cases, prompts).rows ==> RowFits(row, CaseIds(cases))
  {
    var rows := Completed(w, limits, cases, prompts).rows;
    NoRepeatsIff(CaseIds(cases));
    forall row | row in rows
      ensures RowFits(row, CaseIds(cases))
    {
      var i :| 0 <= i < |rows| && rows[i] == row;
      CompletedRow(w, limits, cases, prompts, i);
      ResultsAreOfTheCases(w, limits, cases, prompts[i]);
    }
  }

  /** The artifact of a completed run passes its own validator exactly when neither case nor prompt ids repeat. */
  lemma {:induction false} ArtifactPassesIff(w: World, limits: Limits, cases: seq<Case>, prompts: seq<nat>)
    ensures CrossFields(Completed(w, limits, cases, prompts)) <==> NoRepeats(CaseIds(cases)) && NoRepeats(prompts)
  {
    var a := Completed(w, limits, cases, prompts);
    NoRepeatsIff(CaseIds(cases));
    PromptsOfRows(w, limits, cases, prompts);
    NoRepeatsIff(prompts);
    if NoRepeats(CaseIds(cases)) && NoRepeats(prompts) {
      RowsFit(w, limits, cases, prompts);
    }
  }

  lemma {:induction false} RowsCount(rows: seq<PromptEvaluation>, f: nat -> PromptEvaluation, x: PromptEvaluation)
    requires NoRepeats(PromptsOf(rows))
    requires forall i :: 0 <= i < |rows| ==> rows[i] == f(rows[i].prompt)
    ensures multiset(rows)[x] == if x.prompt in PromptsOf(rows) && x == f(x.prompt) then 1 else 0
  {
    if rows != [] {
      var before, last := rows[..|rows| - 1], rows[|rows| - 1];
      RowsCount(before, f, x);
      assert rows == before + [last];
      assert PromptsOf(rows) == PromptsOf(before) + [last.prompt];
    }
  }

  function RowFor(w: World, limits: Limits, cases: seq<Case>): nat -> PromptEvaluation {
    (p: nat) => Aggregate(p, ResultsFor(w, limits, cases, p))
  }

  lemma {:induction false} PromptsOfRows(w: World, limits: Limits, cases: seq<Case>, prompts: seq<nat>)
    ensures PromptsOf(Completed(w, limits, cases, prompts).rows) == prompts
  {
  }

  lemma {:induction false} RowsOfDistinctPrompts(w: World, limits: Limits, cases: seq<Case>, prompts: seq<nat>)
    requires NoRepeats(prompts)
    ensures var rows := Completed(w, limits, cases, prompts).rows;
      && PromptsOf(rows) == prompts
      && forall i :: 0 <= i < |rows| ==> rows[i] == RowFor(w, limits, cases)(rows[i].prompt)
  {
    PromptsOfRows(w, limits, cases, prompts);
    var rows := Completed(w, limits, cases, prompts).rows;
    forall i | 0 <= i < |rows|
      ensures rows[i] == RowFor(w, limits, cases)(rows[i].prompt)
    {
      CompletedRow(w, limits, cases, prompts, i);
    }
  }

  lemma {:induction false} SamePromptsSameRows(
    a: seq<PromptEvaluation>, b: seq<PromptEvaluation>, f: nat -> PromptEvaluation)
    requires NoRepeats(PromptsOf(a)) && NoRepeats(PromptsOf(b))
    requires forall p :: p in PromptsOf(a) <==> p in PromptsOf(b)
    requires forall i :: 0 <= i < |a| ==> a[i] == f(a[i].prompt)
    requires forall i :: 0 <= i < |b| ==> b[i] == f(b[i].prompt)
    ensures multiset(a) == multiset(b)
  {
    forall x
      ensures multiset(a)[x] == multiset(b)[x]
    {
      RowsCount(a, f, x);
      RowsCount(b, f, x);
    }
  }

  /** Running the same prompts in another order selects the same winner. */
  lemma {:induction false} WinnerIgnoresPromptOrder(
    w: World, limits: Limits, cases: seq<Case>, prompts: seq<nat>, other: seq<nat>)
    requires NoRepeats(prompts) && NoRepeats(other) && forall p :: p in prompts <==> p in other
    ensures Completed(w, limits, cases, prompts).selected == Completed(w, limits, cases, other).selected
  {
    var a, b := Completed(w, limits, cases, prompts).rows, Completed(w, limits, cases, other).rows;
    RowsOfDistinctPrompts(w, limits, cases, prompts);
    RowsOfDistinctPrompts(w, limits, cases, other);
    SamePromptsSameRows(a, b, RowFor(w, limits, cases));
    WinnerIgnoresOrder(a, b);
  }
}
