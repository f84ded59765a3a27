/** A research run: budget tracking, retrieval, claim normalization, grading and the completion reason. */
module ResearchRun {
  import opened Ranking
  import opened Records
  import opened Strings

  // ----- the budget -----

  type Money = x: real | 0.0 <= x

  /** The limits, as validation leaves them: none is negative. */
  datatype Budget = Budget(
    maxToolCalls: nat,
    maxDurationMs: nat,
    maxInputTokens: nat,
    maxOutputTokens: nat,
    maxSources: nat,
    maxCostUsd: Money)

  datatype Usage = Usage(
    toolCalls: nat,
    durationMs: int,
    inputTokens: int,
    outputTokens: int,
    sources: nat,
    costUsd: real)

  datatype Dimension = ToolCalls | Duration | InputTokens | OutputTokens | Sources | Cost

  const NO_USAGE := Usage(0, 0, 0, 0, 0, 0.0)

  function Min(a: nat, b: nat): nat { if a < b then a else b }

  function ClampBudget(requested: Budget, maximum: Budget): Budget {
    Budget(
      Min(requested.maxToolCalls, maximum.maxToolCalls),
      Min(requested.maxDurationMs, maximum.maxDurationMs),
      Min(requested.maxInputTokens, maximum.maxInputTokens),
      Min(requested.maxOutputTokens, maximum.maxOutputTokens),
      Min(requested.maxSources, maximum.maxSources),
      if requested.maxCostUsd < maximum.maxCostUsd then requested.maxCostUsd else maximum.maxCostUsd)
  }

  /** Rounds to a millionth, halves upwards. */
  function RoundMoney(value: real): real {
    (value * 1_000_000.0 + 0.5).Floor as real / 1_000_000.0
  }

  /** The first limit, in the order they are checked, that the consumed amounts exceed. */
  function Exceeded(u: Usage, limit: Budget): Option<Dimension> {
    if u.inputTokens > limit.maxInputTokens then Some(InputTokens)
    else if u.outputTokens > limit.maxOutputTokens then Some(OutputTokens)
    else if u.sources > limit.maxSources then Some(Sources)
    else if u.costUsd > limit.maxCostUsd then Some(Cost)
    else None
  }

  /** What the amounts must satisfy for a run not to be over budget. */
  predicate Affordable(u: Usage, limit: Budget) {
    && u.toolCalls <= limit.maxToolCalls && u.sources <= limit.maxSources
    && u.inputTokens <= limit.maxInputTokens && u.outputTokens <= limit.maxOutputTokens
    && u.costUsd <= limit.maxCostUsd
  }

  function Calling(u: Usage, limit: Budget, elapsed: int): (Usage, Option<Dimension>) {
    var timed := u.(durationMs := elapsed);
    if elapsed > limit.maxDurationMs then (timed, Some(Duration))
    else if u.toolCalls + 1 > limit.maxToolCalls then (timed, Some(ToolCalls))
    else (timed.(toolCalls := u.toolCalls + 1), None)
  }

  function Consuming(u: Usage, input: int, output: int, sources: nat, cost: real): Usage {
    u.(inputTokens := u.inputTokens + input, outputTokens := u.outputTokens + output, sources := u.sources + sources,
       costUsd := RoundMoney(u.costUsd + cost))
  }

  class ResearchBudgetTracker {
    const limit: Budget
    const startedAt: int
    var usage: Usage

    constructor (limit: Budget, now: int)
      ensures this.limit == limit && startedAt == now && usage == NO_USAGE
    {
      this.limit := limit;
      this.startedAt := now;
      usage := NO_USAGE;
    }

    method BeforeTool(now: int) returns (over: Option<Dimension>)
      modifies this
      ensures (usage, over) == Calling(old(usage), limit, now - startedAt)
      ensures over.None? ==> usage.toolCalls <= limit.maxToolCalls
    {
      var late := RefreshDuration(now);
      if late {
        return Some(Duration);
      }
      if usage.toolCalls + 1 > limit.maxToolCalls {
        return Some(ToolCalls);
      }
      usage := usage.(toolCalls := usage.toolCalls + 1);
      over := None;
    }

    /** The amounts are added first and checked afterwards, so an overshoot stays recorded. */
    method Consume(input: int, output: int, sources: nat, cost: real) returns (over: Option<Dimension>)
      modifies this
      ensures usage == Consuming(old(usage), input, output, sources, cost) && over == Exceeded(usage, limit)
    {
      usage := usage.(inputTokens := usage.inputTokens + input);
      usage := usage.(outputTokens := usage.outputTokens + output);
      usage := usage.(sources := usage.sources + sources);
      usage := usage.(costUsd := RoundMoney(usage.costUsd + cost));
      over := Exceeded(usage, limit);
    }

    method RefreshDuration(now: int) returns (late: bool)
      modifies this
      ensures usage == old(usage).(durationMs := now - startedAt) && late == (now - startedAt > limit.maxDurationMs)
    {
      usage := usage.(durationMs := now - startedAt);
      late := usage.durationMs > limit.maxDurationMs;
    }

    /** The usage a result records; running late is ignored here. */
    method SafeUsage(now: int) returns (used: Usage)
      modifies this
      ensures used == usage == old(usage).(durationMs := now - startedAt)
    {
      var _ := RefreshDuration(now);
      used := usage;
    }
  }

  // ----- evidence, drafts, claims, results -----

  datatype Relation = Supports | Contradicts

  datatype Tie = Tie(claimId: string, relation: Relation)

  datatype Freshness = Fresh | Stale | UnknownFreshness

  /** What an adapter returns; `key` stands for the fields that only normalization looks at. */
  datatype RawEvidence = RawEvidence(key: string, publisher: string, primary: bool, statement: string)

  /** `flagged` says that injection screening found a signal in the source text; an empty url or resource id is an
      absent one. */
  datatype EvidenceItem = EvidenceItem(
    evidenceId: string,
    title: string,
    publisher: string,
    canonicalUrl: string,
    resourceId: string,
    revision: Option<string>,
    contentHash: string,
    primary: bool,
    statement: string,
    reliability: real,
    retracted: bool,
    flagged: bool,
    freshness: Freshness,
    relationships: seq<Tie>)

  datatype Classification = Fact | Inference | Forecast | UnknownClass

  datatype DraftClaim = DraftClaim(
    claimId: string,
    statement: string,
    classification: Classification,
    supporting: seq<string>,
    contradicting: seq<string>,
    confidence: real,
    materiality: real)

  datatype Claim = Claim(draft: DraftClaim, freshness: Freshness)

  datatype ImpactPath = ImpactPath(pathId: string, nodes: seq<string>, supporting: seq<string>)

  datatype Draft = Draft(
    directAnswer: string,
    executiveSummary: string,
    claims: seq<DraftClaim>,
    contradictions: seq<string>,
    unknowns: seq<string>,
    assumptions: seq<string>,
    impactPaths: seq<ImpactPath>,
    inputTokens: int,
    outputTokens: int,
    costUsd: real,
    provider: string,
    version: string)

  datatype GraderName = Schema | Citations | UnsupportedClaims | Contradictions | FreshnessGrader | Safety

  datatype Grade = Grade(grader: GraderName, passed: bool)

  datatype Reason = Complete | Partial | BudgetExhausted | CancelledRun | InsufficientEvidence

  datatype Citation = Citation(evidenceId: string, tag: string, url: Option<string>)

  datatype Tool = Tnl | Docdex | Web | CodaliTool

  datatype StageName = Plan | Retrieve | Normalize | Synthesis | Grading | Cached

  /** One entry of the trace; its status is complete or partial. */
  datatype Stage = Stage(name: StageName, tools: seq<Tool>, partial: bool)

  const SCHEMA_VERSION := "1.0"

  datatype ResearchResult = ResearchResult(
    schemaVersion: string,
    resultId: string,
    directAnswer: string,
    executiveSummary: string,
    claims: seq<Claim>,
    evidence: seq<EvidenceItem>,
    contradictions: seq<string>,
    unknowns: seq<string>,
    assumptions: seq<string>,
    impactPaths: seq<ImpactPath>,
    citations: seq<Citation>,
    trace: seq<Stage>,
    graders: seq<Grade>,
    limit: Budget,
    used: Usage,
    reason: Reason,
    warnings: seq<string>,
    provider: string,
    version: string)

  // ----- identifiers -----

  predicate Alphanumeric(c: char) {
    'A' <= c <= 'Z' || 'a' <= c <= 'z' || '0' <= c <= '9'
  }

  predicate InId(c: char) {
    Alphanumeric(c) || c == '.' || c == '_' || c == ':' || c == '-'
  }

  /** Three to 128 characters, the first a letter or digit. */
  predicate IsId(s: string) {
    3 <= |s| <= 128 && Alphanumeric(s[0]) && forall i :: 1 <= i < |s| ==> InId(s[i])
  }

  function Decimal(n: nat): string {
    var digit := [('0' as int + n % 10) as char];
    if n < 10 then digit else Decimal(n / 10) + digit
  }

  lemma {:induction false} DecimalShape(n: nat)
    requires n < 1000
    ensures 1 <= |Decimal(n)| <= 3 && forall i :: 0 <= i < |Decimal(n)| ==> InId(Decimal(n)[i])
    ensures n < 10 ==> |Decimal(n)| == 1
    ensures n < 100 ==> |Decimal(n)| <= 2
  {
    if n >= 10 {
      DecimalShape(n / 10);
    }
  }

  function ClaimId(index: nat): string {
    "claim_" + Decimal(index + 1)
  }

  lemma ClaimIdIsId(index: nat)
    requires index < 100
    ensures IsId(ClaimId(index))
  {
    DecimalShape(index + 1);
    var s, d := ClaimId(index), Decimal(index + 1);
    assert forall i :: 0 <= i < |s| ==> s[i] == if i < 6 then "claim_"[i] else d[i - 6];
  }

  /** The digest's first 24 hexadecimal characters. */
  predicate IsDigest(s: string) {
    |s| == 24 && forall i :: 0 <= i < |s| ==> Alphanumeric(s[i])
  }

  lemma ResultIdIsId(digest: string)
    requires IsDigest(digest)
    ensures IsId("res_" + digest)
  {
    var s := "res_" + digest;
    assert forall i :: 0 <= i < |s| ==> s[i] == if i < 4 then "res_"[i] else digest[i - 4];
  }

  // ----- claims against evidence -----

  function EvidenceIds(evidence: seq<EvidenceItem>): set<string> {
    set e | e in evidence :: e.evidenceId
  }

  function Surviving(ids: seq<string>, evidence: seq<EvidenceItem>): seq<string> {
    Filter(id => id in EvidenceIds(evidence), ids)
  }

  function Find(evidence: seq<EvidenceItem>, id: string): (e: Option<EvidenceItem>)
    ensures e.Some? <==> id in EvidenceIds(evidence)
    ensures e.Some? ==> e.value in evidence && e.value.evidenceId == id
  {
    if evidence == [] then None
    else if evidence[0].evidenceId == id then Some(evidence[0])
    else Find(evidence[1..], id)
  }

  /** Stale support makes a claim stale; without it, fresh support makes it fresh. */
  function ClaimFreshness(support: seq<string>, evidence: seq<EvidenceItem>): Freshness {
    if exists id :: id in support && Find(evidence, id).Some? && Find(evidence, id).value.freshness.Stale? then Stale
    else if exists id :: id in support && Find(evidence, id).Some? && Find(evidence, id).value.freshness.Fresh? then Fresh
    else UnknownFreshness
  }

  function Unit(x: real): real {
    if x < 0.0 then 0.0 else if x > 1.0 then 1.0 else x
  }

  function Take<T>(s: seq<T>, n: nat): seq<T> {
    if |s| <= n then s else s[..n]
  }

  function NormalizeClaim(d: DraftClaim, index: nat, evidence: seq<EvidenceItem>): Claim {
    var support := Surviving(d.supporting, evidence);
    Claim(DraftClaim(if IsId(d.claimId) then d.claimId else ClaimId(index), Take(Trim(d.statement), 5_000),
                     d.classification, support, Surviving(d.contradicting, evidence), Unit(d.confidence),
                     Unit(d.materiality)),
          ClaimFreshness(support, evidence))
  }

  function NormalizeClaims(drafts: seq<DraftClaim>, evidence: seq<EvidenceItem>): (claims: seq<Claim>)
    ensures |claims| <= 100
  {
    var kept := Take(drafts, 100);
    seq(|kept|, i requires 0 <= i < |kept| => NormalizeClaim(kept[i], i, evidence))
  }

  // ----- the result contract -----

  predicate ValidClaim(c: Claim, ids: set<string>) {
    && IsId(c.draft.claimId) && 0.0 <= c.draft.confidence <= 1.0
    && (forall id :: id in c.draft.supporting ==> id in ids)
    && (forall id :: id in c.draft.contradicting ==> id in ids)
  }

  /** What a result must satisfy to be accepted. */
  predicate ValidResult(r: ResearchResult) {
    && r.schemaVersion == SCHEMA_VERSION && IsId(r.resultId)
    && forall i :: 0 <= i < |r.claims| ==> ValidClaim(r.claims[i], EvidenceIds(r.evidence))
  }

  function FirstMissing(wanted: seq<string>, ids: set<string>): (i: nat)
    ensures i <= |wanted| && (i < |wanted| ==> wanted[i] !in ids) && forall k :: 0 <= k < i ==> wanted[k] in ids
  {
    if wanted == [] || wanted[0] !in ids then 0 else 1 + FirstMissing(wanted[1..], ids)
  }

  /** The checking loop of the contract. */
  method ValidateResearchResult(r: ResearchResult) returns (ok: bool)
    ensures ok <==> ValidResult(r)
  {
    if r.schemaVersion != SCHEMA_VERSION || !IsId(r.resultId) {
      return false;
    }
    var ids := EvidenceIds(r.evidence);
    for i := 0 to |r.claims|
      invariant forall k :: 0 <= k < i ==> ValidClaim(r.claims[k], ids)
    {
      var c := r.claims[i].draft;
      if !IsId(c.claimId) || c.confidence < 0.0 || c.confidence > 1.0 {
        return false;
      }
      var wanted := c.supporting + c.contradicting;
      var missing := FirstMissing(wanted, ids);
      assert forall id :: id in wanted <==> id in c.supporting || id in c.contradicting;
      if missing < |wanted| {
        assert wanted[missing] in wanted;
        return false;
      }
    }
    ok := true;
  }

  // ----- links from evidence back to claims -----

  datatype Link = Link(evidenceId: string, tie: Tie)

  function TiesTo(ids: seq<string>, tie: Tie): seq<Link> {
    if ids == [] then [] else TiesTo(ids[..|ids| - 1], tie) + [Link(ids[|ids| - 1], tie)]
  }

  function ClaimLinks(c: Claim): seq<Link> {
    TiesTo(c.draft.supporting, Tie(c.draft.claimId, Supports))
    + TiesTo(c.draft.contradicting, Tie(c.draft.claimId, Contradicts))
  }

  function AllLinks(claims: seq<Claim>): seq<Link> {
    if claims == [] then [] else AllLinks(claims[..|claims| - 1]) + ClaimLinks(claims[|claims| - 1])
  }

  /** Of items that share an id, the last is the one links are recorded on. */
  predicate Holds(evidence: seq<EvidenceItem>, k: nat, id: string) {
    k < |evidence| && evidence[k].evidenceId == id && forall j :: k < j < |evidence| ==> evidence[j].evidenceId != id
  }

  function Recorded(links: seq<Link>, id: string): seq<Tie> {
    if links == [] then []
    else Recorded(links[..|links| - 1], id) + if links[|links| - 1].evidenceId == id then [links[|links| - 1].tie] else []
  }

  /** The evidence with every link recorded on the item that holds its id, in order. */
  function Linked(evidence: seq<EvidenceItem>, links: seq<Link>): (r: seq<EvidenceItem>)
    ensures |r| == |evidence|
  {
    seq(|evidence|, k requires 0 <= k < |evidence| =>
      if Holds(evidence, k, evidence[k].evidenceId)
      then evidence[k].(relationships := evidence[k].relationships + Recorded(links, evidence[k].evidenceId))
      else evidence[k])
  }

  lemma LinkedStep(evidence: seq<EvidenceItem>, links: seq<Link>, link: Link, k: nat)
    requires Holds(evidence, k, link.evidenceId)
    ensures var done := Linked(evidence, links);
      Linked(evidence, links + [link]) == done[k := done[k].(relationships := done[k].relationships + [link.tie])]
  {
    var done, next := Linked(evidence, links), Linked(evidence, links + [link]);
    assert (links + [link])[..|links + [link]| - 1] == links;
    forall j | 0 <= j < |evidence|
      ensures next[j] == if j == k then done[k].(relationships := done[k].relationships + [link.tie]) else done[j]
    {
      var id := evidence[j].evidenceId;
      assert Recorded(links + [link], id) == Recorded(links, id) + if link.evidenceId == id then [link.tie] else [];
      assert Recorded(links, id) + [] == Recorded(links, id);
      if j != k && id == link.evidenceId {
        assert j < k;
      }
    }
  }

  lemma LinkedMiss(evidence: seq<EvidenceItem>, links: seq<Link>, link: Link)
    requires link.evidenceId !in EvidenceIds(evidence)
    ensures Linked(evidence, links + [link]) == Linked(evidence, links)
  {
    assert (links + [link])[..|links + [link]| - 1] == links;
    forall j | 0 <= j < |evidence|
      ensures Linked(evidence, links + [link])[j] == Linked(evidence, links)[j]
    {
      assert evidence[j].evidenceId in EvidenceIds(evidence);
      assert Recorded(links, evidence[j].evidenceId) + [] == Recorded(links, evidence[j].evidenceId);
    }
  }

  lemma NoLinks(evidence: seq<EvidenceItem>)
    ensures Linked(evidence, []) == evidence
  {
    assert forall k :: 0 <= k < |evidence| ==> evidence[k].relationships + [] == evidence[k].relationships;
  }

  /** Records one tie per id on the evidence, in place. */
  method PushTies(evidence: seq<EvidenceItem>, linked: seq<EvidenceItem>, ghost links: seq<Link>, ids: seq<string>, tie: Tie)
    returns (next: seq<EvidenceItem>)
    requires linked == Linked(evidence, links)
    ensures next == Linked(evidence, links + TiesTo(ids, tie))
  {
    next := linked;
    assert links + [] == links;
    for i := 0 to |ids|
      invariant next == Linked(evidence, links + TiesTo(ids[..i], tie))
    {
      assert ids[..i + 1][..i] == ids[..i];
      assert links + TiesTo(ids[..i], tie) + [Link(ids[i], tie)] == links + TiesTo(ids[..i + 1], tie);
      var k := LastIndex(evidence, ids[i]);
      if k.Some? {
        LinkedStep(evidence, links + TiesTo(ids[..i], tie), Link(ids[i], tie), k.value);
        next := next[k.value := next[k.value].(relationships := next[k.value].relationships + [tie])];
      } else {
        LinkedMiss(evidence, links + TiesTo(ids[..i], tie), Link(ids[i], tie));
      }
    }
    assert ids[..|ids|] == ids;
  }

  method LastIndex(evidence: seq<EvidenceItem>, id: string) returns (k: Option<nat>)
    ensures k.Some? ==> Holds(evidence, k.value, id)
    ensures k.None? ==> id !in EvidenceIds(evidence)
  {
    var i := |evidence|;
    while i > 0
      invariant 0 <= i <= |evidence| && forall j :: i <= j < |evidence| ==> evidence[j].evidenceId != id
    {
      i := i - 1;
      if evidence[i].evidenceId == id {
        return Some(i);
      }
    }
    k := None;
  }

  method LinkEvidence(claims: seq<Claim>, evidence: seq<EvidenceItem>) returns (linked: seq<EvidenceItem>)
    ensures linked == Linked(evidence, AllLinks(claims))
  {
    linked := evidence;
    ghost var links := [];
    NoLinks(evidence);
    for i := 0 to |claims|
      invariant links == AllLinks(claims[..i]) && linked == Linked(evidence, links)
    {
      assert claims[..i + 1][..i] == claims[..i];
      var c := claims[i].draft;
      var supports, contradicts := Tie(c.claimId, Supports), Tie(c.claimId, Contradicts);
      linked := PushTies(evidence, linked, links, c.supporting, supports);
      linked := PushTies(evidence, linked, links + TiesTo(c.supporting, supports), c.contradicting, contradicts);
      assert links + TiesTo(c.supporting, supports) + TiesTo(c.contradicting, contradicts) == links + ClaimLinks(claims[i]);
      links := links + ClaimLinks(claims[i]);
    }
    assert claims[..|claims|] == claims;
  }

  function Count(evidence: seq<EvidenceItem>): nat {
    if evidence == [] then 0 else Count(evidence[..|evidence| - 1]) + |evidence[|evidence| - 1].relationships|
  }

  lemma {:induction false} CountOneMore(evidence: seq<EvidenceItem>, k: nat, tie: Tie)
    requires k < |evidence|
    ensures Count(evidence[k := evidence[k].(relationships := evidence[k].relationships + [tie])]) == Count(evidence) + 1
  {
    var n := |evidence| - 1;
    var grown := evidence[k := evidence[k].(relationships := evidence[k].relationships + [tie])];
    if k < n {
      CountOneMore(evidence[..n], k, tie);
      assert grown[..n] == evidence[..n][k := grown[k]];
    } else {
      assert grown[..n] == evidence[..n];
    }
  }

  /** No link is lost or doubled: linking adds exactly one tie per link to an existing id. */
  lemma {:induction false} LinksConserved(evidence: seq<EvidenceItem>, links: seq<Link>)
    requires forall i :: 0 <= i < |links| ==> links[i].evidenceId in EvidenceIds(evidence)
    ensures Count(Linked(evidence, links)) == Count(evidence) + |links|
  {
    if links == [] {
      NoLinks(evidence);
    } else {
      var n := |links| - 1;
      LinksConserved(evidence, links[..n]);
      var k := HolderOf(evidence, links[n].evidenceId);
      LinkedStep(evidence, links[..n], links[n], k);
      assert links == links[..n] + [links[n]];
      CountOneMore(Linked(evidence, links[..n]), k, links[n].tie);
    }
  }

  lemma {:induction false} HolderOf(evidence: seq<EvidenceItem>, id: string) returns (k: nat)
    requires id in EvidenceIds(evidence)
    ensures Holds(evidence, k, id)
  {
    var n := |evidence| - 1;
    if evidence[n].evidenceId == id {
      k := n;
    } else {
      assert evidence == evidence[..n] + [evidence[n]];
      k := HolderOf(evidence[..n], id);
    }
  }

  /** Whatever a link says stands on the item that holds its id. */
  lemma {:induction false} LinkIsRecorded(evidence: seq<EvidenceItem>, links: seq<Link>, link: Link, k: nat)
    requires link in links && Holds(evidence, k, link.evidenceId)
    ensures link.tie in Linked(evidence, links)[k].relationships
  {
    RecordedIn(links, link);
  }

  lemma {:induction false} RecordedIn(links: seq<Link>, link: Link)
    requires link in links
    ensures link.tie in Recorded(links, link.evidenceId)
  {
    var n := |links| - 1;
    if links[n] != link {
      assert links == links[..n] + [links[n]];
      RecordedIn(links[..n], link);
    }
  }

  // ----- graders -----

  predicate MaterialFact(c: Claim) {
    c.draft.materiality >= 0.5 && c.draft.classification.Fact?
  }

  predicate Cited(c: Claim) {
    c.draft.supporting != []
  }

  function GradeSchema(r: ResearchResult): Grade {
    Grade(Schema, ValidResult(r))
  }

  /** The score is the cited share of the material facts; only a full score passes. */
  function GradeCitations(claims: seq<Claim>): Grade {
    var materialFacts := Filter(MaterialFact, claims);
    var cited := |Filter(Cited, materialFacts)|;
    Grade(Citations, |materialFacts| == 0 || cited == |materialFacts|)
  }

  function GradeUnsupportedClaims(claims: seq<Claim>): Grade {
    Grade(UnsupportedClaims, |Filter((c: Claim) => c.draft.classification.Fact? && !Cited(c), claims)| == 0)
  }

  function GradeContradictions(r: ResearchResult): Grade {
    var contradicted := |Filter((c: Claim) => c.draft.contradicting != [], r.claims)|;
    Grade(Contradictions, contradicted == 0 || r.contradictions != [])
  }

  /** Passes when at least half of the evidence with a known age is fresh, and some age is known. */
  function GradeFreshness(evidence: seq<EvidenceItem>): Grade {
    var assessable := Filter((e: EvidenceItem) => !e.freshness.UnknownFreshness?, evidence);
    var freshOnes := |Filter((e: EvidenceItem) => e.freshness.Fresh?, assessable)|;
    Grade(FreshnessGrader, assessable != [] && 2 * freshOnes >= |assessable|)
  }

  function UnsafeIds(evidence: seq<EvidenceItem>): set<string> {
    set e | e in evidence && e.flagged :: e.evidenceId
  }

  function GradeSafety(r: ResearchResult, trades: string -> bool): Grade {
    var unsafe := UnsafeIds(r.evidence);
    var citedUnsafe := exists c, id :: c in r.claims && id in c.draft.supporting && id in unsafe;
    Grade(Safety, !citedUnsafe && !trades(r.directAnswer + "\n" + r.executiveSummary))
  }

  function GradeResearchResult(r: ResearchResult, trades: string -> bool): seq<Grade> {
    [GradeSchema(r), GradeCitations(r.claims), GradeUnsupportedClaims(r.claims), GradeContradictions(r),
     GradeFreshness(r.evidence), GradeSafety(r, trades)]
  }

  lemma {:induction false} FullFilter<T(!new)>(p: T -> bool, s: seq<T>)
    ensures |Filter(p, s)| <= |s|
    ensures |Filter(p, s)| == |s| <==> forall x :: x in s ==> p(x)
  {
    if s != [] {
      FullFilter(p, s[..|s| - 1]);
      assert s == s[..|s| - 1] + [s[|s| - 1]];
    }
  }

  /** The citation grader passes exactly when every material fact keeps some support. */
  lemma CitationsPassIff(claims: seq<Claim>)
    ensures GradeCitations(claims).passed <==> forall c :: c in claims && MaterialFact(c) ==> Cited(c)
  {
    FilterElements(MaterialFact, claims);
    FullFilter(Cited, Filter(MaterialFact, claims));
  }

  // ----- completion -----

  predicate Mentions(warning: string, phrase: string) {
    phrase <= warning || (warning != "" && Mentions(warning[1..], phrase))
  }

  lemma {:induction false} MentionsInside(before: string, phrase: string, after: string)
    ensures Mentions(before + phrase + after, phrase)
  {
    if before == "" {
      assert "" + phrase + after == phrase + after;
    } else {
      MentionsInside(before[1..], phrase, after);
      assert (before + phrase + after)[1..] == before[1..] + phrase + after;
    }
  }

  const REQUIRED_PHRASE := "required by this skill"

  datatype Task = Task(
    key: string,
    question: string,
    asOf: int,
    budget: Budget,
    requirePrimary: bool,
    minimumIndependentSources: int,
    freshnessMs: int)

  function Publishers(evidence: seq<EvidenceItem>, lower: string -> string): set<string> {
    set e | e in evidence :: lower(e.publisher)
  }

  function CompletionReason(task: Task, r: ResearchResult, codaliAvailable: bool, lower: string -> string): Reason {
    if r.evidence == [] then InsufficientEvidence
    else if !codaliAvailable || (exists w :: w in r.warnings && Mentions(w, REQUIRED_PHRASE)) then Partial
    else if task.requirePrimary && !(exists e :: e in r.evidence && e.primary) then InsufficientEvidence
    else if |Publishers(r.evidence, lower)| < task.minimumIndependentSources then Partial
    else if exists g :: g in r.graders && g.grader in [Schema, Citations, Safety] && !g.passed then Partial
    else Complete
  }

  // ----- one run -----

  const TOOLS := [Tnl, Docdex, Web]

  function ToolName(tool: Tool): string {
    match tool
    case Tnl => "tnl"
    case Docdex => "docdex"
    case Web => "web"
    case CodaliTool => "codali"
  }

  datatype Skill = Skill(required: seq<Tool>, optional: seq<Tool>, maximumBudget: Budget)

  /** What ends a run early: an abort, a budget, a tool that is not there, or any other error. */
  datatype Failure = Aborted | Overspent(dimension: Dimension) | NotAvailable(tool: string) | OtherError

  datatype Availability = Yes | No | Broken(failure: Failure)

  /** What retrieval does: returns items, or throws with the message that `safeError` reports. */
  datatype Retrieval = Retrieved(items: seq<RawEvidence>) | Threw(message: string)

  datatype Adapter = Adapter(availability: Availability, elapsed: int, retrieval: Retrieval)

  datatype Synthesis = Drafted(draft: Draft) | SynthesisFailed(failure: Failure)

  datatype Codali = Codali(availability: Availability, elapsed: int, synthesis: Synthesis)

  /** Everything outside the orchestrator: the adapters, the clock readings relative to the start, the abort
      signal, normalization, the language model, the digest of the result id, lower casing and the pattern of trade
      instructions. */
  datatype World = World(
    adapters: map<Tool, Adapter>,
    abortedAtStart: bool,
    aborted: bool,
    normalize: seq<RawEvidence> -> Option<seq<EvidenceItem>>,
    codali: Codali,
    finished: int,
    digest: string,
    lower: string -> string,
    trades: string -> bool)

  /** A run returns a result built from evidence, returns a short terminal result, or throws, by then having used
      some of its budget. */
  datatype Outcome = Built(result: ResearchResult) | Terminal(result: ResearchResult) | Thrown(spent: Usage)

  datatype Gathered = Gathered(usage: Usage, raw: seq<RawEvidence>, warnings: seq<string>)

  datatype Progress = Going(state: Gathered) | Stopped(usage: Usage, failure: Failure)

  function UnavailableWarning(tool: Tool, required: bool): string {
    if required then ToolName(tool) + " retrieval was unavailable and is " + REQUIRED_PHRASE + "."
    else ToolName(tool) + " retrieval was unavailable."
  }

  function FailedWarning(tool: Tool, required: bool, message: string): string {
    if required then ToolName(tool) + " retrieval failed: " + message
    else "Optional " + ToolName(tool) + " retrieval failed and was skipped."
  }

  function LimitName(d: Dimension): string {
    match d
    case ToolCalls => "maxToolCalls"
    case Duration => "maxDurationMs"
    case InputTokens => "maxInputTokens"
    case OutputTokens => "maxOutputTokens"
    case Sources => "maxSources"
    case Cost => "maxCostUsd"
  }

  function OverspentMessage(d: Dimension): string {
    "Research budget exhausted: " + LimitName(d)
  }

  /** One tool of the retrieval loop. Only errors thrown after the call was charged are swallowed. */
  function RetrieveFrom(tool: Tool, skill: Skill, world: World, limit: Budget, g: Gathered): Progress {
    var required := tool in skill.required;
    if !required && tool !in skill.optional then Going(g)
    else if tool !in world.adapters || world.adapters[tool].availability.No? then
      Going(g.(warnings := g.warnings + [UnavailableWarning(tool, required)]))
    else if world.adapters[tool].availability.Broken? then Stopped(g.usage, world.adapters[tool].availability.failure)
    else
      var (called, over) := Calling(g.usage, limit, world.adapters[tool].elapsed);
      if over.Some? then Stopped(called, Overspent(over.value))
      else Going(Charged(tool, required, world.adapters[tool].retrieval, limit, g.(usage := called)))
  }

  function Charged(tool: Tool, required: bool, retrieval: Retrieval, limit: Budget, g: Gathered): Gathered {
    match retrieval
    case Threw(message) => g.(warnings := g.warnings + [FailedWarning(tool, required, message)])
    case Retrieved(items) =>
      var usage := Consuming(g.usage, 0, 0, |items|, 0.0);
      var over := Exceeded(usage, limit);
      if over.Some? then
        Gathered(usage, g.raw, g.warnings + [FailedWarning(tool, required, OverspentMessage(over.value))])
      else Gathered(usage, g.raw + items, g.warnings)
  }

  function RetrieveAll(tools: seq<Tool>, skill: Skill, world: World, limit: Budget, g: Gathered): Progress {
    if tools == [] then Going(g)
    else
      match RetrieveFrom(tools[0], skill, world, limit, g)
      case Stopped(usage, failure) => Stopped(usage, failure)
      case Going(next) => RetrieveAll(tools[1..], skill, world, limit, next)
  }

  function Joined(statements: seq<string>): string {
    if statements == [] then ""
    else if |statements| == 1 then statements[0]
    else statements[0] + " " + Joined(statements[1..])
  }

  /** The evidence-only draft used when no language model is available. */
  function DegradedDraft(task: Task, evidence: seq<EvidenceItem>): Draft {
    var usable := Filter((e: EvidenceItem) => !e.flagged && !e.retracted, evidence);
    var first, summary := Take(usable, 5), Take(usable, 3);
    Draft(
      if usable != [] then
        "A complete synthesized answer is unavailable. " + Decimal(|usable|) + " evidence item(s) can be inspected for "
        + Trim(task.question)
      else "No usable evidence was available for this research run.",
      Joined(seq(|summary|, i requires 0 <= i < |summary| => summary[i].statement)),
      seq(|first|, i requires 0 <= i < |first| =>
        DraftClaim(ClaimId(i), first[i].statement, Fact, [first[i].evidenceId], [], first[i].reliability, 0.5)),
      [], ["Codali synthesis was unavailable."], ["Only retrieved source statements are represented."], [], 0, 0, 0.0,
      "evidence-only-degraded", "1")
  }

  function CitationsOf(evidence: seq<EvidenceItem>): seq<Citation> {
    seq(|evidence|, i requires 0 <= i < |evidence| =>
      Citation(evidence[i].evidenceId, Decimal(i + 1) + ". " + evidence[i].publisher + ": " + evidence[i].title,
               if evidence[i].canonicalUrl != "" then Some(evidence[i].canonicalUrl) else None))
  }

  function PlanStage(skill: Skill): Stage {
    Stage(Plan, skill.required + skill.optional, false)
  }

  function RetrieveStage(world: World, warnings: seq<string>): Stage {
    Stage(Retrieve, Filter(tool => tool in world.adapters, TOOLS), warnings != [])
  }

  const NORMALIZE_STAGE := Stage(Normalize, [], false)

  function SynthesisStage(byModel: bool): Stage {
    Stage(Synthesis, if byModel then [CodaliTool] else [], !byModel)
  }

  function GradingStage(graders: seq<Grade>): Stage {
    Stage(Grading, [], exists g :: g in graders && !g.passed)
  }

  function BuildResult(task: Task, limit: Budget, evidence: seq<EvidenceItem>, claims: seq<Claim>, draft: Draft,
                       trace: seq<Stage>, warnings: seq<string>, used: Usage, digest: string): ResearchResult {
    ResearchResult(SCHEMA_VERSION, "res_" + digest, Take(draft.directAnswer, 20_000), Take(draft.executiveSummary, 10_000),
                   claims, evidence, Take(draft.contradictions, 100), Take(draft.unknowns, 100), Take(draft.assumptions, 100),
                   Take(draft.impactPaths, 100), CitationsOf(evidence), trace, [], limit, used, Partial, warnings,
                   draft.provider, draft.version)
  }

  function Judged(task: Task, r: ResearchResult, codaliAvailable: bool, world: World): ResearchResult {
    var graders := GradeResearchResult(r, world.trades);
    var graded := r.(graders := graders, trace := r.trace + [GradingStage(graders)]);
    graded.(reason := CompletionReason(task, graded, codaliAvailable, world.lower))
  }

  function TerminalResult(limit: Budget, usage: Usage, trace: seq<Stage>, reason: Reason, warning: string, world: World)
    : ResearchResult
  {
    var r := ResearchResult(SCHEMA_VERSION, "res_" + world.digest, warning, "", [], [], [], [warning], [], [], [], trace, [],
                            limit, usage.(durationMs := world.finished), reason, [warning], "none", "0");
    r.(graders := GradeResearchResult(r, world.trades))
  }

  predicate ClaimsNothing(r: ResearchResult) {
    r.claims == [] && r.evidence == [] && !r.reason.Complete?
  }

  /** What becomes of an error that reaches the outer handler. */
  function Handled(limit: Budget, usage: Usage, trace: seq<Stage>, failure: Failure, world: World): (o: Outcome)
    ensures !o.Built? && Spent(o).toolCalls == usage.toolCalls
    ensures o.Terminal? ==> ClaimsNothing(o.result) && Identified(o.result, world) && o.result.trace == trace
  {
    if world.aborted || failure.Aborted? then
      Outcome.Terminal(TerminalResult(limit, usage, trace, CancelledRun, "Research run was cancelled.", world))
    else
      match failure
      case Overspent(d) => Outcome.Terminal(TerminalResult(limit, usage, trace, BudgetExhausted, OverspentMessage(d), world))
      case NotAvailable(tool) => Outcome.Terminal(TerminalResult(limit, usage, trace, Partial, tool + " is unavailable", world))
      case _ => Thrown(usage)
  }

  predicate Identified(r: ResearchResult, world: World) {
    r.schemaVersion == SCHEMA_VERSION && r.resultId == "res_" + world.digest
  }

  /** What a run had used when it ended. */
  function Spent(o: Outcome): Usage {
    if o.Thrown? then o.spent else o.result.used
  }

  const DEGRADED := "Codali was unavailable; the result uses evidence-only degraded synthesis."

  /** The draft, the usage before its costs are consumed, and whether the language model wrote it. */
  datatype Written = Written(usage: Usage, draft: Draft, byModel: bool) | NotWritten(usage: Usage, failure: Failure)

  function Synthesize(task: Task, evidence: seq<EvidenceItem>, usage: Usage, limit: Budget, codali: Codali): Written {
    match codali.availability
    case No => Written(usage, DegradedDraft(task, evidence), false)
    case Broken(failure) => NotWritten(usage, failure)
    case Yes =>
      var (called, over) := Calling(usage, limit, codali.elapsed);
      if over.Some? then NotWritten(called, Overspent(over.value))
      else
        match codali.synthesis
        case SynthesisFailed(failure) => NotWritten(called, failure)
        case Drafted(draft) => Written(called, draft, true)
  }

  /** The trace of a run that has gathered its sources, and that of one that has normalized them too. */
  function RetrievedTrace(skill: Skill, world: World, warnings: seq<string>): seq<Stage> {
    [PlanStage(skill), RetrieveStage(world, warnings)]
  }

  function NormalizedTrace(skill: Skill, world: World, warnings: seq<string>): seq<Stage> {
    RetrievedTrace(skill, world, warnings) + [NORMALIZE_STAGE]
  }

  /** The whole run as a function of the task and everything outside. */
  function Conducted(task: Task, skill: Skill, world: World): Outcome {
    var limit := ClampBudget(task.budget, skill.maximumBudget);
    if world.abortedAtStart then Handled(limit, NO_USAGE, [PlanStage(skill)], Aborted, world)
    else
      match RetrieveAll(TOOLS, skill, world, limit, Gathered(NO_USAGE, [], []))
      case Stopped(usage, failure) => Handled(limit, usage, [PlanStage(skill)], failure, world)
      case Going(g) =>
        match world.normalize(g.raw)
        case None => Handled(limit, g.usage, RetrievedTrace(skill, world, g.warnings), OtherError, world)
        case Some(normalized) => Synthesized(task, skill, world, limit, g, Take(normalized, limit.maxSources))
  }

  function Synthesized(task: Task, skill: Skill, world: World, limit: Budget, g: Gathered, evidence: seq<EvidenceItem>): Outcome {
    var trace := NormalizedTrace(skill, world, g.warnings);
    match Synthesize(task, evidence, g.usage, limit, world.codali)
    case NotWritten(usage, failure) => Handled(limit, usage, trace, failure, world)
    case Written(usage, draft, byModel) =>
      var spent := Consuming(usage, draft.inputTokens, draft.outputTokens, 0, draft.costUsd);
      if Exceeded(spent, limit).Some? then Handled(limit, spent, trace, Overspent(Exceeded(spent, limit).value), world)
      else Completed(task, limit, evidence, draft, byModel, trace, g.warnings, spent, world)
  }

  /** The last part of a run, which nothing interrupts: claims, links, result, grades, and the contract's check. */
  function Completed(task: Task, limit: Budget, evidence: seq<EvidenceItem>, draft: Draft, byModel: bool, trace: seq<Stage>,
                     warnings: seq<string>, spent: Usage, world: World): (o: Outcome)
    ensures o.Built? ==> ValidResult(o.result)
    ensures o.Terminal? ==> ClaimsNothing(o.result) && Identified(o.result, world)
    ensures Spent(o).toolCalls == spent.toolCalls
  {
    Finished(task, limit, evidence, draft, byModel, trace, warnings, spent.(durationMs := world.finished), world)
  }

  function Finished(task: Task, limit: Budget, evidence: seq<EvidenceItem>, draft: Draft, byModel: bool, trace: seq<Stage>,
                    warnings: seq<string>, used: Usage, world: World): (o: Outcome)
    ensures o.Built? ==> ValidResult(o.result)
    ensures o.Terminal? ==> ClaimsNothing(o.result) && Identified(o.result, world)
    ensures Spent(o).toolCalls == used.toolCalls
  {
    Checked(Assembled(task, limit, evidence, draft, byModel, trace, warnings, used, world), world)
  }

  /** The result before grading: normalized claims, and evidence linked to them. */
  function Drawn(task: Task, limit: Budget, evidence: seq<EvidenceItem>, draft: Draft, byModel: bool, trace: seq<Stage>,
                 warnings: seq<string>, used: Usage, world: World): ResearchResult {
    var claims := NormalizeClaims(draft.claims, evidence);
    BuildResult(task, limit, Linked(evidence, AllLinks(claims)), claims, draft, trace + [SynthesisStage(byModel)],
                if byModel then warnings else warnings + [DEGRADED], used, world.digest)
  }

  /** The graded result with its completion reason. */
  function Assembled(task: Task, limit: Budget, evidence: seq<EvidenceItem>, draft: Draft, byModel: bool, trace: seq<Stage>,
                     warnings: seq<string>, used: Usage, world: World): (r: ResearchResult)
    ensures r.used == used && r.limit == limit
  {
    Judged(task, Drawn(task, limit, evidence, draft, byModel, trace, warnings, used, world), byModel, world)
  }

  function Checked(r: ResearchResult, world: World): (o: Outcome)
    ensures o.Built? ==> ValidResult(o.result)
    ensures o.Terminal? ==> ClaimsNothing(o.result) && Identified(o.result, world)
    ensures Spent(o).toolCalls == r.used.toolCalls
  {
    if ValidResult(r) then Built(r) else Handled(r.limit, r.used, r.trace, OtherError, world)
  }

  /** The retrieval loop over the three tools, on the tracker. */
  method RetrieveEvidence(skill: Skill, world: World, tracker: ResearchBudgetTracker) returns (p: Progress)
    modifies tracker
    ensures p == RetrieveAll(TOOLS, skill, world, tracker.limit, Gathered(old(tracker.usage), [], []))
    ensures tracker.usage == if p.Going? then p.state.usage else p.usage
  {
    var raw, warnings := [], [];
    ghost var start := Gathered(tracker.usage, [], []);
    for i := 0 to |TOOLS|
      invariant RetrieveAll(TOOLS[i..], skill, world, tracker.limit, Gathered(tracker.usage, raw, warnings))
        == RetrieveAll(TOOLS, skill, world, tracker.limit, start)
    {
      var tool := TOOLS[i];
      assert TOOLS[i..][1..] == TOOLS[i + 1..];
      var required := tool in skill.required;
      if !required && tool !in skill.optional {
        continue;
      }
      if tool !in world.adapters || world.adapters[tool].availability.No? {
        warnings := warnings + [UnavailableWarning(tool, required)];
        continue;
      }
      if world.adapters[tool].availability.Broken? {
        return Stopped(tracker.usage, world.adapters[tool].availability.failure);
      }
      var over := tracker.BeforeTool(tracker.startedAt + world.adapters[tool].elapsed);
      if over.Some? {
        return Stopped(tracker.usage, Overspent(over.value));
      }
      match world.adapters[tool].retrieval {
        case Threw(message) => warnings := warnings + [FailedWarning(tool, required, message)];
        case Retrieved(items) =>
          over := tracker.Consume(0, 0, |items|, 0.0);
          if over.Some? {
            warnings := warnings + [FailedWarning(tool, required, OverspentMessage(over.value))];
          } else {
            raw := raw + items;
          }
      }
    }
    p := Going(Gathered(tracker.usage, raw, warnings));
  }

  method SynthesizeDraft(task: Task, evidence: seq<EvidenceItem>, codali: Codali, tracker: ResearchBudgetTracker)
    returns (w: Written)
    modifies tracker
    ensures w == Synthesize(task, evidence, old(tracker.usage), tracker.limit, codali)
    ensures tracker.usage == w.usage
  {
    match codali.availability {
      case No => w := Written(tracker.usage, DegradedDraft(task, evidence), false);
      case Broken(failure) => w := NotWritten(tracker.usage, failure);
      case Yes =>
        var over := tracker.BeforeTool(tracker.startedAt + codali.elapsed);
        if over.Some? {
          return NotWritten(tracker.usage, Overspent(over.value));
        }
        match codali.synthesis {
          case SynthesisFailed(failure) => w := NotWritten(tracker.usage, failure);
          case Drafted(draft) => w := Written(tracker.usage, draft, true);
        }
    }
  }

  /** One run from plan to graded result. */
  method Research(task: Task, skill: Skill, world: World, now: int) returns (o: Outcome)
    ensures o == Conducted(task, skill, world)
  {
    var limit := ClampBudget(task.budget, skill.maximumBudget);
    var tracker := new ResearchBudgetTracker(limit, now);
    var trace := [PlanStage(skill)];
    if world.abortedAtStart {
      return Handled(limit, tracker.usage, trace, Aborted, world);
    }
    var p := RetrieveEvidence(skill, world, tracker);
    if p.Stopped? {
      return Handled(limit, tracker.usage, trace, p.failure, world);
    }
    trace := trace + [RetrieveStage(world, p.state.warnings)];
    var normalized := world.normalize(p.state.raw);
    if normalized.None? {
      return Handled(limit, tracker.usage, trace, OtherError, world);
    }
    trace := trace + [NORMALIZE_STAGE];
    var evidence := Take(normalized.value, limit.maxSources);
    o := WriteResult(task, skill, world, evidence, p.state, trace, tracker);
  }

  method WriteResult(task: Task, skill: Skill, world: World, evidence: seq<EvidenceItem>, g: Gathered, trace: seq<Stage>,
                     tracker: ResearchBudgetTracker) returns (o: Outcome)
    requires tracker.usage == g.usage && trace == NormalizedTrace(skill, world, g.warnings)
    modifies tracker
    ensures o == Synthesized(task, skill, world, tracker.limit, g, evidence)
  {
    var w := SynthesizeDraft(task, evidence, world.codali, tracker);
    if w.NotWritten? {
      return Handled(tracker.limit, tracker.usage, trace, w.failure, world);
    }
    var over := tracker.Consume(w.draft.inputTokens, w.draft.outputTokens, 0, w.draft.costUsd);
    if over.Some? {
      return Handled(tracker.limit, tracker.usage, trace, Overspent(over.value), world);
    }
    o := CompleteRun(task, evidence, w, trace, g.warnings, tracker, world);
  }

  method CompleteRun(task: Task, evidence: seq<EvidenceItem>, w: Written, trace: seq<Stage>, gathered: seq<string>,
                     tracker: ResearchBudgetTracker, world: World) returns (o: Outcome)
    requires w.Written?
    modifies tracker
    ensures o == Completed(task, tracker.limit, evidence, w.draft, w.byModel, trace, gathered, old(tracker.usage), world)
  {
    ghost var spent := tracker.usage;
    var used := tracker.SafeUsage(tracker.startedAt + world.finished);
    assert used == spent.(durationMs := world.finished);
    o := FinishRun(task, tracker.limit, evidence, w.draft, w.byModel, trace, gathered, used, world);
  }

  method FinishRun(task: Task, limit: Budget, evidence: seq<EvidenceItem>, draft: Draft, byModel: bool, trace: seq<Stage>,
                   gathered: seq<string>, used: Usage, world: World) returns (o: Outcome)
    ensures o == Finished(task, limit, evidence, draft, byModel, trace, gathered, used, world)
  {
    var r := AssembleResult(task, limit, evidence, draft, byModel, trace, gathered, used, world);
    o := CheckResult(r, world);
  }

  method AssembleResult(task: Task, limit: Budget, evidence: seq<EvidenceItem>, draft: Draft, byModel: bool, trace: seq<Stage>,
                        gathered: seq<string>, used: Usage, world: World) returns (r: ResearchResult)
    ensures r == Assembled(task, limit, evidence, draft, byModel, trace, gathered, used, world)
  {
    var warnings := if byModel then gathered else gathered + [DEGRADED];
    var claims := NormalizeClaims(draft.claims, evidence);
    var linked := LinkEvidence(claims, evidence);
    r := BuildResult(task, limit, linked, claims, draft, trace + [SynthesisStage(byModel)], warnings, used, world.digest);
    r := Judged(task, r, byModel, world);
  }

  method CheckResult(r: ResearchResult, world: World) returns (o: Outcome)
    ensures o == Checked(r, world)
  {
    var valid := ValidateResearchResult(r);
    o := if valid then Built(r) else Handled(r.limit, r.used, r.trace, OtherError, world);
  }

  // ----- every built result meets the contract -----

  predicate SameSources(a: seq<EvidenceItem>, b: seq<EvidenceItem>) {
    |a| == |b| && forall k :: 0 <= k < |a| ==> a[k].evidenceId == b[k].evidenceId && a[k].flagged == b[k].flagged
  }

  lemma SameSourcesIds(a: seq<EvidenceItem>, b: seq<EvidenceItem>)
    requires SameSources(a, b)
    ensures EvidenceIds(a) <= EvidenceIds(b)
  {
    forall id | id in EvidenceIds(a)
      ensures id in EvidenceIds(b)
    {
      var k :| 0 <= k < |a| && a[k].evidenceId == id;
      assert b[k] in b;
    }
  }

  lemma LinkedKeepsIds(evidence: seq<EvidenceItem>, links: seq<Link>)
    ensures EvidenceIds(Linked(evidence, links)) == EvidenceIds(evidence)
  {
    SameSourcesIds(evidence, Linked(evidence, links));
    SameSourcesIds(Linked(evidence, links), evidence);
  }

  lemma NormalizedClaimIsValid(d: DraftClaim, index: nat, evidence: seq<EvidenceItem>)
    requires index < 100
    ensures ValidClaim(NormalizeClaim(d, index, evidence), EvidenceIds(evidence))
  {
    ClaimIdIsId(index);
    FilterElements(id => id in EvidenceIds(evidence), d.supporting);
    FilterElements(id => id in EvidenceIds(evidence), d.contradicting);
  }

  /** Whatever the draft says and whatever the evidence is, what is built satisfies the result contract, so the
      final check never throws. */
  lemma ContractAlwaysHolds(task: Task, limit: Budget, evidence: seq<EvidenceItem>, draft: Draft, byModel: bool,
                            trace: seq<Stage>, warnings: seq<string>, spent: Usage, world: World)
    requires IsDigest(world.digest)
    ensures var o := Completed(task, limit, evidence, draft, byModel, trace, warnings, spent, world);
      o.Built? && ValidResult(o.result)
  {
    var claims := NormalizeClaims(draft.claims, evidence);
    forall i | 0 <= i < |claims|
      ensures ValidClaim(claims[i], EvidenceIds(evidence))
    {
      NormalizedClaimIsValid(Take(draft.claims, 100)[i], i, evidence);
    }
    LinkedKeepsIds(evidence, AllLinks(claims));
    ResultIdIsId(world.digest);
  }

  // ----- spending -----

  /** What retrieval keeps: only tool calls and sources are charged, and as long as the sources fit, every charged
      source is still at hand. */
  predicate Accounted(g: Gathered, limit: Budget) {
    && g.usage.inputTokens == 0 && g.usage.outputTokens == 0 && g.usage.costUsd == 0.0
    && g.usage.toolCalls <= limit.maxToolCalls
    && (g.usage.sources <= limit.maxSources ==> |g.raw| == g.usage.sources)
  }

  /** The number of sources one tool delivers if it is reached. */
  function Delivery(tool: Tool, skill: Skill, world: World): nat {
    if (tool in skill.required || tool in skill.optional) && tool in world.adapters
       && world.adapters[tool].availability.Yes? && world.adapters[tool].retrieval.Retrieved?
    then |world.adapters[tool].retrieval.items|
    else 0
  }

  function Delivered(tools: seq<Tool>, skill: Skill, world: World): nat {
    if tools == [] then 0 else Delivery(tools[0], skill, world) + Delivered(tools[1..], skill, world)
  }

  lemma NothingCosts(u: Usage, limit: Budget, sources: nat)
    requires u.inputTokens == 0 && u.outputTokens == 0 && u.costUsd == 0.0
    ensures Consuming(u, 0, 0, sources, 0.0) == u.(sources := u.sources + sources)
    ensures Exceeded(u.(sources := u.sources + sources), limit).Some? <==> u.sources + sources > limit.maxSources
  {
  }

  lemma RetrieveFromAccounts(tool: Tool, skill: Skill, world: World, limit: Budget, g: Gathered)
    requires Accounted(g, limit)
    ensures match RetrieveFrom(tool, skill, world, limit, g)
      case Stopped(usage, _) => usage.toolCalls <= limit.maxToolCalls
      case Going(next) =>
        Accounted(next, limit) && next.usage.sources == g.usage.sources + Delivery(tool, skill, world)
  {
    if tool in world.adapters && world.adapters[tool].retrieval.Retrieved? {
      var called := Calling(g.usage, limit, world.adapters[tool].elapsed).0;
      NothingCosts(called, limit, |world.adapters[tool].retrieval.items|);
    }
  }

  lemma {:induction false} RetrieveAllAccounts(tools: seq<Tool>, skill: Skill, world: World, limit: Budget, g: Gathered)
    requires Accounted(g, limit)
    ensures match RetrieveAll(tools, skill, world, limit, g)
      case Stopped(usage, _) => usage.toolCalls <= limit.maxToolCalls
      case Going(next) =>
        Accounted(next, limit) && next.usage.sources == g.usage.sources + Delivered(tools, skill, world)
    decreases |tools|
  {
    if tools != [] {
      RetrieveFromAccounts(tools[0], skill, world, limit, g);
      var p := RetrieveFrom(tools[0], skill, world, limit, g);
      if p.Going? {
        RetrieveAllAccounts(tools[1..], skill, world, limit, p.state);
      }
    }
  }

  /** Where a run stands once the sources are gathered. */
  function AfterRetrieval(task: Task, skill: Skill, world: World): Progress {
    RetrieveAll(TOOLS, skill, world, ClampBudget(task.budget, skill.maximumBudget), Gathered(NO_USAGE, [], []))
  }

  lemma AfterRetrievalAccounts(task: Task, skill: Skill, world: World)
    ensures match AfterRetrieval(task, skill, world)
      case Stopped(usage, _) => usage.toolCalls <= ClampBudget(task.budget, skill.maximumBudget).maxToolCalls
      case Going(g) =>
        && Accounted(g, ClampBudget(task.budget, skill.maximumBudget))
        && g.usage.sources == Delivered(TOOLS, skill, world)
  {
    RetrieveAllAccounts(TOOLS, skill, world, ClampBudget(task.budget, skill.maximumBudget), Gathered(NO_USAGE, [], []));
  }

  /** The steps a built result has gone through. */
  lemma BuiltFrom(task: Task, skill: Skill, world: World) returns (g: Gathered, evidence: seq<EvidenceItem>, w: Written, spent: Usage)
    requires Conducted(task, skill, world).Built?
    ensures AfterRetrieval(task, skill, world) == Going(g)
    ensures |evidence| <= ClampBudget(task.budget, skill.maximumBudget).maxSources
    ensures w == Synthesize(task, evidence, g.usage, ClampBudget(task.budget, skill.maximumBudget), world.codali)
    ensures w.Written? && spent == Consuming(w.usage, w.draft.inputTokens, w.draft.outputTokens, 0, w.draft.costUsd)
    ensures Exceeded(spent, ClampBudget(task.budget, skill.maximumBudget)).None?
    ensures Conducted(task, skill, world)
      == Completed(task, ClampBudget(task.budget, skill.maximumBudget), evidence, w.draft, w.byModel,
                   NormalizedTrace(skill, world, g.warnings), g.warnings, spent, world)
  {
    var limit := ClampBudget(task.budget, skill.maximumBudget);
    g := AfterRetrieval(task, skill, world).state;
    evidence := Take(world.normalize(g.raw).value, limit.maxSources);
    w := Synthesize(task, evidence, g.usage, limit, world.codali);
    spent := Consuming(w.usage, w.draft.inputTokens, w.draft.outputTokens, 0, w.draft.costUsd);
  }

  /** A result built from evidence is within every limit it records but the duration, although an overshoot during
      retrieval is swallowed: what was charged is exactly what all adapters delivered, none of it was dropped, and
      the limit is neither above the requested budget nor above the skill's. */
  lemma BuiltWithinLimits(task: Task, skill: Skill, world: World)
    ensures Conducted(task, skill, world).Built? ==>
      var r := Conducted(task, skill, world).result;
      && Affordable(r.used, r.limit) && |r.evidence| <= r.limit.maxSources
      && r.limit == ClampBudget(task.budget, skill.maximumBudget)
      && r.used.sources == Delivered(TOOLS, skill, world)
    ensures Conducted(task, skill, world).Built? ==>
      var p := AfterRetrieval(task, skill, world);
      p.Going? && |p.state.raw| == Delivered(TOOLS, skill, world)
  {
    if Conducted(task, skill, world).Built? {
      AfterRetrievalAccounts(task, skill, world);
      var g, evidence, w, spent := BuiltFrom(task, skill, world);
      SynthesisCharges(task, evidence, g.usage, ClampBudget(task.budget, skill.maximumBudget), world.codali);
    }
  }

  lemma SynthesisCharges(task: Task, evidence: seq<EvidenceItem>, u: Usage, limit: Budget, codali: Codali)
    requires u.toolCalls <= limit.maxToolCalls
    ensures var w := Synthesize(task, evidence, u, limit, codali);
      w.usage.toolCalls <= limit.maxToolCalls && w.usage.sources == u.sources
  {
  }

  /** Delivering more sources than the limit allows never yields a built result. */
  lemma OvershootNeverBuilds(task: Task, skill: Skill, world: World)
    requires Delivered(TOOLS, skill, world) > ClampBudget(task.budget, skill.maximumBudget).maxSources
    ensures !Conducted(task, skill, world).Built?
  {
    BuiltWithinLimits(task, skill, world);
  }

  /** However a run ends, it has not called more tools than its limit allows. */
  lemma ToolCallsBounded(task: Task, skill: Skill, world: World)
    ensures Spent(Conducted(task, skill, world)).toolCalls <= ClampBudget(task.budget, skill.maximumBudget).maxToolCalls
  {
    AfterRetrievalAccounts(task, skill, world);
    var limit := ClampBudget(task.budget, skill.maximumBudget);
    var p := AfterRetrieval(task, skill, world);
    if !world.abortedAtStart && p.Going? && world.normalize(p.state.raw).Some? {
      SynthesisCharges(task, Take(world.normalize(p.state.raw).value, limit.maxSources), p.state.usage, limit, world.codali);
    }
  }

  lemma ClampIsLower(requested: Budget, maximum: Budget)
    ensures var c := ClampBudget(requested, maximum);
      && forall b :: b in {requested, maximum} ==>
        && c.maxToolCalls <= b.maxToolCalls && c.maxDurationMs <= b.maxDurationMs && c.maxInputTokens <= b.maxInputTokens
        && c.maxOutputTokens <= b.maxOutputTokens && c.maxSources <= b.maxSources && c.maxCostUsd <= b.maxCostUsd
  {
  }

  // ----- what `complete` means -----

  predicate IsComplete(o: Outcome) {
    o.Built? && o.result.reason.Complete?
  }

  /** What a reader may take from a complete result. */
  ghost predicate Substantiated(task: Task, r: ResearchResult, world: World) {
    && r.evidence != [] && world.codali.availability.Yes?
    && (forall w :: w in r.warnings ==> !Mentions(w, REQUIRED_PHRASE))
    && (task.requirePrimary ==> exists e :: e in r.evidence && e.primary)
    && task.minimumIndependentSources <= |Publishers(r.evidence, world.lower)|
    && (forall c :: c in r.claims && MaterialFact(c) ==> exists e :: e in r.evidence && e.evidenceId in c.draft.supporting)
    && (forall c, e :: c in r.claims && e in r.evidence && e.evidenceId in c.draft.supporting ==> !e.flagged)
    && !world.trades(r.directAnswer + "\n" + r.executiveSummary)
  }

  lemma SafetyPassesIff(r: ResearchResult, trades: string -> bool)
    ensures GradeSafety(r, trades).passed <==>
      && (forall c, e :: c in r.claims && e in r.evidence && e.evidenceId in c.draft.supporting ==> !e.flagged)
      && !trades(r.directAnswer + "\n" + r.executiveSummary)
  {
    var unsafe := UnsafeIds(r.evidence);
    if c, id :| c in r.claims && id in c.draft.supporting && id in unsafe {
      var e :| e in r.evidence && e.flagged && e.evidenceId == id;
    } else {
      assert forall c, e :: c in r.claims && e in r.evidence && e.evidenceId in c.draft.supporting && e.flagged ==>
        e.evidenceId in unsafe;
    }
  }

  lemma ValidCitation(r: ResearchResult, c: Claim)
    requires ValidResult(r) && c in r.claims
    ensures Cited(c) <==> exists e :: e in r.evidence && e.evidenceId in c.draft.supporting
  {
    var i :| 0 <= i < |r.claims| && r.claims[i] == c;
    if Cited(c) {
      assert c.draft.supporting[0] in c.draft.supporting;
      assert c.draft.supporting[0] in EvidenceIds(r.evidence);
    }
  }

  lemma JudgedCompleteIff(task: Task, b: ResearchResult, byModel: bool, world: World, r: ResearchResult)
    requires r == Judged(task, b, byModel, world) && ValidResult(b) && byModel == world.codali.availability.Yes?
    ensures r.reason.Complete? <==> Substantiated(task, r, world)
  {
    SafetyPassesIff(b, world.trades);
    CitationsPassIff(b.claims);
    forall c | c in b.claims
      ensures Cited(c) <==> exists e :: e in b.evidence && e.evidenceId in c.draft.supporting
    {
      ValidCitation(b, c);
    }
    GradesAsked(b, world.trades);
  }

  lemma GradesAsked(b: ResearchResult, trades: string -> bool)
    ensures (exists g :: g in GradeResearchResult(b, trades) && g.grader in [Schema, Citations, Safety] && !g.passed) <==>
      !(GradeSchema(b).passed && GradeCitations(b.claims).passed && GradeSafety(b, trades).passed)
  {
    var gs := GradeResearchResult(b, trades);
    assert gs[0] in gs && gs[1] in gs && gs[5] in gs;
    assert forall g :: g in gs ==> exists i :: 0 <= i < 6 && gs[i] == g;
  }

  /** A built result is complete exactly when it is substantiated. */
  lemma CompleteIff(task: Task, skill: Skill, world: World)
    ensures Conducted(task, skill, world).Built? ==>
      var r := Conducted(task, skill, world).result; r.reason.Complete? <==> Substantiated(task, r, world)
  {
    if Conducted(task, skill, world).Built? {
      var g, evidence, w, spent := BuiltFrom(task, skill, world);
      CompletedCompleteIff(task, ClampBudget(task.budget, skill.maximumBudget), evidence, w.draft, w.byModel,
                           NormalizedTrace(skill, world, g.warnings), g.warnings, spent, world);
    }
  }

  lemma CompletedCompleteIff(task: Task, limit: Budget, evidence: seq<EvidenceItem>, draft: Draft, byModel: bool,
                             trace: seq<Stage>, warnings: seq<string>, spent: Usage, world: World)
    requires byModel == world.codali.availability.Yes?
    ensures var o := Completed(task, limit, evidence, draft, byModel, trace, warnings, spent, world);
      o.Built? ==> (o.result.reason.Complete? <==> Substantiated(task, o.result, world))
  {
    var o := Completed(task, limit, evidence, draft, byModel, trace, warnings, spent, world);
    if o.Built? {
      var used := spent.(durationMs := world.finished);
      JudgedCompleteIff(task, Drawn(task, limit, evidence, draft, byModel, trace, warnings, used, world), byModel, world, o.result);
    }
  }

  /** What the trace of a result tells: a built result went through all five stages, its retrieval stage is complete exactly
      when nothing is shown but the warning about the language model, its synthesis stage names the language model exactly
      when that wrote the answer, and its last stage is complete exactly when every grader passed. */
  lemma BuiltTrace(task: Task, skill: Skill, world: World)
    ensures Conducted(task, skill, world).Built? ==>
      var r := Conducted(task, skill, world).result;
      TraceTells(r, PlanStage(skill), world.codali.availability.Yes?)
  {
    if Conducted(task, skill, world).Built? {
      var g, evidence, w, spent := BuiltFrom(task, skill, world);
      var limit := ClampBudget(task.budget, skill.maximumBudget);
      DrawnTrace(task, skill, limit, evidence, w, g.warnings, spent.(durationMs := world.finished), world);
    }
  }

  ghost predicate TraceTells(r: ResearchResult, plan: Stage, byModel: bool) {
    && |r.trace| == 5 && r.trace[0] == plan && r.trace[2] == NORMALIZE_STAGE && r.trace[3] == SynthesisStage(byModel)
    && r.trace[1].name == Retrieve && (r.trace[1].partial <==> |r.warnings| > if byModel then 0 else 1)
    && r.trace[4].name == Grading && (r.trace[4].partial <==> exists g :: g in r.graders && !g.passed)
  }

  lemma DrawnTrace(task: Task, skill: Skill, limit: Budget, evidence: seq<EvidenceItem>, w: Written, warnings: seq<string>,
                   used: Usage, world: World)
    requires w.Written?
    ensures TraceTells(Assembled(task, limit, evidence, w.draft, w.byModel, NormalizedTrace(skill, world, warnings), warnings,
                                 used, world), PlanStage(skill), w.byModel)
  {
    var b := Drawn(task, limit, evidence, w.draft, w.byModel, NormalizedTrace(skill, world, warnings), warnings, used, world);
    assert b.trace == [PlanStage(skill), RetrieveStage(world, warnings), NORMALIZE_STAGE, SynthesisStage(w.byModel)];
    assert b.warnings == if w.byModel then warnings else warnings + [DEGRADED];
    JudgedTrace(task, b, w.byModel, world);
  }

  lemma JudgedTrace(task: Task, b: ResearchResult, byModel: bool, world: World)
    ensures var r := Judged(task, b, byModel, world);
      && r.trace == b.trace + [r.trace[|b.trace|]] && r.warnings == b.warnings && r.trace[|b.trace|].name == Grading
      && (r.trace[|b.trace|].partial <==> exists g :: g in r.graders && !g.passed)
  {
  }

  /** A result that was not built from evidence claims nothing, cites nothing, and is valid. */
  lemma TerminalClaimsNothing(task: Task, skill: Skill, world: World)
    requires IsDigest(world.digest)
    ensures Conducted(task, skill, world).Terminal? ==>
      var r := Conducted(task, skill, world).result; ClaimsNothing(r) && ValidResult(r)
  {
    ResultIdIsId(world.digest);
  }

  lemma {:induction false} UnavailableIsReported(tools: seq<Tool>, skill: Skill, world: World, limit: Budget, g: Gathered, w: string)
    requires RetrieveAll(tools, skill, world, limit, g).Going?
    requires w in g.warnings || Reports(tools, skill, world, w)
    ensures w in RetrieveAll(tools, skill, world, limit, g).state.warnings
    decreases |tools|
  {
    if tools != [] {
      var next := RetrieveFrom(tools[0], skill, world, limit, g).state;
      if w !in g.warnings {
        var tool :| tool in tools && RequiredMissing(tool, skill, world) && w == UnavailableWarning(tool, true);
        assert tool == tools[0] || tool in tools[1..];
      }
      UnavailableIsReported(tools[1..], skill, world, limit, next, w);
    }
  }

  ghost predicate Reports(tools: seq<Tool>, skill: Skill, world: World, w: string) {
    exists tool :: tool in tools && RequiredMissing(tool, skill, world) && w == UnavailableWarning(tool, true)
  }

  predicate RequiredMissing(tool: Tool, skill: Skill, world: World) {
    tool in TOOLS && tool in skill.required && (tool !in world.adapters || world.adapters[tool].availability.No?)
  }

  /** An unavailable required tool rules out a complete result. */
  lemma MissingToolNeverComplete(task: Task, skill: Skill, world: World, tool: Tool)
    requires RequiredMissing(tool, skill, world)
    ensures !IsComplete(Conducted(task, skill, world))
  {
    if Conducted(task, skill, world).Built? {
      MissingIsReported(task, skill, world, tool);
      MissingIsMentioned(tool);
      CompleteIff(task, skill, world);
    }
  }

  lemma MissingIsReported(task: Task, skill: Skill, world: World, tool: Tool)
    requires RequiredMissing(tool, skill, world) && Conducted(task, skill, world).Built?
    ensures UnavailableWarning(tool, true) in Conducted(task, skill, world).result.warnings
  {
    var g, evidence, w, spent := BuiltFrom(task, skill, world);
    assert tool in TOOLS;
    UnavailableIsReported(TOOLS, skill, world, ClampBudget(task.budget, skill.maximumBudget), Gathered(NO_USAGE, [], []),
                          UnavailableWarning(tool, true));
    WarningsShown(task, ClampBudget(task.budget, skill.maximumBudget), evidence, w.draft, w.byModel,
                  NormalizedTrace(skill, world, g.warnings), g.warnings, spent, world, UnavailableWarning(tool, true));
  }

  lemma MissingIsMentioned(tool: Tool)
    ensures Mentions(UnavailableWarning(tool, true), REQUIRED_PHRASE)
  {
    MentionsInside(ToolName(tool) + " retrieval was unavailable and is ", REQUIRED_PHRASE, ".");
  }

  lemma WarningsShown(task: Task, limit: Budget, evidence: seq<EvidenceItem>, draft: Draft, byModel: bool,
                      trace: seq<Stage>, warnings: seq<string>, spent: Usage, world: World, w: string)
    requires w in warnings && Completed(task, limit, evidence, draft, byModel, trace, warnings, spent, world).Built?
    ensures w in Completed(task, limit, evidence, draft, byModel, trace, warnings, spent, world).result.warnings
  {
  }

  // ----- citations are visible on the evidence -----

  lemma {:induction false} TieListed(ids: seq<string>, tie: Tie, id: string)
    requires id in ids
    ensures Link(id, tie) in TiesTo(ids, tie)
  {
    var n := |ids| - 1;
    if ids[n] != id {
      assert ids == ids[..n] + [ids[n]];
      TieListed(ids[..n], tie, id);
    }
  }

  lemma {:induction false} ClaimListed(claims: seq<Claim>, c: Claim, link: Link)
    requires c in claims && link in ClaimLinks(c)
    ensures link in AllLinks(claims)
  {
    var n := |claims| - 1;
    if claims[n] != c {
      assert claims == claims[..n] + [claims[n]];
      ClaimListed(claims[..n], c, link);
    }
  }

  /** Every id a claim is normalized to cite is found on an evidence item, which records the claim as supported. */
  lemma CitationIsRecorded(drafts: seq<DraftClaim>, evidence: seq<EvidenceItem>, c: Claim, id: string) returns (k: nat)
    requires c in NormalizeClaims(drafts, evidence) && id in c.draft.supporting
    ensures Holds(evidence, k, id)
    ensures Tie(c.draft.claimId, Supports) in Linked(evidence, AllLinks(NormalizeClaims(drafts, evidence)))[k].relationships
  {
    var claims := NormalizeClaims(drafts, evidence);
    var i :| 0 <= i < |claims| && claims[i] == c;
    NormalizedClaimIsValid(Take(drafts, 100)[i], i, evidence);
    var link := Link(id, Tie(c.draft.claimId, Supports));
    TieListed(c.draft.supporting, link.tie, id);
    ClaimListed(claims, c, link);
    k := HolderOf(evidence, id);
    LinkIsRecorded(evidence, AllLinks(claims), link, k);
  }

  // ----- the cache in front of the runs -----

  datatype CacheKey = CacheKey(tenantId: string, task: string)

  /** `revisions` says which revision of each source the result rests on. */
  datatype CacheEntry = CacheEntry(result: ResearchResult, expiresAt: int, revisions: map<string, string>)

  datatype Reply = FromCache(result: ResearchResult) | FromRun(outcome: Outcome)

  const DAY_MS := 86_400_000

  function Lifetime(task: Task): int {
    if task.freshnessMs < DAY_MS then task.freshnessMs else DAY_MS
  }

  function RevisionOf(e: EvidenceItem): string {
    if e.revision.Some? then e.revision.value else e.contentHash
  }

  function RevisionsOf(evidence: seq<EvidenceItem>): map<string, string> {
    if evidence == [] then map[]
    else
      var before, e := RevisionsOf(evidence[..|evidence| - 1]), evidence[|evidence| - 1];
      if e.resourceId != "" then before[e.resourceId := RevisionOf(e)] else before
  }

  /** Of items from one resource, the last is the one whose revision counts. */
  predicate Latest(evidence: seq<EvidenceItem>, k: nat, resourceId: string) {
    k < |evidence| && evidence[k].resourceId == resourceId
    && forall j :: k < j < |evidence| ==> evidence[j].resourceId != resourceId
  }

  /** No evidence comes from the resource, or a revision is given and the last item from it has that one. */
  predicate UpToDate(evidence: seq<EvidenceItem>, resourceId: string, revision: Option<string>) {
    resourceId == "" || forall k :: 0 <= k < |evidence| && Latest(evidence, k, resourceId) ==> revision == Some(RevisionOf(evidence[k]))
  }

  predicate Outdated(e: CacheEntry, resourceId: string, revision: Option<string>) {
    resourceId in e.revisions && (revision.None? || e.revisions[resourceId] != revision.value)
  }

  lemma {:induction false} RevisionsTell(evidence: seq<EvidenceItem>, resourceId: string)
    ensures resourceId == "" ==> resourceId !in RevisionsOf(evidence)
    ensures resourceId != "" && resourceId in RevisionsOf(evidence) ==>
      exists k :: 0 <= k < |evidence| && Latest(evidence, k, resourceId)
                  && RevisionsOf(evidence)[resourceId] == RevisionOf(evidence[k])
    ensures resourceId != "" && resourceId !in RevisionsOf(evidence) ==>
      forall k :: 0 <= k < |evidence| ==> evidence[k].resourceId != resourceId
  {
    if evidence != [] {
      var n := |evidence| - 1;
      RevisionsTell(evidence[..n], resourceId);
      if resourceId != "" && resourceId in RevisionsOf(evidence) {
        if evidence[n].resourceId == resourceId {
          assert Latest(evidence, n, resourceId);
        } else {
          var k :| 0 <= k < n && Latest(evidence[..n], k, resourceId)
            && RevisionsOf(evidence[..n])[resourceId] == RevisionOf(evidence[..n][k]);
          assert forall j :: k < j < n ==> evidence[j] == evidence[..n][j];
          assert Latest(evidence, k, resourceId);
        }
      }
    }
  }

  lemma OutdatedIff(e: CacheEntry, resourceId: string, revision: Option<string>)
    requires e.revisions == RevisionsOf(e.result.evidence)
    ensures Outdated(e, resourceId, revision) <==> !UpToDate(e.result.evidence, resourceId, revision)
  {
    RevisionsTell(e.result.evidence, resourceId);
  }

  /** Only complete, valid results that kept to their limits are cached, each with the revisions it rests on. */
  ghost predicate CacheOk(cache: map<CacheKey, CacheEntry>) {
    forall key :: key in cache ==> Cacheable(cache[key].result) && cache[key].revisions == RevisionsOf(cache[key].result.evidence)
  }

  predicate Cacheable(r: ResearchResult) {
    r.reason.Complete? && ValidResult(r) && Affordable(r.used, r.limit)
  }

  class ResearchOrchestrator {
    var cache: map<CacheKey, CacheEntry>

    constructor ()
      ensures cache == map[]
    {
      cache := map[];
    }

    /** Serves a historical question from the tenant's cache when it can, and otherwise runs it; a recent question
        is always run. */
    method Run(tenantId: string, task: Task, skill: Skill, world: World, now: int) returns (reply: Reply)
      requires CacheOk(cache)
      modifies this
      ensures CacheOk(cache)
      ensures reply.FromCache? <==> Historical(task, now) && Live(old(cache), CacheKey(tenantId, task.key), now)
      ensures reply.FromCache? ==>
        cache == old(cache) && reply.result == WithCacheStage(cache[CacheKey(tenantId, task.key)].result)
        && reply.result.reason.Complete?
      ensures reply.FromRun? ==> reply.outcome == Conducted(task, skill, world)
      ensures reply.FromRun? ==>
        cache == Remembered(if Historical(task, now) then old(cache) - {CacheKey(tenantId, task.key)} else old(cache),
                            CacheKey(tenantId, task.key), task, reply.outcome, now)
    {
      var key := CacheKey(tenantId, task.key);
      if Historical(task, now) {
        var hit := Lookup(key, now);
        if hit.Some? {
          return FromCache(WithCacheStage(hit.value));
        }
      }
      var o := Research(task, skill, world, now);
      OutcomeIsCacheable(task, skill, world);
      Remember(key, task, o, now);
      reply := FromRun(o);
    }

    method Remember(key: CacheKey, task: Task, o: Outcome, now: int)
      requires CacheOk(cache) && (IsComplete(o) ==> Cacheable(o.result))
      modifies this
      ensures CacheOk(cache) && cache == Remembered(old(cache), key, task, o, now)
    {
      if IsComplete(o) {
        cache := cache[key := CacheEntry(o.result, now + Lifetime(task), RevisionsOf(o.result.evidence))];
      }
    }

    /** Drops what rests on the resource; with a revision, what rests on another revision of it. */
    method InvalidateResource(resourceId: string, revision: Option<string>) returns (removed: nat)
      requires CacheOk(cache)
      modifies this
      ensures CacheOk(cache) && removed == |old(cache)| - |cache|
      ensures forall key :: key in cache <==>
                key in old(cache) && UpToDate(old(cache)[key].result.evidence, resourceId, revision)
      ensures forall key :: key in cache ==> cache[key] == old(cache)[key]
    {
      removed := 0;
      var rest := cache.Keys;
      while rest != {}
        invariant rest <= cache.Keys && removed == |old(cache)| - |cache|
        invariant forall key :: key in cache <==>
                    key in old(cache) && (key in rest || UpToDate(old(cache)[key].result.evidence, resourceId, revision))
        invariant forall key :: key in cache ==> cache[key] == old(cache)[key]
        decreases rest
      {
        var key :| key in rest;
        OutdatedIff(cache[key], resourceId, revision);
        if Outdated(cache[key], resourceId, revision) {
          assert cache.Keys == (cache - {key}).Keys + {key};
          cache := cache - {key};
          removed := removed + 1;
        }
        rest := rest - {key};
      }
    }

    /** An entry that has expired is dropped when it is asked for. */
    method Lookup(key: CacheKey, now: int) returns (hit: Option<ResearchResult>)
      requires CacheOk(cache)
      modifies this
      ensures CacheOk(cache)
      ensures hit.Some? <==> Live(old(cache), key, now)
      ensures hit.Some? ==> cache == old(cache) && hit.value == cache[key].result && Cacheable(hit.value)
      ensures hit.None? ==> cache == old(cache) - {key}
    {
      if key !in cache {
        assert cache - {key} == cache;
        return None;
      }
      if cache[key].expiresAt <= now {
        cache := cache - {key};
        return None;
      }
      hit := Some(cache[key].result);
    }
  }

  /** The caller's copy of a cached result, with one more stage in its trace. */
  function WithCacheStage(r: ResearchResult): ResearchResult {
    r.(trace := r.trace + [Stage(Cached, [], false)])
  }

  predicate Historical(task: Task, now: int) {
    now - task.asOf > task.freshnessMs
  }

  predicate Live(cache: map<CacheKey, CacheEntry>, key: CacheKey, now: int) {
    key in cache && now < cache[key].expiresAt
  }

  function Remembered(cache: map<CacheKey, CacheEntry>, key: CacheKey, task: Task, o: Outcome, now: int)
    : map<CacheKey, CacheEntry>
  {
    if IsComplete(o) then cache[key := CacheEntry(o.result, now + Lifetime(task), RevisionsOf(o.result.evidence))] else cache
  }

  lemma OutcomeIsCacheable(task: Task, skill: Skill, world: World)
    ensures IsComplete(Conducted(task, skill, world)) ==> Cacheable(Conducted(task, skill, world).result)
  {
    BuiltWithinLimits(task, skill, world);
    BuiltIsValid(task, skill, world);
  }

  lemma BuiltIsValid(task: Task, skill: Skill, world: World)
    ensures Conducted(task, skill, world).Built? ==> ValidResult(Conducted(task, skill, world).result)
  {
    if Conducted(task, skill, world).Built? {
      var g, evidence, w, spent := BuiltFrom(task, skill, world);
    }
  }
}
