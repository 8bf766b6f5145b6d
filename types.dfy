/** The data contracts of the Market Sensor Engine: the closed tag
    enumerations and the record shapes that flow between the analyzer, the
    proof vault, the report and the export. */
module Types {
  import opened Wrappers

  /** Thematic category used to route implications to matching evidence. */
  datatype NarrativeTag = Trust | Speed | Control | Innovation | Cost | Security

  /** Audience of an implication or a proof. */
  datatype Persona = CTO | CFO | DataEngineer | VPEngineering | ProductManager

  /** Funnel stage. */
  datatype Stage = Awareness | Consideration | Decision

  /** Severity of an implication. */
  datatype Severity = Low | Medium | High

  /** Validation status of an action item. */
  datatype Status = Validated | InsufficientData

  /** An instant, held as the text `Date.prototype.toISOString` gives for it. */
  datatype Date = Date(iso: string)

  // ---------------------------------------------------------------------------
  // The string literals of the enumerations

  function NarrativeName(t: NarrativeTag): string {
    match t
    case Trust => "Trust"
    case Speed => "Speed"
    case Control => "Control"
    case Innovation => "Innovation"
    case Cost => "Cost"
    case Security => "Security"
  }

  function PersonaName(p: Persona): string {
    match p
    case CTO => "CTO"
    case CFO => "CFO"
    case DataEngineer => "Data Engineer"
    case VPEngineering => "VP Engineering"
    case ProductManager => "Product Manager"
  }

  function StageName(s: Stage): string {
    match s
    case Awareness => "Awareness"
    case Consideration => "Consideration"
    case Decision => "Decision"
  }

  function SeverityName(s: Severity): string {
    match s
    case Low => "low"
    case Medium => "medium"
    case High => "high"
  }

  function StatusName(s: Status): string {
    match s
    case Validated => "VALIDATED"
    case InsufficientData => "INSUFFICIENT_DATA"
  }

  /** The tag a literal names, if it is one of the six. */
  function ParseNarrative(s: string): (r: Option<NarrativeTag>)
    ensures r.Some? ==> NarrativeName(r.value) == s
  {
    if s == "Trust" then Some(Trust)
    else if s == "Speed" then Some(Speed)
    else if s == "Control" then Some(Control)
    else if s == "Innovation" then Some(Innovation)
    else if s == "Cost" then Some(Cost)
    else if s == "Security" then Some(Security)
    else None
  }

  function ParsePersona(s: string): (r: Option<Persona>)
    ensures r.Some? ==> PersonaName(r.value) == s
  {
    if s == "CTO" then Some(CTO)
    else if s == "CFO" then Some(CFO)
    else if s == "Data Engineer" then Some(DataEngineer)
    else if s == "VP Engineering" then Some(VPEngineering)
    else if s == "Product Manager" then Some(ProductManager)
    else None
  }

  function ParseStage(s: string): (r: Option<Stage>)
    ensures r.Some? ==> StageName(r.value) == s
  {
    if s == "Awareness" then Some(Awareness)
    else if s == "Consideration" then Some(Consideration)
    else if s == "Decision" then Some(Decision)
    else None
  }

  const AllNarrativeTags: seq<NarrativeTag> := [Trust, Speed, Control, Innovation, Cost, Security]
  const AllPersonas: seq<Persona> := [CTO, CFO, DataEngineer, VPEngineering, ProductManager]
  const AllStages: seq<Stage> := [Awareness, Consideration, Decision]

  /** Exactly six narrative tags, each with its own literal, which reads back as the tag. */
  lemma NarrativeTagsAreSix()
    ensures |AllNarrativeTags| == 6
    ensures forall t :: t in AllNarrativeTags
    ensures forall i, j :: 0 <= i < j < 6 ==> AllNarrativeTags[i] != AllNarrativeTags[j]
    ensures forall t :: ParseNarrative(NarrativeName(t)) == Some(t)
    ensures forall s, t :: ParseNarrative(s) == Some(t) <==> s == NarrativeName(t)
  {
    forall t ensures ParseNarrative(NarrativeName(t)) == Some(t) && t in AllNarrativeTags {
      match t
      case Trust =>
      case Speed => assert "Speed" != "Trust";
      case Control => assert "Control"[0] != "Trust"[0] && "Control"[0] != "Speed"[0];
      case Innovation => assert "Innovation"[0] == 'I';
      case Cost => assert "Cost"[1] == 'o';
      case Security => assert "Security"[1] == 'e';
    }
  }

  /** Exactly five personas, each with its own literal, which reads back as the persona. */
  lemma PersonasAreFive()
    ensures |AllPersonas| == 5
    ensures forall p :: p in AllPersonas
    ensures forall i, j :: 0 <= i < j < 5 ==> AllPersonas[i] != AllPersonas[j]
    ensures forall p :: ParsePersona(PersonaName(p)) == Some(p)
    ensures forall s, p :: ParsePersona(s) == Some(p) <==> s == PersonaName(p)
  {
    forall p ensures ParsePersona(PersonaName(p)) == Some(p) && p in AllPersonas {
      match p
      case CTO =>
      case CFO => assert "CFO"[1] != "CTO"[1];
      case DataEngineer => assert "Data Engineer"[0] == 'D';
      case VPEngineering => assert "VP Engineering"[0] == 'V';
      case ProductManager => assert "Product Manager"[0] == 'P';
    }
  }

  /** Exactly three stages, each with its own literal, which reads back as the stage. */
  lemma StagesAreThree()
    ensures |AllStages| == 3
    ensures forall s :: s in AllStages
    ensures forall i, j :: 0 <= i < j < 3 ==> AllStages[i] != AllStages[j]
    ensures forall s :: ParseStage(StageName(s)) == Some(s)
    ensures forall x, s :: ParseStage(x) == Some(s) <==> x == StageName(s)
  {
    forall s ensures ParseStage(StageName(s)) == Some(s) && s in AllStages {
      match s
      case Awareness =>
      case Consideration => assert "Consideration"[0] == 'C';
      case Decision => assert "Decision"[0] == 'D';
    }
  }

  /** Two tags, personas or stages with the same literal are the same. */
  lemma NamesInjective(t: NarrativeTag, t': NarrativeTag, p: Persona, p': Persona, s: Stage, s': Stage)
    ensures NarrativeName(t) == NarrativeName(t') <==> t == t'
    ensures PersonaName(p) == PersonaName(p') <==> p == p'
    ensures StageName(s) == StageName(s') <==> s == s'
  {
    NarrativeTagsAreSix();
    PersonasAreFive();
    StagesAreThree();
    if NarrativeName(t) == NarrativeName(t') {
      assert ParseNarrative(NarrativeName(t)) == Some(t);
    }
    if PersonaName(p) == PersonaName(p') {
      assert ParsePersona(PersonaName(p)) == Some(p);
    }
    if StageName(s) == StageName(s') {
      assert ParseStage(StageName(s)) == Some(s);
    }
  }

  /** Every literal of the enumerations is non-empty, so a filter on it is never
      mistaken for "no filter". */
  lemma NamesNonEmpty(t: NarrativeTag, p: Persona, s: Stage)
    ensures NarrativeName(t) != "" && PersonaName(p) != "" && StageName(s) != ""
  {
  }

  // ---------------------------------------------------------------------------
  // Records

  /** One capture of a competitor page. `rawHtml` is kept for audit only. */
  datatype CompetitorSnapshot = CompetitorSnapshot(
    id: string,
    competitorUrl: string,
    competitorName: string,
    capturedAt: Date,
    heroText: string,
    subheads: seq<string>,
    pricingBlocks: seq<string>,
    rawHtml: string)

  /** One observation about the drift between two snapshots. */
  datatype DriftImplication = DriftImplication(
    text: string,
    soWhat: string,
    narrativeTag: NarrativeTag,
    persona: Persona,
    stage: Stage,
    severity: Severity)

  /** The comparison of a baseline and a current snapshot; `driftScore` is
      documented as 0-100 and `trajectoryCall` is optional. */
  datatype DriftAnalysis = DriftAnalysis(
    id: string,
    competitorUrl: string,
    competitorName: string,
    analyzedAt: Date,
    driftScore: nat,
    newNouns: seq<string>,
    newVerbs: seq<string>,
    toneShifts: seq<string>,
    implications: seq<DriftImplication>,
    trajectoryCall: Option<string>)

  /** A unit of evidence in the proof vault. `expiryDate` is descriptive only. */
  datatype ProofRecord = ProofRecord(
    proofId: string,
    evidenceSentence: string,
    sourceLink: string,
    personaTag: Persona,
    narrativeTag: NarrativeTag,
    stage: Stage,
    expiryDate: Option<Date>,
    createdAt: Date,
    updatedAt: Date)

  /** The two next steps an action item can carry: review the proof, or the
      safety stop asking for one. The analyzer spells each out as a fixed
      text (`Analyzer.NextStepText`). */
  datatype NextStep = ReviewProof | ProofNeeded

  /** A proposed counter-move; `proofId` is the matching proof's id or null. */
  datatype ActionItem = ActionItem(
    line: string,
    proofId: Option<string>,
    nextStep: NextStep,
    narrativeTag: NarrativeTag,
    persona: Persona,
    stage: Stage,
    status: Status)

  datatype MarketPulseReport = MarketPulseReport(
    id: string,
    generatedAt: Date,
    driftAnalyses: seq<DriftAnalysis>,
    topImplications: seq<DriftImplication>,
    recommendedActions: seq<ActionItem>,
    sentViaEmail: bool,
    sentAt: Option<Date>)

  /** Operator-managed configuration of one competitor, keyed by `url`. */
  datatype CompetitorConfig = CompetitorConfig(
    url: string,
    name: string,
    active: bool,
    lastScanned: Option<Date>,
    addedAt: Date)
}
