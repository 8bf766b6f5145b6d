/** The decision logic of the proof vault's HTTP handlers (app/api/proof/route.ts):
    the required-field check and the ProofID built by `POST`, and the choice
    between lookup, search and listing in `GET` and the guard of `DELETE`.
    The clock reads are parameters; the awaited store calls are the `Db.Store`
    methods. */
module ProofRoute {
  import opened Wrappers
  import opened Seqs
  import opened Strings
  import opened Types
  import opened Db

  /** An error reply: the HTTP status and the `error` message of its body. */
  datatype ErrorResponse = ErrorResponse(status: nat, error: string)

  const BadRequest: nat := 400
  const NotFound: nat := 404
  /** The status of a successful `POST`. */
  const Created: nat := 201

  const MissingFields: string := "Missing required fields"
  const ProofIdRequired: string := "proofId is required"
  const ProofRecordNotFound: string := "Proof record not found"

  /** JavaScript truthiness of an optional string: present, not null, not empty. */
  predicate Filled(o: Option<string>) { o.Some? && o.value != "" }

  // ---------------------------------------------------------------------------
  // The ProofID

  /** The fixed first segment of every ProofID. */
  const ProofPrefix: string := "PROOF"

  /** `narrativeTag.toUpperCase()`. */
  function NarrativeSegment(t: NarrativeTag): string {
    Upper(NarrativeName(t))
  }

  /** `personaTag.replace(/\s+/g, '')`: the persona without its spaces. */
  function PersonaSegment(p: Persona): (r: string)
    ensures forall c :: c in r ==> !IsWhitespace(c)
  {
    RemoveWhitespace(PersonaName(p))
  }

  /** `Date.now().toString(36).toUpperCase()`. */
  function TimestampSegment(ms: nat): string {
    Upper(Radix(ms, 36))
  }

  /** `PROOF-<NARRATIVE>-<PersonaNoSpaces>-<BASE36 TIMESTAMP>`. */
  function ProofId(t: NarrativeTag, p: Persona, ms: nat): string {
    ProofPrefix + "-" + NarrativeSegment(t) + "-" + PersonaSegment(p) + "-" + TimestampSegment(ms)
  }

  /** The upper-cased narrative names as they read. */
  lemma NarrativeSegmentSpelled(t: NarrativeTag)
    ensures NarrativeSegment(t) == match t
      case Trust => "TRUST"
      case Speed => "SPEED"
      case Control => "CONTROL"
      case Innovation => "INNOVATION"
      case Cost => "COST"
      case Security => "SECURITY"
  {
  }

  /** The persona names with their space taken out, as they read. */
  function PersonaSpelling(p: Persona): string {
    match p
    case CTO => "CTO"
    case CFO => "CFO"
    case DataEngineer => "Data" + "Engineer"
    case VPEngineering => "VP" + "Engineering"
    case ProductManager => "Product" + "Manager"
  }

  /** A persona name of two words loses the space between them. */
  lemma SegmentOfTwoWords(p: Persona, first: string, second: string)
    requires PersonaName(p) == first + " " + second
    requires forall c :: c in first ==> !IsWhitespace(c)
    requires forall c :: c in second ==> !IsWhitespace(c)
    ensures PersonaSegment(p) == first + second
  {
    RemoveSpaceBetween(first, second);
  }

  /** "Data Engineer" becomes "DataEngineer". */
  lemma DataEngineerSegment()
    ensures PersonaSegment(DataEngineer) == "Data" + "Engineer"
  {
    SegmentOfTwoWords(DataEngineer, "Data", "Engineer");
  }

  /** "VP Engineering" becomes "VPEngineering". */
  lemma VPEngineeringSegment()
    ensures PersonaSegment(VPEngineering) == "VP" + "Engineering"
  {
    SegmentOfTwoWords(VPEngineering, "VP", "Engineering");
  }

  /** "Product Manager" becomes "ProductManager". */
  lemma ProductManagerSegment()
    ensures PersonaSegment(ProductManager) == "Product" + "Manager"
  {
    SegmentOfTwoWords(ProductManager, "Product", "Manager");
  }

  /** Every persona segment is its spelling; "CTO" and "CFO" stay as they are. */
  lemma PersonaSegmentSpelled(p: Persona)
    ensures PersonaSegment(p) == PersonaSpelling(p)
  {
    match p
    case CTO =>
    case CFO =>
    case DataEngineer => DataEngineerSegment();
    case VPEngineering => VPEngineeringSegment();
    case ProductManager => ProductManagerSegment();
  }

  /** The parts a ProofID is built from. */
  datatype ProofIdParts = ProofIdParts(narrativeTag: NarrativeTag, persona: Persona, timestamp: nat)

  /** The narrative tag an upper-cased segment names, if any. */
  function ParseNarrativeSegment(s: string): (r: Option<NarrativeTag>)
    ensures r.Some? ==> NarrativeSegment(r.value) == s
  {
    NarrativeSegmentSpelled(Trust);
    NarrativeSegmentSpelled(Speed);
    NarrativeSegmentSpelled(Control);
    NarrativeSegmentSpelled(Innovation);
    NarrativeSegmentSpelled(Cost);
    NarrativeSegmentSpelled(Security);
    if s == "TRUST" then Some(Trust)
    else if s == "SPEED" then Some(Speed)
    else if s == "CONTROL" then Some(Control)
    else if s == "INNOVATION" then Some(Innovation)
    else if s == "COST" then Some(Cost)
    else if s == "SECURITY" then Some(Security)
    else None
  }

  /** The persona a space-free segment names, if any. */
  function ParsePersonaSegment(s: string): (r: Option<Persona>)
    ensures r.Some? ==> PersonaSpelling(r.value) == s
  {
    if s == "CTO" then Some(CTO)
    else if s == "CFO" then Some(CFO)
    else if s == "Data" + "Engineer" then Some(DataEngineer)
    else if s == "VP" + "Engineering" then Some(VPEngineering)
    else if s == "Product" + "Manager" then Some(ProductManager)
    else None
  }

  /** Reads a ProofID back into its tags and timestamp. */
  function ParseProofId(id: string): (r: Option<ProofIdParts>)
    ensures r.Some? ==> var pieces := SplitOn(id, '-');
      && |pieces| == 4 && pieces[0] == ProofPrefix
      && pieces[1] == NarrativeSegment(r.value.narrativeTag)
      && pieces[2] == PersonaSegment(r.value.persona)
      && ParseRadix(pieces[3], 36) == Some(r.value.timestamp)
  {
    var pieces := SplitOn(id, '-');
    if |pieces| != 4 || pieces[0] != ProofPrefix then None
    else
      match (ParseNarrativeSegment(pieces[1]), ParsePersonaSegment(pieces[2]), ParseRadix(pieces[3], 36))
      case (Some(t), Some(p), Some(ms)) =>
        PersonaSegmentSpelled(p);
        Some(ProofIdParts(t, p, ms))
      case _ => None
  }

  /** Every narrative segment reads back as its tag. */
  lemma NarrativeSegmentRoundTrip(t: NarrativeTag)
    ensures ParseNarrativeSegment(NarrativeSegment(t)) == Some(t)
    ensures '-' !in NarrativeSegment(t)
  {
    NarrativeSegmentSpelled(t);
    match t
    case Trust =>
    case Speed => assert "SPEED"[0] != "TRUST"[0];
    case Control => assert "CONTROL"[0] != "TRUST"[0] && "CONTROL"[0] != "SPEED"[0];
    case Innovation => assert "INNOVATION"[0] == 'I';
    case Cost => assert "COST"[1] == 'O';
    case Security => assert "SECURITY"[1] == 'E';
  }

  /** Every persona spelling reads back as its persona and has no dash. */
  lemma PersonaSpellingRoundTrip(p: Persona)
    ensures ParsePersonaSegment(PersonaSpelling(p)) == Some(p)
    ensures '-' !in PersonaSpelling(p)
  {
    match p
    case CTO =>
    case CFO => assert "CFO"[1] != "CTO"[1];
    case DataEngineer => assert ("Data" + "Engineer")[0] == 'D';
    case VPEngineering => assert ("VP" + "Engineering")[0] == 'V';
    case ProductManager => assert ("Product" + "Manager")[0] == 'P';
  }

  /** Every persona segment reads back as its persona and has no dash. */
  lemma PersonaSegmentRoundTrip(p: Persona)
    ensures ParsePersonaSegment(PersonaSegment(p)) == Some(p)
    ensures '-' !in PersonaSegment(p)
  {
    PersonaSegmentSpelled(p);
    PersonaSpellingRoundTrip(p);
  }

  /** The timestamp segment uses only `0-9` and `A-Z` and decodes, in base 36,
      to the timestamp. */
  lemma TimestampSegmentRoundTrip(ms: nat)
    ensures forall c :: c in TimestampSegment(ms) ==> '0' <= c <= '9' || 'A' <= c <= 'Z'
    ensures ParseRadix(TimestampSegment(ms), 36) == Some(ms)
  {
    UpperRadixRoundTrip(ms, 36);
  }

  /** Cutting a ProofID at its dashes gives back its four segments. */
  lemma ProofIdSegments(t: NarrativeTag, p: Persona, ms: nat)
    ensures SplitOn(ProofId(t, p, ms), '-') ==
      [ProofPrefix, NarrativeSegment(t), PersonaSegment(p), TimestampSegment(ms)]
  {
    var n, q, s := NarrativeSegment(t), PersonaSegment(p), TimestampSegment(ms);
    NarrativeSegmentRoundTrip(t);
    PersonaSegmentRoundTrip(p);
    TimestampSegmentRoundTrip(ms);
    assert '-' !in ProofPrefix;
    assert '-' !in s;
    SplitFourOnDash(ProofPrefix, n, q, s);
  }

  /** A ProofID reads back as the tags and the timestamp it was built from. */
  lemma ProofIdRoundTrip(t: NarrativeTag, p: Persona, ms: nat)
    ensures ParseProofId(ProofId(t, p, ms)) == Some(ProofIdParts(t, p, ms))
  {
    ProofIdSegments(t, p, ms);
    NarrativeSegmentRoundTrip(t);
    PersonaSegmentRoundTrip(p);
    TimestampSegmentRoundTrip(ms);
  }

  /** Two ProofIDs are equal exactly when they share narrative, persona and
      millisecond: two creations with the same tags in the same millisecond
      get the same id, and any other pair gets different ones. */
  lemma ProofIdsCollideOnlyOnSameInputs(t1: NarrativeTag, p1: Persona, ms1: nat, t2: NarrativeTag, p2: Persona, ms2: nat)
    ensures ProofId(t1, p1, ms1) == ProofId(t2, p2, ms2) <==> t1 == t2 && p1 == p2 && ms1 == ms2
  {
    ProofIdRoundTrip(t1, p1, ms1);
    ProofIdRoundTrip(t2, p2, ms2);
  }

  // ---------------------------------------------------------------------------
  // POST

  /** The JSON body of a `POST`. A tag is `None` when absent, null or empty. */
  datatype ProofBody = ProofBody(
    evidenceSentence: Option<string>,
    sourceLink: Option<string>,
    personaTag: Option<Persona>,
    narrativeTag: Option<NarrativeTag>,
    stage: Option<Stage>,
    expiryDate: Option<string>)

  /** The five fields a `POST` cannot do without. */
  predicate HasRequiredFields(b: ProofBody) {
    Filled(b.evidenceSentence) && Filled(b.sourceLink) &&
    b.personaTag.Some? && b.narrativeTag.Some? && b.stage.Some?
  }

  /** The record a `POST` creates at millisecond `ms`, with the dates of the
      two clock reads for `createdAt` and `updatedAt`, or 400 when a required
      field is missing. The record copies the body, its id is built from its
      tags and `ms` and reads back as them, and it has an expiry date exactly
      when the body has a non-empty one. */
  function CreateProof(body: ProofBody, ms: nat, created: Date, updated: Date): (r: Result<ProofRecord, ErrorResponse>)
    ensures r.Failure? <==> !HasRequiredFields(body)
    ensures r.Failure? ==> r.error == ErrorResponse(BadRequest, MissingFields)
    ensures r.Success? ==>
      && Some(r.value.evidenceSentence) == body.evidenceSentence
      && Some(r.value.sourceLink) == body.sourceLink
      && Some(r.value.personaTag) == body.personaTag
      && Some(r.value.narrativeTag) == body.narrativeTag
      && Some(r.value.stage) == body.stage
      && (r.value.expiryDate.None? <==> !Filled(body.expiryDate))
      && (Filled(body.expiryDate) ==> r.value.expiryDate == Some(Date(body.expiryDate.value)))
      && r.value.proofId == ProofId(r.value.narrativeTag, r.value.personaTag, ms)
      && ParseProofId(r.value.proofId) == Some(ProofIdParts(r.value.narrativeTag, r.value.personaTag, ms))
      && r.value.createdAt == created && r.value.updatedAt == updated
  {
    if !HasRequiredFields(body) then
      Failure(ErrorResponse(BadRequest, MissingFields))
    else
      var t, p := body.narrativeTag.value, body.personaTag.value;
      ProofIdRoundTrip(t, p, ms);
      Success(ProofRecord(
        ProofId(t, p, ms),
        body.evidenceSentence.value,
        body.sourceLink.value,
        p, t, body.stage.value,
        if Filled(body.expiryDate) then Some(Date(body.expiryDate.value)) else None,
        created, updated))
  }

  /** A generated ProofID starts with `PROOF-`, so it is never `all` and its
      record key is never the id set's key: saving a created proof cannot
      overwrite the set. */
  lemma CreatedProofKeyIsNoIndex(t: NarrativeTag, p: Persona, ms: nat)
    ensures ProofId(t, p, ms) != "all"
    ensures ProofRecordKey(ProofId(t, p, ms)) != ProofIndexKey
  {
    assert ProofId(t, p, ms)[0] == 'P';
    ProofKeyIsIndexOnlyForAll(ProofId(t, p, ms));
  }

  /** `POST`: validate, build the record, save it, and answer 201 with the
      record, or 400. A rejected body leaves the vault unchanged. */
  method HandlePost(store: Store, body: ProofBody, ms: nat, created: Date, updated: Date) returns (r: Result<ProofRecord, ErrorResponse>, status: nat)
    requires store.Valid()
    modifies store`proofs, store`proofIds
    ensures store.Valid()
    ensures r == CreateProof(body, ms, created, updated)
    ensures status == (if r.Success? then Created else r.error.status)
    ensures status == Created <==> HasRequiredFields(body)
    ensures r.Failure? ==> store.proofs == old(store.proofs) && store.proofIds == old(store.proofIds)
    ensures r.Success? ==>
      && store.proofs == old(store.proofs)[r.value.proofId := r.value]
      && store.proofIds == old(store.proofIds) + {r.value.proofId}
      && store.ProofRecordById(r.value.proofId) == Some(r.value)
  {
    r := CreateProof(body, ms, created, updated);
    if r.Success? {
      store.SaveProofRecord(r.value);
      status := Created;
    } else {
      status := r.error.status;
    }
  }

  // ---------------------------------------------------------------------------
  // GET

  /** The query parameters of a `GET`, `None` when absent. */
  datatype ProofQuery = ProofQuery(persona: Option<string>, narrativeTag: Option<string>, stage: Option<string>, proofId: Option<string>)

  /** What a `GET` does: look one proof up, search, or list everything. */
  datatype GetPlan = LookUp(proofId: string) | Search(criteria: SearchCriteria) | ListAll

  /** `x || undefined`. */
  function OrUndefined(o: Option<string>): (r: Option<string>)
    ensures r.Some? <==> Filled(o)
    ensures r.Some? ==> r == o
  {
    if Filled(o) then o else None
  }

  /** A `proofId` takes precedence; a search runs only when some filter is
      given, and then with exactly the given filters; otherwise all proofs
      are listed. */
  function PlanGet(q: ProofQuery): (r: GetPlan)
    ensures r.LookUp? <==> Filled(q.proofId)
    ensures r.LookUp? ==> q.proofId == Some(r.proofId)
    ensures r.Search? <==> !Filled(q.proofId) && (Filled(q.persona) || Filled(q.narrativeTag) || Filled(q.stage))
    ensures r.Search? ==>
      && (Active(r.criteria.persona) <==> Filled(q.persona))
      && (Active(r.criteria.narrativeTag) <==> Filled(q.narrativeTag))
      && (Active(r.criteria.stage) <==> Filled(q.stage))
      && (Filled(q.persona) ==> r.criteria.persona == q.persona)
      && (Filled(q.narrativeTag) ==> r.criteria.narrativeTag == q.narrativeTag)
      && (Filled(q.stage) ==> r.criteria.stage == q.stage)
  {
    if Filled(q.proofId) then LookUp(q.proofId.value)
    else if Filled(q.persona) || Filled(q.narrativeTag) || Filled(q.stage) then
      Search(SearchCriteria(OrUndefined(q.persona), OrUndefined(q.narrativeTag), OrUndefined(q.stage)))
    else ListAll
  }

  /** The body of a successful `GET`: one proof, or a list. */
  datatype GetReply = OneProof(proof: ProofRecord) | Proofs(proofs: seq<ProofRecord>)

  /** `GET`: the planned lookup, search or listing against the vault; 404 for
      an unknown `proofId`. */
  method HandleGet(store: Store, q: ProofQuery) returns (r: Result<GetReply, ErrorResponse>)
    ensures Filled(q.proofId) ==>
      && (r.Failure? <==> q.proofId.value !in store.proofs)
      && (r.Failure? ==> r.error == ErrorResponse(NotFound, ProofRecordNotFound))
      && (r.Success? ==> r.value == OneProof(store.proofs[q.proofId.value]))
    ensures PlanGet(q).Search? ==>
      && r.Success? && r.value.Proofs?
      && forall p :: p in r.value.proofs <==> p in store.StoredProofs() && Satisfies(p, PlanGet(q).criteria)
    ensures PlanGet(q).ListAll? ==>
      && r.Success? && r.value.Proofs?
      && forall p :: p in r.value.proofs <==> p in store.StoredProofs()
  {
    match PlanGet(q)
    case LookUp(id) =>
      var found := store.ProofRecordById(id);
      if found.None? {
        r := Failure(ErrorResponse(NotFound, ProofRecordNotFound));
      } else {
        r := Success(OneProof(found.value));
      }
    case Search(c) =>
      var results := store.SearchProofRecords(c);
      r := Success(Proofs(results));
    case ListAll =>
      var all := store.GetAllProofRecords();
      r := Success(Proofs(all));
  }

  // ---------------------------------------------------------------------------
  // DELETE

  /** The id a `DELETE` removes, or 400 when none is given. */
  function PlanDelete(proofId: Option<string>): (r: Result<string, ErrorResponse>)
    ensures r.Failure? <==> !Filled(proofId)
    ensures r.Failure? ==> r.error == ErrorResponse(BadRequest, ProofIdRequired)
    ensures r.Success? ==> proofId == Some(r.value)
  {
    if Filled(proofId) then Success(proofId.value) else Failure(ErrorResponse(BadRequest, ProofIdRequired))
  }

  /** `DELETE`: without a `proofId` nothing changes; otherwise the proof is
      gone, and the id `all` takes the whole id set with it. */
  method HandleDelete(store: Store, proofId: Option<string>) returns (r: Result<bool, ErrorResponse>)
    requires store.Valid()
    modifies store`proofs, store`proofIds
    ensures store.Valid()
    ensures r.Failure? <==> !Filled(proofId)
    ensures r.Failure? ==> r.error == ErrorResponse(BadRequest, ProofIdRequired)
    ensures r.Failure? ==> store.proofs == old(store.proofs) && store.proofIds == old(store.proofIds)
    ensures r.Success? ==>
      && r.value
      && store.proofs == old(store.proofs) - {proofId.value}
      && store.proofIds == IdsAfterDelete(old(store.proofIds), proofId.value, ProofIndexKey)
      && store.ProofRecordById(proofId.value) == None
    ensures r.Success? && proofId.value == "all" ==> store.StoredProofs() == {}
  {
    var plan := PlanDelete(proofId);
    if plan.Failure? {
      r := Failure(plan.error);
    } else {
      store.DeleteProofRecord(plan.value);
      r := Success(true);
    }
  }
}
