/**
 * The rows the portal stores: diagnosis records and user profiles, with the
 * status and risk vocabularies of `src/types/database.ts`.  Timestamps are
 * integers ordered like the ISO-8601 texts the database hands back.
 */
module Records {
  import opened Wrappers

  /** The review state of a diagnosis record. */
  datatype Status = Pending | Reviewed | Completed

  /** The three risk grades the analysis assigns. */
  datatype RiskLevel = Low | Medium | High

  /** The stored text of a risk grade. */
  function RiskText(r: RiskLevel): string {
    match r
    case Low => "低风险"
    case Medium => "中风险"
    case High => "高风险"
  }

  /** Reading a stored risk text back; any other text is not a grade. */
  function RiskFromText(s: string): (r: Option<RiskLevel>)
    ensures r.Some? ==> RiskText(r.value) == s
    ensures r.None? ==> forall g: RiskLevel :: RiskText(g) != s
  {
    if s == "低风险" then Some(Low)
    else if s == "中风险" then Some(Medium)
    else if s == "高风险" then Some(High)
    else None
  }

  /** Every grade survives being written out and read back. */
  lemma RiskTextRoundTrip(r: RiskLevel)
    ensures RiskFromText(RiskText(r)) == Some(r)
  {
  }

  /** The two account roles. */
  datatype Role = Patient | Doctor

  type RecordId = nat
  type UserId = string

  /** A row of the `diagnosis_records` table; absent optional columns are `None`. */
  datatype DiagnosisRecord = DiagnosisRecord(
    id: RecordId,
    patientId: UserId,
    imageUrls: seq<string>,
    symptoms: Option<string>,
    aiDiagnosis: Option<string>,
    aiConfidence: Option<real>,
    riskLevel: Option<RiskLevel>,
    status: Status,
    doctorId: Option<UserId>,
    doctorDiagnosis: Option<string>,
    doctorNotes: Option<string>,
    createdAt: int,
    updatedAt: int)

  /** A row of the `profiles` table. */
  datatype Profile = Profile(
    id: UserId,
    name: string,
    role: Role,
    avatarUrl: Option<string>,
    createdAt: int,
    updatedAt: int)

  /** The user object the sign-in and registration forms hand to the app. */
  datatype UserData = UserData(id: int, email: string, name: string, role: string, avatar: string)

  const PlaceholderAvatar := "/api/placeholder/40/40"
}
