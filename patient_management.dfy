/**
 * The doctor's patient list: per-patient statistics computed from that
 * patient's diagnosis records, the case-insensitive name search and the
 * summary cards.
 */
module PatientManagement {
  import opened Wrappers
  import opened Text
  import opened Records
  import opened Sequences

  /** A `profiles` row as this page reads it: it is joined on `userId`. */
  datatype PatientProfile = PatientProfile(id: string, userId: UserId, name: string, avatarUrl: Option<string>, createdAt: int)

  /** The page's own coarse risk grade. */
  datatype PatientRisk = RiskHigh | RiskMedium | RiskLow

  /** A row of the patient table. */
  datatype PatientWithStats = PatientWithStats(
    id: string,
    userId: UserId,
    name: string,
    avatarUrl: Option<string>,
    createdAt: int,
    totalDiagnoses: nat,
    pendingDiagnoses: nat,
    lastVisit: int,
    riskLevel: PatientRisk)

  /** How many of the records are pending. */
  function CountPending(rs: seq<DiagnosisRecord>): (n: nat)
    ensures n <= |rs|
    ensures n == 0 <==> forall i :: 0 <= i < |rs| ==> rs[i].status != Pending
    ensures n == |rs| <==> forall i :: 0 <= i < |rs| ==> rs[i].status == Pending
  {
    if rs == [] then 0
    else
      var rest := CountPending(rs[1..]);
      assert forall i :: 1 <= i < |rs| ==> rs[i] == rs[1..][i - 1];
      (if rs[0].status == Pending then 1 else 0) + rest
  }

  /** `Math.max` of the creation times of a non-empty list of records. */
  function MaxCreated(rs: seq<DiagnosisRecord>): (m: int)
    requires rs != []
    ensures forall i :: 0 <= i < |rs| ==> rs[i].createdAt <= m
    ensures exists i :: 0 <= i < |rs| && rs[i].createdAt == m
  {
    if |rs| == 1 then rs[0].createdAt
    else
      var rest := MaxCreated(rs[1..]);
      assert forall i :: 1 <= i < |rs| ==> rs[i] == rs[1..][i - 1];
      if rs[0].createdAt >= rest then rs[0].createdAt else rest
  }

  /** The latest record's creation time, or the profile's when there are none. */
  function LastVisit(rs: seq<DiagnosisRecord>, profileCreated: int): (t: int)
    ensures rs == [] ==> t == profileCreated
    ensures rs != [] ==> (forall i :: 0 <= i < |rs| ==> rs[i].createdAt <= t) &&
                         (exists i :: 0 <= i < |rs| && rs[i].createdAt == t)
  {
    if rs == [] then profileCreated else MaxCreated(rs)
  }

  /** Some record carries the given grade. */
  predicate AnyRisk(rs: seq<DiagnosisRecord>, g: RiskLevel) {
    exists i :: 0 <= i < |rs| && rs[i].riskLevel == Some(g)
  }

  /** High if any record is high risk, else medium if any is medium, else low. */
  function Escalate(rs: seq<DiagnosisRecord>): (r: PatientRisk)
    ensures r == RiskHigh <==> AnyRisk(rs, High)
    ensures r == RiskMedium <==> !AnyRisk(rs, High) && AnyRisk(rs, Medium)
    ensures r == RiskLow <==> !AnyRisk(rs, High) && !AnyRisk(rs, Medium)
  {
    if AnyRisk(rs, High) then RiskHigh
    else if AnyRisk(rs, Medium) then RiskMedium
    else RiskLow
  }

  /** Adding a record never lowers the patient's grade. */
  lemma EscalateMonotone(rs: seq<DiagnosisRecord>, extra: DiagnosisRecord)
    ensures Rank(Escalate(rs)) <= Rank(Escalate(rs + [extra]))
  {
    var both := rs + [extra];
    assert forall i :: 0 <= i < |rs| ==> both[i] == rs[i];
  }

  function Rank(r: PatientRisk): nat {
    match r
    case RiskLow => 0
    case RiskMedium => 1
    case RiskHigh => 2
  }

  /** `profile.avatar_url || undefined`: an empty URL counts as none. */
  function AvatarOrNone(a: Option<string>): (r: Option<string>)
    ensures r.Some? <==> a.Some? && a.value != ""
    ensures r.Some? ==> r == a
  {
    if a.Some? && a.value != "" then a else None
  }

  /**
   * The row for one patient.  A failed records query gives zero counts, low
   * risk and the profile's creation time as the last visit.
   */
  function StatsFor(p: PatientProfile, diagnoses: Result<seq<DiagnosisRecord>, string>): (s: PatientWithStats)
    ensures s.id == p.id && s.userId == p.userId && s.name == p.name && s.createdAt == p.createdAt
    ensures s.avatarUrl == AvatarOrNone(p.avatarUrl)
    ensures s.pendingDiagnoses <= s.totalDiagnoses
    ensures diagnoses.Err? ==> s.totalDiagnoses == 0 && s.pendingDiagnoses == 0 &&
                               s.riskLevel == RiskLow && s.lastVisit == p.createdAt
    ensures diagnoses.Ok? ==> s.totalDiagnoses == |diagnoses.value| &&
                              s.pendingDiagnoses == CountPending(diagnoses.value) &&
                              s.lastVisit == LastVisit(diagnoses.value, p.createdAt) &&
                              s.riskLevel == Escalate(diagnoses.value)
  {
    var avatar := AvatarOrNone(p.avatarUrl);
    match diagnoses
    case Err(_) => PatientWithStats(p.id, p.userId, p.name, avatar, p.createdAt, 0, 0, p.createdAt, RiskLow)
    case Ok(ds) =>
      PatientWithStats(p.id, p.userId, p.name, avatar, p.createdAt,
                       |ds|, CountPending(ds), LastVisit(ds, p.createdAt), Escalate(ds))
  }

  /** The records of one patient as the table holds them. */
  function RecordsOf(table: seq<DiagnosisRecord>, patient: UserId): (rs: seq<DiagnosisRecord>)
    ensures |rs| <= |table|
    ensures forall x :: x in rs <==> x in table && x.patientId == patient
    ensures forall x :: multiset(rs)[x] == if x.patientId == patient then multiset(table)[x] else 0
    ensures IsSubsequence(rs, table)
  {
    if table == [] then []
    else
      assert table == [table[0]] + table[1..];
      var rest := RecordsOf(table[1..], patient);
      if table[0].patientId == patient then
        var rs := [table[0]] + rest;
        assert rs[1..] == rest;
        rs
      else rest
  }

  /** A table holding only the patient's own records is returned whole; one holding none gives nothing. */
  lemma {:induction false} RecordsOfExtremes(table: seq<DiagnosisRecord>, patient: UserId)
    ensures (forall i :: 0 <= i < |table| ==> table[i].patientId == patient) ==> RecordsOf(table, patient) == table
    ensures (forall i :: 0 <= i < |table| ==> table[i].patientId != patient) ==> RecordsOf(table, patient) == []
  {
    if table != [] {
      RecordsOfExtremes(table[1..], patient);
      assert forall i :: 0 < i < |table| ==> table[1..][i - 1] == table[i];
      assert table == [table[0]] + table[1..];
    }
  }

  /** The row for one patient whose query succeeded counts only that patient's records. */
  lemma StatsCountOwnRecords(p: PatientProfile, table: seq<DiagnosisRecord>)
    ensures StatsFor(p, Ok(RecordsOf(table, p.userId))).totalDiagnoses <= |table|
    ensures StatsFor(p, Ok(RecordsOf(table, p.userId))).pendingDiagnoses <= CountPending(table)
    ensures (forall i :: 0 <= i < |table| ==> table[i].patientId == p.userId) ==>
              StatsFor(p, Ok(RecordsOf(table, p.userId))).totalDiagnoses == |table|
    ensures (forall i :: 0 <= i < |table| ==> table[i].patientId != p.userId) ==>
              StatsFor(p, Ok(RecordsOf(table, p.userId))).totalDiagnoses == 0
  {
    OwnPendingBound(table, p.userId);
    RecordsOfExtremes(table, p.userId);
  }

  lemma {:induction false} OwnPendingBound(table: seq<DiagnosisRecord>, patient: UserId)
    ensures CountPending(RecordsOf(table, patient)) <= CountPending(table)
  {
    if table != [] {
      OwnPendingBound(table[1..], patient);
      var head := if table[0].patientId == patient then [table[0]] else [];
      CountPendingAppend(head, RecordsOf(table[1..], patient));
    }
  }

  lemma {:induction false} CountPendingAppend(a: seq<DiagnosisRecord>, b: seq<DiagnosisRecord>)
    ensures CountPending(a + b) == CountPending(a) + CountPending(b)
  {
    if a != [] {
      assert (a + b)[1..] == a[1..] + b;
      CountPendingAppend(a[1..], b);
    } else {
      assert a + b == b;
    }
  }

  /**
   * `loadPatients`, given what each query answers.  A failed roles or
   * profiles query keeps the list shown before; no patient ids empties it.
   * The rows follow the order of the profiles.
   */
  function LoadPatients(previous: seq<PatientWithStats>,
                        roles: Result<seq<UserId>, string>,
                        profiles: Result<seq<PatientProfile>, string>,
                        diagnosesOf: UserId -> Result<seq<DiagnosisRecord>, string>): (r: seq<PatientWithStats>)
    ensures roles.Err? ==> r == previous
    ensures roles.Ok? && roles.value == [] ==> r == []
    ensures roles.Ok? && roles.value != [] && profiles.Err? ==> r == previous
    ensures roles.Ok? && roles.value != [] && profiles.Ok? ==>
              |r| == |profiles.value| &&
              forall i :: 0 <= i < |r| ==> r[i] == StatsFor(profiles.value[i], diagnosesOf(profiles.value[i].userId))
  {
    match roles
    case Err(_) => previous
    case Ok(ids) =>
      if ids == [] then []
      else match profiles
        case Err(_) => previous
        case Ok(ps) => seq(|ps|, i requires 0 <= i < |ps| => StatsFor(ps[i], diagnosesOf(ps[i].userId)))
  }

  // ---------------------------------------------------------------------
  // Name search
  // ---------------------------------------------------------------------

  /** The search test: the lower-cased term occurs in the lower-cased name. */
  predicate NameMatches(p: PatientWithStats, term: string) {
    Contains(Lower(p.name), Lower(term))
  }

  /** `filteredPatients`. */
  function FilterByName(ps: seq<PatientWithStats>, term: string): (r: seq<PatientWithStats>)
    ensures |r| <= |ps|
    ensures forall x :: x in r <==> x in ps && NameMatches(x, term)
  {
    if ps == [] then []
    else
      assert ps == [ps[0]] + ps[1..];
      (if NameMatches(ps[0], term) then [ps[0]] else []) + FilterByName(ps[1..], term)
  }

  /** The filter keeps the list's order. */
  lemma {:induction false} FilterIsSubsequence(ps: seq<PatientWithStats>, term: string)
    ensures IsSubsequence(FilterByName(ps, term), ps)
  {
    if ps != [] {
      FilterIsSubsequence(ps[1..], term);
      var rest := FilterByName(ps[1..], term);
      if NameMatches(ps[0], term) {
        assert ([ps[0]] + rest)[1..] == rest;
      } else {
        assert [] + rest == rest;
      }
    }
  }

  /** An empty search term keeps every patient. */
  lemma {:induction false} EmptyTermKeepsAll(ps: seq<PatientWithStats>)
    ensures FilterByName(ps, "") == ps
  {
    if ps != [] {
      ContainsEmpty(Lower(ps[0].name));
      EmptyTermKeepsAll(ps[1..]);
      assert ps == [ps[0]] + ps[1..];
    }
  }

  /** The search ignores the case of the term. */
  lemma TermCaseIgnored(ps: seq<PatientWithStats>, term: string)
    ensures forall x :: x in FilterByName(ps, Lower(term)) <==> x in FilterByName(ps, term)
  {
    LowerIdempotent(term);
  }

  // ---------------------------------------------------------------------
  // Summary cards
  // ---------------------------------------------------------------------

  /** The "待处理" card: it shows zero exactly when no patient has a pending record. */
  function SumPending(ps: seq<PatientWithStats>): (n: nat)
    ensures forall i :: 0 <= i < |ps| ==> ps[i].pendingDiagnoses <= n
    ensures n == 0 <==> forall i :: 0 <= i < |ps| ==> ps[i].pendingDiagnoses == 0
  {
    if ps == [] then 0
    else
      var rest := SumPending(ps[1..]);
      assert forall i :: 0 < i < |ps| ==> ps[i] == ps[1..][i - 1];
      ps[0].pendingDiagnoses + rest
  }

  /** The "总诊断数" card: it shows zero exactly when no patient has a record. */
  function SumTotal(ps: seq<PatientWithStats>): (n: nat)
    ensures forall i :: 0 <= i < |ps| ==> ps[i].totalDiagnoses <= n
    ensures n == 0 <==> forall i :: 0 <= i < |ps| ==> ps[i].totalDiagnoses == 0
  {
    if ps == [] then 0
    else
      var rest := SumTotal(ps[1..]);
      assert forall i :: 0 < i < |ps| ==> ps[i] == ps[1..][i - 1];
      ps[0].totalDiagnoses + rest
  }

  /** The "高风险患者" card. */
  function HighRiskCount(ps: seq<PatientWithStats>): (n: nat)
    ensures n <= |ps|
    ensures n == 0 <==> forall i :: 0 <= i < |ps| ==> ps[i].riskLevel != RiskHigh
  {
    if ps == [] then 0
    else
      var rest := HighRiskCount(ps[1..]);
      assert forall i :: 1 <= i < |ps| ==> ps[i] == ps[1..][i - 1];
      (if ps[0].riskLevel == RiskHigh then 1 else 0) + rest
  }

  /** Rows whose pending count does not exceed their total. */
  predicate Consistent(ps: seq<PatientWithStats>) {
    forall i :: 0 <= i < |ps| ==> ps[i].pendingDiagnoses <= ps[i].totalDiagnoses
  }

  /** The pending card never shows more than the total card. */
  lemma {:induction false} PendingWithinTotal(ps: seq<PatientWithStats>)
    requires Consistent(ps)
    ensures SumPending(ps) <= SumTotal(ps)
  {
    if ps != [] {
      assert forall i :: 0 <= i < |ps[1..]| ==> ps[1..][i] == ps[i + 1];
      PendingWithinTotal(ps[1..]);
    }
  }

  /** Loading keeps the rows consistent, so the summary bound holds after every load. */
  lemma LoadKeepsConsistent(previous: seq<PatientWithStats>,
                            roles: Result<seq<UserId>, string>,
                            profiles: Result<seq<PatientProfile>, string>,
                            diagnosesOf: UserId -> Result<seq<DiagnosisRecord>, string>)
    requires Consistent(previous)
    ensures Consistent(LoadPatients(previous, roles, profiles, diagnosesOf))
    ensures SumPending(LoadPatients(previous, roles, profiles, diagnosesOf)) <=
            SumTotal(LoadPatients(previous, roles, profiles, diagnosesOf))
  {
    PendingWithinTotal(LoadPatients(previous, roles, profiles, diagnosesOf));
  }
}
