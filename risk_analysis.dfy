/** The risk analysis: from the activity dataset, the share of users who had
    at least one malicious day, per role and per role and region, and the
    role x region rows of the risk-score table (annual probability in percent
    and headcount). */
module RiskAnalysis {

  import opened Org
  import opened Incidents

  /** ROLES, in the order the tables are indexed by. */
  const RiskRoles: seq<Role> := [CLevel, Trader, ITAdmin, Analyst, Contractor, ExecAssistant]

  /** REGIONS_ORDER, the column order of the role x region table. */
  const RegionsOrder: seq<Region> := [NA, EU, APAC]

  // ---- the per-user incident indicator ----

  /** The groupby key (user_id, role, region): one group per user. */
  datatype UserRoleRegion = UserRoleRegion(userId: string, role: Role, region: Region)

  function UserKey(rec: Record): UserRoleRegion {
    UserRoleRegion(rec.userId, rec.role, rec.region)
  }

  function OfRole(r: Role): UserRoleRegion -> bool {
    (k: UserRoleRegion) => k.role == r
  }

  function InRegion(g: Region): UserRoleRegion -> bool {
    (k: UserRoleRegion) => k.region == g
  }

  function OfRoleInRegion(r: Role, g: Region): UserRoleRegion -> bool {
    (k: UserRoleRegion) => k.role == r && k.region == g
  }

  /** had_incident of one user group: 1 exactly when one of the user's days
      is malicious, 0 exactly when none is. */
  lemma UserHadIncident(rows: seq<Record>, u: UserRoleRegion)
    requires Labelled(rows)
    ensures HadIncident(rows, UserKey, u) == 1 <==>
              exists i :: 0 <= i < |rows| && UserKey(rows[i]) == u && rows[i].isMalicious == 1
    ensures HadIncident(rows, UserKey, u) == 0 <==>
              forall i :: 0 <= i < |rows| && UserKey(rows[i]) == u ==> rows[i].isMalicious == 0
  {
    HadIncidentIff(rows, UserKey, u);
  }

  // ---- the per-role table ----

  /** role_annual[r]: the mean of had_incident over the users of role r. The
      reindex to ROLES has no fill value, so a role without users has no
      number (None). */
  function RoleAnnual(rows: seq<Record>, r: Role): (p: Option<real>)
    ensures p.None? <==> Members(rows, UserKey, OfRole(r)) == {}
    ensures p.Some? ==> 0.0 <= p.value <= 1.0
  {
    IncidentRate(rows, UserKey, OfRole(r))
  }

  /** A role's annual probability is 0 exactly when none of its users had
      an incident, and 1 exactly when all of them had one. */
  lemma RoleAnnualExtremes(rows: seq<Record>, r: Role)
    requires Members(rows, UserKey, OfRole(r)) != {}
    ensures RoleAnnual(rows, r) == Some(0.0) <==>
              forall u :: u in Members(rows, UserKey, OfRole(r)) ==> HadIncident(rows, UserKey, u) == 0
    ensures RoleAnnual(rows, r) == Some(1.0) <==>
              forall u :: u in Members(rows, UserKey, OfRole(r)) ==> HadIncident(rows, UserKey, u) == 1
  {
    IncidentRateExtremes(rows, UserKey, OfRole(r));
  }

  // ---- the role x region table ----

  /** A row label of the unstacked table: some user has the role. */
  predicate RolePresent(rows: seq<Record>, r: Role) {
    Members(rows, UserKey, OfRole(r)) != {}
  }

  /** A column label of the unstacked table: some user is in the region. */
  predicate RegionPresent(rows: seq<Record>, g: Region) {
    Members(rows, UserKey, InRegion(g)) != {}
  }

  /** role_region_annual.loc[r, g]. The unstack leaves NaN (None) where the
      role and the region both occur but never together; the reindex then
      fills the rows and columns it adds with 0.0. */
  function RoleRegionCell(rows: seq<Record>, r: Role, g: Region): (c: Option<real>)
    ensures !RolePresent(rows, r) || !RegionPresent(rows, g) ==> c == Some(0.0)
    ensures RolePresent(rows, r) && RegionPresent(rows, g) ==>
              (c.None? <==> Members(rows, UserKey, OfRoleInRegion(r, g)) == {})
    ensures Members(rows, UserKey, OfRoleInRegion(r, g)) != {} ==>
              c == IncidentRate(rows, UserKey, OfRoleInRegion(r, g))
    ensures c.Some? ==> 0.0 <= c.value <= 1.0
  {
    if !RolePresent(rows, r) || !RegionPresent(rows, g) then Some(0.0)
    else
      var c := IncidentRate(rows, UserKey, OfRoleInRegion(r, g));
      if c.Some? then
        PairPresent(rows, r, g);
        c
      else c
  }

  /** Users in role r and region g are users of role r and users in region g. */
  lemma PairPresent(rows: seq<Record>, r: Role, g: Region)
    ensures Members(rows, UserKey, OfRoleInRegion(r, g)) != {} ==>
              RolePresent(rows, r) && RegionPresent(rows, g)
  {
    var both := Members(rows, UserKey, OfRoleInRegion(r, g));
    if both != {} {
      var u :| u in both;
      assert u in Members(rows, UserKey, OfRole(r));
      assert u in Members(rows, UserKey, InRegion(g));
    }
  }

  /** A cell is 0 exactly when the reindex added its row or column, or its
      users exist and none of them had an incident. */
  lemma RoleRegionCellZero(rows: seq<Record>, r: Role, g: Region)
    ensures RoleRegionCell(rows, r, g) == Some(0.0) <==>
              || !RolePresent(rows, r)
              || !RegionPresent(rows, g)
              || (Members(rows, UserKey, OfRoleInRegion(r, g)) != {}
                  && forall u :: u in Members(rows, UserKey, OfRoleInRegion(r, g)) ==>
                       HadIncident(rows, UserKey, u) == 0)
  {
    PairPresent(rows, r, g);
    if Members(rows, UserKey, OfRoleInRegion(r, g)) != {} {
      IncidentRateExtremes(rows, UserKey, OfRoleInRegion(r, g));
    }
  }

  // ---- the risk-score rows ----

  /** One row of risk_scores_by_region: a role, a region, the cell times
      100 (NaN stays NaN) and the role's headcount. */
  datatype RiskRow = RiskRow(role: Role, region: Region, annualProbabilityPercent: Option<real>, headcount: nat)

  /** risk_scores_per_region = role_region_annual * 100 */
  function Percent(c: Option<real>): (p: Option<real>)
    ensures p.None? <==> c.None?
    ensures c.Some? ==> p.value == c.value * 100.0
  {
    match c
    case None => None
    case Some(x) => Some(x * 100.0)
  }

  /** The row for role r and region g; ROLE_HEADCOUNT names every role of
      ROLES, so its default of 0 never applies. */
  function RiskEntry(rows: seq<Record>, r: Role, g: Region): RiskRow {
    RiskRow(r, g, Percent(RoleRegionCell(rows, r, g)), RoleHeadcount(r))
  }

  /** The rows the inner loop appends for role r, one per region of
      `regions`, in that order. */
  function RoleBlock(rows: seq<Record>, r: Role, regions: seq<Region>): (b: seq<RiskRow>)
    ensures |b| == |regions|
  {
    if regions == [] then []
    else RoleBlock(rows, r, regions[..|regions| - 1]) + [RiskEntry(rows, r, regions[|regions| - 1])]
  }

  /** The rows the outer loop appends for the roles of `roles`, in that
      order, each role followed by all of REGIONS_ORDER. */
  function RoleBlocks(rows: seq<Record>, roles: seq<Role>): (csv: seq<RiskRow>)
    ensures |csv| == 3 * |roles|
  {
    if roles == [] then []
    else RoleBlocks(rows, roles[..|roles| - 1]) + RoleBlock(rows, roles[|roles| - 1], RegionsOrder)
  }

  /** risk_csv: every role of ROLES, each with every region of
      REGIONS_ORDER. */
  function RiskCsv(rows: seq<Record>): (csv: seq<RiskRow>)
    ensures |csv| == |RiskRoles| * |RegionsOrder| == 18
  {
    RoleBlocks(rows, RiskRoles)
  }

  lemma RoleBlockStep(rows: seq<Record>, r: Role, j: nat)
    requires j < |RegionsOrder|
    ensures RoleBlock(rows, r, RegionsOrder[..j + 1]) ==
              RoleBlock(rows, r, RegionsOrder[..j]) + [RiskEntry(rows, r, RegionsOrder[j])]
  {
    assert RegionsOrder[..j + 1][..j] == RegionsOrder[..j];
  }

  lemma RoleBlocksStep(rows: seq<Record>, i: nat)
    requires i < |RiskRoles|
    ensures RoleBlocks(rows, RiskRoles[..i + 1]) ==
              RoleBlocks(rows, RiskRoles[..i]) + RoleBlock(rows, RiskRoles[i], RegionsOrder)
  {
    assert RiskRoles[..i + 1][..i] == RiskRoles[..i];
  }

  /** Entry j of a role's block is the entry for region j. */
  lemma {:induction false} RoleBlockAt(rows: seq<Record>, r: Role, regions: seq<Region>, j: nat)
    requires j < |regions|
    ensures RoleBlock(rows, r, regions)[j] == RiskEntry(rows, r, regions[j])
    decreases |regions|
  {
    var n := |regions| - 1;
    if j < n {
      RoleBlockAt(rows, r, regions[..n], j);
    } else {
      assert j == n;
    }
  }

  /** Entry 3 * i + j of the blocks is the entry for role i and region j. */
  lemma {:induction false} RoleBlocksAt(rows: seq<Record>, roles: seq<Role>, i: nat, j: nat)
    requires i < |roles| && j < |RegionsOrder|
    ensures 3 * i + j < |RoleBlocks(rows, roles)|
    ensures RoleBlocks(rows, roles)[3 * i + j] == RiskEntry(rows, roles[i], RegionsOrder[j])
    decreases |roles|
  {
    var n := |roles| - 1;
    var init := RoleBlocks(rows, roles[..n]);
    assert |init| == 3 * n;
    if i < n {
      RoleBlocksAt(rows, roles[..n], i, j);
      assert RoleBlocks(rows, roles)[3 * i + j] == init[3 * i + j];
    } else {
      assert i == n;
      RoleBlockAt(rows, roles[n], RegionsOrder, j);
    }
  }

  /** Row 3 * i + j of the table is the entry for role i and region j. */
  lemma RiskCsvAt(rows: seq<Record>, i: nat, j: nat)
    requires i < |RiskRoles| && j < |RegionsOrder|
    ensures 3 * i + j < |RiskCsv(rows)|
    ensures RiskCsv(rows)[3 * i + j] == RiskEntry(rows, RiskRoles[i], RegionsOrder[j])
  {
    RoleBlocksAt(rows, RiskRoles, i, j);
  }

  /** One step of the inner loop: the cell, scaled to percent, with the
      role's headcount. */
  method RiskRowFor(rows: seq<Record>, role: Role, region: Region) returns (row: RiskRow)
    ensures row == RiskEntry(rows, role, region)
  {
    var cell := RoleRegionCell(rows, role, region);
    var percent := if cell.Some? then Some(cell.value * 100.0) else None;
    row := RiskRow(role, region, percent, RoleHeadcount(role));
  }

  /** The nested role x region loop that builds risk_csv. */
  method BuildRiskCsv(rows: seq<Record>) returns (csv: seq<RiskRow>)
    ensures csv == RiskCsv(rows)
  {
    csv := [];
    var i := 0;
    while i < |RiskRoles|
      invariant 0 <= i <= |RiskRoles|
      invariant csv == RoleBlocks(rows, RiskRoles[..i])
    {
      var role := RiskRoles[i];
      var block := RoleBlocks(rows, RiskRoles[..i]);
      var j := 0;
      while j < |RegionsOrder|
        invariant 0 <= j <= |RegionsOrder|
        invariant csv == block + RoleBlock(rows, role, RegionsOrder[..j])
      {
        var region := RegionsOrder[j];
        var row := RiskRowFor(rows, role, region);
        RoleBlockStep(rows, role, j);
        csv := csv + [row];
        j := j + 1;
      }
      assert RegionsOrder[..j] == RegionsOrder;
      RoleBlocksStep(rows, i);
      i := i + 1;
    }
    assert RiskRoles[..i] == RiskRoles;
  }

  function RoleIndex(r: Role): (i: nat)
    ensures i < |RiskRoles| && RiskRoles[i] == r
  {
    match r
    case CLevel => 0
    case Trader => 1
    case ITAdmin => 2
    case Analyst => 3
    case Contractor => 4
    case ExecAssistant => 5
  }

  function RegionIndex(g: Region): (i: nat)
    ensures i < |RegionsOrder| && RegionsOrder[i] == g
  {
    match g
    case NA => 0
    case EU => 1
    case APAC => 2
  }

  /** Row k is the entry for role k / 3 and region k % 3. */
  lemma RiskCsvIndex(rows: seq<Record>, k: nat)
    requires k < |RiskCsv(rows)|
    ensures k / 3 < |RiskRoles| && k % 3 < |RegionsOrder|
    ensures RiskCsv(rows)[k] == RiskEntry(rows, RiskRoles[k / 3], RegionsOrder[k % 3])
  {
    var q, m := k / 3, k % 3;
    assert k == 3 * q + m;
    RiskCsvAt(rows, q, m);
  }

  /** The 18 rows hold every (role, region) pair exactly once, and each row
      is the entry for its pair. */
  lemma RiskCsvOnePerPair(rows: seq<Record>, r: Role, g: Region)
    ensures var csv := RiskCsv(rows);
      var k := 3 * RoleIndex(r) + RegionIndex(g);
      && k < |csv| && csv[k] == RiskEntry(rows, r, g)
      && forall k' :: 0 <= k' < |csv| && csv[k'].role == r && csv[k'].region == g ==> k' == k
  {
    var csv := RiskCsv(rows);
    var k := 3 * RoleIndex(r) + RegionIndex(g);
    RiskCsvAt(rows, RoleIndex(r), RegionIndex(g));
    forall k' | 0 <= k' < |csv| && csv[k'].role == r && csv[k'].region == g
      ensures k' == k
    {
      RiskCsvIndex(rows, k');
      var q, m := k' / 3, k' % 3;
      assert RiskRoles[q] == r && RegionsOrder[m] == g;
      assert q == RoleIndex(r) && m == RegionIndex(g);
    }
  }

  /** The rows run by role in ROLES order and, within a role, by region in
      REGIONS_ORDER order. */
  lemma RiskCsvOrdered(rows: seq<Record>, k1: nat, k2: nat)
    requires k1 < k2 < |RiskCsv(rows)|
    ensures var csv := RiskCsv(rows);
      || RoleIndex(csv[k1].role) < RoleIndex(csv[k2].role)
      || (csv[k1].role == csv[k2].role && RegionIndex(csv[k1].region) < RegionIndex(csv[k2].region))
  {
    RiskCsvIndex(rows, k1);
    RiskCsvIndex(rows, k2);
    var q1, m1 := k1 / 3, k1 % 3;
    var q2, m2 := k2 / 3, k2 % 3;
    assert k1 == 3 * q1 + m1 && k2 == 3 * q2 + m2;
    assert q1 < q2 || (q1 == q2 && m1 < m2);
    RoleIndexAt(q1);
    RoleIndexAt(q2);
    RegionIndexAt(m1);
    RegionIndexAt(m2);
  }

  lemma RoleIndexAt(i: nat)
    requires i < |RiskRoles|
    ensures RoleIndex(RiskRoles[i]) == i
  {
  }

  lemma RegionIndexAt(j: nat)
    requires j < |RegionsOrder|
    ensures RegionIndex(RegionsOrder[j]) == j
  {
  }
}
