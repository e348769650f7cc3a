/** The FAIR-style Monte Carlo loss simulation: per-role probability of
    action from the activity data, then per trial and per role the chain
    insiders -> attempts -> successful attacks -> clipped losses, and the
    summary that compares a mitigated run with the unmitigated baseline.
    Every binomial, Poisson and lognormal draw is an input whose range is
    stated as a precondition. */
module MonteCarlo {

  import opened Org
  import opened Incidents

  /** ROLES of the loss simulation, in its own order. */
  const Roles: seq<Role> := [CLevel, Analyst, Trader, ITAdmin, ExecAssistant, Contractor]

  /** BASE_VULNERABILITY: the unmitigated success rate of an attempt. */
  const BaseVulnerability: real := 0.75

  /** N_ITER: the number of trials of every run. */
  const NIter: nat := 10000

  /** The loss level used for a role the mapping does not name. */
  const DefaultLossLevel: string := "Employees (full-time)"

  /** ROLE_MAPPING: dataset role name to loss level. */
  const RoleMapping: map<string, string> := map[
    "C_Level" := "C-Level Executives",
    "Trader" := "Team Leads",
    "IT_Admin" := "Team Leads",
    "Analyst" := "Employees (full-time)",
    "Exec_Assistant" := "Employees (full-time)",
    "Contractor" := "Contractors / Temporary Staff"]

  /** No role is visited twice. */
  lemma RolesDistinct()
    ensures forall i, j :: 0 <= i < j < |Roles| ==> Roles[i] != Roles[j]
  {
  }

  /** The simulation visits every role. */
  lemma RoleListed(r: Role)
    ensures r in Roles
  {
    match r
    case CLevel => assert Roles[0] == r;
    case Analyst => assert Roles[1] == r;
    case Trader => assert Roles[2] == r;
    case ITAdmin => assert Roles[3] == r;
    case ExecAssistant => assert Roles[4] == r;
    case Contractor => assert Roles[5] == r;
  }

  lemma RolesComplete()
    ensures forall r :: r in Roles
  {
    forall r ensures r in Roles {
      RoleListed(r);
    }
  }

  /** ROLE_MAPPING.get(role, 'Employees (full-time)'). */
  function LossCategory(role: string): string {
    if role in RoleMapping then RoleMapping[role] else DefaultLossLevel
  }

  /** Every dataset role has its own entry in the mapping; only a name that
      is not one of the six roles falls back to the default level. */
  lemma LossCategoryOfRoles(name: string)
    ensures ParseRole(name).Some? ==> name in RoleMapping
    ensures ParseRole(name).None? ==> LossCategory(name) == DefaultLossLevel
  {
  }

  // ---- probability of action per role ----

  /** The (user_id, role) groups of the activity rows. */
  datatype UserRole = UserRole(userId: string, role: Role)

  function UserRoleKey(rec: Record): UserRole {
    UserRole(rec.userId, rec.role)
  }

  function HasRole(r: Role): UserRole -> bool {
    (k: UserRole) => k.role == r
  }

  /** role_poa[r]: the share of r's users with at least one malicious day;
      0.0 when the data has no user of role r (the reindex fill value). */
  function RolePoa(rows: seq<Record>, r: Role): (p: real)
    ensures 0.0 <= p <= 1.0
    ensures Members(rows, UserRoleKey, HasRole(r)) == {} ==> p == 0.0
    ensures Members(rows, UserRoleKey, HasRole(r)) != {} ==>
              p == IncidentRate(rows, UserRoleKey, HasRole(r)).value
  {
    match IncidentRate(rows, UserRoleKey, HasRole(r))
    case None => 0.0
    case Some(m) => m
  }

  /** The poa table, reindexed to ROLES with fill value 0.0. */
  function PoaTable(rows: seq<Record>): (poa: map<Role, real>)
    ensures forall r :: r in poa && poa[r] == RolePoa(rows, r)
  {
    RolesComplete();
    map r | r in Roles :: RolePoa(rows, r)
  }

  /** A role's poa is 0 exactly when none of its users had an incident
      (or it has no users), and 1 exactly when all of them had one. */
  lemma PoaExtremes(rows: seq<Record>, r: Role)
    requires Members(rows, UserRoleKey, HasRole(r)) != {}
    ensures RolePoa(rows, r) == 0.0 <==>
              forall k :: k in Members(rows, UserRoleKey, HasRole(r)) ==> HadIncident(rows, UserRoleKey, k) == 0
    ensures RolePoa(rows, r) == 1.0 <==>
              forall k :: k in Members(rows, UserRoleKey, HasRole(r)) ==> HadIncident(rows, UserRoleKey, k) == 1
  {
    IncidentRateExtremes(rows, UserRoleKey, HasRole(r));
  }

  // ---- the loss table ----

  /** One row of the loss-range table: a level and its loss bounds. */
  datatype LossRow = LossRow(level: string, minLoss: real, maxLoss: real)

  /** The clip bounds of one loss level. */
  datatype Tier = Tier(minLoss: real, maxLoss: real)

  /** loss_dict after the rows are read in order: each row sets its level,
      so a later row of the same level replaces an earlier one. */
  function LossDictOf(rows: seq<LossRow>): map<string, Tier>
    decreases |rows|
  {
    if rows == [] then map[]
    else
      var last := rows[|rows| - 1];
      LossDictOf(rows[..|rows| - 1])[last.level := Tier(last.minLoss, last.maxLoss)]
  }

  /** The loss_dict loop. */
  method BuildLossDict(rows: seq<LossRow>) returns (lossDict: map<string, Tier>)
    ensures lossDict == LossDictOf(rows)
  {
    lossDict := map[];
    var i := 0;
    while i < |rows|
      invariant 0 <= i <= |rows|
      invariant lossDict == LossDictOf(rows[..i])
    {
      assert rows[..i + 1][..i] == rows[..i];
      lossDict := lossDict[rows[i].level := Tier(rows[i].minLoss, rows[i].maxLoss)];
      i := i + 1;
    }
    assert rows[..i] == rows;
  }

  /** A level is in the table exactly when some row names it, and its
      bounds are those of the last row that names it. */
  lemma {:induction false} LossDictLastWins(rows: seq<LossRow>, level: string, i: int)
    requires 0 <= i < |rows| && rows[i].level == level
    requires forall j :: i < j < |rows| ==> rows[j].level != level
    ensures level in LossDictOf(rows)
    ensures LossDictOf(rows)[level] == Tier(rows[i].minLoss, rows[i].maxLoss)
    decreases |rows|
  {
    if i < |rows| - 1 {
      LossDictLastWins(rows[..|rows| - 1], level, i);
    }
  }

  lemma {:induction false} LossDictDomain(rows: seq<LossRow>, level: string)
    ensures level in LossDictOf(rows) <==> exists i :: 0 <= i < |rows| && rows[i].level == level
    decreases |rows|
  {
    if rows != [] {
      var init := rows[..|rows| - 1];
      LossDictDomain(init, level);
      if exists i :: 0 <= i < |init| && init[i].level == level {
        var i :| 0 <= i < |init| && init[i].level == level;
        assert rows[i] == init[i];
      }
      if exists i :: 0 <= i < |rows| && rows[i].level == level {
        var i :| 0 <= i < |rows| && rows[i].level == level;
        if i < |init| {
          assert init[i] == rows[i];
        }
      }
    }
  }

  // ---- one role in one trial ----

  /** BASE_VULNERABILITY * (1 - mitigation_weight). */
  function EffectiveVulnerability(w: real): (v: real)
    ensures 0.0 <= w <= 1.0 ==> 0.0 <= v <= BaseVulnerability
    ensures w == 0.0 ==> v == BaseVulnerability
    ensures w == 1.0 ==> v == 0.0
  {
    BaseVulnerability * (1.0 - w)
  }

  /** More mitigation never raises the vulnerability. */
  lemma EffectiveVulnerabilityAntitone(w1: real, w2: real)
    requires w1 <= w2
    ensures EffectiveVulnerability(w2) <= EffectiveVulnerability(w1)
  {
  }

  /** The draws of one role in one trial: the binomial insider count, one
      Poisson attempt count per insider, the binomial success count and one
      lognormal loss per success. */
  datatype RoleDraw = RoleDraw(insiders: nat, attempts: seq<nat>, successes: nat, losses: seq<real>)

  /** The support of each draw: Binomial(headcount, poa) insiders,
      `insiders` Poisson counts, Binomial(total attempts, vulnerability)
      successes and one loss per success. */
  predicate DrawFits(headcount: nat, poa: real, vulnerability: real, d: RoleDraw) {
    && d.insiders <= headcount
    && (poa == 0.0 ==> d.insiders == 0)
    && (poa == 1.0 ==> d.insiders == headcount)
    && |d.attempts| == d.insiders
    && d.successes <= SumNat(d.attempts)
    && (vulnerability == 0.0 ==> d.successes == 0)
    && (vulnerability == 1.0 ==> d.successes == SumNat(d.attempts))
    && |d.losses| == d.successes
  }

  /** np.clip(x, min, max). */
  function Clip(x: real, t: Tier): real {
    Min(Max(x, t.minLoss), t.maxLoss)
  }

  function ClipAll(xs: seq<real>, t: Tier): (ys: seq<real>)
    ensures |ys| == |xs|
    ensures t.minLoss <= t.maxLoss ==> forall i :: 0 <= i < |ys| ==> t.minLoss <= ys[i] <= t.maxLoss
  {
    seq(|xs|, i requires 0 <= i < |xs| => Clip(xs[i], t))
  }

  /** k clipped losses add up to between k * min and k * max. */
  lemma ClippedSumBounds(xs: seq<real>, t: Tier)
    requires t.minLoss <= t.maxLoss
    ensures |xs| as real * t.minLoss <= SumReal(ClipAll(xs, t)) <= |xs| as real * t.maxLoss
  {
    SumBetween(ClipAll(xs, t), t.minLoss, t.maxLoss);
  }

  /** A sum of values that all lie in [lo, hi] lies in [n * lo, n * hi]. */
  lemma {:induction false} SumBetween(xs: seq<real>, lo: real, hi: real)
    requires forall i :: 0 <= i < |xs| ==> lo <= xs[i] <= hi
    ensures |xs| as real * lo <= SumReal(xs) <= |xs| as real * hi
    decreases |xs|
  {
    if xs != [] {
      SumBetween(xs[..|xs| - 1], lo, hi);
      var n := (|xs| - 1) as real;
      assert |xs| as real * lo == n * lo + lo;
      assert |xs| as real * hi == n * hi + hi;
    }
  }

  /** What one role adds to one trial: its loss and its incident count. */
  datatype RoleResult = RoleResult(loss: real, incidents: nat)

  /** A tier the lognormal can be fitted to: both logarithms are finite
      and the log standard deviation (log max - log min) / 4 is not
      negative. With max < min, np.random.lognormal raises ValueError;
      with a bound at or below zero, np.log gives -inf or NaN and so does
      every loss priced from the tier. */
  predicate TierUsable(t: Tier) {
    0.0 < t.minLoss <= t.maxLoss
  }

  /** One role in one trial. No insider, no attempt or no success leaves
      the role at zero loss; otherwise the losses are clipped into the
      bounds of the role's level and summed. None when the level is missing
      from the loss table (the lookup raises KeyError) or its tier is not
      usable (ValueError, or a NaN loss). */
  function RoleOutcome(r: Role, lossDict: map<string, Tier>, d: RoleDraw): Option<RoleResult> {
    if d.insiders == 0 then Some(RoleResult(0.0, 0))
    else if SumNat(d.attempts) == 0 then Some(RoleResult(0.0, 0))
    else if d.successes == 0 then Some(RoleResult(0.0, d.successes))
    else
      var level := LossCategory(RoleName(r));
      if level !in lossDict || !TierUsable(lossDict[level]) then None
      else Some(RoleResult(SumReal(ClipAll(d.losses, lossDict[level])), d.successes))
  }

  /** A role without insiders, or whose insiders make no attempt, adds no
      loss and no incident; otherwise its incidents are its successes, which
      never exceed the attempts. */
  lemma RoleOutcomeIncidents(r: Role, lossDict: map<string, Tier>, headcount: nat, poa: real, v: real, d: RoleDraw)
    requires DrawFits(headcount, poa, v, d)
    ensures d.insiders == 0 || SumNat(d.attempts) == 0 ==> RoleOutcome(r, lossDict, d) == Some(RoleResult(0.0, 0))
    ensures poa == 0.0 ==> RoleOutcome(r, lossDict, d) == Some(RoleResult(0.0, 0))
    ensures d.insiders > 0 && SumNat(d.attempts) > 0 && RoleOutcome(r, lossDict, d).Some? ==>
              RoleOutcome(r, lossDict, d).value.incidents == d.successes
    ensures RoleOutcome(r, lossDict, d).Some? ==> RoleOutcome(r, lossDict, d).value.incidents <= SumNat(d.attempts)
  {
  }

  /** With k successes, the role loses between k * min and k * max of its
      level; a missing level or an unusable tier fails only when there is a
      loss to price. */
  lemma RoleOutcomeLoss(r: Role, lossDict: map<string, Tier>, d: RoleDraw)
    requires |d.losses| == d.successes
    ensures var level := LossCategory(RoleName(r));
      level in lossDict && RoleOutcome(r, lossDict, d).Some? ==>
        var o := RoleOutcome(r, lossDict, d).value;
        o.incidents as real * lossDict[level].minLoss <= o.loss <= o.incidents as real * lossDict[level].maxLoss
    ensures RoleOutcome(r, lossDict, d).None? <==>
              d.insiders > 0 && SumNat(d.attempts) > 0 && d.successes > 0
              && (LossCategory(RoleName(r)) !in lossDict || !TierUsable(lossDict[LossCategory(RoleName(r))]))
  {
    var level := LossCategory(RoleName(r));
    if level in lossDict && TierUsable(lossDict[level])
       && d.insiders > 0 && SumNat(d.attempts) > 0 && d.successes > 0 {
      ClippedSumBounds(d.losses, lossDict[level]);
    }
  }

  // ---- one trial ----

  /** total_loss, role_losses and role_incidents after a trial. */
  datatype Trial = Trial(total: real, losses: map<Role, real>, incidents: map<Role, nat>)

  /** A dict with the value v for every role of ROLES. */
  function ForEachRole<T>(v: T): (m: map<Role, T>)
    ensures forall r :: r in m <==> r in Roles
    ensures forall r :: r in m ==> m[r] == v
  {
    map r | r in Roles :: v
  }

  function ZeroTrial(): Trial {
    Trial(0.0, ForEachRole(0.0), ForEachRole(0 as nat))
  }

  /** One more role of a trial: its result overwrites its entries and its
      loss is added to the total; a failed role fails the trial. */
  function Extend(t: Trial, r: Role, o: Option<RoleResult>): Option<Trial> {
    match o
    case None => None
    case Some(res) => Some(Trial(t.total + res.loss, t.losses[r := res.loss], t.incidents[r := res.incidents]))
  }

  /** The role loop of one trial over the first |roles| roles. */
  function TrialOver(roles: seq<Role>, ds: seq<RoleDraw>, lossDict: map<string, Tier>): (tr: Option<Trial>)
    requires |ds| == |roles|
    ensures tr.Some? ==> forall r :: r in Roles ==> r in tr.value.losses && r in tr.value.incidents
    decreases |roles|
  {
    if roles == [] then Some(ZeroTrial())
    else
      var n := |roles| - 1;
      match TrialOver(roles[..n], ds[..n], lossDict)
      case None => None
      case Some(t) => Extend(t, roles[n], RoleOutcome(roles[n], lossDict, ds[n]))
  }

  /** A failed prefix makes the whole trial fail. */
  lemma {:induction false} TrialOverFails(roles: seq<Role>, ds: seq<RoleDraw>, lossDict: map<string, Tier>, j: nat)
    requires |ds| == |roles| && j <= |roles|
    requires TrialOver(roles[..j], ds[..j], lossDict).None?
    ensures TrialOver(roles, ds, lossDict).None?
    decreases |roles| - j
  {
    if j < |roles| {
      assert roles[..j + 1][..j] == roles[..j] && ds[..j + 1][..j] == ds[..j];
      TrialOverFails(roles, ds, lossDict, j + 1);
    } else {
      assert roles[..j] == roles && ds[..j] == ds;
    }
  }

  /** The losses of a trial, added up over the given roles. */
  function SumOver(roles: seq<Role>, m: map<Role, real>): real
    requires forall r :: r in roles ==> r in m
    decreases |roles|
  {
    if roles == [] then 0.0 else SumOver(roles[..|roles| - 1], m) + m[roles[|roles| - 1]]
  }

  lemma {:induction false} SumOverUpdate(roles: seq<Role>, m: map<Role, real>, r: Role, x: real)
    requires forall q :: q in roles ==> q in m
    requires r !in roles
    ensures SumOver(roles, m[r := x]) == SumOver(roles, m)
    decreases |roles|
  {
    if roles != [] {
      SumOverUpdate(roles[..|roles| - 1], m, r, x);
    }
  }

  /** A completed trial records the result of each role that is not
      visited again later. */
  lemma {:induction false} TrialOverEntry(roles: seq<Role>, ds: seq<RoleDraw>, lossDict: map<string, Tier>, i: nat)
    requires |ds| == |roles| && i < |roles| && roles[i] in Roles
    requires forall q :: i < q < |roles| ==> roles[q] != roles[i]
    requires TrialOver(roles, ds, lossDict).Some?
    ensures RoleOutcome(roles[i], lossDict, ds[i]).Some?
    ensures TrialOver(roles, ds, lossDict).value.losses[roles[i]] == RoleOutcome(roles[i], lossDict, ds[i]).value.loss
    ensures TrialOver(roles, ds, lossDict).value.incidents[roles[i]] == RoleOutcome(roles[i], lossDict, ds[i]).value.incidents
    decreases |roles|
  {
    var n := |roles| - 1;
    var init := roles[..n];
    var t0 := TrialOver(init, ds[..n], lossDict);
    assert t0.Some?;
    if i < n {
      assert init[i] == roles[i] && ds[..n][i] == ds[i];
      assert roles[n] != roles[i];
      forall q | i < q < n
        ensures init[q] != init[i]
      {
        assert init[q] == roles[q];
      }
      TrialOverEntry(init, ds[..n], lossDict, i);
    } else {
      assert i == n;
    }
  }

  /** With distinct roles, a completed trial's total is the sum of its
      per-role losses. */
  lemma {:induction false} TrialOverTotal(roles: seq<Role>, ds: seq<RoleDraw>, lossDict: map<string, Tier>)
    requires |ds| == |roles|
    requires forall r :: r in roles ==> r in Roles
    requires forall i, j :: 0 <= i < j < |roles| ==> roles[i] != roles[j]
    requires TrialOver(roles, ds, lossDict).Some?
    ensures var t := TrialOver(roles, ds, lossDict).value;
      t.total == SumOver(roles, t.losses)
    decreases |roles|
  {
    if roles != [] {
      var n := |roles| - 1;
      var init := roles[..n];
      assert forall i, j :: 0 <= i < j < n ==> init[i] == roles[i] && init[j] == roles[j];
      TrialOverTotal(init, ds[..n], lossDict);
      var t0 := TrialOver(init, ds[..n], lossDict).value;
      var o := RoleOutcome(roles[n], lossDict, ds[n]).value;
      assert roles[n] !in init;
      SumOverUpdate(init, t0.losses, roles[n], o.loss);
    }
  }

  lemma TrialOverStep(ds: seq<RoleDraw>, lossDict: map<string, Tier>, j: nat, t: Trial)
    requires |ds| == |Roles| && j < |Roles|
    requires TrialOver(Roles[..j], ds[..j], lossDict) == Some(t)
    ensures TrialOver(Roles[..j + 1], ds[..j + 1], lossDict) == Extend(t, Roles[j], RoleOutcome(Roles[j], lossDict, ds[j]))
  {
    assert Roles[..j + 1][..j] == Roles[..j] && ds[..j + 1][..j] == ds[..j];
  }

  /** A role the trial has not visited yet still has zero entries. */
  lemma {:induction false} TrialOverUnvisited(roles: seq<Role>, ds: seq<RoleDraw>, lossDict: map<string, Tier>, r: Role)
    requires |ds| == |roles| && r in Roles && r !in roles
    requires TrialOver(roles, ds, lossDict).Some?
    ensures TrialOver(roles, ds, lossDict).value.losses[r] == 0.0
    ensures TrialOver(roles, ds, lossDict).value.incidents[r] == 0
    decreases |roles|
  {
    if roles != [] {
      var n := |roles| - 1;
      assert roles[n] != r;
      TrialOverUnvisited(roles[..n], ds[..n], lossDict, r);
    }
  }

  /** One pass of the role loop of run_trial: a role whose insiders make
      no successful attempt leaves the accumulators as they are, a role
      with successes records them and adds its clipped losses, and a
      missing loss level or an unusable tier ends the trial. */
  method VisitRole(role: Role, d: RoleDraw, lossDict: map<string, Tier>,
                   totalLoss: real, roleLosses: map<Role, real>, roleIncidents: map<Role, nat>)
    returns (ok: bool, totalLoss': real, roleLosses': map<Role, real>, roleIncidents': map<Role, nat>)
    requires role in roleLosses && roleLosses[role] == 0.0
    requires role in roleIncidents && roleIncidents[role] == 0
    ensures ok <==> RoleOutcome(role, lossDict, d).Some?
    ensures ok ==> Extend(Trial(totalLoss, roleLosses, roleIncidents), role, RoleOutcome(role, lossDict, d)) ==
                     Some(Trial(totalLoss', roleLosses', roleIncidents'))
  {
    ok, totalLoss', roleLosses', roleIncidents' := true, totalLoss, roleLosses, roleIncidents;
    assert roleLosses[role := 0.0] == roleLosses;
    assert roleIncidents[role := 0] == roleIncidents;
    var nInsiders := d.insiders;
    if nInsiders == 0 {
      return;
    }
    var totalAttempts := SumNat(d.attempts);
    if totalAttempts == 0 {
      return;
    }
    var nSuccessful := d.successes;
    roleIncidents' := roleIncidents[role := nSuccessful];
    if nSuccessful == 0 {
      return;
    }
    var level := LossCategory(RoleName(role));
    if level !in lossDict {
      ok := false;
      return;
    }
    var tier := lossDict[level];
    var minLoss, maxLoss := tier.minLoss, tier.maxLoss;
    if !(0.0 < minLoss <= maxLoss) {
      ok := false;
      return;
    }
    var attackLosses := ClipAll(d.losses, tier);
    var roleLoss := SumReal(attackLosses);
    roleLosses' := roleLosses[role := roleLoss];
    totalLoss' := totalLoss + roleLoss;
  }

  /** run_trial: the role loop over ROLES, with its early exits. */
  method RunTrial(ds: seq<RoleDraw>, lossDict: map<string, Tier>) returns (trial: Option<Trial>)
    requires |ds| == |Roles|
    ensures trial == TrialOver(Roles, ds, lossDict)
  {
    var totalLoss := 0.0;
    var roleLosses: map<Role, real> := ForEachRole(0.0);
    var roleIncidents: map<Role, nat> := ForEachRole(0 as nat);
    assert Roles[..0] == [] && ds[..0] == [];
    var j := 0;
    while j < |Roles|
      invariant 0 <= j <= |Roles|
      invariant TrialOver(Roles[..j], ds[..j], lossDict) == Some(Trial(totalLoss, roleLosses, roleIncidents))
    {
      ghost var t0 := Trial(totalLoss, roleLosses, roleIncidents);
      RoleNotYetVisited(j);
      RoleListed(Roles[j]);
      TrialOverUnvisited(Roles[..j], ds[..j], lossDict, Roles[j]);
      TrialOverStep(ds, lossDict, j, t0);
      var ok;
      ok, totalLoss, roleLosses, roleIncidents := VisitRole(Roles[j], ds[j], lossDict, totalLoss, roleLosses, roleIncidents);
      if !ok {
        TrialOverFails(Roles, ds, lossDict, j + 1);
        return None;
      }
      j := j + 1;
    }
    assert Roles[..j] == Roles && ds[..j] == ds;
    trial := Some(Trial(totalLoss, roleLosses, roleIncidents));
  }

  // ---- the whole run ----

  /** The results dict of a run: the per-trial totals, the per-role loss
      and incident lists, and the two scalars it echoes back. */
  datatype SimResults = SimResults(
    totalLoss: seq<real>,
    byRole: map<Role, seq<real>>,
    incidentsByRole: map<Role, seq<nat>>,
    mitigationWeight: real,
    effectiveVulnerability: real)

  predicate Covers(res: SimResults) {
    forall r :: r in Roles ==> r in res.byRole && r in res.incidentsByRole
  }

  function EmptyResults(w: real): (res: SimResults)
    ensures Covers(res)
  {
    SimResults([], ForEachRole([]), ForEachRole([]), w, EffectiveVulnerability(w))
  }

  /** Every role's list with that role's new value appended. */
  function AppendEach<T>(lists: map<Role, seq<T>>, values: map<Role, T>): (m: map<Role, seq<T>>)
    requires forall r :: r in Roles ==> r in lists && r in values
    ensures forall r :: r in m <==> r in Roles
    ensures forall r :: r in m ==> m[r] == lists[r] + [values[r]]
  {
    map r | r in Roles :: lists[r] + [values[r]]
  }

  /** The results after one more trial: one more entry in every list. */
  function AppendTrial(res: SimResults, t: Trial): (out: SimResults)
    requires Covers(res)
    requires forall r :: r in Roles ==> r in t.losses && r in t.incidents
    ensures Covers(out)
  {
    res.(totalLoss := res.totalLoss + [t.total],
         byRole := AppendEach(res.byRole, t.losses),
         incidentsByRole := AppendEach(res.incidentsByRole, t.incidents))
  }

  predicate TrialDrawsShape(draws: seq<seq<RoleDraw>>) {
    forall k :: 0 <= k < |draws| ==> |draws[k]| == |Roles|
  }

  /** run_monte_carlo_simulation over the given trial draws. */
  function Simulate(w: real, lossDict: map<string, Tier>, draws: seq<seq<RoleDraw>>): (out: Option<SimResults>)
    requires TrialDrawsShape(draws)
    ensures out.Some? ==> Covers(out.value)
    decreases |draws|
  {
    if draws == [] then Some(EmptyResults(w))
    else
      var n := |draws| - 1;
      assert TrialDrawsShape(draws[..n]);
      match Simulate(w, lossDict, draws[..n])
      case None => None
      case Some(res) =>
        match TrialOver(Roles, draws[n], lossDict)
        case None => None
        case Some(t) => Some(AppendTrial(res, t))
  }

  /** A completed run echoes its mitigation weight and vulnerability and has
      one entry per trial in the total list and in every role's lists. */
  lemma {:induction false} SimulateShape(w: real, lossDict: map<string, Tier>, draws: seq<seq<RoleDraw>>)
    requires TrialDrawsShape(draws)
    requires Simulate(w, lossDict, draws).Some?
    ensures var res := Simulate(w, lossDict, draws).value;
      && res.mitigationWeight == w && res.effectiveVulnerability == EffectiveVulnerability(w)
      && |res.totalLoss| == |draws|
      && (forall r :: r in Roles ==> |res.byRole[r]| == |draws| && |res.incidentsByRole[r]| == |draws|)
    decreases |draws|
  {
    if draws != [] {
      var n := |draws| - 1;
      assert TrialDrawsShape(draws[..n]);
      SimulateShape(w, lossDict, draws[..n]);
    }
  }

  /** A completed run of n + 1 trials is the completed run of the first n
      with the last trial appended. */
  lemma SimulateLast(w: real, lossDict: map<string, Tier>, draws: seq<seq<RoleDraw>>)
    requires TrialDrawsShape(draws) && draws != []
    requires Simulate(w, lossDict, draws).Some?
    ensures TrialDrawsShape(draws[..|draws| - 1])
    ensures Simulate(w, lossDict, draws[..|draws| - 1]).Some?
    ensures TrialOver(Roles, draws[|draws| - 1], lossDict).Some?
    ensures Simulate(w, lossDict, draws).value
            == AppendTrial(Simulate(w, lossDict, draws[..|draws| - 1]).value,
                           TrialOver(Roles, draws[|draws| - 1], lossDict).value)
  {
    assert TrialDrawsShape(draws[..|draws| - 1]);
  }

  /** Entry k of a completed run's total list is trial k's total. */
  lemma {:induction false} SimulateTotalEntry(w: real, lossDict: map<string, Tier>, draws: seq<seq<RoleDraw>>, k: nat)
    requires TrialDrawsShape(draws) && k < |draws|
    requires Simulate(w, lossDict, draws).Some?
    ensures TrialOver(Roles, draws[k], lossDict).Some?
    ensures var res := Simulate(w, lossDict, draws).value;
      k < |res.totalLoss| && res.totalLoss[k] == TrialOver(Roles, draws[k], lossDict).value.total
    decreases |draws|
  {
    var n := |draws| - 1;
    SimulateLast(w, lossDict, draws);
    SimulateShape(w, lossDict, draws[..n]);
    var res0 := Simulate(w, lossDict, draws[..n]).value;
    var tn := TrialOver(Roles, draws[n], lossDict).value;
    var res := Simulate(w, lossDict, draws).value;
    assert res.totalLoss == res0.totalLoss + [tn.total];
    if k < n {
      SimulateTotalEntry(w, lossDict, draws[..n], k);
      assert draws[..n][k] == draws[k];
      assert res.totalLoss[k] == res0.totalLoss[k];
    } else {
      assert k == n;
      assert res.totalLoss[k] == tn.total;
    }
  }

  /** Entry k of role r's two lists in a completed run is trial k's loss and
      incident count for r. */
  lemma {:induction false} SimulateRoleEntry(w: real, lossDict: map<string, Tier>, draws: seq<seq<RoleDraw>>,
                                             k: nat, r: Role)
    requires TrialDrawsShape(draws) && k < |draws|
    requires Simulate(w, lossDict, draws).Some?
    ensures TrialOver(Roles, draws[k], lossDict).Some?
    ensures var res := Simulate(w, lossDict, draws).value;
      var t := TrialOver(Roles, draws[k], lossDict).value;
      && k < |res.byRole[r]| && res.byRole[r][k] == t.losses[r]
      && k < |res.incidentsByRole[r]| && res.incidentsByRole[r][k] == t.incidents[r]
    decreases |draws|
  {
    RoleListed(r);
    var n := |draws| - 1;
    SimulateLast(w, lossDict, draws);
    SimulateShape(w, lossDict, draws[..n]);
    var res0 := Simulate(w, lossDict, draws[..n]).value;
    var tn := TrialOver(Roles, draws[n], lossDict).value;
    var res := Simulate(w, lossDict, draws).value;
    assert res.byRole[r] == res0.byRole[r] + [tn.losses[r]];
    assert res.incidentsByRole[r] == res0.incidentsByRole[r] + [tn.incidents[r]];
    if k < n {
      SimulateRoleEntry(w, lossDict, draws[..n], k, r);
      assert draws[..n][k] == draws[k];
      assert res.byRole[r][k] == res0.byRole[r][k];
      assert res.incidentsByRole[r][k] == res0.incidentsByRole[r][k];
    } else {
      assert k == n;
      assert res.byRole[r][k] == tn.losses[r];
      assert res.incidentsByRole[r][k] == tn.incidents[r];
    }
  }

  /** Every trial total is the sum of the trial's per-role losses. */
  lemma TrialTotalIsSum(ds: seq<RoleDraw>, lossDict: map<string, Tier>)
    requires |ds| == |Roles|
    requires TrialOver(Roles, ds, lossDict).Some?
    ensures var t := TrialOver(Roles, ds, lossDict).value;
      t.total == SumOver(Roles, t.losses)
      && forall i :: 0 <= i < |Roles| ==>
           RoleOutcome(Roles[i], lossDict, ds[i]).Some?
           && t.losses[Roles[i]] == RoleOutcome(Roles[i], lossDict, ds[i]).value.loss
  {
    RolesDistinct();
    TrialOverTotal(Roles, ds, lossDict);
    forall i | 0 <= i < |Roles|
      ensures RoleOutcome(Roles[i], lossDict, ds[i]).Some?
      ensures TrialOver(Roles, ds, lossDict).value.losses[Roles[i]] == RoleOutcome(Roles[i], lossDict, ds[i]).value.loss
    {
      RolesDistinct();
      TrialOverEntry(Roles, ds, lossDict, i);
    }
  }

  /** The draws of every trial fit their distributions. */
  predicate RunDrawsFit(w: real, poa: map<Role, real>, draws: seq<seq<RoleDraw>>)
    requires forall r :: r in poa
  {
    TrialDrawsShape(draws)
    && forall k, j :: 0 <= k < |draws| && 0 <= j < |Roles| ==>
         DrawFits(RoleHeadcount(Roles[j]), poa[Roles[j]], EffectiveVulnerability(w), draws[k][j])
  }

  lemma SimulateStep(w: real, lossDict: map<string, Tier>, draws: seq<seq<RoleDraw>>, i: nat,
                     res: SimResults, t: Trial)
    requires TrialDrawsShape(draws) && i < |draws|
    requires TrialDrawsShape(draws[..i]) && Simulate(w, lossDict, draws[..i]) == Some(res)
    requires TrialOver(Roles, draws[i], lossDict) == Some(t)
    ensures TrialDrawsShape(draws[..i + 1])
    ensures Simulate(w, lossDict, draws[..i + 1]) == Some(AppendTrial(res, t))
  {
    assert draws[..i + 1][..i] == draws[..i];
  }

  lemma SimulateStepFails(w: real, lossDict: map<string, Tier>, draws: seq<seq<RoleDraw>>, i: nat,
                          res: SimResults)
    requires TrialDrawsShape(draws) && i < |draws|
    requires TrialDrawsShape(draws[..i]) && Simulate(w, lossDict, draws[..i]) == Some(res)
    requires TrialOver(Roles, draws[i], lossDict).None?
    ensures Simulate(w, lossDict, draws).None?
  {
    assert draws[..i + 1][..i] == draws[..i];
    assert TrialDrawsShape(draws[..i + 1]);
    SimulateFails(w, lossDict, draws, i + 1);
  }

  /** run_monte_carlo_simulation(mitigation_weight, n_iterations). */
  method RunMonteCarloSimulation(w: real, nIterations: nat, poa: map<Role, real>,
                                 lossDict: map<string, Tier>, draws: seq<seq<RoleDraw>>)
    returns (results: Option<SimResults>)
    requires 0.0 <= w <= 1.0
    requires forall r :: r in poa && 0.0 <= poa[r] <= 1.0
    requires |draws| == nIterations && RunDrawsFit(w, poa, draws)
    ensures results == Simulate(w, lossDict, draws)
  {
    var effectiveVulnerability := BaseVulnerability * (1.0 - w);
    var totalLossList: seq<real> := [];
    var byRole: map<Role, seq<real>> := ForEachRole([]);
    var incidentsByRole: map<Role, seq<nat>> := ForEachRole([]);
    var iteration := 0;
    while iteration < nIterations
      invariant 0 <= iteration <= nIterations
      invariant TrialDrawsShape(draws[..iteration])
      invariant forall r :: r in byRole <==> r in Roles
      invariant forall r :: r in incidentsByRole <==> r in Roles
      invariant Simulate(w, lossDict, draws[..iteration])
                == Some(SimResults(totalLossList, byRole, incidentsByRole, w, effectiveVulnerability))
    {
      ghost var before := SimResults(totalLossList, byRole, incidentsByRole, w, effectiveVulnerability);
      var trial := RunTrial(draws[iteration], lossDict);
      if trial.None? {
        SimulateStepFails(w, lossDict, draws, iteration, before);
        return None;
      }
      var t := trial.value;
      SimulateStep(w, lossDict, draws, iteration, before, t);
      totalLossList := totalLossList + [t.total];
      byRole, incidentsByRole := AppendRoleEntries(byRole, incidentsByRole, t);
      iteration := iteration + 1;
    }
    assert draws[..iteration] == draws;
    results := Some(SimResults(totalLossList, byRole, incidentsByRole, w, effectiveVulnerability));
  }

  /** The role visited at step j has not been visited before. */
  lemma RoleNotYetVisited(j: nat)
    requires j < |Roles|
    ensures Roles[j] !in Roles[..j]
  {
    RolesDistinct();
  }

  /** The lists after the append loop has handled the roles in done. */
  function AppendFor<T>(lists: map<Role, seq<T>>, values: map<Role, T>, done: seq<Role>): (m: map<Role, seq<T>>)
    requires forall r :: r in Roles ==> r in lists && r in values
    ensures forall r :: r in m <==> r in Roles
  {
    map r | r in Roles :: if r in done then lists[r] + [values[r]] else lists[r]
  }

  lemma AppendForNone<T>(lists: map<Role, seq<T>>, values: map<Role, T>)
    requires forall r :: r in Roles ==> r in lists && r in values
    requires forall r :: r in lists <==> r in Roles
    ensures AppendFor(lists, values, []) == lists
  {
  }

  lemma AppendForStep<T>(lists: map<Role, seq<T>>, values: map<Role, T>, j: nat)
    requires forall r :: r in Roles ==> r in lists && r in values
    requires j < |Roles|
    ensures var m := AppendFor(lists, values, Roles[..j]);
      AppendFor(lists, values, Roles[..j + 1]) == m[Roles[j] := m[Roles[j]] + [values[Roles[j]]]]
  {
    RoleNotYetVisited(j);
    assert Roles[..j + 1] == Roles[..j] + [Roles[j]];
  }

  lemma AppendForAll<T>(lists: map<Role, seq<T>>, values: map<Role, T>)
    requires forall r :: r in Roles ==> r in lists && r in values
    ensures AppendFor(lists, values, Roles[..|Roles|]) == AppendEach(lists, values)
  {
    assert Roles[..|Roles|] == Roles;
  }

  /** The append loop at the end of an iteration: every role's two lists
      gain that role's entry of the trial. */
  method AppendRoleEntries(byRole: map<Role, seq<real>>, incidentsByRole: map<Role, seq<nat>>, t: Trial)
    returns (byRole': map<Role, seq<real>>, incidentsByRole': map<Role, seq<nat>>)
    requires forall r :: r in Roles ==> r in byRole && r in incidentsByRole && r in t.losses && r in t.incidents
    requires forall r :: r in byRole <==> r in Roles
    requires forall r :: r in incidentsByRole <==> r in Roles
    ensures byRole' == AppendEach(byRole, t.losses)
    ensures incidentsByRole' == AppendEach(incidentsByRole, t.incidents)
  {
    AppendForNone(byRole, t.losses);
    AppendForNone(incidentsByRole, t.incidents);
    assert Roles[..0] == [];
    byRole' := byRole;
    incidentsByRole' := incidentsByRole;
    var j := 0;
    while j < |Roles|
      invariant 0 <= j <= |Roles|
      invariant byRole' == AppendFor(byRole, t.losses, Roles[..j])
      invariant incidentsByRole' == AppendFor(incidentsByRole, t.incidents, Roles[..j])
    {
      var role := Roles[j];
      AppendForStep(byRole, t.losses, j);
      AppendForStep(incidentsByRole, t.incidents, j);
      byRole' := byRole'[role := byRole'[role] + [t.losses[role]]];
      incidentsByRole' := incidentsByRole'[role := incidentsByRole'[role] + [t.incidents[role]]];
      j := j + 1;
    }
    AppendForAll(byRole, t.losses);
    AppendForAll(incidentsByRole, t.incidents);
  }

  /** A failed trial makes the whole run fail. */
  lemma {:induction false} SimulateFails(w: real, lossDict: map<string, Tier>, draws: seq<seq<RoleDraw>>, j: nat)
    requires TrialDrawsShape(draws) && j <= |draws|
    requires TrialDrawsShape(draws[..j]) && Simulate(w, lossDict, draws[..j]).None?
    ensures Simulate(w, lossDict, draws).None?
    decreases |draws| - j
  {
    if j < |draws| {
      assert draws[..j + 1][..j] == draws[..j];
      assert TrialDrawsShape(draws[..j + 1]);
      SimulateFails(w, lossDict, draws, j + 1);
    } else {
      assert draws[..j] == draws;
    }
  }

  /** At full mitigation no attack succeeds: every role of every trial
      records zero loss and zero incidents, and every total is zero. */
  lemma {:induction false} FullMitigationTrial(roles: seq<Role>, ds: seq<RoleDraw>, lossDict: map<string, Tier>,
                                               poa: map<Role, real>)
    requires |ds| == |roles|
    requires forall r :: r in poa
    requires forall j :: 0 <= j < |roles| ==> DrawFits(RoleHeadcount(roles[j]), poa[roles[j]], 0.0, ds[j])
    ensures TrialOver(roles, ds, lossDict).Some?
    ensures var t := TrialOver(roles, ds, lossDict).value;
      t.total == 0.0 && (forall r :: r in Roles ==> t.losses[r] == 0.0 && t.incidents[r] == 0)
    decreases |roles|
  {
    if roles != [] {
      var n := |roles| - 1;
      FullMitigationTrial(roles[..n], ds[..n], lossDict, poa);
    }
  }

  /** Every entry of every list of a run is zero. */
  predicate AllZero(res: SimResults)
    requires Covers(res)
  {
    && (forall k :: 0 <= k < |res.totalLoss| ==> res.totalLoss[k] == 0.0)
    && (forall r, k :: r in Roles && 0 <= k < |res.byRole[r]| ==> res.byRole[r][k] == 0.0)
    && (forall r, k :: r in Roles && 0 <= k < |res.incidentsByRole[r]| ==> res.incidentsByRole[r][k] == 0)
  }

  lemma AppendZeroTrial(res: SimResults, t: Trial)
    requires Covers(res) && AllZero(res)
    requires forall r :: r in Roles ==> r in t.losses && r in t.incidents
    requires t.total == 0.0 && forall r :: r in Roles ==> t.losses[r] == 0.0 && t.incidents[r] == 0
    ensures AllZero(AppendTrial(res, t))
  {
    var out := AppendTrial(res, t);
    forall r, k | r in Roles && 0 <= k < |out.byRole[r]|
      ensures out.byRole[r][k] == 0.0
    {
      assert out.byRole[r] == res.byRole[r] + [t.losses[r]];
    }
    forall r, k | r in Roles && 0 <= k < |out.incidentsByRole[r]|
      ensures out.incidentsByRole[r][k] == 0
    {
      assert out.incidentsByRole[r] == res.incidentsByRole[r] + [t.incidents[r]];
    }
  }

  /** A fully mitigated run completes, and every total, every role loss and
      every incident count in it is zero. */
  lemma {:induction false} FullMitigationRun(lossDict: map<string, Tier>, poa: map<Role, real>, draws: seq<seq<RoleDraw>>)
    requires forall r :: r in poa
    requires RunDrawsFit(1.0, poa, draws)
    ensures Simulate(1.0, lossDict, draws).Some?
    ensures AllZero(Simulate(1.0, lossDict, draws).value)
    decreases |draws|
  {
    if draws != [] {
      var n := |draws| - 1;
      assert RunDrawsFit(1.0, poa, draws[..n]);
      FullMitigationRun(lossDict, poa, draws[..n]);
      FullMitigationTrial(Roles, draws[n], lossDict, poa);
      AppendZeroTrial(Simulate(1.0, lossDict, draws[..n]).value, TrialOver(Roles, draws[n], lossDict).value);
    }
  }

  // ---- the summary of a mitigated run against the baseline ----

  function Mean(xs: seq<real>): real
    requires |xs| > 0
  {
    SumReal(xs) / |xs| as real
  }

  function MinOf(xs: seq<real>): (m: real)
    requires |xs| > 0
    ensures forall i :: 0 <= i < |xs| ==> m <= xs[i]
    decreases |xs|
  {
    if |xs| == 1 then xs[0]
    else
      var m := MinOf(xs[..|xs| - 1]);
      assert forall i :: 0 <= i < |xs| - 1 ==> xs[..|xs| - 1][i] == xs[i];
      Min(m, xs[|xs| - 1])
  }

  function MaxOf(xs: seq<real>): (m: real)
    requires |xs| > 0
    ensures forall i :: 0 <= i < |xs| ==> xs[i] <= m
    decreases |xs|
  {
    if |xs| == 1 then xs[0]
    else
      var m := MaxOf(xs[..|xs| - 1]);
      assert forall i :: 0 <= i < |xs| - 1 ==> xs[..|xs| - 1][i] == xs[i];
      Max(m, xs[|xs| - 1])
  }

  /** The minimum is attained: it is one of the entries. */
  lemma {:induction false} MinOfAttained(xs: seq<real>)
    requires |xs| > 0
    ensures exists i :: 0 <= i < |xs| && MinOf(xs) == xs[i]
    decreases |xs|
  {
    var n := |xs| - 1;
    if n > 0 {
      MinOfAttained(xs[..n]);
      var i :| 0 <= i < n && MinOf(xs[..n]) == xs[..n][i];
      if MinOf(xs) != xs[n] {
        assert MinOf(xs) == xs[i];
      }
    } else {
      assert MinOf(xs) == xs[0];
    }
  }

  /** The maximum is attained: it is one of the entries. */
  lemma {:induction false} MaxOfAttained(xs: seq<real>)
    requires |xs| > 0
    ensures exists i :: 0 <= i < |xs| && MaxOf(xs) == xs[i]
    decreases |xs|
  {
    var n := |xs| - 1;
    if n > 0 {
      MaxOfAttained(xs[..n]);
      var i :| 0 <= i < n && MaxOf(xs[..n]) == xs[..n][i];
      if MaxOf(xs) != xs[n] {
        assert MaxOf(xs) == xs[i];
      }
    } else {
      assert MaxOf(xs) == xs[0];
    }
  }

  lemma DivideBounds(s: real, n: real, lo: real, hi: real)
    requires n > 0.0 && n * lo <= s <= n * hi
    ensures lo <= s / n <= hi
  {
  }

  /** The mean lies between the minimum and the maximum. */
  lemma MeanBetweenMinMax(xs: seq<real>)
    requires |xs| > 0
    ensures MinOf(xs) <= Mean(xs) <= MaxOf(xs)
  {
    var lo, hi := MinOf(xs), MaxOf(xs);
    SumBetween(xs, lo, hi);
    DivideBounds(SumReal(xs), |xs| as real, lo, hi);
  }

  function AsReals(xs: seq<nat>): (ys: seq<real>)
    ensures |ys| == |xs| && forall i :: 0 <= i < |xs| ==> ys[i] == xs[i] as real
  {
    seq(|xs|, i requires 0 <= i < |xs| => xs[i] as real)
  }

  /** savings_pct: the savings as a percentage of the baseline mean, 0 when
      the baseline mean is not positive. */
  function SavingsPct(baselineMean: real, mitigatedMean: real): (pct: real)
    ensures baselineMean > 0.0 ==> pct * baselineMean == (baselineMean - mitigatedMean) * 100.0
    ensures baselineMean <= 0.0 ==> pct == 0.0
  {
    var savings := baselineMean - mitigatedMean;
    if baselineMean > 0.0 then savings / baselineMean * 100.0 else 0.0
  }

  /** The numbers generate_monte_carlo_results reports, percentiles aside. */
  datatype Summary = Summary(
    meanEal: real,
    maxLoss: real,
    minLoss: real,
    baselineMean: real,
    savings: real,
    savingsPct: real,
    roleMeanLoss: map<Role, real>,
    roleMeanIncidents: map<Role, real>,
    roleMaxLoss: map<Role, real>)

  /** Both runs completed with the same positive number of trials. */
  predicate Comparable(mitigated: SimResults, baseline: SimResults) {
    && Covers(mitigated) && Covers(baseline)
    && |mitigated.totalLoss| > 0 && |baseline.totalLoss| > 0
    && forall r :: r in Roles ==>
         |mitigated.byRole[r]| > 0 && |mitigated.incidentsByRole[r]| > 0 && |baseline.byRole[r]| > 0
  }

  function Summarize(mitigated: SimResults, baseline: SimResults): (s: Summary)
    requires Comparable(mitigated, baseline)
    ensures s.meanEal == Mean(mitigated.totalLoss) && s.baselineMean == Mean(baseline.totalLoss)
    ensures s.minLoss == MinOf(mitigated.totalLoss) && s.maxLoss == MaxOf(mitigated.totalLoss)
    ensures s.minLoss <= s.meanEal <= s.maxLoss
    ensures s.savings == s.baselineMean - s.meanEal
    ensures s.savingsPct == SavingsPct(s.baselineMean, s.meanEal)
    ensures forall r :: r in s.roleMeanLoss <==> r in Roles
    ensures forall r :: r in s.roleMeanIncidents <==> r in Roles
    ensures forall r :: r in s.roleMaxLoss <==> r in Roles
    ensures forall r :: r in Roles ==>
              && s.roleMeanLoss[r] == Mean(mitigated.byRole[r])
              && s.roleMeanIncidents[r] == Mean(AsReals(mitigated.incidentsByRole[r]))
              && s.roleMaxLoss[r] == MaxOf(mitigated.byRole[r])
              && s.roleMeanLoss[r] <= s.roleMaxLoss[r]
  {
    var meanLoss := Mean(mitigated.totalLoss);
    var baselineMean := Mean(baseline.totalLoss);
    MeanBetweenMinMax(mitigated.totalLoss);
    assert forall r :: r in Roles ==> Mean(mitigated.byRole[r]) <= MaxOf(mitigated.byRole[r]) by {
      forall r | r in Roles ensures Mean(mitigated.byRole[r]) <= MaxOf(mitigated.byRole[r]) {
        MeanBetweenMinMax(mitigated.byRole[r]);
      }
    }
    Summary(
      meanLoss,
      MaxOf(mitigated.totalLoss),
      MinOf(mitigated.totalLoss),
      baselineMean,
      baselineMean - meanLoss,
      SavingsPct(baselineMean, meanLoss),
      map r | r in Roles :: Mean(mitigated.byRole[r]),
      map r | r in Roles :: Mean(AsReals(mitigated.incidentsByRole[r])),
      map r | r in Roles :: MaxOf(mitigated.byRole[r]))
  }

  /** Comparing a run with itself saves nothing. */
  lemma NoMitigationNoSavings(res: SimResults)
    requires Comparable(res, res)
    ensures Summarize(res, res).savings == 0.0 && Summarize(res, res).savingsPct == 0.0
  {
  }

  /** A run whose every total is zero (full mitigation) saves the whole
      baseline mean: 100 percent whenever the baseline loses anything. */
  lemma {:induction false} ZeroRunSavesAll(mitigated: SimResults, baseline: SimResults)
    requires Comparable(mitigated, baseline)
    requires forall k :: 0 <= k < |mitigated.totalLoss| ==> mitigated.totalLoss[k] == 0.0
    ensures Summarize(mitigated, baseline).meanEal == 0.0
    ensures Summarize(mitigated, baseline).savings == Summarize(mitigated, baseline).baselineMean
    ensures Summarize(mitigated, baseline).baselineMean > 0.0 ==> Summarize(mitigated, baseline).savingsPct == 100.0
  {
    SumBetween(mitigated.totalLoss, 0.0, 0.0);
  }

  // ---- generate_monte_carlo_results ----

  /** A completed run of at least one trial has a non-empty total list and
      non-empty lists for every role. */
  lemma SimulateNonEmpty(w: real, lossDict: map<string, Tier>, draws: seq<seq<RoleDraw>>)
    requires TrialDrawsShape(draws) && |draws| > 0
    requires Simulate(w, lossDict, draws).Some?
    ensures var res := Simulate(w, lossDict, draws).value;
      && Covers(res) && |res.totalLoss| > 0
      && forall r :: r in Roles ==> |res.byRole[r]| > 0 && |res.incidentsByRole[r]| > 0
  {
    SimulateShape(w, lossDict, draws);
  }

  /** Two completed runs of N_ITER trials can be compared. */
  lemma RunsComparable(w: real, lossDict: map<string, Tier>, mitigatedDraws: seq<seq<RoleDraw>>,
                       baselineDraws: seq<seq<RoleDraw>>)
    requires TrialDrawsShape(mitigatedDraws) && |mitigatedDraws| == NIter
    requires TrialDrawsShape(baselineDraws) && |baselineDraws| == NIter
    requires Simulate(w, lossDict, mitigatedDraws).Some? && Simulate(0.0, lossDict, baselineDraws).Some?
    ensures Comparable(Simulate(w, lossDict, mitigatedDraws).value, Simulate(0.0, lossDict, baselineDraws).value)
  {
    SimulateNonEmpty(w, lossDict, mitigatedDraws);
    SimulateNonEmpty(0.0, lossDict, baselineDraws);
  }

  /** generate_monte_carlo_results(mitigation_weight): a run with the given
      mitigation weight and a baseline run with weight 0.0, each of N_ITER
      trials over its own draws, summarised against each other. None when
      either run fails. */
  function GenerateResults(w: real, lossDict: map<string, Tier>, mitigatedDraws: seq<seq<RoleDraw>>,
                           baselineDraws: seq<seq<RoleDraw>>): (out: Option<Summary>)
    requires TrialDrawsShape(mitigatedDraws) && |mitigatedDraws| == NIter
    requires TrialDrawsShape(baselineDraws) && |baselineDraws| == NIter
    ensures out.Some? <==> Simulate(w, lossDict, mitigatedDraws).Some? && Simulate(0.0, lossDict, baselineDraws).Some?
    ensures out.Some? ==>
      var b := Simulate(0.0, lossDict, baselineDraws).value;
      b.mitigationWeight == 0.0 && b.effectiveVulnerability == BaseVulnerability
    ensures out.Some? ==>
      var m := Simulate(w, lossDict, mitigatedDraws).value;
      m.mitigationWeight == w && m.effectiveVulnerability == EffectiveVulnerability(w)
    ensures out.Some? ==>
      var m := Simulate(w, lossDict, mitigatedDraws).value;
      var b := Simulate(0.0, lossDict, baselineDraws).value;
      var s := out.value;
      && s.meanEal == Mean(m.totalLoss) && s.baselineMean == Mean(b.totalLoss)
      && s.minLoss == MinOf(m.totalLoss) && s.maxLoss == MaxOf(m.totalLoss)
      && s.minLoss <= s.meanEal <= s.maxLoss
      && s.savings == s.baselineMean - s.meanEal
      && s.savingsPct == SavingsPct(s.baselineMean, s.meanEal)
    ensures out.Some? ==>
      var m := Simulate(w, lossDict, mitigatedDraws).value;
      forall r :: r in Roles ==>
        && r in out.value.roleMeanLoss && out.value.roleMeanLoss[r] == Mean(m.byRole[r])
        && r in out.value.roleMeanIncidents && out.value.roleMeanIncidents[r] == Mean(AsReals(m.incidentsByRole[r]))
        && r in out.value.roleMaxLoss && out.value.roleMaxLoss[r] == MaxOf(m.byRole[r])
  {
    var mitigated := Simulate(w, lossDict, mitigatedDraws);
    var baseline := Simulate(0.0, lossDict, baselineDraws);
    if mitigated.None? || baseline.None? then None
    else
      RunsComparable(w, lossDict, mitigatedDraws, baselineDraws);
      SimulateShape(w, lossDict, mitigatedDraws);
      SimulateShape(0.0, lossDict, baselineDraws);
      var summary := Summarize(mitigated.value, baseline.value);
      Some(summary)
  }

  /** Full mitigation: whenever the baseline completes, the report shows a
      zero expected loss, savings equal to the whole baseline mean, and 100
      percent savings when the baseline loses anything. */
  lemma FullMitigationReport(lossDict: map<string, Tier>, poa: map<Role, real>,
                             mitigatedDraws: seq<seq<RoleDraw>>, baselineDraws: seq<seq<RoleDraw>>)
    requires forall r :: r in poa
    requires RunDrawsFit(1.0, poa, mitigatedDraws) && |mitigatedDraws| == NIter
    requires TrialDrawsShape(baselineDraws) && |baselineDraws| == NIter
    requires Simulate(0.0, lossDict, baselineDraws).Some?
    ensures GenerateResults(1.0, lossDict, mitigatedDraws, baselineDraws).Some?
    ensures var s := GenerateResults(1.0, lossDict, mitigatedDraws, baselineDraws).value;
      s.meanEal == 0.0 && s.savings == s.baselineMean && (s.baselineMean > 0.0 ==> s.savingsPct == 100.0)
  {
    FullMitigationRun(lossDict, poa, mitigatedDraws);
    RunsComparable(1.0, lossDict, mitigatedDraws, baselineDraws);
    ZeroRunSavesAll(Simulate(1.0, lossDict, mitigatedDraws).value, Simulate(0.0, lossDict, baselineDraws).value);
  }
}
