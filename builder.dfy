/** The dataset builder of the activity generator: one user per seat of the
    headcount table, then one row per user per simulated day. Identity,
    region choice and every sampled value are injected draws. */
module Builder {

  import opened Org
  import opened Calendar
  import opened Generator

  /** NUM_USERS_BY_ROLE, in dictionary order. */
  const NumUsersByRole: seq<(Role, nat)> :=
    [(CLevel, 9), (Analyst, 700), (Trader, 100), (ITAdmin, 50), (ExecAssistant, 20), (Contractor, 130)]

  const Regions: seq<Region> := [NA, EU, APAC]

  const DaysToSimulate: nat := 240

  const StartDate: Date := Date(2025, 9, 1)

  datatype User = User(userId: string, role: Role, region: Region, conscientiousness: real, neuroticism: real)

  /** The draws that create one user: uuid4().hex, random.choice(REGIONS)
      as an index, and the two standard-normal trait draws. */
  datatype UserDraws = UserDraws(uuidHex: string, regionIndex: nat, zConscientiousness: real, zNeuroticism: real)

  predicate IsHexDigit(c: char) {
    '0' <= c <= '9' || 'a' <= c <= 'f'
  }

  predicate UserDrawsFit(d: UserDraws) {
    |d.uuidHex| == 32 && (forall i :: 0 <= i < 32 ==> IsHexDigit(d.uuidHex[i])) && d.regionIndex < |Regions|
  }

  /** One entry of `users`: "BB-" and eight hex digits, the chosen region, and clamped traits. */
  function MakeUser(r: Role, d: UserDraws): (u: User)
    requires UserDrawsFit(d)
    ensures u.role == r && |u.userId| == 11 && u.userId[..3] == "BB-"
    ensures u.userId[3..] == d.uuidHex[..8] && forall i :: 3 <= i < 11 ==> IsHexDigit(u.userId[i])
    ensures u.region == Regions[d.regionIndex]
    ensures (u.conscientiousness, u.neuroticism) == GeneratePsychometrics(RoleName(r), d.zConscientiousness, d.zNeuroticism)
    ensures 0.0 <= u.conscientiousness <= 100.0 && 0.0 <= u.neuroticism <= 100.0
  {
    var traits := GeneratePsychometrics(RoleName(r), d.zConscientiousness, d.zNeuroticism);
    User("BB-" + d.uuidHex[..8], r, Regions[d.regionIndex], traits.0, traits.1)
  }

  function Repeat(r: Role, n: nat): (s: seq<Role>)
    ensures |s| == n && forall i :: 0 <= i < n ==> s[i] == r
  {
    if n == 0 then [] else Repeat(r, n - 1) + [r]
  }

  /** The role of every seat, in the order the builder creates users. */
  function SeatRoles(table: seq<(Role, nat)>): seq<Role>
    decreases |table|
  {
    if table == [] then []
    else SeatRoles(table[..|table| - 1]) + Repeat(table[|table| - 1].0, table[|table| - 1].1)
  }

  function Headcount(table: seq<(Role, nat)>): nat
    decreases |table|
  {
    if table == [] then 0 else Headcount(table[..|table| - 1]) + table[|table| - 1].1
  }

  lemma {:induction false} SeatRolesLength(table: seq<(Role, nat)>)
    ensures |SeatRoles(table)| == Headcount(table)
    decreases |table|
  {
    if table != [] {
      SeatRolesLength(table[..|table| - 1]);
    }
  }

  lemma {:induction false} RepeatMultiset(r: Role, n: nat)
    ensures multiset(Repeat(r, n)) == multiset{}[r := n]
    decreases n
  {
    if n > 0 {
      RepeatMultiset(r, n - 1);
    }
  }

  /** How many seats of role r the table lists. */
  function CountFor(table: seq<(Role, nat)>, r: Role): nat
    decreases |table|
  {
    if table == [] then 0
    else CountFor(table[..|table| - 1], r) + (if table[|table| - 1].0 == r then table[|table| - 1].1 else 0)
  }

  /** Each role occurs among the seats exactly as often as the table lists it. */
  lemma {:induction false} SeatRolesCount(table: seq<(Role, nat)>, r: Role)
    ensures multiset(SeatRoles(table))[r] == CountFor(table, r)
    decreases |table|
  {
    if table != [] {
      SeatRolesCount(table[..|table| - 1], r);
      var last := table[|table| - 1];
      RepeatMultiset(last.0, last.1);
    }
  }

  /** The sums over NUM_USERS_BY_ROLE, prefix by prefix. */
  lemma NumUsersByRoleSums(r: Role)
    ensures Headcount(NumUsersByRole) == 1009
    ensures CountFor(NumUsersByRole, r) == RoleHeadcount(r)
  {
    var t := NumUsersByRole;
    var empty: seq<(Role, nat)> := [];
    assert t[..1][..0] == empty;
    assert Headcount(t[..1]) == 9;
    assert CountFor(t[..1], r) == if r == CLevel then 9 else 0;
    assert t[..2][..1] == t[..1];
    assert Headcount(t[..2]) == 709;
    assert CountFor(t[..2], r) == if r == CLevel then 9 else if r == Analyst then 700 else 0;
    assert t[..3][..2] == t[..2];
    assert Headcount(t[..3]) == 809;
    assert CountFor(t[..3], r) == CountFor(t[..2], r) + if r == Trader then 100 else 0;
    assert t[..4][..3] == t[..3];
    assert Headcount(t[..4]) == 859;
    assert CountFor(t[..4], r) == CountFor(t[..3], r) + if r == ITAdmin then 50 else 0;
    assert t[..5][..4] == t[..4];
    assert Headcount(t[..5]) == 879;
    assert CountFor(t[..5], r) == CountFor(t[..4], r) + if r == ExecAssistant then 20 else 0;
    assert t[..6][..5] == t[..5] && t[..6] == t;
    assert CountFor(t, r) == CountFor(t[..5], r) + if r == Contractor then 130 else 0;
  }

  /** The users list holds 1009 users, and each role has exactly its
      ROLE_HEADCOUNT seats. */
  lemma SeatsMatchHeadcount()
    ensures |SeatRoles(NumUsersByRole)| == 1009
    ensures forall r :: multiset(SeatRoles(NumUsersByRole))[r] == RoleHeadcount(r)
  {
    SeatRolesLength(NumUsersByRole);
    NumUsersByRoleSums(CLevel);
    forall r ensures multiset(SeatRoles(NumUsersByRole))[r] == RoleHeadcount(r) {
      SeatRolesCount(NumUsersByRole, r);
      NumUsersByRoleSums(r);
    }
  }

  /** A prefix of the headcount table seats a prefix of the users. */
  lemma SeatsPrefix(table: seq<(Role, nat)>, n: nat)
    requires n <= |table|
    ensures |SeatRoles(table[..n])| <= |SeatRoles(table)|
    ensures SeatRoles(table[..n]) == SeatRoles(table)[..|SeatRoles(table[..n])|]
    decreases |table| - n
  {
    if n < |table| {
      SeatsPrefix(table, n + 1);
      assert table[..n + 1][..n] == table[..n];
    } else {
      assert table[..n] == table;
    }
  }

  /** The inner user loop: `count` users of one role, each from the next
      unused draw. */
  method AddRoleUsers(users: seq<User>, role: Role, count: nat, draws: seq<UserDraws>)
    returns (out: seq<User>)
    requires |users| + count <= |draws|
    requires forall k :: 0 <= k < |draws| ==> UserDrawsFit(draws[k])
    ensures |out| == |users| + count && out[..|users|] == users
    ensures forall j :: |users| <= j < |out| ==> out[j] == MakeUser(role, draws[j])
  {
    out := users;
    var j := 0;
    while j < count
      invariant 0 <= j <= count
      invariant |out| == |users| + j && out[..|users|] == users
      invariant forall k :: |users| <= k < |out| ==> out[k] == MakeUser(role, draws[k])
    {
      var d := draws[|out|];
      out := out + [MakeUser(role, d)];
      j := j + 1;
    }
  }

  /** The user-building loop: for each role in table order, `count` users. */
  method BuildUsers(draws: seq<UserDraws>) returns (users: seq<User>)
    requires |draws| == |SeatRoles(NumUsersByRole)|
    requires forall k :: 0 <= k < |draws| ==> UserDrawsFit(draws[k])
    ensures |users| == |draws|
    ensures forall k :: 0 <= k < |users| ==> users[k] == MakeUser(SeatRoles(NumUsersByRole)[k], draws[k])
  {
    var table := NumUsersByRole;
    users := [];
    var i := 0;
    while i < |table|
      invariant 0 <= i <= |table|
      invariant |users| == |SeatRoles(table[..i])| <= |draws|
      invariant forall k :: 0 <= k < |users| ==> users[k] == MakeUser(SeatRoles(table[..i])[k], draws[k])
    {
      SeatsPrefix(table, i + 1);
      var (role, count) := table[i];
      ghost var seats := SeatRoles(table[..i]);
      assert table[..i + 1][..i] == table[..i];
      assert SeatRoles(table[..i + 1]) == seats + Repeat(role, count);
      ghost var prev := users;
      users := AddRoleUsers(users, role, count, draws);
      forall k | 0 <= k < |users|
        ensures users[k] == MakeUser(SeatRoles(table[..i + 1])[k], draws[k])
      {
        if k < |prev| {
          assert users[k] == users[..|prev|][k];
        }
      }
      i := i + 1;
    }
    assert table[..i] == table;
  }

  // ---- one user-day ----

  /** The draws of one user-day: a standard-normal draw per feature,
      random.random() for the HR flag and for the decision, and the randint
      spike draws (only read on a malicious day). */
  datatype DayDraws = DayDraws(normals: Feature -> real, hrUniform: real, decisionUniform: real, spikes: seq<int>)

  predicate DayDrawsFit(r: Role, d: DayDraws) {
    0.0 <= d.hrUniform < 1.0 && 0.0 <= d.decisionUniform < 1.0 && SpikeDrawsFit(r, d.spikes)
  }

  /** nonnegative_int(np.random.normal(base[f], std[f])), the normal draw
      written as mean + std * z. */
  function SampleFeature(r: Role, f: Feature, z: real): int {
    NonnegativeInt(BehaviorMean(r, f) + BehaviorStd(r, f) * z)
  }

  /** The nine sampled counters of a user-day: never negative, each the
      rounded normal draw of its own feature. */
  function SampleCounters(r: Role, z: Feature -> real): (c: Counters)
    ensures c.NonNegative()
    ensures forall f :: c.Get(f) == SampleFeature(r, f, z(f))
  {
    Counters(
      SampleFeature(r, AfterHoursLogons, z(AfterHoursLogons)),
      SampleFeature(r, SensitiveFileReads, z(SensitiveFileReads)),
      SampleFeature(r, UsbDeviceMounts, z(UsbDeviceMounts)),
      SampleFeature(r, ExternalEmailsSent, z(ExternalEmailsSent)),
      SampleFeature(r, EmailsWithAttachments, z(EmailsWithAttachments)),
      SampleFeature(r, CloudUploadEvents, z(CloudUploadEvents)),
      SampleFeature(r, FailedLogins, z(FailedLogins)),
      SampleFeature(r, FilesDeleted, z(FilesDeleted)),
      SampleFeature(r, HttpCompetitorVisits, z(HttpCompetitorVisits)))
  }

  /** is_hr_flagged: 1 when the uniform draw falls below the role's HR chance. */
  function HrFlag(r: Role, uniform: real): (flag: int)
    ensures flag == 0 || flag == 1
    ensures flag == 1 <==> uniform < HrFlagChance(r)
  {
    if uniform < HrFlagChance(r) then 1 else 0
  }

  /** start_date + timedelta(days=offset), formatted "%Y-%m-%d". */
  function DayString(offset: nat): string
    requires offset < DaysToSimulate
  {
    AddDaysOrdinal(StartDate, offset);
    FormatDate(AddDays(StartDate, offset))
  }

  /** The dataset row of user u on day `offset`. */
  function DayRecord(u: User, offset: nat, d: DayDraws): Record
    requires offset < DaysToSimulate && DayDrawsFit(u.role, d)
  {
    var pre := SampleCounters(u.role, d.normals);
    var hr := HrFlag(u.role, d.hrUniform);
    var mal := IsMaliciousDay(u.role, pre, u.conscientiousness, u.neuroticism, hr, d.decisionUniform);
    var post := if mal then Spiked(pre, SpikeTable(u.role), d.spikes) else pre;
    Record(u.userId, u.role, u.region, DayString(offset), post, hr,
           u.conscientiousness, u.neuroticism, if mal then 1 else 0)
  }

  /** The day column of a row reads back as the start date plus the offset. */
  lemma DayRecordDay(u: User, offset: nat, d: DayDraws)
    requires offset < DaysToSimulate && DayDrawsFit(u.role, d)
    ensures Valid(AddDays(StartDate, offset))
    ensures Ordinal(AddDays(StartDate, offset)) == Ordinal(StartDate) + offset
    ensures ParseDate(DayRecord(u, offset, d).day) == Some(AddDays(StartDate, offset))
  {
    AddDaysOrdinal(StartDate, offset);
    FormatDateRoundTrip(AddDays(StartDate, offset));
  }

  /** The label of a row is the decision rule applied to its pre-injection
      counters; both flags are 0 or 1; the counters are non-negative; and a
      day that is not malicious keeps its sampled counters. */
  lemma DayRecordLabel(u: User, offset: nat, d: DayDraws)
    requires offset < DaysToSimulate && DayDrawsFit(u.role, d)
    ensures var rec := DayRecord(u, offset, d);
      && (rec.isHrFlagged == 0 || rec.isHrFlagged == 1)
      && (rec.isMalicious == 0 || rec.isMalicious == 1)
      && rec.counters.NonNegative()
      && (rec.isMalicious == 1 <==>
            d.decisionUniform < DailyProbability(u.role,
              StressFactor(u.neuroticism, rec.isHrFlagged == 1, u.conscientiousness),
              Opportunity(ProfileOf(u.role), SampleCounters(u.role, d.normals))))
      && (rec.isMalicious == 0 ==> rec.counters == SampleCounters(u.role, d.normals))
  {
    MaliciousSpikeEffect(u.role, SampleCounters(u.role, d.normals), d.spikes);
  }

  /** Two different offsets never share a day string. */
  lemma DayStringsDistinct(i: nat, j: nat)
    requires i < DaysToSimulate && j < DaysToSimulate && i != j
    ensures DayString(i) != DayString(j)
  {
    AddDaysOrdinal(StartDate, i);
    AddDaysOrdinal(StartDate, j);
    AddDaysInjective(StartDate, i, j);
    if DayString(i) == DayString(j) {
      FormatDateInjective(AddDays(StartDate, i), AddDays(StartDate, j));
    }
  }

  /** One pass of the day loop: sample, flag, assemble the pre-injection
      row, decide and inject, then label the row. */
  method SimulateDay(u: User, offset: nat, d: DayDraws) returns (rec: Record)
    requires offset < DaysToSimulate && DayDrawsFit(u.role, d)
    ensures rec == DayRecord(u, offset, d)
  {
    var day := DayString(offset);
    var counters := SampleCounters(u.role, d.normals);
    var isHrFlagged := if d.hrUniform < HrFlagChance(u.role) then 1 else 0;
    var row := new DayRow(u.userId, u.role, u.region, day, counters, isHrFlagged,
                          u.conscientiousness, u.neuroticism);
    var isMal := DecideAndInjectMalicious(row, u.conscientiousness, u.neuroticism, isHrFlagged,
                                          d.decisionUniform, d.spikes);
    row.isMalicious := if isMal then 1 else 0;
    rec := row.Snapshot();
  }

  // ---- the whole dataset ----

  predicate DrawsFit(users: seq<User>, draws: seq<seq<DayDraws>>) {
    |draws| == |users|
    && forall i :: 0 <= i < |users| ==>
         |draws[i]| == DaysToSimulate && forall k :: 0 <= k < DaysToSimulate ==> DayDrawsFit(users[i].role, draws[i][k])
  }

  /** The rows of one user for the offsets 0 .. |ds|-1. */
  function UserRows(u: User, ds: seq<DayDraws>): (rows: seq<Record>)
    requires |ds| <= DaysToSimulate
    requires forall k :: 0 <= k < |ds| ==> DayDrawsFit(u.role, ds[k])
    ensures |rows| == |ds|
    decreases |ds|
  {
    if ds == [] then [] else UserRows(u, ds[..|ds| - 1]) + [DayRecord(u, |ds| - 1, ds[|ds| - 1])]
  }

  /** The blocks laid end to end. */
  function Concat<T>(blocks: seq<seq<T>>): seq<T>
    decreases |blocks|
  {
    if blocks == [] then [] else Concat(blocks[..|blocks| - 1]) + blocks[|blocks| - 1]
  }

  lemma ConcatStep<T>(blocks: seq<seq<T>>, i: nat)
    requires i < |blocks|
    ensures Concat(blocks[..i + 1]) == Concat(blocks[..i]) + blocks[i]
  {
    assert blocks[..i + 1][..i] == blocks[..i];
  }

  /** With every block w long, the blocks fill w * |blocks| places and
      place i * w + k holds element k of block i. */
  lemma {:induction false} ConcatAt<T>(blocks: seq<seq<T>>, w: nat, i: nat, k: nat)
    requires forall j :: 0 <= j < |blocks| ==> |blocks[j]| == w
    requires i < |blocks| && k < w
    ensures |Concat(blocks)| == |blocks| * w
    ensures i * w + k < |Concat(blocks)| && Concat(blocks)[i * w + k] == blocks[i][k]
    decreases |blocks|
  {
    var n := |blocks| - 1;
    var front := blocks[..n];
    ConcatLength(front, w);
    assert |Concat(front)| == n * w;
    if i < n {
      ConcatAt(front, w, i, k);
      assert i * w + k < n * w;
    } else {
      assert i == n;
    }
  }

  lemma {:induction false} ConcatLength<T>(blocks: seq<seq<T>>, w: nat)
    requires forall j :: 0 <= j < |blocks| ==> |blocks[j]| == w
    ensures |Concat(blocks)| == |blocks| * w
    decreases |blocks|
  {
    if blocks != [] {
      var n := |blocks| - 1;
      ConcatLength(blocks[..n], w);
      assert |blocks| * w == n * w + w;
    }
  }

  /** The rows of each user, user after user. */
  function UserBlocks(users: seq<User>, draws: seq<seq<DayDraws>>): (b: seq<seq<Record>>)
    requires DrawsFit(users, draws)
    ensures |b| == |users|
  {
    seq(|users|, i requires 0 <= i < |users| => UserRows(users[i], draws[i]))
  }

  /** All rows: every user's days, user after user. */
  function Dataset(users: seq<User>, draws: seq<seq<DayDraws>>): seq<Record>
    requires DrawsFit(users, draws)
  {
    Concat(UserBlocks(users, draws))
  }

  lemma {:induction false} UserRowsAt(u: User, ds: seq<DayDraws>, k: nat)
    requires |ds| <= DaysToSimulate
    requires forall j :: 0 <= j < |ds| ==> DayDrawsFit(u.role, ds[j])
    requires k < |ds|
    ensures UserRows(u, ds)[k] == DayRecord(u, k, ds[k])
    decreases |ds|
  {
    if k < |ds| - 1 {
      UserRowsAt(u, ds[..|ds| - 1], k);
    } else if |ds| > 1 {
      UserRowsAt(u, ds[..|ds| - 1], 0);
    }
  }

  lemma UserRowsStep(u: User, ds: seq<DayDraws>, k: nat)
    requires k < |ds| <= DaysToSimulate
    requires forall j :: 0 <= j < |ds| ==> DayDrawsFit(u.role, ds[j])
    ensures UserRows(u, ds[..k + 1]) == UserRows(u, ds[..k]) + [DayRecord(u, k, ds[k])]
  {
    assert ds[..k + 1][..k] == ds[..k];
  }

  /** Every user contributes 240 rows. */
  lemma UserBlocksLength(users: seq<User>, draws: seq<seq<DayDraws>>)
    requires DrawsFit(users, draws)
    ensures forall j :: 0 <= j < |users| ==> |UserBlocks(users, draws)[j]| == 240
  {
  }

  /** The dataset has exactly one row per user per offset 0..239, and row
      i * 240 + k is user i on day k. */
  lemma DatasetAt(users: seq<User>, draws: seq<seq<DayDraws>>, i: nat, k: nat)
    requires DrawsFit(users, draws)
    requires i < |users| && k < DaysToSimulate
    ensures |Dataset(users, draws)| == |users| * 240
    ensures Dataset(users, draws)[i * 240 + k] == DayRecord(users[i], k, draws[i][k])
  {
    UserBlocksLength(users, draws);
    ConcatAt(UserBlocks(users, draws), 240, i, k);
    UserRowsAt(users[i], draws[i], k);
  }

  /** The day loop of one user: one simulated day per offset, in order. */
  method SimulateUser(u: User, ds: seq<DayDraws>) returns (userRows: seq<Record>)
    requires |ds| == DaysToSimulate
    requires forall k :: 0 <= k < |ds| ==> DayDrawsFit(u.role, ds[k])
    ensures userRows == UserRows(u, ds)
  {
    userRows := [];
    var dayOffset := 0;
    while dayOffset < DaysToSimulate
      invariant 0 <= dayOffset <= DaysToSimulate
      invariant userRows == UserRows(u, ds[..dayOffset])
    {
      var rec := SimulateDay(u, dayOffset, ds[dayOffset]);
      UserRowsStep(u, ds, dayOffset);
      userRows := userRows + [rec];
      dayOffset := dayOffset + 1;
    }
    assert ds[..dayOffset] == ds;
  }

  /** The row-building loop: for each user, for each day offset, one
      simulated day appended to the rows. */
  method BuildRows(users: seq<User>, draws: seq<seq<DayDraws>>) returns (rows: seq<Record>)
    requires DrawsFit(users, draws)
    ensures rows == Dataset(users, draws)
  {
    ghost var blocks := UserBlocks(users, draws);
    rows := [];
    var i := 0;
    while i < |users|
      invariant 0 <= i <= |users|
      invariant rows == Concat(blocks[..i])
    {
      ConcatStep(blocks, i);
      var userRows := SimulateUser(users[i], draws[i]);
      rows := rows + userRows;
      i := i + 1;
    }
    assert blocks[..i] == blocks;
  }

  /** The roles of a list of users, in order. */
  function RolesOf(users: seq<User>): (roles: seq<Role>)
    ensures |roles| == |users| && forall k :: 0 <= k < |users| ==> roles[k] == users[k].role
  {
    if users == [] then [] else RolesOf(users[..|users| - 1]) + [users[|users| - 1].role]
  }

  /** The whole generator run: 1009 users with ROLE_HEADCOUNT seats per
      role, then one row per user per day, 1009 * 240 rows in all. */
  method BuildDataset(userDraws: seq<UserDraws>, dayDraws: seq<seq<DayDraws>>)
    returns (users: seq<User>, rows: seq<Record>)
    requires |userDraws| == 1009
    requires forall k :: 0 <= k < |userDraws| ==> UserDrawsFit(userDraws[k])
    requires |dayDraws| == 1009
    requires forall i :: 0 <= i < |dayDraws| ==> |dayDraws[i]| == DaysToSimulate
    requires forall i, k :: 0 <= i < |SeatRoles(NumUsersByRole)| && 0 <= i < |dayDraws| && 0 <= k < DaysToSimulate ==>
               DayDrawsFit(SeatRoles(NumUsersByRole)[i], dayDraws[i][k])
    ensures |users| == 1009 && |rows| == 1009 * 240
    ensures |SeatRoles(NumUsersByRole)| == 1009
    ensures forall k :: 0 <= k < 1009 ==> users[k] == MakeUser(SeatRoles(NumUsersByRole)[k], userDraws[k])
    ensures forall r :: multiset(RolesOf(users))[r] == RoleHeadcount(r)
    ensures DrawsFit(users, dayDraws) && rows == Dataset(users, dayDraws)
  {
    SeatsMatchHeadcount();
    users := BuildUsers(userDraws);
    assert RolesOf(users) == SeatRoles(NumUsersByRole);
    rows := BuildRows(users, dayDraws);
    UserBlocksLength(users, dayDraws);
    ConcatLength(UserBlocks(users, dayDraws), 240);
  }
}
