/** The incident bookkeeping both analyses share: group the activity rows by
    a user-level key, mark each group that has at least one malicious day
    (`had_incident`), and take the mean of that mark over a selection of
    groups (a role, or a role in one region). */
module Incidents {

  import opened Org

  /** Every row carries a 0/1 label, as the generator writes it. */
  predicate Labelled(rows: seq<Record>) {
    forall i :: 0 <= i < |rows| ==> rows[i].isMalicious == 0 || rows[i].isMalicious == 1
  }

  /** The distinct keys of the rows: the groups a groupby forms. */
  function Groups<K(==)>(rows: seq<Record>, key: Record -> K): (g: set<K>)
    ensures forall i :: 0 <= i < |rows| ==> key(rows[i]) in g
    ensures forall k :: k in g ==> exists i :: 0 <= i < |rows| && key(rows[i]) == k
  {
    set i | 0 <= i < |rows| :: key(rows[i])
  }

  /** is_malicious summed over the rows of group k. */
  function MaliciousSum<K(==)>(rows: seq<Record>, key: Record -> K, k: K): int
    decreases |rows|
  {
    if rows == [] then 0
    else
      var last := rows[|rows| - 1];
      MaliciousSum(rows[..|rows| - 1], key, k) + (if key(last) == k then last.isMalicious else 0)
  }

  /** had_incident: int(x.sum() > 0) over the group's is_malicious column. */
  function HadIncident<K(==)>(rows: seq<Record>, key: Record -> K, k: K): (h: int)
    ensures h == 0 || h == 1
  {
    if MaliciousSum(rows, key, k) > 0 then 1 else 0
  }

  /** On labelled rows the group sum is positive exactly when one of the
      group's rows is malicious. */
  lemma {:induction false} MaliciousSumPositive<K>(rows: seq<Record>, key: Record -> K, k: K)
    requires Labelled(rows)
    ensures MaliciousSum(rows, key, k) >= 0
    ensures MaliciousSum(rows, key, k) > 0 <==>
              exists i :: 0 <= i < |rows| && key(rows[i]) == k && rows[i].isMalicious == 1
    decreases |rows|
  {
    if rows != [] {
      var init := rows[..|rows| - 1];
      assert Labelled(init);
      MaliciousSumPositive(init, key, k);
      if exists i :: 0 <= i < |init| && key(init[i]) == k && init[i].isMalicious == 1 {
        var i :| 0 <= i < |init| && key(init[i]) == k && init[i].isMalicious == 1;
        assert rows[i] == init[i];
      }
      if exists i :: 0 <= i < |rows| && key(rows[i]) == k && rows[i].isMalicious == 1 {
        var i :| 0 <= i < |rows| && key(rows[i]) == k && rows[i].isMalicious == 1;
        if i < |init| {
          assert init[i] == rows[i];
        }
      }
    }
  }

  /** A group had an incident exactly when at least one of its rows is
      malicious. */
  lemma HadIncidentIff<K>(rows: seq<Record>, key: Record -> K, k: K)
    requires Labelled(rows)
    ensures HadIncident(rows, key, k) == 1 <==>
              exists i :: 0 <= i < |rows| && key(rows[i]) == k && rows[i].isMalicious == 1
    ensures HadIncident(rows, key, k) == 0 <==>
              forall i :: 0 <= i < |rows| && key(rows[i]) == k ==> rows[i].isMalicious == 0
  {
    MaliciousSumPositive(rows, key, k);
  }

  /** The groups a selection keeps (the users of one role, say). */
  function Members<K(==)>(rows: seq<Record>, key: Record -> K, sel: K -> bool): set<K> {
    set k | k in Groups(rows, key) && sel(k)
  }

  /** The kept groups that had an incident. */
  function IncidentMembers<K(==)>(rows: seq<Record>, key: Record -> K, sel: K -> bool): (s: set<K>)
    ensures s <= Members(rows, key, sel)
  {
    set k | k in Members(rows, key, sel) && HadIncident(rows, key, k) == 1
  }

  lemma {:induction false} SubsetCard<K>(a: set<K>, b: set<K>)
    requires a <= b
    ensures |a| <= |b|
    decreases b
  {
    if a != {} {
      var x :| x in a;
      SubsetCard(a - {x}, b - {x});
    }
  }

  /** The mean of had_incident over the kept groups: the share of them that
      had an incident. With no group to average, the mean is undefined
      (pandas gives NaN), written None. */
  function IncidentRate<K(==)>(rows: seq<Record>, key: Record -> K, sel: K -> bool): (m: Option<real>)
    ensures m.None? <==> Members(rows, key, sel) == {}
    ensures m.Some? ==> 0.0 <= m.value <= 1.0
  {
    var all := Members(rows, key, sel);
    if |all| == 0 then None
    else
      SubsetCard(IncidentMembers(rows, key, sel), all);
      Some(|IncidentMembers(rows, key, sel)| as real / |all| as real)
  }

  /** The rate is the share of the kept groups that had an incident. */
  lemma IncidentRateShare<K>(rows: seq<Record>, key: Record -> K, sel: K -> bool)
    requires Members(rows, key, sel) != {}
    ensures IncidentRate(rows, key, sel).value * |Members(rows, key, sel)| as real ==
              |IncidentMembers(rows, key, sel)| as real
  {
  }

  /** A kept group that had an incident is one of the incident members. */
  lemma IncidentMember<K>(rows: seq<Record>, key: Record -> K, sel: K -> bool, k: K)
    requires k in Members(rows, key, sel) && HadIncident(rows, key, k) == 1
    ensures k in IncidentMembers(rows, key, sel)
  {
  }

  lemma UnitFactor(v: real, a: real)
    requires a > 0.0 && v * a == a
    ensures v == 1.0
  {
    assert (v - 1.0) * a == 0.0;
  }

  /** The rate is 0 exactly when no kept group had an incident. */
  lemma IncidentRateZero<K>(rows: seq<Record>, key: Record -> K, sel: K -> bool)
    requires Members(rows, key, sel) != {}
    ensures IncidentRate(rows, key, sel).value == 0.0 <==>
              forall k :: k in Members(rows, key, sel) ==> HadIncident(rows, key, k) == 0
  {
    var all := Members(rows, key, sel);
    var hit := IncidentMembers(rows, key, sel);
    IncidentRateShare(rows, key, sel);
    if IncidentRate(rows, key, sel).value == 0.0 {
      assert |hit| == 0;
      forall k | k in all ensures HadIncident(rows, key, k) == 0 {
        if HadIncident(rows, key, k) == 1 {
          IncidentMember(rows, key, sel, k);
        }
      }
    }
    if forall k :: k in all ==> HadIncident(rows, key, k) == 0 {
      assert hit == {};
    }
  }

  /** A kept group without an incident leaves the incident members short
      of all the kept groups. */
  lemma MissedMember<K>(rows: seq<Record>, key: Record -> K, sel: K -> bool, k: K)
    requires k in Members(rows, key, sel) && HadIncident(rows, key, k) == 0
    ensures |IncidentMembers(rows, key, sel)| < |Members(rows, key, sel)|
  {
    var all := Members(rows, key, sel);
    var hit := IncidentMembers(rows, key, sel);
    assert hit <= all - {k};
    SubsetCard(hit, all - {k});
  }

  /** The rate is 1 exactly when every kept group had an incident. */
  lemma IncidentRateOne<K>(rows: seq<Record>, key: Record -> K, sel: K -> bool)
    requires Members(rows, key, sel) != {}
    ensures IncidentRate(rows, key, sel).value == 1.0 <==>
              forall k :: k in Members(rows, key, sel) ==> HadIncident(rows, key, k) == 1
  {
    var all := Members(rows, key, sel);
    var hit := IncidentMembers(rows, key, sel);
    IncidentRateShare(rows, key, sel);
    if IncidentRate(rows, key, sel).value == 1.0 {
      assert |hit| == |all|;
      forall k | k in all ensures HadIncident(rows, key, k) == 1 {
        if HadIncident(rows, key, k) == 0 {
          MissedMember(rows, key, sel, k);
        }
      }
    }
    if forall k :: k in all ==> HadIncident(rows, key, k) == 1 {
      assert hit == all;
      UnitFactor(IncidentRate(rows, key, sel).value, |all| as real);
    }
  }

  /** The rate is 0 exactly when no kept group had an incident, and 1
      exactly when every kept group had one. */
  lemma IncidentRateExtremes<K>(rows: seq<Record>, key: Record -> K, sel: K -> bool)
    requires Members(rows, key, sel) != {}
    ensures IncidentRate(rows, key, sel).value == 0.0 <==>
              forall k :: k in Members(rows, key, sel) ==> HadIncident(rows, key, k) == 0
    ensures IncidentRate(rows, key, sel).value == 1.0 <==>
              forall k :: k in Members(rows, key, sel) ==> HadIncident(rows, key, k) == 1
  {
    IncidentRateZero(rows, key, sel);
    IncidentRateOne(rows, key, sel);
  }
}
