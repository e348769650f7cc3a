/** The dashboard's mitigation selection: the table of security controls
    read from the solutions sheet (each with a lookup key, a cost and a
    mitigation weight), and the total weight and cost of the controls a
    user has ticked. */
module App {

  // ---- str.strip() ----

  /** The characters Python's str.isspace() accepts. */
  predicate IsSpace(c: char) {
    || ('\t' <= c <= '\r')
    || ('\U{1C}' <= c <= '\U{1F}')
    || c == ' ' || c == '\U{85}' || c == '\U{A0}' || c == '\U{1680}'
    || ('\U{2000}' <= c <= '\U{200A}')
    || c == '\U{2028}' || c == '\U{2029}' || c == '\U{202F}' || c == '\U{205F}' || c == '\U{3000}'
  }

  predicate AllSpace(s: string) {
    forall k :: 0 <= k < |s| ==> IsSpace(s[k])
  }

  /** str.lstrip(): s without its leading whitespace. */
  function StripLeft(s: string): (t: string)
    ensures |t| <= |s|
    ensures t != [] ==> !IsSpace(t[0])
    decreases |s|
  {
    if s != [] && IsSpace(s[0]) then StripLeft(s[1..]) else s
  }

  /** str.rstrip(): s without its trailing whitespace. */
  function StripRight(s: string): (t: string)
    ensures |t| <= |s|
    ensures t != [] ==> !IsSpace(t[|t| - 1])
    decreases |s|
  {
    if s != [] && IsSpace(s[|s| - 1]) then StripRight(s[..|s| - 1]) else s
  }

  /** lstrip() keeps a suffix of s. */
  lemma {:induction false} StripLeftSuffix(s: string)
    ensures StripLeft(s) == s[|s| - |StripLeft(s)|..]
    decreases |s|
  {
    if s != [] && IsSpace(s[0]) {
      StripLeftSuffix(s[1..]);
    }
  }

  /** rstrip() keeps a prefix of s. */
  lemma {:induction false} StripRightPrefix(s: string)
    ensures StripRight(s) == s[..|StripRight(s)|]
    decreases |s|
  {
    if s != [] && IsSpace(s[|s| - 1]) {
      StripRightPrefix(s[..|s| - 1]);
    }
  }

  /** str.strip(): s without its leading and trailing whitespace. */
  function Strip(s: string): (t: string)
    ensures t != [] ==> !IsSpace(t[0]) && !IsSpace(t[|t| - 1])
  {
    var t := StripRight(StripLeft(s));
    StripRightPrefix(StripLeft(s));
    assert t != [] ==> t[0] == StripLeft(s)[0];
    t
  }

  /** What lstrip() removes is whitespace. */
  lemma {:induction false} StripLeftRemovesSpace(s: string)
    ensures AllSpace(s[..|s| - |StripLeft(s)|])
    decreases |s|
  {
    if s != [] && IsSpace(s[0]) {
      StripLeftRemovesSpace(s[1..]);
      var n := |s| - |StripLeft(s)|;
      assert forall k :: 1 <= k < n ==> s[..n][k] == s[1..][..n - 1][k - 1];
    }
  }

  /** What rstrip() removes is whitespace. */
  lemma {:induction false} StripRightRemovesSpace(s: string)
    ensures AllSpace(s[|StripRight(s)|..])
    decreases |s|
  {
    if s != [] && IsSpace(s[|s| - 1]) {
      var init := s[..|s| - 1];
      StripRightRemovesSpace(init);
      assert s[|StripRight(s)|..] == init[|StripRight(init)|..] + [s[|s| - 1]];
    }
  }

  /** The stripped name is the middle of the name, and what surrounds it
      is whitespace. */
  lemma StripIsMiddle(s: string)
    ensures var t := Strip(s);
      exists i :: 0 <= i <= |s| - |t| && s[i..i + |t|] == t && AllSpace(s[..i]) && AllSpace(s[i + |t|..])
  {
    var rest := StripLeft(s);
    var t := StripRight(rest);
    var a := |s| - |rest|;
    StripLeftSuffix(s);
    StripRightPrefix(rest);
    StripLeftRemovesSpace(s);
    StripRightRemovesSpace(rest);
    assert s[a..a + |t|] == t;
    assert s[a + |t|..] == rest[|t|..];
  }

  /** Stripping a stripped name changes nothing. */
  lemma StripIdempotent(s: string)
    ensures Strip(Strip(s)) == Strip(s)
  {
    var t := Strip(s);
    assert StripLeft(t) == t;
    assert StripRight(t) == t;
  }

  // ---- the lookup key ----

  predicate IsKeyChar(c: char) {
    ('a' <= c <= 'z') || ('0' <= c <= '9')
  }

  /** A key: nothing but lower-case ASCII letters and ASCII digits. */
  predicate IsKey(s: string) {
    forall k :: 0 <= k < |s| ==> IsKeyChar(s[k])
  }

  /** What one character becomes under lower() followed by removing every
      character outside [a-z0-9]. Upper-case ASCII letters are lowered and
      kept; ASCII letters and digits stay; the Kelvin sign lowers to 'k'
      and the dotted capital I to 'i' plus a combining dot, which the
      filter drops; every other character lowers to something outside
      [a-z0-9] and is dropped. */
  function KeyPart(c: char): (p: string)
    ensures IsKey(p) && |p| <= 1
    ensures IsKeyChar(c) ==> p == [c]
    ensures 'A' <= c <= 'Z' ==> p == [(c as int + 32) as char]
    ensures !IsKeyChar(c) && !('A' <= c <= 'Z') && c != '\U{212A}' && c != '\U{0130}' ==> p == ""
  {
    if 'A' <= c <= 'Z' then [(c as int + 32) as char]
    else if IsKeyChar(c) then [c]
    else if c == '\U{212A}' then "k"
    else if c == '\U{0130}' then "i"
    else ""
  }

  /** re.sub(r"[^a-z0-9]", "", name.lower()) */
  function NormalizeKey(name: string): (key: string)
    ensures IsKey(key)
    ensures |key| <= |name|
    decreases |name|
  {
    if name == [] then ""
    else NormalizeKey(name[..|name| - 1]) + KeyPart(name[|name| - 1])
  }

  /** Normalising works character by character. */
  lemma {:induction false} NormalizeKeyAppend(a: string, b: string)
    ensures NormalizeKey(a + b) == NormalizeKey(a) + NormalizeKey(b)
    decreases |b|
  {
    if b == [] {
      assert a + b == a;
    } else {
      var n := |b| - 1;
      assert (a + b)[..|a + b| - 1] == a + b[..n];
      NormalizeKeyAppend(a, b[..n]);
    }
  }

  /** A key normalises to itself, and only a key does. */
  lemma {:induction false} NormalizeKeyFixpoint(s: string)
    ensures NormalizeKey(s) == s <==> IsKey(s)
    decreases |s|
  {
    if s != [] && IsKey(s) {
      var init := s[..|s| - 1];
      assert IsKey(init);
      NormalizeKeyFixpoint(init);
    }
  }

  /** ASCII lower-casing of one character: an ASCII capital maps to its
      small letter, and every other character is left as it is. This is
      not str.lower(), which also maps non-ASCII capitals ('É' to 'é'),
      depends on context (final sigma) and can lengthen a string (U+0130).
      Outside the Kelvin sign and U+0130, every such difference gives a
      character outside [a-z0-9], which the key filter drops either way. */
  function AsciiLowerChar(c: char): (l: char)
    ensures 'A' <= c <= 'Z' ==> l == (c as int + 32) as char && 'a' <= l <= 'z'
    ensures !('A' <= c <= 'Z') ==> l == c
  {
    if 'A' <= c <= 'Z' then (c as int + 32) as char else c
  }

  /** ASCII lower-casing of a string, character by character. */
  function AsciiLower(s: string): (t: string)
    ensures |t| == |s| && forall k :: 0 <= k < |s| ==> t[k] == AsciiLowerChar(s[k])
  {
    seq(|s|, k requires 0 <= k < |s| => AsciiLowerChar(s[k]))
  }

  /** re.sub(r"[^a-z0-9]", "", s): keep the characters in [a-z0-9], in order. */
  function KeepKeyChars(s: string): (t: string)
    ensures IsKey(t) && |t| <= |s|
    ensures IsKey(s) ==> t == s
    decreases |s|
  {
    if s == [] then ""
    else if IsKeyChar(s[0]) then [s[0]] + KeepKeyChars(s[1..])
    else KeepKeyChars(s[1..])
  }

  /** No Kelvin sign and no capital I with dot above: the two characters
      whose lower-case form contains a letter of [a-z] although they are
      not ASCII. */
  predicate NoSpecialCapitals(s: string) {
    forall k :: 0 <= k < |s| ==> s[k] != '\U{212A}' && s[k] != '\U{0130}'
  }

  lemma {:induction false} KeepKeyCharsAppend(a: string, b: string)
    ensures KeepKeyChars(a + b) == KeepKeyChars(a) + KeepKeyChars(b)
    decreases |a|
  {
    if a != [] {
      assert (a + b)[1..] == a[1..] + b;
      KeepKeyCharsAppend(a[1..], b);
    } else {
      assert a + b == b;
    }
  }

  /** One character: ASCII lowering then filtering is what KeyPart gives. */
  lemma KeyPartIsLowerThenFilter(c: char)
    requires c != '\U{212A}' && c != '\U{0130}'
    ensures KeyPart(c) == KeepKeyChars([AsciiLowerChar(c)])
  {
    assert [AsciiLowerChar(c)][1..] == [];
  }

  /** The key is the ASCII-lowered name with every character outside
      [a-z0-9] removed, for every name without the two special capitals. */
  lemma {:induction false} NormalizeKeyIsLowerThenFilter(name: string)
    requires NoSpecialCapitals(name)
    ensures NormalizeKey(name) == KeepKeyChars(AsciiLower(name))
    decreases |name|
  {
    if name != [] {
      var n := |name| - 1;
      var init := name[..n];
      assert NoSpecialCapitals(init);
      NormalizeKeyIsLowerThenFilter(init);
      assert AsciiLower(name) == AsciiLower(init) + [AsciiLowerChar(name[n])];
      KeepKeyCharsAppend(AsciiLower(init), [AsciiLowerChar(name[n])]);
      KeyPartIsLowerThenFilter(name[n]);
    }
  }

  /** Normalising a key again leaves it unchanged. */
  lemma NormalizeKeyIdempotent(name: string)
    ensures NormalizeKey(NormalizeKey(name)) == NormalizeKey(name)
  {
    NormalizeKeyFixpoint(NormalizeKey(name));
  }

  // ---- the solutions table ----

  /** A row of the solutions sheet, its fields already converted: column 1
      is the name, column 2 the mitigation percentage, column 3 the cost. */
  datatype SolutionRow = SolutionRow(name: string, percent: real, cost: int)

  /** One entry of SOFTWARE_SOLUTIONS. */
  datatype Solution = Solution(key: string, cost: int, weight: real)

  /** A Python dict: its keys in insertion order and its entries. */
  datatype Solutions = Solutions(order: seq<string>, entries: map<string, Solution>)

  /** The keys are listed once each and are exactly the entries' keys. */
  predicate Valid(d: Solutions) {
    && (forall i, j :: 0 <= i < j < |d.order| ==> d.order[i] != d.order[j])
    && (forall n :: n in d.entries ==> n in d.order)
    && (forall i :: 0 <= i < |d.order| ==> d.order[i] in d.entries)
  }

  /** d[name] = v: an existing name keeps its place, a new one goes last. */
  function Insert(d: Solutions, name: string, v: Solution): (e: Solutions)
    requires Valid(d)
    ensures Valid(e)
    ensures e.entries == d.entries[name := v]
    ensures name in d.entries ==> e.order == d.order
    ensures name !in d.entries ==> e.order == d.order + [name]
  {
    if name in d.entries then Solutions(d.order, d.entries[name := v])
    else Solutions(d.order + [name], d.entries[name := v])
  }

  /** The entry a row produces. */
  function SolutionOf(row: SolutionRow): (s: Solution)
    ensures IsKey(s.key)
    ensures s.cost == row.cost
  {
    Solution(NormalizeKey(Strip(row.name)), row.cost, row.percent / 100.0)
  }

  /** The weight is the percentage as a fraction. */
  lemma SolutionWeight(row: SolutionRow)
    ensures SolutionOf(row).weight * 100.0 == row.percent
    ensures row.percent <= 100.0 ==> SolutionOf(row).weight <= 1.0
  {
  }

  /** The entries after the given rows: each row's stripped name mapped to
      its entry, later rows overwriting earlier ones. */
  function LoadedEntries(rows: seq<SolutionRow>): map<string, Solution>
    decreases |rows|
  {
    if rows == [] then map[]
    else
      var last := rows[|rows| - 1];
      LoadedEntries(rows[..|rows| - 1])[Strip(last.name) := SolutionOf(last)]
  }

  /** The table after the loop has read the given rows. */
  function Loaded(rows: seq<SolutionRow>): (d: Solutions)
    ensures Valid(d)
    ensures d.entries == LoadedEntries(rows)
    decreases |rows|
  {
    if rows == [] then Solutions([], map[])
    else
      var last := rows[|rows| - 1];
      Insert(Loaded(rows[..|rows| - 1]), Strip(last.name), SolutionOf(last))
  }

  lemma LoadedStep(rows: seq<SolutionRow>, i: nat)
    requires i < |rows|
    ensures Loaded(rows[..i + 1]) == Insert(Loaded(rows[..i]), Strip(rows[i].name), SolutionOf(rows[i]))
  {
    assert rows[..i + 1][..i] == rows[..i];
  }

  /** load_software_solutions over the data rows of the sheet. */
  method LoadSoftwareSolutions(rows: seq<SolutionRow>) returns (softwareSolutions: Solutions)
    ensures softwareSolutions == Loaded(rows)
  {
    softwareSolutions := Solutions([], map[]);
    var i := 0;
    while i < |rows|
      invariant 0 <= i <= |rows|
      invariant softwareSolutions == Loaded(rows[..i])
    {
      LoadedStep(rows, i);
      var row := rows[i];
      var name := Strip(row.name);
      var weight := row.percent / 100.0;
      var cost := row.cost;
      var key := NormalizeKey(name);
      var entry := Solution(key, cost, weight);
      assert entry == SolutionOf(row);
      if name in softwareSolutions.entries {
        softwareSolutions := softwareSolutions.(entries := softwareSolutions.entries[name := entry]);
      } else {
        softwareSolutions := Solutions(softwareSolutions.order + [name], softwareSolutions.entries[name := entry]);
      }
      i := i + 1;
    }
    assert rows[..i] == rows;
  }

  /** The table has an entry for a name exactly when some row carries that
      name once stripped. */
  lemma {:induction false} LoadedNames(rows: seq<SolutionRow>, name: string)
    ensures name in LoadedEntries(rows) <==> exists i :: 0 <= i < |rows| && Strip(rows[i].name) == name
    decreases |rows|
  {
    if rows != [] {
      var n := |rows| - 1;
      var init := rows[..n];
      var last := Strip(rows[n].name);
      LoadedNames(init, name);
      if name == last {
        assert Strip(rows[n].name) == name;
      } else {
        if exists i :: 0 <= i < n && Strip(init[i].name) == name {
          var i :| 0 <= i < n && Strip(init[i].name) == name;
          assert rows[i] == init[i];
        }
        if exists i :: 0 <= i < |rows| && Strip(rows[i].name) == name {
          var i :| 0 <= i < |rows| && Strip(rows[i].name) == name;
          assert i != n;
          assert init[i] == rows[i];
        }
      }
    }
  }

  /** A name's entry comes from the last row carrying it: a later row with
      the same name overwrites an earlier one. */
  lemma {:induction false} LoadedLastWins(rows: seq<SolutionRow>, i: nat)
    requires i < |rows|
    requires forall j :: i < j < |rows| ==> Strip(rows[j].name) != Strip(rows[i].name)
    ensures Strip(rows[i].name) in LoadedEntries(rows)
    ensures LoadedEntries(rows)[Strip(rows[i].name)] == SolutionOf(rows[i])
    decreases |rows|
  {
    var n := |rows| - 1;
    var init := rows[..n];
    if i < n {
      assert init[i] == rows[i];
      forall j | i < j < n
        ensures Strip(init[j].name) != Strip(init[i].name)
      {
        assert init[j] == rows[j];
      }
      LoadedLastWins(init, i);
      assert Strip(rows[n].name) != Strip(rows[i].name);
    } else {
      assert i == n;
    }
  }

  /** Every entry's key is its own name normalised, so it is a key. */
  lemma {:induction false} LoadedKeys(rows: seq<SolutionRow>, name: string)
    requires name in LoadedEntries(rows)
    ensures LoadedEntries(rows)[name].key == NormalizeKey(name)
    ensures IsKey(LoadedEntries(rows)[name].key)
    decreases |rows|
  {
    var n := |rows| - 1;
    var init := rows[..n];
    if name != Strip(rows[n].name) {
      LoadedKeys(init, name);
    }
  }

  // ---- the selected controls ----

  /** selections.get(key, False): a key missing from the selections is not
      selected. */
  predicate Selected(selections: map<string, bool>, key: string) {
    key in selections && selections[key]
  }

  /** The weights of the selected entries, over the names in order. */
  function SelectedWeight(order: seq<string>, entries: map<string, Solution>, selections: map<string, bool>): real
    requires forall n :: n in order ==> n in entries
    decreases |order|
  {
    if order == [] then 0.0
    else
      var name := order[|order| - 1];
      SelectedWeight(order[..|order| - 1], entries, selections)
        + (if Selected(selections, entries[name].key) then entries[name].weight else 0.0)
  }

  /** The costs of the selected entries, over the names in order. */
  function SelectedCost(order: seq<string>, entries: map<string, Solution>, selections: map<string, bool>): int
    requires forall n :: n in order ==> n in entries
    decreases |order|
  {
    if order == [] then 0
    else
      var name := order[|order| - 1];
      SelectedCost(order[..|order| - 1], entries, selections)
        + (if Selected(selections, entries[name].key) then entries[name].cost else 0)
  }

  /** calculate_weights_and_costs(selections) */
  method CalculateWeightsAndCosts(softwareSolutions: Solutions, selections: map<string, bool>)
    returns (mitigationWeight: real, totalCost: int)
    requires Valid(softwareSolutions)
    ensures mitigationWeight == SelectedWeight(softwareSolutions.order, softwareSolutions.entries, selections)
    ensures totalCost == SelectedCost(softwareSolutions.order, softwareSolutions.entries, selections)
  {
    var order := softwareSolutions.order;
    var entries := softwareSolutions.entries;
    mitigationWeight := 0.0;
    totalCost := 0;
    var i := 0;
    while i < |order|
      invariant 0 <= i <= |order|
      invariant mitigationWeight == SelectedWeight(order[..i], entries, selections)
      invariant totalCost == SelectedCost(order[..i], entries, selections)
    {
      assert order[..i + 1][..i] == order[..i];
      var meta := entries[order[i]];
      if meta.key in selections && selections[meta.key] {
        mitigationWeight := mitigationWeight + meta.weight;
        totalCost := totalCost + meta.cost;
      }
      i := i + 1;
    }
    assert order[..i] == order;
  }

  /** With nothing selected (in particular with no selections at all) the
      result is (0.0, 0). */
  lemma {:induction false} NothingSelected(order: seq<string>, entries: map<string, Solution>, selections: map<string, bool>)
    requires forall n :: n in order ==> n in entries
    requires forall n :: n in order ==> !Selected(selections, entries[n].key)
    ensures SelectedWeight(order, entries, selections) == 0.0
    ensures SelectedCost(order, entries, selections) == 0
    decreases |order|
  {
    if order != [] {
      NothingSelected(order[..|order| - 1], entries, selections);
    }
  }

  /** Only the keys selected as True matter: two selections that select
      the same keys give the same weight and cost. */
  lemma {:induction false} OnlySelectedKeysMatter(order: seq<string>, entries: map<string, Solution>,
                                                  s1: map<string, bool>, s2: map<string, bool>)
    requires forall n :: n in order ==> n in entries
    requires forall k :: Selected(s1, k) <==> Selected(s2, k)
    ensures SelectedWeight(order, entries, s1) == SelectedWeight(order, entries, s2)
    ensures SelectedCost(order, entries, s1) == SelectedCost(order, entries, s2)
    decreases |order|
  {
    if order != [] {
      OnlySelectedKeysMatter(order[..|order| - 1], entries, s1, s2);
    }
  }

  /** Selecting more controls never lowers the weight, nor the cost, as
      long as weights and costs are not negative. */
  lemma {:induction false} SelectionMonotone(order: seq<string>, entries: map<string, Solution>,
                                             s1: map<string, bool>, s2: map<string, bool>)
    requires forall n :: n in order ==> n in entries && entries[n].weight >= 0.0 && entries[n].cost >= 0
    requires forall k :: Selected(s1, k) ==> Selected(s2, k)
    ensures SelectedWeight(order, entries, s1) <= SelectedWeight(order, entries, s2)
    ensures SelectedCost(order, entries, s1) <= SelectedCost(order, entries, s2)
    decreases |order|
  {
    if order != [] {
      SelectionMonotone(order[..|order| - 1], entries, s1, s2);
    }
  }

  /** The weight is a plain sum and is not clamped to 1: two selected
      controls rated 60% each give a weight of 1.2. */
  lemma WeightNotClamped()
    ensures var order := ["dlp", "ueba"];
      var entries := map["dlp" := Solution("dlp", 1000, 0.6), "ueba" := Solution("ueba", 2000, 0.6)];
      var selections := map["dlp" := true, "ueba" := true];
      && Valid(Solutions(order, entries))
      && SelectedWeight(order, entries, selections) == 1.2
      && SelectedCost(order, entries, selections) == 3000
  {
    var order := ["dlp", "ueba"];
    var entries := map["dlp" := Solution("dlp", 1000, 0.6), "ueba" := Solution("ueba", 2000, 0.6)];
    assert order[..1] == ["dlp"] && order[..1][..0] == [];
  }
}
