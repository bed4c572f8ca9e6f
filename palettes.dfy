/** The Du Bois colour tables: seven named colour families, each with a light
    and a dark hex value, the two name-to-colour maps derived from them, and
    the three seven-colour cycles (light sequential, dark sequential and the
    high-contrast categorical reordering of the light colours). */
module Palettes {

  /** The two variant keys every family carries. */
  const LightKey: string := "light"
  const DarkKey: string := "dark"

  /** Family name -> { "light": hex, "dark": hex }. */
  const Families: map<string, map<string, string>> := map[
    "Warm Tan"   := map[LightKey := "#d6c1ab", DarkKey := "#b69c7e"],
    "Dusty Pink" := map[LightKey := "#e8b7b0", DarkKey := "#cc8f88"],
    "Ochre"      := map[LightKey := "#e9c057", DarkKey := "#c89c33"],
    "Red"        := map[LightKey := "#c83737", DarkKey := "#9e2424"],
    "Deep Green" := map[LightKey := "#58705c", DarkKey := "#35473b"],
    "Dark Brown" := map[LightKey := "#6f5740", DarkKey := "#4b3928"],
    "Deep Navy"  := map[LightKey := "#3d4b74", DarkKey := "#2a3556"]
  ]

  /** Snake-case key -> light variant of the matching family. */
  const ColorsLight: map<string, string> := map[
    "warm_tan"   := Families["Warm Tan"][LightKey],
    "dusty_pink" := Families["Dusty Pink"][LightKey],
    "ochre"      := Families["Ochre"][LightKey],
    "red"        := Families["Red"][LightKey],
    "deep_green" := Families["Deep Green"][LightKey],
    "dark_brown" := Families["Dark Brown"][LightKey],
    "deep_navy"  := Families["Deep Navy"][LightKey]
  ]

  /** Snake-case key -> dark variant of the matching family. */
  const ColorsDark: map<string, string> := map[
    "warm_tan"   := Families["Warm Tan"][DarkKey],
    "dusty_pink" := Families["Dusty Pink"][DarkKey],
    "ochre"      := Families["Ochre"][DarkKey],
    "red"        := Families["Red"][DarkKey],
    "deep_green" := Families["Deep Green"][DarkKey],
    "dark_brown" := Families["Dark Brown"][DarkKey],
    "deep_navy"  := Families["Deep Navy"][DarkKey]
  ]

  /** Light sequential cycle, ordered by intensity preference. */
  const LightCycle: seq<string> := [
    ColorsLight["warm_tan"],
    ColorsLight["dusty_pink"],
    ColorsLight["ochre"],
    ColorsLight["red"],
    ColorsLight["deep_green"],
    ColorsLight["dark_brown"],
    ColorsLight["deep_navy"]
  ]

  /** Dark sequential cycle, in the same family order as the light one. */
  const DarkCycle: seq<string> := [
    ColorsDark["warm_tan"],
    ColorsDark["dusty_pink"],
    ColorsDark["ochre"],
    ColorsDark["red"],
    ColorsDark["deep_green"],
    ColorsDark["dark_brown"],
    ColorsDark["deep_navy"]
  ]

  /** High-contrast categorical cycle: the light colours reordered so that
      neighbouring series are easy to tell apart. */
  const CategoricalCycle: seq<string> := [
    ColorsLight["deep_navy"],
    ColorsLight["ochre"],
    ColorsLight["deep_green"],
    ColorsLight["red"],
    ColorsLight["warm_tan"],
    ColorsLight["dusty_pink"],
    ColorsLight["dark_brown"]
  ]

  // ------------------------------------------------------------------
  // Reference definitions the tables are checked against
  // ------------------------------------------------------------------

  /** The intended family order of the sequential cycles, by family name. */
  const SequentialOrder: seq<string> :=
    ["Warm Tan", "Dusty Pink", "Ochre", "Red", "Deep Green", "Dark Brown", "Deep Navy"]

  /** One character of a family name in snake case: a space becomes an
      underscore and an ASCII capital becomes its lower-case letter. */
  function SnakeChar(c: char): (r: char)
  {
    if c == ' ' then '_'
    else if 'A' <= c <= 'Z' then (c as int + 32) as char
    else c
  }

  /** The snake-case key of a family name ("Warm Tan" -> "warm_tan"). */
  function SnakeKey(name: string): (r: string)
  {
    seq(|name|, i requires 0 <= i < |name| => SnakeChar(name[i]))
  }

  /** `color` is the `variant` value of family `family`. */
  predicate TracesTo(color: string, family: string, variant: string)
  {
    family in Families && variant in Families[family] && Families[family][variant] == color
  }

  predicate IsLowerHexDigit(c: char)
  {
    '0' <= c <= '9' || 'a' <= c <= 'f'
  }

  /** `#` followed by exactly six lower-case hexadecimal digits. */
  predicate IsHexColor(s: string)
  {
    |s| == 7 && s[0] == '#' && forall i :: 1 <= i < 7 ==> IsLowerHexDigit(s[i])
  }

  /** No colour occurs twice. */
  predicate Distinct(s: seq<string>)
  {
    forall i, j :: 0 <= i < j < |s| ==> s[i] != s[j]
  }

  // ------------------------------------------------------------------
  // Properties of the tables
  // ------------------------------------------------------------------

  /** Seven families, each with exactly a light and a dark entry. */
  lemma FamilyTableShape()
    ensures |Families| == 7
    ensures Families.Keys == set f | f in SequentialOrder
    ensures forall f :: f in Families ==> Families[f].Keys == {LightKey, DarkKey}
  {
    FamilyNames();
    FamilyCount();
    FamilyVariants();
  }

  /** Every colour literal is a lower-case six-digit hex colour. */
  lemma AllColorsAreHex()
    ensures forall f, v :: f in Families && v in Families[f] ==> IsHexColor(Families[f][v])
  {
    forall f, v | f in Families && v in Families[f] ensures IsHexColor(Families[f][v]) {
      var i := FamilyIndex(f);
      FamilyEntry(i);
      HexEntry(i);
    }
  }

  /** The snake-case maps are keyed by the snake-case names of the families,
      and each holds the light (resp. dark) value of the matching family. */
  lemma ColorMapsFollowFamilies()
    ensures ColorsLight.Keys == (set f | f in Families :: SnakeKey(f))
    ensures ColorsDark.Keys == ColorsLight.Keys
    ensures forall f :: f in Families ==>
      SnakeKey(f) in ColorsLight && TracesTo(ColorsLight[SnakeKey(f)], f, LightKey) &&
      SnakeKey(f) in ColorsDark && TracesTo(ColorsDark[SnakeKey(f)], f, DarkKey)
  {
    ColorKeys();
    SnakeKeysOfFamilies();
    ColorValues();
  }

  /** A light colour names its family: no two families share a light value. */
  lemma LightVariantsDistinct()
    ensures forall c, f, g :: TracesTo(c, f, LightKey) && TracesTo(c, g, LightKey) ==> f == g
  {
    LightCycleDistinct();
    forall c, f, g | TracesTo(c, f, LightKey) && TracesTo(c, g, LightKey) ensures f == g {
      var i := FamilyIndex(f);
      var j := FamilyIndex(g);
      FamilyEntry(i);
      FamilyEntry(j);
    }
  }

  /** The light cycle lists the seven light variants in the sequential order. */
  lemma LightCycleOrder()
    ensures |LightCycle| == |SequentialOrder| == 7
    ensures forall i :: 0 <= i < 7 ==> TracesTo(LightCycle[i], SequentialOrder[i], LightKey)
  {
    forall i | 0 <= i < 7 ensures TracesTo(LightCycle[i], SequentialOrder[i], LightKey) {
      FamilyEntry(i);
    }
  }

  /** Entry i of the dark cycle is the dark variant of the family whose light
      variant is entry i of the light cycle. */
  lemma DarkCycleMatchesLight()
    ensures |DarkCycle| == |LightCycle| == 7
    ensures forall i :: 0 <= i < 7 ==> TracesTo(DarkCycle[i], SequentialOrder[i], DarkKey)
    ensures forall i, f :: 0 <= i < 7 && TracesTo(LightCycle[i], f, LightKey) ==> TracesTo(DarkCycle[i], f, DarkKey)
  {
    LightVariantsDistinct();
    LightCycleOrder();
    forall i | 0 <= i < 7 ensures TracesTo(DarkCycle[i], SequentialOrder[i], DarkKey) {
      FamilyEntry(i);
    }
  }

  /** The categorical cycle uses the seven light colours, each exactly once,
      starting with deep navy. */
  lemma CategoricalIsPermutationOfLight()
    ensures |CategoricalCycle| == |LightCycle| == 7
    ensures multiset(CategoricalCycle) == multiset(LightCycle)
    ensures Distinct(CategoricalCycle)
    ensures TracesTo(CategoricalCycle[0], "Deep Navy", LightKey)
  {
    CategoricalReordersLight();
    LightCycleDistinct();
    ReorderDistinct(LightCycle);
    DistinctPermutation(CategoricalCycle, LightCycle);
    FamilyEntry(6);
  }

  /** The categorical cycle holds only light values and no dark value. */
  lemma CategoricalHasNoDarkColor()
    ensures forall i :: 0 <= i < |CategoricalCycle| ==>
      CategoricalCycle[i] in ColorsLight.Values && CategoricalCycle[i] !in ColorsDark.Values
  {
    CategoricalReordersLight();
    MapValues();
    LightDarkDisjoint();
  }

  // ------------------------------------------------------------------
  // Steps the lemmas above are assembled from
  // ------------------------------------------------------------------

  /** The snake-case keys, in the sequential order. */
  const SnakeOrder: seq<string> :=
    ["warm_tan", "dusty_pink", "ochre", "red", "deep_green", "dark_brown", "deep_navy"]

  /** The light and dark hex values, in the sequential order. */
  const LightHexes: seq<string> :=
    ["#d6c1ab", "#e8b7b0", "#e9c057", "#c83737", "#58705c", "#6f5740", "#3d4b74"]
  const DarkHexes: seq<string> :=
    ["#b69c7e", "#cc8f88", "#c89c33", "#9e2424", "#35473b", "#4b3928", "#2a3556"]

  lemma FamilyNames()
    ensures Families.Keys == set f | f in SequentialOrder
  {
  }

  lemma FamilyCount()
    ensures |Families| == 7
  {
    FamilyNames();
    SequentialOrderDistinct();
    DistinctCard(SequentialOrder);
    assert |Families| == |Families.Keys|;
  }

  lemma FamilyVariants()
    ensures forall f :: f in Families ==> Families[f].Keys == {LightKey, DarkKey}
  {
    forall f | f in Families ensures Families[f].Keys == {LightKey, DarkKey} {
      var i := FamilyIndex(f);
      FamilyEntry(i);
    }
  }

  lemma SequentialOrderDistinct()
    ensures Distinct(SequentialOrder)
  {
  }

  /** The position of a family in the sequential order. */
  lemma FamilyIndex(f: string) returns (i: nat)
    requires f in Families
    ensures i < |SequentialOrder| && SequentialOrder[i] == f
  {
    FamilyNames();
    i :| i < |SequentialOrder| && SequentialOrder[i] == f;
  }

  /** The entry of the i-th family holds the i-th colours of the two cycles. */
  lemma FamilyEntry(i: nat)
    requires i < |SequentialOrder|
    ensures SequentialOrder[i] in Families
    ensures Families[SequentialOrder[i]] == map[LightKey := LightCycle[i], DarkKey := DarkCycle[i]]
  {
  }

  /** The i-th snake-case key maps to the i-th colours of the two cycles. */
  lemma ColorEntry(i: nat)
    requires i < |SnakeOrder|
    ensures SnakeOrder[i] in ColorsLight && ColorsLight[SnakeOrder[i]] == LightCycle[i]
    ensures SnakeOrder[i] in ColorsDark && ColorsDark[SnakeOrder[i]] == DarkCycle[i]
  {
  }

  lemma ColorKeys()
    ensures ColorsLight.Keys == set k | k in SnakeOrder
    ensures ColorsDark.Keys == set k | k in SnakeOrder
  {
  }

  lemma ColorValues()
    ensures forall f :: f in Families ==>
      SnakeKey(f) in ColorsLight && TracesTo(ColorsLight[SnakeKey(f)], f, LightKey) &&
      SnakeKey(f) in ColorsDark && TracesTo(ColorsDark[SnakeKey(f)], f, DarkKey)
  {
    SnakeKeys();
    forall f | f in Families ensures
      SnakeKey(f) in ColorsLight && TracesTo(ColorsLight[SnakeKey(f)], f, LightKey) &&
      SnakeKey(f) in ColorsDark && TracesTo(ColorsDark[SnakeKey(f)], f, DarkKey)
    {
      var i := FamilyIndex(f);
      FamilyEntry(i);
      ColorEntry(i);
    }
  }

  /** The values of the two maps are the colours of the two cycles. */
  lemma MapValues()
    ensures ColorsLight.Values == set c | c in LightCycle
    ensures ColorsDark.Values == set c | c in DarkCycle
  {
    LightMapValues();
    DarkMapValues();
  }

  lemma LightMapValues()
    ensures ColorsLight.Values == set c | c in LightCycle
  {
    ColorKeys();
    forall i | 0 <= i < 7 ensures LightCycle[i] in ColorsLight.Values {
      ColorEntry(i);
    }
    forall k | k in ColorsLight ensures ColorsLight[k] in LightCycle {
      var i :| 0 <= i < |SnakeOrder| && SnakeOrder[i] == k;
      ColorEntry(i);
    }
  }

  lemma DarkMapValues()
    ensures ColorsDark.Values == set c | c in DarkCycle
  {
    ColorKeys();
    forall i | 0 <= i < 7 ensures DarkCycle[i] in ColorsDark.Values {
      ColorEntry(i);
    }
    forall k | k in ColorsDark ensures ColorsDark[k] in DarkCycle {
      var i :| 0 <= i < |SnakeOrder| && SnakeOrder[i] == k;
      ColorEntry(i);
    }
  }

  lemma CycleValues()
    ensures LightCycle == LightHexes && DarkCycle == DarkHexes
  {
  }

  lemma HexTables()
    ensures forall i :: 0 <= i < 7 ==> IsHexColor(LightHexes[i]) && IsHexColor(DarkHexes[i])
  {
  }

  lemma HexEntry(i: nat)
    requires i < 7
    ensures IsHexColor(LightCycle[i]) && IsHexColor(DarkCycle[i])
  {
    CycleValues();
    HexTables();
  }

  lemma LightCycleDistinct()
    ensures Distinct(LightCycle)
  {
    CycleValues();
    HexTablesDistinct();
  }

  /** No light value is also a dark value. */
  lemma LightDarkDisjoint()
    ensures forall c :: c in LightCycle ==> c !in DarkCycle
  {
    CycleValues();
    HexTablesDistinct();
  }

  lemma HexTablesDistinct()
    ensures Distinct(LightHexes)
    ensures forall c :: c in LightHexes ==> c !in DarkHexes
  {
  }

  /** The categorical cycle in terms of the light cycle. */
  lemma CategoricalReordersLight()
    ensures |LightCycle| == 7
    ensures CategoricalCycle == Reorder(LightCycle)
  {
  }

  /** The categorical order: positions 6, 2, 4, 3, 0, 1, 5 of the light order. */
  function Reorder(l: seq<string>): (r: seq<string>)
    requires |l| == 7
  {
    [l[6], l[2], l[4], l[3], l[0], l[1], l[5]]
  }

  lemma ReorderDistinct(l: seq<string>)
    requires |l| == 7 && Distinct(l)
    ensures Distinct(Reorder(l))
    ensures forall x :: x in Reorder(l) <==> x in l
  {
  }

  lemma SnakeKeys()
    ensures forall i :: 0 <= i < |SequentialOrder| ==> SnakeKey(SequentialOrder[i]) == SnakeOrder[i]
  {
    SnakeKeyIs("Warm Tan", "warm_tan");
    SnakeKeyIs("Dusty Pink", "dusty_pink");
    SnakeKeyIs("Ochre", "ochre");
    SnakeKeyIs("Red", "red");
    SnakeKeyIs("Deep Green", "deep_green");
    SnakeKeyIs("Dark Brown", "dark_brown");
    SnakeKeyIs("Deep Navy", "deep_navy");
  }

  lemma SnakeKeyIs(name: string, key: string)
    requires |name| == |key|
    requires forall i :: 0 <= i < |name| ==> key[i] == SnakeChar(name[i])
    ensures SnakeKey(name) == key
  {
  }

  lemma SnakeKeysOfFamilies()
    ensures (set f | f in Families :: SnakeKey(f)) == set k | k in SnakeOrder
  {
    SnakeKeys();
    forall k | k in SnakeOrder ensures k in (set f | f in Families :: SnakeKey(f)) {
      var i :| 0 <= i < |SnakeOrder| && SnakeOrder[i] == k;
      FamilyEntry(i);
    }
    forall f | f in Families ensures SnakeKey(f) in SnakeOrder {
      var i := FamilyIndex(f);
    }
  }

  lemma {:induction false} DistinctCard(s: seq<string>)
    requires Distinct(s)
    ensures |set x | x in s| == |s|
  {
    if s != [] {
      DistinctCard(s[1..]);
      assert (set x | x in s) == {s[0]} + (set x | x in s[1..]);
    }
  }

  /** In a sequence without repetitions every element occurs exactly once. */
  lemma {:induction false} DistinctCount(s: seq<string>, x: string)
    requires Distinct(s)
    ensures multiset(s)[x] == if x in s then 1 else 0
  {
    if s != [] {
      DistinctCount(s[1..], x);
      assert s == [s[0]] + s[1..];
    }
  }

  /** Two repetition-free sequences with the same elements are permutations
      of each other. */
  lemma DistinctPermutation(s: seq<string>, t: seq<string>)
    requires Distinct(s) && Distinct(t)
    requires forall x :: x in s <==> x in t
    ensures multiset(s) == multiset(t)
  {
    forall x ensures multiset(s)[x] == multiset(t)[x] {
      DistinctCount(s, x);
      DistinctCount(t, x);
    }
  }
}
