/** Section and stadium name normalisation for the seat-map pictures: a
    section name is matched against known variations (exactly, then as a
    substring either way) and otherwise turned into kebab-case; a stadium
    name is matched against known stadiums. */
module StadiumConfig {
  import opened Common
  import opened Strings

  /** A picture key and the section names that denote it, in declaration order. */
  type Mappings = seq<(string, seq<string>)>

  /** `SECTION_NAME_MAPPINGS`, in declaration order. */
  const SectionNameMappings: Mappings := [
    ("longside-lower-tier", ["Longside Lower Tier", "Main Stand Lower", "East Stand Lower", "West Stand Lower", "Central Lower Longside"]),
    ("longside-upper-tier", ["Longside Upper Tier", "Main Stand Upper", "East Stand Upper", "West Stand Upper"]),
    ("shortside-lower-tier", ["Shortside Lower Tier", "North Stand Lower", "South Stand Lower", "Anfield Road Lower"]),
    ("shortside-upper-tier", ["Shortside Upper Tier", "North Stand Upper", "South Stand Upper", "Anfield Road Upper"]),
    ("vip-club-level", ["VIP Packages", "VIP Club Level", "Premium Seating", "Club Level Longside", "Club Level Shortside"]),
    ("premium-level-hospitality", ["Premium Level Hospitality", "Hospitality", "Premium Seating", "Centenary Club", "Premier Club"]),
    ("vip-hospitality-package", ["VIP Hospitality Package", "Brodies Lounge", "Executive Lounge", "Dugout Hospitality",
                                 "Joe's West", "Joe's East", "Legends", "1894 Club Bar", "Citizens", "The Mancunian",
                                 "The Chairman's Club", "The Tunnel Club", "Commonwealth Bar"]),
    ("vip-93-20", ["93:20", "93:20 Lounge", "93 20", "The 93:20"]),
    ("away-fans-section", ["Away Fan Section", "Away Fans", "Away Section", "Away Supporters Only"]),
    ("kop-grandstand", ["Kop Grandstand", "The Kop"]),
    ("category-1-gol", ["Category 1 Gol", "Cat 1 Gol", "Gol"]),
    ("category-2-fondo", ["Category 2 Fondo", "Cat 2 Fondo", "Fondo"]),
    ("category-1-premium", ["Category 1 Premium", "Cat 1 Premium"]),
    ("category-1-silver", ["Category 1 Silver", "Cat 1 Silver"]),
    ("category-1", ["Category 1", "Cat 1"]),
    ("category-2-lateral", ["Category 2 Lateral", "Cat 2 Lateral", "Lateral"]),
    ("category-3", ["Category 3", "Cat 3"]),
    ("category-1-superior", ["Category 1 Superior", "Cat 1 Superior"]),
    ("category-2-superior", ["Category 2 Superior", "Cat 2 Superior"])
  ]

  /** `k` is one of the picture keys of `table`. */
  predicate IsKeyOf(table: Mappings, k: string) {
    exists i :: 0 <= i < |table| && table[i].0 == k
  }

  /** Some variation, lowercased, is exactly `name`. */
  predicate HasVariation(vars: seq<string>, name: string) {
    exists j :: 0 <= j < |vars| && Lower(vars[j]) == name
  }

  /** The key of the LAST entry listing `name` as a variation: the value a
      dictionary filled in declaration order ends up holding for `name`. */
  function LastKeyFor(table: Mappings, name: string): (r: Option<string>)
    ensures r.None? <==> forall i :: 0 <= i < |table| ==> !HasVariation(table[i].1, name)
    ensures r.Some? ==> exists i :: 0 <= i < |table| && table[i].0 == r.value && HasVariation(table[i].1, name)
                          && forall k :: i < k < |table| ==> !HasVariation(table[k].1, name)
  {
    if table == [] then None
    else
      var rest := LastKeyFor(table[1..], name);
      if rest.Some? then
        var i :| 0 <= i < |table[1..]| && table[1..][i].0 == rest.value && HasVariation(table[1..][i].1, name)
                 && forall k :: i < k < |table[1..]| ==> !HasVariation(table[1..][k].1, name);
        assert table[i + 1] == table[1..][i];
        assert forall k :: i + 1 < k < |table| ==> table[k] == table[1..][k - 1];
        rest
      else if HasVariation(table[0].1, name) then
        assert forall k :: 0 < k < |table| ==> table[k] == table[1..][k - 1];
        Some(table[0].0)
      else
        assert forall k :: 0 < k < |table| ==> table[k] == table[1..][k - 1];
        None
  }

  /** The inner loop of the reverse-map construction: each variation,
      lowercased, is (re)bound to `key`. */
  function AddVariations(m: map<string, string>, key: string, vars: seq<string>): map<string, string>
    decreases |vars|
  {
    if vars == [] then m else AddVariations(m[Lower(vars[0]) := key], key, vars[1..])
  }

  /** The outer loop: the entries in declaration order. */
  function BuildReverse(m: map<string, string>, table: Mappings): map<string, string>
    decreases |table|
  {
    if table == [] then m else BuildReverse(AddVariations(m, table[0].0, table[0].1), table[1..])
  }

  lemma {:induction false} AddVariationsAt(m: map<string, string>, key: string, vars: seq<string>, name: string)
    decreases |vars|
    ensures name in AddVariations(m, key, vars) <==> name in m || HasVariation(vars, name)
    ensures HasVariation(vars, name) ==> AddVariations(m, key, vars)[name] == key
    ensures !HasVariation(vars, name) && name in m ==> AddVariations(m, key, vars)[name] == m[name]
  {
    if vars != [] {
      AddVariationsAt(m[Lower(vars[0]) := key], key, vars[1..], name);
      if HasVariation(vars[1..], name) {
        var j :| 0 <= j < |vars[1..]| && Lower(vars[1..][j]) == name;
        assert vars[j + 1] == vars[1..][j];
      }
      if HasVariation(vars, name) && Lower(vars[0]) != name {
        var j :| 0 <= j < |vars| && Lower(vars[j]) == name;
        assert vars[1..][j - 1] == vars[j];
      }
    }
  }

  /** The reverse map binds exactly the lowercased variations, each to the
      key of the last entry that lists it. */
  lemma {:induction false} BuildReverseAt(m: map<string, string>, table: Mappings, name: string)
    decreases |table|
    ensures name in BuildReverse(m, table) <==> name in m || LastKeyFor(table, name).Some?
    ensures LastKeyFor(table, name).Some? ==> BuildReverse(m, table)[name] == LastKeyFor(table, name).value
    ensures LastKeyFor(table, name).None? && name in m ==> BuildReverse(m, table)[name] == m[name]
  {
    if table != [] {
      var m' := AddVariations(m, table[0].0, table[0].1);
      AddVariationsAt(m, table[0].0, table[0].1, name);
      BuildReverseAt(m', table[1..], name);
    }
  }

  /** The entry at `i` is the last to list `name`, so its key is the one kept. */
  lemma LastKeyIs(table: Mappings, name: string, i: nat)
    requires i < |table| && HasVariation(table[i].1, name)
    requires forall k :: i < k < |table| ==> !HasVariation(table[k].1, name)
    ensures LastKeyFor(table, name) == Some(table[i].0)
  {
    var r := LastKeyFor(table, name);
    var i' :| 0 <= i' < |table| && table[i'].0 == r.value && HasVariation(table[i'].1, name)
              && forall k :: i' < k < |table| ==> !HasVariation(table[k].1, name);
    assert i' == i;
  }

  /** Some variation, lowercased, contains `clean` or is contained in it. */
  predicate PartialHit(vars: seq<string>, clean: string) {
    exists j :: 0 <= j < |vars| && (Contains(clean, Lower(vars[j])) || Contains(Lower(vars[j]), clean))
  }

  /** The partial-matching loop: the first key, in declaration order, with a partial hit. */
  function FirstPartial(table: Mappings, clean: string): (r: Option<string>)
    ensures r.None? <==> forall i :: 0 <= i < |table| ==> !PartialHit(table[i].1, clean)
    ensures r.Some? ==> exists i :: 0 <= i < |table| && table[i].0 == r.value && PartialHit(table[i].1, clean)
                          && forall k :: 0 <= k < i ==> !PartialHit(table[k].1, clean)
  {
    if table == [] then None
    else if PartialHit(table[0].1, clean) then Some(table[0].0)
    else
      var rest := FirstPartial(table[1..], clean);
      assert forall k :: 0 < k < |table| ==> table[k] == table[1..][k - 1];
      if rest.Some? then
        var i :| 0 <= i < |table[1..]| && table[1..][i].0 == rest.value && PartialHit(table[1..][i].1, clean)
                 && forall k :: 0 <= k < i ==> !PartialHit(table[1..][k].1, clean);
        assert table[i + 1] == table[1..][i];
        rest
      else
        None
  }

  /** The kebab-case fallback: spaces and underscores become hyphens. */
  function KebabCase(clean: string): (r: string)
    ensures |r| == |clean|
    ensures ' ' !in r && '_' !in r
    ensures forall i :: 0 <= i < |clean| && clean[i] != ' ' && clean[i] != '_' ==> r[i] == clean[i]
  {
    ReplaceChar(ReplaceChar(clean, ' ', '-'), '_', '-')
  }

  /** The name as it is looked up: stripped, then lowercased. */
  function CleanName(name: string): string {
    Lower(Strip(name))
  }

  /** `normalize_section_name` over a mapping table: the reverse map
      `BuildReverse(map[], table)` is `SVG_TO_SECTION_NAMES`. */
  function Normalize(table: Mappings, name: Option<string>): (r: Option<string>)
    ensures r.None? <==> name.None? || name.value == ""
    ensures r.Some? ==> IsKeyOf(table, r.value) || r.value == KebabCase(CleanName(name.value))
  {
    if name.None? || name.value == "" then None
    else
      var clean := CleanName(name.value);
      var reverse := BuildReverse(map[], table);
      if clean in reverse then
        BuildReverseAt(map[], table, clean);
        Some(reverse[clean])
      else
        match FirstPartial(table, clean)
        case Some(k) => Some(k)
        case None => Some(KebabCase(clean))
  }

  /** A cleaned name equal to a variation resolves to the key of the last
      entry listing that variation. */
  lemma NormalizeExact(table: Mappings, name: string)
    requires name != "" && LastKeyFor(table, CleanName(name)).Some?
    ensures Normalize(table, Some(name)) == LastKeyFor(table, CleanName(name))
  {
    BuildReverseAt(map[], table, CleanName(name));
  }

  /** Without an exact match, the first entry with a partial hit decides. */
  lemma NormalizePartial(table: Mappings, name: string)
    requires name != "" && LastKeyFor(table, CleanName(name)).None?
    requires FirstPartial(table, CleanName(name)).Some?
    ensures Normalize(table, Some(name)) == FirstPartial(table, CleanName(name))
  {
    BuildReverseAt(map[], table, CleanName(name));
  }

  /** With neither kind of match, the result is the kebab-case fallback. */
  lemma NormalizeFallback(table: Mappings, name: string)
    requires name != "" && LastKeyFor(table, CleanName(name)).None?
    requires FirstPartial(table, CleanName(name)).None?
    ensures Normalize(table, Some(name)) == Some(KebabCase(CleanName(name)))
  {
    BuildReverseAt(map[], table, CleanName(name));
  }

  /** A list none of whose entries has the length and first letter of `name`
      has no variation equal to it. */
  lemma NotVariation(vars: seq<string>, name: string)
    requires name != []
    requires forall j :: 0 <= j < |vars| ==> |vars[j]| != |name| || LowerChar(vars[j][0]) != name[0]
    ensures !HasVariation(vars, name)
  {
  }

  /** No entry after `premium-level-hospitality` lists "premium seating". */
  lemma NoLaterPremiumSeating()
    ensures forall k :: 5 < k < |SectionNameMappings| ==> !HasVariation(SectionNameMappings[k].1, "premium seating")
  {
    var t, n := SectionNameMappings, "premium seating";
    NotVariation(t[6].1, n);
    NotVariation(t[7].1, n);
    NotVariation(t[8].1, n);
    NotVariation(t[9].1, n);
    NotVariation(t[10].1, n);
    NotVariation(t[11].1, n);
    NotVariation(t[12].1, n);
    NotVariation(t[13].1, n);
    NotVariation(t[14].1, n);
    NotVariation(t[15].1, n);
    NotVariation(t[16].1, n);
    NotVariation(t[17].1, n);
    NotVariation(t[18].1, n);
  }

  /** "Premium Seating" lowercases to "premium seating", letter by letter. */
  lemma LowerPremiumSeating()
    ensures Lower("Premium Seating") == "premium seating"
  {
    var s, t := "Premium Seating", "premium seating";
    forall i | 0 <= i < |s|
      ensures Lower(s)[i] == t[i]
    {
      assert Lower(s)[i] == LowerChar(s[i]);
    }
  }

  /** "Premium Seating" cleans to "premium seating"; with `NormalizeExact` and
      `PremiumSeatingLastKey` it resolves to the later of its two keys. */
  lemma PremiumSeatingCleans()
    ensures CleanName("Premium Seating") == "premium seating"
  {
    StripTrimmed("Premium Seating");
    LowerPremiumSeating();
  }

  /** "premium seating" is listed under `vip-club-level` and again under
      `premium-level-hospitality`; the reverse map keeps the later key. */
  lemma PremiumSeatingLastKey(t: Mappings, n: string)
    requires t == SectionNameMappings && n == "premium seating"
    ensures LastKeyFor(t, n) == Some("premium-level-hospitality")
  {
    assert HasVariation(t[5].1, n) by {
      assert t[5].1[2] == "Premium Seating";
      LowerPremiumSeating();
    }
    NoLaterPremiumSeating();
    LastKeyIs(t, n, 5);
  }

  /** A list of non-empty variations has none equal to "". */
  lemma NoEmptyVariation(vars: seq<string>)
    requires forall j :: 0 <= j < |vars| ==> vars[j] != []
    ensures !HasVariation(vars, "")
  {
    forall j | 0 <= j < |vars|
      ensures Lower(vars[j]) != ""
    {
      assert |Lower(vars[j])| == |vars[j]|;
    }
  }

  /** No variation of `SECTION_NAME_MAPPINGS` is empty. */
  lemma NoEmptySectionVariation(t: Mappings)
    requires t == SectionNameMappings
    ensures forall k :: 0 <= k < |t| ==> !HasVariation(t[k].1, "")
  {
    NoEmptyVariation(t[0].1);
    NoEmptyVariation(t[1].1);
    NoEmptyVariation(t[2].1);
    NoEmptyVariation(t[3].1);
    NoEmptyVariation(t[4].1);
    NoEmptyVariation(t[5].1);
    NoEmptyVariation(t[6].1);
    NoEmptyVariation(t[7].1);
    NoEmptyVariation(t[8].1);
    NoEmptyVariation(t[9].1);
    NoEmptyVariation(t[10].1);
    NoEmptyVariation(t[11].1);
    NoEmptyVariation(t[12].1);
    NoEmptyVariation(t[13].1);
    NoEmptyVariation(t[14].1);
    NoEmptyVariation(t[15].1);
    NoEmptyVariation(t[16].1);
    NoEmptyVariation(t[17].1);
    NoEmptyVariation(t[18].1);
  }

  /** A name made only of whitespace cleans to "", which no variation equals
      but every variation contains, so the first key wins. */
  lemma WhitespaceNameResolvesToFirstKey(table: Mappings, name: string)
    requires table != [] && table[0].1 != []
    requires forall k :: 0 <= k < |table| ==> !HasVariation(table[k].1, "")
    requires name != [] && forall i :: 0 <= i < |name| ==> IsSpace(name[i])
    ensures Normalize(table, Some(name)) == Some(table[0].0)
  {
    assert CleanName(name) == "";
    ContainsEmpty(Lower(table[0].1[0]));
    assert PartialHit(table[0].1, "");
    NormalizePartial(table, name);
  }

  /** For `SECTION_NAME_MAPPINGS`, a whitespace-only name becomes `longside-lower-tier`. */
  lemma WhitespaceSectionName(name: string)
    requires name != [] && forall i :: 0 <= i < |name| ==> IsSpace(name[i])
    ensures Normalize(SectionNameMappings, Some(name)) == Some("longside-lower-tier")
  {
    NoEmptySectionVariation(SectionNameMappings);
    WhitespaceNameResolvesToFirstKey(SectionNameMappings, name);
  }

  /** The stadium table of `get_svg_key_from_stadium_name`, in declaration
      order; its keys are pairwise distinct. */
  const StadiumMapping: seq<(string, string)> := [
    ("villa park", "villaParkStadium"),
    ("old trafford", "oldTraffordStadium"),
    ("emirates", "emiratesStadium"),
    ("anfield", "anfieldStadium"),
    ("elland", "ellandStadium"),
    ("elland road", "ellandStadium"),
    ("tottenham", "tottenhamHotspurStadium"),
    ("spurs", "tottenhamHotspurStadium"),
    ("hill dickinson", "hillDickinsonStadium"),
    ("san siro", "sanSiro"),
    ("molineux", "molineux"),
    ("craven cottage", "cravenCottage"),
    ("etihad", "etihadStadium"),
    ("etihad stadium", "etihadStadium"),
    ("santiago bernab\U{00E9}u", "santiagoBernabeuStadium"),
    ("santiago bernabeu", "santiagoBernabeuStadium"),
    ("riyadh metropolitano", "riyadhMetropolitanoStadium"),
    ("riyadh metropolitano stadium", "riyadhMetropolitanoStadium")
  ]

  /** `v` is one of the values of `table`. */
  predicate IsValueOf(table: seq<(string, string)>, v: string) {
    exists i :: 0 <= i < |table| && table[i].1 == v
  }

  /** The first entry whose key satisfies `hit`, scanning in order. */
  function ExactStadium(table: seq<(string, string)>, name: string): (r: Option<string>)
    ensures r.None? <==> forall i :: 0 <= i < |table| ==> table[i].0 != name
    ensures r.Some? ==> exists i :: 0 <= i < |table| && table[i].0 == name && table[i].1 == r.value
  {
    if table == [] then None
    else if table[0].0 == name then Some(table[0].1)
    else
      var rest := ExactStadium(table[1..], name);
      assert forall k :: 0 < k < |table| ==> table[k] == table[1..][k - 1];
      rest
  }

  /** The partial-match loop: the first entry whose key occurs in the name. */
  function PartialStadium(table: seq<(string, string)>, name: string): (r: Option<string>)
    ensures r.None? <==> forall i :: 0 <= i < |table| ==> !Contains(name, table[i].0)
    ensures r.Some? ==> exists i :: 0 <= i < |table| && Contains(name, table[i].0) && table[i].1 == r.value
                          && forall k :: 0 <= k < i ==> !Contains(name, table[k].0)
  {
    if table == [] then None
    else if Contains(name, table[0].0) then Some(table[0].1)
    else
      var rest := PartialStadium(table[1..], name);
      assert forall k :: 0 < k < |table| ==> table[k] == table[1..][k - 1];
      if rest.Some? then
        var i :| 0 <= i < |table[1..]| && Contains(name, table[1..][i].0) && table[1..][i].1 == rest.value
                 && forall k :: 0 <= k < i ==> !Contains(name, table[1..][k].0);
        assert table[i + 1] == table[1..][i];
        rest
      else
        None
  }

  /** `get_svg_key_from_stadium_name`. */
  function SvgKeyFromStadiumName(name: Option<string>): (r: Option<string>)
    ensures name.None? || name.value == "" ==> r.None?
    ensures r.Some? ==> IsValueOf(StadiumMapping, r.value)
    ensures name.Some? && name.value != "" ==>
              var n := Strip(Lower(name.value));
              (ExactStadium(StadiumMapping, n).Some? ==> r == ExactStadium(StadiumMapping, n))
              && (ExactStadium(StadiumMapping, n).None? ==> r == PartialStadium(StadiumMapping, n))
  {
    if name.None? || name.value == "" then None
    else
      var n := Strip(Lower(name.value));
      match ExactStadium(StadiumMapping, n)
      case Some(v) => Some(v)
      case None => PartialStadium(StadiumMapping, n)
  }

  /** A stadium whose name contains no known key is not recognised. */
  lemma UnknownStadium(name: string)
    requires forall i :: 0 <= i < |StadiumMapping| ==> !Contains(Strip(Lower(name)), StadiumMapping[i].0)
    ensures SvgKeyFromStadiumName(Some(name)) == None
  {
  }
}
