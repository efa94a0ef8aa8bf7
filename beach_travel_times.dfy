/** The beach travel-time panel: the five beaches, the water-type chip
    colour, the colour the getWaterTypeIcon helper would give (the panel
    defines it but never calls it; each card shows the primary beach icon),
    and the lookup of the beach chosen in the drop-down. */
module BeachTravelTimes {
  import opened Js
  import opened TravelTimes

  datatype Beach = Beach(id: nat, name: string, address: string, travel: Travel, waterType: string)

  /** The beaches, with travel times from the house. */
  const Beaches: seq<Beach> := [
    Beach(1, "Brick Beach I", "310 Route 35 North, Brick Township, NJ",
          Travel(Leg(35, "1.7 miles"), Leg(10, "1.7 miles"), Leg(6, "1.9 miles")), "Ocean"),
    Beach(2, "Brick Beach II", "350 Route 35 North, Brick Township, NJ",
          Travel(Leg(40, "2.0 miles"), Leg(12, "2.0 miles"), Leg(7, "2.2 miles")), "Ocean"),
    Beach(3, "Brick Beach III", "440 Route 35 North, Brick Township, NJ",
          Travel(Leg(45, "2.2 miles"), Leg(13, "2.2 miles"), Leg(8, "2.4 miles")), "Ocean"),
    Beach(4, "Windward Beach Park", "265 Princeton Avenue, Brick Township, NJ",
          Travel(Leg(20, "1.0 mile"), Leg(6, "1.0 mile"), Leg(4, "1.1 miles")), "River/Bay"),
    Beach(5, "Bay Beach", "Baywood Boulevard, Brick Township, NJ",
          Travel(Leg(15, "0.7 miles"), Leg(4, "0.7 miles"), Leg(3, "0.8 miles")), "Bay")
  ]

  /** The beach ids are 1 to 5 in table order, so they are distinct, and every
      beach is quicker to drive to than to bike to, and to bike to than to walk to. */
  lemma BeachTable()
    ensures |Beaches| == 5
    ensures forall i :: 0 <= i < |Beaches| ==> Beaches[i].id == i + 1
    ensures forall i, j :: 0 <= i < j < |Beaches| ==> Beaches[i].id != Beaches[j].id
    ensures forall i :: 0 <= i < |Beaches| ==> Ordered(Beaches[i].travel)
  {
  }

  function BeachId(b: Beach): nat { b.id }

  /** The beach whose id, as a string, is the selected value. */
  function SelectBeach(selected: string): (r: Option<Beach>)
    ensures r.None? <==> forall i :: 0 <= i < |Beaches| ==> IntToString(Beaches[i].id) != selected
    ensures r.Some? ==> r.value in Beaches && IntToString(r.value.id) == selected
  {
    FindMatchesId(Beaches, BeachId, selected);
    Find(Beaches, MatchesId(BeachId, selected))
  }

  /** No two beaches answer the same selection. */
  lemma AtMostOneBeachMatches(selected: string, i: nat, j: nat)
    requires i < |Beaches| && j < |Beaches|
    requires IntToString(Beaches[i].id) == selected && IntToString(Beaches[j].id) == selected
    ensures i == j
  {
    IntToStringInjective(Beaches[i].id, Beaches[j].id);
  }

  /** The placeholder "" selects no beach. */
  lemma PlaceholderSelectsNoBeach()
    ensures SelectBeach("").None?
  {
  }

  /** The value of beach k's menu item selects beach k. */
  lemma SelectBeachByMenuValue(k: nat)
    requires 1 <= k <= |Beaches|
    ensures SelectBeach(IntToString(k)) == Some(Beaches[k - 1])
  {
    BeachTable();
    FindNumbered(Beaches, BeachId, k);
  }

  /** The colour of the water-drop icon getWaterTypeIcon returns for a water
      type. The helper is never called, so no such icon is on the page. */
  datatype IconColor = PrimaryIcon | InfoIcon | SecondaryIcon | DefaultIcon

  /** getWaterTypeIcon, case-insensitive: "ocean" is primary, "bay" info,
      "river/bay" secondary, anything else the default colour. */
  function WaterTypeIcon(waterType: string): (c: IconColor)
    ensures c == PrimaryIcon <==> ToLower(waterType) == "ocean"
    ensures c == InfoIcon <==> ToLower(waterType) == "bay"
    ensures c == SecondaryIcon <==> ToLower(waterType) == "river/bay"
    ensures c == DefaultIcon <==> ToLower(waterType) !in {"ocean", "bay", "river/bay"}
  {
    var t := ToLower(waterType);
    if t == "ocean" then PrimaryIcon
    else if t == "bay" then InfoIcon
    else if t == "river/bay" then SecondaryIcon
    else DefaultIcon
  }

  /** Lower-casing the water type first changes nothing. */
  lemma WaterTypeIconIgnoresCase(waterType: string)
    ensures WaterTypeIcon(ToLower(waterType)) == WaterTypeIcon(waterType)
  {
    ToLowerIdempotent(waterType);
  }

  datatype ChipColor = PrimaryChip | InfoChip

  /** The water-type chip on the selected beach's card. */
  function WaterTypeChip(waterType: string): (c: ChipColor)
    ensures c == PrimaryChip <==> ToLower(waterType) == "ocean"
    ensures c == InfoChip <==> ToLower(waterType) != "ocean"
  {
    if ToLower(waterType) == "ocean" then PrimaryChip else InfoChip
  }

  /** The chip is primary exactly when getWaterTypeIcon would give primary. */
  lemma ChipPrimaryIffIconPrimary(waterType: string)
    ensures WaterTypeChip(waterType) == PrimaryChip <==> WaterTypeIcon(waterType) == PrimaryIcon
  {
  }

  lemma LowerCaseOf(s: string, l: string)
    requires |s| == |l| && forall i :: 0 <= i < |s| ==> LowerChar(s[i]) == l[i]
    ensures ToLower(s) == l
  {
  }

  /** The three Brick beaches are ocean beaches: a primary chip, and
      getWaterTypeIcon would give primary. */
  lemma OceanBeachColors(i: nat)
    requires i < 3
    ensures WaterTypeIcon(Beaches[i].waterType) == PrimaryIcon && WaterTypeChip(Beaches[i].waterType) == PrimaryChip
  {
    OceanColors();
    assert Beaches[i].waterType == "Ocean";
  }

  /** Windward Beach Park is on the river and bay: an info chip, and
      getWaterTypeIcon would give secondary. */
  lemma WindwardBeachColors()
    ensures WaterTypeIcon(Beaches[3].waterType) == SecondaryIcon && WaterTypeChip(Beaches[3].waterType) == InfoChip
  {
    RiverBayColors();
    assert Beaches[3].waterType == "River/Bay";
  }

  /** Bay Beach: an info chip, and getWaterTypeIcon would give info. */
  lemma BayBeachColors()
    ensures WaterTypeIcon(Beaches[4].waterType) == InfoIcon && WaterTypeChip(Beaches[4].waterType) == InfoChip
  {
    BayColors();
    assert Beaches[4].waterType == "Bay";
  }

  /** "Ocean": a primary chip; getWaterTypeIcon would give primary. */
  lemma OceanColors()
    ensures WaterTypeIcon("Ocean") == PrimaryIcon && WaterTypeChip("Ocean") == PrimaryChip
  {
    LowerCaseOf("Ocean", "ocean");
  }

  /** "River/Bay": an info chip; getWaterTypeIcon would give secondary. */
  lemma RiverBayColors()
    ensures WaterTypeIcon("River/Bay") == SecondaryIcon && WaterTypeChip("River/Bay") == InfoChip
  {
    LowerCaseOf("River/Bay", "river/bay");
  }

  /** "Bay": an info chip; getWaterTypeIcon would give info. */
  lemma BayColors()
    ensures WaterTypeIcon("Bay") == InfoIcon && WaterTypeChip("Bay") == InfoChip
  {
    LowerCaseOf("Bay", "bay");
  }

  /** Each beach's three avatar colours get no milder from driving to biking to walking. */
  lemma BeachAvatarColors(i: nat)
    requires i < |Beaches|
    ensures Severity(TimeColorOf(Beaches[i].travel.driving.minutes))
            <= Severity(TimeColorOf(Beaches[i].travel.biking.minutes))
            <= Severity(TimeColorOf(Beaches[i].travel.walking.minutes))
  {
    BeachTable();
    OrderedColors(Beaches[i].travel);
  }
}
