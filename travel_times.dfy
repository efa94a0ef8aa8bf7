/** What the beach and restaurant travel-time panels share: the colour band
    of a travel time, the season of a month, the lookup by id and the shape of a destination's
    travel times. Both components carry identical copies of these helpers. */
module TravelTimes {
  import opened Js

  /** The MUI palette colour of a travel-time avatar. */
  datatype TimeColor = SuccessMain | InfoMain | WarningMain | ErrorMain

  /** The colour of a travel time in minutes: up to 10, up to 20, up to 30, more. */
  function TimeColorOf(minutes: int): (c: TimeColor)
    ensures c == SuccessMain <==> minutes <= 10
    ensures c == InfoMain <==> 10 < minutes <= 20
    ensures c == WarningMain <==> 20 < minutes <= 30
    ensures c == ErrorMain <==> 30 < minutes
  {
    if minutes <= 10 then SuccessMain
    else if minutes <= 20 then InfoMain
    else if minutes <= 30 then WarningMain
    else ErrorMain
  }

  /** The palette name getTimeColor returns for a colour. */
  function ColorName(c: TimeColor): string {
    match c
    case SuccessMain => "success.main"
    case InfoMain => "info.main"
    case WarningMain => "warning.main"
    case ErrorMain => "error.main"
  }

  /** getTimeColor: the palette name it returns for a travel time. */
  function GetTimeColor(minutes: int): (s: string)
    ensures s == "success.main" <==> minutes <= 10
    ensures s == "info.main" <==> 10 < minutes <= 20
    ensures s == "warning.main" <==> 20 < minutes <= 30
    ensures s == "error.main" <==> 30 < minutes
  {
    ColorNameInjective(TimeColorOf(minutes));
    ColorName(TimeColorOf(minutes))
  }

  /** Different colours have different palette names. */
  lemma ColorNameInjective(c: TimeColor)
    ensures forall d :: ColorName(d) == ColorName(c) ==> d == c
  {
  }

  function Severity(c: TimeColor): nat {
    match c
    case SuccessMain => 0
    case InfoMain => 1
    case WarningMain => 2
    case ErrorMain => 3
  }

  /** A longer trip never gets a milder colour. */
  lemma TimeColorMonotone(a: int, b: int)
    requires a <= b
    ensures Severity(TimeColorOf(a)) <= Severity(TimeColorOf(b))
  {
  }

  datatype Season = Winter | Spring | Summer | Fall

  /** The season of a 0-based month (Date#getMonth): March to May is
      spring, June to August summer, September to November fall, and every
      other value winter. */
  function SeasonOf(month: int): (s: Season)
    ensures s == Spring <==> 2 <= month <= 4
    ensures s == Summer <==> 5 <= month <= 7
    ensures s == Fall <==> 8 <= month <= 10
    ensures s == Winter <==> month < 2 || month > 10
  {
    if 2 <= month <= 4 then Spring
    else if 5 <= month <= 7 then Summer
    else if 8 <= month <= 10 then Fall
    else Winter
  }

  /** The name getCurrentSeason returns for a season. */
  function SeasonName(s: Season): string {
    match s
    case Winter => "Winter"
    case Spring => "Spring"
    case Summer => "Summer"
    case Fall => "Fall"
  }

  /** getCurrentSeason: the season name it returns for a 0-based month. */
  function CurrentSeason(month: int): (name: string)
    ensures name == "Spring" <==> 2 <= month <= 4
    ensures name == "Summer" <==> 5 <= month <= 7
    ensures name == "Fall" <==> 8 <= month <= 10
    ensures name == "Winter" <==> month < 2 || month > 10
  {
    SeasonNameInjective(SeasonOf(month));
    SeasonName(SeasonOf(month))
  }

  /** Different seasons have different names. */
  lemma SeasonNameInjective(s: Season)
    ensures forall t :: SeasonName(t) == SeasonName(s) ==> t == s
  {
  }

  function MonthsOf(s: Season): set<int> {
    set m | 0 <= m < 12 && SeasonOf(m) == s
  }

  /** Each season covers exactly three of the twelve months. */
  lemma SeasonsHaveThreeMonths(s: Season)
    ensures |MonthsOf(s)| == 3
  {
    match s
    case Winter => assert MonthsOf(s) == {0, 1, 11};
    case Spring => assert MonthsOf(s) == {2, 3, 4};
    case Summer => assert MonthsOf(s) == {5, 6, 7};
    case Fall => assert MonthsOf(s) == {8, 9, 10};
  }

  /** One way of getting there: minutes and distance. */
  datatype Leg = Leg(minutes: int, distance: string)

  datatype Travel = Travel(walking: Leg, biking: Leg, driving: Leg)

  /** Driving is quicker than biking, which is quicker than walking. */
  predicate Ordered(t: Travel) {
    t.driving.minutes < t.biking.minutes < t.walking.minutes
  }

  /** With those times ordered, the colours of the three avatars are ordered too. */
  lemma OrderedColors(t: Travel)
    requires Ordered(t)
    ensures Severity(TimeColorOf(t.driving.minutes)) <= Severity(TimeColorOf(t.biking.minutes))
    ensures Severity(TimeColorOf(t.biking.minutes)) <= Severity(TimeColorOf(t.walking.minutes))
  {
    TimeColorMonotone(t.driving.minutes, t.biking.minutes);
    TimeColorMonotone(t.biking.minutes, t.walking.minutes);
  }

  /** The test `find` applies to each destination: its id, as a string, is
      the selected value. */
  function MatchesId<T>(id: T -> nat, selected: string): T -> bool {
    (x: T) => IntToString(id(x)) == selected
  }

  /** find with that test: nothing when no id's string is the selected
      value, otherwise an entry of the table whose id's string is. */
  lemma FindMatchesId<T>(xs: seq<T>, id: T -> nat, selected: string)
    ensures Find(xs, MatchesId(id, selected)).None? <==>
      forall i :: 0 <= i < |xs| ==> IntToString(id(xs[i])) != selected
    ensures Find(xs, MatchesId(id, selected)).Some? ==>
      Find(xs, MatchesId(id, selected)).value in xs &&
      IntToString(id(Find(xs, MatchesId(id, selected)).value)) == selected
  {
  }

  /** In a table numbered 1, 2, ... in order, the id k finds entry k. */
  lemma FindNumbered<T>(xs: seq<T>, id: T -> nat, k: nat)
    requires 1 <= k <= |xs|
    requires forall i :: 0 <= i < |xs| ==> id(xs[i]) == i + 1
    ensures Find(xs, MatchesId(id, IntToString(k))) == Some(xs[k - 1])
  {
    var p := MatchesId(id, IntToString(k));
    assert p(xs[k - 1]);
    var r := Find(xs, p);
    var i :| 0 <= i < |xs| && xs[i] == r.value && p(xs[i]);
    IntToStringInjective(id(xs[i]), k);
  }
}
