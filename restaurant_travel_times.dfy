/** The restaurant travel-time panel: the five restaurants and the lookup of
    the restaurant chosen in the drop-down. */
module RestaurantTravelTimes {
  import opened Js
  import opened TravelTimes

  datatype Restaurant = Restaurant(id: nat, name: string, category: string, address: string, travel: Travel)

  /** The restaurants, with travel times from the house. */
  const Restaurants: seq<Restaurant> := [
    Restaurant(1, "River Rock Restaurant & Marina Bar", "American, Seafood", "1600 NJ-70, Brick Township, NJ 08724",
               Travel(Leg(45, "2.2 miles"), Leg(12, "2.2 miles"), Leg(8, "2.5 miles"))),
    Restaurant(2, "Beacon 70", "American, Sports Bar", "799 NJ-70, Brick Township, NJ 08723",
               Travel(Leg(55, "2.7 miles"), Leg(15, "2.7 miles"), Leg(10, "3.0 miles"))),
    Restaurant(3, "The Brownstone Pancake Factory", "Breakfast, Brunch", "865 Mantoloking Rd, Brick Township, NJ 08723",
               Travel(Leg(25, "1.2 miles"), Leg(7, "1.2 miles"), Leg(4, "1.4 miles"))),
    Restaurant(4, "Via Veneto Italian Ristorante", "Italian", "2410 Adamston Rd, Brick Township, NJ 08723",
               Travel(Leg(35, "1.7 miles"), Leg(10, "1.7 miles"), Leg(6, "1.9 miles"))),
    Restaurant(5, "Jersey Shore BBQ", "BBQ", "77 Brick Blvd, Brick Township, NJ 08723",
               Travel(Leg(40, "2.0 miles"), Leg(12, "2.0 miles"), Leg(7, "2.2 miles")))
  ]

  /** The restaurant ids are 1 to 5 in table order, so they are distinct, and
      every restaurant is quicker to drive to than to bike to, and to bike to
      than to walk to. */
  lemma RestaurantTable()
    ensures |Restaurants| == 5
    ensures forall i :: 0 <= i < |Restaurants| ==> Restaurants[i].id == i + 1
    ensures forall i, j :: 0 <= i < j < |Restaurants| ==> Restaurants[i].id != Restaurants[j].id
    ensures forall i :: 0 <= i < |Restaurants| ==> Ordered(Restaurants[i].travel)
  {
  }

  function RestaurantId(x: Restaurant): nat { x.id }

  /** The restaurant whose id, as a string, is the selected value. */
  function SelectRestaurant(selected: string): (r: Option<Restaurant>)
    ensures r.None? <==> forall i :: 0 <= i < |Restaurants| ==> IntToString(Restaurants[i].id) != selected
    ensures r.Some? ==> r.value in Restaurants && IntToString(r.value.id) == selected
  {
    FindMatchesId(Restaurants, RestaurantId, selected);
    Find(Restaurants, MatchesId(RestaurantId, selected))
  }

  /** No two restaurants answer the same selection. */
  lemma AtMostOneRestaurantMatches(selected: string, i: nat, j: nat)
    requires i < |Restaurants| && j < |Restaurants|
    requires IntToString(Restaurants[i].id) == selected && IntToString(Restaurants[j].id) == selected
    ensures i == j
  {
    IntToStringInjective(Restaurants[i].id, Restaurants[j].id);
  }

  /** The placeholder "" selects no restaurant. */
  lemma PlaceholderSelectsNoRestaurant()
    ensures SelectRestaurant("").None?
  {
  }

  /** The value of restaurant k's menu item selects restaurant k. */
  lemma SelectRestaurantByMenuValue(k: nat)
    requires 1 <= k <= |Restaurants|
    ensures SelectRestaurant(IntToString(k)) == Some(Restaurants[k - 1])
  {
    RestaurantTable();
    FindNumbered(Restaurants, RestaurantId, k);
  }

  /** Each restaurant's three avatar colours get no milder from driving to
      biking to walking. */
  lemma RestaurantAvatarColors(i: nat)
    requires i < |Restaurants|
    ensures Severity(TimeColorOf(Restaurants[i].travel.driving.minutes))
            <= Severity(TimeColorOf(Restaurants[i].travel.biking.minutes))
            <= Severity(TimeColorOf(Restaurants[i].travel.walking.minutes))
  {
    RestaurantTable();
    OrderedColors(Restaurants[i].travel);
  }
}
