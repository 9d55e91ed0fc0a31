/**
 * The food allow-list and the per-label decisions taken from it: the box
 * colour and the non-food test of the detection loop.
 */
module Food {

  /** The labels treated as food, in the order the script lists them. "hand"
      is not a food class of the detector's label table; it is listed so that
      the operator's hands never count as a non-food item. */
  const FoodItems: seq<string> :=
    ["apple", "banana", "orange", "carrot", "pizza", "cake", "sandwich", "hand"]

  /** The test `label in food_items`: list membership by string equality. */
  predicate IsFood(name: string)
  {
    name in FoodItems
  }

  /** A colour tuple in OpenCV's channel order (blue, green, red). */
  datatype Colour = Colour(blue: int, green: int, red: int)

  /** Box and caption colour of a food detection. */
  const FoodColour := Colour(0, 255, 0)
  /** Box and caption colour of any other detection. */
  const NonFoodColour := Colour(255, 0, 0)

  /** The colour chosen for a detection with class name `name`. */
  function BoxColour(name: string): (c: Colour)
    ensures c == FoodColour <==> IsFood(name)
    ensures c == NonFoodColour <==> !IsFood(name)
    ensures c == FoodColour || c == NonFoodColour
  {
    if IsFood(name) then FoodColour else NonFoodColour
  }

  /** The food test accepts exactly the eight listed labels and nothing else. */
  lemma FoodExactly(name: string)
    ensures IsFood(name) <==>
      name == "apple" || name == "banana" || name == "orange" || name == "carrot" ||
      name == "pizza" || name == "cake" || name == "sandwich" || name == "hand"
  {
  }

  /** The synthetic label "hand" is food; labels outside the list, such as a
      knife, a person or an empty label, are not (the test fails closed). */
  lemma HandIsFoodOthersAreNot()
    ensures IsFood("hand")
    ensures !IsFood("knife") && !IsFood("person") && !IsFood("")
  {
    FoodExactly("hand");
    FoodExactly("knife");
    FoodExactly("person");
    FoodExactly("");
  }
}
