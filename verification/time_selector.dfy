/** The time-window and food-preference screen (Meeat/TimeSelectorView.swift).
    The start and end times are the parent's bindings; the three preference
    choices are local state that only the pickers change, and every picker
    offers exactly the entries of `FoodCategories`. */
module TimeSelector {
  import opened Models

  const FoodCategories: seq<string> :=
    ["Japanese", "Korean", "Thai", "Italian", "Chinese", "Hot Pot", "Vegetarian", "Fast Food", "Desserts"]

  /** `isTimeValid`: the window must end strictly after it starts, so, with
      whole-second dates, a valid window lasts at least one second, and an
      empty or reversed one is refused. */
  predicate IsTimeValid(start: Date, end: Date): (valid: bool)
    ensures valid ==> end - start >= 1
    ensures end <= start ==> !valid
  {
    end > start
  }

  /** What the screen derives from the window: whether Start Matching is
      enabled, whether the red warning is shown, and the button's fill. */
  datatype Gates = Gates(startEnabled: bool, warningShown: bool, buttonColor: Color)

  function WindowGates(start: Date, end: Date): (g: Gates)
    ensures g.startEnabled <==> start < end
    ensures g.warningShown <==> !g.startEnabled
    ensures g.buttonColor == (if g.startEnabled then Pink else Gray)
  {
    var valid := IsTimeValid(start, end);
    Gates(valid, !valid, if valid then Pink else Gray)
  }

  /** An empty window (equal times) is refused, as is a reversed one. */
  lemma EqualTimesInvalid(t: Date)
    ensures !IsTimeValid(t, t) && WindowGates(t, t).warningShown
  {
  }

  /** The three initial preferences are the first three categories, and they
      are pairwise distinct. */
  lemma InitialChoicesDistinct()
    ensures FoodCategories[0] != FoodCategories[1]
    ensures FoodCategories[1] != FoodCategories[2]
    ensures FoodCategories[0] != FoodCategories[2]
  {
  }

  class TimeSelectorView {
    var startTime: Date
    var endTime: Date
    var firstChoice: string
    var secondChoice: string
    var thirdChoice: string

    /** Every preference is one of the offered categories. */
    ghost predicate Valid()
      reads this
    {
      firstChoice in FoodCategories && secondChoice in FoodCategories && thirdChoice in FoodCategories
    }

    constructor (start: Date, end: Date)
      ensures Valid()
      ensures startTime == start && endTime == end
      ensures firstChoice == FoodCategories[0] && secondChoice == FoodCategories[1] && thirdChoice == FoodCategories[2]
    {
      startTime, endTime := start, end;
      firstChoice, secondChoice, thirdChoice := FoodCategories[0], FoodCategories[1], FoodCategories[2];
    }

    /** One of the three pickers (`priority` 1, 2 or 3) is set to `category`;
        the picker offers nothing outside `FoodCategories`. */
    method Choose(priority: int, category: string)
      requires Valid()
      requires 1 <= priority <= 3 && category in FoodCategories
      modifies this
      ensures Valid()
      ensures firstChoice == (if priority == 1 then category else old(firstChoice))
      ensures secondChoice == (if priority == 2 then category else old(secondChoice))
      ensures thirdChoice == (if priority == 3 then category else old(thirdChoice))
      ensures startTime == old(startTime) && endTime == old(endTime)
    {
      if priority == 1 {
        firstChoice := category;
      } else if priority == 2 {
        secondChoice := category;
      } else {
        thirdChoice := category;
      }
    }

    /** The start-time picker. */
    method PickStartTime(t: Date)
      requires Valid()
      modifies this`startTime
      ensures Valid() && startTime == t
    {
      startTime := t;
    }

    /** The end-time picker. */
    method PickEndTime(t: Date)
      requires Valid()
      modifies this`endTime
      ensures Valid() && endTime == t
    {
      endTime := t;
    }

    /** A tap on Start Matching: the button is disabled for an invalid window,
        so `onStartMatching` fires exactly when the window is valid. */
    method TapStartMatching() returns (fires: bool)
      ensures fires <==> endTime > startTime
      ensures fires <==> !WindowGates(startTime, endTime).warningShown
    {
      fires := WindowGates(startTime, endTime).startEnabled;
    }
  }
}
