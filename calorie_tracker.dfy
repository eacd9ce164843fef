/** The single-responsibility example, first version: the tracker both keeps
    the running total and writes the surplus message itself. */
module CalorieTrackerBad {

  const SurplusMessage := "Max calories exceeded"

  class CalorieTracker {
    var maxCalories: int
    var currentCalories: int

    constructor (maxCalories: int)
      ensures this.maxCalories == maxCalories && currentCalories == 0
    {
      this.maxCalories := maxCalories;
      currentCalories := 0;
    }

    /** Adds the intake to the running total; the console line is written on
        exactly those calls after which the total is over the cap. */
    method TrackCalories(calorieCount: int) returns (log: seq<string>)
      modifies this
      ensures currentCalories == old(currentCalories) + calorieCount
      ensures maxCalories == old(maxCalories)
      ensures log == (if currentCalories > maxCalories then [SurplusMessage] else [])
    {
      currentCalories := currentCalories + calorieCount;
      log := [];
      if currentCalories > maxCalories {
        log := LogCalorieSurplass();
      }
    }

    method LogCalorieSurplass() returns (log: seq<string>)
      ensures log == [SurplusMessage]
    {
      log := [SurplusMessage];
    }
  }

  /** The three calls that follow the class: with a cap of 2000, the totals
      400 and 1600 stay under it and only 2350 reports the surplus. */
  method DailyIntake() returns (first: seq<string>, second: seq<string>, third: seq<string>, total: int)
    ensures first == [] && second == []
    ensures third == ["Max calories exceeded"]
    ensures total == 2350
  {
    var calorieTracker := new CalorieTracker(2000);
    first := calorieTracker.TrackCalories(400);
    second := calorieTracker.TrackCalories(1200);
    third := calorieTracker.TrackCalories(750);
    total := calorieTracker.currentCalories;
  }
}

/** The single-responsibility example, second version: the message goes
    through a separate logging function and the tracker only decides when. */
module CalorieTrackerGood {

  /** The console sink: one call writes one line. */
  function LogMessage(message: string): (lines: seq<string>)
    ensures |lines| == 1 && lines[0] == message
  {
    [message]
  }

  class CalorieTracker {
    var maxCalories: int
    var currentCalories: int

    constructor (maxCalories: int)
      ensures this.maxCalories == maxCalories && currentCalories == 0
    {
      this.maxCalories := maxCalories;
      currentCalories := 0;
    }

    /** Same arithmetic and threshold as the first version; the line now comes
        from LogMessage. A tracker already over its cap reports again on every
        later call that does not bring the total back down. */
    method TrackCalories(calorieCount: int) returns (log: seq<string>)
      modifies this
      ensures currentCalories == old(currentCalories) + calorieCount
      ensures maxCalories == old(maxCalories)
      ensures log == (if currentCalories > maxCalories then ["Max calories exceeded"] else [])
      ensures old(currentCalories) > maxCalories && calorieCount >= 0 ==> log == ["Max calories exceeded"]
    {
      currentCalories := currentCalories + calorieCount;
      log := [];
      if currentCalories > maxCalories {
        log := LogMessage("Max calories exceeded");
      }
    }
  }
}
