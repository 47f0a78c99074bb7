/** The create rules for plants, and how they sit with the thresholds a claim assigns. */
module PlantValidators {
  import opened Wrappers
  import opened Text
  import opened PlantHandlers
  import DeviceClaim

  const DeviceIdRequired := "Valid device ID is required"
  const NameRequired := "Plant name is required"
  const NameTooLong := "Plant name cannot exceed 100 characters"
  const TypeRequired := "Plant type is required"
  const TypeTooLong := "Plant type cannot exceed 100 characters"
  const LowOutOfRange := "Low moisture threshold must be between 10% and 50%"
  const HighOutOfRange := "High moisture threshold must be between 60% and 90%"
  const DurationOutOfRange := "Watering duration must be between 5 and 60 seconds"
  const AgeNotPositive := "Age must be greater than 0"

  predicate LowInRange(low: int) { 10 <= low <= 50 }
  predicate HighInRange(high: int) { 60 <= high <= 90 }
  predicate DurationInRange(seconds: int) { 5 <= seconds <= 60 }

  /** A rule's message when it fails. */
  function Check(ok: bool, message: string): seq<string> {
    if ok then [] else [message]
  }

  /**
   * CreatePlantCommandValidator: every rule runs, so a blank name that is also long
   * reports both of its messages; the age rule runs only when an age is given.
   */
  function CreateValidation(req: CreateRequest): (r: seq<string>)
    ensures r == [] <==>
              && req.deviceKey > 0
              && !IsBlank(req.plantName) && |req.plantName| <= 100
              && !IsBlank(req.plantType) && |req.plantType| <= 100
              && LowInRange(req.moistureThresholdLow) && HighInRange(req.moistureThresholdHigh)
              && DurationInRange(req.wateringDuration)
              && (req.ageWeeks.None? || req.ageWeeks.value > 0)
    ensures |r| <= 9
  {
    Check(req.deviceKey > 0, DeviceIdRequired)
    + Check(!IsBlank(req.plantName), NameRequired) + Check(|req.plantName| <= 100, NameTooLong)
    + Check(!IsBlank(req.plantType), TypeRequired) + Check(|req.plantType| <= 100, TypeTooLong)
    + Check(LowInRange(req.moistureThresholdLow), LowOutOfRange)
    + Check(HighInRange(req.moistureThresholdHigh), HighOutOfRange)
    + Check(DurationInRange(req.wateringDuration), DurationOutOfRange)
    + (if req.ageWeeks.Some? then Check(req.ageWeeks.value > 0, AgeNotPositive) else [])
  }

  /** An accepted plant's low threshold lies at least ten points below its high one. */
  lemma AcceptedThresholdsOrdered(req: CreateRequest)
    requires CreateValidation(req) == []
    ensures req.moistureThresholdLow + 10 <= req.moistureThresholdHigh
    ensures 0 <= req.moistureThresholdLow - 10 <= 40
  {
  }

  /** A create request carrying what a claim of `plantType` would store. */
  function ClaimLike(deviceKey: int, name: string, plantType: string): CreateRequest {
    var t := DeviceClaim.Thresholds(plantType);
    CreateRequest(deviceKey, name, plantType, None, None, t.0, t.1,
                  DeviceClaim.WateringDurationFor(plantType), true, None)
  }

  /**
   * The thresholds and duration a claim assigns pass the create rules for every plant
   * type except aloe vera, whose high threshold of 50 is below 60.
   */
  lemma ClaimDefaultsPassCreateRules(plantType: string)
    ensures var t := DeviceClaim.Thresholds(plantType);
            LowInRange(t.0) && DurationInRange(DeviceClaim.WateringDurationFor(plantType))
    ensures HighInRange(DeviceClaim.Thresholds(plantType).1) <==> ToLower(plantType) != "aloe vera"
  {
  }

  /** So the create endpoint refuses a plant configured as a claim configures an aloe vera. */
  lemma AloeVeraClaimRefusedByCreate(deviceKey: int, name: string)
    ensures HighOutOfRange in CreateValidation(ClaimLike(deviceKey, name, "aloe vera"))
  {
    assert ToLower("aloe vera") == "aloe vera";
    var req := ClaimLike(deviceKey, name, "aloe vera");
    var high := Check(HighInRange(req.moistureThresholdHigh), HighOutOfRange);
    assert high == [HighOutOfRange];
    var r := CreateValidation(req);
    var pre := Check(req.deviceKey > 0, DeviceIdRequired)
      + Check(!IsBlank(req.plantName), NameRequired) + Check(|req.plantName| <= 100, NameTooLong)
      + Check(!IsBlank(req.plantType), TypeRequired) + Check(|req.plantType| <= 100, TypeTooLong)
      + Check(LowInRange(req.moistureThresholdLow), LowOutOfRange);
    assert r[|pre|] == HighOutOfRange;
  }
}
