/**
  The rule-based recommendation engine `generateRecommendation`
  (server/engine/recommender.js). It fills one recommendation record from a
  farm, an optional sensor reading, an optional drone detection and two
  knowledge-base tables, by three independent rules: crop, water, disease.
 */
module Recommender {
  import opened Wrappers
  import opened Text
  import opened Search

  /** The farm record: its soil type and its crop (`"None"` or `""` when nothing is planted). */
  datatype Farm = Farm(soilType: string, currentCrop: string)

  /** An IoT sensor reading; the water level is only ever compared. */
  datatype IotReading = IotReading(waterLevel: real)

  /** A drone detection carrying the detected disease label. */
  datatype DroneDetection = DroneDetection(diseaseType: string)

  /** A crop knowledge-base entry: the crop recommended for a soil type. */
  datatype CropRule = CropRule(soilType: string, recommendedCrop: string)

  /** A disease knowledge-base entry: a disease name and its treatment. */
  datatype DiseaseRule = DiseaseRule(
    diseaseName: string,
    medicine: string,
    medicineSecondary: string,
    dosage: string,
    preventiveMeasures: string,
    timeline: string)

  /** The engine's output record, one string per field. */
  datatype Recommendation = Recommendation(
    cropSuggestion: string,
    waterAdvice: string,
    diseaseDetected: string,
    medicineSuggestion: string,
    medicineSecondary: string,
    dosage: string,
    preventiveMeasures: string,
    timeline: string)

  /** The template every call starts from. */
  const DefaultRecommendation := Recommendation(
    "Keep monitoring", "Check water levels", "None", "None", "None", "N/A", "None", "None")

  /** The engine's "no crop planted" test: exactly the strings `"None"` and `""`, case-sensitively. */
  predicate HasNoCrop(farm: Farm)
  {
    farm.currentCrop == "None" || farm.currentCrop == ""
  }

  /** The crop lookup's predicate: the entry is for this soil type, compared exactly. */
  function SoilIs(soil: string): (p: CropRule -> bool)
  {
    (c: CropRule) => c.soilType == soil
  }

  /**
    The disease lookup's predicate for a normalised label `target`: the rule's
    normalised name equals it, contains it, or is contained in it.
   */
  function NameMatches(target: string): (p: DiseaseRule -> bool)
    ensures forall d :: p(d) <==>
      || Normalize(d.diseaseName) == target
      || (exists k :: OccursAt(Normalize(d.diseaseName), target, k))
      || (exists k :: OccursAt(target, Normalize(d.diseaseName), k))
  {
    IncludesIffEverywhere();
    (d: DiseaseRule) => Normalize(d.diseaseName) == target
      || Includes(Normalize(d.diseaseName), target)
      || Includes(target, Normalize(d.diseaseName))
  }

  /** The five treatment fields of `rec` hold the given values. */
  predicate TreatmentIs(rec: Recommendation, medicine: string, secondary: string,
                        dosage: string, preventive: string, timeline: string) {
    && rec.medicineSuggestion == medicine
    && rec.medicineSecondary == secondary
    && rec.dosage == dosage
    && rec.preventiveMeasures == preventive
    && rec.timeline == timeline
  }

  /** The five treatment fields of `rec` are those of `rule`, verbatim. */
  predicate CopiesTreatment(rec: Recommendation, rule: DiseaseRule) {
    TreatmentIs(rec, rule.medicine, rule.medicineSecondary, rule.dosage,
                rule.preventiveMeasures, rule.timeline)
  }

  /**
    The crop rule: with no crop planted, the suggestion names the crop of the first
    entry for the farm's soil, or stays "Keep monitoring" when there is none;
    otherwise it names the current crop, whatever the table holds.
   */
  ghost predicate CropRuleHolds(farm: Farm, kbCrops: seq<CropRule>, suggestion: string) {
    if HasNoCrop(farm) then
      || (NoMatch(kbCrops, SoilIs(farm.soilType)) && suggestion == "Keep monitoring")
      || (exists i :: IsFirstMatch(kbCrops, SoilIs(farm.soilType), i)
                      && suggestion == "Recommended: " + kbCrops[i].recommendedCrop)
    else
      suggestion == "Current Crop: " + farm.currentCrop
  }

  /**
    The water rule: without a reading the advice stays "Check water levels"; with one,
    each of the three codes is given exactly when the level lies in its band
    (below 5.0, above 10.0, or from 5.0 to 10.0 inclusive).
   */
  ghost predicate WaterRuleHolds(iot: Option<IotReading>, advice: string) {
    match iot
    case None => advice == "Check water levels"
    case Some(reading) =>
      && (advice == "water_low" <==> reading.waterLevel < 5.0)
      && (advice == "water_high" <==> reading.waterLevel > 10.0)
      && (advice == "water_optimal" <==> 5.0 <= reading.waterLevel <= 10.0)
  }

  /**
    The disease rule: without a detection the disease and treatment fields keep their
    defaults. With one, the label is reported verbatim and the treatment is copied from
    the first rule whose name matches the normalised label; when no rule matches it is
    "Consult local expert" for any label other than exactly "Healthy", and the defaults
    for "Healthy".
   */
  ghost predicate DiseaseRuleHolds(drone: Option<DroneDetection>, kbDiseases: seq<DiseaseRule>,
                                   rec: Recommendation) {
    match drone
    case None =>
      rec.diseaseDetected == "None" && TreatmentIs(rec, "None", "None", "N/A", "None", "None")
    case Some(d) =>
      var target := Normalize(d.diseaseType);
      && rec.diseaseDetected == d.diseaseType
      && (|| (exists i :: IsFirstMatch(kbDiseases, NameMatches(target), i)
                          && CopiesTreatment(rec, kbDiseases[i]))
          || (&& NoMatch(kbDiseases, NameMatches(target))
              && d.diseaseType != "Healthy"
              && TreatmentIs(rec, "Consult local expert", "None", "N/A", "None", "None"))
          || (&& NoMatch(kbDiseases, NameMatches(target))
              && d.diseaseType == "Healthy"
              && TreatmentIs(rec, "None", "None", "N/A", "None", "None")))
  }

  /**
    `generateRecommendation`: starts from the default record and overwrites its
    fields through the crop, water and disease branches in turn.
   */
  method GenerateRecommendation(farm: Farm, iot: Option<IotReading>, drone: Option<DroneDetection>,
                                kbCrops: seq<CropRule>, kbDiseases: seq<DiseaseRule>)
    returns (rec: Recommendation)
    ensures CropRuleHolds(farm, kbCrops, rec.cropSuggestion)
    ensures WaterRuleHolds(iot, rec.waterAdvice)
    ensures DiseaseRuleHolds(drone, kbDiseases, rec)
  {
    rec := DefaultRecommendation;

    if HasNoCrop(farm) {
      var soilRec := FindFirst(kbCrops, SoilIs(farm.soilType));
      if soilRec.Some? {
        rec := rec.(cropSuggestion := "Recommended: " + kbCrops[soilRec.value].recommendedCrop);
        assert IsFirstMatch(kbCrops, SoilIs(farm.soilType), soilRec.value);
      }
    } else {
      rec := rec.(cropSuggestion := "Current Crop: " + farm.currentCrop);
    }
    assert CropRuleHolds(farm, kbCrops, rec.cropSuggestion);

    if iot.Some? {
      if iot.value.waterLevel < 5.0 {
        rec := rec.(waterAdvice := "water_low");
      } else if iot.value.waterLevel > 10.0 {
        rec := rec.(waterAdvice := "water_high");
      } else {
        rec := rec.(waterAdvice := "water_optimal");
      }
    }
    assert WaterRuleHolds(iot, rec.waterAdvice);

    if drone.Some? {
      rec := rec.(diseaseDetected := drone.value.diseaseType);
      var target := Normalize(drone.value.diseaseType);
      var diseaseRule := FindFirst(kbDiseases, NameMatches(target));
      if diseaseRule.Some? {
        var rule := kbDiseases[diseaseRule.value];
        rec := rec.(medicineSuggestion := rule.medicine,
                    medicineSecondary := rule.medicineSecondary,
                    dosage := rule.dosage,
                    preventiveMeasures := rule.preventiveMeasures,
                    timeline := rule.timeline);
        assert IsFirstMatch(kbDiseases, NameMatches(target), diseaseRule.value) && CopiesTreatment(rec, rule);
      } else if drone.value.diseaseType != "Healthy" {
        rec := rec.(medicineSuggestion := "Consult local expert", dosage := "N/A");
        assert TreatmentIs(rec, "Consult local expert", "None", "N/A", "None", "None");
      } else {
        assert TreatmentIs(rec, "None", "None", "N/A", "None", "None");
      }
    }
  }

  /** The three rules leave no choice: every field of the record is fixed by the inputs. */
  lemma RecommendationDetermined(farm: Farm, iot: Option<IotReading>, drone: Option<DroneDetection>,
                                 kbCrops: seq<CropRule>, kbDiseases: seq<DiseaseRule>,
                                 r1: Recommendation, r2: Recommendation)
    requires CropRuleHolds(farm, kbCrops, r1.cropSuggestion)
    requires WaterRuleHolds(iot, r1.waterAdvice)
    requires DiseaseRuleHolds(drone, kbDiseases, r1)
    requires CropRuleHolds(farm, kbCrops, r2.cropSuggestion)
    requires WaterRuleHolds(iot, r2.waterAdvice)
    requires DiseaseRuleHolds(drone, kbDiseases, r2)
    ensures r1 == r2
  {
    if HasNoCrop(farm) {
      var p := SoilIs(farm.soilType);
      if i1 :| IsFirstMatch(kbCrops, p, i1) && r1.cropSuggestion == "Recommended: " + kbCrops[i1].recommendedCrop {
        var i2 :| IsFirstMatch(kbCrops, p, i2) && r2.cropSuggestion == "Recommended: " + kbCrops[i2].recommendedCrop;
        FirstMatchUnique(kbCrops, p, i1, i2);
      }
    }
    if drone.Some? {
      var p := NameMatches(Normalize(drone.value.diseaseType));
      if i1 :| IsFirstMatch(kbDiseases, p, i1) && CopiesTreatment(r1, kbDiseases[i1]) {
        var i2 :| IsFirstMatch(kbDiseases, p, i2) && CopiesTreatment(r2, kbDiseases[i2]);
        FirstMatchUnique(kbDiseases, p, i1, i2);
      }
    }
  }

  /** Without a reading and a detection, every field but the crop suggestion keeps its default. */
  lemma AbsentInputsKeepDefaults(farm: Farm, kbCrops: seq<CropRule>, kbDiseases: seq<DiseaseRule>,
                                 rec: Recommendation)
    requires WaterRuleHolds(None, rec.waterAdvice)
    requires DiseaseRuleHolds(None, kbDiseases, rec)
    ensures rec == DefaultRecommendation.(cropSuggestion := rec.cropSuggestion)
  {
  }

  /** A planted crop is echoed whatever the crop table holds. */
  lemma PlantedCropIgnoresTable(farm: Farm, kb1: seq<CropRule>, kb2: seq<CropRule>, s1: string, s2: string)
    requires !HasNoCrop(farm)
    requires CropRuleHolds(farm, kb1, s1) && CropRuleHolds(farm, kb2, s2)
    ensures s1 == s2 == "Current Crop: " + farm.currentCrop
  {
  }

  /** "Dead Heart" normalises to "dead heart". */
  lemma DeadHeartNormalForm()
    ensures Normalize("Dead Heart") == "dead heart"
  {
    assert LowerCase("Dead Heart") == "dead heart";
    assert ReplaceUnderscores("dead heart") == "dead heart";
    assert IsTrimmed("dead heart");
  }

  /**
    A snake-case label and a spaced, capitalised name normalise to the same string, one
    case of `NormalizeIgnoresUnderscores` and `NormalizeIgnoresCase` holding for every string.
   */
  lemma SnakeCaseAndSpacedNamesAgree()
    ensures Normalize("dead_heart") == Normalize("Dead Heart")
  {
    assert LowerCase("dead_heart") == "dead_heart";
    assert ReplaceUnderscores("dead_heart") == "dead heart";
    assert IsTrimmed("dead heart");
    DeadHeartNormalForm();
  }

  /** So the label "dead_heart" matches a rule named "Dead Heart". */
  lemma SnakeCaseLabelMatchesSpacedName(rule: DiseaseRule)
    requires rule.diseaseName == "Dead Heart"
    ensures NameMatches(Normalize("dead_heart"))(rule)
  {
    SnakeCaseAndSpacedNamesAgree();
  }

  /**
    A label that normalises to the empty string (such as `""` or `"__"`) is contained in
    every rule name, so the first rule of a non-empty table supplies the treatment.
   */
  lemma EmptyLabelSelectsFirstRule(drone: Option<DroneDetection>, kbDiseases: seq<DiseaseRule>,
                                   rec: Recommendation)
    requires drone.Some? && Normalize(drone.value.diseaseType) == ""
    requires |kbDiseases| > 0
    requires DiseaseRuleHolds(drone, kbDiseases, rec)
    ensures CopiesTreatment(rec, kbDiseases[0])
  {
    assert IsFirstMatch(kbDiseases, NameMatches(""), 0);
    FirstMatchingRuleIsCopied(drone, kbDiseases, rec, 0);
  }

  /** `"__"` normalises to the empty label. */
  lemma UnderscoresNormaliseToEmpty()
    ensures Normalize("__") == ""
  {
  }

  /** A rule whose name normalises to the empty string matches every label. */
  lemma EmptyRuleNameMatchesEveryLabel(rule: DiseaseRule, detected: string)
    requires Normalize(rule.diseaseName) == ""
    ensures NameMatches(Normalize(detected))(rule)
  {
  }

  /**
    The "Healthy" exception compares the raw label exactly: a lower-case "healthy"
    that matches no rule is sent to a local expert.
   */
  lemma HealthyTestIsCaseSensitive(kbDiseases: seq<DiseaseRule>, rec: Recommendation)
    requires NoMatch(kbDiseases, NameMatches(Normalize("healthy")))
    requires DiseaseRuleHolds(Some(DroneDetection("healthy")), kbDiseases, rec)
    ensures rec.medicineSuggestion == "Consult local expert" && rec.dosage == "N/A"
  {
  }

  /** "Heart" normalises to "heart". */
  lemma HeartNormalForm()
    ensures Normalize("Heart") == "heart"
  {
    assert LowerCase("Heart") == "heart";
    assert ReplaceUnderscores("heart") == "heart";
    assert IsTrimmed("heart");
  }

  /** "heart" is contained in "dead heart", at position 5. */
  lemma HeartOccursInDeadHeart()
    ensures Includes("dead heart", "heart")
  {
  }

  /**
    Table order decides between rules that both match: a shorter name listed first is
    contained in the label and wins over the exact name listed after it.
   */
  lemma EarlierContainedNameWins(detection: DroneDetection, short: DiseaseRule, exact: DiseaseRule,
                                 rec: Recommendation)
    requires detection.diseaseType == "Dead Heart"
    requires short.diseaseName == "Heart" && exact.diseaseName == "Dead Heart"
    requires DiseaseRuleHolds(Some(detection), [short, exact], rec)
    ensures NameMatches(Normalize(detection.diseaseType))(exact)
    ensures CopiesTreatment(rec, short)
  {
    var target := Normalize(detection.diseaseType);
    assert target == "dead heart" && NameMatches(target)(exact) by {
      DeadHeartNormalForm();
    }
    assert Normalize(short.diseaseName) == "heart" by {
      HeartNormalForm();
    }
    assert Includes(target, "heart") by {
      HeartOccursInDeadHeart();
    }
    assert IsFirstMatch([short, exact], NameMatches(target), 0);
    FirstMatchingRuleIsCopied(Some(detection), [short, exact], rec, 0);
  }

  /** A bare soil with an empty crop gets the crop recommended for that soil. */
  lemma LoamySoilExample(s: string)
    requires CropRuleHolds(Farm("loamy", ""), [CropRule("loamy", "Paddy")], s)
    ensures s == "Recommended: Paddy"
  {
    var kb := [CropRule("loamy", "Paddy")];
    assert IsFirstMatch(kb, SoilIs("loamy"), 0);
    if i :| IsFirstMatch(kb, SoilIs("loamy"), i) && s == "Recommended: " + kb[i].recommendedCrop {
      FirstMatchUnique(kb, SoilIs("loamy"), i, 0);
    }
  }

  /** The three water codes at and around the two thresholds. */
  lemma WaterBoundaryExamples(a: string, b: string, c: string, d: string)
    requires WaterRuleHolds(Some(IotReading(4.999)), a)
    requires WaterRuleHolds(Some(IotReading(5.0)), b)
    requires WaterRuleHolds(Some(IotReading(10.0)), c)
    requires WaterRuleHolds(Some(IotReading(10.001)), d)
    ensures a == "water_low" && b == "water_optimal" && c == "water_optimal" && d == "water_high"
  {
  }

  /**
    When the rule at position `k` is the first whose name matches the normalised label,
    the record carries exactly that rule's treatment.
   */
  lemma FirstMatchingRuleIsCopied(drone: Option<DroneDetection>, kbDiseases: seq<DiseaseRule>,
                                  rec: Recommendation, k: int)
    requires drone.Some?
    requires IsFirstMatch(kbDiseases, NameMatches(Normalize(drone.value.diseaseType)), k)
    requires DiseaseRuleHolds(drone, kbDiseases, rec)
    ensures CopiesTreatment(rec, kbDiseases[k])
  {
    var p := NameMatches(Normalize(drone.value.diseaseType));
    assert !NoMatch(kbDiseases, p);
    var i :| IsFirstMatch(kbDiseases, p, i) && CopiesTreatment(rec, kbDiseases[i]);
    FirstMatchUnique(kbDiseases, p, i, k);
  }

  /** A detection named like a rule, up to case, copies all five treatment fields of that rule. */
  lemma DeadHeartTreatmentExample(detection: DroneDetection, rule: DiseaseRule, rec: Recommendation)
    requires detection.diseaseType == "Dead Heart"
    requires rule == DiseaseRule("dead heart", "Chlorantraniliprole", "None", "150ml/acre", "Improve drainage", "7 days")
    requires DiseaseRuleHolds(Some(detection), [rule], rec)
    ensures rec.diseaseDetected == "Dead Heart"
    ensures TreatmentIs(rec, "Chlorantraniliprole", "None", "150ml/acre", "Improve drainage", "7 days")
  {
    var target := Normalize(detection.diseaseType);
    assert Normalize(rule.diseaseName) == target by {
      DeadHeartNormalForm();
      NormalizeFixesNormalForm(rule.diseaseName);
    }
    assert IsFirstMatch([rule], NameMatches(target), 0);
    FirstMatchingRuleIsCopied(Some(detection), [rule], rec, 0);
  }
}
