/**
 * The fixed records of scrape_geographic_segmentation (apart from the
 * derived state ranking), scrape_comorbidity_analysis and
 * scrape_treatment_patterns, written out as Values.
 */
module StaticData {
  import opened Values

  function District(state: string, obesity: real, diabetes: real, urbanPct: real): Value
  {
    Obj(map["state" := Text(state), "obesity_rate" := Num(obesity),
            "diabetes_rate" := Num(diabetes), "urban_pct" := Num(urbanPct)])
  }

  /** Top 10 districts by obesity prevalence. */
  function TopDistricts(): Value
  {
    Obj(map[
      "South Goa" := District("Goa", 14.2, 28.5, 78.0),
      "Ernakulam" := District("Kerala", 12.8, 26.2, 68.0),
      "Ludhiana" := District("Punjab", 11.9, 24.8, 72.0),
      "New Delhi" := District("Delhi", 11.4, 24.1, 95.0),
      "Chennai" := District("Tamil Nadu", 10.8, 22.9, 85.0),
      "Mumbai Suburban" := District("Maharashtra", 10.2, 21.8, 92.0),
      "Bengaluru Urban" := District("Karnataka", 9.8, 20.5, 88.0),
      "Hyderabad" := District("Telangana", 9.5, 19.8, 89.0),
      "Pune" := District("Maharashtra", 9.2, 19.2, 78.0),
      "Gurgaon" := District("Haryana", 8.9, 18.7, 82.0)])
  }

  /** Bottom 10 districts by obesity prevalence. */
  function BottomDistricts(): Value
  {
    Obj(map[
      "Sheohar" := District("Bihar", 1.2, 3.8, 8.0),
      "Araria" := District("Bihar", 1.4, 4.2, 12.0),
      "Kishanganj" := District("Bihar", 1.6, 4.5, 15.0),
      "Darbhanga" := District("Bihar", 1.8, 5.1, 18.0),
      "Saharsa" := District("Bihar", 1.9, 5.4, 16.0),
      "Mayurbhanj" := District("Odisha", 2.1, 5.8, 14.0),
      "Malkangiri" := District("Odisha", 2.2, 6.0, 11.0),
      "Dumka" := District("Jharkhand", 2.4, 6.5, 19.0),
      "Pakur" := District("Jharkhand", 2.5, 6.8, 17.0),
      "Balrampur" := District("Uttar Pradesh", 2.6, 7.2, 22.0)])
  }

  function DistrictData(): Value
  {
    Obj(map["top_10" := TopDistricts(), "bottom_10" := BottomDistricts()])
  }

  function UrbanRuralComparison(): Value
  {
    Obj(map[
      "urban" := Obj(map["obesity_prevalence" := Num(6.8), "diabetes_prevalence" := Num(15.2),
                         "lifestyle_intervention_adoption" := Num(45.2),
                         "pharmacological_treatment_adoption" := Num(12.8)]),
      "rural" := Obj(map["obesity_prevalence" := Num(2.1), "diabetes_prevalence" := Num(8.9),
                         "lifestyle_intervention_adoption" := Num(18.5),
                         "pharmacological_treatment_adoption" := Num(3.2)])])
  }

  function Texts(names: seq<string>): (r: seq<Value>)
    ensures |r| == |names|
    ensures forall i :: 0 <= i < |names| ==> r[i] == Text(names[i])
  {
    if names == [] then [] else [Text(names[0])] + Texts(names[1..])
  }

  function Tier(cities: seq<string>, obesity: real, diabetes: real, adoption: real, potential: real): Value
  {
    Obj(map["cities" := List(Texts(cities)),
            "avg_obesity_prevalence" := Num(obesity),
            "avg_diabetes_prevalence" := Num(diabetes),
            "treatment_adoption_rate" := Num(adoption),
            "market_penetration_potential" := Num(potential)])
  }

  function TierCityAnalysis(): Value
  {
    Obj(map[
      "tier_1" := Tier(["Mumbai", "Delhi", "Bengaluru", "Chennai", "Hyderabad", "Pune", "Kolkata", "Ahmedabad"],
                       9.8, 20.5, 18.5, 85.0),
      "tier_2" := Tier(["Jaipur", "Lucknow", "Kochi", "Coimbatore", "Vadodara", "Nagpur", "Indore", "Bhopal"],
                       6.2, 14.8, 12.3, 58.0),
      "tier_3" := Tier(["Agra", "Varanasi", "Meerut", "Jabalpur", "Rajkot", "Dhanbad", "Amritsar", "Aligarh"],
                       3.8, 9.7, 7.2, 28.0)])
  }

  /** The top-level keys of geographic_data. */
  const GeographicKeys: set<string> :=
    {"state_ranking", "district_data", "urban_rural_comparison", "tier_city_analysis", "regional_insights"}

  /** geographic_data with its five parts. */
  function GeographicOf(stateRanking: map<string, Value>, districts: Value, urbanRural: Value, tiers: Value): (r: Value)
    ensures r.Obj? && r.fields.Keys == GeographicKeys
    ensures r.fields["state_ranking"] == Obj(stateRanking)
  {
    Obj(map[
      "state_ranking" := Obj(stateRanking),
      "district_data" := districts,
      "urban_rural_comparison" := urbanRural,
      "tier_city_analysis" := tiers,
      "regional_insights" := List([])])
  }

  /** The geographic record around a derived state ranking. */
  function GeographicRecord(stateRanking: map<string, Value>): (r: Value)
    ensures r.Obj? && r.fields.Keys == GeographicKeys
    ensures r.fields["state_ranking"] == Obj(stateRanking)
  {
    GeographicOf(stateRanking, DistrictData(), UrbanRuralComparison(), TierCityAnalysis())
  }

  function Correlation(coefficient: real, risk: string, low: real, mid: real, high: real): Value
  {
    Obj(map["correlation_coefficient" := Num(coefficient),
            "risk_increase" := Text(risk),
            "prevalence_by_bmi" := Obj(map["BMI 25-29.9" := Num(low), "BMI 30-34.9" := Num(mid),
                                           "BMI 35+" := Num(high)])])
  }

  function Demographic(population: real, overlap: real, readiness: real, priority: string): Value
  {
    Obj(map["population_millions" := Num(population), "comorbidity_overlap" := Num(overlap),
            "treatment_readiness" := Num(readiness), "market_priority" := Text(priority)])
  }

  /** The top-level keys of comorbidity_data. */
  const ComorbidityKeys: set<string> :=
    {"obesity_diabetes_correlation", "obesity_hypertension_correlation", "obesity_cvd_correlation",
     "high_risk_demographics"}

  /** The comorbidity_analysis record. */
  function ComorbidityRecord(): (r: Value)
    ensures r.Obj? && r.fields.Keys == ComorbidityKeys
  {
    Obj(map[
      "obesity_diabetes_correlation" := Correlation(0.76, "3.2x higher diabetes risk", 18.5, 42.8, 68.2),
      "obesity_hypertension_correlation" := Correlation(0.68, "2.8x higher hypertension risk", 24.8, 48.6, 72.4),
      "obesity_cvd_correlation" := Obj(map["correlation_coefficient" := Num(0.58),
                                           "risk_increase_percentage" := Num(85.0),
                                           "mortality_risk" := Text("2.4x higher CVD mortality")]),
      "high_risk_demographics" := Obj(map[
        "urban_males_40_60" := Demographic(15.2, 18.5, 72.0, "High"),
        "urban_females_30_50" := Demographic(18.8, 16.8, 68.0, "High"),
        "healthcare_professionals" := Demographic(2.1, 22.4, 89.0, "Very High")])])
  }

  function Intervention(urban: real, rural: real, effectiveness: real, adherence: real): Value
  {
    Obj(map["urban_adoption" := Num(urban), "rural_adoption" := Num(rural),
            "effectiveness_perception" := Num(effectiveness), "long_term_adherence" := Num(adherence)])
  }

  /** The top-level keys of treatment_data. */
  const TreatmentKeys: set<string> :=
    {"lifestyle_interventions", "pharmacological_treatments", "surgical_interventions", "urban_rural_differences"}

  /** The treatment_patterns record. */
  function TreatmentRecord(): (r: Value)
    ensures r.Obj? && r.fields.Keys == TreatmentKeys
  {
    Obj(map[
      "lifestyle_interventions" := Obj(map[
        "diet_modification" := Intervention(45.8, 18.2, 68.5, 28.4),
        "exercise_programs" := Intervention(38.2, 12.8, 72.1, 22.6),
        "behavioral_counseling" := Intervention(22.5, 6.4, 58.9, 35.2)]),
      "pharmacological_treatments" := Obj(map[
        "glp1_agonists" := Obj(map[
          "current_adoption" := Num(4.2), "urban_penetration" := Num(8.5),
          "rural_penetration" := Num(0.8), "physician_awareness" := Num(76.5),
          "patient_acceptance" := Num(58.2), "cost_barrier_impact" := Num(68.9),
          "market_growth_rate" := Num(25.8)]),
        "traditional_diabetes_drugs" := Obj(map[
          "current_adoption" := Num(42.8), "urban_penetration" := Num(65.2),
          "rural_penetration" := Num(28.4), "physician_awareness" := Num(95.8),
          "patient_acceptance" := Num(78.5), "cost_barrier_impact" := Num(35.2)])]),
      "surgical_interventions" := Obj(map[
        "bariatric_surgery" := Obj(map[
          "annual_procedures" := Num(15000.0), "urban_concentration" := Num(98.5),
          "cost_range_lakhs" := Text("2.5-8.0"), "success_rate_perception" := Num(85.2),
          "accessibility_score" := Num(15.8)])]),
      "urban_rural_differences" := Obj(map[
        "treatment_access" := Obj(map["urban_score" := Num(78.5), "rural_score" := Num(32.8),
                                      "gap_percentage" := Num(58.2)]),
        "specialist_availability" := Obj(map["urban_per_100k" := Num(8.5), "rural_per_100k" := Num(1.2),
                                             "gap_ratio" := Num(7.1)]),
        "cost_sensitivity" := Obj(map["urban_willingness_to_pay" := Num(68.2),
                                      "rural_willingness_to_pay" := Num(28.5),
                                      "price_elasticity_difference" := Num(2.4)])])])
  }
}
