/**
 * The per-state lookup tables, the addressable-population formula and the
 * state-ranking loop of scrape_geographic_segmentation. Numbers are exact
 * reals; round() is round-half-even on them.
 */
module StateTables {
  import opened Values
  import opened Rounding

  /** The states the source's tables list. */
  datatype State =
    | Goa | Kerala | Punjab | Delhi | Chandigarh | TamilNadu | Maharashtra | Karnataka
    | Gujarat | WestBengal | Haryana | AndhraPradesh | Telangana | UttarPradesh | Bihar
    | Odisha | Jharkhand

  /** The key the source's dicts use for a state. */
  function Name(s: State): string
  {
    match s
    case Goa => "Goa"
    case Kerala => "Kerala"
    case Punjab => "Punjab"
    case Delhi => "Delhi"
    case Chandigarh => "Chandigarh"
    case TamilNadu => "Tamil Nadu"
    case Maharashtra => "Maharashtra"
    case Karnataka => "Karnataka"
    case Gujarat => "Gujarat"
    case WestBengal => "West Bengal"
    case Haryana => "Haryana"
    case AndhraPradesh => "Andhra Pradesh"
    case Telangana => "Telangana"
    case UttarPradesh => "Uttar Pradesh"
    case Bihar => "Bihar"
    case Odisha => "Odisha"
    case Jharkhand => "Jharkhand"
  }

  /** The state a dict key names, if any: what `key in table` decides. */
  function StateNamed(key: string): (r: Option<State>)
    ensures r.Some? ==> Name(r.value) == key
  {
    if key == "Goa" then Some(Goa)
    else if key == "Kerala" then Some(Kerala)
    else if key == "Punjab" then Some(Punjab)
    else if key == "Delhi" then Some(Delhi)
    else if key == "Chandigarh" then Some(Chandigarh)
    else if key == "Tamil Nadu" then Some(TamilNadu)
    else if key == "Maharashtra" then Some(Maharashtra)
    else if key == "Karnataka" then Some(Karnataka)
    else if key == "Gujarat" then Some(Gujarat)
    else if key == "West Bengal" then Some(WestBengal)
    else if key == "Haryana" then Some(Haryana)
    else if key == "Andhra Pradesh" then Some(AndhraPradesh)
    else if key == "Telangana" then Some(Telangana)
    else if key == "Uttar Pradesh" then Some(UttarPradesh)
    else if key == "Bihar" then Some(Bihar)
    else if key == "Odisha" then Some(Odisha)
    else if key == "Jharkhand" then Some(Jharkhand)
    else None
  }

  /** Every state's key leads back to that state, so distinct states have distinct keys. */
  lemma StateNameRoundTrip(s: State)
    ensures StateNamed(Name(s)) == Some(s)
  {
  }

  lemma NameInjective(s: State, t: State)
    ensures Name(s) == Name(t) ==> s == t
  {
    StateNameRoundTrip(s);
    StateNameRoundTrip(t);
  }

  datatype StateFactors = StateFactors(state: State, multiplier: real, developmentIndex: real)

  /** states_with_multipliers, in the source's order. */
  const StatesWithMultipliers: seq<StateFactors> := [
    StateFactors(Goa, 3.2, 0.85),
    StateFactors(Kerala, 2.8, 0.82),
    StateFactors(Punjab, 2.5, 0.75),
    StateFactors(Delhi, 2.3, 0.88),
    StateFactors(Chandigarh, 2.4, 0.87),
    StateFactors(TamilNadu, 2.0, 0.78),
    StateFactors(Maharashtra, 1.8, 0.80),
    StateFactors(Karnataka, 1.7, 0.76),
    StateFactors(Gujarat, 1.6, 0.74),
    StateFactors(WestBengal, 1.4, 0.65),
    StateFactors(Haryana, 2.1, 0.73),
    StateFactors(AndhraPradesh, 1.5, 0.68),
    StateFactors(Telangana, 1.6, 0.72),
    StateFactors(UttarPradesh, 0.9, 0.58),
    StateFactors(Bihar, 0.7, 0.52),
    StateFactors(Odisha, 0.8, 0.55),
    StateFactors(Jharkhand, 0.8, 0.54)
  ]

  /** The WHO baseline obesity rate the multipliers scale. */
  const NationalBaseRate: real := 3.9

  /** purchasing_power_map */
  function PurchasingPowerEntry(s: State): int
  {
    match s
    case Goa => 85 case Delhi => 88 case Chandigarh => 82 case Kerala => 75 case Punjab => 72
    case Maharashtra => 78 case Karnataka => 74 case TamilNadu => 76 case Gujarat => 73
    case Haryana => 71 case WestBengal => 62 case AndhraPradesh => 65 case Telangana => 68
    case UttarPradesh => 45 case Bihar => 38 case Odisha => 42 case Jharkhand => 41
  }

  /** healthcare_access_map */
  function HealthcareAccessEntry(s: State): int
  {
    match s
    case Delhi => 95 case Goa => 88 case Chandigarh => 90 case Kerala => 85 case Punjab => 78
    case Maharashtra => 82 case Karnataka => 80 case TamilNadu => 83 case Gujarat => 79
    case Haryana => 76 case WestBengal => 72 case AndhraPradesh => 70 case Telangana => 75
    case UttarPradesh => 58 case Bihar => 45 case Odisha => 52 case Jharkhand => 48
  }

  /** state_populations, in millions. */
  function PopulationEntry(s: State): real
  {
    match s
    case Goa => 1.5 case Kerala => 35.0 case Punjab => 30.1 case Delhi => 32.9
    case Maharashtra => 123.1 case Karnataka => 67.6 case TamilNadu => 77.8
    case Gujarat => 70.1 case WestBengal => 97.7 case Haryana => 28.9
    case Chandigarh => 1.2 case AndhraPradesh => 53.9 case Telangana => 38.5
    case UttarPradesh => 238.6 case Bihar => 128.5 case Odisha => 45.4 case Jharkhand => 38.6
  }

  /** _get_purchasing_power: the listed index, 50 for a key no table lists. */
  function PurchasingPower(key: string): (r: int)
    ensures 38 <= r <= 88
    ensures StateNamed(key).None? ==> r == 50
    ensures forall s :: Name(s) == key ==> r == PurchasingPowerEntry(s)
  {
    NameLookup(key);
    match StateNamed(key)
    case None => 50
    case Some(s) => PurchasingPowerEntry(s)
  }

  /** _get_healthcare_access_score: the listed score, 60 for a key no table lists. */
  function HealthcareAccessScore(key: string): (r: int)
    ensures 45 <= r <= 95
    ensures StateNamed(key).None? ==> r == 60
    ensures forall s :: Name(s) == key ==> r == HealthcareAccessEntry(s)
  {
    NameLookup(key);
    match StateNamed(key)
    case None => 60
    case Some(s) => HealthcareAccessEntry(s)
  }

  /** state_populations.get(state, 20.0) */
  function Population(key: string): (r: real)
    ensures 1.2 <= r <= 238.6
    ensures StateNamed(key).None? ==> r == 20.0
    ensures forall s :: Name(s) == key ==> r == PopulationEntry(s)
  {
    NameLookup(key);
    match StateNamed(key)
    case None => 20.0
    case Some(s) => PopulationEntry(s)
  }

  lemma NameLookup(key: string)
    ensures forall s :: Name(s) == key ==> StateNamed(key) == Some(s)
  {
    forall s | Name(s) == key ensures StateNamed(key) == Some(s) {
      StateNameRoundTrip(s);
    }
  }

  function Max(a: real, b: real): real { if a >= b then a else b }

  /** The larger of the obesity rate and 0.7 times the diabetes rate, as a fraction. */
  function CombinedPrevalence(obesity: real, diabetes: real): (c: real)
    ensures c >= obesity / 100.0 && c >= diabetes * 0.7 / 100.0
    ensures c == obesity / 100.0 || c == diabetes * 0.7 / 100.0
  {
    Max(obesity, diabetes * 0.7) / 100.0
  }

  /**
   * round(population * combined_prevalence, 2) for a population in millions:
   * a whole number of hundredths, within half a hundredth of the exact
   * product, never negative.
   */
  function AddressableOf(population: real, obesity: real, diabetes: real): (r: real)
    requires population >= 0.0
    ensures -0.005 <= r - population * CombinedPrevalence(obesity, diabetes) <= 0.005
    ensures (r * 100.0).Floor as real == r * 100.0
    ensures obesity >= 0.0 ==> r >= 0.0
  {
    var combined := CombinedPrevalence(obesity, diabetes);
    NonNegativeProduct(population, combined);
    Round2(population * combined)
  }

  /** _calculate_addressable_population: the formula applied to the state's population. */
  function AddressablePopulation(state: string, obesity: real, diabetes: real): (r: real)
    ensures -0.005 <= r - Population(state) * CombinedPrevalence(obesity, diabetes) <= 0.005
    ensures (r * 100.0).Floor as real == r * 100.0
    ensures obesity >= 0.0 ==> r >= 0.0
    ensures StateNamed(state).None? ==> r == AddressableOf(20.0, obesity, diabetes)
    ensures forall s :: Name(s) == state ==> r == AddressableOf(PopulationEntry(s), obesity, diabetes)
  {
    AddressableOf(Population(state), obesity, diabetes)
  }

  lemma NonNegativeProduct(p: real, c: real)
    requires p >= 0.0
    ensures c >= 0.0 ==> Round2(p * c) >= 0.0
  {
    if c >= 0.0 {
      MulMonotone(p, 0.0, c);
      Round2Monotone(0.0, p * c);
    }
  }

  lemma MulMonotone(p: real, a: real, b: real)
    requires p >= 0.0 && a <= b
    ensures p * a <= p * b
  {
    assert p * b - p * a == p * (b - a);
  }

  /** Obesity rate of a state: the base rate scaled by its multiplier, to one decimal. */
  function ObesityRate(f: StateFactors): real
  {
    Round1(NationalBaseRate * f.multiplier)
  }

  /** Diabetes rate: 2.8 times the (rounded) obesity rate, to one decimal. */
  function DiabetesRate(f: StateFactors): real
  {
    Round1(ObesityRate(f) * 2.8)
  }

  /** The keys of a state_ranking entry. */
  const RankEntryKeys: set<string> :=
    {"obesity_prevalence", "diabetes_prevalence", "development_index", "market_potential_score"}

  /** The state_ranking entry derived from one state's factors. */
  function RankEntry(f: StateFactors): (r: Value)
    ensures r.Obj? && r.fields.Keys == RankEntryKeys
    ensures r.fields["obesity_prevalence"] == Num(ObesityRate(f))
    ensures r.fields["diabetes_prevalence"] == Num(DiabetesRate(f))
  {
    var o := ObesityRate(f);
    var d := DiabetesRate(f);
    Obj(map["obesity_prevalence" := Num(o),
            "diabetes_prevalence" := Num(d),
            "development_index" := Num(f.developmentIndex),
            "market_potential_score" := Num(Round1(o * 0.4 + d * 0.3 + f.developmentIndex * 30.0))])
  }

  /** The derived rates stay within rounding distance of the formulas. */
  lemma RankRatesFollowFormulas(f: StateFactors)
    ensures -0.05 <= ObesityRate(f) - 3.9 * f.multiplier <= 0.05
    ensures -0.05 <= DiabetesRate(f) - ObesityRate(f) * 2.8 <= 0.05
    ensures f.multiplier > 0.0 ==> ObesityRate(f) >= 0.0
  {
    if f.multiplier > 0.0 {
      Round1Monotone(0.0, NationalBaseRate * f.multiplier);
    }
  }

  /** A larger multiplier never ranks a state's obesity rate lower. */
  lemma ObesityRateMonotone(f: StateFactors, g: StateFactors)
    requires f.multiplier <= g.multiplier
    ensures ObesityRate(f) <= ObesityRate(g)
  {
    Round1Monotone(NationalBaseRate * f.multiplier, NationalBaseRate * g.multiplier);
  }

  predicate DistinctStates(states: seq<StateFactors>)
  {
    forall i, j :: 0 <= i < j < |states| ==> states[i].state != states[j].state
  }

  /** A state's position in states_with_multipliers. */
  function TablePosition(s: State): nat
  {
    match s
    case Goa => 0 case Kerala => 1 case Punjab => 2 case Delhi => 3 case Chandigarh => 4
    case TamilNadu => 5 case Maharashtra => 6 case Karnataka => 7 case Gujarat => 8
    case WestBengal => 9 case Haryana => 10 case AndhraPradesh => 11 case Telangana => 12
    case UttarPradesh => 13 case Bihar => 14 case Odisha => 15 case Jharkhand => 16
  }

  lemma TablePositionAt(i: int)
    requires 0 <= i < |StatesWithMultipliers|
    ensures TablePosition(StatesWithMultipliers[i].state) == i
  {
    var t := StatesWithMultipliers;
    if i < 6 {
      assert i == 0 || i == 1 || i == 2 || i == 3 || i == 4 || i == 5;
    } else if i < 12 {
      assert i == 6 || i == 7 || i == 8 || i == 9 || i == 10 || i == 11;
    } else {
      assert i == 12 || i == 13 || i == 14 || i == 15 || i == 16;
    }
  }

  /** The source's table lists each state once. */
  lemma StatesWithMultipliersDistinct()
    ensures DistinctStates(StatesWithMultipliers)
  {
    forall i, j | 0 <= i < j < |StatesWithMultipliers|
      ensures StatesWithMultipliers[i].state != StatesWithMultipliers[j].state
    {
      TablePositionAt(i);
      TablePositionAt(j);
    }
  }

  /** The ranking as the loop builds it: one update per listed state, in order. */
  function RankingOf(states: seq<StateFactors>): map<string, Value>
  {
    if states == [] then map[]
    else RankingOf(states[..|states| - 1])[Name(states[|states| - 1].state) := RankEntry(states[|states| - 1])]
  }

  /** Every listed state has its derived entry under its name. */
  lemma {:induction false} RankingOfEntries(states: seq<StateFactors>)
    requires DistinctStates(states)
    ensures forall i :: 0 <= i < |states| ==>
      Name(states[i].state) in RankingOf(states) && RankingOf(states)[Name(states[i].state)] == RankEntry(states[i])
  {
    if states != [] {
      var init := states[..|states| - 1];
      var last := states[|states| - 1];
      var before := RankingOf(init);
      var key := Name(last.state);
      assert RankingOf(states) == before[key := RankEntry(last)];
      assert DistinctStates(init) by {
        forall i, j | 0 <= i < j < |init| ensures init[i].state != init[j].state {
          assert init[i] == states[i] && init[j] == states[j];
        }
      }
      RankingOfEntries(init);
      forall i | 0 <= i < |states|
        ensures Name(states[i].state) in RankingOf(states)
        ensures RankingOf(states)[Name(states[i].state)] == RankEntry(states[i])
      {
        if i < |init| {
          assert init[i] == states[i];
          NameInjective(states[i].state, last.state);
        }
      }
    }
  }

  /** Only listed states are ranked. */
  lemma {:induction false} RankingOfKeys(states: seq<StateFactors>)
    ensures forall key :: key in RankingOf(states) ==> exists i :: 0 <= i < |states| && Name(states[i].state) == key
  {
    if states != [] {
      var init := states[..|states| - 1];
      RankingOfKeys(init);
      forall k | k in RankingOf(states)
        ensures exists i :: 0 <= i < |states| && Name(states[i].state) == k
      {
        if k != Name(states[|states| - 1].state) {
          assert k in RankingOf(init);
          var i :| 0 <= i < |init| && Name(init[i].state) == k;
          assert init[i] == states[i];
        }
      }
    }
  }

  /** Every listed state has its derived entry under its name, and nothing else is ranked. */
  lemma RankingOfCharacterization(states: seq<StateFactors>)
    requires DistinctStates(states)
    ensures forall i :: 0 <= i < |states| ==>
      Name(states[i].state) in RankingOf(states) && RankingOf(states)[Name(states[i].state)] == RankEntry(states[i])
    ensures forall key :: key in RankingOf(states) ==> exists i :: 0 <= i < |states| && Name(states[i].state) == key
  {
    RankingOfEntries(states);
    RankingOfKeys(states);
  }

  /**
   * The loop filling geographic_data['state_ranking'] from
   * states_with_multipliers, one entry per state under its name.
   */
  method DeriveStateRanking(states: seq<StateFactors>) returns (ranking: map<string, Value>)
    ensures ranking == RankingOf(states)
  {
    ranking := map[];
    var i := 0;
    while i < |states|
      invariant 0 <= i <= |states|
      invariant ranking == RankingOf(states[..i])
    {
      var f := states[i];
      var obesityRate := Round1(NationalBaseRate * f.multiplier);
      var diabetesRate := Round1(obesityRate * 2.8);
      ranking := ranking[Name(f.state) := Obj(map[
        "obesity_prevalence" := Num(obesityRate),
        "diabetes_prevalence" := Num(diabetesRate),
        "development_index" := Num(f.developmentIndex),
        "market_potential_score" :=
          Num(Round1(obesityRate * 0.4 + diabetesRate * 0.3 + f.developmentIndex * 30.0))])];
      assert states[..i + 1][..i] == states[..i];
      i := i + 1;
    }
    assert states[..|states|] == states;
  }
}
