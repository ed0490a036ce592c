/**
 * The energy-efficiency estimator of `src/utils/energyCalculator.ts`.
 *
 * Energy, efficiency, cost and emissions are single expressions and are
 * modelled as functions; the sustainability rating (a counter adjusted step
 * by step, then clamped) and the recommendation list (an array grown by
 * `push`) are built by the method `CalculateEnergyEfficiency`, which is
 * proved against the specification functions `RatingSum` and
 * `Recommendations`.
 */
module EnergyCalculator {

  /** The `EnergyInputData` record; every number is already parsed. */
  datatype EnergyInputData = EnergyInputData(
    irrigationHours: real,
    fertilizerUsage: real,
    energyType: string,
    equipmentPower: real,
    fuelConsumption: real,
    electricityCost: real,
    currentYield: real)

  /** The six pieces of advice, in the order the estimator may push them. */
  datatype Advice =
    | SwitchToRenewables
    | PrecisionIrrigation
    | SoilTesting
    | UpgradeEquipment
    | OffPeakScheduling
    | InstallSolar

  /** The `EnergyResults` record. */
  datatype EnergyResults = EnergyResults(
    efficiencyScore: real,
    totalEnergy: real,
    energyCost: real,
    co2Emissions: real,
    sustainabilityRating: int,
    recommendations: seq<Advice>)

  const DefaultEquipmentPower: real := 10.0   // kW, used when equipmentPower is 0
  const FertilizerEnergyPerKg: real := 0.03   // kWh per kg of fertilizer
  const FuelEnergyPerLitre: real := 10.2      // kWh per litre of diesel
  const DefaultElectricityCost: real := 0.12  // per kWh, used when electricityCost is 0
  const DefaultEmissionFactor: real := 0.5    // kg CO2 per kWh for an unknown energy type

  /** kg of CO2 per kWh, by energy type. */
  const EmissionFactors: map<string, real> :=
    map["grid" := 0.5, "solar" := 0.05, "wind" := 0.02, "diesel" := 0.8, "hybrid" := 0.3]

  /** The text shown for each piece of advice. */
  function Message(a: Advice): string
  {
    match a
    case SwitchToRenewables => "Consider switching to renewable energy sources like solar or wind power"
    case PrecisionIrrigation => "Implement drip irrigation or precision watering to reduce irrigation hours"
    case SoilTesting => "Use soil testing to optimize fertilizer application and reduce waste"
    case UpgradeEquipment => "Consider upgrading to more efficient equipment to improve energy utilization"
    case OffPeakScheduling => "Schedule energy-intensive operations during off-peak hours to reduce costs"
    case InstallSolar => "Install solar panels to reduce long-term energy costs and environmental impact"
  }

  /** Every quantity a farmer enters is non-negative. */
  predicate NonNegative(data: EnergyInputData)
  {
    && data.irrigationHours >= 0.0
    && data.fertilizerUsage >= 0.0
    && data.equipmentPower >= 0.0
    && data.fuelConsumption >= 0.0
    && data.electricityCost >= 0.0
    && data.currentYield >= 0.0
  }

  /** `equipmentPower || 10`: a zero power falls back to 10 kW. */
  function EquipmentPower(data: EnergyInputData): (p: real)
    ensures p != 0.0
    ensures data.equipmentPower >= 0.0 ==> p > 0.0
    ensures data.equipmentPower != 0.0 ==> p == data.equipmentPower
    ensures data.equipmentPower == 0.0 ==> p == DefaultEquipmentPower
  {
    if data.equipmentPower != 0.0 then data.equipmentPower else DefaultEquipmentPower
  }

  /** Irrigation, fertilizer and fuel energy, in kWh. */
  function TotalEnergy(data: EnergyInputData): (e: real)
    ensures NonNegative(data) ==> e >= 0.0
    ensures data.irrigationHours == 0.0 && data.fertilizerUsage == 0.0 && data.fuelConsumption == 0.0
            ==> e == 0.0
  {
    data.irrigationHours * EquipmentPower(data)
    + data.fertilizerUsage * FertilizerEnergyPerKg
    + data.fuelConsumption * FuelEnergyPerLitre
  }

  /** kg of yield per kWh; zero instead of a division when no energy is used. */
  function EfficiencyScore(data: EnergyInputData): (s: real)
    ensures TotalEnergy(data) <= 0.0 ==> s == 0.0
    ensures TotalEnergy(data) > 0.0 ==> s * TotalEnergy(data) == data.currentYield * 1000.0
    ensures NonNegative(data) ==> s >= 0.0
  {
    var total := TotalEnergy(data);
    if total > 0.0 then data.currentYield * 1000.0 / total else 0.0
  }

  /** `electricityCost || 0.12`: a zero rate falls back to 0.12. */
  function ElectricityRate(data: EnergyInputData): (rate: real)
    ensures rate != 0.0
    ensures data.electricityCost != 0.0 ==> rate == data.electricityCost
    ensures data.electricityCost == 0.0 ==> rate == DefaultElectricityCost
  {
    if data.electricityCost != 0.0 then data.electricityCost else DefaultElectricityCost
  }

  /** Cost of the total energy at the effective rate. */
  function EnergyCost(data: EnergyInputData): (cost: real)
    ensures NonNegative(data) ==> cost >= 0.0
    ensures data.electricityCost == 0.0 ==> cost == TotalEnergy(data) * DefaultElectricityCost
  {
    TotalEnergy(data) * ElectricityRate(data)
  }

  /** The emission factor of an energy type; unknown types get 0.5. */
  function EmissionFactor(energyType: string): (f: real)
    ensures 0.0 < f <= 0.8
    ensures energyType in EmissionFactors ==> f == EmissionFactors[energyType]
    ensures energyType !in EmissionFactors ==> f == DefaultEmissionFactor
  {
    if energyType in EmissionFactors then EmissionFactors[energyType] else DefaultEmissionFactor
  }

  /** kg of CO2 for the total energy; never more than the dirtiest factor allows. */
  function Co2Emissions(data: EnergyInputData): (co2: real)
    ensures NonNegative(data) ==> 0.0 <= co2 <= 0.8 * TotalEnergy(data)
  {
    TotalEnergy(data) * EmissionFactor(data.energyType)
  }

  /** How much the energy type moves the rating. */
  function SourceBonus(energyType: string): (b: int)
    ensures -2 <= b <= 3
  {
    if energyType == "solar" || energyType == "wind" then 3
    else if energyType == "hybrid" then 2
    else if energyType == "diesel" then -2
    else 0
  }

  /**
   * The unclamped sustainability rating: 5, plus the energy-type bonus, plus
   * one for an efficiency above 6, plus one for fertilizer below 150. It
   * already lies in [3, 10], so the clamp to [1, 10] never changes it.
   */
  function RatingSum(data: EnergyInputData): (n: int)
    ensures 3 <= n <= 10
    ensures data.energyType == "diesel" ==> n <= 5
    ensures data.energyType == "solar" || data.energyType == "wind" ==> n >= 8
  {
    5 + SourceBonus(data.energyType)
    + (if EfficiencyScore(data) > 6.0 then 1 else 0)
    + (if data.fertilizerUsage < 150.0 then 1 else 0)
  }

  /** The condition under which each piece of advice is given. */
  predicate Applies(a: Advice, data: EnergyInputData)
  {
    match a
    case SwitchToRenewables => data.energyType == "grid" || data.energyType == "diesel"
    case PrecisionIrrigation => data.irrigationHours > 150.0
    case SoilTesting => data.fertilizerUsage > 200.0
    case UpgradeEquipment => EfficiencyScore(data) < 5.0
    case OffPeakScheduling => true
    case InstallSolar => data.energyType != "solar"
  }

  /** The order in which the estimator pushes advice. */
  const PushOrder: seq<Advice> :=
    [SwitchToRenewables, PrecisionIrrigation, SoilTesting, UpgradeEquipment, OffPeakScheduling, InstallSolar]

  /** Position of a piece of advice in `PushOrder`. */
  function Rank(a: Advice): (k: nat)
    ensures k < |PushOrder| && PushOrder[k] == a
  {
    match a
    case SwitchToRenewables => 0
    case PrecisionIrrigation => 1
    case SoilTesting => 2
    case UpgradeEquipment => 3
    case OffPeakScheduling => 4
    case InstallSolar => 5
  }

  /** Every piece of advice comes strictly after the ones before it in push order. */
  predicate InPushOrder(s: seq<Advice>)
  {
    forall i, j :: 0 <= i < j < |s| ==> Rank(s[i]) < Rank(s[j])
  }

  /** A piece of advice as a one-entry list when it applies, otherwise nothing. */
  function Pick(a: Advice, data: EnergyInputData): (r: seq<Advice>)
    ensures r == [a] || r == []
    ensures a in r <==> Applies(a, data)
  {
    if Applies(a, data) then [a] else []
  }

  /** The candidates that apply, in the order given. */
  function SelectAdvice(candidates: seq<Advice>, data: EnergyInputData): (r: seq<Advice>)
    ensures forall a :: a in r <==> a in candidates && Applies(a, data)
    ensures |r| <= |candidates|
  {
    if candidates == [] then [] else Pick(candidates[0], data) + SelectAdvice(candidates[1..], data)
  }

  /** Selecting advice keeps the relative order of the candidates. */
  lemma {:induction false} SelectAdviceKeepsOrder(candidates: seq<Advice>, data: EnergyInputData)
    requires InPushOrder(candidates)
    ensures InPushOrder(SelectAdvice(candidates, data))
  {
    if candidates != [] {
      var tail := candidates[1..];
      forall i, j | 0 <= i < j < |tail|
        ensures Rank(tail[i]) < Rank(tail[j])
      {
        assert Rank(candidates[i + 1]) < Rank(candidates[j + 1]);
      }
      SelectAdviceKeepsOrder(tail, data);
      var rest := SelectAdvice(tail, data);
      forall a | a in rest
        ensures Rank(candidates[0]) < Rank(a)
      {
        var k :| 0 <= k < |tail| && tail[k] == a;
        assert candidates[k + 1] == a;
      }
    }
  }

  /** The recommendation list as a specification: the applicable advice, in push order. */
  function Recommendations(data: EnergyInputData): seq<Advice>
  {
    SelectAdvice(PushOrder, data)
  }

  /** One step of the selection, from position `k` of the candidates. */
  lemma SelectAdviceStep(candidates: seq<Advice>, data: EnergyInputData, k: nat)
    requires k < |candidates|
    ensures SelectAdvice(candidates[k..], data)
            == Pick(candidates[k], data) + SelectAdvice(candidates[k + 1..], data)
  {
    assert candidates[k..][1..] == candidates[k + 1..];
  }

  /** Regrouping six appended lists. */
  lemma AppendAssociates(p1: seq<Advice>, p2: seq<Advice>, p3: seq<Advice>, p4: seq<Advice>, p5: seq<Advice>, p6: seq<Advice>)
    ensures p1 + p2 + p3 + p4 + p5 + p6 == p1 + (p2 + (p3 + (p4 + (p5 + p6))))
  {
  }

  /** The recommendation list written out one candidate at a time. */
  lemma RecommendationsUnfolded(data: EnergyInputData)
    ensures Recommendations(data)
            == Pick(SwitchToRenewables, data) + (Pick(PrecisionIrrigation, data) + (Pick(SoilTesting, data)
               + (Pick(UpgradeEquipment, data) + ([OffPeakScheduling] + Pick(InstallSolar, data)))))
  {
    assert PushOrder[6..] == [];
    SelectAdviceStep(PushOrder, data, 5);
    assert SelectAdvice(PushOrder[5..], data) == Pick(InstallSolar, data);
    SelectAdviceStep(PushOrder, data, 4);
    SelectAdviceStep(PushOrder, data, 3);
    SelectAdviceStep(PushOrder, data, 2);
    SelectAdviceStep(PushOrder, data, 1);
    SelectAdviceStep(PushOrder, data, 0);
    assert PushOrder[0..] == PushOrder;
  }

  /**
   * `calculateEnergyEfficiency`: the rating is adjusted step by step and
   * clamped, the recommendations are pushed one by one.
   */
  method CalculateEnergyEfficiency(data: EnergyInputData) returns (res: EnergyResults)
    ensures res.totalEnergy == TotalEnergy(data)
    ensures res.efficiencyScore == EfficiencyScore(data)
    ensures res.energyCost == EnergyCost(data)
    ensures res.co2Emissions == Co2Emissions(data)
    ensures res.sustainabilityRating == RatingSum(data)
    ensures 1 <= res.sustainabilityRating <= 10
    ensures res.recommendations == Recommendations(data)
  {
    var totalEnergy := TotalEnergy(data);
    var efficiencyScore := EfficiencyScore(data);
    var energyCost := EnergyCost(data);
    var co2Emissions := Co2Emissions(data);

    var rating := 5;
    if data.energyType == "solar" || data.energyType == "wind" {
      rating := rating + 3;
    } else if data.energyType == "hybrid" {
      rating := rating + 2;
    } else if data.energyType == "diesel" {
      rating := rating - 2;
    }
    if efficiencyScore > 6.0 {
      rating := rating + 1;
    }
    if data.fertilizerUsage < 150.0 {
      rating := rating + 1;
    }
    assert rating == RatingSum(data);
    rating := if 10 < rating then 10 else rating;
    rating := if rating < 1 then 1 else rating;

    var recommendations: seq<Advice> := [];
    if data.energyType == "grid" || data.energyType == "diesel" {
      recommendations := recommendations + [SwitchToRenewables];
    }
    assert recommendations == Pick(SwitchToRenewables, data);
    if data.irrigationHours > 150.0 {
      recommendations := recommendations + [PrecisionIrrigation];
    }
    assert recommendations == Pick(SwitchToRenewables, data) + Pick(PrecisionIrrigation, data);
    if data.fertilizerUsage > 200.0 {
      recommendations := recommendations + [SoilTesting];
    }
    ghost var upToSoil := Pick(SwitchToRenewables, data) + Pick(PrecisionIrrigation, data) + Pick(SoilTesting, data);
    assert recommendations == upToSoil;
    if efficiencyScore < 5.0 {
      recommendations := recommendations + [UpgradeEquipment];
    }
    assert recommendations == upToSoil + Pick(UpgradeEquipment, data);
    recommendations := recommendations + [OffPeakScheduling];
    ghost var upToOffPeak := upToSoil + Pick(UpgradeEquipment, data) + [OffPeakScheduling];
    assert recommendations == upToOffPeak;
    if data.energyType != "solar" {
      recommendations := recommendations + [InstallSolar];
    }
    assert recommendations == upToOffPeak + Pick(InstallSolar, data);
    RecommendationsUnfolded(data);
    AppendAssociates(Pick(SwitchToRenewables, data), Pick(PrecisionIrrigation, data), Pick(SoilTesting, data),
                     Pick(UpgradeEquipment, data), [OffPeakScheduling], Pick(InstallSolar, data));

    res := EnergyResults(efficiencyScore, totalEnergy, energyCost, co2Emissions, rating, recommendations);
  }

  /**
   * The recommendation list holds exactly the applicable advice, in push
   * order and without repetition; the off-peak advice is always there, so
   * the list has between one and six entries.
   */
  lemma RecommendationsShape(data: EnergyInputData)
    ensures forall a :: a in Recommendations(data) <==> Applies(a, data)
    ensures InPushOrder(Recommendations(data))
    ensures OffPeakScheduling in Recommendations(data)
    ensures 1 <= |Recommendations(data)| <= 6
  {
    forall a ensures a in PushOrder {
      assert PushOrder[Rank(a)] == a;
    }
    SelectAdviceKeepsOrder(PushOrder, data);
  }

  /** The switch-to-renewables advice is given iff the type is grid or diesel, and then comes first. */
  lemma RenewablesAdviceFirst(data: EnergyInputData)
    ensures SwitchToRenewables in Recommendations(data)
            <==> data.energyType == "grid" || data.energyType == "diesel"
    ensures SwitchToRenewables in Recommendations(data) ==> Recommendations(data)[0] == SwitchToRenewables
  {
    RecommendationsShape(data);
  }

  /** The install-solar advice is given iff the type is not solar, and then comes last. */
  lemma SolarAdviceLast(data: EnergyInputData)
    ensures InstallSolar in Recommendations(data) <==> data.energyType != "solar"
    ensures InstallSolar in Recommendations(data)
            ==> Recommendations(data)[|Recommendations(data)| - 1] == InstallSolar
  {
    RecommendationsShape(data);
    var recs := Recommendations(data);
    forall i | 0 <= i < |recs| - 1
      ensures recs[i] != InstallSolar
    {
      assert Rank(recs[i]) < Rank(recs[|recs| - 1]);
    }
  }

  /**
   * A diesel farm: 120 h at 15 kW, 200 kg of
   * fertilizer, 50 l of fuel, 5.5 t/ha.
   */
  const DieselFarm: EnergyInputData := EnergyInputData(120.0, 200.0, "diesel", 15.0, 50.0, 0.12, 5.5)

  /** The diesel farm uses 2316 kWh, costing 277.92 and emitting 1852.8 kg of CO2, and rates 3. */
  lemma DieselFarmFigures()
    ensures TotalEnergy(DieselFarm) == 2316.0
    ensures EnergyCost(DieselFarm) == 277.92
    ensures Co2Emissions(DieselFarm) == 1852.8
    ensures EfficiencyScore(DieselFarm) < 5.0
    ensures RatingSum(DieselFarm) == 3
  {
    assert TotalEnergy(DieselFarm) == 2316.0;
    assert EfficiencyScore(DieselFarm) * 2316.0 == 5500.0;
  }
}
