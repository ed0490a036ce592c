/**
 * The yield estimator of `src/utils/mlModels.ts`.
 *
 * The three table lookups are pure functions; the weather multiplier is a
 * variable multiplied step by step, so `PredictCropYield` is a method. The
 * random draw `0.9 + Math.random() * 0.2` is the parameter `randomFactor`.
 * Rainfall and temperature are the parsed form fields, `None` when the field
 * is empty.
 */
module MlModels {
  import opened Wrappers

  /** The `CropPredictionData` form, with the weather fields already parsed. */
  datatype CropPredictionData = CropPredictionData(
    crop: string,
    location: string,
    season: string,
    soilType: string,
    rainfall: Option<real>,
    temperature: Option<real>)

  /** A lookup table, in the order its entries are written. */
  type Table = seq<(string, real)>

  /** Tons per hectare by crop. */
  const BaseYields: Table :=
    [("Wheat", 4.5), ("Rice", 6.2), ("Corn", 8.5), ("Soybeans", 3.2),
     ("Barley", 4.8), ("Cotton", 2.1), ("Sugarcane", 12.5), ("Potatoes", 25.0)]

  const SeasonMultipliers: Table :=
    [("Spring", 1.0), ("Summer", 1.1), ("Fall", 0.9), ("Winter", 0.7)]

  const SoilMultipliers: Table :=
    [("Clay", 0.95), ("Sandy", 0.85), ("Loam", 1.1), ("Silt", 1.05), ("Peat", 1.15), ("Chalky", 0.9)]

  const DefaultBaseYield: real := 5.0

  /** The key has an entry in the table. */
  predicate HasKey(table: Table, key: string)
  {
    exists i :: 0 <= i < |table| && table[i].0 == key
  }

  /**
   * `table[key] || fallback`: the value of the key's first entry, or the
   * fallback when the key has none. (No entry of the tables here is zero, so
   * the `||` never replaces a value that was found.)
   */
  function Lookup(table: Table, key: string, fallback: real): real
  {
    if table == [] then fallback
    else if table[0].0 == key then table[0].1
    else Lookup(table[1..], key, fallback)
  }

  /** A key with an entry gets the value of its first entry; any other key gets the fallback. */
  lemma {:induction false} LookupFinds(table: Table, key: string, fallback: real)
    ensures HasKey(table, key) ==> exists i ::
      && 0 <= i < |table| && table[i].0 == key
      && Lookup(table, key, fallback) == table[i].1
      && forall j :: 0 <= j < i ==> table[j].0 != key
    ensures !HasKey(table, key) ==> Lookup(table, key, fallback) == fallback
  {
    if table != [] && table[0].0 != key {
      LookupFinds(table[1..], key, fallback);
      if HasKey(table, key) {
        var i :| 0 <= i < |table| && table[i].0 == key;
        assert table[1..][i - 1].0 == key;
        var k :| && 0 <= k < |table[1..]| && table[1..][k].0 == key
                 && Lookup(table[1..], key, fallback) == table[1..][k].1
                 && forall j :: 0 <= j < k ==> table[1..][j].0 != key;
        assert forall j :: 0 <= j < k + 1 ==> table[j].0 != key by {
          forall j | 0 <= j < k + 1 ensures table[j].0 != key {
            if j > 0 { assert table[j] == table[1..][j - 1]; }
          }
        }
        assert table[k + 1].0 == key;
      } else {
        forall i | 0 <= i < |table[1..]|
          ensures table[1..][i].0 != key
        {
          assert table[1..][i] == table[i + 1];
        }
      }
    }
  }

  /** A lookup lands between bounds that hold of every value in the table and of the fallback. */
  lemma {:induction false} LookupWithin(table: Table, key: string, fallback: real, lo: real, hi: real)
    requires forall i :: 0 <= i < |table| ==> lo <= table[i].1 <= hi
    requires lo <= fallback <= hi
    ensures lo <= Lookup(table, key, fallback) <= hi
  {
    if table != [] && table[0].0 != key {
      LookupWithin(table[1..], key, fallback, lo, hi);
    }
  }

  /** Base yield of a crop; an unknown crop gets 5.0 t/ha. */
  function BaseYield(crop: string): (y: real)
    ensures 2.1 <= y <= 25.0
  {
    LookupWithin(BaseYields, crop, DefaultBaseYield, 2.1, 25.0);
    Lookup(BaseYields, crop, DefaultBaseYield)
  }

  /** Season multiplier; an unknown or empty season is neutral. */
  function SeasonMultiplier(season: string): (m: real)
    ensures 0.7 <= m <= 1.1
  {
    LookupWithin(SeasonMultipliers, season, 1.0, 0.7, 1.1);
    Lookup(SeasonMultipliers, season, 1.0)
  }

  /** Soil multiplier; an empty or unknown soil type is neutral. */
  function SoilMultiplier(soilType: string): (m: real)
    ensures 0.85 <= m <= 1.15
    ensures soilType == "" ==> m == 1.0
  {
    LookupWithin(SoilMultipliers, soilType, 1.0, 0.85, 1.15);
    if soilType != "" then Lookup(SoilMultipliers, soilType, 1.0) else 1.0
  }

  /** Keys missing from a table fall back: 5.0 t/ha for a crop, a neutral 1.0 for a season or a soil type. */
  lemma MissingKeysFallBack(crop: string, season: string, soilType: string)
    ensures !HasKey(BaseYields, crop) ==> BaseYield(crop) == DefaultBaseYield
    ensures !HasKey(SeasonMultipliers, season) ==> SeasonMultiplier(season) == 1.0
    ensures !HasKey(SoilMultipliers, soilType) ==> SoilMultiplier(soilType) == 1.0
  {
    LookupFinds(BaseYields, crop, DefaultBaseYield);
    LookupFinds(SeasonMultipliers, season, 1.0);
    LookupFinds(SoilMultipliers, soilType, 1.0);
  }

  /** A key found in a table gets the value written against it. */
  lemma KnownKeysUseTable(crop: string, season: string, soilType: string)
    ensures HasKey(BaseYields, crop) ==>
      exists i :: 0 <= i < |BaseYields| && BaseYields[i] == (crop, BaseYield(crop))
    ensures HasKey(SeasonMultipliers, season) ==>
      exists i :: 0 <= i < |SeasonMultipliers| && SeasonMultipliers[i] == (season, SeasonMultiplier(season))
    ensures soilType != "" && HasKey(SoilMultipliers, soilType) ==>
      exists i :: 0 <= i < |SoilMultipliers| && SoilMultipliers[i] == (soilType, SoilMultiplier(soilType))
  {
    LookupFinds(BaseYields, crop, DefaultBaseYield);
    LookupFinds(SeasonMultipliers, season, 1.0);
    LookupFinds(SoilMultipliers, soilType, 1.0);
  }

  /** The rainfall factor: dry below 300 mm, wet above 1200 mm, favourable in between. */
  function RainfallFactor(rainfall: Option<real>): (f: real)
    ensures 0.7 <= f <= 1.1
    ensures rainfall.None? ==> f == 1.0
    ensures rainfall.Some? && 300.0 <= rainfall.value <= 1200.0 ==> f == 1.1
    ensures rainfall.Some? && rainfall.value < 300.0 ==> f == 0.7
    ensures rainfall.Some? && rainfall.value > 1200.0 ==> f == 0.9
  {
    match rainfall
    case None => 1.0
    case Some(mm) => if mm < 300.0 then 0.7 else if mm > 1200.0 then 0.9 else 1.1
  }

  /** The temperature factor: harsh below 10 or above 35 degrees, ideal from 20 to 28 inclusive. */
  function TemperatureFactor(temperature: Option<real>): (f: real)
    ensures 0.8 <= f <= 1.1
    ensures temperature.None? ==> f == 1.0
    ensures temperature.Some? && (temperature.value < 10.0 || temperature.value > 35.0) ==> f == 0.8
    ensures temperature.Some? && 20.0 <= temperature.value <= 28.0 ==> f == 1.1
    ensures temperature.Some? && 10.0 <= temperature.value <= 35.0 && !(20.0 <= temperature.value <= 28.0)
            ==> f == 1.0
  {
    match temperature
    case None => 1.0
    case Some(t) => if t < 10.0 || t > 35.0 then 0.8 else if 20.0 <= t <= 28.0 then 1.1 else 1.0
  }

  /** The combined weather multiplier, between 0.56 and 1.21. */
  function WeatherMultiplier(rainfall: Option<real>, temperature: Option<real>): (w: real)
    ensures 0.56 <= w <= 1.21
    ensures rainfall.None? && temperature.None? ==> w == 1.0
  {
    var r := RainfallFactor(rainfall);
    var t := TemperatureFactor(temperature);
    assert r == 0.7 || r == 0.9 || r == 1.1 || r == 1.0;
    assert t == 0.8 || t == 1.1 || t == 1.0;
    r * t
  }

  /** The deterministic part of the estimate: base yield times all multipliers. */
  function ExpectedYield(data: CropPredictionData): real
  {
    BaseYield(data.crop) * SeasonMultiplier(data.season) * SoilMultiplier(data.soilType)
    * WeatherMultiplier(data.rainfall, data.temperature)
  }

  /** Every table entry and every multiplier is positive, so the expected yield is too. */
  lemma ExpectedYieldPositive(data: CropPredictionData)
    ensures ExpectedYield(data) > 0.0
  {
    var base := BaseYield(data.crop);
    var season := SeasonMultiplier(data.season);
    var soil := SoilMultiplier(data.soilType);
    var weather := WeatherMultiplier(data.rainfall, data.temperature);
    PositiveProduct(base, season);
    PositiveProduct(base * season, soil);
    PositiveProduct(base * season * soil, weather);
  }

  /** A product of positive reals is positive. */
  lemma PositiveProduct(a: real, b: real)
    requires a > 0.0 && b > 0.0
    ensures a * b > 0.0
  {
  }

  /**
   * `predictCropYield`: the weather multiplier starts at 1 and is multiplied
   * by the rainfall and temperature factors; the result is the expected
   * yield scaled by the random factor, so it is positive and within 10 % of
   * the expected yield.
   */
  method PredictCropYield(data: CropPredictionData, randomFactor: real) returns (y: real)
    requires 0.9 <= randomFactor < 1.1
    ensures y == ExpectedYield(data) * randomFactor
    ensures 0.9 * ExpectedYield(data) <= y < 1.1 * ExpectedYield(data)
    ensures y > 0.0
  {
    var baseYield := BaseYield(data.crop);
    var seasonMultiplier := SeasonMultiplier(data.season);
    var soilMultiplier := SoilMultiplier(data.soilType);

    var weatherMultiplier := 1.0;
    if data.rainfall.Some? {
      var rainfall := data.rainfall.value;
      if rainfall < 300.0 {
        weatherMultiplier := weatherMultiplier * 0.7;
      } else if rainfall > 1200.0 {
        weatherMultiplier := weatherMultiplier * 0.9;
      } else {
        weatherMultiplier := weatherMultiplier * 1.1;
      }
    }
    assert weatherMultiplier == RainfallFactor(data.rainfall);
    if data.temperature.Some? {
      var temp := data.temperature.value;
      if temp < 10.0 || temp > 35.0 {
        weatherMultiplier := weatherMultiplier * 0.8;
      } else if temp >= 20.0 && temp <= 28.0 {
        weatherMultiplier := weatherMultiplier * 1.1;
      }
    }
    assert weatherMultiplier == WeatherMultiplier(data.rainfall, data.temperature);

    y := baseYield * seasonMultiplier * soilMultiplier * weatherMultiplier * randomFactor;
    assert y == ExpectedYield(data) * randomFactor;
    PredictionBand(data, randomFactor, y);
  }

  /** Any estimate the random factor can produce is positive and within 10 % of the expected yield. */
  lemma PredictionBand(data: CropPredictionData, randomFactor: real, y: real)
    requires 0.9 <= randomFactor < 1.1
    requires y == ExpectedYield(data) * randomFactor
    ensures 0.9 * ExpectedYield(data) <= y < 1.1 * ExpectedYield(data)
    ensures y > 0.0
  {
    ExpectedYieldPositive(data);
    YieldBand(ExpectedYield(data), randomFactor);
  }

  /** Scaling a positive amount by a factor in [0.9, 1.1) keeps it positive and within 10 %. */
  lemma YieldBand(expected: real, randomFactor: real)
    requires expected > 0.0
    requires 0.9 <= randomFactor < 1.1
    ensures 0.9 * expected <= expected * randomFactor < 1.1 * expected
    ensures expected * randomFactor > 0.0
  {
  }

  /**
   * An unknown crop in summer, with no soil or weather given, is expected
   * to yield 5.5 t/ha, so the estimate lies in [4.95, 6.05).
   */
  lemma UnknownCropInSummer(location: string)
    ensures var data := CropPredictionData("Quinoa", location, "Summer", "", None, None);
      && ExpectedYield(data) == 5.5
      && 4.95 <= ExpectedYield(data) * 0.9
      && ExpectedYield(data) * 1.1 <= 6.05
  {
    assert !HasKey(BaseYields, "Quinoa");
    assert HasKey(SeasonMultipliers, "Summer") by {
      assert SeasonMultipliers[1].0 == "Summer";
    }
    assert SeasonMultiplier("Summer") == 1.1;
  }
}
