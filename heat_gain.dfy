/** The heat-gain and cooling-cost estimator: per-city constant tables, the
    facade loop that accumulates solar heat gain, the optional skylight term,
    and the conversion chain heat gain -> cooling load -> energy -> cost.
    Numbers are modelled exactly over `real`; the only rounding is the
    two-decimal rounding applied to the returned record. */
module HeatGainCalculator {
  import opened Common

  datatype City = Bangalore | Mumbai | Kolkata | Delhi

  function CityName(c: City): string
  {
    match c
    case Bangalore => "Bangalore"
    case Mumbai => "Mumbai"
    case Kolkata => "Kolkata"
    case Delhi => "Delhi"
  }

  /** Looks a city name up as a key of the constant tables: exact and
      case-sensitive, so the result names the city whose name is `key`. */
  function CityOf(key: string): (c: Option<City>)
    ensures c.Some? ==> CityName(c.value) == key
    ensures forall x: City :: CityName(x) == key ==> c == Some(x)
  {
    if key == "Bangalore" then Some(Bangalore)
    else if key == "Mumbai" then Some(Mumbai)
    else if key == "Kolkata" then Some(Kolkata)
    else if key == "Delhi" then Some(Delhi)
    else None
  }

  /** Solar radiation intensity on a facade, per city and orientation; in
      every city the roof receives more than any facade. */
  function SolarRadiation(c: City, d: Direction): (r: real)
    ensures 150.0 <= r <= 400.0
    ensures r < RoofRadiation(c)
  {
    match c
    case Bangalore => (match d case North => 150.0 case South => 250.0 case East => 200.0 case West => 200.0)
    case Mumbai => (match d case North => 180.0 case South => 350.0 case East => 280.0 case West => 270.0)
    case Kolkata => (match d case North => 200.0 case South => 400.0 case East => 300.0 case West => 290.0)
    case Delhi => (match d case North => 160.0 case South => 270.0 case East => 220.0 case West => 220.0)
  }

  /** Solar radiation intensity on the roof, per city. */
  function RoofRadiation(c: City): (r: real)
    ensures 300.0 <= r <= 450.0
  {
    match c
    case Bangalore => 300.0
    case Mumbai => 400.0
    case Kolkata => 450.0
    case Delhi => 320.0
  }

  /** Electricity tariff per kWh, per city. */
  function ElectricityRate(c: City): (r: real)
    ensures 6.5 <= r <= 9.0
  {
    match c
    case Bangalore => 6.5
    case Mumbai => 9.0
    case Kolkata => 7.5
    case Delhi => 8.5
  }

  const COP: real := 4.0
  const HOURS_PER_DAY: real := 8.0
  const BTU_TO_KWH: real := 3412.0

  const InvalidCityMessage: string := "Invalid city provided for calculation."

  /** Every entry of both tables is strictly positive. */
  lemma TablesPositive(c: City)
    ensures forall d: Direction :: SolarRadiation(c, d) > 0.0
    ensures RoofRadiation(c) > 0.0 && ElectricityRate(c) > 0.0
  {
  }

  // ---------------------------------------------------------------------
  // Designs as the estimator reads them

  datatype Facade = Facade(width: real, height: real)

  /** The stored skylight: each side may be absent. */
  datatype Skylight = Skylight(width: Option<real>, height: Option<real>)

  datatype Design = Design(
    name: string,
    dimensions: Quad<Facade>,
    wwr: Quad<real>,
    shgc: real,
    skylight: Skylight)

  /** A JavaScript truthiness test on an optional number: present and non-zero. */
  predicate Truthy(v: Option<real>)
  {
    v.Some? && v.value != 0.0
  }

  /** The skylight counts only when both of its sides are truthy. */
  predicate HasSkylight(s: Skylight)
  {
    Truthy(s.width) && Truthy(s.height)
  }

  /** Glazed area of one facade. */
  function GlazedArea(design: Design, d: Direction): real
  {
    design.dimensions.At(d).width * design.dimensions.At(d).height * design.wwr.At(d)
  }

  /** Heat gain through the glazing of one facade. */
  function FacadeGain(design: Design, c: City, d: Direction): real
  {
    GlazedArea(design, d) * design.shgc * SolarRadiation(c, d) * HOURS_PER_DAY
  }

  /** The sum over exactly the four facades. */
  function WallGain(design: Design, c: City): real
  {
    FacadeGain(design, c, North) + FacadeGain(design, c, South)
    + FacadeGain(design, c, East) + FacadeGain(design, c, West)
  }

  /** The skylight term, zero unless both skylight sides are truthy. */
  function SkylightGain(design: Design, c: City): real
  {
    if HasSkylight(design.skylight) then
      design.skylight.width.value * design.skylight.height.value * design.shgc
      * RoofRadiation(c) * HOURS_PER_DAY
    else 0.0
  }

  /** The facade gains summed in the order of `Directions`, plus the skylight term. */
  function TotalHeatGain(design: Design, c: City): (r: real)
    ensures r == PartialWallGain(design, c, |Directions|) + SkylightGain(design, c)
    ensures !HasSkylight(design.skylight) ==> r == PartialWallGain(design, c, |Directions|)
  {
    PartialWallGainComplete(design, c);
    WallGain(design, c) + SkylightGain(design, c)
  }

  /** The four figures the estimator reports. */
  datatype Analysis = Analysis(
    totalHeatGain: real,
    coolingLoadKWh: real,
    energyConsumedKWh: real,
    coolingCost: real)

  /** The unrounded conversion chain: the load is the heat gain in kWh, the
      energy that load divided by the coefficient of performance, the cost
      that energy at the city's tariff. */
  function RawAnalysis(design: Design, c: City): (r: Analysis)
    ensures r.totalHeatGain == TotalHeatGain(design, c)
    ensures r.coolingLoadKWh * 3412.0 == r.totalHeatGain
    ensures r.energyConsumedKWh * 4.0 == r.coolingLoadKWh
    ensures r.coolingCost == r.energyConsumedKWh * ElectricityRate(c)
  {
    var total := TotalHeatGain(design, c);
    var load := total / BTU_TO_KWH;
    var energy := load / COP;
    Analysis(total, load, energy, energy * ElectricityRate(c))
  }

  /** Rounding to two decimals, half away from zero, as `toFixed(2)` does;
      reading the string back with `parseFloat` gives this value. */
  function Round2(x: real): (r: real)
    ensures x >= 0.0 ==> r >= 0.0
    ensures WholeHundredths(r)
    ensures x >= 0.0 ==> -1.0 / 200.0 < r - x <= 1.0 / 200.0
    ensures x < 0.0 ==> -1.0 / 200.0 <= r - x < 1.0 / 200.0
  {
    if x >= 0.0 then
      var n := (x * 100.0 + 0.5).Floor;
      assert (n as real / 100.0) * 100.0 == n as real;
      (n as real) / 100.0
    else
      var n := ((-x) * 100.0 + 0.5).Floor;
      assert (-(n as real) / 100.0) * 100.0 == (-n) as real;
      -(n as real) / 100.0
  }

  /** A figure that `toFixed(2)` prints exactly: a whole number of hundredths. */
  predicate WholeHundredths(x: real)
  {
    (x * 100.0).Floor as real == x * 100.0
  }

  lemma Round2Monotone(x: real, y: real)
    requires x <= y
    ensures Round2(x) <= Round2(y)
  {
    if 0.0 <= x {
      assert (x * 100.0 + 0.5).Floor <= (y * 100.0 + 0.5).Floor;
    } else if 0.0 <= y {
    } else {
      assert ((-y) * 100.0 + 0.5).Floor <= ((-x) * 100.0 + 0.5).Floor;
    }
  }

  /** What the estimator returns: every figure rounded once, at the end. */
  function Rounded(a: Analysis): Analysis
  {
    Analysis(Round2(a.totalHeatGain), Round2(a.coolingLoadKWh),
             Round2(a.energyConsumedKWh), Round2(a.coolingCost))
  }

  /** The estimator's answer for a known city. */
  function AnalysisFor(design: Design, c: City): (r: Analysis)
    ensures var a := RawAnalysis(design, c);
      && -1.0 / 200.0 <= r.totalHeatGain - a.totalHeatGain <= 1.0 / 200.0
      && -1.0 / 200.0 <= r.coolingLoadKWh - a.coolingLoadKWh <= 1.0 / 200.0
      && -1.0 / 200.0 <= r.energyConsumedKWh - a.energyConsumedKWh <= 1.0 / 200.0
      && -1.0 / 200.0 <= r.coolingCost - a.coolingCost <= 1.0 / 200.0
    ensures && WholeHundredths(r.totalHeatGain) && WholeHundredths(r.coolingLoadKWh)
            && WholeHundredths(r.energyConsumedKWh) && WholeHundredths(r.coolingCost)
  {
    Rounded(RawAnalysis(design, c))
  }

  /** Heat gain of the first `n` facades of `Directions`. */
  function PartialWallGain(design: Design, c: City, n: nat): real
    requires n <= |Directions|
  {
    if n == 0 then 0.0
    else PartialWallGain(design, c, n - 1) + FacadeGain(design, c, Directions[n - 1])
  }

  lemma {:induction false} PartialWallGainComplete(design: Design, c: City)
    ensures PartialWallGain(design, c, |Directions|) == WallGain(design, c)
  {
    calc {
      PartialWallGain(design, c, 4);
      PartialWallGain(design, c, 3) + FacadeGain(design, c, West);
      PartialWallGain(design, c, 2) + FacadeGain(design, c, East) + FacadeGain(design, c, West);
      PartialWallGain(design, c, 1) + FacadeGain(design, c, South)
        + FacadeGain(design, c, East) + FacadeGain(design, c, West);
      WallGain(design, c);
    }
  }

  /** calculateHeatGain: throws for a name that is not a key of the tables;
      otherwise accumulates the facade gains in a loop, adds the skylight
      term, converts, and rounds the four figures. The design is only read. */
  method CalculateHeatGain(design: Design, city: string) returns (r: Result<Analysis>)
    ensures CityOf(city).None? ==> r == Failure(InvalidCityMessage)
    ensures CityOf(city).Some? ==> r == Success(AnalysisFor(design, CityOf(city).value))
  {
    var found := CityOf(city);
    if found.None? {
      return Failure(InvalidCityMessage);
    }
    var c := found.value;
    var totalHeatGain := 0.0;
    for i := 0 to |Directions|
      invariant totalHeatGain == PartialWallGain(design, c, i)
    {
      var direction := Directions[i];
      var facade := design.dimensions.At(direction);
      var area := facade.width * facade.height * design.wwr.At(direction);
      var g := SolarRadiation(c, direction);
      var heatGain := area * design.shgc * g * HOURS_PER_DAY;
      assert heatGain == FacadeGain(design, c, direction);
      totalHeatGain := totalHeatGain + heatGain;
    }
    PartialWallGainComplete(design, c);
    if HasSkylight(design.skylight) {
      var skylightArea := design.skylight.width.value * design.skylight.height.value;
      totalHeatGain := totalHeatGain + skylightArea * design.shgc * RoofRadiation(c) * HOURS_PER_DAY;
    }
    assert totalHeatGain == TotalHeatGain(design, c);
    var coolingLoadKWh := totalHeatGain / BTU_TO_KWH;
    var energyConsumedKWh := coolingLoadKWh / COP;
    var coolingCost := energyConsumedKWh * ElectricityRate(c);
    assert Analysis(totalHeatGain, coolingLoadKWh, energyConsumedKWh, coolingCost)
        == RawAnalysis(design, c);
    r := Success(Analysis(Round2(totalHeatGain), Round2(coolingLoadKWh),
                          Round2(energyConsumedKWh), Round2(coolingCost)));
  }

  // ---------------------------------------------------------------------
  // Properties of the estimator

  /** The conversion chain collapses to one closed form. */
  lemma CoolingCostClosedForm(design: Design, c: City)
    ensures RawAnalysis(design, c).coolingLoadKWh == TotalHeatGain(design, c) / 3412.0
    ensures RawAnalysis(design, c).energyConsumedKWh == TotalHeatGain(design, c) / 13648.0
    ensures RawAnalysis(design, c).coolingCost
         == TotalHeatGain(design, c) * ElectricityRate(c) / 13648.0
  {
  }

  /** The skylight contributes nothing unless both of its sides are present
      and non-zero: the total is then that of the same design with no skylight. */
  lemma SkylightIgnoredUnlessBothSides(design: Design, c: City)
    requires !HasSkylight(design.skylight)
    ensures TotalHeatGain(design, c) == TotalHeatGain(design.(skylight := Skylight(None, None)), c)
    ensures TotalHeatGain(design, c) == WallGain(design, c)
  {
  }

  /** Every geometric and optical input is non-negative. */
  predicate NonNegativeInputs(design: Design)
  {
    && (forall d: Direction :: design.dimensions.At(d).width >= 0.0
                              && design.dimensions.At(d).height >= 0.0
                              && design.wwr.At(d) >= 0.0)
    && design.shgc >= 0.0
    && (design.skylight.width.Some? ==> design.skylight.width.value >= 0.0)
    && (design.skylight.height.Some? ==> design.skylight.height.value >= 0.0)
  }

  /** Every facade has non-negative width and height, and the SHGC is
      non-negative; nothing is asked of the ratios or the skylight. */
  predicate FacadesNonNegative(design: Design)
  {
    && (forall d: Direction :: design.dimensions.At(d).width >= 0.0
                              && design.dimensions.At(d).height >= 0.0)
    && design.shgc >= 0.0
  }

  lemma MulNonNeg(a: real, b: real)
    requires a >= 0.0 && b >= 0.0
    ensures a * b >= 0.0
  {
  }

  lemma MulMonotone(a: real, b: real, k: real)
    requires a <= b && k >= 0.0
    ensures a * k <= b * k
  {
  }

  lemma MulMonotoneLeft(a: real, b: real, k: real)
    requires a <= b && k >= 0.0
    ensures k * a <= k * b
  {
  }

  /** Scaling both sides by a non-negative radiation and the daily hours keeps their order. */
  lemma ScaleMonotone(x: real, y: real, q: real)
    requires x <= y && q >= 0.0
    ensures x * q * HOURS_PER_DAY <= y * q * HOURS_PER_DAY
  {
    MulMonotone(x, y, q);
    MulMonotone(x * q, y * q, HOURS_PER_DAY);
  }

  lemma {:induction false} FacadeGainNonNegative(design: Design, c: City, d: Direction)
    requires NonNegativeInputs(design)
    ensures FacadeGain(design, c, d) >= 0.0
  {
    var f := design.dimensions.At(d);
    MulNonNeg(f.width, f.height);
    MulNonNeg(f.width * f.height, design.wwr.At(d));
    MulNonNeg(GlazedArea(design, d), design.shgc);
    TablesPositive(c);
    MulNonNeg(GlazedArea(design, d) * design.shgc, SolarRadiation(c, d));
    MulNonNeg(GlazedArea(design, d) * design.shgc * SolarRadiation(c, d), HOURS_PER_DAY);
  }

  lemma {:induction false} TotalHeatGainNonNegative(design: Design, c: City)
    requires NonNegativeInputs(design)
    ensures TotalHeatGain(design, c) >= 0.0
  {
    FacadeGainNonNegative(design, c, North);
    FacadeGainNonNegative(design, c, South);
    FacadeGainNonNegative(design, c, East);
    FacadeGainNonNegative(design, c, West);
    if HasSkylight(design.skylight) {
      var w, h := design.skylight.width.value, design.skylight.height.value;
      MulNonNeg(w, h);
      MulNonNeg(w * h, design.shgc);
      TablesPositive(c);
      MulNonNeg(w * h * design.shgc, RoofRadiation(c));
      MulNonNeg(w * h * design.shgc * RoofRadiation(c), HOURS_PER_DAY);
    }
  }

  /** With non-negative inputs all four reported figures are non-negative,
      before and after rounding. */
  lemma {:induction false} AnalysisNonNegative(design: Design, c: City)
    requires NonNegativeInputs(design)
    ensures var a := RawAnalysis(design, c);
      a.totalHeatGain >= 0.0 && a.coolingLoadKWh >= 0.0
      && a.energyConsumedKWh >= 0.0 && a.coolingCost >= 0.0
    ensures var a := AnalysisFor(design, c);
      a.totalHeatGain >= 0.0 && a.coolingLoadKWh >= 0.0
      && a.energyConsumedKWh >= 0.0 && a.coolingCost >= 0.0
  {
    TotalHeatGainNonNegative(design, c);
    TablesPositive(c);
    var t := TotalHeatGain(design, c);
    MulNonNeg(t / BTU_TO_KWH / COP, ElectricityRate(c));
  }

  /** A skylight with one negative side, which nothing upstream rejects,
      makes the total heat gain negative. */
  lemma NegativeSkylightExample()
    ensures var f := Facade(1.0, 1.0);
      var d := Design("x", Quad(f, f, f, f), Quad(0.0, 0.0, 0.0, 0.0), 0.5,
                      Skylight(Some(-1.0), Some(1.0)));
      TotalHeatGain(d, Delhi) < 0.0 && AnalysisFor(d, Delhi).coolingCost < 0.0
  {
  }

  /** A facade's glazed area grows with its window-to-wall ratio. */
  lemma GlazedAreaMonotoneInWwr(design: Design, d: Direction, w: real)
    requires FacadesNonNegative(design)
    requires w >= design.wwr.At(d)
    ensures GlazedArea(design, d) <= GlazedArea(design.(wwr := design.wwr.With(d, w)), d)
  {
    var f := design.dimensions.At(d);
    MulNonNeg(f.width, f.height);
    MulMonotoneLeft(design.wwr.At(d), w, f.width * f.height);
  }

  /** A facade's gain grows with its window-to-wall ratio. */
  lemma {:induction false} FacadeGainMonotoneInWwr(design: Design, c: City, d: Direction, w: real)
    requires FacadesNonNegative(design)
    requires w >= design.wwr.At(d)
    ensures FacadeGain(design, c, d) <= FacadeGain(design.(wwr := design.wwr.With(d, w)), c, d)
  {
    var a, a' := GlazedArea(design, d), GlazedArea(design.(wwr := design.wwr.With(d, w)), d);
    GlazedAreaMonotoneInWwr(design, d, w);
    MulMonotone(a, a', design.shgc);
    TablesPositive(c);
    ScaleMonotone(a * design.shgc, a' * design.shgc, SolarRadiation(c, d));
  }

  /** Changing one facade's ratio leaves the other facades' gains alone. */
  lemma FacadeGainOtherWwr(design: Design, c: City, d: Direction, e: Direction, w: real)
    requires e != d
    ensures FacadeGain(design, c, e) == FacadeGain(design.(wwr := design.wwr.With(d, w)), c, e)
  {
    assert design.wwr.With(d, w).At(e) == design.wwr.At(e);
  }

  /** Raising one facade's window-to-wall ratio never lowers the total,
      whatever the skylight holds (the server never checks it). */
  lemma {:induction false} TotalMonotoneInWwr(design: Design, c: City, d: Direction, w: real)
    requires FacadesNonNegative(design)
    requires w >= design.wwr.At(d)
    ensures TotalHeatGain(design, c) <= TotalHeatGain(design.(wwr := design.wwr.With(d, w)), c)
  {
    var design' := design.(wwr := design.wwr.With(d, w));
    FacadeGainMonotoneInWwr(design, c, d, w);
    if d != North { FacadeGainOtherWwr(design, c, d, North, w); }
    if d != South { FacadeGainOtherWwr(design, c, d, South, w); }
    if d != East { FacadeGainOtherWwr(design, c, d, East, w); }
    if d != West { FacadeGainOtherWwr(design, c, d, West, w); }
    assert SkylightGain(design, c) == SkylightGain(design', c);
  }

  /** A facade's gain grows with the solar heat gain coefficient. */
  lemma {:induction false} FacadeGainMonotoneInShgc(design: Design, c: City, d: Direction, s: real)
    requires NonNegativeInputs(design)
    requires s >= design.shgc
    ensures FacadeGain(design, c, d) <= FacadeGain(design.(shgc := s), c, d)
  {
    var f := design.dimensions.At(d);
    var a := GlazedArea(design, d);
    MulNonNeg(f.width, f.height);
    MulNonNeg(f.width * f.height, design.wwr.At(d));
    assert GlazedArea(design.(shgc := s), d) == a;
    MulMonotoneLeft(design.shgc, s, a);
    TablesPositive(c);
    ScaleMonotone(a * design.shgc, a * s, SolarRadiation(c, d));
  }

  /** The skylight term grows with the solar heat gain coefficient. */
  lemma {:induction false} SkylightGainMonotoneInShgc(design: Design, c: City, s: real)
    requires NonNegativeInputs(design)
    requires s >= design.shgc
    ensures SkylightGain(design, c) <= SkylightGain(design.(shgc := s), c)
  {
    if HasSkylight(design.skylight) {
      var k := design.skylight.width.value * design.skylight.height.value;
      MulNonNeg(design.skylight.width.value, design.skylight.height.value);
      MulMonotoneLeft(design.shgc, s, k);
      TablesPositive(c);
      ScaleMonotone(k * design.shgc, k * s, RoofRadiation(c));
    }
  }

  /** Raising the solar heat gain coefficient never lowers the total. */
  lemma {:induction false} TotalMonotoneInShgc(design: Design, c: City, s: real)
    requires NonNegativeInputs(design)
    requires s >= design.shgc
    ensures TotalHeatGain(design, c) <= TotalHeatGain(design.(shgc := s), c)
  {
    FacadeGainMonotoneInShgc(design, c, North, s);
    FacadeGainMonotoneInShgc(design, c, South, s);
    FacadeGainMonotoneInShgc(design, c, East, s);
    FacadeGainMonotoneInShgc(design, c, West, s);
    SkylightGainMonotoneInShgc(design, c, s);
  }

  /** Four facades of 2 x 1.5, window-to-wall ratio 0.4, SHGC 0.5, no skylight. */
  function ExampleDesign(): Design
  {
    var f := Facade(2.0, 1.5);
    Design("example", Quad(f, f, f, f), Quad(0.4, 0.4, 0.4, 0.4), 0.5, Skylight(None, None))
  }

  /** In Delhi the total is 0.6 * 8 * (160 + 270 + 220 + 220) = 4176; since
      only the returned figures are rounded, the cost is 2.60, not the 2.64
      that rounding the energy figure first would give. */
  lemma DelhiExample()
    ensures TotalHeatGain(ExampleDesign(), Delhi) == 4176.0
    ensures AnalysisFor(ExampleDesign(), Delhi) == Analysis(4176.0, 1.22, 0.31, 2.60)
    ensures Round2(Round2(RawAnalysis(ExampleDesign(), Delhi).energyConsumedKWh) * 8.5) == 2.64
  {
    var a := RawAnalysis(ExampleDesign(), Delhi);
    assert a.totalHeatGain == 4176.0;
    assert a.coolingLoadKWh == 4176.0 / 3412.0;
    assert a.energyConsumedKWh == 4176.0 / 13648.0;
    assert a.coolingCost == 35496.0 / 13648.0;
  }
}
