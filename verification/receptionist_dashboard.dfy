/** The AI-receptionist agency dashboard
    (src/pages/dashboard/AIReceptionistDashboard.tsx): the ROI, MRR and
    sales-pipeline figures, the industry presets, the detail-card toggle and
    the numeric inputs. Inputs are whole numbers; the calls-per-post input,
    the one with a 0.1 step, is held in tenths. `Math.floor(x * (r / 100))`
    is `(x * r) / 100`: Dafny's division by a positive divisor rounds down. */
module ReceptionistDashboard {
  import opened Optional
  import Decimal

  /** The calls, conversion rate and average transaction of an industry. */
  datatype Preset = Preset(callsPerDay: int, conversion: int, avgTransaction: int)

  const Presets: map<string, Preset> := map[
    "dentist" := Preset(30, 50, 100),
    "chiropractor" := Preset(25, 60, 75),
    "plumber" := Preset(15, 40, 200),
    "medspa" := Preset(20, 35, 150),
    "realtor" := Preset(40, 5, 8000),
    "hvac" := Preset(20, 45, 180),
    "lawyer" := Preset(18, 30, 250),
    "restaurant" := Preset(35, 70, 60),
    "autorepair" := Preset(22, 50, 175),
    "vet" := Preset(25, 55, 120)
  ]

  const GoalMRR := 43000
  const PipelinePrice := 497

  // ---------------------------------------------------------------- ROI tab

  datatype RoiFigures = RoiFigures(callsPerMonth: int, newCustomers: int,
                                   addedRevenue: int, roiMultiple: int)

  /** `Math.floor(x * (rate / 100))`, taken here as the exact floor of
      `x * rate / 100`; the browser floors a double, which can fall just
      below a whole result. */
  function PercentOf(x: int, rate: int): (r: int)
    ensures r * 100 <= x * rate < (r + 1) * 100
  {
    (x * rate) / 100
  }

  function Roi(callsPerDay: int, conversionRate: int, avgTransaction: int, monthlyPrice: int): RoiFigures {
    var callsPerMonth := callsPerDay * 30;
    var newCustomers := PercentOf(callsPerMonth, conversionRate);
    var addedRevenue := newCustomers * avgTransaction;
    var roiMultiple := if monthlyPrice > 0 then addedRevenue / monthlyPrice else 0;
    RoiFigures(callsPerMonth, newCustomers, addedRevenue, roiMultiple)
  }

  /** A rate in 0..100 of a non-negative count is a count no larger. */
  lemma PercentOfBounded(x: int, rate: int)
    requires x >= 0 && 0 <= rate <= 100
    ensures 0 <= PercentOf(x, rate) <= x
  {
    assert x * rate <= x * 100 by {
      assert x * (100 - rate) >= 0;
    }
  }

  /** The ROI figures: a month is 30 days; the new customers are the floor
      of the converted share of the calls, never more than the calls for a
      rate up to 100; the multiple is the floor of revenue over price, or 0
      for a price that is not positive. */
  lemma RoiFacts(callsPerDay: int, conversionRate: int, avgTransaction: int, monthlyPrice: int)
    ensures var r := Roi(callsPerDay, conversionRate, avgTransaction, monthlyPrice);
      && r.callsPerMonth == 30 * callsPerDay
      && r.newCustomers * 100 <= r.callsPerMonth * conversionRate < (r.newCustomers + 1) * 100
      && (callsPerDay >= 0 && 0 <= conversionRate <= 100 ==> 0 <= r.newCustomers <= r.callsPerMonth)
      && r.addedRevenue == r.newCustomers * avgTransaction
      && (monthlyPrice <= 0 ==> r.roiMultiple == 0)
      && (monthlyPrice > 0 ==>
            r.roiMultiple * monthlyPrice <= r.addedRevenue < (r.roiMultiple + 1) * monthlyPrice)
  {
    var r := Roi(callsPerDay, conversionRate, avgTransaction, monthlyPrice);
    if callsPerDay >= 0 && 0 <= conversionRate <= 100 {
      PercentOfBounded(r.callsPerMonth, conversionRate);
    }
  }

  // ---------------------------------------------------------------- MRR tab

  datatype MrrFigures = MrrFigures(currentMRR: int, churnedClients: int, projectedClients: int,
                                   projectedMRR: int, arr: int, progressPercent: real)

  function Mrr(currentClients: int, avgPrice: int, churnRate: int, newClients: int): MrrFigures {
    var currentMRR := currentClients * avgPrice;
    var churned := PercentOf(currentClients, churnRate);
    var projected := currentClients - churned + newClients;
    var share := (currentMRR as real) / (GoalMRR as real) * 100.0;
    MrrFigures(currentMRR, churned, projected, projected * avgPrice, currentMRR * 12,
               if share < 100.0 then share else 100.0)
  }

  /** The MRR figures: with a churn rate in 0..100 the churned clients are
      among the current ones, so the projection keeps at least the new
      clients; the ARR is twelve months; the progress bar tops out at 100 and
      reaches it exactly at the goal. */
  lemma MrrFacts(currentClients: int, avgPrice: int, churnRate: int, newClients: int)
    ensures var m := Mrr(currentClients, avgPrice, churnRate, newClients);
      && m.currentMRR == currentClients * avgPrice
      && (currentClients >= 0 && 0 <= churnRate <= 100 ==>
            0 <= m.churnedClients <= currentClients && m.projectedClients >= newClients)
      && m.projectedClients == currentClients - m.churnedClients + newClients
      && m.projectedMRR == m.projectedClients * avgPrice
      && m.arr == 12 * m.currentMRR
      && m.progressPercent <= 100.0
      && (m.progressPercent == 100.0 <==> m.currentMRR >= GoalMRR)
      && (m.currentMRR >= 0 ==> m.progressPercent >= 0.0)
  {
    if currentClients >= 0 && 0 <= churnRate <= 100 {
      PercentOfBounded(currentClients, churnRate);
    }
  }

  // ----------------------------------------------------------- Pipeline tab

  datatype PipelineFigures = PipelineFigures(demoCalls: int, appointments: int, showedAppts: int,
                                             newSales: int, newPipelineMRR: int)

  /** The funnel, with the calls per post given in tenths: a month of demo
      calls is `fbPosts * tenths / 10 * 30`, a whole number. */
  function Pipeline(fbPosts: int, callsPerPostTenths: int, bookingRate: int,
                    showRate: int, salesCloseRate: int): PipelineFigures
  {
    var demoCalls := fbPosts * callsPerPostTenths * 3;
    var appointments := PercentOf(demoCalls, bookingRate);
    var showed := PercentOf(appointments, showRate);
    var sales := PercentOf(showed, salesCloseRate);
    PipelineFigures(demoCalls, appointments, showed, sales, sales * PipelinePrice)
  }

  /** With rates in 0..100 every stage of the funnel is no larger than the
      one before, and each sale adds the $497 price. */
  lemma FunnelNarrows(fbPosts: int, callsPerPostTenths: int, bookingRate: int,
                      showRate: int, salesCloseRate: int)
    requires fbPosts >= 0 && callsPerPostTenths >= 0
    requires 0 <= bookingRate <= 100 && 0 <= showRate <= 100 && 0 <= salesCloseRate <= 100
    ensures var p := Pipeline(fbPosts, callsPerPostTenths, bookingRate, showRate, salesCloseRate);
      && p.demoCalls * 10 == fbPosts * callsPerPostTenths * 30
      && 0 <= p.newSales <= p.showedAppts <= p.appointments <= p.demoCalls
      && p.newPipelineMRR == 497 * p.newSales
  {
    var p := Pipeline(fbPosts, callsPerPostTenths, bookingRate, showRate, salesCloseRate);
    assert p.demoCalls >= 0 by {
      assert fbPosts * callsPerPostTenths >= 0;
    }
    PercentOfBounded(p.demoCalls, bookingRate);
    PercentOfBounded(p.appointments, showRate);
    PercentOfBounded(p.showedAppts, salesCloseRate);
  }

  // --------------------------------------------------------- numeric inputs

  /** `parseFloat(value) || 0` on the text of a number input: the number
      written, or 0 when the box is empty or holds no number. */
  function ParseOrZero(text: string): int {
    match Decimal.ParseInt(text)
    case Some(n) => n
    case None => 0
  }

  /** A number typed in is stored as that number; an empty box as 0. */
  lemma ParseOrZeroFacts(n: int)
    ensures ParseOrZero(Decimal.IntToString(n)) == n
    ensures ParseOrZero("") == 0
    ensures ParseOrZero("abc") == 0
  {
    Decimal.IntRoundTrip(n);
  }

  /** The inputs built with `InputGroup`, apart from the calls per post. */
  datatype NumberInput =
    | CallsPerDay | ConversionRate | AvgTransaction | MonthlyPrice
    | CurrentClients | AvgPrice | ChurnRate | NewClients
    | FbPosts | BookingRate | ShowRate | SalesCloseRate

  class Dashboard {
    var selectedIndustry: string
    var callsPerDay: int
    var conversionRate: int
    var avgTransaction: int
    var monthlyPrice: int
    var currentClients: int
    var avgPrice: int
    var churnRate: int
    var newClients: int
    var fbPosts: int
    var callsPerPostTenths: int
    var bookingRate: int
    var showRate: int
    var salesCloseRate: int
    var selectedIndustryDetail: Option<string>

    /** The detail panel only ever shows a preset industry. */
    ghost predicate Valid()
      reads this
    {
      selectedIndustryDetail.Some? ==> selectedIndustryDetail.value in Presets
    }

    function Number(input: NumberInput): int
      reads this
    {
      match input
      case CallsPerDay => callsPerDay
      case ConversionRate => conversionRate
      case AvgTransaction => avgTransaction
      case MonthlyPrice => monthlyPrice
      case CurrentClients => currentClients
      case AvgPrice => avgPrice
      case ChurnRate => churnRate
      case NewClients => newClients
      case FbPosts => fbPosts
      case BookingRate => bookingRate
      case ShowRate => showRate
      case SalesCloseRate => salesCloseRate
    }

    constructor ()
      ensures Valid()
      ensures selectedIndustry == "custom" && selectedIndustryDetail == None
      ensures callsPerDay == 30 && conversionRate == 50 && avgTransaction == 100 && monthlyPrice == 497
      ensures currentClients == 0 && avgPrice == 497 && churnRate == 5 && newClients == 0
      ensures fbPosts == 10 && callsPerPostTenths == 7 && bookingRate == 100
      ensures showRate == 70 && salesCloseRate == 41
    {
      selectedIndustry := "custom";
      callsPerDay, conversionRate, avgTransaction, monthlyPrice := 30, 50, 100, 497;
      currentClients, avgPrice, churnRate, newClients := 0, 497, 5, 0;
      fbPosts, callsPerPostTenths, bookingRate, showRate, salesCloseRate := 10, 7, 100, 70, 41;
      selectedIndustryDetail := None;
    }

    /** `handleIndustryChange`: the selector always takes the value; a preset
        key also loads its three figures; the monthly price is never touched. */
    method HandleIndustryChange(value: string)
      requires Valid()
      modifies this
      ensures Valid()
      ensures selectedIndustry == value
      ensures value != "custom" && value in Presets ==>
                && callsPerDay == Presets[value].callsPerDay
                && conversionRate == Presets[value].conversion
                && avgTransaction == Presets[value].avgTransaction
      ensures value == "custom" || value !in Presets ==>
                && callsPerDay == old(callsPerDay) && conversionRate == old(conversionRate)
                && avgTransaction == old(avgTransaction)
      ensures monthlyPrice == old(monthlyPrice) && selectedIndustryDetail == old(selectedIndustryDetail)
      ensures currentClients == old(currentClients) && avgPrice == old(avgPrice)
      ensures churnRate == old(churnRate) && newClients == old(newClients)
      ensures fbPosts == old(fbPosts) && callsPerPostTenths == old(callsPerPostTenths)
      ensures bookingRate == old(bookingRate) && showRate == old(showRate)
      ensures salesCloseRate == old(salesCloseRate)
    {
      selectedIndustry := value;
      if value != "custom" && value in Presets {
        var preset := Presets[value];
        callsPerDay := preset.callsPerDay;
        conversionRate := preset.conversion;
        avgTransaction := preset.avgTransaction;
      }
    }

    /** A click on an industry card: closes the open card, opens any other. */
    method ClickIndustryCard(key: string)
      requires Valid() && key in Presets
      modifies this`selectedIndustryDetail
      ensures Valid()
      ensures selectedIndustryDetail == if old(selectedIndustryDetail) == Some(key) then None else Some(key)
    {
      selectedIndustryDetail := if selectedIndustryDetail == Some(key) then None else Some(key);
    }

    /** An `InputGroup` change: the parsed number, or 0, goes to that input
        and to no other. */
    method SetNumber(input: NumberInput, text: string)
      requires Valid()
      modifies this
      ensures Valid()
      ensures Number(input) == ParseOrZero(text)
      ensures forall other :: other != input ==> Number(other) == old(Number(other))
      ensures selectedIndustry == old(selectedIndustry) && callsPerPostTenths == old(callsPerPostTenths)
      ensures selectedIndustryDetail == old(selectedIndustryDetail)
    {
      var n := ParseOrZero(text);
      match input
      case CallsPerDay => callsPerDay := n;
      case ConversionRate => conversionRate := n;
      case AvgTransaction => avgTransaction := n;
      case MonthlyPrice => monthlyPrice := n;
      case CurrentClients => currentClients := n;
      case AvgPrice => avgPrice := n;
      case ChurnRate => churnRate := n;
      case NewClients => newClients := n;
      case FbPosts => fbPosts := n;
      case BookingRate => bookingRate := n;
      case ShowRate => showRate := n;
      case SalesCloseRate => salesCloseRate := n;
    }

    /** The calls-per-post input, in tenths of a call. */
    method SetCallsPerPost(tenths: int)
      requires Valid()
      modifies this`callsPerPostTenths
      ensures Valid() && callsPerPostTenths == tenths
    {
      callsPerPostTenths := tenths;
    }
  }
}
