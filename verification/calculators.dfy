/** The "scale tax" calculator (src/pages/demos/TextSupportDemo.tsx):
    seats needed at 400 tickets a month each, the yearly human cost against a
    flat $6,000. */
module TextSupport {
  const TicketsPerAgent := 400
  const HumanCostPerTicket := 7
  const SeatCost := 1200
  const FlatRate := 500 * 12

  /** `Math.ceil(tickets / 400)`: the fewest agents whose 400 tickets each
      cover the volume. */
  function AgentsNeeded(tickets: int): (agents: int)
    ensures (agents - 1) * TicketsPerAgent < tickets <= agents * TicketsPerAgent
  {
    (tickets + TicketsPerAgent - 1) / TicketsPerAgent
  }

  function AnnualHumanCost(tickets: int): int {
    tickets * 12 * HumanCostPerTicket + AgentsNeeded(tickets) * SeatCost
  }

  function Savings(tickets: int): int {
    AnnualHumanCost(tickets) - FlatRate
  }

  /** The slider: 100 to 5000 in steps of 100. */
  predicate OnSlider(tickets: int) {
    100 <= tickets <= 5000 && tickets % 100 == 0
  }

  /** More tickets never need fewer agents. */
  lemma AgentsMonotone(fewer: int, more: int)
    requires fewer <= more
    ensures AgentsNeeded(fewer) <= AgentsNeeded(more)
  {
    var a, b := AgentsNeeded(fewer), AgentsNeeded(more);
    assert (a - 1) * TicketsPerAgent < b * TicketsPerAgent;
  }

  /** The human cost never falls as the volume rises. */
  lemma HumanCostMonotone(fewer: int, more: int)
    requires fewer <= more
    ensures AnnualHumanCost(fewer) <= AnnualHumanCost(more)
  {
    AgentsMonotone(fewer, more);
  }

  /** Across the slider the saving is at least $3,600, reached at 100
      tickets. */
  lemma SavingsOnSlider(tickets: int)
    requires OnSlider(tickets)
    ensures Savings(tickets) >= 3600
    ensures Savings(100) == 3600
  {
    assert AgentsNeeded(tickets) >= 1;
    assert AgentsNeeded(100) == 1;
  }

  /** What the calculator shows: the toggle only relabels its button. */
  datatype View = View(buttonLabel: string, agents: int, humanCost: int, flatCost: int, savings: int)

  function Render(tickets: int, isAnnual: bool): View {
    View(if isAnnual then "Showing Annual Savings" else "Show Annual Savings",
         AgentsNeeded(tickets), AnnualHumanCost(tickets), FlatRate, Savings(tickets))
  }

  /** Flipping `isAnnual` changes no figure. */
  lemma AnnualToggleChangesNoFigure(tickets: int)
    ensures Render(tickets, true).(buttonLabel := "") == Render(tickets, false).(buttonLabel := "")
  {
  }
}

/** The missed-call burn calculator (src/components/sections/RoiCalculator.tsx). */
module RoiCalculator {
  /** Revenue lost a month: missed calls a week, four weeks, each worth the
      customer value. */
  function MonthlyBurn(missedCalls: int, customerValue: int): int {
    missedCalls * 4 * customerValue
  }

  /** The sliders: calls 0 to 100; value 0 to 5000 in steps of 50. */
  predicate OnSliders(missedCalls: int, customerValue: int) {
    0 <= missedCalls <= 100 && 0 <= customerValue <= 5000 && customerValue % 50 == 0
  }

  /** No missed calls or no value, no burn. */
  lemma NoBurn(missedCalls: int, customerValue: int)
    ensures missedCalls == 0 || customerValue == 0 ==> MonthlyBurn(missedCalls, customerValue) == 0
  {
  }

  /** On the sliders the burn lies in 0..2,000,000 and is a multiple of 200. */
  lemma BurnOnSliders(missedCalls: int, customerValue: int)
    requires OnSliders(missedCalls, customerValue)
    ensures 0 <= MonthlyBurn(missedCalls, customerValue) <= 2000000
    ensures MonthlyBurn(missedCalls, customerValue) % 200 == 0
  {
    var steps := customerValue / 50;
    assert customerValue == 50 * steps;
    assert MonthlyBurn(missedCalls, customerValue) == 200 * (missedCalls * steps);
    assert missedCalls * steps >= 0;
    assert missedCalls * customerValue <= 100 * customerValue;
  }

  /** Raising either input never lowers the burn. */
  lemma BurnMonotone(calls1: int, value1: int, calls2: int, value2: int)
    requires 0 <= calls1 <= calls2 && 0 <= value1 <= value2
    ensures MonthlyBurn(calls1, value1) <= MonthlyBurn(calls2, value2)
  {
    assert calls1 * value1 <= calls2 * value1;
    assert calls2 * value1 <= calls2 * value2;
  }
}

/** The missed-revenue calculator (src/pages/demos/PhoneSupportDemo.tsx). */
module PhoneSupport {
  const AnnualCostW3 := 1200

  function AnnualLoss(missedCalls: int, avgValue: int): int {
    missedCalls * 52 * avgValue
  }

  /** The saving quoted under the cards; negative when the loss is small. */
  function Saving(missedCalls: int, avgValue: int): int {
    AnnualLoss(missedCalls, avgValue) - AnnualCostW3
  }

  /** The loss card is shown only for a positive loss. */
  predicate ShowsLoss(missedCalls: int, avgValue: int) {
    AnnualLoss(missedCalls, avgValue) > 0
  }

  /** On the 0..50 slider the loss card shows exactly when some calls are
      missed and the value is positive. */
  lemma ShowsLossExactly(missedCalls: int, avgValue: int)
    requires 0 <= missedCalls <= 50
    ensures ShowsLoss(missedCalls, avgValue) <==> missedCalls > 0 && avgValue > 0
  {
    if missedCalls > 0 && avgValue <= 0 {
      assert missedCalls * avgValue <= 0;
    }
    if missedCalls > 0 && avgValue > 0 {
      assert missedCalls * avgValue > 0;
    }
  }

  /** With no missed calls the quoted saving is -$1,200. */
  lemma NegativeSaving(avgValue: int)
    ensures Saving(0, avgValue) == -1200
    ensures !ShowsLoss(0, avgValue)
  {
  }

  /** What the calculator shows: the day/night switch only restyles it. */
  datatype View = View(dark: bool, showsLoss: bool, loss: int, w3Cost: int, saving: int)

  function Render(missedCalls: int, avgValue: int, isDark: bool): View {
    View(isDark, ShowsLoss(missedCalls, avgValue), AnnualLoss(missedCalls, avgValue),
         AnnualCostW3, Saving(missedCalls, avgValue))
  }

  /** Flipping `isDark` changes no figure. */
  lemma ThemeChangesNoFigure(missedCalls: int, avgValue: int)
    ensures Render(missedCalls, avgValue, true).(dark := false) == Render(missedCalls, avgValue, false)
  {
  }
}

/** The admin-time calculator (src/pages/demos/AppointmentSettingDemo.tsx). */
module AppointmentSetting {
  const W3AnnualCost := 1200

  function WeeklyCost(hoursWasted: int, hourlyRate: int): int {
    hoursWasted * hourlyRate
  }

  function AnnualCost(hoursWasted: int, hourlyRate: int): int {
    WeeklyCost(hoursWasted, hourlyRate) * 52
  }

  function AnnualSavings(hoursWasted: int, hourlyRate: int): int {
    AnnualCost(hoursWasted, hourlyRate) - W3AnnualCost
  }

  /** With the hours slider at 1..20, a year costs at most 1040 hours of
      the rate, and at least 52. */
  lemma AnnualCostOnSlider(hoursWasted: int, hourlyRate: int)
    requires 1 <= hoursWasted <= 20 && hourlyRate >= 0
    ensures 52 * hourlyRate <= AnnualCost(hoursWasted, hourlyRate) <= 1040 * hourlyRate
  {
    assert hoursWasted * hourlyRate <= 20 * hourlyRate;
    assert hoursWasted * hourlyRate >= hourlyRate;
  }

  /** The rate box is unbounded, so the quoted saving can be negative. */
  lemma SavingsCanBeNegative()
    ensures AnnualSavings(1, 10) < 0
    ensures AnnualSavings(5, 100) == 24800
  {
  }
}

/** The productised-report calculator (src/pages/demos/ProductizedInfoDemo.tsx). */
module ProductizedInfo {
  const SalesVolume := 10

  function ManualRevenue(reportValue: int): int {
    SalesVolume * reportValue
  }

  function ProductizedRevenue(reportValue: int): int {
    SalesVolume * reportValue * 10
  }

  /** Productised revenue is always ten times the manual revenue, and on
      the 500..5000 slider the manual revenue lies in 5,000..50,000. */
  lemma RevenueFacts(reportValue: int)
    ensures ProductizedRevenue(reportValue) == 10 * ManualRevenue(reportValue)
    ensures 500 <= reportValue <= 5000 ==> 5000 <= ManualRevenue(reportValue) <= 50000
  {
  }
}
