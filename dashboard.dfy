/** `Dashboard.tsx`: the home screen's state. Refreshing the service status
    and paying the bill each take effect in two steps, the second a timer
    firing later; the consumption card switches between kWh and francs. */
module Dashboard {
  import opened Records
  import opened JsMath
  import Consumption

  /** The bill card's state: the pay button shows only while unpaid. */
  datatype BillStatus = Unpaid | Paying | Paid

  /** What the consumption card shows. */
  datatype Reading = Reading(current: real, limit: real, unit: Unit)

  const INITIAL_READING: Reading := Reading(245.0, 300.0, KWh)

  /* ---------------- the unit toggle ---------------- */

  /** `toggleUnit`: kWh are multiplied by 150 into francs; francs are
      divided by 150 and rounded into kWh. */
  function Toggled(r: Reading): (t: Reading)
    ensures t.unit != r.unit
    ensures r.unit == KWh ==> t.current == r.current * 150.0 && t.limit == r.limit * 150.0
    ensures r.unit == XAF ==>
      t.current == Round(r.current / 150.0) as real && t.limit == Round(r.limit / 150.0) as real
  {
    if r.unit == KWh then Reading(r.current * 150.0, r.limit * 150.0, XAF)
    else Reading(Round(r.current / 150.0) as real, Round(r.limit / 150.0) as real, KWh)
  }

  /** Toggling twice from whole kWh gives back the reading. */
  lemma ToggleTwiceFromKWh(current: int, limit: int)
    ensures var r := Reading(current as real, limit as real, KWh);
      Toggled(Toggled(r)) == r
  {
    Consumption.ConvertRoundTrip(current);
    Consumption.ConvertRoundTrip(limit);
    Consumption.RoundOfInteger(current * 150);
    Consumption.RoundOfInteger(limit * 150);
  }

  /** Toggling twice from francs need not: 100 XAF shows as 1 kWh, then as
      150 XAF. */
  lemma ToggleTwiceFromFrancsLoses()
    ensures Toggled(Toggled(Reading(100.0, 100.0, XAF))) == Reading(150.0, 150.0, XAF)
  {
    Consumption.ConvertToKWhOfInteger(100);
  }

  /** On whole kWh the toggle converts as the consumption service's
      `convertUnit` does. */
  lemma ToggleAgreesWithConvertUnit(r: Reading)
    requires r.unit == KWh ==> r.current == r.current.Floor as real && r.limit == r.limit.Floor as real
    ensures Toggled(r).current == Consumption.ConvertUnit(r.current, r.unit, Toggled(r).unit)
    ensures Toggled(r).limit == Consumption.ConvertUnit(r.limit, r.unit, Toggled(r).unit)
  {
    if r.unit == KWh {
      Consumption.RoundOfInteger(r.current.Floor * 150);
      Consumption.RoundOfInteger(r.limit.Floor * 150);
    }
  }

  /* ---------------- the bill card ---------------- */

  /** What happens to the bill card: the pay button is pressed, or the
      payment timer fires. */
  datatype BillEvent = PressPay | PaymentDone

  function BillRank(s: BillStatus): nat {
    match s
    case Unpaid => 0
    case Paying => 1
    case Paid => 2
  }

  /** The bill card's state after an event. */
  function BillStep(s: BillStatus, e: BillEvent): (t: BillStatus)
    ensures BillRank(t) >= BillRank(s)
    ensures t == Paid <==> s == Paid || (s == Paying && e == PaymentDone)
  {
    match e
    case PressPay => if s == Unpaid then Paying else s
    case PaymentDone => if s == Paying then Paid else s
  }

  /** The bill card's state after a run of events. */
  function BillRun(s: BillStatus, events: seq<BillEvent>): BillStatus
    decreases |events|
  {
    if events == [] then s else BillRun(BillStep(s, events[0]), events[1..])
  }

  /** Once payment has started, the bill never shows as unpaid again, and
      once paid it stays paid. */
  lemma {:induction false} BillRunNeverUnpays(s: BillStatus, events: seq<BillEvent>)
    ensures BillRank(BillRun(s, events)) >= BillRank(s)
    ensures s != Unpaid ==> BillRun(s, events) != Unpaid
    ensures s == Paid ==> BillRun(s, events) == Paid
    decreases |events|
  {
    if events != [] {
      BillRunNeverUnpays(BillStep(s, events[0]), events[1..]);
    }
  }

  /** Pressing pay and then waiting for the timer pays the bill. */
  lemma PayThenWaitPays()
    ensures BillRun(Unpaid, [PressPay, PaymentDone]) == Paid
  {
    assert [PressPay, PaymentDone][1..] == [PaymentDone];
    assert [PaymentDone][1..] == [];
  }

  class DashboardScreen {
    var lastCheck: int
    var isRefreshing: bool
    /** A status refresh is scheduled and has not fired. */
    var refreshScheduled: bool
    var billStatus: BillStatus
    /** A payment is scheduled and has not completed. */
    var paymentScheduled: bool
    var consumption: Reading

    /** The spinner and the bill's "paying" state each last exactly as long
        as their timer is pending. */
    predicate Valid()
      reads this
    {
      && (isRefreshing <==> refreshScheduled)
      && (billStatus == Paying <==> paymentScheduled)
    }

    constructor (now: int)
      ensures Valid()
      ensures lastCheck == now && !isRefreshing && billStatus == Unpaid && consumption == INITIAL_READING
    {
      lastCheck := now;
      isRefreshing := false;
      refreshScheduled := false;
      billStatus := Unpaid;
      paymentScheduled := false;
      consumption := INITIAL_READING;
    }

    /** `refreshStatus`, from the refresh button, which is disabled while a
        refresh runs. */
    method RefreshStatus()
      requires Valid()
      modifies this
      ensures Valid()
      ensures isRefreshing
      ensures lastCheck == old(lastCheck) && billStatus == old(billStatus) && consumption == old(consumption)
    {
      if isRefreshing {
        return;
      }
      isRefreshing := true;
      refreshScheduled := true;
    }

    /** The refresh timer fires at `now`. */
    method RefreshCompletes(now: int)
      requires Valid()
      modifies this
      ensures Valid()
      ensures !isRefreshing
      ensures old(refreshScheduled) ==> lastCheck == now
      ensures !old(refreshScheduled) ==> lastCheck == old(lastCheck)
      ensures billStatus == old(billStatus) && consumption == old(consumption)
    {
      if refreshScheduled {
        lastCheck := now;
        isRefreshing := false;
        refreshScheduled := false;
      }
    }

    /** `payBill`, from the pay button, which shows only while the bill is
        unpaid. */
    method PayBill()
      requires Valid()
      modifies this
      ensures Valid()
      ensures billStatus == BillStep(old(billStatus), PressPay)
      ensures lastCheck == old(lastCheck) && isRefreshing == old(isRefreshing) && consumption == old(consumption)
    {
      if billStatus != Unpaid {
        return;
      }
      billStatus := Paying;
      paymentScheduled := true;
    }

    /** The payment timer fires. */
    method PaymentCompletes()
      requires Valid()
      modifies this
      ensures Valid()
      ensures billStatus == BillStep(old(billStatus), PaymentDone)
      ensures lastCheck == old(lastCheck) && isRefreshing == old(isRefreshing) && consumption == old(consumption)
    {
      if paymentScheduled {
        billStatus := Paid;
        paymentScheduled := false;
      }
    }

    /** `toggleUnit`. */
    method ToggleUnit()
      requires Valid()
      modifies this
      ensures Valid()
      ensures consumption == Toggled(old(consumption))
      ensures lastCheck == old(lastCheck) && isRefreshing == old(isRefreshing) && billStatus == old(billStatus)
    {
      if consumption.unit == KWh {
        consumption := Reading(consumption.current * 150.0, consumption.limit * 150.0, XAF);
      } else {
        consumption := Reading(Round(consumption.current / 150.0) as real, Round(consumption.limit / 150.0) as real, KWh);
      }
    }
  }
}
