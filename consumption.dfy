/** `consumption.service.ts`: the current consumption and the current bill,
    both cached; the monthly history and the month-on-month comparison
    built from it; the kWh/XAF conversion; bill payment and the bill labels.
    `Math.random()` draws are a parameter, as is the clock. */
module Consumption {
  import opened Wrappers
  import opened Records
  import opened Strings
  import opened JsMath
  import opened Calendar
  import opened Storage

  const CONSUMPTION_CACHE_KEY: string := "consumption_data"
  const BILLS_CACHE_KEY: string := "bills_data"

  const CONSUMPTION_TTL_MS: nat := HOUR_MS
  const BILL_TTL_MS: nat := 6 * HOUR_MS

  /** 150 XAF per kWh. */
  const RATE_PER_KWH: int := 150

  /* ---------------- unit conversion ---------------- */

  /** `convertUnit`. */
  function ConvertUnit(value: real, fromUnit: Unit, toUnit: Unit): (r: real)
    ensures fromUnit == toUnit ==> r == value
    ensures fromUnit != toUnit ==> r == r.Floor as real
    ensures fromUnit == KWh && toUnit == XAF ==> r - 0.5 <= value * RATE_PER_KWH as real < r + 0.5
    ensures fromUnit == XAF && toUnit == KWh ==> r - 0.5 <= value / RATE_PER_KWH as real < r + 0.5
  {
    if fromUnit == toUnit then value
    else if fromUnit == KWh then Round(value * RATE_PER_KWH as real) as real
    else Round(value / RATE_PER_KWH as real) as real
  }

  /** `Math.round` of a whole number is that number. */
  lemma RoundOfInteger(n: int)
    ensures Round(n as real) == n
  {
  }

  /** For a whole amount of francs, the conversion to kWh is the quotient
      of `v + 75` by 150, rounded down. */
  lemma ConvertToKWhOfInteger(v: int)
    ensures ConvertUnit(v as real, XAF, KWh) == ((v + 75) / 150) as real
  {
    RoundOfQuotient150(v);
  }

  /** A whole number of kWh converted to francs and back is unchanged. */
  lemma ConvertRoundTrip(k: int)
    ensures ConvertUnit(ConvertUnit(k as real, KWh, XAF), XAF, KWh) == k as real
  {
    RoundOfInteger(k * 150);
    assert ConvertUnit(k as real, KWh, XAF) == (k * 150) as real;
    ConvertToKWhOfInteger(k * 150);
    assert (k * 150 + 75) / 150 == k;
  }

  /** Francs converted to kWh and back need not be the amount they were:
      100 XAF is 1 kWh, which is 150 XAF. */
  lemma ConvertFromFrancsLoses()
    ensures ConvertUnit(ConvertUnit(100.0, XAF, KWh), KWh, XAF) == 150.0
  {
    ConvertToKWhOfInteger(100);
    RoundOfInteger(150);
  }

  /* ---------------- monthly history ---------------- */

  /** The history entry of month `ym`, built from the draw `draw` of
      `Math.random()`: a consumption between 200 and 300 kWh and its cost
      at 150 XAF per kWh, labelled with the "YYYY-MM" text of the month. */
  function HistoryEntry(ym: YearMonth, draw: real): (e: ConsumptionHistory)
    requires ValidYearMonth(ym) && 0 <= ym.year <= 9999
    ensures |e.date| == 7 && (forall i :: 0 <= i < 7 && i != 4 ==> IsDigit(e.date[i]))
    ensures ParseMonthLabel(e.date) == ym
    ensures 0.0 <= draw < 1.0 ==> 200 <= e.consumption <= 300 && 30000 <= e.cost <= 45000
  {
    MonthLabelRoundTrip(ym);
    var base := 200.0 + draw * 100.0;
    ConsumptionHistory(MonthLabel(ym), Round(base), Round(base * RATE_PER_KWH as real))
  }

  /** The months before `current`, back to the `i`-th, are four-digit years
      when `current` is and month 0 of year 0 is not passed. */
  lemma MonthsBeforeInRange(current: YearMonth, i: int)
    requires ValidYearMonth(current) && current.year <= 9999
    requires 0 <= i <= MonthIndex(current)
    ensures 0 <= MonthsBefore(current, i).year <= 9999
  {
  }

  /** The month of the `j`-th of `total` entries ending with `current`. */
  function EntryMonth(current: YearMonth, total: int, j: int): (ym: YearMonth)
    ensures ValidYearMonth(ym) && MonthIndex(ym) == MonthIndex(current) - (total - 1 - j)
  {
    MonthsBefore(current, total - 1 - j)
  }

  /** `history[j]` is the entry of the month `total - 1 - j` months before
      `current`, built from the draw `draws[j]`. */
  predicate EntriesBefore(history: seq<ConsumptionHistory>, current: YearMonth, total: int, draws: seq<real>) {
    && |history| <= |draws|
    && forall j :: 0 <= j < |history| ==>
      && 0 <= EntryMonth(current, total, j).year <= 9999
      && history[j] == HistoryEntry(EntryMonth(current, total, j), draws[j])
  }

  /** `getConsumptionHistory(months)`, in the month `current` (the local
      year and month of `new Date()`), with `draws[j]` the `Math.random()`
      value drawn for the `j`-th entry. Entry `j` describes the month
      `months - 1 - j` months before `current`: the oldest month first,
      the current month last. */
  method GetConsumptionHistory(months: int, current: YearMonth, draws: seq<real>)
    returns (history: seq<ConsumptionHistory>)
    requires ValidYearMonth(current) && 0 <= current.year <= 9999
    requires months <= MonthIndex(current) + 1
    requires months <= |draws|
    ensures |history| == if months > 0 then months else 0
    ensures EntriesBefore(history, current, |history|, draws)
  {
    history := [];
    var i := months - 1;
    while i >= 0
      invariant months <= 0 ==> i == months - 1 && history == []
      invariant months > 0 ==> -1 <= i < months && |history| == months - 1 - i
      invariant EntriesBefore(history, current, months, draws)
    {
      MonthsBeforeInRange(current, i);
      var entry := HistoryEntry(EntryMonth(current, months, months - 1 - i), draws[months - 1 - i]);
      AppendEntry(history, current, months, draws, entry);
      history := history + [entry];
      i := i - 1;
    }
  }

  lemma AppendEntry(history: seq<ConsumptionHistory>, current: YearMonth, total: int, draws: seq<real>,
                    entry: ConsumptionHistory)
    requires EntriesBefore(history, current, total, draws) && |history| < |draws|
    requires 0 <= EntryMonth(current, total, |history|).year <= 9999
    requires entry == HistoryEntry(EntryMonth(current, total, |history|), draws[|history|])
    ensures EntriesBefore(history + [entry], current, total, draws)
  {
    var h := history + [entry];
    forall j | 0 <= j < |h|
      ensures && 0 <= EntryMonth(current, total, j).year <= 9999
              && h[j] == HistoryEntry(EntryMonth(current, total, j), draws[j])
    {
      if j < |history| {
        assert h[j] == history[j];
      } else {
        assert j == |history| && h[j] == entry;
      }
    }
    assert |h| <= |draws|;
  }

  /** The history's labels name consecutive months, oldest first, ending
      with the current month; every consumption lies between 200 and 300
      kWh when the draws lie in [0, 1). */
  lemma {:induction false} HistoryInOrder(history: seq<ConsumptionHistory>, current: YearMonth, draws: seq<real>)
    requires ValidYearMonth(current) && 0 <= current.year <= 9999
    requires EntriesBefore(history, current, |history|, draws)
    ensures forall j :: 0 <= j < |history| ==>
      |history[j].date| == 7 && forall i :: 0 <= i < 7 && i != 4 ==> IsDigit(history[j].date[i])
    ensures forall j, k :: 0 <= j < k < |history| ==>
      MonthIndex(ParseMonthLabel(history[j].date)) + (k - j) == MonthIndex(ParseMonthLabel(history[k].date))
    ensures |history| > 0 ==> ParseMonthLabel(history[|history| - 1].date) == current
    ensures (forall j :: 0 <= j < |draws| ==> 0.0 <= draws[j] < 1.0) ==>
      forall j :: 0 <= j < |history| ==> 200 <= history[j].consumption <= 300
  {
    forall j | 0 <= j < |history|
      ensures MonthIndex(ParseMonthLabel(history[j].date)) == MonthIndex(current) - (|history| - 1 - j)
    {
    }
    if |history| > 0 {
      var last := MonthsBefore(current, 0);
      assert ParseMonthLabel(history[|history| - 1].date) == last;
      MonthIndexRoundTrip(current);
      MonthIndexRoundTrip(last);
    }
  }

  /* ---------------- the month label as the source writes it ---------------- */

  /** The month `toISOString().slice(0, 7)` names for `new Date(y, m - 1, 1)`:
      the UTC date of local midnight on the first of the month. */
  function WrittenLabelMonth(ym: YearMonth, zone: int): YearMonth {
    var d := UtcDate(LocalInstant(ym.year, ym.month, 1, 0, 0, zone));
    YearMonth(d.year, d.month)
  }

  lemma FirstOfJanuary2024()
    ensures DaysFromCivil(2024, 1, 1) == 19723
  {
  }

  lemma MidnightUtcPlusOneIsPreviousDay()
    ensures FloorDiv(19723 * MS_PER_DAY - 3600000, MS_PER_DAY) == 19722
  {
  }

  lemma DecemberThirtyFirst2023()
    ensures CivilFromDays(19722) == Date(2023, 12, 31)
  {
  }

  /** East of UTC the label names the month before: in UTC+1, as in
      Cameroon, the history entry for January 2024 is labelled "2023-12",
      which is not the label of January 2024. */
  lemma WrittenLabelSkipsBack()
    ensures WrittenLabelMonth(YearMonth(2024, 1), 3600000) == YearMonth(2023, 12)
    ensures MonthLabel(WrittenLabelMonth(YearMonth(2024, 1), 3600000)) != MonthLabel(YearMonth(2024, 1))
  {
    FirstOfJanuary2024();
    assert LocalInstant(2024, 1, 1, 0, 0, 3600000) == 19723 * MS_PER_DAY - 3600000;
    MidnightUtcPlusOneIsPreviousDay();
    DecemberThirtyFirst2023();
    MonthLabelRoundTrip(YearMonth(2023, 12));
    MonthLabelRoundTrip(YearMonth(2024, 1));
  }

  /* ---------------- comparison with the previous month ---------------- */

  const LAST_MONTH: string := "mois dernier"

  /** The change from `previous` to `current`, in per cent of `previous`. */
  function Percentage(previous: int, current: int): real
    requires previous != 0
  {
    (current - previous) as real / previous as real * 100.0
  }

  /** `getConsumptionComparison` on a history: the percentage change from
      the second-last to the last month, rounded, without its sign. */
  function Comparison(history: seq<ConsumptionHistory>): (c: ConsumptionComparison)
    requires |history| >= 2 ==> history[|history| - 2].consumption != 0
    ensures c.period == LAST_MONTH && c.value >= 0
    ensures |history| < 2 ==> c.value == 0 && c.trend == Down
    ensures |history| >= 2 ==>
      (c.trend == Up <==> history[|history| - 1].consumption > history[|history| - 2].consumption)
    ensures |history| >= 2 ==>
      var q := Percentage(history[|history| - 2].consumption, history[|history| - 1].consumption);
      && (q >= 0.0 ==> c.value as real - 0.5 <= q < c.value as real + 0.5)
      && (q < 0.0 ==> -(c.value as real) - 0.5 <= q < 0.5 - c.value as real)
  {
    if |history| < 2 then ConsumptionComparison(0, Down, LAST_MONTH)
    else
      var current := history[|history| - 1];
      var previous := history[|history| - 2];
      var difference := current.consumption - previous.consumption;
      var percentage := Abs(Round(Percentage(previous.consumption, current.consumption)));
      ConsumptionComparison(percentage, if difference > 0 then Up else Down, LAST_MONTH)
  }

  /** A change of at most 100 on at least 200 is at most fifty per cent. */
  lemma RatioBound(d: int, p: int)
    requires 200 <= p && -100 <= d <= 100
    ensures -50.0 <= d as real / p as real * 100.0 <= 50.0
  {
    var q := d as real / p as real;
    assert q * p as real == d as real;
    assert q > 0.5 ==> q * p as real > 0.5 * p as real;
    assert q < -0.5 ==> q * p as real < -0.5 * p as real;
  }

  /** Two months whose consumptions lie between 200 and 300 differ by at
      most fifty per cent. */
  lemma ComparisonBound(history: seq<ConsumptionHistory>)
    requires forall j :: 0 <= j < |history| ==> 200 <= history[j].consumption <= 300
    ensures Comparison(history).value <= 50
  {
    if |history| >= 2 {
      var current := history[|history| - 1];
      var previous := history[|history| - 2];
      RatioBound(current.consumption - previous.consumption, previous.consumption);
    }
  }

  /** An unchanged consumption is reported as a fall of zero per cent. */
  lemma ComparisonOfEqualMonths(history: seq<ConsumptionHistory>)
    requires |history| >= 2 && history[|history| - 2].consumption != 0
    requires history[|history| - 1].consumption == history[|history| - 2].consumption
    ensures Comparison(history) == ConsumptionComparison(0, Down, LAST_MONTH)
  {
    RoundOfInteger(0);
  }

  /* ---------------- bills ---------------- */

  const BILL_ID: string := "BILL_2024_01_001"
  const BILL_PERIOD: string := "Décembre 2023 - Janvier 2024"
  const BILL_DOWNLOAD_PATH: string := "/api/bills/BILL_2024_01_001/download"

  /** The bill `getCurrentBill` builds at `now`: due in seven days, issued
      five days ago, unpaid. */
  function SampleBill(now: int): (b: BillData)
    ensures b.status == "unpaid" && b.issueDate < now < b.dueDate
    ensures b.dueDate - b.issueDate == 12 * MS_PER_DAY
  {
    BillData(BILL_ID, 25430, "XAF", now + 7 * MS_PER_DAY, now - 5 * MS_PER_DAY, "unpaid", BILL_PERIOD,
             Some(BILL_DOWNLOAD_PATH))
  }

  /** The consumption `getCurrentConsumption` builds at `now`. */
  function SampleConsumption(now: int): (c: ConsumptionData)
    ensures c.unit == KWh && c.current < c.limit && c.lastUpdate == now
  {
    ConsumptionData(245.0, 300.0, KWh, "Janvier 2024", now)
  }

  datatype PaymentResult = PaymentResult(success: bool, transactionId: Option<string>)

  /** The transaction id of a payment made at `now`. */
  function TransactionId(now: nat): (id: string)
    ensures |id| > 4 && id[..4] == "TXN_"
    ensures forall i :: 4 <= i < |id| ==> IsDigit(id[i])
    ensures var digits := id[4..]; (forall i :: 0 <= i < |digits| ==> IsDigit(digits[i])) && DigitsValue(digits) == now
  {
    DecimalRoundTrip(now);
    assert ("TXN_" + Decimal(now))[4..] == Decimal(now);
    "TXN_" + Decimal(now)
  }

  /** Payments at different instants have different transaction ids. */
  lemma TransactionIdsDiffer(a: nat, b: nat)
    requires a != b
    ensures TransactionId(a) != TransactionId(b)
  {
  }

  const DOWNLOAD_HOST: string := "https://api.eneo.cm/bills/"
  const DOWNLOAD_SUFFIX: string := "/download?token=mock_token"

  /** `downloadBill`: the download address of a bill. */
  function DownloadUrl(billId: string): (url: string)
    ensures |url| == |DOWNLOAD_HOST| + |billId| + |DOWNLOAD_SUFFIX|
    ensures url[..|DOWNLOAD_HOST|] == DOWNLOAD_HOST
    ensures url[|DOWNLOAD_HOST|..|DOWNLOAD_HOST| + |billId|] == billId
  {
    DOWNLOAD_HOST + billId + DOWNLOAD_SUFFIX
  }

  /** Different bills have different download addresses. */
  lemma DownloadUrlInjective(a: string, b: string)
    requires DownloadUrl(a) == DownloadUrl(b)
    ensures a == b
  {
    assert |a| == |b|;
    assert a == DownloadUrl(a)[|DOWNLOAD_HOST|..|DOWNLOAD_HOST| + |a|];
  }

  /** `getBillStatusLabel`: unknown statuses are shown as they are. */
  function BillStatusLabel(status: string): (text: string)
    ensures status !in {"paid", "unpaid", "overdue"} ==> text == status
    ensures status in {"paid", "unpaid", "overdue"} ==> text != status
  {
    if status == "paid" then "Payée"
    else if status == "unpaid" then "En attente"
    else if status == "overdue" then "En retard"
    else status
  }

  const DEFAULT_BILL_COLOR: string := "text-gray-600"

  /** `getBillStatusColor`: unknown statuses are grey, known ones are not. */
  function BillStatusColor(status: string): (color: string)
    ensures (color == DEFAULT_BILL_COLOR) <==> status !in {"paid", "unpaid", "overdue"}
  {
    if status == "paid" then "text-green-600"
    else if status == "unpaid" then "text-orange-600"
    else if status == "overdue" then "text-red-600"
    else DEFAULT_BILL_COLOR
  }

  /* ---------------- the service ---------------- */

  class ConsumptionService {
    const storage: StorageService

    constructor (storage: StorageService)
      ensures this.storage == storage
    {
      this.storage := storage;
    }

    /** `getCurrentConsumption`: the cached consumption, or the sample
        consumption, cached for an hour. */
    method GetCurrentConsumption(now: int) returns (data: ConsumptionData)
      requires storage.Valid()
      modifies storage
      ensures storage.Valid()
      ensures (ConsumptionSnapshot(data), storage.items)
        == CacheFirst(old(storage.items), CONSUMPTION_CACHE_KEY, ConsumptionSnapshot(SampleConsumption(now)),
                      CONSUMPTION_TTL_MS, now)
    {
      var cached := storage.GetCachedData(CONSUMPTION_CACHE_KEY, now);
      if cached.ConsumptionSnapshot? {
        data := cached.consumption;
      } else {
        data := SampleConsumption(now);
        storage.SetCachedData(CONSUMPTION_CACHE_KEY, ConsumptionSnapshot(data), CONSUMPTION_TTL_MS, now);
      }
    }

    /** `getConsumptionComparison`: the comparison of the last two entries
        of a two-month history. */
    method GetConsumptionComparison(current: YearMonth, draws: seq<real>) returns (comparison: ConsumptionComparison)
      requires ValidYearMonth(current) && 0 <= current.year <= 9999
      requires 1 <= MonthIndex(current) && 2 <= |draws|
      requires forall j :: 0 <= j < |draws| ==> 0.0 <= draws[j] < 1.0
      ensures comparison.period == LAST_MONTH && comparison.value <= 50
      ensures comparison == Comparison([HistoryEntry(MonthsBefore(current, 1), draws[0]), HistoryEntry(current, draws[1])])
      ensures comparison.trend == Up <==>
        HistoryEntry(current, draws[1]).consumption > HistoryEntry(MonthsBefore(current, 1), draws[0]).consumption
    {
      var history := GetConsumptionHistory(2, current, draws);
      HistoryInOrder(history, current, draws);
      assert history == [HistoryEntry(MonthsBefore(current, 1), draws[0]), HistoryEntry(current, draws[1])];
      ComparisonBound(history);
      comparison := Comparison(history);
    }

    /** `getCurrentBill`: the cached bill, or the sample bill, cached for six
        hours. */
    method GetCurrentBill(now: int) returns (bill: BillData)
      requires storage.Valid()
      modifies storage
      ensures storage.Valid()
      ensures (BillSnapshot(bill), storage.items)
        == CacheFirst(old(storage.items), BILLS_CACHE_KEY, BillSnapshot(SampleBill(now)), BILL_TTL_MS, now)
    {
      var cached := storage.GetCachedData(BILLS_CACHE_KEY, now);
      if cached.BillSnapshot? {
        bill := cached.bill;
      } else {
        bill := SampleBill(now);
        storage.SetCachedData(BILLS_CACHE_KEY, BillSnapshot(bill), BILL_TTL_MS, now);
      }
    }

    /** `payBill`: a successful payment whose id carries the payment time;
        the bill cache is invalidated. */
    method PayBill(billId: string, paymentMethod: string, now: nat) returns (result: PaymentResult)
      requires storage.Valid()
      modifies storage
      ensures storage.Valid()
      ensures result == PaymentResult(true, Some(TransactionId(now)))
      ensures storage.items == Written(old(storage.items), BILLS_CACHE_KEY, Null, 0, now)
    {
      var transactionId := TransactionId(now);
      storage.SetCachedData(BILLS_CACHE_KEY, Null, 0, now);
      result := PaymentResult(true, Some(transactionId));
    }
  }

  /** After a payment the next `getCurrentBill` rebuilds the bill. */
  lemma PaymentForcesRefetch(items: Items, t: int, now: int)
    ensures CacheFirst(Written(items, BILLS_CACHE_KEY, Null, 0, t), BILLS_CACHE_KEY,
                       BillSnapshot(SampleBill(now)), BILL_TTL_MS, now).0
            == BillSnapshot(SampleBill(now))
  {
    CacheFirstAfterInvalidation(items, BILLS_CACHE_KEY, t, BillSnapshot(SampleBill(now)), BILL_TTL_MS, now);
  }

  /** Within six hours of a miss the bill is the one the miss built. */
  lemma CachedBillIsKept(items: Items, now: int, later: int)
    requires !CachedValue(items, BILLS_CACHE_KEY, now).BillSnapshot?
    requires later <= now + BILL_TTL_MS
    ensures var after := CacheFirst(items, BILLS_CACHE_KEY, BillSnapshot(SampleBill(now)), BILL_TTL_MS, now).1;
      CacheFirst(after, BILLS_CACHE_KEY, BillSnapshot(SampleBill(later)), BILL_TTL_MS, later).0
      == BillSnapshot(SampleBill(now))
  {
    var built := BillSnapshot(SampleBill(now));
    assert Kind(CachedValue(items, BILLS_CACHE_KEY, now)) != Kind(built);
    CacheFirstMissStores(items, BILLS_CACHE_KEY, built, BILL_TTL_MS, now, BillSnapshot(SampleBill(later)), BILL_TTL_MS, later);
  }
}
