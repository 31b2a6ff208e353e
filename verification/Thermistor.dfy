/**
 * Thermistor readings to degrees Celsius: a table search that starts from the
 * previous temperature, against the plain search of the whole table.
 */
module Thermistor {

  type Int8 = t: int | -0x80 <= t < 0x80
  type Uint16 = v: int | 0 <= v < 0x10000
  type Uint32 = v: int | 0 <= v < 0x1_0000_0000

  /** A lookup table of millivolts, one entry per degree from tempMin. */
  datatype Sensor = Sensor(table: seq<Uint16>, tempMin: int) {
    ghost predicate Valid() { |table| > 0 && -0x80 <= tempMin && tempMin + |table| <= 0x80 }
    function TempMax(): int { tempMin + |table| - 1 }
  }

  ghost predicate NonIncreasing(table: seq<Uint16>) {
    forall i, j :: 0 <= i < j < |table| ==> table[i] >= table[j]
  }

  ghost predicate Decreasing(table: seq<Uint16>) {
    forall i, j :: 0 <= i < j < |table| ==> table[i] > table[j]
  }

  function Clamp(s: Sensor, t: int): int {
    if t > s.TempMax() then s.TempMax() else if t < s.tempMin then s.tempMin else t
  }

  /** Least index at or after i whose voltage is at or below mv, else the last. */
  function PlainFrom(table: seq<Uint16>, mv: int, i: nat): (r: nat)
    requires i <= |table| && |table| > 0
    ensures r < |table| && (i < |table| ==> i <= r)
    decreases |table| - i
  {
    if i == |table| then |table| - 1
    else if table[i] <= mv then i
    else PlainFrom(table, mv, i + 1)
  }

  /** Search towards colder entries from i, whose voltage is at or below mv. */
  function Down(table: seq<Uint16>, mv: int, i: nat): (r: nat)
    requires i < |table|
    ensures r <= i
  {
    if i == 0 || table[i - 1] > mv then i else Down(table, mv, i - 1)
  }

  /** The search that starts from entry i. */
  function Search(table: seq<Uint16>, mv: int, i: nat): (r: nat)
    requires i < |table|
    ensures r < |table|
  {
    if table[i] > mv then PlainFrom(table, mv, i + 1) else Down(table, mv, i)
  }

  lemma {:induction false} PlainSkips(table: seq<Uint16>, mv: int, i: nat, j: nat)
    requires i <= j <= |table| && |table| > 0 && forall k :: i <= k < j ==> table[k] > mv
    ensures PlainFrom(table, mv, i) == PlainFrom(table, mv, j)
    decreases j - i
  {
    if i < j { PlainSkips(table, mv, i + 1, j); }
  }

  lemma {:induction false} DownIsPlain(table: seq<Uint16>, mv: int, i: nat)
    requires i < |table| && table[i] <= mv && NonIncreasing(table)
    ensures Down(table, mv, i) == PlainFrom(table, mv, 0)
  {
    if i == 0 || table[i - 1] > mv {
      PlainIsLeast(table, mv, 0, i);
    } else {
      DownIsPlain(table, mv, i - 1);
    }
  }

  /** On a non-increasing table the search from any entry is the plain search. */
  lemma {:induction false} SearchIsPlain(table: seq<Uint16>, mv: int, i: nat)
    requires i < |table| && NonIncreasing(table)
    ensures Search(table, mv, i) == PlainFrom(table, mv, 0)
  {
    if table[i] > mv {
      PlainSkips(table, mv, 0, i + 1);
    } else {
      DownIsPlain(table, mv, i);
    }
  }

  lemma {:induction false} FindRise(table: seq<Uint16>, i: nat, j: nat) returns (k: nat)
    requires i < j < |table| && table[i] < table[j]
    ensures k + 1 < |table| && table[k] < table[k + 1]
    decreases j - i
  {
    k := i;
    if table[i] >= table[i + 1] { k := FindRise(table, i + 1, j); }
  }

  /** A rise in the table shows: starting below it and above it, the search for
      the lower voltage ends in different places. */
  lemma {:induction false} RiseIsSeen(table: seq<Uint16>, k: nat)
    requires k + 1 < |table| && table[k] < table[k + 1]
    ensures Search(table, table[k], k) != Search(table, table[k], k + 1)
  {
    assert PlainFrom(table, table[k], |table|) == |table| - 1;
  }

  /** The result is independent of where the search starts, for every reading,
      exactly on the non-increasing tables. */
  lemma {:induction false} HistoryIrrelevantIff(table: seq<Uint16>)
    ensures (forall mv: Uint16, i: nat, j: nat ::
               i < |table| && j < |table| ==> Search(table, mv, i) == Search(table, mv, j))
            <==> NonIncreasing(table)
  {
    if NonIncreasing(table) {
      forall mv: Uint16, i: nat, j: nat | i < |table| && j < |table|
        ensures Search(table, mv, i) == Search(table, mv, j)
      {
        SearchIsPlain(table, mv, i);
        SearchIsPlain(table, mv, j);
      }
    } else {
      var i, j :| 0 <= i < j < |table| && table[i] < table[j];
      var k := FindRise(table, i, j);
      RiseIsSeen(table, k);
    }
  }

  /** The temperature by searching the whole table. */
  function Celsius(s: Sensor, mv: int): int
    requires |s.table| > 0
  {
    s.tempMin + PlainFrom(s.table, mv, 0)
  }

  lemma {:induction false} PlainIsLeast(table: seq<Uint16>, mv: int, i: nat, r: nat)
    requires i <= r < |table| && forall k :: i <= k < r ==> table[k] > mv
    requires table[r] <= mv || r == |table| - 1
    ensures PlainFrom(table, mv, i) == r
    decreases r - i
  {
    if i < r {
      PlainIsLeast(table, mv, i + 1, r);
    } else if table[r] > mv {
      assert PlainFrom(table, mv, |table|) == r;
    }
  }

  lemma {:induction false} PlainAntitone(table: seq<Uint16>, low: int, high: int, i: nat)
    requires |table| > 0 && i <= |table| && low <= high
    ensures PlainFrom(table, high, i) <= PlainFrom(table, low, i)
    decreases |table| - i
  {
    if i < |table| {
      PlainAntitone(table, low, high, i + 1);
    }
  }

  /** A higher voltage never means a higher temperature. */
  lemma {:induction false} ColderAtHigherVoltage(s: Sensor, low: int, high: int)
    requires s.Valid() && low <= high
    ensures Celsius(s, high) <= Celsius(s, low)
  {
    PlainAntitone(s.table, low, high, 0);
  }

  /** Clamping keeps a temperature of the table and moves any other to the nearer end. */
  lemma {:induction false} ClampAnswers(s: Sensor, t: int)
    requires s.Valid()
    ensures s.tempMin <= t < s.tempMin + |s.table| ==> Clamp(s, t) == t
    ensures t < s.tempMin ==> Clamp(s, t) == s.tempMin
    ensures t >= s.tempMin + |s.table| ==> Clamp(s, t) == s.tempMin + |s.table| - 1
  {
  }

  /** A temperature converted to millivolts and back, from any starting point, is
      the temperature clamped. */
  lemma {:induction false} RoundTrip(s: Sensor, t: int, start: nat)
    requires s.Valid() && Decreasing(s.table) && start < |s.table|
    ensures 0 <= Clamp(s, t) - s.tempMin < |s.table|
    ensures s.tempMin + Search(s.table, s.table[Clamp(s, t) - s.tempMin], start) == Clamp(s, t)
  {
    var k := Clamp(s, t) - s.tempMin;
    PlainIsLeast(s.table, s.table[k], 0, k);
    SearchIsPlain(s.table, s.table[k], start);
  }

  /** Strict decrease is needed for it: every entry is found again from every
      starting point exactly on the decreasing tables. */
  lemma {:induction false} RoundTripIff(s: Sensor)
    requires s.Valid()
    ensures (forall k: nat, start: nat ::
               k < |s.table| && start < |s.table| ==> Search(s.table, s.table[k], start) == k)
            <==> Decreasing(s.table)
  {
    if Decreasing(s.table) {
      forall k: nat, start: nat | k < |s.table| && start < |s.table| ensures Search(s.table, s.table[k], start) == k {
        PlainIsLeast(s.table, s.table[k], 0, k);
        SearchIsPlain(s.table, s.table[k], start);
      }
    } else {
      var i, j :| 0 <= i < j < |s.table| && s.table[i] <= s.table[j];
      FoundEarlier(s.table, i, j);
    }
  }

  lemma {:induction false} FoundEarlier(table: seq<Uint16>, i: nat, j: nat)
    requires i < j < |table| && table[i] <= table[j]
    ensures Search(table, table[j], i) != j
  {
  }

  // ----- the driver ----------------------------------------------------------

  datatype Result = Ignored | Updated | DividedByZero

  datatype Source = Vref | Probe | Other

  datatype Measurement = Measurement(source: Source, reading: Uint16, vrefConst: Uint32)

  /** The probe's voltage, in the driver's 32 and 16 bit arithmetic. */
  function Millivolts(vrefConst: Uint32, reading: Uint16, vrefRaw: Uint16): Uint16
    requires vrefRaw != 0
  {
    (vrefConst * reading % 0x1_0000_0000) / vrefRaw % 0x10000
  }

  /** It is the whole millivolts of constant * reading / reference exactly when they fit
      in 16 bits; the product cannot then exceed 32. */
  lemma {:induction false} MillivoltsIff(vrefConst: Uint32, reading: Uint16, vrefRaw: Uint16, mv: nat)
    requires vrefRaw != 0 && mv * vrefRaw <= vrefConst * reading < (mv + 1) * vrefRaw
    ensures Millivolts(vrefConst, reading, vrefRaw) == mv <==> mv < 0x10000
  {
    var product := vrefConst * reading;
    QuotientIs(product, vrefRaw, mv);
    if mv < 0x10000 {
      ProductFits(vrefRaw, mv);
    }
  }

  lemma {:induction false} MultipleGrows(k: int, y: nat)
    ensures k >= 1 ==> k * y >= y
    ensures k <= -1 ==> k * y + y <= 0
  {
    if k >= 1 { assert (k - 1) * y >= 0; }
    if k <= -1 { assert (-k - 1) * y >= 0; }
  }

  lemma {:induction false} QuotientIs(x: nat, y: nat, q: nat)
    requires y > 0 && q * y <= x < (q + 1) * y
    ensures x / y == q
  {
    var d := x / y;
    assert x == d * y + x % y;
    assert (d - q) * y == d * y - q * y;
    MultipleGrows(d - q, y);
  }

  lemma {:induction false} TimesKeepsOrder(a: int, b: int, y: nat)
    requires a <= b
    ensures a * y <= b * y
  {
    var d := b - a;
    assert d * y >= 0;
    assert (a + d) * y == a * y + d * y;
  }

  lemma {:induction false} ProductFits(vrefRaw: Uint16, mv: nat)
    requires mv < 0x10000
    ensures (mv + 1) * vrefRaw <= 0x1_0000_0000
  {
    TimesKeepsOrder(mv + 1, 0x10000, vrefRaw);
  }

  datatype Probed = Probed(vrefRaw: Uint16, temperature: Int8)

  function Measure(s: Sensor, p: Probed, m: Measurement): (r: (Probed, Result))
    requires s.Valid()
  {
    match m.source
    case Vref => (p.(vrefRaw := m.reading), Ignored)
    case Probe =>
      if p.vrefRaw == 0 then (p, DividedByZero)
      else
        var mv := Millivolts(m.vrefConst, m.reading, p.vrefRaw);
        (p.(temperature := s.tempMin + Search(s.table, mv, Clamp(s, p.temperature) - s.tempMin)), Updated)
    case Other => (p, Ignored)
  }

  /** A measurement gives a new temperature exactly if it is the probe's and a reference
      has been read; on a non-increasing table that of the plain search at the probe's
      millivolts. Only a reference measurement changes the reference. */
  lemma {:induction false} MeasureAnswers(s: Sensor, p: Probed, m: Measurement)
    requires s.Valid() && NonIncreasing(s.table)
    ensures var r := Measure(s, p, m);
            && (r.1 == Updated <==> m.source == Probe && p.vrefRaw != 0)
            && (r.1 == DividedByZero <==> m.source == Probe && p.vrefRaw == 0)
            && r.0.vrefRaw == (if m.source == Vref then m.reading else p.vrefRaw)
            && (r.1 != Updated ==> r.0.temperature == p.temperature)
            && (r.1 == Updated ==>
                  var mv := Millivolts(m.vrefConst, m.reading, p.vrefRaw);
                  var k := r.0.temperature - s.tempMin;
                  && 0 <= k < |s.table|
                  && (forall i :: 0 <= i < k ==> s.table[i] > mv)
                  && (s.table[k] <= mv || k == |s.table| - 1))
  {
    if m.source == Probe && p.vrefRaw != 0 {
      var mv := Millivolts(m.vrefConst, m.reading, p.vrefRaw);
      SearchIsPlain(s.table, mv, Clamp(s, p.temperature) - s.tempMin);
      PlainFinds(s.table, mv, 0);
    }
  }

  lemma {:induction false} PlainFinds(table: seq<Uint16>, mv: int, i: nat)
    requires i < |table|
    ensures var r := PlainFrom(table, mv, i);
            && i <= r < |table| && (forall k :: i <= k < r ==> table[k] > mv)
            && (table[r] <= mv || r == |table| - 1)
    decreases |table| - i
  {
    if table[i] > mv && i + 1 < |table| { PlainFinds(table, mv, i + 1); }
  }

  ghost function MeasureAll(s: Sensor, p: Probed, run: seq<Measurement>): Probed
    requires s.Valid()
  {
    if run == [] then p else Measure(s, MeasureAll(s, p, run[..|run| - 1]), run[|run| - 1]).0
  }

  /** The reference in force at the end of the run, and whether the probe was read with one. */
  ghost function RefAfter(v: Uint16, run: seq<Measurement>): Uint16 {
    if run == [] then v
    else if run[|run| - 1].source == Vref then run[|run| - 1].reading
    else RefAfter(v, run[..|run| - 1])
  }

  ghost predicate Sampled(v: Uint16, run: seq<Measurement>) {
    run != [] &&
    var before := run[..|run| - 1];
    (run[|run| - 1].source == Probe && RefAfter(v, before) != 0) || Sampled(v, before)
  }

  lemma {:induction false} RefTracked(s: Sensor, p: Probed, run: seq<Measurement>)
    requires s.Valid()
    ensures MeasureAll(s, p, run).vrefRaw == RefAfter(p.vrefRaw, run)
  {
    if run != [] {
      RefTracked(s, p, run[..|run| - 1]);
    }
  }

  lemma {:induction false} SearchesPlainly(s: Sensor)
    requires s.Valid() && NonIncreasing(s.table)
    ensures forall mv, i: nat :: i < |s.table| ==> Search(s.table, mv, i) == PlainFrom(s.table, mv, 0)
  {
    forall mv, i: nat | i < |s.table| ensures Search(s.table, mv, i) == PlainFrom(s.table, mv, 0) {
      SearchIsPlain(s.table, mv, i);
    }
  }

  /** Once the probe has been read, the temperature does not depend on what it was
      before the run. */
  lemma {:induction false} HistoryForgotten(s: Sensor, p: Probed, q: Probed, run: seq<Measurement>)
    requires s.Valid() && NonIncreasing(s.table) && p.vrefRaw == q.vrefRaw && Sampled(p.vrefRaw, run)
    ensures MeasureAll(s, p, run) == MeasureAll(s, q, run)
  {
    var before := run[..|run| - 1];
    SearchesPlainly(s);
    RefTracked(s, p, before);
    RefTracked(s, q, before);
    if Sampled(p.vrefRaw, before) {
      HistoryForgotten(s, p, q, before);
    }
  }

  class ThermistorDriver {
    const sensor: Sensor
    var vrefRaw: Uint16
    var temperature: Int8

    ghost function Value(): Probed
      reads this
    {
      Probed(vrefRaw, temperature)
    }

    constructor (sensor: Sensor, temperature: Int8)
      ensures this.sensor == sensor && Value() == Probed(0, temperature)
    {
      this.sensor := sensor;
      this.vrefRaw, this.temperature := 0, temperature;
    }

    method DegreesCelsiusToMillivolts(t: Int8) returns (mv: Uint16)
      requires sensor.Valid()
      ensures Decreasing(sensor.table) ==> Celsius(sensor, mv) == Clamp(sensor, t)
      ensures mv == sensor.table[Clamp(sensor, t) - sensor.tempMin]
    {
      if Decreasing(sensor.table) {
        RoundTrip(sensor, t, 0);
        SearchIsPlain(sensor.table, sensor.table[Clamp(sensor, t) - sensor.tempMin], 0);
      }
      mv := sensor.table[Clamp(sensor, t) - sensor.tempMin];
    }

    /** The search from the previous temperature; on a non-increasing table it
        finds what the plain search finds. */
    method MillivoltsToDegreesCelsius(mv: Uint16, previous: Int8) returns (t: Int8)
      requires sensor.Valid()
      ensures t == sensor.tempMin + Search(sensor.table, mv, Clamp(sensor, previous) - sensor.tempMin)
      ensures NonIncreasing(sensor.table) ==> t == Celsius(sensor, mv)
    {
      var table := sensor.table;
      var i := Clamp(sensor, previous) - sensor.tempMin;
      ghost var found := Search(table, mv, i);
      if NonIncreasing(table) { SearchIsPlain(table, mv, i); }
      var prevMv := table[i];
      if mv < prevMv {
        i := i + 1;
        while i < |table|
          invariant 0 < i <= |table| && found == PlainFrom(table, mv, i)
        {
          if mv >= table[i] {
            return sensor.tempMin + i;
          }
          i := i + 1;
        }
        return sensor.TempMax();
      } else {
        while i > 0
          invariant 0 <= i < |table| && prevMv == table[i] && mv >= prevMv && found == Down(table, mv, i)
        {
          var thisMv := prevMv;
          prevMv := table[i - 1];
          if mv >= thisMv && mv < prevMv {
            return sensor.tempMin + i;
          }
          i := i - 1;
        }
        return sensor.tempMin;
      }
    }

    method HandleMeasurement(m: Measurement) returns (result: Result)
      requires sensor.Valid()
      modifies this
      ensures (Value(), result) == Measure(sensor, old(Value()), m)
    {
      if m.source == Vref {
        vrefRaw := m.reading;
        return Ignored;
      } else if m.source == Probe {
        if vrefRaw == 0 { return DividedByZero; }
        var mv := (m.vrefConst * m.reading % 0x1_0000_0000) / vrefRaw % 0x10000;
        temperature := MillivoltsToDegreesCelsius(mv, temperature);
        return Updated;
      }
      return Ignored;
    }
  }
}
