/**
 * `formatReminder` of models/reminder.js: a REMINDER row becomes the object
 * the API sends, with its repeat type spelled out and its cycle and weekday
 * filters collected in `filters`. The weekday filter is a 7-bit mask, bit i
 * for day i.
 */
module Reminder {
  import opened Js

  /** The columns always copied. */
  const Copied: set<string> := {"id", "user_id", "medication_name", "start_date", "end_date"}

  /** The columns copied for an hourly reminder, besides `repeat_type`. */
  const Hourly: set<string> := {"start_time", "every_minutes"}

  /** `day_filter` 127 is every day: no weekday map is sent. */
  const EveryDay: real := 127.0

  function Pow2(i: nat): (p: nat)
    ensures p >= 1
  {
    if i == 0 then 1 else 2 * Pow2(i - 1)
  }

  /**
   * The integer `&` works on, as far as its low bits go: a number truncated
   * toward zero, a boolean as 1 or 0, anything else 0 (null and undefined
   * convert to 0).
   */
  function IntOf(v: Value): int {
    match v
    case Num(n) => if n >= 0.0 then n.Floor else -((-n).Floor)
    case Bool(b) => if b then 1 else 0
    case _ => 0
  }

  /** `mask & (1 << i)` is non-zero: bit i of the two's-complement mask. */
  predicate Bit(mask: int, i: nat) {
    (mask / Pow2(i)) % 2 == 1
  }

  /** `'d' + i` */
  function DayKey(i: nat): (key: string)
    requires i < 7
    ensures |key| == 2 && key[0] == 'd'
  {
    "d" + NatText(i)
  }

  function DayFlag(mask: int, i: nat): Value {
    Str(if Bit(mask, i) then "enabled" else "disabled")
  }

  /** The weekday map after the first `k` rounds of the loop. */
  function Days(mask: int, k: nat): map<string, Value>
    requires k <= 7
  {
    if k == 0 then map[] else Days(mask, k - 1)[DayKey(k - 1) := DayFlag(mask, k - 1)]
  }

  /** The weekday map: d0..d6, each "enabled" or "disabled" after its bit. */
  function DayMap(mask: int): map<string, Value> {
    Days(mask, 7)
  }

  /** The inverse reading of a weekday map: the sum of 2^i over the days d0..d(k-1) it marks "enabled". */
  function MaskOf(df: map<string, Value>, k: nat): (m: nat)
    requires k <= 7
    ensures m < Pow2(k)
  {
    if k == 0 then 0
    else MaskOf(df, k - 1) + (if DayKey(k - 1) in df && df[DayKey(k - 1)] == Str("enabled") then Pow2(k - 1) else 0)
  }

  /** `row.cycle_day && row.cycle_day > 0` for numbers and booleans. */
  predicate HasCycle(cycleDay: Value) {
    Truthy(cycleDay) && match cycleDay
      case Num(n) => n > 0.0
      case Bool(b) => b
      case _ => false
  }

  /** The weekday filter is sent unless `day_filter` is exactly the number 127. */
  predicate HasDays(dayFilter: Value) {
    dayFilter != Num(EveryDay)
  }

  /** `{cycle_day, cycle_enabled_days, cycle_disabled_days}` */
  function CycleEntry(row: Value): Value {
    Obj(map["cycle_day" := Field(row, "cycle_day"),
            "cycle_enabled_days" := Field(row, "cycle_enabled_days"),
            "cycle_disabled_days" := Field(row, "cycle_disabled_days")])
  }

  /** `{code: 'H', description: 'Periodic Hourly'}` */
  function HourlyType(): Value {
    Obj(map["code" := Str("H"), "description" := Str("Periodic Hourly")])
  }

  /** The `for (i < 7)` loop filling `df`. */
  method WeekdayMap(mask: int) returns (df: map<string, Value>)
    ensures df == DayMap(mask)
  {
    df := map[];
    for i := 0 to 7
      invariant df == Days(mask, i)
    {
      df := df[DayKey(i) := DayFlag(mask, i)];
    }
  }

  /** The `filters` list, when one is created: the cycle entry, then the weekday map. */
  method CollectFilters(row: Value) returns (filters: Option<seq<Value>>)
    ensures filters.Some? <==> HasCycle(Field(row, "cycle_day")) || HasDays(Field(row, "day_filter"))
    ensures filters.Some? ==>
              |filters.value| == (if HasCycle(Field(row, "cycle_day")) then 1 else 0)
                                 + (if HasDays(Field(row, "day_filter")) then 1 else 0)
              && (HasCycle(Field(row, "cycle_day")) ==> filters.value[0] == CycleEntry(row))
              && (HasDays(Field(row, "day_filter")) ==>
                    filters.value[|filters.value| - 1] == Obj(DayMap(IntOf(Field(row, "day_filter")))))
  {
    filters := None;
    if HasCycle(Field(row, "cycle_day")) {
      filters := Some([CycleEntry(row)]);
    }
    if HasDays(Field(row, "day_filter")) {
      var list := if filters.Some? then filters.value else [];
      var df := WeekdayMap(IntOf(Field(row, "day_filter")));
      filters := Some(list + [Obj(df)]);
    }
  }

  method FormatReminder(row: Value) returns (reminder: Value)
    ensures reminder.Obj?
    // the five columns always copied
    ensures Field(reminder, "id") == Field(row, "id") && Field(reminder, "user_id") == Field(row, "user_id")
    ensures Field(reminder, "medication_name") == Field(row, "medication_name")
    ensures Field(reminder, "start_date") == Field(row, "start_date") && Field(reminder, "end_date") == Field(row, "end_date")
    ensures Copied <= reminder.fields.Keys
    // an hourly reminder, and only an hourly one, has its repeat type and its hourly columns
    ensures "repeat_type" in reminder.fields <==> Field(row, "repeat_type") == Str("H")
    ensures "repeat_type" in reminder.fields ==> reminder.fields["repeat_type"] == HourlyType()
    ensures forall k :: k in Hourly ==>
              (k in reminder.fields <==> Field(row, "repeat_type") == Str("H"))
              && (k in reminder.fields ==> reminder.fields[k] == Field(row, k))
    // no other field
    ensures reminder.fields.Keys <= Copied + Hourly + {"repeat_type", "filters"}
    // filters: the cycle entry first, then the weekday map
    ensures "filters" in reminder.fields <==> HasCycle(Field(row, "cycle_day")) || HasDays(Field(row, "day_filter"))
    ensures "filters" in reminder.fields ==>
              var filters := reminder.fields["filters"];
              filters.Arr?
              && |filters.items| == (if HasCycle(Field(row, "cycle_day")) then 1 else 0)
                                    + (if HasDays(Field(row, "day_filter")) then 1 else 0)
              && (HasCycle(Field(row, "cycle_day")) ==> filters.items[0] == CycleEntry(row))
              && (HasDays(Field(row, "day_filter")) ==>
                    filters.items[|filters.items| - 1] == Obj(DayMap(IntOf(Field(row, "day_filter")))))
  {
    KeySetsDisjoint();
    var fields := CopiedFields(row);
    if Field(row, "repeat_type") == Str("H") {
      fields := fields["repeat_type" := HourlyType()];
      fields := fields["start_time" := Field(row, "start_time")];
      fields := fields["every_minutes" := Field(row, "every_minutes")];
    }
    assert fields.Keys == Copied + (if Field(row, "repeat_type") == Str("H") then Hourly + {"repeat_type"} else {});
    var filters := CollectFilters(row);
    if filters.Some? {
      fields := fields["filters" := Arr(filters.value)];
    }
    reminder := Obj(fields);
  }

  /** `{id, user_id, medication_name, start_date, end_date}` */
  function CopiedFields(row: Value): (m: map<string, Value>)
    ensures m.Keys == Copied
    ensures m["id"] == Field(row, "id") && m["user_id"] == Field(row, "user_id")
    ensures m["medication_name"] == Field(row, "medication_name")
    ensures m["start_date"] == Field(row, "start_date") && m["end_date"] == Field(row, "end_date")
  {
    map["id" := Field(row, "id"), "user_id" := Field(row, "user_id"),
        "medication_name" := Field(row, "medication_name"),
        "start_date" := Field(row, "start_date"), "end_date" := Field(row, "end_date")]
  }

  /** The copied, hourly, repeat-type and filters keys never overlap. */
  lemma KeySetsDisjoint()
    ensures Copied !! Hourly && "repeat_type" !in Copied + Hourly && "filters" !in Copied + Hourly + {"repeat_type"}
  {
  }

  lemma DayKeyInjective(i: nat, j: nat)
    requires i < 7 && j < 7
    ensures DayKey(i) == DayKey(j) <==> i == j
  {
    if DayKey(i) == DayKey(j) {
      assert DayKey(i)[1] == Digit(i) && DayKey(j)[1] == Digit(j);
      DigitInjective(i, j);
    }
  }

  /** The first `k` rounds write exactly the keys d0..d(k-1), each after its bit. */
  lemma {:induction false} DaysShape(mask: int, k: nat, i: nat)
    requires k <= 7
    ensures i < k ==> DayKey(i) in Days(mask, k) && Days(mask, k)[DayKey(i)] == DayFlag(mask, i)
    ensures forall key :: key in Days(mask, k) ==> exists j :: 0 <= j < k && key == DayKey(j)
  {
    if k > 0 {
      DaysShape(mask, k - 1, i);
      if i < k - 1 {
        DayKeyInjective(i, k - 1);
      }
    }
  }

  /** Dropping one more low bit: `m % 2d` is `m % d` plus bit `d` of m. */
  lemma ModStep(m: int, d: nat)
    requires d >= 1
    ensures m % (2 * d) == m % d + ((m / d) % 2) * d
  {
    var q, r := m / d, m % d;
    var a, b := q / 2, q % 2;
    assert m == q * d + r;
    assert q == 2 * a + b;
    assert m == a * (2 * d) + (b * d + r) by {
      calc {
        m;
        == q * d + r;
        == (2 * a + b) * d + r;
        == a * (2 * d) + (b * d + r);
      }
    }
    assert 0 <= b * d + r < 2 * d;
    ModUnique(m, 2 * d, a, b * d + r);
  }

  lemma ModUnique(m: int, n: int, a: int, r: int)
    requires n > 0 && 0 <= r < n && m == a * n + r
    ensures m % n == r
  {
    var a', r' := m / n, m % n;
    if a' > a {
      Distribute(a', a, n);
      AtLeastOnce(a' - a, n);
    } else if a' < a {
      Distribute(a, a', n);
      AtLeastOnce(a - a', n);
    }
  }

  lemma Distribute(x: int, y: int, n: int)
    ensures x * n - y * n == (x - y) * n
  {
  }

  lemma {:induction false} AtLeastOnce(x: int, n: int)
    requires x >= 1 && n > 0
    ensures x * n >= n
    decreases x
  {
    if x > 1 {
      AtLeastOnce(x - 1, n);
      Distribute(x, 1, n);
    }
  }

  /** Day i of the weekday map is present, and "enabled" exactly when bit i is set. */
  lemma DayEnabled(mask: int, i: nat)
    requires i < 7
    ensures DayKey(i) in DayMap(mask) && (DayMap(mask)[DayKey(i)] == Str("enabled") <==> Bit(mask, i))
  {
    DaysShape(mask, 7, i);
  }

  lemma {:induction false} MaskPrefix(mask: int, k: nat)
    requires k <= 7
    ensures MaskOf(DayMap(mask), k) == mask % Pow2(k)
  {
    if k > 0 {
      var p := Pow2(k - 1);
      var bit := if Bit(mask, k - 1) then p else 0;
      assert MaskOf(DayMap(mask), k) == mask % p + bit by {
        MaskPrefix(mask, k - 1);
        DayEnabled(mask, k - 1);
      }
      assert mask % Pow2(k) == mask % p + bit by {
        ModStep(mask, p);
        var b := (mask / p) % 2;
        assert b * p == bit;
        assert Pow2(k) == 2 * p;
      }
    }
  }

  /**
   * The weekday map loses nothing of the mask's low seven bits: reading it
   * back gives `day_filter` modulo 128, for negative masks too.
   */
  lemma DayMaskRoundTrip(mask: int)
    ensures MaskOf(DayMap(mask), 7) == mask % 128
    ensures forall i :: 0 <= i < 7 ==> DayKey(i) in DayMap(mask) && DayMap(mask)[DayKey(i)] == DayFlag(mask, i)
    ensures forall key :: key in DayMap(mask) ==> exists j :: 0 <= j < 7 && key == DayKey(j)
  {
    MaskPrefix(mask, 7);
    assert Pow2(7) == 128;
    forall i | 0 <= i < 7
      ensures DayKey(i) in DayMap(mask) && DayMap(mask)[DayKey(i)] == DayFlag(mask, i)
    {
      DaysShape(mask, 7, i);
    }
    DaysShape(mask, 7, 0);
  }
}
