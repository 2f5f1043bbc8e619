/**
 Conversion of the data-editor rows (a clock time and a dose) into the dose
 events the simulator takes: the clock time becomes a decimal hour of the day,
 `hour + minute / 60`; seconds are dropped.
 */
module Options {
  import opened Simulator

  type Hour = h: int | 0 <= h < 24
  type Minute = m: int | 0 <= m < 60
  type Second = s: int | 0 <= s < 60

  /** A time of day as the editor's time column holds it (00:00 to 23:59, plus seconds). */
  datatype ClockTime = ClockTime(hour: Hour, minute: Minute, second: Second)

  /** One editor row: when the medication was taken and how many mg. */
  datatype Row = Row(time: ClockTime, dose: real)

  /** The dose column accepts 0 to 200 mg in steps of 5 mg. */
  predicate DoseInEditorRange(row: Row) {
    0.0 <= row.dose <= 200.0 && ((row.dose / 5.0).Floor as real) * 5.0 == row.dose
  }

  /**
   Hours since midnight, at minute resolution: within the clock time's own
   hour, and never later than 23:59.
   */
  function DecimalHour(c: ClockTime): (h: real)
    ensures c.hour as real <= h < (c.hour + 1) as real
    ensures 0.0 <= h <= 23.0 + 59.0 / 60.0
  {
    c.hour as real + (c.minute as real) / 60.0
  }

  /** Python's `zip`: pairs up the two lists, stopping at the end of the shorter. */
  function Zip(times: seq<real>, doses: seq<real>): (pairs: Schedule)
    ensures |pairs| == if |times| <= |doses| then |times| else |doses|
    ensures forall i :: 0 <= i < |pairs| ==> pairs[i] == DoseEvent(times[i], doses[i])
  {
    if |times| == 0 || |doses| == 0 then []
    else [DoseEvent(times[0], doses[0])] + Zip(times[1..], doses[1..])
  }

  /**
   One dose event per row, in row order: its time is the row's clock time as
   a decimal hour, which lies in [0, 23 + 59/60], and its amount is the row's
   dose, unchanged.
   */
  function GetOptions(rows: seq<Row>): (options: Schedule)
    ensures |options| == |rows|
    ensures forall i :: 0 <= i < |rows| ==>
              options[i].time == (rows[i].time.hour as real) + (rows[i].time.minute as real) / 60.0
              && options[i].amount == rows[i].dose
    ensures forall i :: 0 <= i < |rows| ==> 0.0 <= options[i].time <= 23.0 + 59.0 / 60.0
  {
    var times := seq(|rows|, i requires 0 <= i < |rows| => DecimalHour(rows[i].time));
    var doses := seq(|rows|, i requires 0 <= i < |rows| => rows[i].dose);
    Zip(times, doses)
  }

  /** Recovers the hour from a decimal hour. */
  function HourOf(t: real): (hour: int)
  {
    t.Floor
  }

  /** Recovers the minute from a decimal hour. */
  function MinuteOf(t: real): (minute: int)
  {
    ((t - (t.Floor as real)) * 60.0).Floor
  }

  /** The decimal hour determines the hour and the minute of the clock time it came from. */
  lemma ClockRoundTrip(c: ClockTime)
    ensures HourOf(DecimalHour(c)) == c.hour
    ensures MinuteOf(DecimalHour(c)) == c.minute
  {
    var h := DecimalHour(c);
    var frac := (c.minute as real) / 60.0;
    assert 0.0 <= frac < 1.0;
    assert h.Floor == c.hour;
    assert (h - (c.hour as real)) * 60.0 == c.minute as real;
  }

  /** Two clock times convert to the same hour exactly when their hours and minutes agree. */
  lemma DecimalHourInjective(a: ClockTime, b: ClockTime)
    ensures DecimalHour(a) == DecimalHour(b) <==> a.hour == b.hour && a.minute == b.minute
  {
    if DecimalHour(a) == DecimalHour(b) {
      ClockRoundTrip(a);
      ClockRoundTrip(b);
    }
  }

  /** Every converted row can be read back: hour and minute of each event are those of its row. */
  lemma GetOptionsRecoversClock(rows: seq<Row>, i: nat)
    requires i < |rows|
    ensures HourOf(GetOptions(rows)[i].time) == rows[i].time.hour
    ensures MinuteOf(GetOptions(rows)[i].time) == rows[i].time.minute
  {
    ClockRoundTrip(rows[i].time);
  }

  /** Converting two blocks of rows converts each block and keeps them in order. */
  lemma GetOptionsConcat(a: seq<Row>, b: seq<Row>)
    ensures GetOptions(a + b) == GetOptions(a) + GetOptions(b)
  {
    var whole := GetOptions(a + b);
    var parts := GetOptions(a) + GetOptions(b);
    assert forall i :: 0 <= i < |whole| ==> whole[i] == parts[i];
  }
}
