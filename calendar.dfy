/** Days are Python date ordinals (date.toordinal()): day 1 is Monday
    1 January of year 1 and `d + 1` is the day after `d`. */
module Calendar {

  /** date.weekday(): Monday is 0 and Sunday is 6. */
  function Weekday(d: int): (w: int)
    ensures 0 <= w < 7
  {
    (d + 6) % 7
  }

  const Friday := 4
  const Sunday := 6

  lemma WeekdayPeriod(d: int)
    ensures Weekday(d + 7) == Weekday(d)
  {
  }

  /** Two days less than a week apart fall on different weekdays. */
  lemma WeekdayDistinct(d: int, k: int)
    requires 0 < k < 7
    ensures Weekday(d + k) != Weekday(d)
  {
    var q, r := (d + 6) / 7, (d + 6) % 7;
    assert d + 6 == 7 * q + r;
    if r + k < 7 {
      assert d + k + 6 == 7 * q + (r + k);
    } else {
      assert d + k + 6 == 7 * (q + 1) + (r + k - 7);
    }
  }

  /** The days of [lo, hi] on weekday `w`, in ascending order. */
  function DaysWithWeekday(lo: int, hi: int, w: int): seq<int>
    decreases hi - lo
  {
    if hi < lo then [] else DaysWithWeekday(lo, hi - 1, w) + (if Weekday(hi) == w then [hi] else [])
  }

  /** Every selected day lies in the range and falls on the weekday. */
  lemma {:induction false} DaysSelected(lo: int, hi: int, w: int)
    ensures forall i :: 0 <= i < |DaysWithWeekday(lo, hi, w)| ==>
      lo <= DaysWithWeekday(lo, hi, w)[i] <= hi && Weekday(DaysWithWeekday(lo, hi, w)[i]) == w
    decreases hi - lo
  {
    if lo <= hi {
      DaysSelected(lo, hi - 1, w);
    }
  }

  /** Every day of the range on the weekday is selected. */
  lemma {:induction false} DaysComplete(lo: int, hi: int, w: int)
    ensures forall d :: lo <= d <= hi && Weekday(d) == w ==> d in DaysWithWeekday(lo, hi, w)
    decreases hi - lo
  {
    if lo <= hi {
      DaysComplete(lo, hi - 1, w);
    }
  }

  /** The selected days are strictly increasing. */
  lemma {:induction false} DaysAscending(lo: int, hi: int, w: int)
    ensures forall i, j :: 0 <= i < j < |DaysWithWeekday(lo, hi, w)| ==>
      DaysWithWeekday(lo, hi, w)[i] < DaysWithWeekday(lo, hi, w)[j]
    decreases hi - lo
  {
    if lo <= hi {
      DaysAscending(lo, hi - 1, w);
      DaysSelected(lo, hi - 1, w);
    }
  }

  /** Extending the range by one day adds that day at the end when it is
      on the weekday. */
  lemma DaysStep(lo: int, d: int, w: int)
    requires lo <= d
    ensures DaysWithWeekday(lo, d, w) == DaysWithWeekday(lo, d - 1, w) + (if Weekday(d) == w then [d] else [])
  {
  }

  /** The day selected after `r[i]` is the one a week later. */
  lemma NextIsWeekLater(lo: int, hi: int, w: int, i: nat)
    requires i + 1 < |DaysWithWeekday(lo, hi, w)|
    ensures DaysWithWeekday(lo, hi, w)[i + 1] == DaysWithWeekday(lo, hi, w)[i] + 7
  {
    var r := DaysWithWeekday(lo, hi, w);
    DaysSelected(lo, hi, w);
    DaysComplete(lo, hi, w);
    DaysAscending(lo, hi, w);
    var d, e := r[i], r[i + 1];
    assert d < e <= hi && Weekday(d) == w && Weekday(e) == w;
    if e < d + 7 {
      WeekdayDistinct(d, e - d);
      assert false;
    }
    WeekdayPeriod(d);
    assert d + 7 in r;
    var j :| 0 <= j < |r| && r[j] == d + 7;
    assert e <= r[j];
  }

  /** Consecutive selected days are exactly one week apart. */
  lemma DaysWeekApart(lo: int, hi: int, w: int)
    ensures forall i :: 0 <= i < |DaysWithWeekday(lo, hi, w)| - 1 ==>
      DaysWithWeekday(lo, hi, w)[i + 1] == DaysWithWeekday(lo, hi, w)[i] + 7
  {
    forall i | 0 <= i < |DaysWithWeekday(lo, hi, w)| - 1 {
      NextIsWeekLater(lo, hi, w, i);
    }
  }
}
