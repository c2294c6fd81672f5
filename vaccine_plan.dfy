/** The vaccination-plan projection of `createDefaultTasksForPet` (lib/api.ts:561-593):
    each schedule's nominal date is the birth date plus `age_in_months`; a nominal
    date already in the past is moved forward by whole `recurring_months` steps for a
    recurring schedule, or replaced by "now" otherwise. */
module VaccinePlan {
  import opened Wrappers
  import opened Domain
  import opened Dates

  /** The date the schedule nominally falls on: birth date plus `age_in_months`. */
  function Nominal(birth: Instant, s: VaccineSchedule): Instant {
    AddMonths(birth, s.ageInMonths)
  }

  /** The step of the advance loop: `recurring_months`, when the schedule is recurring
      and that field is truthy (present and non-zero). */
  function RecurringStep(s: VaccineSchedule): Option<int> {
    if s.isRecurring && TruthyOpt(s.recurringMonths) then s.recurringMonths else None
  }

  /** `d` moved forward by `k` steps of `step` months. */
  function Stepped(d: Instant, step: int, k: nat): Instant {
    AddMonths(d, k * step)
  }

  /** `while (d < now) d.setMonth(d.getMonth() + step)`: the first instant of the
      sequence d, d + step, d + 2*step, ... that is not before `now`. */
  function Advance(d: Instant, step: int, now: Instant): (r: Instant)
    requires step > 0
    ensures !Before(r, now)
    ensures r.day == d.day && r.millis == d.millis && r.months >= d.months
    decreases now.months - d.months
  {
    if Before(d, now) then Advance(AddMonths(d, step), step, now) else d
  }

  /** The projected date of one schedule. `None` stands for a recurring schedule with
      a negative step whose nominal date is past: the loop then walks away from
      `now` (see NegativeStepNeverCatchesUp), and in the source the walk only ends
      when the date leaves JavaScript's range, after which `toISOString` throws and
      the outer `catch` ends the whole generator. Whatever it returns is not before
      `now`. */
  function Project(birth: Instant, s: VaccineSchedule, now: Instant): (r: Option<Instant>)
    ensures r.Some? ==> !Before(r.value, now)
    ensures r.None? <==>
      Before(Nominal(birth, s), now) && RecurringStep(s).Some? && RecurringStep(s).value < 0
  {
    var nominal := Nominal(birth, s);
    if !Before(nominal, now) then Some(nominal)
    else match RecurringStep(s)
      case Some(step) => if step > 0 then Some(Advance(nominal, step, now)) else None
      case None => Some(now)
  }

  /** The projection as the source computes it: `scheduled` is updated in place by the
      advance loop (lib/api.ts:567-581). */
  method ProjectScheduledDate(birth: Instant, s: VaccineSchedule, now: Instant) returns (r: Option<Instant>)
    ensures r == Project(birth, s, now)
  {
    var scheduled := AddMonths(birth, s.ageInMonths);
    if Before(scheduled, now) {
      if s.isRecurring && TruthyOpt(s.recurringMonths) {
        var step := s.recurringMonths.value;
        if step < 0 {
          return None;
        }
        while Before(scheduled, now)
          invariant Advance(scheduled, step, now) == Advance(Nominal(birth, s), step, now)
          decreases now.months - scheduled.months
        {
          scheduled := AddMonths(scheduled, step);
        }
      } else {
        scheduled := now;
      }
    }
    r := Some(scheduled);
  }

  /** The advance loop stops at the first step that is not before `now`: the result
      is `d` moved by some `k` steps, and every earlier step is before `now`. */
  lemma {:induction false} AdvanceIsFirstStepNotBefore(d: Instant, step: int, now: Instant) returns (k: nat)
    requires step > 0
    ensures Advance(d, step, now) == Stepped(d, step, k)
    ensures !Before(Stepped(d, step, k), now)
    ensures forall j :: 0 <= j < k ==> Before(Stepped(d, step, j), now)
    decreases now.months - d.months
  {
    if !Before(d, now) {
      k := 0;
      assert Stepped(d, step, 0) == d;
    } else {
      var d' := AddMonths(d, step);
      var k' := AdvanceIsFirstStepNotBefore(d', step, now);
      k := k' + 1;
      assert Stepped(d', step, k') == Stepped(d, step, k) by {
        AddMonthsComposes(d, step, k' * step);
        assert k' * step + step == k * step;
      }
      forall j | 0 <= j < k ensures Before(Stepped(d, step, j), now) {
        if j > 0 {
          assert Stepped(d', step, j - 1) == Stepped(d, step, j) by {
            assert (j - 1) * step + step == j * step;
          }
        }
      }
    }
  }

  /** A recurring schedule whose nominal date is past lands `k >= 1` steps after the
      nominal date: the first of those steps that is not before `now`, one step
      earlier being before it. */
  lemma RecurringPastDate(birth: Instant, s: VaccineSchedule, now: Instant) returns (k: nat)
    requires Before(Nominal(birth, s), now)
    requires s.isRecurring && s.recurringMonths.Some? && s.recurringMonths.value > 0
    ensures k >= 1
    ensures Project(birth, s, now) == Some(Stepped(Nominal(birth, s), s.recurringMonths.value, k))
    ensures !Before(Stepped(Nominal(birth, s), s.recurringMonths.value, k), now)
    ensures Before(Stepped(Nominal(birth, s), s.recurringMonths.value, k - 1), now)
  {
    var step := s.recurringMonths.value;
    k := AdvanceIsFirstStepNotBefore(Nominal(birth, s), step, now);
  }

  /** A nominal date that is not before `now` is kept as it is. */
  lemma FutureNominalKept(birth: Instant, s: VaccineSchedule, now: Instant)
    requires !Before(Nominal(birth, s), now)
    ensures Project(birth, s, now) == Some(AddMonths(birth, s.ageInMonths))
  {
  }

  /** A past nominal date of a schedule that is not recurring, or whose
      `recurring_months` is absent or 0, becomes `now`. */
  lemma NonRecurringPastIsNow(birth: Instant, s: VaccineSchedule, now: Instant)
    requires Before(Nominal(birth, s), now)
    requires !s.isRecurring || s.recurringMonths.None? || s.recurringMonths == Some(0)
    ensures Project(birth, s, now) == Some(now)
  {
  }

  /** With a negative step the loop guard never becomes false: every step from a past
      nominal date is still before `now`, so the source's loop runs until the date
      library gives up. */
  lemma {:induction false} NegativeStepNeverCatchesUp(d: Instant, step: int, now: Instant, k: nat)
    requires Before(d, now) && step < 0
    ensures Before(Stepped(d, step, k), now)
  {
    if k > 0 {
      NegativeStepNeverCatchesUp(d, step, now, k - 1);
      assert Stepped(d, step, k) == AddMonths(Stepped(d, step, k - 1), step) by {
        AddMonthsComposes(d, (k - 1) * step, step);
        assert (k - 1) * step + step == k * step;
      }
    } else {
      assert Stepped(d, step, 0) == d;
    }
  }

  /** The vaccine record one schedule yields (lib/api.ts:584-592): not administered,
      scheduled on the calendar day of the projected instant, with the schedule's
      vaccine type and notes, and no task yet. */
  function VaccineDraft(petId: Id, s: VaccineSchedule, date: Instant): PetVaccine {
    PetVaccine(petId, s.vaccineTypeId, DatePart(date), None, false, s.notes, None)
  }

  /** The `petVaccines` array built by the projection loop (lib/api.ts:563-593): one
      draft per schedule, in schedule order, or `None` when some projection aborts
      the generator. */
  function DraftAll(petId: Id, birth: Instant, schedules: seq<VaccineSchedule>, now: Instant)
    : (r: Option<seq<PetVaccine>>)
    ensures r.None? <==> exists i :: 0 <= i < |schedules| && Project(birth, schedules[i], now).None?
    ensures r.Some? ==> |r.value| == |schedules|
    ensures r.Some? ==> forall i :: 0 <= i < |schedules| ==>
      && Project(birth, schedules[i], now).Some?
      && r.value[i] == VaccineDraft(petId, schedules[i], Project(birth, schedules[i], now).value)
  {
    if schedules == [] then Some([])
    else match Project(birth, schedules[0], now)
      case None => None
      case Some(date) =>
        match DraftAll(petId, birth, schedules[1..], now)
        case None => None
        case Some(rest) => Some([VaccineDraft(petId, schedules[0], date)] + rest)
  }
}

/** The three worked examples of the vaccination policy, for a pet born on
    2024-01-15: a future nominal date is kept, a past one-off date becomes today, and
    a past recurring date moves on in 3-month steps (May 15, Aug 15, Nov 15). */
module VaccinePlanExamples {
  import opened Wrappers
  import opened Domain
  import opened Dates
  import opened VaccinePlan

  lemma FutureNominalDateUnchanged()
    ensures var p := Project(FromDate(CalendarDate(2024, 1, 15)),
                             VaccineSchedule(1, 1, 2, false, None, None),
                             Instant(2024 * 12 + 2, 1, 36_000_000));
            p.Some? && DatePart(p.value) == CalendarDate(2024, 3, 15)
  {
  }

  lemma PastOneOffDateBecomesToday()
    ensures var now := Instant(2024 * 12 + 2, 1, 36_000_000);
            var p := Project(FromDate(CalendarDate(2024, 1, 15)),
                             VaccineSchedule(1, 1, 1, false, None, None), now);
            p == Some(now) && DatePart(p.value) == CalendarDate(2024, 3, 1)
  {
  }

  lemma PastRecurringDateAdvancesInSteps()
    ensures var p := Project(FromDate(CalendarDate(2024, 1, 15)),
                             VaccineSchedule(1, 1, 1, true, Some(3), None),
                             Instant(2024 * 12 + 8, 1, 36_000_000));
            p.Some? && DatePart(p.value) == CalendarDate(2024, 11, 15)
  {
    var now := Instant(2024 * 12 + 8, 1, 36_000_000);
    var feb := Instant(2024 * 12 + 1, 15, 0);
    assert Advance(feb, 3, now) == Advance(AddMonths(feb, 3), 3, now);
    assert Advance(AddMonths(feb, 3), 3, now) == Advance(AddMonths(feb, 6), 3, now);
    assert Advance(AddMonths(feb, 6), 3, now) == AddMonths(feb, 9);
  }
}
