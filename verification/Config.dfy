/** The sweep widths: defaults, validation, and why discovery never outruns retention. */
module Config {
  import opened Base
  import opened Clock

  const DEFAULT_MONITOR_DAYS := 2

  /** The widths as written; an absent one is filled in. */
  datatype Config = Config(retentionDays: int, days: Option<int>, monitorDays: Option<int>)

  datatype Widths = Widths(days: int, monitorDays: int)

  datatype Refusal = RetentionTooShort | DaysTooShort | MonitorTooShort | WiderThanRetention | MonitorWiderThanSweep

  /** What `__post_init__` settles on. */
  function Resolved(c: Config): Widths {
    var days := if c.days.Some? then c.days.value else c.retentionDays;
    Widths(days, if c.monitorDays.Some? then c.monitorDays.value else Min(DEFAULT_MONITOR_DAYS, days))
  }

  function SweepDays(c: Config, monitor: bool): int {
    if monitor then Resolved(c).monitorDays else Resolved(c).days
  }

  /** The first rule broken, in the order the checks are made. */
  function Refused(c: Config): Option<Refusal> {
    if c.retentionDays < 1 then Some(RetentionTooShort)
    else if SweepDays(c, false) < 1 then Some(DaysTooShort)
    else if SweepDays(c, true) < 1 then Some(MonitorTooShort)
    else if SweepDays(c, false) > c.retentionDays then Some(WiderThanRetention)
    else if SweepDays(c, true) > SweepDays(c, false) then Some(MonitorWiderThanSweep)
    else None
  }

  /**
   No churn, in configuration terms: whichever profile runs, and however far the
   clock moves between the two reads of today, an accepted configuration never
   discovers before the retention window -- and a refused ordering is refused
   because some clock would.
   */
  lemma AcceptedNeverChurns(c: Config, monitor: bool, today: int, laterToday: int)
    requires today <= laterToday
    ensures Refused(c).None? ==>
      WindowEnding(today, c.retentionDays).first <= WindowEnding(laterToday, SweepDays(c, monitor)).first <= laterToday
    ensures Refused(c) == Some(WiderThanRetention) ==>
      WindowEnding(today, SweepDays(c, false)).first < WindowEnding(today, c.retentionDays).first
    ensures Refused(c).None? <==>
      1 <= SweepDays(c, true) <= SweepDays(c, false) <= c.retentionDays
  {
  }

  /** Naming neither width is always accepted, and sweeps exactly the retention window. */
  lemma DefaultsAreAccepted(retentionDays: int)
    requires retentionDays >= 1
    ensures var c := Config(retentionDays, None, None);
            Refused(c).None? && SweepDays(c, false) == retentionDays
  {
  }
}
