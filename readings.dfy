/** Sensor readings as the history screens see them, and the abstract clock
    they are stamped with: a calendar day plus the millisecond within it (the
    local time zone is folded into the day). */
module Readings {
  import opened Common

  const MS_PER_DAY: nat := 86400000
  const MS_PER_HOUR: nat := 3600000
  const MS_PER_MINUTE: nat := 60000

  type MsOfDay = n: nat | n < 86400000

  datatype DateTime = DateTime(day: int, ms: MsOfDay)

  /** Chronological order, `a <= b`. */
  predicate NotAfter(a: DateTime, b: DateTime) {
    a.day < b.day || (a.day == b.day && a.ms <= b.ms)
  }

  /** `date.getHours()` */
  function Hours(t: DateTime): (h: nat)
    ensures h < 24
  {
    t.ms / MS_PER_HOUR
  }

  /** `date.getMinutes()` */
  function Minutes(t: DateTime): (m: nat)
    ensures m < 60
  {
    (t.ms / MS_PER_MINUTE) % 60
  }

  /** The metric fields a reading document may carry. */
  const TEMP: string := "temp"
  const PH: string := "ph"
  const PPM: string := "ppm"
  const EC: string := "millisiemenspermeter"

  /** A `devices/{id}/readings` document: its numeric fields by name (a missing
      key is an `undefined` field) and its timestamp. */
  datatype Reading = Reading(id: string, fields: map<string, real>, timestamp: Option<DateTime>)

  function Field(r: Reading, name: string): Option<real> {
    if name in r.fields then Some(r.fields[name]) else None
  }
}
