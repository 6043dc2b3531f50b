/** Clock readings. Every operation that consults the clock receives one
    `Instant` in place of its calls to `datetime.now()` and
    `datetime.utcnow()`. */
module Clock {

  /** `hour`, `minute` and `second` of the local time; `iso` is its
      `isoformat()`, `utcIso` the `isoformat()` of the UTC time, `date` the
      `isoformat()` of the local date and `dayName` its `strftime("%A")`. */
  datatype Instant = Instant(
    hour: nat,
    minute: nat,
    second: nat,
    iso: string,
    utcIso: string,
    date: string,
    dayName: string)
}
