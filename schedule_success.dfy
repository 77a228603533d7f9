/** The schedule-success page: the pickup details read back from the URL, with defaults. */
module ScheduleSuccess {
  import opened JsStrings
  import NewSchedulePage

  datatype PickupDetails = PickupDetails(id: string, date: string, time: string, wasteType: string, location: string)

  /** `searchParams.get(key) || fallback`: a missing or empty parameter gives the fallback. */
  function ParamOr(params: map<string, string>, key: string, fallback: string): (r: string)
    ensures key in params && params[key] != "" ==> r == params[key]
    ensures key !in params || params[key] == "" ==> r == fallback
  {
    if key in params && Truthy(params[key]) then params[key] else fallback
  }

  /**
   * `'PU-' + Math.random().toString(36).substr(2, 9).toUpperCase()`, where
   * `random36` stands for the text of `Math.random().toString(36)`.
   */
  function GeneratedId(random36: string): (r: string)
    ensures StartsWith(r, "PU-")
    ensures |r| <= 12
  {
    "PU-" + Upper(Substr(random36, 2, 9))
  }

  /**
   * The `details` the page stores; `now` stands for `new Date().toISOString()`
   * and `random36` for the random text of the generated id.
   */
  function Details(params: map<string, string>, now: string, random36: string): (d: PickupDetails)
    ensures d.id == ParamOr(params, "id", GeneratedId(random36))
    ensures d.date == ParamOr(params, "date", BeforeFirst(now, 'T'))
    ensures d.time == ParamOr(params, "time", "09:00")
    ensures d.wasteType == ParamOr(params, "wasteType", "Mixed Waste")
    ensures d.location == ParamOr(params, "location", "Home Address")
  {
    PickupDetails(
      ParamOr(params, "id", GeneratedId(random36)),
      ParamOr(params, "date", BeforeFirst(now, 'T')),
      ParamOr(params, "time", "09:00"),
      ParamOr(params, "wasteType", "Mixed Waste"),
      ParamOr(params, "location", "Home Address"))
  }

  /** Without parameters, every field shows its default and the id is generated. */
  lemma DefaultsWithoutParams(now: string, random36: string)
    ensures var d := Details(map[], now, random36);
      && StartsWith(d.id, "PU-") && d.date == BeforeFirst(now, 'T')
      && d.time == "09:00" && d.wasteType == "Mixed Waste" && d.location == "Home Address"
  {
  }

  /**
   * Round trip: a form the new-pickup page lets the user submit comes back on
   * this page with exactly its date, time, waste type and location, and a
   * generated id, since the redirect carries none.
   */
  lemma SubmittedFormRoundTrip(f: NewSchedulePage.Form, now: string, random36: string)
    requires NewSchedulePage.HasFields(f) && !NewSchedulePage.SubmitDisabled(f)
    ensures var d := Details(NewSchedulePage.RedirectParams(f), now, random36);
      && d.date == f["pickupDate"] && d.time == f["pickupTime"]
      && d.wasteType == f["wasteType"] && d.location == f["location"]
      && d.id == GeneratedId(random36)
  {
  }
}
