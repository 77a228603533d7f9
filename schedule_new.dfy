/** The new-pickup form: field updates, the submit rule, the pickup record and the success redirect. */
module NewSchedulePage {
  import opened Remote
  import opened JsStrings

  /**
   * The form state. Updates use `[name]: value`, so the form is a map from
   * field names to their text; the page starts with these five fields.
   */
  type Form = map<string, string>

  const FieldNames: set<string> := {"wasteType", "weight", "pickupDate", "pickupTime", "location"}

  const InitialForm: Form := map[
    "wasteType" := "", "weight" := "", "pickupDate" := "", "pickupTime" := "", "location" := ""]

  predicate HasFields(f: Form) {
    FieldNames <= f.Keys
  }

  /** The submit button's `disabled` expression. */
  predicate SubmitDisabled(f: Form)
    requires HasFields(f)
  {
    !Truthy(f["wasteType"]) || !Truthy(f["weight"]) || !Truthy(f["pickupDate"])
    || !Truthy(f["pickupTime"]) || !Truthy(f["location"])
  }

  /** Submitting is possible exactly when all five fields are non-empty; the fresh form cannot submit. */
  lemma SubmitEnabledExactly(f: Form)
    requires HasFields(f)
    ensures !SubmitDisabled(f) <==> forall k :: k in FieldNames ==> f[k] != ""
    ensures SubmitDisabled(InitialForm)
  {
    if !SubmitDisabled(f) {
      forall k | k in FieldNames ensures f[k] != "" {
      }
    }
  }

  /**
   * `pickupData`: `{ ...formData, userId: 'current-user-id', status: 'scheduled' }`.
   * Every form field is kept; `userId` and `status` are set last and so win.
   */
  function PickupRecord(f: Form): (r: map<string, string>)
    ensures r.Keys == f.Keys + {"userId", "status"}
    ensures r["status"] == "scheduled" && r["userId"] == "current-user-id"
    ensures forall k :: k in f && k != "userId" && k != "status" ==> r[k] == f[k]
  {
    f + map["userId" := "current-user-id", "status" := "scheduled"]
  }

  /** The `URLSearchParams` of the success redirect: four fields of the form under new names. */
  function RedirectParams(f: Form): (r: map<string, string>)
    requires HasFields(f)
    ensures r.Keys == {"date", "time", "wasteType", "location"}
    ensures r["date"] == f["pickupDate"] && r["time"] == f["pickupTime"]
    ensures r["wasteType"] == f["wasteType"] && r["location"] == f["location"]
  {
    map["date" := f["pickupDate"], "time" := f["pickupTime"],
        "wasteType" := f["wasteType"], "location" := f["location"]]
  }

  const SuccessPath := "/dashboard/schedule/success"

  /**
   * What the browser gave `handleLocationShare`: a position, whose coordinates
   * stand for their `toFixed(6)` text, a failed lookup, or no geolocation at all.
   */
  datatype LocationOutcome = Position(latitude: string, longitude: string) | PositionError | NoGeolocation

  /** The `location` text of a position: the two coordinates separated by a comma and a space. */
  function LocationText(latitude: string, longitude: string): (r: string)
    ensures |r| == |latitude| + |longitude| + 2
    ensures r[..|latitude|] == latitude && r[|latitude| + 2..] == longitude
    ensures r[|latitude|] == ',' && r[|latitude| + 1] == ' '
  {
    latitude + ", " + longitude
  }

  /** The alert shown when no position is available; the two causes have different messages. */
  function LocationAlert(outcome: LocationOutcome): (r: string)
    requires !outcome.Position?
    ensures outcome.PositionError? <==> r == "Unable to get your location. Please enter manually."
    ensures outcome.NoGeolocation? <==> r == "Geolocation is not supported by this browser."
  {
    if outcome.PositionError? then "Unable to get your location. Please enter manually."
    else "Geolocation is not supported by this browser."
  }

  class NewSchedule {
    var formData: Form
    /** The routes pushed so far, oldest first. */
    var pushed: seq<Route>
    /** The `alert` messages shown so far, oldest first. */
    var alerts: seq<string>

    ghost predicate Valid()
      reads this
    {
      HasFields(formData)
    }

    constructor ()
      ensures Valid() && formData == InitialForm && pushed == [] && alerts == []
    {
      formData := InitialForm;
      pushed := [];
      alerts := [];
    }

    /** `handleChange` on the input named `name`: only that field changes. */
    method HandleChange(name: string, value: string)
      requires Valid()
      modifies this
      ensures Valid() && pushed == old(pushed) && alerts == old(alerts)
      ensures formData.Keys == old(formData).Keys + {name}
      ensures formData[name] == value
      ensures forall k :: k in old(formData) && k != name ==> formData[k] == old(formData)[k]
    {
      formData := formData[name := value];
    }

    /** `handleSelectChange`: the same update, with the name given by the select. */
    method HandleSelectChange(name: string, value: string)
      requires Valid()
      modifies this
      ensures Valid() && pushed == old(pushed) && alerts == old(alerts)
      ensures formData.Keys == old(formData).Keys + {name}
      ensures formData[name] == value
      ensures forall k :: k in old(formData) && k != name ==> formData[k] == old(formData)[k]
    {
      HandleChange(name, value);
    }

    /** `handleSubmit`: the record is only logged; the success page gets the four parameters. */
    method HandleSubmit() returns (pickupData: map<string, string>)
      requires Valid()
      modifies this
      ensures Valid() && formData == old(formData)
      ensures pickupData == PickupRecord(formData)
      ensures pushed == old(pushed) + [Route(SuccessPath, RedirectParams(formData))]
      ensures alerts == old(alerts)
    {
      pickupData := PickupRecord(formData);
      pushed := pushed + [Route(SuccessPath, RedirectParams(formData))];
    }

    /**
     * `handleLocationShare`: a position fills `location` with the two
     * coordinates; no geolocation, or a failed lookup, shows an alert instead.
     */
    method HandleLocationShare(outcome: LocationOutcome)
      requires Valid()
      modifies this
      ensures Valid() && pushed == old(pushed)
      ensures outcome.Position? ==>
        formData == old(formData)["location" := LocationText(outcome.latitude, outcome.longitude)]
        && alerts == old(alerts)
      ensures !outcome.Position? ==>
        formData == old(formData) && alerts == old(alerts) + [LocationAlert(outcome)]
    {
      match outcome {
        case Position(latitude, longitude) =>
          formData := formData["location" := LocationText(latitude, longitude)];
        case _ =>
          alerts := alerts + [LocationAlert(outcome)];
      }
    }
  }
}
