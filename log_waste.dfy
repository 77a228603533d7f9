/** The log-waste page: the selectable waste cards, the points formula and the submit rule. */
module LogWaste {
  import opened JsStrings

  /** One selectable card of the `wasteTypes` table; `onClick` selects its `id`. */
  datatype WasteTypeCard = WasteTypeCard(id: string, name: string, description: string)

  const WasteTypes: seq<WasteTypeCard> := [
    WasteTypeCard("plastic", "Plastic", "Bottles, containers, packaging"),
    WasteTypeCard("organic", "Organic", "Food scraps, yard waste, compostable items"),
    WasteTypeCard("metal", "Metal", "Cans, aluminum, steel, copper items"),
    WasteTypeCard("paper", "Paper", "Newspapers, cardboard, office paper"),
    WasteTypeCard("electronic", "Electronic", "Devices, batteries, cables, appliances"),
    WasteTypeCard("general", "General", "Non-recyclable items")
  ]

  /** The ids a user can select. */
  function SelectableIds(): (ids: seq<string>)
    ensures |ids| == |WasteTypes|
    ensures forall i :: 0 <= i < |ids| ==> ids[i] == WasteTypes[i].id
  {
    seq(|WasteTypes|, i requires 0 <= i < |WasteTypes| => WasteTypes[i].id)
  }

  /** The `pointsPerKg` table inside `calculatePoints`; its keys are capitalised. */
  const PointsPerKg: map<string, int> := map[
    "Plastic" := 10, "Paper" := 8, "Metal" := 15,
    "Glass" := 12, "Organic" := 5, "Electronic" := 20]

  const DefaultRate: int := 5

  /** `pointsPerKg[wasteType] || 5`: a case-sensitive lookup with the default 5. */
  function Rate(wasteType: string): (r: int)
    ensures r > 0
    ensures wasteType in PointsPerKg ==> r == PointsPerKg[wasteType]
    ensures wasteType !in PointsPerKg ==> r == DefaultRate
  {
    if wasteType in PointsPerKg then PointsPerKg[wasteType] else DefaultRate
  }

  /** `calculatePoints`: `Math.floor(amount * rate)`, the largest integer not above the product. */
  function CalculatePoints(wasteType: string, amount: real): (r: int)
    ensures r as real <= amount * Rate(wasteType) as real < r as real + 1.0
  {
    (amount * Rate(wasteType) as real).Floor
  }

  /** Every card id misses the capitalised keys, so every selectable type earns the default rate. */
  lemma SelectableIdsEarnDefaultRate(id: string, amount: real)
    requires id in SelectableIds()
    ensures id !in PointsPerKg
    ensures Rate(id) == DefaultRate
    ensures CalculatePoints(id, amount) == (amount * 5.0).Floor
  {
    var k :| 0 <= k < |SelectableIds()| && SelectableIds()[k] == id;
    assert id == WasteTypes[k].id;
  }

  /** The table rates apply only to its exact keys, e.g. the card name `Metal`, not the id `metal`. */
  lemma MetalExample()
    ensures CalculatePoints("Metal", 5.2) == 78
    ensures CalculatePoints("metal", 5.2) == 26
  {
    assert 5.2 * 15 as real == 78.0;
    assert 5.2 * 5 as real == 26.0;
  }

  /** For a fixed type, more waste never earns fewer points. */
  lemma PointsMonotone(wasteType: string, a: real, b: real)
    requires a <= b
    ensures CalculatePoints(wasteType, a) <= CalculatePoints(wasteType, b)
  {
    var k := Rate(wasteType) as real;
    assert a * k <= b * k by {
      assert (b - a) * k >= 0.0;
    }
  }

  /** Points have the sign of the amount; nothing guards against a negative amount. */
  lemma PointsSign(wasteType: string, amount: real)
    ensures amount >= 0.0 ==> CalculatePoints(wasteType, amount) >= 0
    ensures amount <= 0.0 ==> CalculatePoints(wasteType, amount) <= 0
  {
    var k := Rate(wasteType) as real;
    if amount >= 0.0 {
      assert amount * k >= 0.0;
    }
    if amount <= 0.0 {
      assert amount * k <= 0.0;
    }
  }

  /** The form state the page keeps; `amount` is the text of the number input. */
  datatype LogForm = LogForm(
    selectedWasteType: string,
    amount: string,
    unit: string,
    selectedDate: string,
    selectedTime: string,
    notes: string)

  const InitialForm := LogForm("", "", "kg", "", "", "")

  /** The submit button's `disabled` expression. */
  predicate SubmitDisabled(f: LogForm) {
    !Truthy(f.selectedWasteType) || !Truthy(f.amount) || !Truthy(f.selectedDate) || !Truthy(f.selectedTime)
  }

  /** Submitting needs a picked card and a non-empty amount, date and time; the fresh form cannot submit. */
  lemma SubmitEnabledExactly(f: LogForm)
    ensures !SubmitDisabled(f) <==>
      f.selectedWasteType != "" && f.amount != "" && f.selectedDate != "" && f.selectedTime != ""
    ensures SubmitDisabled(InitialForm)
  {
  }

  /** The record `handleSubmit` logs. */
  datatype WasteLogData = WasteLogData(
    wasteType: string,
    amount: real,
    date: string,
    time: string,
    notes: string,
    userId: string,
    pointsEarned: int)

  /** What `handleSubmit` produces: the logged record and the route it pushes. */
  datatype Submission = Submission(log: WasteLogData, redirect: string)

  /**
   * `handleSubmit`; `parsed` stands for `parseFloat(amount)`, which the page
   * computes twice from the same text and so gets the same value both times.
   */
  function HandleSubmit(f: LogForm, parsed: real): (r: Submission)
    ensures r.redirect == "/dashboard"
    ensures r.log.wasteType == f.selectedWasteType && r.log.amount == parsed
    ensures r.log.date == f.selectedDate && r.log.time == f.selectedTime && r.log.notes == f.notes
    ensures r.log.pointsEarned == CalculatePoints(f.selectedWasteType, parsed)
    ensures r.log.userId == "current-user-id"
  {
    Submission(
      WasteLogData(f.selectedWasteType, parsed, f.selectedDate, f.selectedTime, f.notes,
                   "current-user-id", CalculatePoints(f.selectedWasteType, parsed)),
      "/dashboard")
  }

  /** A log made from any card earns exactly `floor(amount × 5)`, whatever the card. */
  lemma LoggedCardEarnsFive(f: LogForm, parsed: real)
    requires f.selectedWasteType in SelectableIds()
    ensures HandleSubmit(f, parsed).log.pointsEarned == (parsed * 5.0).Floor
  {
    SelectableIdsEarnDefaultRate(f.selectedWasteType, parsed);
  }
}
