/** The rewards page: the fixed points balance and which reward options can be redeemed. */
module Rewards {
  import LogWaste

  datatype RewardOption = RewardOption(kind: string, description: string, pointsRequired: nat, value: string)

  /** The balance the page shows; it is a constant, not read from any store. */
  const TotalPoints: nat := 0

  const MinPointsRequired: nat := 10000

  const RewardOptions: seq<RewardOption> := [
    RewardOption("Airtime", "Mobile airtime credit", 10000, "$10"),
    RewardOption("Data", "Mobile data bundle", 15000, "5GB"),
    RewardOption("Cash", "Cash withdrawal", 20000, "$20")
  ]

  /** `canRedeem` for one option at a given balance. */
  predicate CanRedeem(total: nat, option: RewardOption) {
    total >= option.pointsRequired
  }

  /** The redeem button: disabled exactly when the option cannot be redeemed; its caption follows. */
  function Button(total: nat, option: RewardOption): (r: (bool, string))
    ensures r.0 <==> total < option.pointsRequired
    ensures r.1 == (if r.0 then "Not Enough Points" else "Redeem")
  {
    var canRedeem := CanRedeem(total, option);
    (!canRedeem, if canRedeem then "Redeem" else "Not Enough Points")
  }

  /** The options are listed from cheapest to dearest, and the cheapest costs the stated minimum. */
  lemma OptionsAscending()
    ensures forall i, j :: 0 <= i < j < |RewardOptions| ==>
      RewardOptions[i].pointsRequired < RewardOptions[j].pointsRequired
    ensures RewardOptions[0].pointsRequired == MinPointsRequired
    ensures forall o :: o in RewardOptions ==> MinPointsRequired <= o.pointsRequired
  {
  }

  /** A balance that redeems an option redeems each cheaper one listed before it. */
  lemma RedeemableIsPrefix(total: nat, i: nat, j: nat)
    requires i <= j < |RewardOptions| && CanRedeem(total, RewardOptions[j])
    ensures CanRedeem(total, RewardOptions[i])
  {
    OptionsAscending();
  }

  /** A balance below the minimum redeems nothing; with the page's balance of 0 every button is disabled. */
  lemma NothingRedeemableBelowMinimum(total: nat)
    requires total < MinPointsRequired
    ensures forall o :: o in RewardOptions ==> !CanRedeem(total, o) && Button(total, o).0
    ensures forall o :: o in RewardOptions ==> Button(TotalPoints, o) == (true, "Not Enough Points")
  {
    OptionsAscending();
  }

  /**
   * The page says logging earns 100 points per kg, but the points the
   * log-waste form awards for one kg are at most 20, whatever the type.
   */
  lemma OneKgEarnsLessThanAdvertised(wasteType: string)
    ensures LogWaste.CalculatePoints(wasteType, 1.0) <= 20 < 100
  {
    var r := LogWaste.Rate(wasteType);
    assert r <= 20;
    assert 1.0 * r as real == r as real;
  }
}
