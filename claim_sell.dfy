/** `/sellclaim`: offering the claim one stands in for sale, withdrawing the
    offer, and the confirmation that puts the offer up. */
module ClaimSell {
  import opened Common

  /** The sale part of a claim's economy data. */
  class EconomyData {
    var forSale: bool
    var salePrice: real

    constructor (forSale: bool, salePrice: real)
      ensures this.forSale == forSale && this.salePrice == salePrice
    {
      this.forSale := forSale;
      this.salePrice := salePrice;
    }

    /** `setForSale` followed by `setSalePrice`. */
    method SetSale(forSale: bool, salePrice: real)
      modifies this
      ensures this.forSale == forSale && this.salePrice == salePrice
    {
      this.forSale := forSale;
      this.salePrice := salePrice;
    }
  }

  /** The ways the command ends. A `Confirming(price)` outcome has shown the
      player a confirmation that, when clicked, runs `Confirm` with `price`. */
  datatype Outcome =
    | EconomyMissing
    | NotForSaleKind         // admin claims and the wilderness
    | NoPermission
    | NotForSale             // no price given, and no current offer
    | SaleCancelled
    | NothingDone            // no price, an offer, and an argument other than `cancel`
    | CancelArgumentMissing  // no price and no argument: `arg.equalsIgnoreCase` throws
    | NegativePrice
    | Confirming(price: real)

  /** The outcome the command reaches, given the economy's presence, the
      claim's kind, the player's standing, the arguments and the current
      offer. */
  function Decide(economyPresent: bool, kind: ClaimType, isOwner: bool, canIgnoreClaim: bool,
                  price: Option<real>, arg: Option<string>, forSale: bool): Outcome
  {
    if !economyPresent then EconomyMissing
    else if kind == Admin || kind == Wilderness then NotForSaleKind
    else if !canIgnoreClaim && !isOwner then NoPermission
    else if price.None? then
      (if !forSale then NotForSale
       else if arg.None? then CancelArgumentMissing
       else if EqualsIgnoreCase(arg.value, "cancel") then SaleCancelled
       else NothingDone)
    else if price.value < 0.0 then NegativePrice
    else Confirming(price.value)
  }

  /** The command on the economy data of the claim at the player's location. */
  method Execute(economyPresent: bool, kind: ClaimType, isOwner: bool, canIgnoreClaim: bool,
                 price: Option<real>, arg: Option<string>, economy: EconomyData)
    returns (outcome: Outcome)
    modifies economy
    ensures outcome == Decide(economyPresent, kind, isOwner, canIgnoreClaim, price, arg, old(economy.forSale))
    ensures outcome == SaleCancelled ==> !economy.forSale && economy.salePrice == -1.0
    ensures outcome != SaleCancelled ==>
              economy.forSale == old(economy.forSale) && economy.salePrice == old(economy.salePrice)
  {
    if !economyPresent {
      return EconomyMissing;
    }
    if kind == Admin || kind == Wilderness {
      return NotForSaleKind;
    }
    if !canIgnoreClaim && !isOwner {
      return NoPermission;
    }
    if price.None? {
      if !economy.forSale {
        return NotForSale;
      }
      if arg.None? {
        return CancelArgumentMissing;
      }
      if EqualsIgnoreCase(arg.value, "cancel") {
        economy.SetSale(false, -1.0);
        return SaleCancelled;
      }
      return NothingDone;
    }
    if price.value < 0.0 {
      return NegativePrice;
    }
    return Confirming(price.value);
  }

  /** The confirmation consumer: the offer goes up at the confirmed price. */
  method Confirm(economy: EconomyData, price: real)
    modifies economy
    ensures economy.forSale && economy.salePrice == price
  {
    economy.SetSale(true, price);
  }

  /** Only sellable kinds, an economy and the owner or a player who can
      ignore claims ever reach a confirmation, and the price it carries is
      the non-negative price given. */
  lemma ConfirmationOnlyForValidOffers(economyPresent: bool, kind: ClaimType, isOwner: bool, canIgnoreClaim: bool,
                                      price: Option<real>, arg: Option<string>, forSale: bool)
    ensures var o := Decide(economyPresent, kind, isOwner, canIgnoreClaim, price, arg, forSale);
            o.Confirming? <==>
              economyPresent && kind != Admin && kind != Wilderness && (isOwner || canIgnoreClaim) &&
              price.Some? && price.value >= 0.0
    ensures var o := Decide(economyPresent, kind, isOwner, canIgnoreClaim, price, arg, forSale);
            o.Confirming? ==> o.price == price.value
  {
  }

  /** Withdrawing an offer needs an existing offer and the word `cancel` in
      any case. */
  lemma CancelNeedsOffer(economyPresent: bool, kind: ClaimType, isOwner: bool, canIgnoreClaim: bool,
                         arg: Option<string>, forSale: bool)
    ensures Decide(economyPresent, kind, isOwner, canIgnoreClaim, None, arg, forSale) == SaleCancelled <==>
              economyPresent && kind != Admin && kind != Wilderness && (isOwner || canIgnoreClaim) &&
              forSale && arg.Some? && EqualsIgnoreCase(arg.value, "cancel")
    ensures EqualsIgnoreCase("CANCEL", "cancel") && EqualsIgnoreCase("Cancel", "cancel")
  {
  }

  /** After a confirmation, running the command again without a price
      withdraws the offer, restoring "not for sale" with the sentinel
      price, exactly when the claim is of a sellable kind, the player owns
      it or can ignore claims, and the argument is `cancel` in any case;
      otherwise the confirmed offer stands. */
  method ConfirmThenCancel(economy: EconomyData, price: real, kind: ClaimType, isOwner: bool,
                           canIgnoreClaim: bool, arg: Option<string>)
    returns (outcome: Outcome)
    modifies economy
    ensures outcome == SaleCancelled <==>
              kind != Admin && kind != Wilderness && (isOwner || canIgnoreClaim) &&
              arg.Some? && EqualsIgnoreCase(arg.value, "cancel")
    ensures outcome == SaleCancelled ==> !economy.forSale && economy.salePrice == -1.0
    ensures outcome != SaleCancelled ==> economy.forSale && economy.salePrice == price
  {
    Confirm(economy, price);
    outcome := Execute(true, kind, isOwner, canIgnoreClaim, None, arg, economy);
  }
}
