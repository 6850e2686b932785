/** The claim-block ledger commands: buying and selling claim blocks through
    the economy, and abandoning every claim a player owns. The economy
    account, the transaction result and the abandon event's veto are inputs. */
module ClaimBlockLedger {
  import opened Common

  /** A claim as abandon-all sees it: its context, kind and size in blocks. */
  datatype ClaimSummary = ClaimSummary(id: Uuid, kind: ClaimType, claimBlocks: int)

  /** The per-world economy settings: price of one block when buying and when selling. */
  datatype EconomyConfig = EconomyConfig(claimBlockCost: real, claimBlockSell: real)

  datatype BuyOutcome =
    | NoEconomy | NoAccount | TradingDisabled | PurchaseDisabled
    | PriceShown | InvalidCount | OverLimit | WithdrawFailed | Bought

  datatype SellOutcome =
    | NoEconomy | TradingDisabled | SaleDisabled | BalanceShown
    | InvalidCount | NotEnoughBlocks | AccountMissing | DepositFailed | Sold

  datatype AbandonOutcome = NoClaims | Vetoed | Abandoned

  /** `Math.ceil` on a real, as an integer. */
  function Ceil(x: real): (r: int)
    ensures r as real - 1.0 < x <= r as real
  {
    -((-x).Floor)
  }

  /** Subdivisions, admin claims and the wilderness return no blocks when abandoned. */
  predicate ExemptFromRefund(kind: ClaimType)
  {
    kind == Subdivision || kind == Admin || kind == Wilderness
  }

  /** What abandoning one claim takes from the accrued blocks: the share of
      its blocks the basic return ratio does not give back, rounded up. The
      basic ratio applies to towns too. */
  function Penalty(c: ClaimSummary, ratioBasic: real): int
  {
    if ExemptFromRefund(c.kind) then 0 else Ceil(c.claimBlocks as real * (1.0 - ratioBasic))
  }

  /** With a ratio between 0 and 1, a claim never costs less than nothing nor
      more than its own size; an exempt claim costs nothing. */
  lemma PenaltyBounds(c: ClaimSummary, ratioBasic: real)
    requires 0.0 <= ratioBasic <= 1.0 && c.claimBlocks >= 0
    ensures 0 <= Penalty(c, ratioBasic) <= c.claimBlocks
    ensures ExemptFromRefund(c.kind) ==> Penalty(c, ratioBasic) == 0
  {
    if !ExemptFromRefund(c.kind) {
      var b, k := c.claimBlocks as real, 1.0 - ratioBasic;
      assert 0.0 <= b * k;
      assert b * ratioBasic >= 0.0;
      assert b * k == b - b * ratioBasic;
    }
  }

  /** The total taken for a list of claims. */
  function TotalPenalty(claims: seq<ClaimSummary>, ratioBasic: real): int
  {
    if claims == [] then 0 else Penalty(claims[0], ratioBasic) + TotalPenalty(claims[1..], ratioBasic)
  }

  lemma {:induction false} TotalPenaltySnoc(claims: seq<ClaimSummary>, c: ClaimSummary, ratioBasic: real)
    ensures TotalPenalty(claims + [c], ratioBasic) == TotalPenalty(claims, ratioBasic) + Penalty(c, ratioBasic)
  {
    if claims != [] {
      assert (claims + [c])[1..] == claims[1..] + [c];
      TotalPenaltySnoc(claims[1..], c, ratioBasic);
    }
  }

  /** Taking one claim out of the list takes exactly its penalty out of the total. */
  lemma {:induction false} TotalPenaltyRemove(claims: seq<ClaimSummary>, c: ClaimSummary, ratioBasic: real)
    requires c in claims
    ensures TotalPenalty(claims, ratioBasic) == Penalty(c, ratioBasic) + TotalPenalty(RemoveFirst(claims, c), ratioBasic)
  {
    if claims[0] != c {
      assert c in claims[1..];
      TotalPenaltyRemove(claims[1..], c, ratioBasic);
      assert RemoveFirst(claims, c) == [claims[0]] + RemoveFirst(claims[1..], c);
      assert RemoveFirst(claims, c)[1..] == RemoveFirst(claims[1..], c);
    }
  }

  /** The total decrease does not depend on the order the claims are visited in. */
  lemma {:induction false} TotalPenaltyOrderIndependent(a: seq<ClaimSummary>, b: seq<ClaimSummary>, ratioBasic: real)
    requires multiset(a) == multiset(b)
    ensures TotalPenalty(a, ratioBasic) == TotalPenalty(b, ratioBasic)
    decreases |a|
  {
    if a != [] {
      var c := a[0];
      assert a == [c] + a[1..];
      assert c in multiset(b);
      TotalPenaltyRemove(b, c, ratioBasic);
      RemoveFirstContents(b, c);
      assert multiset(a[1..]) == multiset(a) - multiset{c};
      TotalPenaltyOrderIndependent(a[1..], RemoveFirst(b, c), ratioBasic);
    } else {
      assert |b| == |multiset(b)| == 0;
    }
  }

  /** With a ratio between 0 and 1, abandoning never adds blocks and never
      takes more than the claims' combined size. */
  lemma {:induction false} TotalPenaltyBounds(claims: seq<ClaimSummary>, ratioBasic: real)
    requires 0.0 <= ratioBasic <= 1.0
    requires forall i :: 0 <= i < |claims| ==> claims[i].claimBlocks >= 0
    ensures 0 <= TotalPenalty(claims, ratioBasic) <= TotalBlocks(claims)
  {
    if claims != [] {
      PenaltyBounds(claims[0], ratioBasic);
      TotalPenaltyBounds(claims[1..], ratioBasic);
    }
  }

  function TotalBlocks(claims: seq<ClaimSummary>): int
  {
    if claims == [] then 0 else claims[0].claimBlocks + TotalBlocks(claims[1..])
  }

  /** A player's claim-block ledger and the claims they own (`GPPlayerData`). */
  class PlayerLedger {
    var accruedClaimBlocks: int
    var bonusClaimBlocks: int
    /** The accrual cap the player's options give (`getMaxAccruedClaimBlocks`). */
    var maxAccruedClaimBlocks: int
    var claims: seq<ClaimSummary>

    constructor (accrued: int, bonus: int, maxAccrued: int, owned: seq<ClaimSummary>)
      ensures accruedClaimBlocks == accrued && bonusClaimBlocks == bonus
      ensures maxAccruedClaimBlocks == maxAccrued && claims == owned
    {
      accruedClaimBlocks, bonusClaimBlocks := accrued, bonus;
      maxAccruedClaimBlocks, claims := maxAccrued, owned;
    }

    /** `/buyclaimblocks [count]`. The guards run in order; only a purchase
        that stays within the accrual cap reaches the withdrawal, and only a
        successful withdrawal of count times the block cost adds the blocks. */
    method BuyBlocks(economyPresent: bool, accountPresent: bool, config: EconomyConfig,
                     count: Option<int>, withdrawSucceeds: bool)
      returns (outcome: BuyOutcome, withdrawalAttempted: Option<real>)
      modifies this
      ensures bonusClaimBlocks == old(bonusClaimBlocks) && claims == old(claims)
      ensures maxAccruedClaimBlocks == old(maxAccruedClaimBlocks)
      ensures outcome == Bought <==>
                economyPresent && accountPresent && config.claimBlockCost != 0.0 && count.Some? &&
                count.value > 0 && old(accruedClaimBlocks) + count.value <= maxAccruedClaimBlocks &&
                withdrawSucceeds
      ensures outcome == Bought ==> accruedClaimBlocks == old(accruedClaimBlocks) + count.value
      ensures outcome != Bought ==> accruedClaimBlocks == old(accruedClaimBlocks)
      ensures withdrawalAttempted.Some? <==> outcome == Bought || outcome == WithdrawFailed
      ensures withdrawalAttempted.Some? ==>
                count.Some? && withdrawalAttempted.value == count.value as real * config.claimBlockCost &&
                old(accruedClaimBlocks) + count.value <= maxAccruedClaimBlocks
      ensures old(accruedClaimBlocks) <= maxAccruedClaimBlocks ==> accruedClaimBlocks <= maxAccruedClaimBlocks
      ensures !economyPresent ==> outcome == BuyOutcome.NoEconomy
      ensures economyPresent && !accountPresent ==> outcome == NoAccount
      ensures economyPresent && accountPresent && config.claimBlockCost == 0.0 ==>
                outcome == (if config.claimBlockSell == 0.0 then BuyOutcome.TradingDisabled else PurchaseDisabled)
    {
      withdrawalAttempted := None;
      if !economyPresent {
        return BuyOutcome.NoEconomy, None;
      }
      if !accountPresent {
        return NoAccount, None;
      }
      if config.claimBlockCost == 0.0 && config.claimBlockSell == 0.0 {
        return BuyOutcome.TradingDisabled, None;
      }
      if config.claimBlockCost == 0.0 {
        return PurchaseDisabled, None;
      }
      if count.None? {
        return PriceShown, None;
      }
      var blockCount := count.value;
      if blockCount <= 0 {
        return BuyOutcome.InvalidCount, None;
      }
      var totalCost := blockCount as real * config.claimBlockCost;
      var newClaimBlockTotal := accruedClaimBlocks + blockCount;
      if newClaimBlockTotal > maxAccruedClaimBlocks {
        return OverLimit, None;
      }
      withdrawalAttempted := Some(totalCost);
      if !withdrawSucceeds {
        return WithdrawFailed, withdrawalAttempted;
      }
      accruedClaimBlocks := accruedClaimBlocks + blockCount;
      outcome := Bought;
    }

    /** `/sellclaimblocks [count]`. Only a count between 1 and the player's
        remaining blocks reaches the deposit; a successful deposit of count
        times the sell price takes the blocks from the bonus, which may go
        below zero since the check is against remaining blocks. */
    method SellBlocks(economyPresent: bool, config: EconomyConfig, remainingClaimBlocks: int,
                      count: Option<int>, accountPresent: bool, depositSucceeds: bool)
      returns (outcome: SellOutcome, depositAttempted: Option<real>)
      modifies this
      ensures accruedClaimBlocks == old(accruedClaimBlocks) && claims == old(claims)
      ensures maxAccruedClaimBlocks == old(maxAccruedClaimBlocks)
      ensures outcome == Sold <==>
                economyPresent && config.claimBlockSell != 0.0 && count.Some? &&
                0 < count.value <= remainingClaimBlocks && accountPresent && depositSucceeds
      ensures outcome == Sold ==> bonusClaimBlocks == old(bonusClaimBlocks) - count.value
      ensures outcome != Sold ==> bonusClaimBlocks == old(bonusClaimBlocks)
      ensures depositAttempted.Some? <==> outcome == Sold || outcome == DepositFailed
      ensures depositAttempted.Some? ==>
                count.Some? && 0 < count.value <= remainingClaimBlocks &&
                depositAttempted.value == count.value as real * config.claimBlockSell
      ensures !economyPresent ==> outcome == SellOutcome.NoEconomy
      ensures economyPresent && config.claimBlockSell == 0.0 ==>
                outcome == (if config.claimBlockCost == 0.0 then SellOutcome.TradingDisabled else SaleDisabled)
    {
      if !economyPresent {
        return SellOutcome.NoEconomy, None;
      }
      if config.claimBlockCost == 0.0 && config.claimBlockSell == 0.0 {
        return SellOutcome.TradingDisabled, None;
      }
      if config.claimBlockSell == 0.0 {
        return SaleDisabled, None;
      }
      var availableBlocks := remainingClaimBlocks;
      if count.None? {
        return BalanceShown, None;
      }
      var blockCount := count.value;
      if blockCount <= 0 {
        return SellOutcome.InvalidCount, None;
      } else if blockCount > availableBlocks {
        return NotEnoughBlocks, None;
      }
      var totalValue := blockCount as real * config.claimBlockSell;
      if !accountPresent {
        // `getOrCreateAccount(..).get()` throws on an empty Optional
        return AccountMissing, None;
      }
      depositAttempted := Some(totalValue);
      if !depositSucceeds {
        return DepositFailed, depositAttempted;
      }
      bonusClaimBlocks := bonusClaimBlocks - blockCount;
      outcome := Sold;
    }

    /** `/abandonallclaims`. Unless the player has no claims or the abandon
        event is vetoed, every claim's context permissions are cleared, every
        refundable claim takes its penalty from the accrued blocks, and all
        claims are deleted. */
    method AbandonAll(eventCancelled: bool, ratioBasic: real)
      returns (outcome: AbandonOutcome, permissionsCleared: seq<Uuid>)
      modifies this
      ensures bonusClaimBlocks == old(bonusClaimBlocks) && maxAccruedClaimBlocks == old(maxAccruedClaimBlocks)
      ensures outcome == (if old(claims) == [] then NoClaims else if eventCancelled then Vetoed else Abandoned)
      ensures outcome != Abandoned ==>
                accruedClaimBlocks == old(accruedClaimBlocks) && claims == old(claims) && permissionsCleared == []
      ensures outcome == Abandoned ==>
                accruedClaimBlocks == old(accruedClaimBlocks) - TotalPenalty(old(claims), ratioBasic) &&
                claims == [] &&
                |permissionsCleared| == |old(claims)| &&
                forall i :: 0 <= i < |permissionsCleared| ==> permissionsCleared[i] == old(claims)[i].id
    {
      permissionsCleared := [];
      var originalClaimCount := |claims|;
      if originalClaimCount == 0 {
        return NoClaims, [];
      }
      if eventCancelled {
        return Vetoed, [];
      }
      var i := 0;
      while i < |claims|
        invariant 0 <= i <= |claims| && claims == old(claims)
        invariant accruedClaimBlocks == old(accruedClaimBlocks) - TotalPenalty(claims[..i], ratioBasic)
        invariant |permissionsCleared| == i
        invariant forall j :: 0 <= j < i ==> permissionsCleared[j] == claims[j].id
        invariant bonusClaimBlocks == old(bonusClaimBlocks) && maxAccruedClaimBlocks == old(maxAccruedClaimBlocks)
      {
        var claim := claims[i];
        permissionsCleared := permissionsCleared + [claim.id];
        assert claims[..i + 1] == claims[..i] + [claim];
        TotalPenaltySnoc(claims[..i], claim, ratioBasic);
        if ExemptFromRefund(claim.kind) {
          i := i + 1;
          continue;
        }
        accruedClaimBlocks := accruedClaimBlocks - Ceil(claim.claimBlocks as real * (1.0 - ratioBasic));
        i := i + 1;
      }
      assert claims[..i] == claims;
      claims := [];
      outcome := Abandoned;
    }
  }
}
