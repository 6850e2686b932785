/** `/transferclaim`: who may hand the claim they stand in to another player.
    The ownership change itself, the claim lookup, the manager-trust check
    and the permission service are inputs. */
module ClaimTransfer {
  import opened Common

  /** What the claim's `transferOwner` reports. */
  datatype TransferResult = Success | InsufficientClaimBlocks | WrongClaimType | ClaimEventCancelled | OtherFailure

  /** The ways the command ends. */
  datatype Outcome =
    | TargetNotValid
    | NoClaimHere
    | AdminClaimPermissionDenied
    | NotYourClaim
    | TransferFailed(reason: TransferResult)
    | Transferred

  /** The player's standing towards the claim, as the command consults it. */
  datatype Standing = Standing(
    canIgnoreClaim: bool,        // the player data's `canIgnoreClaim`
    hasAdminClaimsPermission: bool,
    isOwner: bool,               // the player's UUID equals the claim's owner
    isManager: bool,             // trusted at manager level
    hasParent: bool)             // the claim is a child claim

  /** The rejection chain of the command: `None` when the player may go on
      to `transferOwner`, else the rejection. */
  function Check(kind: ClaimType, s: Standing): (r: Option<Outcome>)
    ensures r.Some? ==> r.value == AdminClaimPermissionDenied || r.value == NotYourClaim
  {
    if !s.canIgnoreClaim && kind == Admin && !s.hasAdminClaimsPermission then Some(AdminClaimPermissionDenied)
    else if !s.canIgnoreClaim && !s.isOwner && s.isManager then
      (if !s.hasParent then Some(NotYourClaim) else None)
    else if !s.canIgnoreClaim && kind != Admin && !s.isOwner then Some(NotYourClaim)
    else None
  }

  /** The command. `target` is the named user, `kind` the kind of the claim
      at the player's location (None for none), and `transfer` what
      `transferOwner` would report if it were called. */
  function Execute(target: Option<Uuid>, kind: Option<ClaimType>, s: Standing, transfer: TransferResult): Outcome
  {
    if target.None? then TargetNotValid
    else if kind.None? || kind.value == Wilderness then NoClaimHere
    else if Check(kind.value, s).Some? then Check(kind.value, s).value
    else if transfer == Success then Transferred
    else TransferFailed(transfer)
  }

  /** Who may transfer, stated outright: anyone who can ignore claims; for
      an admin claim, holders of the admin-claims permission except a
      non-owning manager of a top-level claim; for any other claim, the
      owner, or a manager of a child claim. */
  predicate MayTransfer(kind: ClaimType, s: Standing)
  {
    s.canIgnoreClaim ||
    (kind == Admin && s.hasAdminClaimsPermission && (s.isOwner || !s.isManager || s.hasParent)) ||
    (kind != Admin && (s.isOwner || (s.isManager && s.hasParent)))
  }

  /** The rejection chain lets exactly the players of `MayTransfer` through. */
  lemma CheckMatchesMayTransfer(kind: ClaimType, s: Standing)
    ensures Check(kind, s).None? <==> MayTransfer(kind, s)
  {
  }

  /** `transferOwner` is reached only when the player is allowed, and its
      answer decides the outcome; every failure kind is reported as such. */
  lemma TransferReachedOnlyWhenAllowed(target: Option<Uuid>, kind: Option<ClaimType>, s: Standing, transfer: TransferResult)
    ensures var r := Execute(target, kind, s, transfer);
            (r.Transferred? || r.TransferFailed?) <==>
              target.Some? && kind.Some? && kind.value != Wilderness && MayTransfer(kind.value, s)
    ensures var r := Execute(target, kind, s, transfer);
            r.Transferred? <==>
              target.Some? && kind.Some? && kind.value != Wilderness && MayTransfer(kind.value, s) && transfer == Success
    ensures Execute(target, kind, s, transfer).TransferFailed? ==> Execute(target, kind, s, transfer).reason == transfer
  {
    if target.Some? && kind.Some? && kind.value != Wilderness {
      CheckMatchesMayTransfer(kind.value, s);
    }
  }

  /** A missing target, a missing claim and the wilderness are refused
      whoever asks. */
  lemma WildernessNeverTransferred(target: Option<Uuid>, s: Standing, transfer: TransferResult)
    ensures Execute(None, Some(Wilderness), s, transfer) == TargetNotValid
    ensures target.Some? ==> Execute(target, Some(Wilderness), s, transfer) == NoClaimHere
    ensures target.Some? ==> Execute(target, None, s, transfer) == NoClaimHere
  {
  }

  /** A manager who does not own the claim may transfer a child claim but
      not a top-level one; on a top-level admin claim this refuses even a
      manager who holds the admin-claims permission, which the same player
      without manager trust would pass. */
  lemma ManagerNeedsChildClaim(kind: ClaimType, s: Standing)
    requires !s.canIgnoreClaim && !s.isOwner && s.isManager
    requires kind != Admin || s.hasAdminClaimsPermission
    ensures Check(kind, s).None? <==> s.hasParent
    ensures kind == Admin && !s.hasParent ==>
              Check(kind, s) == Some(NotYourClaim) && Check(kind, s.(isManager := false)).None?
  {
  }
}
