/** `/untrust`: revoking a user's or a group's trust on the claim the player
    stands in. Claim lookup, permission and group subjects, and the trust
    event's veto are inputs. */
module Untrust {
  import opened Common
  import opened ClaimDataConfig

  /** A user as the command sees one: identifier and display name. */
  datatype UserRef = UserRef(id: Uuid, name: string)

  /** Who is being untrusted. */
  datatype Target = UserTarget(user: UserRef) | GroupTarget(group: string)

  /** The ways the command ends. */
  datatype Outcome =
    | GroupArgumentMissing    // `group.equalsIgnoreCase` on a null group throws
    | CannotUntrustSelf
    | NoClaimHere
    | OwnerCannotBeUntrusted
    | NoPermission
    | Vetoed
    | InvalidGroup
    | Revoked(message: string)   // confirmed with `message`

  /** The user argument wins; otherwise the group argument, where `public`
      and `all` in any case mean the public user. A missing group argument
      (with no user) throws before anything else happens. */
  function ResolveTarget(user: Option<UserRef>, group: Option<string>, publicUser: UserRef): (r: Option<Target>)
    ensures user.Some? ==> r == Some(UserTarget(user.value))
    ensures user.None? && group.None? ==> r.None?
    ensures user.None? && group.Some? ==>
              r.Some? &&
              (r.value.UserTarget? <==> EqualsIgnoreCase(group.value, "public") || EqualsIgnoreCase(group.value, "all")) &&
              (r.value.UserTarget? ==> r.value.user == publicUser) &&
              (r.value.GroupTarget? ==> r.value.group == group.value)
  {
    if user.Some? then Some(UserTarget(user.value))
    else if group.None? then None
    else if EqualsIgnoreCase(group.value, "public") || EqualsIgnoreCase(group.value, "all") then Some(UserTarget(publicUser))
    else Some(GroupTarget(group.value))
  }

  /** Every spelling of `public` selects the public user. */
  lemma PublicInAnyCase(publicUser: UserRef)
    ensures ResolveTarget(None, Some("PUBLIC"), publicUser) == Some(UserTarget(publicUser))
    ensures ResolveTarget(None, Some("All"), publicUser) == Some(UserTarget(publicUser))
    ensures ResolveTarget(None, Some("builders"), publicUser) == Some(GroupTarget("builders"))
  {
    assert EqualsIgnoreCase("PUBLIC", "public");
    assert EqualsIgnoreCase("All", "all");
    assert !EqualsIgnoreCase("builders", "public") by { assert |"builders"| != |"public"|; }
    assert !EqualsIgnoreCase("builders", "all");
  }

  /** The owner the command protects: the claim's own owner, or for an
      owner-less subdivision its parent's owner. */
  function EffectiveOwner(owner: Option<Uuid>, kind: ClaimType, parentOwner: Option<Uuid>): (r: Option<Uuid>)
    ensures owner.Some? ==> r == owner
    ensures owner.None? && kind == Subdivision ==> r == parentOwner
    ensures owner.None? && kind != Subdivision ==> r.None?
  {
    if owner.None? && kind == Subdivision then parentOwner else owner
  }

  /** The settings after one occurrence of `u` is removed from the user
      list of each level in `levels`, in order. */
  function WithoutUser(s: Settings, levels: seq<TrustType>, u: Uuid): Settings
    decreases |levels|
  {
    if levels == [] then s
    else
      var before := WithoutUser(s, levels[..|levels| - 1], u);
      var t := levels[|levels| - 1];
      WithUserList(before, t, RemoveFirst(UserList(before, t), u))
  }

  function WithoutGroup(s: Settings, levels: seq<TrustType>, g: string): Settings
    decreases |levels|
  {
    if levels == [] then s
    else
      var before := WithoutGroup(s, levels[..|levels| - 1], g);
      var t := levels[|levels| - 1];
      WithGroupList(before, t, RemoveFirst(GroupList(before, t), g))
  }

  /** One more level of a prefix: the loop step of the command. */
  lemma WithoutUserPrefix(s: Settings, levels: seq<TrustType>, i: nat, u: Uuid)
    requires i < |levels|
    ensures WithoutUser(s, levels[..i + 1], u) ==
            var s' := WithoutUser(s, levels[..i], u); WithUserList(s', levels[i], RemoveFirst(UserList(s', levels[i]), u))
  {
    assert levels[..i + 1][..i] == levels[..i];
  }

  lemma WithoutGroupPrefix(s: Settings, levels: seq<TrustType>, i: nat, g: string)
    requires i < |levels|
    ensures WithoutGroup(s, levels[..i + 1], g) ==
            var s' := WithoutGroup(s, levels[..i], g); WithGroupList(s', levels[i], RemoveFirst(GroupList(s', levels[i]), g))
  {
    assert levels[..i + 1][..i] == levels[..i];
  }

  /** What the removals over `levels` do to the list of level `t` alone:
      one copy of `x` goes for each occurrence of `t` in `levels`. */
  function LevelRemovals<T(==)>(list: seq<T>, levels: seq<TrustType>, x: T, t: TrustType): seq<T>
  {
    if levels == [] then list
    else
      var before := LevelRemovals(list, levels[..|levels| - 1], x, t);
      if levels[|levels| - 1] == t then RemoveFirst(before, x) else before
  }

  /** Over distinct levels, the list of `t` loses one copy of `x` when `t`
      is among them and is untouched otherwise. */
  lemma {:induction false} LevelRemovalsDistinct<T>(list: seq<T>, levels: seq<TrustType>, x: T, t: TrustType)
    requires forall i, j :: 0 <= i < j < |levels| ==> levels[i] != levels[j]
    ensures LevelRemovals(list, levels, x, t) == if t in levels then RemoveFirst(list, x) else list
    decreases |levels|
  {
    if levels != [] {
      var init, last := levels[..|levels| - 1], levels[|levels| - 1];
      LevelRemovalsDistinct(list, init, x, t);
      assert t in levels <==> t in init || t == last by {
        assert levels == init + [last];
      }
      if t == last {
        assert t !in init;
      }
    }
  }

  /** One level of `WithoutUser`: only the list of the last level changes. */
  lemma WithoutUserStep(s: Settings, levels: seq<TrustType>, u: Uuid, t: TrustType)
    requires levels != []
    ensures var before := WithoutUser(s, levels[..|levels| - 1], u);
            UserList(WithoutUser(s, levels, u), t) ==
              if t == levels[|levels| - 1] then RemoveFirst(UserList(before, t), u) else UserList(before, t)
    ensures GroupList(WithoutUser(s, levels, u), t) == GroupList(WithoutUser(s, levels[..|levels| - 1], u), t)
  {
    var before := WithoutUser(s, levels[..|levels| - 1], u);
    var last := levels[|levels| - 1];
    WithUserListKeepsOthers(before, last, RemoveFirst(UserList(before, last), u), t);
  }

  /** Untrusting a user over the distinct levels `levels` removes exactly
      one occurrence of the user from each of those lists, leaves the other
      user lists and every group list alone. */
  lemma {:induction false} WithoutUserTracks(s: Settings, levels: seq<TrustType>, u: Uuid, t: TrustType)
    ensures UserList(WithoutUser(s, levels, u), t) == LevelRemovals(UserList(s, t), levels, u, t)
    decreases |levels|
  {
    if levels != [] {
      WithoutUserTracks(s, levels[..|levels| - 1], u, t);
      WithoutUserStep(s, levels, u, t);
    }
  }

  lemma WithoutUserEffect(s: Settings, levels: seq<TrustType>, u: Uuid, t: TrustType)
    requires forall i, j :: 0 <= i < j < |levels| ==> levels[i] != levels[j]
    ensures UserList(WithoutUser(s, levels, u), t) == if t in levels then RemoveFirst(UserList(s, t), u) else UserList(s, t)
  {
    WithoutUserTracks(s, levels, u, t);
    LevelRemovalsDistinct(UserList(s, t), levels, u, t);
  }

  lemma {:induction false} WithoutUserKeepsGroups(s: Settings, levels: seq<TrustType>, u: Uuid, t: TrustType)
    ensures GroupList(WithoutUser(s, levels, u), t) == GroupList(s, t)
    decreases |levels|
  {
    if levels != [] {
      WithoutUserKeepsGroups(s, levels[..|levels| - 1], u, t);
      WithoutUserStep(s, levels, u, t);
    }
  }

  /** One level of `WithoutGroup`: only the list of the last level changes. */
  lemma WithoutGroupStep(s: Settings, levels: seq<TrustType>, g: string, t: TrustType)
    requires levels != []
    ensures var before := WithoutGroup(s, levels[..|levels| - 1], g);
            GroupList(WithoutGroup(s, levels, g), t) ==
              if t == levels[|levels| - 1] then RemoveFirst(GroupList(before, t), g) else GroupList(before, t)
    ensures UserList(WithoutGroup(s, levels, g), t) == UserList(WithoutGroup(s, levels[..|levels| - 1], g), t)
  {
    var before := WithoutGroup(s, levels[..|levels| - 1], g);
    var last := levels[|levels| - 1];
    WithGroupListKeepsOthers(before, last, RemoveFirst(GroupList(before, last), g), t);
  }

  lemma {:induction false} WithoutGroupTracks(s: Settings, levels: seq<TrustType>, g: string, t: TrustType)
    ensures GroupList(WithoutGroup(s, levels, g), t) == LevelRemovals(GroupList(s, t), levels, g, t)
    decreases |levels|
  {
    if levels != [] {
      WithoutGroupTracks(s, levels[..|levels| - 1], g, t);
      WithoutGroupStep(s, levels, g, t);
    }
  }

  lemma WithoutGroupEffect(s: Settings, levels: seq<TrustType>, g: string, t: TrustType)
    requires forall i, j :: 0 <= i < j < |levels| ==> levels[i] != levels[j]
    ensures GroupList(WithoutGroup(s, levels, g), t) == if t in levels then RemoveFirst(GroupList(s, t), g) else GroupList(s, t)
  {
    WithoutGroupTracks(s, levels, g, t);
    LevelRemovalsDistinct(GroupList(s, t), levels, g, t);
  }

  lemma {:induction false} WithoutGroupKeepsUsers(s: Settings, levels: seq<TrustType>, g: string, t: TrustType)
    ensures UserList(WithoutGroup(s, levels, g), t) == UserList(s, t)
    decreases |levels|
  {
    if levels != [] {
      WithoutGroupKeepsUsers(s, levels[..|levels| - 1], g, t);
      WithoutGroupStep(s, levels, g, t);
    }
  }

  /** Over distinct levels that include `t`, the list of `t` loses one
      copy of `u` and the other kind of list is kept. */
  lemma UserRemovalOver(s: Settings, levels: seq<TrustType>, u: Uuid, t: TrustType)
    requires forall i, j :: 0 <= i < j < |levels| ==> levels[i] != levels[j]
    requires t in levels
    ensures multiset(UserList(WithoutUser(s, levels, u), t)) == multiset(UserList(s, t)) - multiset{u}
    ensures GroupList(WithoutUser(s, levels, u), t) == GroupList(s, t)
  {
    WithoutUserEffect(s, levels, u, t);
    WithoutUserKeepsGroups(s, levels, u, t);
    RemoveFirstContents(UserList(s, t), u);
  }

  /** After untrusting a user, each trust list holds one copy fewer of the
      user if it had any, and every other entry is kept. */
  lemma UntrustUserRemovesOneCopyEverywhere(s: Settings, u: Uuid, t: TrustType)
    ensures multiset(UserList(WithoutUser(s, AllTrustTypes, u), t)) ==
            multiset(UserList(s, t)) - multiset{u}
    ensures GroupList(WithoutUser(s, AllTrustTypes, u), t) == GroupList(s, t)
  {
    AllTrustTypesDistinct();
    UserRemovalOver(s, AllTrustTypes, u, t);
  }

  /** Over distinct levels that include `t`, the list of `t` loses one
      copy of `g` and the other kind of list is kept. */
  lemma GroupRemovalOver(s: Settings, levels: seq<TrustType>, g: string, t: TrustType)
    requires forall i, j :: 0 <= i < j < |levels| ==> levels[i] != levels[j]
    requires t in levels
    ensures multiset(GroupList(WithoutGroup(s, levels, g), t)) == multiset(GroupList(s, t)) - multiset{g}
    ensures UserList(WithoutGroup(s, levels, g), t) == UserList(s, t)
  {
    WithoutGroupEffect(s, levels, g, t);
    WithoutGroupKeepsUsers(s, levels, g, t);
    RemoveFirstContents(GroupList(s, t), g);
  }

  /** After untrusting a group, each group list holds one copy fewer of the
      group if it had any, and every user list is kept. */
  lemma UntrustGroupRemovesOneCopyEverywhere(s: Settings, g: string, t: TrustType)
    ensures multiset(GroupList(WithoutGroup(s, AllTrustTypes, g), t)) ==
            multiset(GroupList(s, t)) - multiset{g}
    ensures UserList(WithoutGroup(s, AllTrustTypes, g), t) == UserList(s, t)
  {
    AllTrustTypesDistinct();
    GroupRemovalOver(s, AllTrustTypes, g, t);
  }

  /** The name the confirmation uses for a target. */
  function Subject(target: Target): string
  {
    if target.UserTarget? then target.user.name else target.group
  }

  /** The text the confirmation puts after the target's name. */
  const AccessSuffix: string := "'s access to this claim.  To unset permissions for ALL your claims, use /untrustall."

  /** The confirmation the command means to send. */
  function RevokedMessage(target: Target): string
  {
    "Revoked " + Subject(target) + AccessSuffix
  }

  /** The confirmation is "Revoked ", the target's name, user or group,
      and the fixed suffix, so it names every target. */
  lemma RevokedMessageNamesSubject(target: Target)
    ensures var m := RevokedMessage(target);
            var n := |Subject(target)|;
            8 + n <= |m| && m[..8] == "Revoked " && m[8..8 + n] == Subject(target) && m[8 + n..] == AccessSuffix
  {
    var head, name := "Revoked ", Subject(target);
    var m := head + (name + AccessSuffix);
    assert RevokedMessage(target) == m;
    assert m[..8] == head;
    assert m[8..] == name + AccessSuffix;
  }

  /** The confirmation as written: string concatenation binds tighter than
      `!=`, so the condition tests `"Revoked " + user`, which is never null.
      The result is the bare user name, and a null user (the group path)
      throws. None stands for the exception. */
  function RevokedMessageAsWritten(user: Option<UserRef>, group: Option<string>): (r: Option<string>)
    ensures user.Some? ==> r == Some(user.value.name)
    ensures user.None? ==> r.None?
  {
    // The condition is `"Revoked " + user != null`, a non-null string, so
    // the else branch (the group's message) is never taken.
    if user.None? then None else Some(user.value.name)
  }

  /** The group path reaches the confirmation and throws instead, and the
      user path reports only the name. */
  lemma RevokedMessageDiscrepancy(group: string, user: UserRef)
    ensures RevokedMessageAsWritten(None, Some(group)).None?
    ensures RevokedMessage(GroupTarget(group))[..8] == "Revoked "
    ensures RevokedMessageAsWritten(Some(user), None) != Some(RevokedMessage(UserTarget(user)))
  {
    var m := RevokedMessage(UserTarget(user));
    assert |m| > |user.name|;
  }

  /** One pass of the user loop: level `levels[i]` loses one occurrence. */
  method RemoveUserAt(claim: ClaimData, ghost s0: Settings, levels: seq<TrustType>, i: nat, u: Uuid)
    requires claim.Valid() && i < |levels| && claim.data == WithoutUser(s0, levels[..i], u)
    modifies claim
    ensures claim.Valid() && claim.requiresSave == old(claim.requiresSave) && claim.CachesUnchanged()
    ensures claim.data == WithoutUser(s0, levels[..i + 1], u)
  {
    WithoutUserPrefix(s0, levels, i, u);
    claim.RemoveUserTrust(levels[i], u);
  }

  /** One pass of the group loop: level `levels[i]` loses one occurrence. */
  method RemoveGroupAt(claim: ClaimData, ghost s0: Settings, levels: seq<TrustType>, i: nat, g: string)
    requires claim.Valid() && i < |levels| && claim.data == WithoutGroup(s0, levels[..i], g)
    modifies claim
    ensures claim.Valid() && claim.requiresSave == old(claim.requiresSave) && claim.CachesUnchanged()
    ensures claim.data == WithoutGroup(s0, levels[..i + 1], g)
  {
    WithoutGroupPrefix(s0, levels, i, g);
    claim.RemoveGroupTrust(levels[i], g);
  }

  /** The user loop: one occurrence of `u` leaves the user list of each
      level in `levels` (the command passes every level). */
  method RemoveUserFrom(claim: ClaimData, levels: seq<TrustType>, u: Uuid)
    requires claim.Valid()
    modifies claim
    ensures claim.Valid() && claim.requiresSave == old(claim.requiresSave) && claim.CachesUnchanged()
    ensures claim.data == WithoutUser(old(claim.data), levels, u)
  {
    ghost var s0 := claim.data;
    var i := 0;
    assert levels[..i] == [];
    while i < |levels|
      invariant 0 <= i <= |levels|
      invariant claim.Valid() && claim.CachesUnchanged() && claim.requiresSave == old(claim.requiresSave)
      invariant claim.data == WithoutUser(s0, levels[..i], u)
    {
      RemoveUserAt(claim, s0, levels, i, u);
      i := i + 1;
    }
    assert levels[..i] == levels;
  }

  /** The group loops: one occurrence of `g` leaves each level's group list;
      the invalid-group path also marks the record dirty on every pass. */
  method RemoveGroupFrom(claim: ClaimData, levels: seq<TrustType>, g: string, markDirty: bool)
    requires claim.Valid()
    modifies claim
    ensures claim.Valid() && claim.CachesUnchanged()
    ensures claim.requiresSave == ((markDirty && levels != []) || old(claim.requiresSave))
    ensures claim.data == WithoutGroup(old(claim.data), levels, g)
  {
    ghost var s0 := claim.data;
    ghost var dirty0 := claim.requiresSave;
    var i := 0;
    while i < |levels|
      invariant 0 <= i <= |levels|
      invariant claim.Valid() && claim.CachesUnchanged()
      invariant claim.requiresSave == ((markDirty && i > 0) || dirty0)
      invariant claim.data == WithoutGroup(s0, levels[..i], g)
    {
      RemoveGroupAt(claim, s0, levels, i, g);
      if markDirty {
        claim.SetRequiresSave(true);
      }
      i := i + 1;
    }
    assert levels[..i] == levels;
  }

  /** The checks a resolved target passes before anything is removed: not
      the player themself, not the claim's effective owner, and the player
      may grant on the claim or ignore it. */
  predicate Permitted(player: Uuid, target: Target, owner: Option<Uuid>, grantDenied: bool, canIgnoreClaim: bool)
  {
    (target.UserTarget? ==> target.user.id != player && Some(target.user.id) != owner) &&
    (!grantDenied || canIgnoreClaim)
  }

  /** The settings after the target's trust is removed from every level. */
  function Untrusted(s: Settings, target: Target): Settings
  {
    match target
    case UserTarget(user) => WithoutUser(s, AllTrustTypes, user.id)
    case GroupTarget(g) => WithoutGroup(s, AllTrustTypes, g)
  }

  /** The outcome the command reaches, given the resolved inputs: the
      claim's presence, its effective owner, the permission answers, whether
      the group subject exists and whether the trust event is vetoed. */
  function Decide(player: Uuid, target: Option<Target>, claimPresent: bool, owner: Option<Uuid>,
                  grantDenied: bool, canIgnoreClaim: bool, groupExists: bool, eventCancelled: bool): Outcome
  {
    if target.None? then GroupArgumentMissing
    else if target.value.UserTarget? && target.value.user.id == player then CannotUntrustSelf
    else if !claimPresent then NoClaimHere
    else if target.value.UserTarget? && Some(target.value.user.id) == owner then OwnerCannotBeUntrusted
    else if grantDenied && !canIgnoreClaim then NoPermission
    else DecideRemoval(target.value, groupExists, eventCancelled)
  }

  /** The outcome once every check has passed. */
  function DecideRemoval(target: Target, groupExists: bool, eventCancelled: bool): Outcome
  {
    if target.GroupTarget? && !groupExists then InvalidGroup
    else if eventCancelled then Vetoed
    else Revoked(RevokedMessage(target))
  }

  /** Trust is revoked exactly when a target was named, the player stands
      in a claim, every check passes, a named group exists and no listener
      vetoes; the confirmation names the target. */
  lemma DecideRevoked(player: Uuid, target: Option<Target>, claimPresent: bool, owner: Option<Uuid>,
                      grantDenied: bool, canIgnoreClaim: bool, groupExists: bool, eventCancelled: bool)
    ensures var o := Decide(player, target, claimPresent, owner, grantDenied, canIgnoreClaim, groupExists, eventCancelled);
            (o.Revoked? <==>
               target.Some? && claimPresent && Permitted(player, target.value, owner, grantDenied, canIgnoreClaim) &&
               (target.value.GroupTarget? ==> groupExists) && !eventCancelled) &&
            (o.Revoked? ==> o.message == RevokedMessage(target.value))
  {
  }

  /** An unknown group is purged from the lists whatever the event would
      say: the group path reaches it before the event is posted. */
  lemma DecideInvalidGroup(player: Uuid, target: Option<Target>, claimPresent: bool, owner: Option<Uuid>,
                           grantDenied: bool, canIgnoreClaim: bool, groupExists: bool, eventCancelled: bool)
    ensures Decide(player, target, claimPresent, owner, grantDenied, canIgnoreClaim, groupExists, eventCancelled) == InvalidGroup <==>
            target.Some? && target.value.GroupTarget? && claimPresent &&
            Permitted(player, target.value, owner, grantDenied, canIgnoreClaim) && !groupExists
  {
  }

  /** The player is refused on their own name before the claim is looked
      up, and the owner is refused before permissions are consulted. */
  lemma DecideRefusals(player: Uuid, target: Option<Target>, claimPresent: bool, owner: Option<Uuid>,
                       grantDenied: bool, canIgnoreClaim: bool, groupExists: bool, eventCancelled: bool)
    ensures target.Some? && target.value.UserTarget? && target.value.user.id == player ==>
              Decide(player, target, claimPresent, owner, grantDenied, canIgnoreClaim, groupExists, eventCancelled) == CannotUntrustSelf
    ensures target.Some? && target.value.UserTarget? && target.value.user.id != player && claimPresent &&
            Some(target.value.user.id) == owner ==>
              Decide(player, target, claimPresent, owner, grantDenied, canIgnoreClaim, groupExists, eventCancelled) == OwnerCannotBeUntrusted
  {
  }

  /** Whether an outcome has removed the target from the claim's lists. */
  predicate Removes(o: Outcome)
  {
    o.Revoked? || o == InvalidGroup
  }

  /** The trust permissions unset on the group's subject in the claim's
      context: every level, in loop order, when a group's trust is revoked,
      and none otherwise. */
  function PermissionsUnset(target: Target, outcome: Outcome): (levels: seq<TrustType>)
    ensures |levels| > 0 <==> target.GroupTarget? && outcome.Revoked?
    ensures |levels| > 0 ==> levels == AllTrustTypes
  {
    if target.GroupTarget? && outcome.Revoked? then AllTrustTypes else []
  }

  /** The part of the command after the checks: an unknown group is purged
      from every list at once (marking the record on each pass); otherwise
      the trust event is posted, and unless a listener vetoes it the target
      leaves every list and the record is marked for saving. A revoked
      group also has every trust permission unset on its subject in the
      claim's context; `unset` lists those levels. */
  method Revoke(claim: ClaimData, target: Target, groupExists: bool, eventCancelled: bool)
    returns (outcome: Outcome, unset: seq<TrustType>)
    requires claim.Valid()
    modifies claim
    ensures outcome == DecideRemoval(target, groupExists, eventCancelled)
    ensures unset == PermissionsUnset(target, outcome)
    ensures claim.Valid() && claim.CachesUnchanged()
    ensures claim.requiresSave == (Removes(outcome) || old(claim.requiresSave))
    ensures claim.data == if Removes(outcome) then Untrusted(old(claim.data), target) else old(claim.data)
  {
    match target {
      case UserTarget(u) =>
        outcome := RevokeUser(claim, u, eventCancelled);
        unset := [];
      case GroupTarget(g) =>
        outcome, unset := RevokeGroup(claim, g, groupExists, eventCancelled);
    }
  }

  method RevokeUser(claim: ClaimData, u: UserRef, eventCancelled: bool) returns (outcome: Outcome)
    requires claim.Valid()
    modifies claim
    ensures outcome == DecideRemoval(UserTarget(u), true, eventCancelled)
    ensures claim.Valid() && claim.CachesUnchanged()
    ensures claim.requiresSave == (Removes(outcome) || old(claim.requiresSave))
    ensures claim.data == if Removes(outcome) then WithoutUser(old(claim.data), AllTrustTypes, u.id) else old(claim.data)
  {
    if eventCancelled {
      return Vetoed;
    }
    RemoveUserFrom(claim, AllTrustTypes, u.id);
    claim.SetRequiresSave(true);
    return Revoked(RevokedMessage(UserTarget(u)));
  }

  method RevokeGroup(claim: ClaimData, g: string, groupExists: bool, eventCancelled: bool)
    returns (outcome: Outcome, unset: seq<TrustType>)
    requires claim.Valid()
    modifies claim
    ensures outcome == DecideRemoval(GroupTarget(g), groupExists, eventCancelled)
    ensures unset == PermissionsUnset(GroupTarget(g), outcome)
    ensures claim.Valid() && claim.CachesUnchanged()
    ensures claim.requiresSave == (Removes(outcome) || old(claim.requiresSave))
    ensures claim.data == if Removes(outcome) then WithoutGroup(old(claim.data), AllTrustTypes, g) else old(claim.data)
  {
    unset := [];
    if groupExists && eventCancelled {
      return Vetoed, unset;
    }
    RemoveGroupFrom(claim, AllTrustTypes, g, !groupExists);
    if !groupExists {
      return InvalidGroup, unset;
    }
    unset := AllTrustTypes;
    claim.SetRequiresSave(true);
    return Revoked(RevokedMessage(GroupTarget(g))), unset;
  }

  /** The command. `claim` is the claim at the player's location (null for
      none); the permission service, the group subject lookup and the
      trust event's veto are inputs. `unset` lists the trust permissions
      unset on a revoked group's subject in the claim's context. */
  method Execute(player: Uuid, user: Option<UserRef>, group: Option<string>, publicUser: UserRef,
                 claim: ClaimData?, parentOwner: Option<Uuid>,
                 grantDenied: bool, canIgnoreClaim: bool, groupExists: bool, eventCancelled: bool)
    returns (outcome: Outcome, unset: seq<TrustType>)
    requires claim != null ==> claim.Valid()
    modifies claim
    ensures outcome ==
              Decide(player, ResolveTarget(user, group, publicUser), claim != null,
                     if claim == null then None
                     else EffectiveOwner(old(claim.data.ownerUniqueId), old(claim.data.claimType), parentOwner),
                     grantDenied, canIgnoreClaim, groupExists, eventCancelled)
    ensures claim != null ==> claim.Valid() && claim.CachesUnchanged()
    ensures claim != null && Removes(outcome) ==>
              claim.requiresSave && claim.data == Untrusted(old(claim.data), ResolveTarget(user, group, publicUser).value)
    ensures claim != null && !Removes(outcome) ==>
              claim.data == old(claim.data) && claim.requiresSave == old(claim.requiresSave)
    ensures unset == if outcome.Revoked? then PermissionsUnset(ResolveTarget(user, group, publicUser).value, outcome) else []
  {
    unset := [];
    var target := ResolveTarget(user, group, publicUser);
    if target.None? {
      return GroupArgumentMissing, unset;
    }
    if target.value.UserTarget? && target.value.user.id == player {
      return CannotUntrustSelf, unset;
    }
    if claim == null {
      return NoClaimHere, unset;
    }
    var ownerId := EffectiveOwner(claim.data.ownerUniqueId, claim.data.claimType, parentOwner);
    if target.value.UserTarget? && Some(target.value.user.id) == ownerId {
      return OwnerCannotBeUntrusted, unset;
    }
    if grantDenied && !canIgnoreClaim {
      return NoPermission, unset;
    }
    outcome, unset := Revoke(claim, target.value, groupExists, eventCancelled);
  }
}
