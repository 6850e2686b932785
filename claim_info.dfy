/** `/claiminfo`: who may view a claim's information, the size it reports,
    the clickable settings page with its toggles, and the guard on the
    claim-type buttons. Text, hover and pagination are not modelled; the
    settings page is modelled as the list of lines it shows. */
module ClaimInfo {
  import opened Common
  import opened ClaimDataConfig
  import ClaimSell

  // ---------------------------------------------------------------------
  // Viewing

  /** A viewer who is not an administrator (admin-claims permission or
      ignore-claims) and not the owner must be a container, builder or
      manager of the claim, or hold the info-others permission. */
  predicate MayView(s: Settings, player: Uuid, isAdmin: bool, hasInfoOthers: bool)
  {
    isAdmin || s.ownerUniqueId == Some(player) ||
    player in s.containers || player in s.builders || player in s.managers || hasInfoOthers
  }

  /** Accessor trust alone does not open the information of someone else's
      claim, while manager trust does. */
  lemma AccessorAloneCannotView(s: Settings, player: Uuid)
    requires s.ownerUniqueId != Some(player)
    requires player !in s.containers && player !in s.builders && player !in s.managers
    ensures !MayView(s.(accessors := s.accessors + [player]), player, false, false)
    ensures MayView(s.(managers := s.managers + [player]), player, false, false)
  {
    assert (s.managers + [player])[|s.managers|] == player;
  }

  // ---------------------------------------------------------------------
  // Size

  /** The extent of a claim along one axis, both corners included. */
  function AxisSize(greater: int, lesser: int): (r: int)
    ensures r >= 1
  {
    (if greater >= lesser then greater - lesser else lesser - greater) + 1
  }

  /** The block coordinates from `lo` to `hi`, in order. */
  function Span(lo: int, hi: int): (r: seq<int>)
    ensures forall i :: 0 <= i < |r| ==> r[i] == lo + i
    decreases hi - lo
  {
    if lo > hi then [] else [lo] + Span(lo + 1, hi)
  }

  lemma {:induction false} SpanLength(lo: int, hi: int)
    requires lo <= hi + 1
    ensures |Span(lo, hi)| == hi - lo + 1
    decreases hi - lo
  {
    if lo <= hi {
      SpanLength(lo + 1, hi);
    }
  }

  /** The extent is the number of block coordinates between the corners,
      whichever corner is given first, and does not move with the claim. */
  lemma AxisSizeCounts(greater: int, lesser: int, shift: int)
    ensures lesser <= greater ==> AxisSize(greater, lesser) == |Span(lesser, greater)|
    ensures greater <= lesser ==> AxisSize(greater, lesser) == |Span(greater, lesser)|
    ensures AxisSize(greater, lesser) == AxisSize(lesser, greater)
    ensures AxisSize(greater + shift, lesser + shift) == AxisSize(greater, lesser)
  {
    if lesser <= greater {
      SpanLength(lesser, greater);
    } else {
      SpanLength(greater, lesser);
    }
  }

  // ---------------------------------------------------------------------
  // The settings page

  /** The titles a settings line carries; a click reports its title. */
  datatype Setting =
    | ClaimExpiration | DenyMessages | FlagOverrides | InheritParent | PvpOverride
    | Resizable | RequiresClaimBlocks | SizeRestrictions | ForSale | OtherTitle

  /** The claim settings the page shows and the toggles change. */
  datatype Toggles = Toggles(
    inheritParent: bool, expiration: bool, denyMessages: bool, flagOverrides: bool,
    pvp: Tristate, resizable: bool, requiresClaimBlocks: bool, sizeRestrictions: bool)

  function TogglesOf(s: Settings): Toggles
  {
    Toggles(s.inheritParent, s.allowClaimExpiration, s.allowDenyMessages, s.allowFlagOverrides,
            s.pvpOverride, s.isResizable, s.requiresClaimBlocks, s.sizeRestrictions)
  }

  /** `s` with its toggled settings replaced by `t`, and everything else kept. */
  function WithToggles(s: Settings, t: Toggles): (r: Settings)
    ensures TogglesOf(r) == t
  {
    s.(inheritParent := t.inheritParent, allowClaimExpiration := t.expiration,
       allowDenyMessages := t.denyMessages, allowFlagOverrides := t.flagOverrides,
       pvpOverride := t.pvp, isResizable := t.resizable,
       requiresClaimBlocks := t.requiresClaimBlocks, sizeRestrictions := t.sizeRestrictions)
  }

  /** A line of the administrator settings page. */
  datatype SettingLine = ReturnLink | OnOff(title: Setting, on: bool) | PvpLine(state: Tristate) | Blank

  /** Kinds that show (and keep) the size and block settings. */
  predicate Restrictable(kind: ClaimType)
  {
    kind != Admin && kind != Wilderness
  }

  /** The lines before padding, for settings `t` of a claim of kind `kind`
      as read when the page is built. */
  function SettingEntries(t: Toggles, kind: ClaimType): seq<SettingLine>
  {
    [ReturnLink, OnOff(Setting.DenyMessages, t.denyMessages)] +
    (if Restrictable(kind) then
       [OnOff(RequiresClaimBlocks, t.requiresClaimBlocks), OnOff(Setting.ClaimExpiration, t.expiration),
        OnOff(Resizable, t.resizable), OnOff(SizeRestrictions, t.sizeRestrictions)]
     else []) +
    [OnOff(Setting.FlagOverrides, t.flagOverrides), PvpLine(t.pvp)]
  }

  /** The four block and size lines appear exactly for restrictable kinds,
      so there are 8 entries or 4 before padding. */
  lemma SettingEntriesShape(t: Toggles, kind: ClaimType)
    ensures |SettingEntries(t, kind)| == if Restrictable(kind) then 8 else 4
    ensures (exists i :: 0 <= i < |SettingEntries(t, kind)| && SettingEntries(t, kind)[i].OnOff? &&
                         SettingEntries(t, kind)[i].title == Resizable) <==> Restrictable(kind)
  {
    var e := SettingEntries(t, kind);
    if Restrictable(kind) {
      assert e[4] == OnOff(Resizable, t.resizable);
    } else {
      assert e == [ReturnLink, OnOff(Setting.DenyMessages, t.denyMessages),
                   OnOff(Setting.FlagOverrides, t.flagOverrides), PvpLine(t.pvp)];
    }
  }

  /** What reading `hasSizeRestrictions` leaves behind: the flag is cleared
      on kinds that have no size restrictions. */
  function Viewed(t: Toggles, kind: ClaimType): (r: Toggles)
    ensures r.sizeRestrictions == (Restrictable(kind) && t.sizeRestrictions)
    ensures Restrictable(kind) ==> r == t
  {
    t.(sizeRestrictions := Restrictable(kind) && t.sizeRestrictions)
  }

  /** `generateAdminSettings`: the entries, padded with blank lines to a page
      of 16. Reading the size-restriction setting clears it on admin claims
      and the wilderness. */
  method GenerateAdminSettings(claim: ClaimData) returns (lines: seq<SettingLine>)
    requires claim.Valid()
    modifies claim
    ensures claim.Valid() && claim.requiresSave == old(claim.requiresSave) && claim.CachesUnchanged()
    ensures claim.data == WithToggles(old(claim.data), Viewed(TogglesOf(old(claim.data)), old(claim.data.claimType)))
    ensures |lines| == 16
    ensures var e := SettingEntries(TogglesOf(claim.data), claim.data.claimType);
            lines[..|e|] == e && forall i :: |e| <= i < |lines| ==> lines[i] == Blank
  {
    ghost var s0 := claim.data;
    var sizeRestrictions := claim.HasSizeRestrictions();
    ViewedSettings(s0, sizeRestrictions);
    var s := claim.data;
    lines := Entries(s, sizeRestrictions);
    SettingEntriesShape(TogglesOf(s), s.claimType);
    lines := Pad(lines);
  }

  /** The lines `generateAdminSettings` adds before padding, with the size
      restriction as `hasSizeRestrictions` returned it. */
  method Entries(s: Settings, sizeRestrictions: bool) returns (lines: seq<SettingLine>)
    requires sizeRestrictions == s.sizeRestrictions
    ensures lines == SettingEntries(TogglesOf(s), s.claimType)
  {
    lines := [ReturnLink, OnOff(Setting.DenyMessages, s.allowDenyMessages)];
    if Restrictable(s.claimType) {
      lines := lines + [OnOff(RequiresClaimBlocks, s.requiresClaimBlocks), OnOff(Setting.ClaimExpiration, s.allowClaimExpiration),
                        OnOff(Resizable, s.isResizable), OnOff(SizeRestrictions, sizeRestrictions)];
    }
    lines := lines + [OnOff(Setting.FlagOverrides, s.allowFlagOverrides), PvpLine(s.pvpOverride)];
  }

  /** What `hasSizeRestrictions` stores is the viewed toggles. */
  lemma ViewedSettings(s: Settings, r: bool)
    requires r == (Restrictable(s.claimType) && s.sizeRestrictions)
    ensures s.(sizeRestrictions := r) == WithToggles(s, Viewed(TogglesOf(s), s.claimType))
  {
  }

  /** The padding loop of `generateAdminSettings`: blank lines up to 20 less
      the four lines around the page. */
  method Pad(entries: seq<SettingLine>) returns (lines: seq<SettingLine>)
    requires |entries| <= 16
    ensures |lines| == 16
    ensures lines[..|entries|] == entries
    ensures forall i :: |entries| <= i < |lines| ==> lines[i] == Blank
  {
    lines := entries;
    var fillSize := 20 - (|lines| + 4);
    var i := 0;
    while i < fillSize
      invariant 0 <= i <= fillSize
      invariant |lines| == |entries| + i
      invariant lines[..|entries|] == entries
      invariant forall j :: |entries| <= j < |lines| ==> lines[j] == Blank
    {
      lines := lines + [Blank];
      i := i + 1;
    }
  }

  // ---------------------------------------------------------------------
  // Toggles

  /** The PvP override a click moves to: UNDEFINED, TRUE, FALSE, and round. */
  function NextPvp(t: Tristate): Tristate
  {
    match t
    case Undefined => True
    case True => False
    case False => Undefined
  }

  /** Three clicks restore the override, and fewer never do. */
  lemma PvpCycle(t: Tristate)
    ensures NextPvp(NextPvp(NextPvp(t))) == t
    ensures NextPvp(t) != t && NextPvp(NextPvp(t)) != t
  {
  }

  /** Whether a click on `title` is acted on. The inherit toggle needs a
      parent claim and the inherit permission; unknown titles change nothing. */
  predicate Acts(title: Setting, hasParent: bool, canInherit: bool)
  {
    title != OtherTitle && (title == InheritParent ==> hasParent && canInherit)
  }

  /** Whether the click ends by showing the settings page again (all titles
      but the inherit and for-sale toggles, which show the claim info). */
  predicate ShowsSettings(title: Setting)
  {
    title != InheritParent && title != ForSale
  }

  /** The settings after the switch on `title`. Each toggle reads the current
      value through its getter and stores the negation; the inherit toggle
      reads `doesInheritParent` and the size toggle `hasSizeRestrictions`. */
  function Toggled(t: Toggles, kind: ClaimType, title: Setting, hasParent: bool, canInherit: bool): Toggles
  {
    if !Acts(title, hasParent, canInherit) then t
    else
      match title
      case InheritParent => t.(inheritParent := !(kind != Admin && t.inheritParent))
      case ClaimExpiration => t.(expiration := !t.expiration)
      case DenyMessages => t.(denyMessages := !t.denyMessages)
      case FlagOverrides => t.(flagOverrides := !t.flagOverrides)
      case PvpOverride => t.(pvp := NextPvp(t.pvp))
      case Resizable => t.(resizable := !t.resizable)
      case RequiresClaimBlocks => t.(requiresClaimBlocks := !t.requiresClaimBlocks)
      case SizeRestrictions => t.(sizeRestrictions := !(Restrictable(kind) && t.sizeRestrictions))
      case ForSale => t
      case OtherTitle => t
  }

  /** The settings after a whole click, including the page it shows. */
  function AfterClick(t: Toggles, kind: ClaimType, title: Setting, hasParent: bool, canInherit: bool): Toggles
  {
    var t' := Toggled(t, kind, title, hasParent, canInherit);
    if ShowsSettings(title) then Viewed(t', kind) else t'
  }

  /** Replacing the toggled settings twice keeps only the second set, and
      never touches the claim kind. */
  lemma WithTogglesTwice(s: Settings, t1: Toggles, t2: Toggles)
    ensures WithToggles(WithToggles(s, t1), t2) == WithToggles(s, t2)
    ensures WithToggles(s, t1).claimType == s.claimType
  {
  }

  /** The expiration, deny-message and flag-override cases of the switch. */
  method ToggleMessages(claim: ClaimData, title: Setting)
    requires claim.Valid()
    requires title == Setting.ClaimExpiration || title == Setting.DenyMessages || title == Setting.FlagOverrides
    modifies claim
    ensures claim.Valid() && claim.CachesUnchanged() && claim.requiresSave
    ensures claim.data ==
              WithToggles(old(claim.data), Toggled(TogglesOf(old(claim.data)), old(claim.data.claimType), title, true, true))
  {
    if title == Setting.ClaimExpiration {
      claim.SetExpiration(!claim.data.allowClaimExpiration);
    } else if title == Setting.DenyMessages {
      claim.SetDenyMessages(!claim.data.allowDenyMessages);
    } else {
      claim.SetFlagOverrides(!claim.data.allowFlagOverrides);
    }
    claim.SetRequiresSave(true);
  }

  /** The PvP, resize and block-requirement cases of the switch. */
  method ToggleLimits(claim: ClaimData, title: Setting)
    requires claim.Valid()
    requires title == PvpOverride || title == Resizable || title == RequiresClaimBlocks
    modifies claim
    ensures claim.Valid() && claim.CachesUnchanged() && claim.requiresSave
    ensures claim.data ==
              WithToggles(old(claim.data), Toggled(TogglesOf(old(claim.data)), old(claim.data.claimType), title, true, true))
  {
    if title == PvpOverride {
      claim.SetPvpOverride(NextPvp(claim.data.pvpOverride));
    } else if title == Resizable {
      claim.SetResizable(!claim.data.isResizable);
    } else {
      claim.SetRequiresClaimBlocks(!claim.data.requiresClaimBlocks);
    }
    claim.SetRequiresSave(true);
  }

  /** The inherit and size-restriction cases of the switch, which read the
      current value through `doesInheritParent` and `hasSizeRestrictions`. */
  method ToggleDerived(claim: ClaimData, title: Setting)
    requires claim.Valid()
    requires title == InheritParent || title == SizeRestrictions
    modifies claim
    ensures claim.Valid() && claim.CachesUnchanged() && claim.requiresSave
    ensures claim.data ==
              WithToggles(old(claim.data), Toggled(TogglesOf(old(claim.data)), old(claim.data.claimType), title, true, true))
  {
    if title == InheritParent {
      claim.SetInheritParent(!claim.DoesInheritParent());
    } else {
      var sizeRestrictions := claim.HasSizeRestrictions();
      claim.SetSizeRestrictions(!sizeRestrictions);
    }
    claim.SetRequiresSave(true);
  }

  /** A click that is not acted on, and the for-sale click, leave the
      claim's settings as they are. */
  lemma UntoggledKeepsSettings(s: Settings, title: Setting, hasParent: bool, canInherit: bool)
    requires !Acts(title, hasParent, canInherit) || title == ForSale
    ensures WithToggles(s, Toggled(TogglesOf(s), s.claimType, title, hasParent, canInherit)) == s
  {
    assert Toggled(TogglesOf(s), s.claimType, title, hasParent, canInherit) == TogglesOf(s);
  }

  /** The for-sale case of the switch: the offer flips in the economy data
      and the claim is marked for saving. */
  method ToggleSale(claim: ClaimData, economy: ClaimSell.EconomyData)
    requires claim.Valid()
    modifies claim, economy
    ensures claim.Valid() && claim.CachesUnchanged() && claim.requiresSave
    ensures claim.data == old(claim.data)
    ensures economy.forSale == !old(economy.forSale) && economy.salePrice == old(economy.salePrice)
  {
    economy.forSale := !economy.forSale;
    claim.SetRequiresSave(true);
  }

  /** The switch of `createClaimInfoConsumer`. The for-sale toggle flips the
      offer in the claim's economy data. */
  method Toggle(claim: ClaimData, economy: ClaimSell.EconomyData, title: Setting, hasParent: bool, canInherit: bool)
    requires claim.Valid()
    modifies claim, economy
    ensures claim.Valid() && claim.CachesUnchanged()
    ensures claim.data ==
              WithToggles(old(claim.data),
                          Toggled(TogglesOf(old(claim.data)), old(claim.data.claimType), title, hasParent, canInherit))
    ensures claim.requiresSave == (Acts(title, hasParent, canInherit) || old(claim.requiresSave))
    ensures economy.forSale == (if title == ForSale then !old(economy.forSale) else old(economy.forSale))
    ensures economy.salePrice == old(economy.salePrice)
  {
    if !Acts(title, hasParent, canInherit) || title == ForSale {
      UntoggledKeepsSettings(claim.data, title, hasParent, canInherit);
      if title == ForSale {
        ToggleSale(claim, economy);
      }
    } else if title == Setting.ClaimExpiration || title == Setting.DenyMessages || title == Setting.FlagOverrides {
      ToggleMessages(claim, title);
    } else if title == PvpOverride || title == Resizable || title == RequiresClaimBlocks {
      ToggleLimits(claim, title);
    } else {
      ToggleDerived(claim, title);
    }
  }

  /** `createClaimInfoConsumer`: one click on a settings line, then the page
      the click leads to; the settings page is returned when it is shown. */
  method Click(claim: ClaimData, economy: ClaimSell.EconomyData, title: Setting, hasParent: bool, canInherit: bool)
    returns (page: Option<seq<SettingLine>>)
    requires claim.Valid()
    modifies claim, economy
    ensures claim.Valid() && claim.CachesUnchanged()
    ensures claim.data ==
              WithToggles(old(claim.data),
                          AfterClick(TogglesOf(old(claim.data)), old(claim.data.claimType), title, hasParent, canInherit))
    ensures claim.requiresSave == (Acts(title, hasParent, canInherit) || old(claim.requiresSave))
    ensures economy.forSale == (if title == ForSale then !old(economy.forSale) else old(economy.forSale))
    ensures economy.salePrice == old(economy.salePrice)
    ensures page.Some? <==> ShowsSettings(title)
    ensures page.Some? ==> |page.value| == 16
  {
    ghost var s := claim.data;
    ghost var t := Toggled(TogglesOf(s), s.claimType, title, hasParent, canInherit);
    Toggle(claim, economy, title, hasParent, canInherit);
    if !ShowsSettings(title) {
      return None;
    }
    WithTogglesTwice(s, t, Viewed(t, s.claimType));
    var lines := GenerateAdminSettings(claim);
    return Some(lines);
  }

  /** A refused inherit click changes nothing, and an unknown title changes
      only what showing the page reads. */
  lemma RefusedClicksChangeNothing(t: Toggles, kind: ClaimType, hasParent: bool, canInherit: bool)
    ensures !(hasParent && canInherit) ==> AfterClick(t, kind, InheritParent, hasParent, canInherit) == t
    ensures AfterClick(t, kind, OtherTitle, hasParent, canInherit) == Viewed(t, kind)
  {
  }

  /** Each boolean toggle flips exactly its own setting, so two clicks are
      the identity on a claim of a restrictable kind (where showing the page
      clears nothing). */
  lemma ToggleTwiceIsIdentity(t: Toggles, kind: ClaimType, title: Setting)
    requires Restrictable(kind)
    requires title != PvpOverride
    ensures AfterClick(AfterClick(t, kind, title, true, true), kind, title, true, true) == t
  {
    var t1 := Toggled(t, kind, title, true, true);
    assert AfterClick(t, kind, title, true, true) == t1;
    var t2 := Toggled(t1, kind, title, true, true);
    assert AfterClick(t1, kind, title, true, true) == t2;
    match title {
      case InheritParent =>
      case ClaimExpiration =>
      case DenyMessages =>
      case FlagOverrides =>
      case Resizable =>
      case RequiresClaimBlocks =>
      case SizeRestrictions =>
      case ForSale =>
      case OtherTitle =>
    }
  }

  /** Three PvP clicks restore the override on a restrictable claim, and
      nothing else moves. */
  lemma PvpClickThrice(t: Toggles, kind: ClaimType)
    requires Restrictable(kind)
    ensures AfterClick(t, kind, PvpOverride, true, true) == t.(pvp := NextPvp(t.pvp))
    ensures AfterClick(AfterClick(AfterClick(t, kind, PvpOverride, true, true), kind, PvpOverride, true, true),
                       kind, PvpOverride, true, true) == t
  {
    PvpCycle(t.pvp);
  }

  /** On an admin claim the toggles are not involutions: the inherit toggle
      reads the getter, which is always false there, so every click stores
      true; and size restrictions read as off, so they stay off. */
  lemma AdminClaimToggles(t: Toggles)
    ensures AfterClick(t, Admin, InheritParent, true, true).inheritParent
    ensures AfterClick(AfterClick(t, Admin, InheritParent, true, true), Admin, InheritParent, true, true).inheritParent
    ensures !AfterClick(t, Admin, SizeRestrictions, true, true).sizeRestrictions
  {
  }

  // ---------------------------------------------------------------------
  // Claim type buttons

  /** How a click on a claim-type button ends. */
  datatype TypeClick = IgnoredNonPlayer | NotYourClaim | TypeChanged | TypeChangeFailed

  /** `createClaimTypeConsumer`: only players, and among them only
      administrators or players allowed to edit, reach `changeType`, whose
      success is an input. */
  function ClickType(isPlayer: bool, isAdmin: bool, editDenied: bool, changeSucceeds: bool): (r: TypeClick)
    ensures (r == TypeChanged || r == TypeChangeFailed) <==> isPlayer && (isAdmin || !editDenied)
    ensures r == TypeChanged <==> isPlayer && (isAdmin || !editDenied) && changeSucceeds
  {
    if !isPlayer then IgnoredNonPlayer
    else if !isAdmin && editDenied then NotYourClaim
    else if changeSucceeds then TypeChanged
    else TypeChangeFailed
  }
}
