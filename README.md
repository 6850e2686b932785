# GriefPrevention claim rules in Dafny

This project models the self-contained rules of the GriefPrevention land-claim
plugin for Sponge and proves properties of them. Each Dafny module follows
one part of the plugin:

- `Common` (common.dfy): the shared vocabulary. It covers nullable values, Sponge's `Tristate`, claim kinds, trust levels, UUIDs, block positions and chat types. It also models Java's `List.remove(Object)`, ASCII `equalsIgnoreCase` and `UUID.fromString` on the canonical spelling.
- `OptionHandler` (option_handler.dfy): `GPOptionHandler`. It is a pure resolver. It picks the per-kind option key for a claim and resolves a subject's numeric option against the administrator's default. It also applies the clamp switch, either as the source writes it or as it is evidently meant (see Findings).
- `ClaimDataConfig` (claim_data_config.dfy): the per-claim settings record.
  - The record is the class `ClaimData`. Its fields are the persisted settings, the dirty bit `requiresSave` and the lazily parsed corner and spawn positions.
  - Its invariant `Valid` says every cached position is the parse of the stored text.
  - It has the three constructors, including the loop over a legacy key/value map, and every setter and derived getter.
- `LegacyClaimStorage` (legacy_claim_storage.dfy): the legacy `ClaimStorageData`. It has the dotted-key splitter and the 29-flag table `ClaimDataFlagsCategory`, with its get, set and map views.
- `ClaimBlockLedger` (block_ledger.dfy): `/buyclaimblocks`, `/sellclaimblocks` and `/abandonallclaims`. These are methods on a player's claim-block ledger.
- `Untrust` (untrust.dfy): `/untrust`. It has the decision tree and the in-place removal loops over the trust lists of a `ClaimData`.
- `ClaimTransfer` (claim_transfer.dfy): the authorization chain of `/transferclaim`.
- `ClaimSell` (claim_sell.dfy): `/sellclaim`. It covers the for-sale state of a claim's economy data and the confirmation that puts an offer up.
- `ClaimInfo` (claim_info.dfy): `/claiminfo`.
  - The view check and the per-axis size.
  - The administrator settings page, with its padding loop.
  - The toggles behind its clickable lines, including the three-state PvP cycle.
  - The guard on the claim-type buttons.
- `CustomLogging` (custom_logger.dfy): the abridged activity log.
  - Entry-type gating, formatting-code stripping and the queue buffer.
  - Flushing to the file of the day.
  - Deletion of expired `yyyy_MM_dd.log` files, on a proleptic Gregorian day count.
- `ClaimEvents` (claim_events.dfy): `GPClaimEvent`, the cancel flag and message every claim-changing command consults, and `GPBorderClaimEvent`, with its greeting and farewell fallback.

Services the plugin calls are inputs of the model. These are the economy, the permission service, event posting and listeners' vetoes, the clock, the disk and claim lookup. They appear as boolean oracles or plain values.

## Model

Source paths are relative to the repository root.

| member | source | states |
|---|---|---|
| Common.RemoveFirst | src/main/java/me/ryanhamshire/griefprevention/command/CommandUntrust.java:125 | `List.remove(Object)`: an absent element leaves the list as it is; otherwise exactly the first occurrence is cut out, keeping the rest in order |
| Common.RemoveFirstContents | src/main/java/me/ryanhamshire/griefprevention/command/CommandUntrust.java:125 | removal takes exactly one copy of the element out of the list's contents when present and none otherwise |
| Common.UuidOfRoundTrip | src/main/java/me/ryanhamshire/griefprevention/configuration/ClaimDataConfig.java:128 | `UUID.fromString` of a canonical spelling prints again as a canonical spelling that parses to the same UUID |
| Common.UuidOfIgnoresCase | src/main/java/me/ryanhamshire/griefprevention/configuration/ClaimDataConfig.java:128 | two canonical spellings parse to the same UUID exactly when they differ only in the case of their hex letters |
| OptionHandler.QualifiedName | src/main/java/me/ryanhamshire/griefprevention/permission/GPOptionHandler.java:52-54 | the result always carries the `griefprevention.` prefix; a prefixed name is returned unchanged and any other gets the prefix put in front |
| OptionHandler.QualifiedNameIdempotent | src/main/java/me/ryanhamshire/griefprevention/permission/GPOptionHandler.java:52-54 | prefixing twice is the same as prefixing once |
| OptionHandler.Qualify | src/main/java/me/ryanhamshire/griefprevention/permission/GPOptionHandler.java:52-54 | option constants pass unchanged; only free-form option names are prefixed |
| OptionHandler.GlobalOption | src/main/java/me/ryanhamshire/griefprevention/permission/GPOptionHandler.java:57-82 | each of the twelve global keys reads its own field of the player's data (stated through `ResolveOption` and `ClaimLimitIsGlobal`) |
| OptionHandler.IsMaxClamped | src/main/java/me/ryanhamshire/griefprevention/permission/GPOptionHandler.java:118-129 | the keys of the first case group: basic and town maximum sizes and the six tax-expiration keys (used by `ClampAsWritten`, `ClampIntended` and `ClampsDifferBelowCeiling`) |
| OptionHandler.IsMinClamped | src/main/java/me/ryanhamshire/griefprevention/permission/GPOptionHandler.java:133-138 | the keys of the second case group: the basic and town minimum sizes |
| OptionHandler.ClampAsWritten | src/main/java/me/ryanhamshire/griefprevention/permission/GPOptionHandler.java:117-144 | the switch as written: every maximum-size and tax-expiration key yields the administrator value whatever the subject's value, minimum keys yield the larger of the two, all other keys the subject value |
| OptionHandler.ClampIntended | src/main/java/me/ryanhamshire/griefprevention/permission/GPOptionHandler.java:117-144 | the corrected clamp: maximum keys are capped at the administrator value and keep the subject's value below it, minimum keys are floored at it, other keys pass through |
| OptionHandler.ClampDiscardsSubjectMaximum | src/main/java/me/ryanhamshire/griefprevention/permission/GPOptionHandler.java:118-132 | a subject maximum of 50 under an administrator ceiling of 100 comes out as 100 as written and 50 as intended |
| OptionHandler.ClampsDifferBelowCeiling | src/main/java/me/ryanhamshire/griefprevention/permission/GPOptionHandler.java:117-144 | the two clamps disagree exactly on maximum keys whose subject value lies below the administrator's |
| OptionHandler.AdminValue | src/main/java/me/ryanhamshire/griefprevention/permission/GPOptionHandler.java:94-97 | the administrator default of a key, and 0 when none is configured |
| OptionHandler.ResolveOption | src/main/java/me/ryanhamshire/griefprevention/permission/GPOptionHandler.java:51-145 | global options come straight from the player's data; any other option needs a claim context and is otherwise absent; in a context the subject's value goes through the chosen clamp (`AsWritten` is the source) |
| OptionHandler.CheckClaimOption | src/main/java/me/ryanhamshire/griefprevention/permission/GPOptionHandler.java:147-243 | an admin claim maps every option type to the invalid option, and only the claim-limit type can map to a global key |
| OptionHandler.ResolveClaimOption | src/main/java/me/ryanhamshire/griefprevention/permission/GPOptionHandler.java:39-49 | a missing claim or an invalid key yields 0; otherwise the value `ResolveOption` gives, under the same clamp, for the key the claim's kind selects |
| OptionHandler.AdminClaimResolvesToZero | src/main/java/me/ryanhamshire/griefprevention/permission/GPOptionHandler.java:148-150 | under either clamp, every option type resolves to 0 on an admin claim |
| OptionHandler.FallsBackToAdminValue | src/main/java/me/ryanhamshire/griefprevention/permission/GPOptionHandler.java:99-115 | under either clamp, the global subject, a missing value and an unparsable value all resolve to the administrator value |
| OptionHandler.MaxClampedKeyIsCapped | src/main/java/me/ryanhamshire/griefprevention/permission/GPOptionHandler.java:118-132 | with the corrected clamp, a maximum-size or tax-expiration key resolves to the smaller of the subject and administrator values |
| OptionHandler.MaxClampedKeyIsAdminValue | src/main/java/me/ryanhamshire/griefprevention/permission/GPOptionHandler.java:117-144 | as written, a maximum-size or tax-expiration key resolves in a claim context to the administrator value, whatever the subject holds |
| OptionHandler.ClaimMaxSizeIgnoresSubject | src/main/java/me/ryanhamshire/griefprevention/permission/GPOptionHandler.java:39-49 | as written, the maximum size of a basic, town or wilderness claim is the administrator value for every subject; with the corrected clamp it never exceeds that value |
| OptionHandler.MinClampedKeyIsFloored | src/main/java/me/ryanhamshire/griefprevention/permission/GPOptionHandler.java:133-141 | under either clamp, a minimum-size key resolves to the larger of the subject and administrator values |
| OptionHandler.UnclampedKeyYieldsSubjectValue | src/main/java/me/ryanhamshire/griefprevention/permission/GPOptionHandler.java:142-143 | under either clamp, subdivision sizes, tax rates and other keys outside both case groups resolve to the subject's own value |
| OptionHandler.KindSelectsKey | src/main/java/me/ryanhamshire/griefprevention/permission/GPOptionHandler.java:152-224 | a town claim gets the town key for every option type before the subdivision test; a subdivision gets the invalid option for minimum sizes and a subdivision key otherwise |
| OptionHandler.TaxRateKeySelection | src/main/java/me/ryanhamshire/griefprevention/permission/GPOptionHandler.java:225-238 | the tax-rate key is the town rate for a town, the town-subdivision or town-basic rate inside a town, and the subdivision or basic rate elsewhere |
| OptionHandler.ClaimLimitIsGlobal | src/main/java/me/ryanhamshire/griefprevention/permission/GPOptionHandler.java:201-208 | a claim-limit request is served from the player's data for the claim's kind, unclamped |
| ClaimDataConfig.Defaults | src/main/java/me/ryanhamshire/griefprevention/configuration/ClaimDataConfig.java:44-114 | the field initialisers of a new record (stated through `ClaimDataConfig.ClaimData.constructor`) |
| ClaimDataConfig.ApplyEntry | src/main/java/me/ryanhamshire/griefprevention/configuration/ClaimDataConfig.java:126-201 | one pass of the map constructor's switch: each known key sets its own field, a trust-list key appends to its user list, an unknown key changes nothing (stated through `ApplyEntryTrustLists` and `ResizableSpelling`) |
| ClaimDataConfig.LoadFrom | src/main/java/me/ryanhamshire/griefprevention/configuration/ClaimDataConfig.java:124-204 | the record the map constructor builds by visiting the entries in order (stated through `LoadAppendsTrustLists`, `LoadKeepsGroupLists` and `LoadIgnoresUnknownKeys`) |
| ClaimDataConfig.ListUuids | src/main/java/me/ryanhamshire/griefprevention/configuration/ClaimDataConfig.java:166-174 | a trust-list entry contributes one UUID per string, the parse `UuidOf` of that string, in list order, and a null list contributes none |
| ClaimDataConfig.ApplyEntryTrustLists | src/main/java/me/ryanhamshire/griefprevention/configuration/ClaimDataConfig.java:166-201 | one map entry appends its UUIDs to the user list of its own level only and never touches a group list |
| ClaimDataConfig.LoadAppendsTrustLists | src/main/java/me/ryanhamshire/griefprevention/configuration/ClaimDataConfig.java:124-204 | after loading, each user trust list is the initial list followed by the UUIDs of every entry for that level, in map order |
| ClaimDataConfig.LoadKeepsGroupLists | src/main/java/me/ryanhamshire/griefprevention/configuration/ClaimDataConfig.java:124-204 | loading never changes a group trust list |
| ClaimDataConfig.Recognised | src/main/java/me/ryanhamshire/griefprevention/configuration/ClaimDataConfig.java:124-204 | the entries the switch recognises, drawn from the input and no more of them |
| ClaimDataConfig.LoadIgnoresUnknownKeys | src/main/java/me/ryanhamshire/griefprevention/configuration/ClaimDataConfig.java:124-204 | dropping the entries with unknown keys gives the same record |
| ClaimDataConfig.ResizableSpelling | src/main/java/me/ryanhamshire/griefprevention/configuration/ClaimDataConfig.java:163-165 | the key `resizable` is unknown and changes nothing, while `resizeable` sets resizability |
| ClaimDataConfig.WithUserListKeepsOthers | src/main/java/me/ryanhamshire/griefprevention/configuration/ClaimDataConfig.java:417-471 | replacing one level's user list leaves the other user lists and every group list as they were |
| ClaimDataConfig.WithGroupListKeepsOthers | src/main/java/me/ryanhamshire/griefprevention/configuration/ClaimDataConfig.java:417-471 | replacing one level's group list leaves the other group lists and every user list as they were |
| ClaimDataConfig.ClaimData.constructor | src/main/java/me/ryanhamshire/griefprevention/configuration/ClaimDataConfig.java:44-114 | a new record holds the field defaults (inheriting, BASIC, resizable, flag overrides allowed, PvP undefined, empty lists), is clean and has no cached positions |
| ClaimDataConfig.ClaimData.FromClaim | src/main/java/me/ryanhamshire/griefprevention/configuration/ClaimDataConfig.java:116-122 | the defaults with the claim's corner texts, shape, kind and owner, clean |
| ClaimDataConfig.ClaimData.FromMap | src/main/java/me/ryanhamshire/griefprevention/configuration/ClaimDataConfig.java:124-204 | the defaults with every map entry applied in order, clean |
| ClaimDataConfig.ClaimData.ApplyMapEntry | src/main/java/me/ryanhamshire/griefprevention/configuration/ClaimDataConfig.java:126-201 | one pass of the switch, without touching the dirty bit or the caches |
| ClaimDataConfig.ClaimData.SetWorldUniqueId | src/main/java/me/ryanhamshire/griefprevention/configuration/ClaimDataConfig.java:212-215 | the world changes, nothing else, and the record is dirty |
| ClaimDataConfig.ClaimData.SetOwnerUniqueId | src/main/java/me/ryanhamshire/griefprevention/configuration/ClaimDataConfig.java:223-226 | the owner changes, nothing else, and the record is dirty |
| ClaimDataConfig.ClaimData.SetCuboid | src/main/java/me/ryanhamshire/griefprevention/configuration/ClaimDataConfig.java:244-246 | the shape changes and the dirty bit is left as it was |
| ClaimDataConfig.ClaimData.SetPvpOverride | src/main/java/me/ryanhamshire/griefprevention/configuration/ClaimDataConfig.java:259-262 | the PvP override changes and the record is dirty |
| ClaimDataConfig.ClaimData.SetResizable | src/main/java/me/ryanhamshire/griefprevention/configuration/ClaimDataConfig.java:270-273 | resizability changes and the record is dirty |
| ClaimDataConfig.ClaimData.HasSizeRestrictions | src/main/java/me/ryanhamshire/griefprevention/configuration/ClaimDataConfig.java:276-282 | admin claims and the wilderness report no size restrictions and have the stored flag cleared for good; other kinds report the flag |
| ClaimDataConfig.ClaimData.SetType | src/main/java/me/ryanhamshire/griefprevention/configuration/ClaimDataConfig.java:290-293 | the kind changes and the record is dirty |
| ClaimDataConfig.ClaimData.SetDateLastActive | src/main/java/me/ryanhamshire/griefprevention/configuration/ClaimDataConfig.java:306-309 | the last-active date changes and the record is dirty |
| ClaimDataConfig.ClaimData.SetName | src/main/java/me/ryanhamshire/griefprevention/configuration/ClaimDataConfig.java:322-328 | a null name changes nothing, not even the dirty bit; a name is stored and marks the record |
| ClaimDataConfig.ClaimData.SetGreeting | src/main/java/me/ryanhamshire/griefprevention/configuration/ClaimDataConfig.java:340-346 | a null greeting changes nothing; a greeting is stored and marks the record |
| ClaimDataConfig.ClaimData.SetFarewell | src/main/java/me/ryanhamshire/griefprevention/configuration/ClaimDataConfig.java:358-364 | a null farewell changes nothing; a farewell is stored and marks the record |
| ClaimDataConfig.ClaimData.GetSpawnPos | src/main/java/me/ryanhamshire/griefprevention/configuration/ClaimDataConfig.java:367-378 | the cached spawn, parsed from the stored text on first use; only that first parse touches the record |
| ClaimDataConfig.ClaimData.SetSpawnPos | src/main/java/me/ryanhamshire/griefprevention/configuration/ClaimDataConfig.java:381-389 | a null position changes nothing; a position becomes both the cache and the stored text, and marks the record |
| ClaimDataConfig.ClaimData.GetLesserBoundaryCornerPos | src/main/java/me/ryanhamshire/griefprevention/configuration/ClaimDataConfig.java:392-402 | the parse of the stored lesser corner, which is then cached; the record is not changed |
| ClaimDataConfig.ClaimData.GetGreaterBoundaryCornerPos | src/main/java/me/ryanhamshire/griefprevention/configuration/ClaimDataConfig.java:405-415 | the parse of the stored greater corner, which is then cached; the record is not changed |
| ClaimDataConfig.ClaimData.SetAccessors | src/main/java/me/ryanhamshire/griefprevention/configuration/ClaimDataConfig.java:422-425 | the accessor list is replaced and the record is dirty |
| ClaimDataConfig.ClaimData.SetBuilders | src/main/java/me/ryanhamshire/griefprevention/configuration/ClaimDataConfig.java:432-435 | the builder list is replaced and the record is dirty |
| ClaimDataConfig.ClaimData.SetContainers | src/main/java/me/ryanhamshire/griefprevention/configuration/ClaimDataConfig.java:442-445 | the container list is replaced and the record is dirty |
| ClaimDataConfig.ClaimData.SetManagers | src/main/java/me/ryanhamshire/griefprevention/configuration/ClaimDataConfig.java:452-455 | the manager list is replaced and the record is dirty |
| ClaimDataConfig.ClaimData.RemoveUserTrust | src/main/java/me/ryanhamshire/griefprevention/configuration/ClaimDataConfig.java:417-455 | removal through the live list a getter hands out: that one list loses its first occurrence and the dirty bit is untouched |
| ClaimDataConfig.ClaimData.RemoveGroupTrust | src/main/java/me/ryanhamshire/griefprevention/configuration/ClaimDataConfig.java:457-471 | the same for a live group list |
| ClaimDataConfig.ClaimData.SetDenyMessages | src/main/java/me/ryanhamshire/griefprevention/configuration/ClaimDataConfig.java:474-477 | the deny-messages flag changes and the record is dirty |
| ClaimDataConfig.ClaimData.SetExpiration | src/main/java/me/ryanhamshire/griefprevention/configuration/ClaimDataConfig.java:480-483 | the expiration flag changes and the record is dirty |
| ClaimDataConfig.ClaimData.SetFlagOverrides | src/main/java/me/ryanhamshire/griefprevention/configuration/ClaimDataConfig.java:486-488 | the flag-override setting changes and the dirty bit is left as it was |
| ClaimDataConfig.ClaimData.SetLesserBoundaryCorner | src/main/java/me/ryanhamshire/griefprevention/configuration/ClaimDataConfig.java:491-495 | the stored lesser corner is replaced and its cached position dropped, so the next read parses the new text; the record is dirty |
| ClaimDataConfig.ClaimData.SetGreaterBoundaryCorner | src/main/java/me/ryanhamshire/griefprevention/configuration/ClaimDataConfig.java:498-502 | the same for the greater corner |
| ClaimDataConfig.ClaimData.SetRequiresSave | src/main/java/me/ryanhamshire/griefprevention/configuration/ClaimDataConfig.java:509-511 | only the dirty bit changes |
| ClaimDataConfig.ClaimData.SetSizeRestrictions | src/main/java/me/ryanhamshire/griefprevention/configuration/ClaimDataConfig.java:514-516 | the size-restriction flag changes and the dirty bit is left as it was |
| ClaimDataConfig.ClaimData.DoesInheritParent | src/main/java/me/ryanhamshire/griefprevention/configuration/ClaimDataConfig.java:519-525 | admin claims never inherit, whatever is stored; other kinds report the stored flag |
| ClaimDataConfig.ClaimData.SetInheritParent | src/main/java/me/ryanhamshire/griefprevention/configuration/ClaimDataConfig.java:528-531 | the inherit flag changes and the record is dirty |
| ClaimDataConfig.ClaimData.SetRequiresClaimBlocks | src/main/java/me/ryanhamshire/griefprevention/configuration/ClaimDataConfig.java:548-551 | the block requirement changes and the record is dirty |
| ClaimDataConfig.ClaimData.SetParent | src/main/java/me/ryanhamshire/griefprevention/configuration/ClaimDataConfig.java:559-562 | the parent changes and the record is dirty |
| ClaimDataConfig.ClaimData.SetExpired | src/main/java/me/ryanhamshire/griefprevention/configuration/ClaimDataConfig.java:568-570 | the expired flag changes and the dirty bit is left as it was |
| ClaimDataConfig.AppendUuids | src/main/java/me/ryanhamshire/griefprevention/configuration/ClaimDataConfig.java:166-174 | the append loop adds exactly the entry's UUIDs, in order, after the existing list |
| LegacyClaimStorage.GetSetting | src/me/ryanhamshire/griefprevention/configuration/ClaimStorageData.java:119-127 | no split exactly when the key has no dot or its first dot is the last character; otherwise category, dot and property rebuild the key, with a dot-free category and a non-empty property |
| LegacyClaimStorage.GetSettingRoundTrip | src/me/ryanhamshire/griefprevention/configuration/ClaimStorageData.java:119-127 | a key built from a dot-free category and a non-empty property splits back into them |
| LegacyClaimStorage.FlagNamed | src/me/ryanhamshire/griefprevention/configuration/ClaimStorageData.java:276-434 | the flag-name switch shared by the setter and the getter; it finds each flag by its own name (`FlagNameRoundTrip`) |
| LegacyClaimStorage.FlagNameRoundTrip | src/me/ryanhamshire/griefprevention/configuration/ClaimStorageData.java:371-434 | each of the 29 flags is found by its own name, so the names are distinct |
| LegacyClaimStorage.FlagNamesKnown | src/me/ryanhamshire/griefprevention/configuration/ClaimStorageData.java:242-274 | the name switch recognises every flag's name as that flag |
| LegacyClaimStorage.FlagsCategory.constructor | src/me/ryanhamshire/griefprevention/configuration/ClaimStorageData.java:181-240 | every tri-state flag starts UNDEFINED and the blocked-command list starts empty |
| LegacyClaimStorage.FlagsCategory.GetFlagMap | src/me/ryanhamshire/griefprevention/configuration/ClaimStorageData.java:242-274 | the map has exactly the 29 flag names as keys and each maps to that flag's field |
| LegacyClaimStorage.FlagsCategory.SetFlagValue | src/me/ryanhamshire/griefprevention/configuration/ClaimStorageData.java:276-369 | a known name whose field accepts the value takes it, and every other flag keeps its value; an unknown name changes nothing; a value of the wrong class is reported as a failed cast and changes nothing |
| LegacyClaimStorage.FlagsCategory.GetFlagValue | src/me/ryanhamshire/griefprevention/configuration/ClaimStorageData.java:371-434 | a known name reads that flag's field and an unknown name reads null |
| ClaimBlockLedger.Ceil | src/main/java/me/ryanhamshire/griefprevention/command/CommandClaimAbandonAll.java:87 | `Math.ceil`: the least integer at or above the value |
| ClaimBlockLedger.Penalty | src/main/java/me/ryanhamshire/griefprevention/command/CommandClaimAbandonAll.java:84-87 | what abandoning one claim takes back: the rounded-up share the basic return ratio does not refund, nothing for exempt kinds (bounded by `PenaltyBounds`) |
| ClaimBlockLedger.TotalPenalty | src/main/java/me/ryanhamshire/griefprevention/command/CommandClaimAbandonAll.java:80-88 | the total taken for a list of claims (`TotalPenaltyOrderIndependent`, `TotalPenaltyBounds`) |
| ClaimBlockLedger.PenaltyBounds | src/main/java/me/ryanhamshire/griefprevention/command/CommandClaimAbandonAll.java:84-87 | with a ratio in [0, 1] one claim costs between nothing and its own size, and subdivisions, admin claims and the wilderness cost nothing |
| ClaimBlockLedger.TotalPenaltyOrderIndependent | src/main/java/me/ryanhamshire/griefprevention/command/CommandClaimAbandonAll.java:80-88 | the total taken does not depend on the order the claims are visited in |
| ClaimBlockLedger.TotalPenaltyBounds | src/main/java/me/ryanhamshire/griefprevention/command/CommandClaimAbandonAll.java:80-88 | with a ratio in [0, 1], abandoning never adds blocks and never takes more than the claims' total size |
| ClaimBlockLedger.PlayerLedger.BuyBlocks | src/main/java/me/ryanhamshire/griefprevention/command/CommandClaimBuyBlocks.java:60-135 | blocks are bought exactly when an economy and account exist, a buy price is set, a positive count fits under the accrual cap and the withdrawal of count times price succeeds; then accrued rises by exactly the count, and on every other path nothing changes |
| ClaimBlockLedger.PlayerLedger.SellBlocks | src/main/java/me/ryanhamshire/griefprevention/command/CommandClaimSellBlocks.java:59-121 | blocks are sold exactly when an economy exists, a sell price is set, the count is between 1 and the remaining blocks, an account exists and the deposit of count times price succeeds; then bonus falls by exactly the count, and on every other path nothing changes |
| ClaimBlockLedger.PlayerLedger.AbandonAll | src/main/java/me/ryanhamshire/griefprevention/command/CommandClaimAbandonAll.java:57-91 | no claims or a vetoed event change nothing; otherwise every claim's context permissions are cleared, accrued falls by the total penalty of the claims and the claims are gone |
| ClaimTransfer.Check | src/main/java/me/ryanhamshire/griefprevention/command/CommandClaimTransfer.java:51-67 | the rejection chain refuses only with the admin-claim or not-your-claim message |
| ClaimTransfer.CheckMatchesMayTransfer | src/main/java/me/ryanhamshire/griefprevention/command/CommandClaimTransfer.java:51-67 | the chain lets through exactly the players allowed by the stated rule (ignore-claims; admin claims need the admin permission; owner; or manager of a child claim) |
| ClaimTransfer.Execute | src/main/java/me/ryanhamshire/griefprevention/command/CommandClaimTransfer.java:36-83 | the command: `transferOwner` is attempted exactly when a target and a kind are present, the claim is not wilderness and `MayTransfer` holds, and the transfer succeeds exactly when its result is `Success` (stated by `TransferReachedOnlyWhenAllowed`) |
| ClaimTransfer.TransferReachedOnlyWhenAllowed | src/main/java/me/ryanhamshire/griefprevention/command/CommandClaimTransfer.java:36-83 | `transferOwner` is reached exactly when a target and a non-wilderness claim exist and the player is allowed; its failure kind is reported unchanged |
| ClaimTransfer.WildernessNeverTransferred | src/main/java/me/ryanhamshire/griefprevention/command/CommandClaimTransfer.java:36-49 | a missing target is refused first, and a missing claim or the wilderness is refused as no claim |
| ClaimTransfer.ManagerNeedsChildClaim | src/main/java/me/ryanhamshire/griefprevention/command/CommandClaimTransfer.java:57-62 | a manager who is not the owner may transfer exactly when the claim has a parent |
| ClaimSell.Decide | src/main/java/me/ryanhamshire/griefprevention/command/CommandClaimSell.java:66-116 | the command's decision tree in the source's order: economy, kind, permission, then price or cancel argument (stated through `ConfirmationOnlyForValidOffers` and `CancelNeedsOffer`) |
| ClaimSell.Execute | src/main/java/me/ryanhamshire/griefprevention/command/CommandClaimSell.java:66-116 | the command reaches the outcome of the decision tree and changes the sale state only on `cancel`, which takes the offer down with the price -1 |
| ClaimSell.Confirm | src/main/java/me/ryanhamshire/griefprevention/command/CommandClaimSell.java:46-50 | the confirmation puts the claim up for sale at the confirmed price |
| ClaimSell.ConfirmationOnlyForValidOffers | src/main/java/me/ryanhamshire/griefprevention/command/CommandClaimSell.java:75-116 | a confirmation is offered exactly when an economy exists, the claim is sellable, the player owns it or can ignore claims and a non-negative price is given, and it carries that price |
| ClaimSell.CancelNeedsOffer | src/main/java/me/ryanhamshire/griefprevention/command/CommandClaimSell.java:85-99 | an offer is withdrawn exactly when one exists, the player may act and the argument is `cancel` in any case |
| ClaimSell.ConfirmThenCancel | src/main/java/me/ryanhamshire/griefprevention/command/CommandClaimSell.java:46-97 | after a confirmation, a price-less run withdraws the offer, restoring "not for sale" with the sentinel price, exactly when the kind is sellable, the player owns the claim or can ignore claims and the argument is `cancel` in any case; otherwise the offer stands |
| ClaimInfo.MayView | src/main/java/me/ryanhamshire/griefprevention/command/CommandClaimInfo.java:313-325 | an administrator, the owner, a container, builder or manager, or a holder of the info-others permission may view (`AccessorAloneCannotView`) |
| ClaimInfo.AccessorAloneCannotView | src/main/java/me/ryanhamshire/griefprevention/command/CommandClaimInfo.java:313-325 | accessor trust alone does not open someone else's claim to a non-administrator, while manager trust does |
| ClaimInfo.AxisSize | src/main/java/me/ryanhamshire/griefprevention/command/CommandClaimInfo.java:371-373 | a claim is at least one block wide on each axis |
| ClaimInfo.AxisSizeCounts | src/main/java/me/ryanhamshire/griefprevention/command/CommandClaimInfo.java:371-373 | the size is the number of block coordinates between the corners, whichever corner comes first, and does not change when the claim moves |
| ClaimInfo.SettingEntries | src/main/java/me/ryanhamshire/griefprevention/command/CommandClaimInfo.java:105-114 | the settings lines in page order, with the block and size lines only for restrictable kinds (`SettingEntriesShape`) |
| ClaimInfo.SettingEntriesShape | src/main/java/me/ryanhamshire/griefprevention/command/CommandClaimInfo.java:105-114 | the block and size lines appear exactly for kinds other than admin and wilderness, giving 8 or 4 entries before padding |
| ClaimInfo.Viewed | src/main/java/me/ryanhamshire/griefprevention/command/CommandClaimInfo.java:101 | building the page clears the size restriction on admin claims and the wilderness and leaves other kinds' settings as they are |
| ClaimInfo.GenerateAdminSettings | src/main/java/me/ryanhamshire/griefprevention/command/CommandClaimInfo.java:93-120 | the page is 16 lines: the entries for the claim's settings followed by blank lines; reading the size restriction is the only change to the record |
| ClaimInfo.Entries | src/main/java/me/ryanhamshire/griefprevention/command/CommandClaimInfo.java:105-114 | the lines added before padding are the entries for the claim's settings and kind |
| ClaimInfo.Pad | src/main/java/me/ryanhamshire/griefprevention/command/CommandClaimInfo.java:115-118 | the padding loop keeps the entries and fills up to 16 lines with blanks |
| ClaimInfo.NextPvp | src/main/java/me/ryanhamshire/griefprevention/command/CommandClaimInfo.java:178-186 | the PvP override a click moves to (`PvpCycle`) |
| ClaimInfo.Toggled | src/main/java/me/ryanhamshire/griefprevention/command/CommandClaimInfo.java:152-216 | the settings after the switch on a clicked title (stated through `Toggle`, `ToggleTwiceIsIdentity` and `UntoggledKeepsSettings`) |
| ClaimInfo.PvpCycle | src/main/java/me/ryanhamshire/griefprevention/command/CommandClaimInfo.java:178-186 | the PvP override moves UNDEFINED, TRUE, FALSE and round; three clicks restore it and fewer never do |
| ClaimInfo.ToggleMessages | src/main/java/me/ryanhamshire/griefprevention/command/CommandClaimInfo.java:163-177 | the expiration, deny-message and flag-override clicks negate their own setting and mark the record |
| ClaimInfo.ToggleLimits | src/main/java/me/ryanhamshire/griefprevention/command/CommandClaimInfo.java:178-201 | the PvP, resize and block-requirement clicks advance their own setting and mark the record |
| ClaimInfo.ToggleDerived | src/main/java/me/ryanhamshire/griefprevention/command/CommandClaimInfo.java:153-207 | the inherit and size clicks store the negation of what the derived getter reports and mark the record |
| ClaimInfo.UntoggledKeepsSettings | src/main/java/me/ryanhamshire/griefprevention/command/CommandClaimInfo.java:152-216 | a refused inherit click, an unknown title and the for-sale click leave the claim's settings as they are |
| ClaimInfo.ToggleSale | src/main/java/me/ryanhamshire/griefprevention/command/CommandClaimInfo.java:208-214 | the for-sale click flips the offer, keeps the price and marks the record |
| ClaimInfo.Toggle | src/main/java/me/ryanhamshire/griefprevention/command/CommandClaimInfo.java:152-216 | the switch changes exactly the clicked setting, marks the record exactly when the click is acted on, and flips the offer only for the for-sale title |
| ClaimInfo.Click | src/main/java/me/ryanhamshire/griefprevention/command/CommandClaimInfo.java:149-219 | one click followed by the page it leads to: the settings page (16 lines) for every title but inherit and for-sale |
| ClaimInfo.RefusedClicksChangeNothing | src/main/java/me/ryanhamshire/griefprevention/command/CommandClaimInfo.java:152-217 | an inherit click without a parent or permission changes nothing; an unknown title changes only what showing the page reads |
| ClaimInfo.ToggleTwiceIsIdentity | src/main/java/me/ryanhamshire/griefprevention/command/CommandClaimInfo.java:163-212 | on a claim other than admin or wilderness, clicking any boolean setting twice restores the settings |
| ClaimInfo.PvpClickThrice | src/main/java/me/ryanhamshire/griefprevention/command/CommandClaimInfo.java:178-189 | a PvP click changes only the override, and three of them restore the settings |
| ClaimInfo.AdminClaimToggles | src/main/java/me/ryanhamshire/griefprevention/command/CommandClaimInfo.java:153-207 | on an admin claim the inherit click always stores true and the size restriction stays off, so these clicks are not involutions there |
| ClaimInfo.ClickType | src/main/java/me/ryanhamshire/griefprevention/command/CommandClaimInfo.java:221-242 | the claim type is changed only for players who are administrators or may edit, and then exactly when `changeType` succeeds |
| Untrust.ResolveTarget | src/main/java/me/ryanhamshire/griefprevention/command/CommandUntrust.java:68-76 | the user argument wins; otherwise `public` or `all` in any case means the public user and any other group name a group; no argument resolves to nothing |
| Untrust.PublicInAnyCase | src/main/java/me/ryanhamshire/griefprevention/command/CommandUntrust.java:72-75 | `PUBLIC` and `All` select the public user and `builders` stays a group |
| Untrust.EffectiveOwner | src/main/java/me/ryanhamshire/griefprevention/command/CommandUntrust.java:96-99 | the claim's owner, or for an owner-less subdivision its parent's owner |
| Untrust.WithoutUserEffect | src/main/java/me/ryanhamshire/griefprevention/command/CommandUntrust.java:124-126 | over distinct levels, a level's user list loses its first copy of the user exactly when the level is visited |
| Untrust.WithoutUserKeepsGroups | src/main/java/me/ryanhamshire/griefprevention/command/CommandUntrust.java:124-126 | the user loop never changes a group list |
| Untrust.WithoutGroupEffect | src/main/java/me/ryanhamshire/griefprevention/command/CommandUntrust.java:151-154 | over distinct levels, a level's group list loses its first copy of the group exactly when the level is visited |
| Untrust.WithoutGroupKeepsUsers | src/main/java/me/ryanhamshire/griefprevention/command/CommandUntrust.java:151-154 | the group loop never changes a user list |
| Untrust.UntrustUserRemovesOneCopyEverywhere | src/main/java/me/ryanhamshire/griefprevention/command/CommandUntrust.java:124-126 | after untrusting a user, every trust list holds one copy fewer of the user if it had one, every other entry stays, and group lists are untouched |
| Untrust.UntrustGroupRemovesOneCopyEverywhere | src/main/java/me/ryanhamshire/griefprevention/command/CommandUntrust.java:151-154 | after untrusting a group, every group list holds one copy fewer of it if it had one, and user lists are untouched |
| Untrust.RevokedMessage | src/main/java/me/ryanhamshire/griefprevention/command/CommandUntrust.java:159 | the corrected confirmation, "Revoked ", the target's name and the suffix (`RevokedMessageNamesSubject`) |
| Untrust.RevokedMessageNamesSubject | src/main/java/me/ryanhamshire/griefprevention/command/CommandUntrust.java:159 | the intended confirmation is "Revoked ", the user's or group's name, and the fixed suffix |
| Untrust.RevokedMessageAsWritten | src/main/java/me/ryanhamshire/griefprevention/command/CommandUntrust.java:159 | the message as written is only the user's name on the user path and an exception on the group path |
| Untrust.RevokedMessageDiscrepancy | src/main/java/me/ryanhamshire/griefprevention/command/CommandUntrust.java:159 | the group path throws where a "Revoked ..." message is meant, and the user path's text differs from the intended message |
| Untrust.RemoveUserFrom | src/main/java/me/ryanhamshire/griefprevention/command/CommandUntrust.java:124-126 | the loop over the levels leaves exactly the removal the specification function describes, without touching the dirty bit or caches |
| Untrust.RemoveGroupFrom | src/main/java/me/ryanhamshire/griefprevention/command/CommandUntrust.java:131-154 | the group loop does the same on group lists; on the invalid-group path it also marks the record on each pass |
| Untrust.Decide | src/main/java/me/ryanhamshire/griefprevention/command/CommandUntrust.java:68-108 | the command's checks in the source's order, then the removal's outcome (stated through `DecideRevoked`, `DecideInvalidGroup` and `DecideRefusals`) |
| Untrust.DecideRemoval | src/main/java/me/ryanhamshire/griefprevention/command/CommandUntrust.java:110-158 | after the checks: an unknown group is invalid before any event, a veto stops the removal, otherwise trust is revoked with the corrected message |
| Untrust.DecideRevoked | src/main/java/me/ryanhamshire/griefprevention/command/CommandUntrust.java:68-159 | trust is revoked exactly when a target is named, the player stands in a claim, the target is not the player or the owner, the player may grant or ignore claims, a named group exists and no listener vetoes; the confirmation names the target |
| Untrust.DecideInvalidGroup | src/main/java/me/ryanhamshire/griefprevention/command/CommandUntrust.java:130-138 | an unknown group is reported (after being purged) exactly when every earlier check passes, whatever a listener would say |
| Untrust.DecideRefusals | src/main/java/me/ryanhamshire/griefprevention/command/CommandUntrust.java:82-103 | the player's own name is refused before the claim is looked up, and the owner's before permissions are consulted |
| Untrust.Revoke | src/main/java/me/ryanhamshire/griefprevention/command/CommandUntrust.java:110-158 | after the checks, the target leaves every trust list and the record is marked exactly when the outcome removes it; otherwise nothing changes; a revoked group also has every trust permission unset on its subject in the claim's context, listed in `unset` |
| Untrust.RevokeUser | src/main/java/me/ryanhamshire/griefprevention/command/CommandUntrust.java:112-126 | a vetoed event changes nothing; otherwise the user leaves every user list and the record is marked |
| Untrust.RevokeGroup | src/main/java/me/ryanhamshire/griefprevention/command/CommandUntrust.java:127-155 | an unknown group is purged before any event; a known group is removed unless the event is vetoed, and then every level's trust permission is unset on its subject in the claim's context, in loop order |
| Untrust.PermissionsUnset | src/main/java/me/ryanhamshire/griefprevention/command/CommandUntrust.java:151-154 | the trust permissions unset on the group's subject: every level exactly when a group's trust is revoked, none otherwise |
| Untrust.Execute | src/main/java/me/ryanhamshire/griefprevention/command/CommandUntrust.java:59-160 | the command reaches the decision tree's outcome; the claim loses the target exactly on a removing outcome and is otherwise left as it was; trust permissions are unset only for a revoked group |
| CustomLogging.IsEnabledType | src/main/java/me/ryanhamshire/griefprevention/logging/CustomLogger.java:92-106 | the chain of early returns that gates entry types (`EnabledTypes`) |
| CustomLogging.EnabledTypes | src/main/java/me/ryanhamshire/griefprevention/logging/CustomLogger.java:92-106 | exceptions and other types are always logged, each activity type follows its own switch, debug entries follow the debug switch |
| CustomLogging.StripFormatting | src/main/java/me/ryanhamshire/griefprevention/logging/CustomLogger.java:86-87 | for a marker that is not a line terminator: the result is no longer, holds no formatting code, keeps the other characters in their order (a subsequence of the text) and keeps a plain first character |
| CustomLogging.StripFormattingKeepsPlainText | src/main/java/me/ryanhamshire/griefprevention/logging/CustomLogger.java:86-87 | text without formatting codes is left as it is |
| CustomLogging.StripFormattingIdempotent | src/main/java/me/ryanhamshire/griefprevention/logging/CustomLogger.java:86-87 | stripping twice is stripping once |
| CustomLogging.StripFormattingKeepsPlainPrefix | src/main/java/me/ryanhamshire/griefprevention/logging/CustomLogger.java:86-87 | a stretch of text without the marker survives in place whatever follows it |
| CustomLogging.FormattingMarkerDiscrepancy | src/main/java/me/ryanhamshire/griefprevention/logging/CustomLogger.java:45 | the pattern as spelled keeps a section-sign code and swallows a replacement character with its successor; the section-sign pattern does the reverse |
| CustomLogging.AsWrittenKeepsColourCodes | src/main/java/me/ryanhamshire/griefprevention/logging/CustomLogger.java:45 | as spelled, the pattern leaves every text without a replacement character unchanged, colour codes included |
| CustomLogging.ParseInt | src/main/java/me/ryanhamshire/griefprevention/logging/CustomLogger.java:156-158 | `Integer.parseInt`: a parsed value lies in the 32-bit range |
| CustomLogging.ParsePadded | src/main/java/me/ryanhamshire/griefprevention/logging/CustomLogger.java:156-158 | a zero-padded decimal in range parses back to its value |
| CustomLogging.RemoveLogSuffix | src/main/java/me/ryanhamshire/griefprevention/logging/CustomLogger.java:148 | removing `.log` from a dot-free name plus `.log` gives the name back |
| CustomLogging.SplitThree | src/main/java/me/ryanhamshire/griefprevention/logging/CustomLogger.java:149-151 | three underscore-free parts joined by underscores split back into those three parts |
| CustomLogging.FileNameRoundTrip | src/main/java/me/ryanhamshire/griefprevention/logging/CustomLogger.java:148-158 | the file name written for a day reads back as that day's year, month and day |
| CustomLogging.ParseFileName | src/main/java/me/ryanhamshire/griefprevention/logging/CustomLogger.java:148-158 | a name minus `.log`, split on `_`, reads as three numbers or is ignored (`FileNameRoundTrip`) |
| CustomLogging.DayNumber | src/main/java/me/ryanhamshire/griefprevention/logging/CustomLogger.java:160-161 | the day a lenient `Calendar.set` settles on, counted from 1970-01-01 (`YearLength`, `NextDateIsNextDay`, `DayNumberExamples`) |
| CustomLogging.Expired | src/main/java/me/ryanhamshire/griefprevention/logging/CustomLogger.java:139-164 | a file is deleted exactly when its name reads as a date before today less the days kept (`TodaysFileKept`, `Examine`) |
| CustomLogging.YearLength | src/main/java/me/ryanhamshire/griefprevention/logging/CustomLogger.java:160-162 | a year has 366 days when it is a leap year and 365 otherwise |
| CustomLogging.NextDateIsNextDay | src/main/java/me/ryanhamshire/griefprevention/logging/CustomLogger.java:160-162 | the day number of the next calendar date is one more, within a month, across a month end and across a year end |
| CustomLogging.DayNumberExamples | src/main/java/me/ryanhamshire/griefprevention/logging/CustomLogger.java:160-162 | 1 January 1970 is day 0, February 2000 has 29 days and February 1900 has 28 |
| CustomLogging.TodaysFileKept | src/main/java/me/ryanhamshire/griefprevention/logging/CustomLogger.java:139-164 | the file of the current day is never deleted as expired while logs are kept |
| CustomLogging.LogFolder.Append | src/main/java/me/ryanhamshire/griefprevention/logging/CustomLogger.java:121 | an append succeeds exactly when the write does and the name is not a directory, and then adds the text at the end of the file |
| CustomLogging.LogFolder.Delete | src/main/java/me/ryanhamshire/griefprevention/logging/CustomLogger.java:163 | the file leaves the folder and nothing else does |
| CustomLogging.LogLineShape | src/main/java/me/ryanhamshire/griefprevention/logging/CustomLogger.java:88-89 | a queued line is the five-character time stamp, a space, the entry without section-sign formatting codes (the intended marker, not the U+FFFD pattern as spelled; see Left out and Findings), and a line end |
| CustomLogging.Examine | src/main/java/me/ryanhamshire/griefprevention/logging/CustomLogger.java:143-170 | an entry is deleted exactly when it is an expired dated file, and reported exactly when it is a file whose three-part name is not all numbers |
| CustomLogging.CustomLogger.constructor | src/main/java/me/ryanhamshire/griefprevention/logging/CustomLogger.java:53-71 | a new logger starts with an empty buffer and leaves the folder without its expired files |
| CustomLogging.CustomLogger.AddEntry | src/main/java/me/ryanhamshire/griefprevention/logging/CustomLogger.java:73-90 | with logging off or the type disabled the buffer is unchanged; otherwise the entry's line, stripped with the intended section-sign marker rather than the U+FFFD pattern as spelled, is appended |
| CustomLogging.FlushAsWritten | src/main/java/me/ryanhamshire/griefprevention/logging/CustomLogger.java:108-130 | the flush as written: after a successful append `setLength(0)` empties the buffer, late text included |
| CustomLogging.Flush | src/main/java/me/ryanhamshire/griefprevention/logging/CustomLogger.java:108-130 | the intended flush: file and buffer together hold the old file, the old buffer and the late text; only the written text leaves the buffer |
| CustomLogging.FlushLosesLateText | src/main/java/me/ryanhamshire/griefprevention/logging/CustomLogger.java:121-126 | as written, file and buffer together keep all text exactly when no text arrives late, the buffer was empty or the write failed; otherwise the late text is what is lost |
| CustomLogging.FlushesAgreeWithoutLateText | src/main/java/me/ryanhamshire/griefprevention/logging/CustomLogger.java:108-130 | without late text the two flushes agree |
| CustomLogging.CustomLogger.WriteEntries | src/main/java/me/ryanhamshire/griefprevention/logging/CustomLogger.java:108-130 | with the corrected flush: no text is lost or written twice, even when other threads queue text during the flush: the day's file followed by the buffer holds what it held, followed by that late text; the written text leaves the buffer only after a successful append |
| CustomLogging.CustomLogger.DeleteExpiredLogs | src/main/java/me/ryanhamshire/griefprevention/logging/CustomLogger.java:132-175 | every expired file is deleted and every other entry kept; the names reported are exactly the files in three parts that are not all numbers |
| ClaimEvents.ClaimEvent.Single | src/main/java/me/ryanhamshire/griefprevention/event/GPClaimEvent.java:45-48 | a single-claim event holds just that claim, is not cancelled and has no message |
| ClaimEvents.ClaimEvent.constructor | src/main/java/me/ryanhamshire/griefprevention/event/GPClaimEvent.java:50-53 | a list event holds the claims given, as a value, is not cancelled and has no message |
| ClaimEvents.ClaimEvent.SetCancelled | src/main/java/me/ryanhamshire/griefprevention/event/GPClaimEvent.java:55-63 | the cancel flag reads back as set, and the message is kept |
| ClaimEvents.ClaimEvent.SetMessage | src/main/java/me/ryanhamshire/griefprevention/event/GPClaimEvent.java:80-83 | the message reads back as set (null leaves none), and the cancel flag is kept |
| ClaimEvents.ClaimEvent.Claim | src/main/java/me/ryanhamshire/griefprevention/event/GPBorderClaimEvent.java:65 | `getClaim()`, as the border event reads it for the greeting: the claim an event reports is one of its claims (on a border event, the entered claim, by the constructor's contract) |
| ClaimEvents.VetoThenAllow | src/main/java/me/ryanhamshire/griefprevention/event/GPClaimEvent.java:55-83 | listeners that set the flag, leave a message and set the flag again leave the event with the last flag and that message, whatever it held before |
| ClaimEvents.BorderClaimEvent.constructor | src/main/java/me/ryanhamshire/griefprevention/event/GPBorderClaimEvent.java:39-50 | the event holds the entered claim and `getClaim()` returns it, so the greeting fallback reads the entered claim; it knows the exited claim and the entity, has no message overrides and sends both messages on the chat channel |
| ClaimEvents.BorderClaimEvent.EnterMessage | src/main/java/me/ryanhamshire/griefprevention/event/GPBorderClaimEvent.java:62-69 | the override when one is set, and the entered claim's greeting otherwise |
| ClaimEvents.BorderClaimEvent.ExitMessage | src/main/java/me/ryanhamshire/griefprevention/event/GPBorderClaimEvent.java:71-78 | the override when one is set, and the exited claim's farewell otherwise |
| ClaimEvents.BorderClaimEvent.SetEnterMessage | src/main/java/me/ryanhamshire/griefprevention/event/GPBorderClaimEvent.java:80-84 | a message overrides the greeting and null restores it; only the enter side and its chat type change |
| ClaimEvents.BorderClaimEvent.SetExitMessage | src/main/java/me/ryanhamshire/griefprevention/event/GPBorderClaimEvent.java:86-90 | a message overrides the farewell and null restores it; only the exit side and its chat type change |
| ClaimEvents.BorderMessagesFallBack | src/main/java/me/ryanhamshire/griefprevention/event/GPBorderClaimEvent.java:62-84 | on any border event, an override of the enter message followed by a reset shows the entered claim's greeting on the reset's channel, and the exit side is untouched |

## Left out

- `TrustType.NONE` carries no trust list, so the levels are the four that do. The loops in `Untrust` visit them in the enum's order.
- The branch at CommandUntrust.java:78-81 cannot be reached. A missing group argument throws at line 72 before it, and that exception is modelled as `GroupArgumentMissing`.
- Exceptions on paths the commands do not guard are left out. Examples are a console sender, a missing claim in `/sellclaim`, and the `arg` of `/sellclaim` without a price. Each becomes its own outcome where it ends the command, or is assumed not to happen where the claim lookup never returns null.
- Text, colours, hover and click callbacks and pagination are left out. The `/claiminfo` page is the list of its lines, and its report of names, dates, corners and `claimY` is not modelled.
- External services are inputs: the economy (presence, account, withdraw and deposit results), the permission service and group subjects, event posting and veto, the scheduler, the clock and the disk.
- `GPClaim.transferOwner`, `changeType`, `allowEdit`, `allowGrantPermission`, `canIgnoreClaim` and the claim lookups are not part of this model. Their answers are parameters.
- Saving (`save()` calls and the HOCON storage) is not modelled. The dirty bit `requiresSave` stands for the request to save.
- `/abandonallclaims` returns the claims whose context permissions it clears as `permissionsCleared`; the permission service itself and the final claim deletion are reduced to that list, the ledger change and the emptied claim list.
- Floating point: prices, ratios and option values are `real`, and `Math.ceil` is exact. `BigDecimal` rounding is not modelled.
- ClaimBlockLedger.PlayerLedger.BuyBlocks: does not model 32-bit wrap-around of `accrued + count` at CommandClaimBuyBlocks.java:104, because block counts are unbounded integers in the model.
- ClaimBlockLedger.PlayerLedger.SellBlocks: does not model 32-bit wrap-around of `bonus - count`, for the same reason.
- ClaimBlockLedger.PlayerLedger.AbandonAll: does not model the `(int)` cast of `Math.ceil` at CommandClaimAbandonAll.java:87, which saturates at Integer.MAX_VALUE and Integer.MIN_VALUE, nor the 32-bit wrap-around of `accrued - penalty`, because block counts and penalties are unbounded integers in the model. The ratio is not bounded either, since the source accepts any ratio: with a ratio of -1e9 and a 100-block claim the source takes 2147483647 blocks and the model takes 100000000100.
- `Calendar` is proleptic Gregorian here, and lenient like `Calendar.set`: a month outside 1-12 moves the year and a day outside the month moves the date. The Julian calendar before 1582, the time of day, daylight saving and time zones are left out.
- CustomLogging.Examine: does not model the 32-bit wrap of `month - 1` at CustomLogger.java:157 for a month part of -2147483648, because the model subtracts on unbounded integers.
- `Integer.parseInt` accepts non-ASCII digits; the model parses ASCII digits only. Case folding in `equalsIgnoreCase` is ASCII only.
- `File.delete` is assumed to succeed. The debug entry for an ignored log file is returned as the set of ignored names.
- The `CustomLogEntryTypes` enum is not part of this model; `OtherType` stands for the types the gate does not name.
- The flag names of `GPFlags` are not part of this model, so `LegacyClaimStorage.FlagName` uses stand-in names (kebab-case, one per flag). Only their distinctness matters.
- `GPOptions` constants are not part of this model either, so the option keys are a datatype and free-form names are `Named` keys.
- OptionHandler.Qualify: an unprefixed free-form name whose prefixed text is a `GPOptions` constant's text stays a `Named` key and is not recognised as that constant, because the constants' texts are not part of this model.
- `BlockUtils` position parsing and printing are not part of this model. `ClaimData` takes them as function fields fixed at construction.
- ClaimDataConfig.ClaimData.FromMap: requires a map whose values survive the constructor's casts and enum parses, and whose UUID texts (the world and owner values and every string of a trust list) are canonical 8-4-4-4-12 hex spellings (`UuidSyntax`). A malformed value throws in the source and is not modelled. `UUID.fromString` also accepts lenient spellings (shorter groups, a sign before a group) and normalises them; those are excluded too, because the model reads only the canonical form. A null value for the date and corner keys, which the casts accept and store as null, is excluded as well.
- The trust-list getters hand out live lists. The model has `RemoveUserTrust` and `RemoveGroupTrust` stand for `remove` on them, and does not model other aliasing of those lists.
- The target entity of a border event is a `Uuid`. The entity object itself is not modelled.
- The cause stack and the `try`-with-resources frames are left out.
- ClaimTransfer.Execute: the AdminActivity log entry written after a successful transfer (CommandClaimTransfer.java:87-89) is not modelled.
- CustomLogging.StripFormatting: the log line (CustomLogging.LogLineShape, CustomLogging.CustomLogger.AddEntry) is built with the section sign, the evidently intended marker; the pattern as spelled at CustomLogger.java:45 starts with the replacement character U+FFFD and is modelled by the same function with that marker (see Findings).
- CustomLogging.CustomLogger.WriteEntries: uses the intended flush. The source's `setLength(0)` drops any text `addEntry` queues on another thread between `toString` (CustomLogger.java:121) and the clear (:126); `FlushAsWritten` models that. Other interleavings are not modelled: the buffer's methods are synchronized, so an append before the read is written and one after the clear stays queued.

## Findings

| source | as written | input that shows it | evidently intended | confidence | as-written member | corrected member |
|---|---|---|---|---|---|---|
| src/main/java/me/ryanhamshire/griefprevention/permission/GPOptionHandler.java:117-144 | the maximum-size and tax-expiration case group returns on its `>` test but has no `break`, so a smaller value falls into the minimum group's `<` test, which returns the administrator's value; the result is always the administrator's value | key `MAX_CLAIM_SIZE_BASIC_X`, subject value 50, administrator value 100: the result is 100 | a subject's maximum below the administrator's ceiling is kept (50), and only larger values are capped | not executed | OptionHandler.ClampAsWritten (shown by OptionHandler.ClampDiscardsSubjectMaximum, OptionHandler.ClampsDifferBelowCeiling and, through the resolver, OptionHandler.MaxClampedKeyIsAdminValue) | OptionHandler.ClampIntended (OptionHandler.MaxClampedKeyIsCapped and OptionHandler.ClaimMaxSizeIgnoresSubject, with the resolver's `Intended` rule) |
| src/main/java/me/ryanhamshire/griefprevention/command/CommandUntrust.java:159 | `"Revoked " + user != null ? user.getName() : group + "..."` parses as `("Revoked " + user) != null ? ...`, which is always true | untrusting group `builders`: `user` is null and `user.getName()` throws after the trust was removed; untrusting a user shows only the user's name | "Revoked <name>'s access to this claim. ..." for users and groups alike | not executed | Untrust.RevokedMessageAsWritten (shown by Untrust.RevokedMessageDiscrepancy) | Untrust.RevokedMessage (Untrust.RevokedMessageNamesSubject; used by Untrust.DecideRemoval, Untrust.RevokeUser and Untrust.RevokeGroup) |
| src/main/java/me/ryanhamshire/griefprevention/logging/CustomLogger.java:45 | the formatter pattern starts with U+FFFD, the replacement character (bytes EF BF BD), not the section sign of the game's formatting codes | the entry "§aHello": the code is kept; the entry "\uFFFDaHello" loses "\uFFFDa" | "§." removes each two-character colour code | medium, not executed | CustomLogging.StripFormatting with marker CustomLogging.ReplacementChar (shown by CustomLogging.FormattingMarkerDiscrepancy and CustomLogging.AsWrittenKeepsColourCodes) | CustomLogging.StripFormatting with marker CustomLogging.SectionSign (CustomLogging.StripFormattingKeepsPlainText, CustomLogging.StripFormattingIdempotent; used by CustomLogging.LogLineShape and CustomLogging.CustomLogger.AddEntry) |
| src/main/java/me/ryanhamshire/griefprevention/logging/CustomLogger.java:121-126 | the flush reads the buffer, appends it, then clears the whole buffer with `setLength(0)`, while `addEntry` appends from other threads | an entry queued by another thread after `toString` and before `setLength(0)`, with the append succeeding: it is in neither the file nor the buffer | only the written text leaves the buffer, as the retry comment at :123-125 promises for unwritten entries | not executed | CustomLogging.FlushAsWritten (shown by CustomLogging.FlushLosesLateText) | CustomLogging.Flush (used by CustomLogging.CustomLogger.WriteEntries) |
