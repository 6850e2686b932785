/** The legacy claim storage: the dotted-key splitter used to address a
    configuration node, and the flags category of a claim file, a fixed table
    of 29 named flags with get, set and whole-table views. */
module LegacyClaimStorage {
  import opened Common

  // ---------------------------------------------------------------------
  // Setting keys

  /** `getSetting`: a key `category.prop` addresses node `prop` under node
      `category`. A key with no dot, or whose first dot is its last
      character, addresses nothing. */
  function GetSetting(key: string): (r: Option<(string, string)>)
    ensures r.None? <==> '.' !in key || FirstIndex(key, '.') == |key| - 1
    ensures r.Some? ==> r.value.0 + "." + r.value.1 == key && '.' !in r.value.0 && r.value.1 != []
  {
    if '.' !in key then None
    else
      var i := FirstIndex(key, '.');
      if i == |key| - 1 then None
      else
        assert key == key[..i] + "." + key[i + 1..] by {
          assert key == key[..i] + [key[i]] + key[i + 1..];
        }
        Some((key[..i], key[i + 1..]))
  }

  /** Splitting a key built from a dot-free category and a non-empty property
      gives them back. */
  lemma {:induction false} GetSettingRoundTrip(category: string, prop: string)
    requires '.' !in category && prop != []
    ensures GetSetting(category + "." + prop) == Some((category, prop))
  {
    var key := category + "." + prop;
    assert key[|category|] == '.';
    assert key[..|category|] == category;
    var i := FirstIndex(key, '.');
    assert i == |category|;
    assert key[i + 1..] == prop;
  }

  // ---------------------------------------------------------------------
  // Flags

  /** The flags a claim file carries, in field order. */
  datatype Flag =
    | BlockBreak | BlockCommands | BlockPlace | Explosions | FireSpread | ForceDenyAll
    | InteractPrimary | InteractSecondary | InventoryAccess | ItemDrop | ItemPickup | ItemUse
    | LavaFlow | MobBlockDamage | MobPlayerDamage | MobRiding | PortalUse
    | ProjectilesAny | ProjectilesMonster | ProjectilesPlayer | Pvp | Sleep
    | SpawnAmbients | SpawnAny | SpawnAquatics | SpawnMonsters | SpawnPassives
    | VillagerTrading | WaterFlow

  /** The name each flag is stored and addressed under (`GPFlags`). */
  function FlagName(f: Flag): string
  {
    match f
    case BlockBreak => "block-break"
    case BlockCommands => "block-commands"
    case BlockPlace => "block-place"
    case Explosions => "explosions"
    case FireSpread => "fire-spread"
    case ForceDenyAll => "force-deny-all"
    case InteractPrimary => "interact-primary"
    case InteractSecondary => "interact-secondary"
    case InventoryAccess => "inventory"
    case ItemDrop => "item-drop"
    case ItemPickup => "item-pickup"
    case ItemUse => "item-use"
    case LavaFlow => "lava-flow"
    case MobBlockDamage => "mob-block-damage"
    case MobPlayerDamage => "mob-player-damage"
    case MobRiding => "mob-riding"
    case PortalUse => "portal-use"
    case ProjectilesAny => "projectiles-any"
    case ProjectilesMonster => "projectiles-monster"
    case ProjectilesPlayer => "projectiles-player"
    case Pvp => "pvp"
    case Sleep => "sleep"
    case SpawnAmbients => "spawn-ambient"
    case SpawnAny => "spawn-any"
    case SpawnAquatics => "spawn-aquatic"
    case SpawnMonsters => "spawn-monsters"
    case SpawnPassives => "spawn-passives"
    case VillagerTrading => "villager-trading"
    case WaterFlow => "water-flow"
  }

  /** The switch on a flag name shared by `setFlagValue` and `getFlagValue`. */
  function FlagNamed(name: string): Option<Flag>
  {
    match name
    case "block-break" => Some(BlockBreak)
    case "block-commands" => Some(BlockCommands)
    case "block-place" => Some(BlockPlace)
    case "explosions" => Some(Explosions)
    case "fire-spread" => Some(FireSpread)
    case "force-deny-all" => Some(ForceDenyAll)
    case "interact-primary" => Some(InteractPrimary)
    case "interact-secondary" => Some(InteractSecondary)
    case "inventory" => Some(InventoryAccess)
    case "item-drop" => Some(ItemDrop)
    case "item-pickup" => Some(ItemPickup)
    case "item-use" => Some(ItemUse)
    case "lava-flow" => Some(LavaFlow)
    case "mob-block-damage" => Some(MobBlockDamage)
    case "mob-player-damage" => Some(MobPlayerDamage)
    case "mob-riding" => Some(MobRiding)
    case "portal-use" => Some(PortalUse)
    case "projectiles-any" => Some(ProjectilesAny)
    case "projectiles-monster" => Some(ProjectilesMonster)
    case "projectiles-player" => Some(ProjectilesPlayer)
    case "pvp" => Some(Pvp)
    case "sleep" => Some(Sleep)
    case "spawn-ambient" => Some(SpawnAmbients)
    case "spawn-any" => Some(SpawnAny)
    case "spawn-aquatic" => Some(SpawnAquatics)
    case "spawn-monsters" => Some(SpawnMonsters)
    case "spawn-passives" => Some(SpawnPassives)
    case "villager-trading" => Some(VillagerTrading)
    case "water-flow" => Some(WaterFlow)
    case _ => None
  }

  /** Every flag is reached by its own name, so the 29 names are distinct. */
  lemma FlagNameRoundTrip(f: Flag)
    ensures FlagNamed(FlagName(f)) == Some(f)
  {
    if f.BlockBreak? || f.BlockCommands? || f.BlockPlace? || f.Explosions? || f.FireSpread? ||
       f.ForceDenyAll? || f.InteractPrimary? || f.InteractSecondary? || f.InventoryAccess? || f.ItemDrop? {
      FlagNameRoundTripFirst(f);
    } else if f.ItemPickup? || f.ItemUse? || f.LavaFlow? || f.MobBlockDamage? || f.MobPlayerDamage? ||
              f.MobRiding? || f.PortalUse? || f.ProjectilesAny? || f.ProjectilesMonster? || f.ProjectilesPlayer? {
      FlagNameRoundTripSecond(f);
    } else {
      FlagNameRoundTripThird(f);
    }
  }

  lemma FlagNameRoundTripFirst(f: Flag)
    requires f.BlockBreak? || f.BlockCommands? || f.BlockPlace? || f.Explosions? || f.FireSpread? || f.ForceDenyAll? || f.InteractPrimary? || f.InteractSecondary? || f.InventoryAccess? || f.ItemDrop?
    ensures FlagNamed(FlagName(f)) == Some(f)
  {
    match f {
      case BlockBreak => assert FlagNamed("block-break") == Some(BlockBreak);
      case BlockCommands => assert FlagNamed("block-commands") == Some(BlockCommands);
      case BlockPlace => assert FlagNamed("block-place") == Some(BlockPlace);
      case Explosions => assert FlagNamed("explosions") == Some(Explosions);
      case FireSpread => assert FlagNamed("fire-spread") == Some(FireSpread);
      case ForceDenyAll => assert FlagNamed("force-deny-all") == Some(ForceDenyAll);
      case InteractPrimary => assert FlagNamed("interact-primary") == Some(InteractPrimary);
      case InteractSecondary => assert FlagNamed("interact-secondary") == Some(InteractSecondary);
      case InventoryAccess => assert FlagNamed("inventory") == Some(InventoryAccess);
      case ItemDrop => assert FlagNamed("item-drop") == Some(ItemDrop);
      case _ =>
    }
  }

  lemma FlagNameRoundTripSecond(f: Flag)
    requires f.ItemPickup? || f.ItemUse? || f.LavaFlow? || f.MobBlockDamage? || f.MobPlayerDamage? || f.MobRiding? || f.PortalUse? || f.ProjectilesAny? || f.ProjectilesMonster? || f.ProjectilesPlayer?
    ensures FlagNamed(FlagName(f)) == Some(f)
  {
    match f {
      case ItemPickup => assert FlagNamed("item-pickup") == Some(ItemPickup);
      case ItemUse => assert FlagNamed("item-use") == Some(ItemUse);
      case LavaFlow => assert FlagNamed("lava-flow") == Some(LavaFlow);
      case MobBlockDamage => assert FlagNamed("mob-block-damage") == Some(MobBlockDamage);
      case MobPlayerDamage => assert FlagNamed("mob-player-damage") == Some(MobPlayerDamage);
      case MobRiding => assert FlagNamed("mob-riding") == Some(MobRiding);
      case PortalUse => assert FlagNamed("portal-use") == Some(PortalUse);
      case ProjectilesAny => assert FlagNamed("projectiles-any") == Some(ProjectilesAny);
      case ProjectilesMonster => assert FlagNamed("projectiles-monster") == Some(ProjectilesMonster);
      case ProjectilesPlayer => assert FlagNamed("projectiles-player") == Some(ProjectilesPlayer);
      case _ =>
    }
  }

  lemma FlagNameRoundTripThird(f: Flag)
    requires f.Pvp? || f.Sleep? || f.SpawnAmbients? || f.SpawnAny? || f.SpawnAquatics? || f.SpawnMonsters? || f.SpawnPassives? || f.VillagerTrading? || f.WaterFlow?
    ensures FlagNamed(FlagName(f)) == Some(f)
  {
    match f {
      case Pvp => assert FlagNamed("pvp") == Some(Pvp);
      case Sleep => assert FlagNamed("sleep") == Some(Sleep);
      case SpawnAmbients => assert FlagNamed("spawn-ambient") == Some(SpawnAmbients);
      case SpawnAny => assert FlagNamed("spawn-any") == Some(SpawnAny);
      case SpawnAquatics => assert FlagNamed("spawn-aquatic") == Some(SpawnAquatics);
      case SpawnMonsters => assert FlagNamed("spawn-monsters") == Some(SpawnMonsters);
      case SpawnPassives => assert FlagNamed("spawn-passives") == Some(SpawnPassives);
      case VillagerTrading => assert FlagNamed("villager-trading") == Some(VillagerTrading);
      case WaterFlow => assert FlagNamed("water-flow") == Some(WaterFlow);
      case _ =>
    }
  }

  /** The flags whose field is a tri-state: all but the command list. */
  const TristateFlags: set<Flag> :=
    {BlockBreak, BlockPlace, Explosions, FireSpread, ForceDenyAll,
     InteractPrimary, InteractSecondary, InventoryAccess, ItemDrop, ItemPickup, ItemUse,
     LavaFlow, MobBlockDamage, MobPlayerDamage, MobRiding, PortalUse,
     ProjectilesAny, ProjectilesMonster, ProjectilesPlayer, Pvp, Sleep,
     SpawnAmbients, SpawnAny, SpawnAquatics, SpawnMonsters, SpawnPassives,
     VillagerTrading, WaterFlow}

  /** The Java objects a flag value can be: a tri-state, a command list,
      null, or an object of some other class. */
  datatype FlagObject = TristateValue(state: Tristate) | CommandList(list: seq<string>) | Null | OtherObject

  /** `ClaimDataFlagsCategory`: the 28 tri-state flags, each possibly null,
      and the blocked-command list, possibly null. */
  class FlagsCategory {
    var tristates: map<Flag, Option<Tristate>>
    var blockCommands: Option<seq<string>>

    /** Every tri-state flag has a field. */
    ghost predicate Valid()
      reads this
    {
      forall f :: f != BlockCommands ==> f in tristates
    }

    /** The field a flag reads, as a Java object. */
    function Value(f: Flag): FlagObject
      requires Valid()
      reads this
    {
      if f == BlockCommands then
        (if blockCommands.None? then Null else CommandList(blockCommands.value))
      else
        (if tristates[f].None? then Null else TristateValue(tristates[f].value))
    }

    /** Every tri-state flag starts UNDEFINED and the command list empty. */
    constructor ()
      ensures Valid()
      ensures forall f :: f != BlockCommands ==> Value(f) == TristateValue(Undefined)
      ensures Value(BlockCommands) == CommandList([])
    {
      tristates := map f | f in TristateFlags :: Some(Undefined);
      blockCommands := Some([]);
    }

    /** `getFlagValue`: the named flag's field, and null for a name the
        switch does not know. */
    function GetFlagValue(name: string): (r: FlagObject)
      requires Valid()
      reads this
      ensures FlagNamed(name).None? ==> r == Null
      ensures FlagNamed(name).Some? ==> r == Value(FlagNamed(name).value)
    {
      match FlagNamed(name)
      case None => Null
      case Some(f) => Value(f)
    }

    /** `getFlagMap`: every flag under its name, and nothing else. */
    function GetFlagMap(): (m: map<string, FlagObject>)
      requires Valid()
      reads this
      ensures m.Keys == FlagNames()
      ensures forall f :: FlagName(f) in m && m[FlagName(f)] == Value(f)
    {
      FlagNamesKnown();
      map name | name in FlagNames() :: GetFlagValue(name)
    }

    /** `setFlagValue`: the named field takes `value`, cast to the field's
        type. A value of the wrong class throws a ClassCastException before
        anything changes; an unknown name changes nothing. */
    method SetFlagValue(name: string, value: FlagObject) returns (classCastFailure: bool)
      requires Valid()
      modifies this
      ensures Valid()
      ensures classCastFailure <==> FlagNamed(name).Some? && !Fits(FlagNamed(name).value, value)
      ensures forall f :: FlagNamed(name) != Some(f) || classCastFailure ==> Value(f) == old(Value(f))
      ensures FlagNamed(name).Some? && !classCastFailure ==> Value(FlagNamed(name).value) == value
    {
      var found := FlagNamed(name);
      if found.None? {
        return false;
      }
      var f := found.value;
      if !Fits(f, value) {
        return true;
      }
      if f == BlockCommands {
        blockCommands := if value.Null? then None else Some(value.list);
      } else {
        tristates := tristates[f := if value.Null? then None else Some(value.state)];
      }
      return false;
    }
  }

  /** The names of all flags. */
  function FlagNames(): set<string>
  {
    set f: Flag | true :: FlagName(f)
  }

  /** The switch recognises every flag's name, as that flag. */
  lemma FlagNamesKnown()
    ensures forall f :: FlagNamed(FlagName(f)) == Some(f)
  {
    forall f: Flag ensures FlagNamed(FlagName(f)) == Some(f) {
      FlagNameRoundTrip(f);
    }
  }

  /** Whether `value` survives the cast to the field of flag `f` (null always does). */
  predicate Fits(f: Flag, value: FlagObject)
  {
    value.Null? || (if f == BlockCommands then value.CommandList? else value.TristateValue?)
  }
}
