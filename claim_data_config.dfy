/** The per-claim settings record (ClaimDataConfig): stored settings with a
    dirty bit that tells the storage layer to write the record, corner and
    spawn positions parsed lazily from their stored text, and a loader that
    builds a record from a legacy key/value map. */
module ClaimDataConfig {
  import opened Common

  /** Everything the record persists, as one value. */
  datatype Settings = Settings(
    inheritParent: bool,
    parent: Option<Uuid>,
    worldUniqueId: Option<Uuid>,
    ownerUniqueId: Option<Uuid>,
    claimType: ClaimType,
    isCuboid: bool,
    isResizable: bool,
    isExpired: bool,
    sizeRestrictions: bool,
    allowDenyMessages: bool,
    allowClaimExpiration: bool,
    allowFlagOverrides: bool,
    requiresClaimBlocks: bool,
    pvpOverride: Tristate,
    dateCreated: string,
    dateLastActive: string,
    claimName: Option<string>,
    greeting: Option<string>,
    farewell: Option<string>,
    claimSpawn: Option<string>,
    lesserCorner: Option<string>,
    greaterCorner: Option<string>,
    accessors: seq<Uuid>,
    builders: seq<Uuid>,
    containers: seq<Uuid>,
    managers: seq<Uuid>,
    accessorGroups: seq<string>,
    builderGroups: seq<string>,
    containerGroups: seq<string>,
    managerGroups: seq<string>)

  /** The field initialisers of a new record; `now` is the creation instant as text. */
  function Defaults(now: string): Settings
  {
    Settings(
      inheritParent := true, parent := None, worldUniqueId := None, ownerUniqueId := None,
      claimType := Basic, isCuboid := false, isResizable := true, isExpired := false,
      sizeRestrictions := true, allowDenyMessages := true, allowClaimExpiration := true,
      allowFlagOverrides := true, requiresClaimBlocks := true, pvpOverride := Undefined,
      dateCreated := now, dateLastActive := now,
      claimName := None, greeting := None, farewell := None, claimSpawn := None,
      lesserCorner := None, greaterCorner := None,
      accessors := [], builders := [], containers := [], managers := [],
      accessorGroups := [], builderGroups := [], containerGroups := [], managerGroups := [])
  }

  // ---------------------------------------------------------------------
  // The legacy key/value map

  /** A value of the legacy map: text, a boolean, or a possibly-null list of text. */
  datatype MapValue = Text(text: string) | Flag(flag: bool) | TextList(list: Option<seq<string>>)

  /** `ClaimType.valueOf`. */
  function ClaimTypeNamed(name: string): Option<ClaimType>
  {
    match name
    case "ADMIN" => Some(Admin)
    case "BASIC" => Some(Basic)
    case "SUBDIVISION" => Some(Subdivision)
    case "TOWN" => Some(Town)
    case "WILDERNESS" => Some(Wilderness)
    case _ => None
  }

  /** `Tristate.valueOf`. */
  function TristateNamed(name: string): Option<Tristate>
  {
    match name
    case "TRUE" => Some(True)
    case "FALSE" => Some(False)
    case "UNDEFINED" => Some(Undefined)
    case _ => None
  }

  /** The keys the map constructor's switch recognises; anything else is `Unknown`. */
  datatype MapKey =
    | WorldUuid | OwnerUuid | ClaimTypeKey | Cuboid | ClaimExpiration
    | DateCreated | DateLastActive | DenyMessages | FlagOverrides
    | GreaterCorner | LesserCorner | PvpKey | Resizeable
    | AccessorsKey | BuildersKey | ContainersKey | ManagersKey | Unknown

  function KeyNamed(key: string): MapKey
  {
    match key
    case "world-uuid" => WorldUuid
    case "owner-uuid" => OwnerUuid
    case "claim-type" => ClaimTypeKey
    case "cuboid" => Cuboid
    case "claim-expiration" => ClaimExpiration
    case "date-created" => DateCreated
    case "date-last-active" => DateLastActive
    case "deny-messages" => DenyMessages
    case "flag-overrides" => FlagOverrides
    case "greater-boundary-corner" => GreaterCorner
    case "lesser-boundary-corner" => LesserCorner
    case "pvp" => PvpKey
    case "resizeable" => Resizeable
    case "accessors" => AccessorsKey
    case "builders" => BuildersKey
    case "containers" => ContainersKey
    case "managers" => ManagersKey
    case _ => Unknown
  }

  /** An entry whose value survives the constructor's cast and parse for its key. */
  predicate WellFormedEntry(key: string, value: MapValue)
  {
    WellFormedValue(KeyNamed(key), value)
  }

  predicate WellFormedValue(k: MapKey, value: MapValue)
  {
    match k
    case WorldUuid | OwnerUuid => value.Text? && UuidSyntax(value.text)
    case DateCreated | DateLastActive | GreaterCorner | LesserCorner => value.Text?
    case ClaimTypeKey => value.Text? && ClaimTypeNamed(value.text).Some?
    case PvpKey => value.Text? && TristateNamed(value.text).Some?
    case Cuboid | ClaimExpiration | DenyMessages | FlagOverrides | Resizeable => value.Flag?
    case AccessorsKey | BuildersKey | ContainersKey | ManagersKey =>
      value.TextList? && (value.list.Some? ==> AllUuidSyntax(value.list.value))
    case Unknown => true
  }

  predicate WellFormedMap(entries: seq<(string, MapValue)>)
  {
    forall i :: 0 <= i < |entries| ==> WellFormedEntry(entries[i].0, entries[i].1)
  }

  /** The UUIDs a trust-list entry contributes, in list order (a null list contributes none). */
  function ListUuids(list: Option<seq<string>>): (r: seq<Uuid>)
    ensures list.None? ==> r == []
    ensures list.Some? ==> |r| == |list.value| && forall j :: 0 <= j < |r| ==> r[j] == UuidOf(list.value[j])
  {
    if list.None? then [] else ToUuids(list.value)
  }

  function ToUuids(strs: seq<string>): (r: seq<Uuid>)
    ensures |r| == |strs| && forall j :: 0 <= j < |r| ==> r[j] == UuidOf(strs[j])
  {
    if strs == [] then [] else [UuidOf(strs[0])] + ToUuids(strs[1..])
  }

  /** One iteration of the map constructor's switch. */
  function ApplyEntry(s: Settings, k: MapKey, value: MapValue): Settings
    requires WellFormedValue(k, value)
  {
    match k
    case WorldUuid => s.(worldUniqueId := Some(UuidOf(value.text)))
    case OwnerUuid => s.(ownerUniqueId := Some(UuidOf(value.text)))
    case ClaimTypeKey => s.(claimType := ClaimTypeNamed(value.text).value)
    case Cuboid => s.(isCuboid := value.flag)
    case ClaimExpiration => s.(allowClaimExpiration := value.flag)
    case DateCreated => s.(dateCreated := value.text)
    case DateLastActive => s.(dateLastActive := value.text)
    case DenyMessages => s.(allowDenyMessages := value.flag)
    case FlagOverrides => s.(allowFlagOverrides := value.flag)
    case GreaterCorner => s.(greaterCorner := Some(value.text))
    case LesserCorner => s.(lesserCorner := Some(value.text))
    case PvpKey => s.(pvpOverride := TristateNamed(value.text).value)
    case Resizeable => s.(isResizable := value.flag)
    case AccessorsKey => s.(accessors := s.accessors + ListUuids(value.list))
    case BuildersKey => s.(builders := s.builders + ListUuids(value.list))
    case ContainersKey => s.(containers := s.containers + ListUuids(value.list))
    case ManagersKey => s.(managers := s.managers + ListUuids(value.list))
    case Unknown => s
  }

  lemma WellFormedTail(entries: seq<(string, MapValue)>)
    requires WellFormedMap(entries) && entries != []
    ensures WellFormedValue(KeyNamed(entries[0].0), entries[0].1) && WellFormedMap(entries[1..])
  {
    var rest := entries[1..];
    forall i | 0 <= i < |rest| ensures WellFormedEntry(rest[i].0, rest[i].1) {
      assert rest[i] == entries[i + 1];
    }
  }

  /** The record the map constructor builds from `s` by visiting `entries` in order. */
  function LoadFrom(s: Settings, entries: seq<(string, MapValue)>): Settings
    requires WellFormedMap(entries)
    decreases |entries|
  {
    if entries == [] then s
    else LoadFrom(ApplyEntry(s, KeyNamed(entries[0].0), entries[0].1), entries[1..])
  }

  lemma {:induction false} LoadFromSnoc(s: Settings, entries: seq<(string, MapValue)>, key: string, value: MapValue)
    requires WellFormedMap(entries) && WellFormedEntry(key, value)
    ensures WellFormedMap(entries + [(key, value)])
    ensures LoadFrom(s, entries + [(key, value)]) == ApplyEntry(LoadFrom(s, entries), KeyNamed(key), value)
    decreases |entries|
  {
    var es := entries + [(key, value)];
    assert WellFormedMap(es) by {
      forall i | 0 <= i < |es| ensures WellFormedEntry(es[i].0, es[i].1) {
        if i < |entries| { assert es[i] == entries[i]; }
      }
    }
    if entries != [] {
      assert es[1..] == entries[1..] + [(key, value)];
      LoadFromSnoc(ApplyEntry(s, KeyNamed(entries[0].0), entries[0].1), entries[1..], key, value);
    }
  }

  /** The map key that carries the user trust list of level `t`. */
  function ListKey(t: TrustType): MapKey
  {
    match t
    case Accessor => AccessorsKey
    case Builder => BuildersKey
    case Container => ContainersKey
    case Manager => ManagersKey
  }

  /** The UUIDs all entries for the user trust list of level `t` contribute, in map order. */
  function Collected(entries: seq<(string, MapValue)>, t: TrustType): seq<Uuid>
    requires WellFormedMap(entries)
  {
    if entries == [] then []
    else (if KeyNamed(entries[0].0) == ListKey(t) then ListUuids(entries[0].1.list) else []) + Collected(entries[1..], t)
  }

  /** What one entry does to a user trust list. */
  lemma ApplyEntryTrustLists(s: Settings, k: MapKey, value: MapValue, t: TrustType)
    requires WellFormedValue(k, value)
    ensures UserList(ApplyEntry(s, k, value), t) == UserList(s, t) + (if k == ListKey(t) then ListUuids(value.list) else [])
    ensures GroupList(ApplyEntry(s, k, value), t) == GroupList(s, t)
  {
    match k {
      case AccessorsKey =>
      case BuildersKey =>
      case ContainersKey =>
      case ManagersKey =>
      case _ =>
    }
  }

  /** The loader appends each trust-list entry's UUIDs in input order to what
      is already there. */
  lemma {:induction false} LoadAppendsTrustLists(s: Settings, entries: seq<(string, MapValue)>, t: TrustType)
    requires WellFormedMap(entries)
    ensures UserList(LoadFrom(s, entries), t) == UserList(s, t) + Collected(entries, t)
    decreases |entries|
  {
    if entries != [] {
      var k, v := KeyNamed(entries[0].0), entries[0].1;
      assert WellFormedValue(k, v);
      var rest := entries[1..];
      WellFormedTail(entries);
      var s' := ApplyEntry(s, k, v);
      assert LoadFrom(s, entries) == LoadFrom(s', rest);
      var added := if k == ListKey(t) then ListUuids(v.list) else [];
      assert Collected(entries, t) == added + Collected(rest, t);
      ApplyEntryTrustLists(s, k, v, t);
      LoadAppendsTrustLists(s', rest, t);
      AppendAssociative(UserList(s, t), added, Collected(rest, t));
    }
  }

  lemma AppendAssociative<T>(a: seq<T>, b: seq<T>, c: seq<T>)
    ensures a + b + c == a + (b + c)
  {
  }

  /** The loader never touches the group trust lists. */
  lemma {:induction false} LoadKeepsGroupLists(s: Settings, entries: seq<(string, MapValue)>, t: TrustType)
    requires WellFormedMap(entries)
    ensures GroupList(LoadFrom(s, entries), t) == GroupList(s, t)
    decreases |entries|
  {
    if entries != [] {
      var k, v := KeyNamed(entries[0].0), entries[0].1;
      WellFormedTail(entries);
      ApplyEntryTrustLists(s, k, v, t);
      LoadKeepsGroupLists(ApplyEntry(s, k, v), entries[1..], t);
    }
  }

  /** Entries whose keys the switch does not recognise make no difference:
      dropping them all leaves the loaded record the same. */
  function Recognised(entries: seq<(string, MapValue)>): (r: seq<(string, MapValue)>)
    ensures forall i :: 0 <= i < |r| ==> KeyNamed(r[i].0) != Unknown && r[i] in entries
    ensures |r| <= |entries|
  {
    if entries == [] then []
    else if KeyNamed(entries[0].0) != Unknown then [entries[0]] + Recognised(entries[1..])
    else Recognised(entries[1..])
  }

  lemma {:induction false} LoadIgnoresUnknownKeys(s: Settings, entries: seq<(string, MapValue)>)
    requires WellFormedMap(entries)
    ensures WellFormedMap(Recognised(entries))
    ensures LoadFrom(s, entries) == LoadFrom(s, Recognised(entries))
    decreases |entries|
  {
    var r := Recognised(entries);
    assert WellFormedMap(r) by {
      forall i | 0 <= i < |r| ensures WellFormedEntry(r[i].0, r[i].1) {
        var j :| 0 <= j < |entries| && entries[j] == r[i];
      }
    }
    if entries != [] {
      var s' := ApplyEntry(s, KeyNamed(entries[0].0), entries[0].1);
      LoadIgnoresUnknownKeys(s', entries[1..]);
      if KeyNamed(entries[0].0) == Unknown {
        assert s' == s;
        LoadIgnoresUnknownKeys(s, entries[1..]);
      }
    }
  }

  /** Resizability is read only under the spelling `resizeable`: the key
      `resizable` is unknown to the constructor and changes nothing. */
  lemma ResizableSpelling(s: Settings, b: bool)
    ensures KeyNamed("resizable") == Unknown && ApplyEntry(s, KeyNamed("resizable"), Flag(b)) == s
    ensures ApplyEntry(s, KeyNamed("resizeable"), Flag(b)) == s.(isResizable := b)
  {
    assert KeyNamed("resizeable") == Resizeable;
    assert KeyNamed("resizable") == Unknown;
  }

  // ---------------------------------------------------------------------
  // Trust lists by level

  function UserList(s: Settings, t: TrustType): seq<Uuid>
  {
    match t
    case Accessor => s.accessors
    case Builder => s.builders
    case Container => s.containers
    case Manager => s.managers
  }

  function GroupList(s: Settings, t: TrustType): seq<string>
  {
    match t
    case Accessor => s.accessorGroups
    case Builder => s.builderGroups
    case Container => s.containerGroups
    case Manager => s.managerGroups
  }

  /** `s` with the user list of level `t` replaced: that list is `list`,
      and every other list and setting is as in `s`. */
  function WithUserList(s: Settings, t: TrustType, list: seq<Uuid>): (r: Settings)
    ensures UserList(r, t) == list
    ensures r.lesserCorner == s.lesserCorner && r.greaterCorner == s.greaterCorner && r.claimSpawn == s.claimSpawn
  {
    match t
    case Accessor => s.(accessors := list)
    case Builder => s.(builders := list)
    case Container => s.(containers := list)
    case Manager => s.(managers := list)
  }

  function WithGroupList(s: Settings, t: TrustType, list: seq<string>): (r: Settings)
    ensures GroupList(r, t) == list
    ensures r.lesserCorner == s.lesserCorner && r.greaterCorner == s.greaterCorner && r.claimSpawn == s.claimSpawn
  {
    match t
    case Accessor => s.(accessorGroups := list)
    case Builder => s.(builderGroups := list)
    case Container => s.(containerGroups := list)
    case Manager => s.(managerGroups := list)
  }

  /** Replacing one user list leaves the other levels' user lists and
      every group list as they were. */
  lemma WithUserListKeepsOthers(s: Settings, t: TrustType, list: seq<Uuid>, other: TrustType)
    ensures other != t ==> UserList(WithUserList(s, t, list), other) == UserList(s, other)
    ensures GroupList(WithUserList(s, t, list), other) == GroupList(s, other)
  {
  }

  /** Replacing one group list leaves the other levels' group lists and
      every user list as they were. */
  lemma WithGroupListKeepsOthers(s: Settings, t: TrustType, list: seq<string>, other: TrustType)
    ensures other != t ==> GroupList(WithGroupList(s, t, list), other) == GroupList(s, other)
    ensures UserList(WithGroupList(s, t, list), other) == UserList(s, other)
  {
  }

  // ---------------------------------------------------------------------
  // The record

  class ClaimData {
    /** Every persisted setting (the source's individual fields, held as one record). */
    var data: Settings
    /** The dirty bit: the storage layer writes the record when it is set. */
    var requiresSave: bool
    /** Positions parsed lazily from their stored text (transient in the source). */
    var lesserPos: Option<Vec3>
    var greaterPos: Option<Vec3>
    var spawnPos: Option<Vec3>

    /** `BlockUtils.positionFromString` (None where it throws) and
        `BlockUtils.positionToString`. */
    const positionFromString: string -> Option<Vec3>
    const positionToString: Vec3 -> string

    /** The position a stored corner text denotes (none for a missing text). */
    function ParseCorner(text: Option<string>): Option<Vec3>
    {
      if text.None? then None else positionFromString(text.value)
    }

    /** Cache coherence: a cached corner is the parse of the stored corner
        text, and a cached spawn is backed by stored spawn text. */
    ghost predicate Valid()
      reads this
    {
      (lesserPos.Some? ==> lesserPos == ParseCorner(data.lesserCorner)) &&
      (greaterPos.Some? ==> greaterPos == ParseCorner(data.greaterCorner)) &&
      (spawnPos.Some? ==>
         data.claimSpawn.Some? &&
         (spawnPos == positionFromString(data.claimSpawn.value) ||
          data.claimSpawn.value == positionToString(spawnPos.value)))
    }

    twostate predicate CachesUnchanged()
      reads this
    {
      lesserPos == old(lesserPos) && greaterPos == old(greaterPos) && spawnPos == old(spawnPos)
    }

    /** `new ClaimDataConfig()`. */
    constructor (now: string, fromString: string -> Option<Vec3>, toString: Vec3 -> string)
      ensures Valid() && data == Defaults(now) && !requiresSave
      ensures lesserPos.None? && greaterPos.None? && spawnPos.None?
      ensures positionFromString == fromString && positionToString == toString
    {
      positionFromString, positionToString := fromString, toString;
      data, requiresSave := Defaults(now), false;
      lesserPos, greaterPos, spawnPos := None, None, None;
    }

    /** `new ClaimDataConfig(GPClaim claim)`: corners, shape, kind and owner
        taken from a live claim. */
    constructor FromClaim(lesser: Vec3, greater: Vec3, cuboid: bool, kind: ClaimType, owner: Option<Uuid>,
                          now: string, fromString: string -> Option<Vec3>, toString: Vec3 -> string)
      ensures Valid() && !requiresSave
      ensures data == Defaults(now).(lesserCorner := Some(toString(lesser)),
                                     greaterCorner := Some(toString(greater)),
                                     isCuboid := cuboid, claimType := kind, ownerUniqueId := owner)
      ensures lesserPos.None? && greaterPos.None? && spawnPos.None?
      ensures positionFromString == fromString && positionToString == toString
    {
      positionFromString, positionToString := fromString, toString;
      requiresSave := false;
      lesserPos, greaterPos, spawnPos := None, None, None;
      data := Defaults(now).(lesserCorner := Some(toString(lesser)),
                             greaterCorner := Some(toString(greater)),
                             isCuboid := cuboid, claimType := kind, ownerUniqueId := owner);
    }

    /** `new ClaimDataConfig(LinkedHashMap<String, Object> dataMap)`: the
        recognised keys are applied in map order over the defaults. */
    constructor FromMap(entries: seq<(string, MapValue)>, now: string,
                        fromString: string -> Option<Vec3>, toString: Vec3 -> string)
      requires WellFormedMap(entries)
      ensures Valid() && !requiresSave
      ensures data == LoadFrom(Defaults(now), entries)
      ensures lesserPos.None? && greaterPos.None? && spawnPos.None?
      ensures positionFromString == fromString && positionToString == toString
    {
      positionFromString, positionToString := fromString, toString;
      data, requiresSave := Defaults(now), false;
      lesserPos, greaterPos, spawnPos := None, None, None;
      new;
      var i := 0;
      while i < |entries|
        invariant 0 <= i <= |entries|
        invariant WellFormedMap(entries[..i])
        invariant data == LoadFrom(Defaults(now), entries[..i])
        invariant !requiresSave && lesserPos.None? && greaterPos.None? && spawnPos.None?
        invariant positionFromString == fromString && positionToString == toString
      {
        var (key, value) := entries[i];
        assert WellFormedEntry(key, value);
        assert entries[..i + 1] == entries[..i] + [(key, value)];
        LoadFromSnoc(Defaults(now), entries[..i], key, value);
        ApplyMapEntry(key, value);
        i := i + 1;
      }
      assert entries[..i] == entries;
    }

    /** One iteration of the map constructor's switch. */
    method ApplyMapEntry(key: string, value: MapValue)
      requires WellFormedEntry(key, value)
      modifies this
      ensures data == ApplyEntry(old(data), KeyNamed(key), value)
      ensures requiresSave == old(requiresSave) && CachesUnchanged()
    {
      match KeyNamed(key) {
        case WorldUuid => data := data.(worldUniqueId := Some(UuidOf(value.text)));
        case OwnerUuid => data := data.(ownerUniqueId := Some(UuidOf(value.text)));
        case ClaimTypeKey => data := data.(claimType := ClaimTypeNamed(value.text).value);
        case Cuboid => data := data.(isCuboid := value.flag);
        case ClaimExpiration => data := data.(allowClaimExpiration := value.flag);
        case DateCreated => data := data.(dateCreated := value.text);
        case DateLastActive => data := data.(dateLastActive := value.text);
        case DenyMessages => data := data.(allowDenyMessages := value.flag);
        case FlagOverrides => data := data.(allowFlagOverrides := value.flag);
        case GreaterCorner => data := data.(greaterCorner := Some(value.text));
        case LesserCorner => data := data.(lesserCorner := Some(value.text));
        case PvpKey => data := data.(pvpOverride := TristateNamed(value.text).value);
        case Resizeable => data := data.(isResizable := value.flag);
        case AccessorsKey =>
          var list := AppendUuids(data.accessors, value.list);
          data := data.(accessors := list);
        case BuildersKey =>
          var list := AppendUuids(data.builders, value.list);
          data := data.(builders := list);
        case ContainersKey =>
          var list := AppendUuids(data.containers, value.list);
          data := data.(containers := list);
        case ManagersKey =>
          var list := AppendUuids(data.managers, value.list);
          data := data.(managers := list);
        case Unknown =>
      }
    }

    // --- setters that mark the record dirty

    method SetWorldUniqueId(uuid: Option<Uuid>)
      requires Valid()
      modifies this
      ensures Valid() && requiresSave && CachesUnchanged()
      ensures data == old(data).(worldUniqueId := uuid)
    {
      requiresSave := true;
      data := data.(worldUniqueId := uuid);
    }

    method SetOwnerUniqueId(newClaimOwner: Option<Uuid>)
      requires Valid()
      modifies this
      ensures Valid() && requiresSave && CachesUnchanged()
      ensures data == old(data).(ownerUniqueId := newClaimOwner)
    {
      requiresSave := true;
      data := data.(ownerUniqueId := newClaimOwner);
    }

    method SetPvpOverride(pvp: Tristate)
      requires Valid()
      modifies this
      ensures Valid() && requiresSave && CachesUnchanged()
      ensures data == old(data).(pvpOverride := pvp)
    {
      requiresSave := true;
      data := data.(pvpOverride := pvp);
    }

    method SetResizable(resizable: bool)
      requires Valid()
      modifies this
      ensures Valid() && requiresSave && CachesUnchanged()
      ensures data == old(data).(isResizable := resizable)
    {
      requiresSave := true;
      data := data.(isResizable := resizable);
    }

    method SetType(t: ClaimType)
      requires Valid()
      modifies this
      ensures Valid() && requiresSave && CachesUnchanged()
      ensures data == old(data).(claimType := t)
    {
      requiresSave := true;
      data := data.(claimType := t);
    }

    method SetDateLastActive(date: string)
      requires Valid()
      modifies this
      ensures Valid() && requiresSave && CachesUnchanged()
      ensures data == old(data).(dateLastActive := date)
    {
      requiresSave := true;
      data := data.(dateLastActive := date);
    }

    /** A null name is ignored outright. */
    method SetName(name: Option<string>)
      requires Valid()
      modifies this
      ensures Valid() && CachesUnchanged()
      ensures name.None? ==> data == old(data) && requiresSave == old(requiresSave)
      ensures name.Some? ==> requiresSave && data == old(data).(claimName := name)
    {
      if name.None? {
        return;
      }
      requiresSave := true;
      data := data.(claimName := name);
    }

    method SetGreeting(message: Option<string>)
      requires Valid()
      modifies this
      ensures Valid() && CachesUnchanged()
      ensures message.None? ==> data == old(data) && requiresSave == old(requiresSave)
      ensures message.Some? ==> requiresSave && data == old(data).(greeting := message)
    {
      if message.None? {
        return;
      }
      requiresSave := true;
      data := data.(greeting := message);
    }

    method SetFarewell(message: Option<string>)
      requires Valid()
      modifies this
      ensures Valid() && CachesUnchanged()
      ensures message.None? ==> data == old(data) && requiresSave == old(requiresSave)
      ensures message.Some? ==> requiresSave && data == old(data).(farewell := message)
    {
      if message.None? {
        return;
      }
      requiresSave := true;
      data := data.(farewell := message);
    }

    /** A null position is ignored; otherwise both the cache and the stored
        text are replaced. */
    method SetSpawnPos(pos: Option<Vec3>)
      requires Valid()
      modifies this
      ensures Valid()
      ensures lesserPos == old(lesserPos) && greaterPos == old(greaterPos)
      ensures pos.None? ==> data == old(data) && requiresSave == old(requiresSave) && spawnPos == old(spawnPos)
      ensures pos.Some? ==> requiresSave && spawnPos == pos &&
                            data == old(data).(claimSpawn := Some(positionToString(pos.value)))
    {
      if pos.None? {
        return;
      }
      requiresSave := true;
      spawnPos := pos;
      data := data.(claimSpawn := Some(positionToString(pos.value)));
    }

    method SetAccessors(list: seq<Uuid>)
      requires Valid()
      modifies this
      ensures Valid() && requiresSave && CachesUnchanged()
      ensures data == old(data).(accessors := list)
    {
      requiresSave := true;
      data := data.(accessors := list);
    }

    method SetBuilders(list: seq<Uuid>)
      requires Valid()
      modifies this
      ensures Valid() && requiresSave && CachesUnchanged()
      ensures data == old(data).(builders := list)
    {
      requiresSave := true;
      data := data.(builders := list);
    }

    method SetContainers(list: seq<Uuid>)
      requires Valid()
      modifies this
      ensures Valid() && requiresSave && CachesUnchanged()
      ensures data == old(data).(containers := list)
    {
      requiresSave := true;
      data := data.(containers := list);
    }

    method SetManagers(list: seq<Uuid>)
      requires Valid()
      modifies this
      ensures Valid() && requiresSave && CachesUnchanged()
      ensures data == old(data).(managers := list)
    {
      requiresSave := true;
      data := data.(managers := list);
    }

    method SetDenyMessages(flag: bool)
      requires Valid()
      modifies this
      ensures Valid() && requiresSave && CachesUnchanged()
      ensures data == old(data).(allowDenyMessages := flag)
    {
      requiresSave := true;
      data := data.(allowDenyMessages := flag);
    }

    method SetExpiration(flag: bool)
      requires Valid()
      modifies this
      ensures Valid() && requiresSave && CachesUnchanged()
      ensures data == old(data).(allowClaimExpiration := flag)
    {
      requiresSave := true;
      data := data.(allowClaimExpiration := flag);
    }

    /** Replaces the stored corner text and drops the cached position, so the
        next read parses the new text. */
    method SetLesserBoundaryCorner(location: Option<string>)
      requires Valid()
      modifies this
      ensures Valid() && requiresSave
      ensures data == old(data).(lesserCorner := location)
      ensures lesserPos.None? && greaterPos == old(greaterPos) && spawnPos == old(spawnPos)
    {
      requiresSave := true;
      data := data.(lesserCorner := location);
      lesserPos := None;
    }

    method SetGreaterBoundaryCorner(location: Option<string>)
      requires Valid()
      modifies this
      ensures Valid() && requiresSave
      ensures data == old(data).(greaterCorner := location)
      ensures greaterPos.None? && lesserPos == old(lesserPos) && spawnPos == old(spawnPos)
    {
      requiresSave := true;
      data := data.(greaterCorner := location);
      greaterPos := None;
    }

    method SetInheritParent(flag: bool)
      requires Valid()
      modifies this
      ensures Valid() && requiresSave && CachesUnchanged()
      ensures data == old(data).(inheritParent := flag)
    {
      requiresSave := true;
      data := data.(inheritParent := flag);
    }

    method SetRequiresClaimBlocks(flag: bool)
      requires Valid()
      modifies this
      ensures Valid() && requiresSave && CachesUnchanged()
      ensures data == old(data).(requiresClaimBlocks := flag)
    {
      requiresSave := true;
      data := data.(requiresClaimBlocks := flag);
    }

    method SetParent(uuid: Option<Uuid>)
      requires Valid()
      modifies this
      ensures Valid() && requiresSave && CachesUnchanged()
      ensures data == old(data).(parent := uuid)
    {
      requiresSave := true;
      data := data.(parent := uuid);
    }

    // --- setters that leave the dirty bit alone

    method SetCuboid(cuboid: bool)
      requires Valid()
      modifies this
      ensures Valid() && requiresSave == old(requiresSave) && CachesUnchanged()
      ensures data == old(data).(isCuboid := cuboid)
    {
      data := data.(isCuboid := cuboid);
    }

    method SetFlagOverrides(flag: bool)
      requires Valid()
      modifies this
      ensures Valid() && requiresSave == old(requiresSave) && CachesUnchanged()
      ensures data == old(data).(allowFlagOverrides := flag)
    {
      data := data.(allowFlagOverrides := flag);
    }

    method SetSizeRestrictions(flag: bool)
      requires Valid()
      modifies this
      ensures Valid() && requiresSave == old(requiresSave) && CachesUnchanged()
      ensures data == old(data).(sizeRestrictions := flag)
    {
      data := data.(sizeRestrictions := flag);
    }

    method SetExpired(expire: bool)
      requires Valid()
      modifies this
      ensures Valid() && requiresSave == old(requiresSave) && CachesUnchanged()
      ensures data == old(data).(isExpired := expire)
    {
      data := data.(isExpired := expire);
    }

    method SetRequiresSave(flag: bool)
      requires Valid()
      modifies this
      ensures Valid() && requiresSave == flag && CachesUnchanged()
      ensures data == old(data)
    {
      requiresSave := flag;
    }

    // --- in-place edits of the live trust lists (the lists the getters hand out)

    /** `getUserTrustList(t).remove(uuid)` on the live list: only that list
        changes, and the dirty bit is left to the caller. */
    method RemoveUserTrust(t: TrustType, uuid: Uuid)
      requires Valid()
      modifies this
      ensures Valid() && requiresSave == old(requiresSave) && CachesUnchanged()
      ensures data == WithUserList(old(data), t, RemoveFirst(UserList(old(data), t), uuid))
    {
      data := WithUserList(data, t, RemoveFirst(UserList(data, t), uuid));
    }

    /** `getGroupTrustList(t).remove(group)` on the live list. */
    method RemoveGroupTrust(t: TrustType, group: string)
      requires Valid()
      modifies this
      ensures Valid() && requiresSave == old(requiresSave) && CachesUnchanged()
      ensures data == WithGroupList(old(data), t, RemoveFirst(GroupList(old(data), t), group))
    {
      data := WithGroupList(data, t, RemoveFirst(GroupList(data, t), group));
    }

    // --- getters with logic

    /** Admin claims never inherit from a parent, whatever is stored. */
    function DoesInheritParent(): (r: bool)
      reads this
      ensures data.claimType == Admin ==> !r
      ensures data.claimType != Admin ==> r == data.inheritParent
    {
      if data.claimType == Admin then false else data.inheritParent
    }

    /** Admin and Wilderness claims have no size restrictions; asking
        clears the stored flag for them. */
    method HasSizeRestrictions() returns (r: bool)
      requires Valid()
      modifies this
      ensures Valid() && requiresSave == old(requiresSave) && CachesUnchanged()
      ensures r == (data.claimType != Admin && data.claimType != Wilderness && old(data).sizeRestrictions)
      ensures data == old(data).(sizeRestrictions := r)
    {
      if data.claimType == Admin || data.claimType == Wilderness {
        data := data.(sizeRestrictions := false);
        return false;
      }
      return data.sizeRestrictions;
    }

    /** The lesser corner: the cached position, parsed from the stored text
        on first use. The cache never shows a stale position. */
    method GetLesserBoundaryCornerPos() returns (r: Option<Vec3>)
      requires Valid()
      modifies this
      ensures Valid() && requiresSave == old(requiresSave) && data == old(data)
      ensures r == ParseCorner(data.lesserCorner)
      ensures lesserPos == r && greaterPos == old(greaterPos) && spawnPos == old(spawnPos)
    {
      if lesserPos.None? {
        lesserPos := ParseCorner(data.lesserCorner);
      }
      return lesserPos;
    }

    method GetGreaterBoundaryCornerPos() returns (r: Option<Vec3>)
      requires Valid()
      modifies this
      ensures Valid() && requiresSave == old(requiresSave) && data == old(data)
      ensures r == ParseCorner(data.greaterCorner)
      ensures greaterPos == r && lesserPos == old(lesserPos) && spawnPos == old(spawnPos)
    {
      if greaterPos.None? {
        greaterPos := ParseCorner(data.greaterCorner);
      }
      return greaterPos;
    }

    /** The spawn position: cached, or parsed from the stored text on first
        use, which also marks the record dirty when the parse succeeds. */
    method GetSpawnPos() returns (r: Option<Vec3>)
      requires Valid()
      modifies this
      ensures Valid() && data == old(data)
      ensures lesserPos == old(lesserPos) && greaterPos == old(greaterPos)
      ensures r == spawnPos
      ensures old(spawnPos).Some? || data.claimSpawn.None? ==> r == old(spawnPos) && requiresSave == old(requiresSave)
      ensures old(spawnPos).None? && data.claimSpawn.Some? ==>
                r == positionFromString(data.claimSpawn.value) && requiresSave == (old(requiresSave) || r.Some?)
    {
      if spawnPos.None? && data.claimSpawn.Some? {
        var parsed := positionFromString(data.claimSpawn.value);
        if parsed.Some? {
          spawnPos := parsed;
          requiresSave := true;
        }
      }
      return spawnPos;
    }
  }

  /** Appends a trust-list entry's UUIDs, one at a time, to `list`. */
  method AppendUuids(list: seq<Uuid>, strs: Option<seq<string>>) returns (r: seq<Uuid>)
    ensures r == list + ListUuids(strs)
  {
    r := list;
    if strs.None? {
      return;
    }
    var j := 0;
    while j < |strs.value|
      invariant 0 <= j <= |strs.value|
      invariant r == list + ToUuids(strs.value[..j])
    {
      assert strs.value[..j + 1] == strs.value[..j] + [strs.value[j]];
      ToUuidsAppend(strs.value[..j], strs.value[j]);
      r := r + [UuidOf(strs.value[j])];
      j := j + 1;
    }
    assert strs.value[..j] == strs.value;
  }

  lemma {:induction false} ToUuidsAppend(strs: seq<string>, s: string)
    ensures ToUuids(strs + [s]) == ToUuids(strs) + [UuidOf(s)]
  {
    var a := ToUuids(strs + [s]);
    var b := ToUuids(strs) + [UuidOf(s)];
    assert |a| == |b|;
    forall j | 0 <= j < |a| ensures a[j] == b[j] {
      if j < |strs| { assert (strs + [s])[j] == strs[j]; }
    }
  }
}
