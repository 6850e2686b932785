/** Resolution of a numeric claim option for a subject (GPOptionHandler):
    the per-kind key for an option type, the global options served from the
    player's data, and the clamp of a subject's value against the
    administrator's default. */
module OptionHandler {
  import opened Common

  datatype Axis = X | Y | Z

  /** The option keys of `GPOptions` that the resolver distinguishes.
      `Named` is any other option name. */
  datatype OptionKey =
    | AbandonReturnRatioBasic | AbandonReturnRatioTown | BlocksAccruedPerHour
    | ClaimExpirationBasic | ClaimExpirationChest | ClaimExpirationSubdivision | ClaimExpirationTown
    | CreateClaimLimitBasic | CreateClaimLimitSubdivision | CreateClaimLimitTown
    | MaxClaimLevel | MinClaimLevel
    | MaxClaimSizeBasic(axis: Axis) | MaxClaimSizeTown(axis: Axis) | MaxClaimSizeSubdivision(axis: Axis)
    | MinClaimSizeBasic(axis: Axis) | MinClaimSizeTown(axis: Axis)
    | TaxExpirationBasic | TaxExpirationBasicDaysKeep
    | TaxExpirationSubdivision | TaxExpirationSubdivisionDaysKeep
    | TaxExpirationTown | TaxExpirationTownDaysKeep
    | TaxRateBasic | TaxRateSubdivision | TaxRateTown | TaxRateTownBasic | TaxRateTownSubdivision
    | InvalidOption
    | Named(name: string)

  /** The option types a caller asks for (`GPOptions.Type`). */
  datatype OptionType =
    | MaxClaimSize(axis: Axis) | MinClaimSize(axis: Axis)
    | ClaimLimit | ExpirationDaysKeep | TaxExpiration | TaxRate

  /** The global option values cached in a player's data. */
  datatype PlayerOptions = PlayerOptions(
    abandonReturnRatioBasic: real, abandonReturnRatioTown: real,
    blocksAccruedPerHour: int,
    claimExpirationBasic: int, claimExpirationChest: int,
    claimExpirationSubdivision: int, claimExpirationTown: int,
    createClaimLimitBasic: int, createClaimLimitSubdivision: int, createClaimLimitTown: int,
    maxClaimLevel: int, minClaimLevel: int)

  /** What the permission service holds for a subject's option in a claim's
      context: a parsable number, or text `Double.parseDouble` rejects. */
  datatype RawOption = Parsed(value: real) | Unparsable

  /** The server's global subject, or a subject with its per-claim options. */
  datatype Subject = GlobalSubject | Subject(options: map<OptionKey, RawOption>)

  /** The claim an option is resolved for: its kind and whether it lies in a town. */
  datatype ClaimShape = ClaimShape(kind: ClaimType, inTown: bool)

  const Prefix: string := "griefprevention."

  function Max(a: real, b: real): real { if a < b then b else a }
  function Min(a: real, b: real): real { if a < b then a else b }

  /** An option name with the plugin's prefix put in front when it is missing. */
  function QualifiedName(name: string): (q: string)
    ensures |q| >= |Prefix| && q[..|Prefix|] == Prefix
    ensures |name| >= |Prefix| && name[..|Prefix|] == Prefix ==> q == name
    ensures !(|name| >= |Prefix| && name[..|Prefix|] == Prefix) ==> q == Prefix + name
  {
    if |name| >= |Prefix| && name[..|Prefix|] == Prefix then name
    else
      assert (Prefix + name)[..|Prefix|] == Prefix;
      Prefix + name
  }

  lemma QualifiedNameIdempotent(name: string)
    ensures QualifiedName(QualifiedName(name)) == QualifiedName(name)
  {
  }

  /** The first step of the resolver: `GPOptions` constants already carry the
      prefix, any other name is qualified. */
  function Qualify(key: OptionKey): (k: OptionKey)
    ensures !key.Named? ==> k == key
    ensures key.Named? ==> k == Named(QualifiedName(key.name))
  {
    match key
    case Named(n) => Named(QualifiedName(n))
    case _ => key
  }

  predicate IsGlobalKey(key: OptionKey)
  {
    key.AbandonReturnRatioBasic? || key.AbandonReturnRatioTown? || key.BlocksAccruedPerHour? ||
    key.ClaimExpirationBasic? || key.ClaimExpirationChest? ||
    key.ClaimExpirationSubdivision? || key.ClaimExpirationTown? ||
    key.CreateClaimLimitBasic? || key.CreateClaimLimitSubdivision? || key.CreateClaimLimitTown? ||
    key.MaxClaimLevel? || key.MinClaimLevel?
  }

  /** The keys in the first case group of the clamp switch. */
  predicate IsMaxClamped(key: OptionKey)
  {
    key.MaxClaimSizeBasic? || key.MaxClaimSizeTown? ||
    key.TaxExpirationBasic? || key.TaxExpirationBasicDaysKeep? ||
    key.TaxExpirationSubdivision? || key.TaxExpirationSubdivisionDaysKeep? ||
    key.TaxExpirationTown? || key.TaxExpirationTownDaysKeep?
  }

  /** The keys in the second case group of the clamp switch. */
  predicate IsMinClamped(key: OptionKey)
  {
    key.MinClaimSizeBasic? || key.MinClaimSizeTown?
  }

  /** A global option, read straight from the player's data. */
  function GlobalOption(key: OptionKey, player: PlayerOptions): real
    requires IsGlobalKey(key)
  {
    match key
    case AbandonReturnRatioBasic => player.abandonReturnRatioBasic
    case AbandonReturnRatioTown => player.abandonReturnRatioTown
    case BlocksAccruedPerHour => player.blocksAccruedPerHour as real
    case ClaimExpirationBasic => player.claimExpirationBasic as real
    case ClaimExpirationChest => player.claimExpirationChest as real
    case ClaimExpirationSubdivision => player.claimExpirationSubdivision as real
    case ClaimExpirationTown => player.claimExpirationTown as real
    case CreateClaimLimitBasic => player.createClaimLimitBasic as real
    case CreateClaimLimitSubdivision => player.createClaimLimitSubdivision as real
    case CreateClaimLimitTown => player.createClaimLimitTown as real
    case MaxClaimLevel => player.maxClaimLevel as real
    case MinClaimLevel => player.minClaimLevel as real
  }

  /** The clamp switch as written: the first case group returns when the
      subject's value is above the administrator's but has no `break`, so a
      smaller value falls into the second group's test, which returns the
      administrator's value too. */
  function ClampAsWritten(key: OptionKey, optionValue: real, adminValue: real): (r: real)
    ensures IsMaxClamped(key) ==> r == adminValue
    ensures IsMinClamped(key) ==> r == Max(optionValue, adminValue)
    ensures !IsMaxClamped(key) && !IsMinClamped(key) ==> r == optionValue
  {
    if IsMaxClamped(key) && optionValue > adminValue then adminValue
    else if (IsMaxClamped(key) || IsMinClamped(key)) && optionValue < adminValue then adminValue
    else optionValue
  }

  /** The clamp the first case group evidently means: the administrator's
      value is a ceiling for a subject's own value. */
  function ClampIntended(key: OptionKey, optionValue: real, adminValue: real): (r: real)
    ensures IsMaxClamped(key) ==> r == Min(optionValue, adminValue)
    ensures IsMinClamped(key) ==> r == Max(optionValue, adminValue)
    ensures !IsMaxClamped(key) && !IsMinClamped(key) ==> r == optionValue
    ensures IsMaxClamped(key) ==> r <= adminValue && (optionValue <= adminValue ==> r == optionValue)
  {
    if IsMaxClamped(key) && optionValue > adminValue then adminValue
    else if IsMinClamped(key) && optionValue < adminValue then adminValue
    else optionValue
  }

  /** With a ceiling of 100 and a subject value of 50 for a maximum claim
      size, the clamp as written discards the subject's value. */
  lemma ClampDiscardsSubjectMaximum()
    ensures ClampAsWritten(MaxClaimSizeBasic(X), 50.0, 100.0) == 100.0
    ensures ClampIntended(MaxClaimSizeBasic(X), 50.0, 100.0) == 50.0
  {
  }

  /** The two clamps differ exactly on a maximum-type key whose subject
      value is below the ceiling. */
  lemma ClampsDifferBelowCeiling(key: OptionKey, optionValue: real, adminValue: real)
    ensures ClampAsWritten(key, optionValue, adminValue) != ClampIntended(key, optionValue, adminValue) <==>
            IsMaxClamped(key) && optionValue < adminValue
  {
  }

  /** The administrator's value for a key: a missing default counts as 0. */
  function AdminValue(key: OptionKey, defaults: map<OptionKey, real>): (v: real)
    ensures key !in defaults ==> v == 0.0
    ensures key in defaults ==> v == defaults[key]
  {
    if key in defaults then defaults[key] else 0.0
  }

  /** Which clamp the resolver applies: the switch as written, or the
      corrected one. */
  datatype ClampRule = AsWritten | Intended

  function Clamp(rule: ClampRule, key: OptionKey, optionValue: real, adminValue: real): real
  {
    if rule == AsWritten then ClampAsWritten(key, optionValue, adminValue)
    else ClampIntended(key, optionValue, adminValue)
  }

  /** `getClaimOptionDouble(subject, claim, String option, playerData)`.
      `hasClaimContext` says whether a claim was given or the player's last
      shovel location supplies one; without either the Java method returns null. */
  function ResolveOption(rule: ClampRule, subject: Subject, hasClaimContext: bool, option: OptionKey,
                         player: PlayerOptions, defaults: map<OptionKey, real>): (r: Option<real>)
    ensures IsGlobalKey(Qualify(option)) ==> r == Some(GlobalOption(Qualify(option), player))
    ensures !IsGlobalKey(Qualify(option)) ==> (r.None? <==> !hasClaimContext)
  {
    var key := Qualify(option);
    if IsGlobalKey(key) then Some(GlobalOption(key, player))
    else if !hasClaimContext then None
    else
      var adminValue := AdminValue(key, defaults);
      if subject.GlobalSubject? then Some(adminValue)
      else if key !in subject.options then Some(adminValue)
      else match subject.options[key]
        case Unparsable => Some(adminValue)
        case Parsed(v) => Some(Clamp(rule, key, v, adminValue))
  }

  /** `checkClaimOption`: the per-kind key for an option type. */
  function CheckClaimOption(t: OptionType, claim: ClaimShape): (k: OptionKey)
    ensures claim.kind == Admin ==> k == InvalidOption
    ensures !IsGlobalKey(k) || t.ClaimLimit?
  {
    if claim.kind == Admin then InvalidOption
    else
      var town := claim.kind == Town;
      var sub := claim.kind == Subdivision;
      match t
      case MaxClaimSize(a) =>
        if town then MaxClaimSizeTown(a) else if sub then MaxClaimSizeSubdivision(a) else MaxClaimSizeBasic(a)
      case MinClaimSize(a) =>
        if town then MinClaimSizeTown(a) else if sub then InvalidOption else MinClaimSizeBasic(a)
      case ClaimLimit =>
        if town then CreateClaimLimitTown else if sub then CreateClaimLimitSubdivision else CreateClaimLimitBasic
      case ExpirationDaysKeep =>
        if town then TaxExpirationTownDaysKeep
        else if sub then TaxExpirationSubdivisionDaysKeep else TaxExpirationBasicDaysKeep
      case TaxExpiration =>
        if town then TaxExpirationTown else if sub then TaxExpirationSubdivision else TaxExpirationBasic
      case TaxRate =>
        if town then TaxRateTown
        else if claim.inTown then (if sub then TaxRateTownSubdivision else TaxRateTownBasic)
        else if sub then TaxRateSubdivision else TaxRateBasic
  }

  predicate IsTownKey(key: OptionKey)
  {
    key.MaxClaimSizeTown? || key.MinClaimSizeTown? || key.CreateClaimLimitTown? ||
    key.TaxExpirationTownDaysKeep? || key.TaxExpirationTown? || key.TaxRateTown?
  }

  predicate IsSubdivisionKey(key: OptionKey)
  {
    key.MaxClaimSizeSubdivision? || key.CreateClaimLimitSubdivision? ||
    key.TaxExpirationSubdivisionDaysKeep? || key.TaxExpirationSubdivision? ||
    key.TaxRateSubdivision? || key.TaxRateTownSubdivision?
  }

  /** `getClaimOptionDouble(subject, claim, GPOptions.Type type, playerData)`. */
  function ResolveClaimOption(rule: ClampRule, subject: Subject, claim: Option<ClaimShape>, t: OptionType,
                              player: PlayerOptions, defaults: map<OptionKey, real>): (r: real)
    ensures claim.None? ==> r == 0.0
    ensures claim.Some? && CheckClaimOption(t, claim.value) == InvalidOption ==> r == 0.0
    ensures claim.Some? && CheckClaimOption(t, claim.value) != InvalidOption ==>
              Some(r) == ResolveOption(rule, subject, true, CheckClaimOption(t, claim.value), player, defaults)
  {
    if claim.None? then 0.0
    else
      var key := CheckClaimOption(t, claim.value);
      if key == InvalidOption then 0.0
      else ResolveOption(rule, subject, true, key, player, defaults).value
  }

  /** An Admin claim never consults per-kind options. */
  lemma AdminClaimResolvesToZero(rule: ClampRule, subject: Subject, inTown: bool, t: OptionType,
                                 player: PlayerOptions, defaults: map<OptionKey, real>)
    ensures ResolveClaimOption(rule, subject, Some(ClaimShape(Admin, inTown)), t, player, defaults) == 0.0
  {
  }

  /** The global subject, a missing value and an unparsable value all yield
      the administrator's value for a claim-context key. */
  lemma {:induction false} FallsBackToAdminValue(rule: ClampRule, subject: Subject, option: OptionKey,
                                                 player: PlayerOptions, defaults: map<OptionKey, real>)
    requires !IsGlobalKey(Qualify(option))
    requires subject.GlobalSubject? || Qualify(option) !in subject.options ||
             subject.options[Qualify(option)] == Unparsable
    ensures ResolveOption(rule, subject, true, option, player, defaults) == Some(AdminValue(Qualify(option), defaults))
  {
  }

  /** With the corrected clamp, every maximum-size and tax-expiration key
      resolves to the subject's value capped at the administrator's value. */
  lemma MaxClampedKeyIsCapped(subject: Subject, option: OptionKey, v: real,
                              player: PlayerOptions, defaults: map<OptionKey, real>)
    requires IsMaxClamped(option) && subject.Subject? && option in subject.options
    requires subject.options[option] == Parsed(v)
    ensures ResolveOption(Intended, subject, true, option, player, defaults) == Some(Min(v, AdminValue(option, defaults)))
  {
  }

  /** As written, every maximum-size and tax-expiration key resolves to the
      administrator's value in a claim context, whatever the subject holds. */
  lemma {:induction false} MaxClampedKeyIsAdminValue(subject: Subject, option: OptionKey,
                                                     player: PlayerOptions, defaults: map<OptionKey, real>)
    requires IsMaxClamped(option)
    ensures ResolveOption(AsWritten, subject, true, option, player, defaults) == Some(AdminValue(option, defaults))
  {
    assert Qualify(option) == option && !IsGlobalKey(option);
    if subject.Subject? && option in subject.options && subject.options[option].Parsed? {
      assert ClampAsWritten(option, subject.options[option].value, AdminValue(option, defaults)) == AdminValue(option, defaults);
    }
  }

  /** As written, the maximum size of a basic, town or wilderness claim is
      the administrator's value for every subject; with the corrected clamp
      it never exceeds it. */
  lemma {:induction false} ClaimMaxSizeIgnoresSubject(subject: Subject, claim: ClaimShape, a: Axis,
                                                      player: PlayerOptions, defaults: map<OptionKey, real>)
    requires claim.kind != Admin && claim.kind != Subdivision
    ensures var key := CheckClaimOption(MaxClaimSize(a), claim);
            ResolveClaimOption(AsWritten, subject, Some(claim), MaxClaimSize(a), player, defaults) == AdminValue(key, defaults)
    ensures var key := CheckClaimOption(MaxClaimSize(a), claim);
            ResolveClaimOption(Intended, subject, Some(claim), MaxClaimSize(a), player, defaults) <= AdminValue(key, defaults)
  {
    var key := CheckClaimOption(MaxClaimSize(a), claim);
    assert IsMaxClamped(key);
    MaxClampedKeyIsAdminValue(subject, key, player, defaults);
    if subject.Subject? && key in subject.options && subject.options[key].Parsed? {
      MaxClampedKeyIsCapped(subject, key, subject.options[key].value, player, defaults);
    } else {
      FallsBackToAdminValue(Intended, subject, key, player, defaults);
    }
  }

  /** Every minimum-size key resolves to at least the administrator's value,
      and to the subject's value when that is larger. */
  lemma MinClampedKeyIsFloored(rule: ClampRule, subject: Subject, option: OptionKey, v: real,
                               player: PlayerOptions, defaults: map<OptionKey, real>)
    requires IsMinClamped(option) && subject.Subject? && option in subject.options
    requires subject.options[option] == Parsed(v)
    ensures ResolveOption(rule, subject, true, option, player, defaults) == Some(Max(v, AdminValue(option, defaults)))
  {
  }

  /** Keys outside both case groups (subdivision sizes, tax rates, other
      names) return the subject's parsed value unclamped. */
  lemma UnclampedKeyYieldsSubjectValue(rule: ClampRule, subject: Subject, option: OptionKey, v: real,
                                       player: PlayerOptions, defaults: map<OptionKey, real>)
    requires !IsGlobalKey(option) && !IsMaxClamped(option) && !IsMinClamped(option) && !option.Named?
    requires subject.Subject? && option in subject.options && subject.options[option] == Parsed(v)
    ensures ResolveOption(rule, subject, true, option, player, defaults) == Some(v)
  {
  }

  /** A Town claim gets the town key for every option type, before the
      subdivision test is reached; a Subdivision gets a subdivision key for
      every type but the minimum sizes, which are invalid for it. */
  lemma {:induction false} KindSelectsKey(t: OptionType, inTown: bool)
    ensures IsTownKey(CheckClaimOption(t, ClaimShape(Town, inTown)))
    ensures t.MinClaimSize? ==> CheckClaimOption(t, ClaimShape(Subdivision, inTown)) == InvalidOption
    ensures !t.MinClaimSize? ==> IsSubdivisionKey(CheckClaimOption(t, ClaimShape(Subdivision, inTown)))
  {
    match t
    case MaxClaimSize(_) =>
    case MinClaimSize(_) =>
    case ClaimLimit =>
    case ExpirationDaysKeep =>
    case TaxExpiration =>
    case TaxRate =>
  }

  /** The tax-rate key: Town, then in-town claims, then the plain keys. */
  lemma TaxRateKeySelection(kind: ClaimType, inTown: bool)
    requires kind != Admin
    ensures CheckClaimOption(TaxRate, ClaimShape(kind, inTown)) ==
      if kind == Town then TaxRateTown
      else if inTown then (if kind == Subdivision then TaxRateTownSubdivision else TaxRateTownBasic)
      else if kind == Subdivision then TaxRateSubdivision else TaxRateBasic
  {
  }

  /** A claim-limit request is served from the player's data, unclamped. */
  lemma ClaimLimitIsGlobal(rule: ClampRule, subject: Subject, claim: ClaimShape, player: PlayerOptions,
                           defaults: map<OptionKey, real>)
    requires claim.kind != Admin
    ensures ResolveClaimOption(rule, subject, Some(claim), ClaimLimit, player, defaults) ==
      if claim.kind == Town then player.createClaimLimitTown as real
      else if claim.kind == Subdivision then player.createClaimLimitSubdivision as real
      else player.createClaimLimitBasic as real
  {
  }
}
