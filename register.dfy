/** Sync-root registration: the `Registration` builder, its default configuration and
    setters, the two additive flag sets (`HydrationPolicy`, `SupportedAttributes`), the
    closed enums with their mappings to and from the platform's policy values, and the two
    pure selections made by `register` (display name and hardlink policy). */
module Register {
  import opened Primitives

  /** A UTF-16 string (`U16Str` / `U16String`), held as its characters. A `char` is a
      Unicode scalar value: one UTF-16 code unit inside the Basic Multilingual Plane, a
      surrogate pair of two units outside it. */
  type WideString = string

  /** The first code point outside the Basic Multilingual Plane. */
  const FIRST_SUPPLEMENTARY: int := 0x1_0000

  /** The number of UTF-16 code units that encode `s`, which is what `U16Str::len` counts. */
  function Utf16Length(s: WideString): (n: nat)
    ensures |s| <= n <= 2 * |s|
  {
    if s == [] then 0
    else (if s[0] as int < FIRST_SUPPLEMENTARY then 1 else 2) + Utf16Length(s[1..])
  }

  /** A string has as many code units as characters exactly when every character lies in
      the Basic Multilingual Plane; each character outside it costs one unit more. */
  lemma {:induction false} Utf16LengthIsCharCountExactlyInBmp(s: WideString)
    ensures Utf16Length(s) == |s| <==> forall i :: 0 <= i < |s| ==> s[i] as int < FIRST_SUPPLEMENTARY
  {
    if s != [] {
      Utf16LengthIsCharCountExactlyInBmp(s[1..]);
      assert forall i :: 1 <= i < |s| ==> s[i] == s[1..][i - 1];
    }
  }

  /** The GUID a provider may be identified by. */
  type Guid(==)

  /** The sync root being registered. Only its provider name is consulted here. */
  datatype SyncRoot = SyncRoot(providerName: WideString)

  // ---------------------------------------------------------------------------
  // Enums and their platform counterparts
  // ---------------------------------------------------------------------------

  datatype ProtectionMode = Personal | Unknown

  /** `Windows.Storage.Provider.StorageProviderProtectionMode`. */
  datatype StorageProviderProtectionMode = Unknown | Personal

  datatype HydrationType = Partial | Progressive | Full | AlwaysFull

  /** `Windows.Storage.Provider.StorageProviderHydrationPolicy`. */
  datatype StorageProviderHydrationPolicy = Partial | Progressive | Full | AlwaysFull

  datatype PopulationType = Full | AlwaysFull

  /** `Windows.Storage.Provider.StorageProviderPopulationPolicy`. */
  datatype StorageProviderPopulationPolicy = Full | AlwaysFull

  /** `Windows.Storage.Provider.StorageProviderHardlinkPolicy`. */
  datatype StorageProviderHardlinkPolicy = None | Allowed

  // The primary hydration and population policy codes of the Cloud Filter API
  // (CF_HYDRATION_POLICY_PRIMARY, CF_POPULATION_POLICY_PRIMARY), as defined in cfapi.h.
  const CF_HYDRATION_POLICY_PARTIAL: uint16 := 0
  const CF_HYDRATION_POLICY_PROGRESSIVE: uint16 := 1
  const CF_HYDRATION_POLICY_FULL: uint16 := 2
  const CF_HYDRATION_POLICY_ALWAYS_FULL: uint16 := 3
  const CF_POPULATION_POLICY_PARTIAL: uint16 := 0
  const CF_POPULATION_POLICY_FULL: uint16 := 2
  const CF_POPULATION_POLICY_ALWAYS_FULL: uint16 := 3

  // The limits `version` and `blob` enforce.
  const CF_MAX_PROVIDER_VERSION_LENGTH: nat := 255
  const MAX_BLOB_LENGTH: nat := 65536

  /** `From<ProtectionMode> for StorageProviderProtectionMode`. */
  function ProtectionModeToPlatform(mode: ProtectionMode): (r: StorageProviderProtectionMode)
    ensures r.Personal? <==> mode.Personal?
  {
    match mode
    case Personal => StorageProviderProtectionMode.Personal
    case Unknown => StorageProviderProtectionMode.Unknown
  }

  /** The inverse reading of a platform protection mode. */
  function ProtectionModeFromPlatform(mode: StorageProviderProtectionMode): (r: ProtectionMode)
    ensures r.Personal? <==> mode.Personal?
  {
    match mode
    case Personal => ProtectionMode.Personal
    case Unknown => ProtectionMode.Unknown
  }

  /** The protection-mode mapping is a bijection. */
  lemma ProtectionModeRoundTrip(mode: ProtectionMode, platform: StorageProviderProtectionMode)
    ensures ProtectionModeFromPlatform(ProtectionModeToPlatform(mode)) == mode
    ensures ProtectionModeToPlatform(ProtectionModeFromPlatform(platform)) == platform
  {
  }

  /** `From<HydrationType> for StorageProviderHydrationPolicy`: each variant to its namesake. */
  function HydrationTypeToPlatform(hydration: HydrationType): (r: StorageProviderHydrationPolicy)
    ensures r.Partial? <==> hydration.Partial?
    ensures r.Progressive? <==> hydration.Progressive?
    ensures r.Full? <==> hydration.Full?
    ensures r.AlwaysFull? <==> hydration.AlwaysFull?
  {
    match hydration
    case Partial => StorageProviderHydrationPolicy.Partial
    case Progressive => StorageProviderHydrationPolicy.Progressive
    case Full => StorageProviderHydrationPolicy.Full
    case AlwaysFull => StorageProviderHydrationPolicy.AlwaysFull
  }

  /** The inverse reading of a platform hydration policy. */
  function HydrationTypeFromPlatform(policy: StorageProviderHydrationPolicy): (r: HydrationType)
    ensures HydrationTypeToPlatform(r) == policy
  {
    match policy
    case Partial => HydrationType.Partial
    case Progressive => HydrationType.Progressive
    case Full => HydrationType.Full
    case AlwaysFull => HydrationType.AlwaysFull
  }

  /** The hydration mapping to the platform policy is a bijection. */
  lemma HydrationPlatformRoundTrip(hydration: HydrationType, policy: StorageProviderHydrationPolicy)
    ensures HydrationTypeFromPlatform(HydrationTypeToPlatform(hydration)) == hydration
    ensures HydrationTypeToPlatform(HydrationTypeFromPlatform(policy)) == policy
  {
  }

  /** The primary hydration codes the conversion from CF_HYDRATION_POLICY_PRIMARY_USHORT
      recognises; any other code is declared unreachable by the source. */
  predicate IsHydrationPrimary(code: uint16) {
    || code == CF_HYDRATION_POLICY_PARTIAL
    || code == CF_HYDRATION_POLICY_PROGRESSIVE
    || code == CF_HYDRATION_POLICY_FULL
    || code == CF_HYDRATION_POLICY_ALWAYS_FULL
  }

  /** The primary code each hydration type stands for (reference definition, by name). */
  function HydrationTypeCode(hydration: HydrationType): (code: uint16)
    ensures IsHydrationPrimary(code)
  {
    match hydration
    case Partial => CF_HYDRATION_POLICY_PARTIAL
    case Progressive => CF_HYDRATION_POLICY_PROGRESSIVE
    case Full => CF_HYDRATION_POLICY_FULL
    case AlwaysFull => CF_HYDRATION_POLICY_ALWAYS_FULL
  }

  /** `From<CF_HYDRATION_POLICY_PRIMARY_USHORT> for HydrationType`. */
  function HydrationTypeFromPrimary(code: uint16): (r: HydrationType)
    requires IsHydrationPrimary(code)
    ensures HydrationTypeCode(r) == code
  {
    if code == CF_HYDRATION_POLICY_PARTIAL then HydrationType.Partial
    else if code == CF_HYDRATION_POLICY_PROGRESSIVE then HydrationType.Progressive
    else if code == CF_HYDRATION_POLICY_FULL then HydrationType.Full
    else HydrationType.AlwaysFull
  }

  /** Reading a hydration type back from its primary code gives the same type. */
  lemma HydrationPrimaryRoundTrip(hydration: HydrationType)
    ensures HydrationTypeFromPrimary(HydrationTypeCode(hydration)) == hydration
  {
  }

  /** `From<PopulationType> for StorageProviderPopulationPolicy`. */
  function PopulationTypeToPlatform(population: PopulationType): (r: StorageProviderPopulationPolicy)
    ensures r.Full? <==> population.Full?
  {
    match population
    case Full => StorageProviderPopulationPolicy.Full
    case AlwaysFull => StorageProviderPopulationPolicy.AlwaysFull
  }

  /** The inverse reading of a platform population policy. */
  function PopulationTypeFromPlatform(policy: StorageProviderPopulationPolicy): (r: PopulationType)
    ensures r.Full? <==> policy.Full?
  {
    match policy
    case Full => PopulationType.Full
    case AlwaysFull => PopulationType.AlwaysFull
  }

  /** The population mapping to the platform policy is a bijection. */
  lemma PopulationPlatformRoundTrip(population: PopulationType, policy: StorageProviderPopulationPolicy)
    ensures PopulationTypeFromPlatform(PopulationTypeToPlatform(population)) == population
    ensures PopulationTypeToPlatform(PopulationTypeFromPlatform(policy)) == policy
  {
  }

  /** The primary population codes the conversion from CF_POPULATION_POLICY_PRIMARY_USHORT
      recognises. CF_POPULATION_POLICY_PARTIAL is not among them: the source declares it,
      like every other code, unreachable. */
  predicate IsPopulationPrimary(code: uint16) {
    code == CF_POPULATION_POLICY_FULL || code == CF_POPULATION_POLICY_ALWAYS_FULL
  }

  /** The primary code each population type stands for (reference definition, by name). */
  function PopulationTypeCode(population: PopulationType): (code: uint16)
    ensures IsPopulationPrimary(code)
  {
    match population
    case Full => CF_POPULATION_POLICY_FULL
    case AlwaysFull => CF_POPULATION_POLICY_ALWAYS_FULL
  }

  /** `From<CF_POPULATION_POLICY_PRIMARY_USHORT> for PopulationType`. */
  function PopulationTypeFromPrimary(code: uint16): (r: PopulationType)
    requires IsPopulationPrimary(code)
    ensures PopulationTypeCode(r) == code
  {
    if code == CF_POPULATION_POLICY_FULL then PopulationType.Full else PopulationType.AlwaysFull
  }

  /** Reading a population type back from its primary code gives the same type. */
  lemma PopulationPrimaryRoundTrip(population: PopulationType)
    ensures PopulationTypeFromPrimary(PopulationTypeCode(population)) == population
  {
  }

  // ---------------------------------------------------------------------------
  // Flag sets built by bit-or
  // ---------------------------------------------------------------------------

  /** The named bits of `StorageProviderHydrationPolicyModifier`. */
  datatype HydrationModifier =
    | ValidationRequired
    | StreamingAllowed
    | AutoDehydrationAllowed
    | AllowFullRestartHydration

  /** `HydrationPolicy`: a set of modifier bits. Or-ing a bit in is adding it to the set. */
  datatype HydrationPolicy = HydrationPolicy(modifiers: set<HydrationModifier>) {

    /** `HydrationPolicy::default()` / `new()`: `StorageProviderHydrationPolicyModifier::None`. */
    static function Default(): (p: HydrationPolicy)
      ensures forall m :: !p.Has(m)
    {
      HydrationPolicy({})
    }

    predicate Has(m: HydrationModifier) {
      m in modifiers
    }

    /** `self.0 |= m`. */
    function With(m: HydrationModifier): (r: HydrationPolicy)
      ensures forall g :: r.Has(g) <==> g == m || Has(g)
    {
      HydrationPolicy(modifiers + {m})
    }

    function RequireValidation(): (r: HydrationPolicy)
      ensures forall g :: r.Has(g) <==> g == ValidationRequired || Has(g)
    {
      With(ValidationRequired)
    }

    function AllowStreaming(): (r: HydrationPolicy)
      ensures forall g :: r.Has(g) <==> g == StreamingAllowed || Has(g)
    {
      With(StreamingAllowed)
    }

    function AllowPlatformDehydration(): (r: HydrationPolicy)
      ensures forall g :: r.Has(g) <==> g == AutoDehydrationAllowed || Has(g)
    {
      With(AutoDehydrationAllowed)
    }

    function AllowFullRestartHydration(): (r: HydrationPolicy)
      ensures forall g :: r.Has(g) <==> g == HydrationModifier.AllowFullRestartHydration || Has(g)
    {
      With(HydrationModifier.AllowFullRestartHydration)
    }

    /** A chain of setter calls, applied left to right. */
    function WithEach(ms: seq<HydrationModifier>): (r: HydrationPolicy)
      ensures r.modifiers == modifiers + Elements(ms)
      decreases |ms|
    {
      if ms == [] then this else With(ms[0]).WithEach(ms[1..])
    }
  }

  /** Or-ing a modifier in is idempotent and commutative and never clears a bit. */
  lemma HydrationModifierAlgebra(p: HydrationPolicy, m: HydrationModifier, n: HydrationModifier)
    ensures p.With(m).With(m) == p.With(m)
    ensures p.With(m).With(n) == p.With(n).With(m)
    ensures forall g :: p.Has(g) ==> p.With(m).Has(g)
  {
  }

  /** A policy built from the default by any chain of setters depends only on which setters
      were called, not on their order or repetition. */
  lemma HydrationPolicyOrderIrrelevant(ms: seq<HydrationModifier>, ns: seq<HydrationModifier>)
    requires Elements(ms) == Elements(ns)
    ensures HydrationPolicy.Default().WithEach(ms) == HydrationPolicy.Default().WithEach(ns)
  {
  }

  /** The named bits of `StorageProviderInSyncPolicy` that `SupportedAttributes` sets. */
  datatype InSyncFlag =
    | FileCreationTime
    | FileReadOnlyAttribute
    | FileHiddenAttribute
    | FileSystemAttribute
    | FileLastWriteTime
    | DirectoryCreationTime
    | DirectoryReadOnlyAttribute
    | DirectoryHiddenAttribute
    | DirectoryLastWriteTime
    | PreserveInsyncForSyncEngine

  /** `SupportedAttributes`: a set of in-sync policy bits. */
  datatype SupportedAttributes = SupportedAttributes(flags: set<InSyncFlag>) {

    /** `SupportedAttributes::default()` / `new()`: `StorageProviderInSyncPolicy::Default`. */
    static function Default(): (a: SupportedAttributes)
      ensures forall f :: !a.Has(f)
    {
      SupportedAttributes({})
    }

    predicate Has(f: InSyncFlag) {
      f in flags
    }

    /** `self.0 |= f`. */
    function With(f: InSyncFlag): (r: SupportedAttributes)
      ensures forall g :: r.Has(g) <==> g == f || Has(g)
    {
      SupportedAttributes(flags + {f})
    }

    function FileCreationTime(): (r: SupportedAttributes)
      ensures forall g :: r.Has(g) <==> g == InSyncFlag.FileCreationTime || Has(g)
    {
      With(InSyncFlag.FileCreationTime)
    }

    function FileReadonly(): (r: SupportedAttributes)
      ensures forall g :: r.Has(g) <==> g == FileReadOnlyAttribute || Has(g)
    {
      With(FileReadOnlyAttribute)
    }

    function FileHidden(): (r: SupportedAttributes)
      ensures forall g :: r.Has(g) <==> g == FileHiddenAttribute || Has(g)
    {
      With(FileHiddenAttribute)
    }

    function FileSystem(): (r: SupportedAttributes)
      ensures forall g :: r.Has(g) <==> g == FileSystemAttribute || Has(g)
    {
      With(FileSystemAttribute)
    }

    function FileLastWriteTime(): (r: SupportedAttributes)
      ensures forall g :: r.Has(g) <==> g == InSyncFlag.FileLastWriteTime || Has(g)
    {
      With(InSyncFlag.FileLastWriteTime)
    }

    function DirectoryCreationTime(): (r: SupportedAttributes)
      ensures forall g :: r.Has(g) <==> g == InSyncFlag.DirectoryCreationTime || Has(g)
    {
      With(InSyncFlag.DirectoryCreationTime)
    }

    function DirectoryReadonly(): (r: SupportedAttributes)
      ensures forall g :: r.Has(g) <==> g == DirectoryReadOnlyAttribute || Has(g)
    {
      With(DirectoryReadOnlyAttribute)
    }

    function DirectoryHidden(): (r: SupportedAttributes)
      ensures forall g :: r.Has(g) <==> g == DirectoryHiddenAttribute || Has(g)
    {
      With(DirectoryHiddenAttribute)
    }

    function DirectoryLastWriteTime(): (r: SupportedAttributes)
      ensures forall g :: r.Has(g) <==> g == InSyncFlag.DirectoryLastWriteTime || Has(g)
    {
      With(InSyncFlag.DirectoryLastWriteTime)
    }

    /** `none()`: in spite of its name it or-s in `PreserveInsyncForSyncEngine`. */
    function PreserveInsync(): (r: SupportedAttributes)
      ensures forall g :: r.Has(g) <==> g == PreserveInsyncForSyncEngine || Has(g)
    {
      With(PreserveInsyncForSyncEngine)
    }

    /** A chain of setter calls, applied left to right. */
    function WithEach(fs: seq<InSyncFlag>): (r: SupportedAttributes)
      ensures r.flags == flags + Elements(fs)
      decreases |fs|
    {
      if fs == [] then this else With(fs[0]).WithEach(fs[1..])
    }
  }

  /** Or-ing an attribute flag in is idempotent and commutative and never clears a bit. */
  lemma InSyncFlagAlgebra(a: SupportedAttributes, f: InSyncFlag, g: InSyncFlag)
    ensures a.With(f).With(f) == a.With(f)
    ensures a.With(f).With(g) == a.With(g).With(f)
    ensures forall h :: a.Has(h) ==> a.With(f).Has(h)
  {
  }

  /** Attributes built from the default depend only on which setters were called. */
  lemma SupportedAttributesOrderIrrelevant(fs: seq<InSyncFlag>, gs: seq<InSyncFlag>)
    requires Elements(fs) == Elements(gs)
    ensures SupportedAttributes.Default().WithEach(fs) == SupportedAttributes.Default().WithEach(gs)
  {
  }

  // ---------------------------------------------------------------------------
  // The icon resource string
  // ---------------------------------------------------------------------------

  predicate IsDigit(c: char) {
    '0' <= c <= '9'
  }

  predicate AllDigits(s: string) {
    forall i :: 0 <= i < |s| ==> IsDigit(s[i])
  }

  function DigitChar(d: nat): (c: char)
    requires d < 10
    ensures IsDigit(c)
  {
    (('0' as int) + d) as char
  }

  /** Rust's `format!("{n}")` for an unsigned integer: the shortest decimal numeral. */
  function Decimal(n: nat): (s: string)
    ensures |s| >= 1 && AllDigits(s)
    ensures s[0] == '0' ==> n == 0 && |s| == 1
    decreases n
  {
    if n < 10 then [DigitChar(n)] else Decimal(n / 10) + [DigitChar(n % 10)]
  }

  /** The value of a decimal numeral (reference reading of `Decimal`). */
  function ParseDecimal(s: string): (n: nat)
    requires AllDigits(s)
    decreases |s|
  {
    if s == [] then 0 else ParseDecimal(s[..|s| - 1]) * 10 + ((s[|s| - 1] as int) - ('0' as int))
  }

  /** Printing a number in decimal loses nothing. */
  lemma {:induction false} DecimalRoundTrip(n: nat)
    ensures ParseDecimal(Decimal(n)) == n
    decreases n
  {
    if n >= 10 {
      var s := Decimal(n);
      assert s[..|s| - 1] == Decimal(n / 10);
      DecimalRoundTrip(n / 10);
    }
  }

  /** The position of the last comma in `s`, if any. */
  function LastComma(s: string): (r: Option<nat>)
    ensures r.Some? ==> r.value < |s| && s[r.value] == ','
    ensures r.Some? ==> forall j :: r.value < j < |s| ==> s[j] != ','
    ensures r.None? ==> forall j :: 0 <= j < |s| ==> s[j] != ','
    decreases |s|
  {
    if s == [] then Option.None
    else if s[|s| - 1] == ',' then Some(|s| - 1)
    else LastComma(s[..|s| - 1])
  }

  /** What `icon(path, index)` stores: the path, a comma and the index in decimal. */
  function IconResource(path: WideString, index: uint16): (icon: WideString)
    ensures |icon| > |path| + 1
    ensures icon[..|path|] == path && icon[|path|] == ','
  {
    path + "," + Decimal(index)
  }

  /** Splits an icon resource at its last comma into the path and the resource index. */
  function ParseIconResource(icon: WideString): (r: Option<(WideString, uint16)>)
  {
    match LastComma(icon)
    case None => Option.None
    case Some(i) =>
      var digits := icon[i + 1..];
      if digits != [] && AllDigits(digits) && ParseDecimal(digits) < TWO_TO_THE_16
      then Some((icon[..i], ParseDecimal(digits)))
      else Option.None
  }

  /** The icon resource can always be taken apart again, even when the path itself
      contains commas, because the decimal index never does. */
  lemma IconResourceRoundTrip(path: WideString, index: uint16)
    ensures ParseIconResource(IconResource(path, index)) == Some((path, index))
  {
    var icon := IconResource(path, index);
    var digits := Decimal(index);
    assert icon == path + "," + digits;
    assert forall j :: |path| < j < |icon| ==> icon[j] == digits[j - |path| - 1];
    var last := LastComma(icon);
    assert last == Some(|path|);
    assert icon[|path| + 1..] == digits;
    assert icon[..|path|] == path;
    DecimalRoundTrip(index);
  }

  /** Distinct (path, index) pairs give distinct icon resources. */
  lemma IconResourceInjective(p: WideString, i: uint16, q: WideString, j: uint16)
    requires IconResource(p, i) == IconResource(q, j)
    ensures p == q && i == j
  {
    IconResourceRoundTrip(p, i);
    IconResourceRoundTrip(q, j);
  }

  const DEFAULT_ICON_PATH: WideString := "C:\\Windows\\System32\\imageres.dll"
  const DEFAULT_ICON_INDEX: uint16 := 1525

  /** The default icon in `from_sync_root`. */
  const DEFAULT_ICON: WideString := "C:\\Windows\\System32\\imageres.dll,1525"

  /** The default icon is written in the very format `icon` produces. */
  lemma DefaultIconIsIconResource()
    ensures DEFAULT_ICON == IconResource(DEFAULT_ICON_PATH, DEFAULT_ICON_INDEX)
  {
    assert Decimal(1) == "1";
    assert Decimal(15) == "15";
    assert Decimal(152) == "152";
    assert Decimal(1525) == "1525";
  }

  // ---------------------------------------------------------------------------
  // The builder
  // ---------------------------------------------------------------------------

  /** The fields of a `Registration`, to say which one a setter writes. */
  datatype Field =
    | SyncRootField
    | ShowSiblingsAsGroupField
    | AllowPinningField
    | AllowHardlinksField
    | DisplayNameField
    | RecycleBinUriField
    | VersionField
    | HydrationTypeField
    | HydrationPolicyField
    | PopulationTypeField
    | ProtectionModeField
    | ProviderIdField
    | SupportedAttributesField
    | IconField
    | BlobField

  datatype Registration = Registration(
    syncRoot: SyncRoot,
    showSiblingsAsGroup: bool,
    allowPinning: bool,
    allowHardlinks: bool,
    displayName: Option<WideString>,
    recycleBinUri: Option<WideString>,
    version: Option<WideString>,
    hydrationType: HydrationType,
    hydrationPolicy: HydrationPolicy,
    populationType: PopulationType,
    protectionMode: ProtectionMode,
    providerId: Option<Guid>,
    supportedAttributes: SupportedAttributes,
    icon: WideString,
    blob: Option<seq<uint8>>)
  {
    /** `self` and `other` hold the same value in every field except possibly `f`. */
    predicate AgreesExcept(other: Registration, f: Field) {
      && (f != SyncRootField ==> syncRoot == other.syncRoot)
      && (f != ShowSiblingsAsGroupField ==> showSiblingsAsGroup == other.showSiblingsAsGroup)
      && (f != AllowPinningField ==> allowPinning == other.allowPinning)
      && (f != AllowHardlinksField ==> allowHardlinks == other.allowHardlinks)
      && (f != DisplayNameField ==> displayName == other.displayName)
      && (f != RecycleBinUriField ==> recycleBinUri == other.recycleBinUri)
      && (f != VersionField ==> version == other.version)
      && (f != HydrationTypeField ==> hydrationType == other.hydrationType)
      && (f != HydrationPolicyField ==> hydrationPolicy == other.hydrationPolicy)
      && (f != PopulationTypeField ==> populationType == other.populationType)
      && (f != ProtectionModeField ==> protectionMode == other.protectionMode)
      && (f != ProviderIdField ==> providerId == other.providerId)
      && (f != SupportedAttributesField ==> supportedAttributes == other.supportedAttributes)
      && (f != IconField ==> icon == other.icon)
      && (f != BlobField ==> blob == other.blob)
    }

    /** `Registration::from_sync_root`: the default configuration. */
    static function FromSyncRoot(root: SyncRoot): (r: Registration)
      ensures r.syncRoot == root
      ensures r.hydrationType == HydrationType.Progressive
      ensures r.populationType == PopulationType.Full
      ensures r.protectionMode == ProtectionMode.Unknown
      ensures !r.showSiblingsAsGroup && !r.allowPinning && !r.allowHardlinks
      ensures r.displayName.None? && r.recycleBinUri.None? && r.version.None?
      ensures r.providerId.None? && r.blob.None?
      ensures r.hydrationPolicy == HydrationPolicy.Default()
      ensures r.supportedAttributes == SupportedAttributes.Default()
      ensures r.icon == IconResource(DEFAULT_ICON_PATH, DEFAULT_ICON_INDEX)
    {
      DefaultIconIsIconResource();
      Registration(
        root, false, false, false, Option.None, Option.None, Option.None,
        HydrationType.Progressive, HydrationPolicy.Default(), PopulationType.Full,
        ProtectionMode.Unknown, Option.None, SupportedAttributes.Default(), DEFAULT_ICON, Option.None)
    }

    function SetHydrationType(hydration: HydrationType): (r: Registration)
      ensures r.hydrationType == hydration && AgreesExcept(r, HydrationTypeField)
    {
      this.(hydrationType := hydration)
    }

    function AllowPinning(): (r: Registration)
      ensures r.allowPinning && AgreesExcept(r, AllowPinningField)
    {
      this.(allowPinning := true)
    }

    function AllowHardlinks(): (r: Registration)
      ensures r.allowHardlinks && AgreesExcept(r, AllowHardlinksField)
    {
      this.(allowHardlinks := true)
    }

    function SetDisplayName(name: WideString): (r: Registration)
      ensures r.displayName == Some(name) && AgreesExcept(r, DisplayNameField)
    {
      this.(displayName := Some(name))
    }

    function SetRecycleBinUri(uri: WideString): (r: Registration)
      ensures r.recycleBinUri == Some(uri) && AgreesExcept(r, RecycleBinUriField)
    {
      this.(recycleBinUri := Some(uri))
    }

    function ShowSiblingsAsGroup(): (r: Registration)
      ensures r.showSiblingsAsGroup && AgreesExcept(r, ShowSiblingsAsGroupField)
    {
      this.(showSiblingsAsGroup := true)
    }

    function SetPopulationType(population: PopulationType): (r: Registration)
      ensures r.populationType == population && AgreesExcept(r, PopulationTypeField)
    {
      this.(populationType := population)
    }

    /** `version`: panics, which is modelled as a precondition, on an over-long version. */
    function SetVersion(v: WideString): (r: Registration)
      requires Utf16Length(v) <= CF_MAX_PROVIDER_VERSION_LENGTH
      ensures r.version == Some(v) && AgreesExcept(r, VersionField)
    {
      this.(version := Some(v))
    }

    function SetProtectionMode(mode: ProtectionMode): (r: Registration)
      ensures r.protectionMode == mode && AgreesExcept(r, ProtectionModeField)
    {
      this.(protectionMode := mode)
    }

    function SetSupportedAttributes(attributes: SupportedAttributes): (r: Registration)
      ensures r.supportedAttributes == attributes && AgreesExcept(r, SupportedAttributesField)
    {
      this.(supportedAttributes := attributes)
    }

    function SetHydrationPolicy(policy: HydrationPolicy): (r: Registration)
      ensures r.hydrationPolicy == policy && AgreesExcept(r, HydrationPolicyField)
    {
      this.(hydrationPolicy := policy)
    }

    /** `icon(path, index)`: stores the resource string `path,index`, which splits back into
        exactly `path` and `index`. */
    function SetIcon(path: WideString, index: uint16): (r: Registration)
      ensures r.icon == IconResource(path, index)
      ensures ParseIconResource(r.icon) == Some((path, index)) && AgreesExcept(r, IconField)
    {
      IconResourceRoundTrip(path, index);
      this.(icon := IconResource(path, index))
    }

    /** `blob`: panics, which is modelled as a precondition, on a blob over 64 KiB. */
    function SetBlob(b: seq<uint8>): (r: Registration)
      requires |b| <= MAX_BLOB_LENGTH
      ensures r.blob == Some(b) && AgreesExcept(r, BlobField)
    {
      this.(blob := Some(b))
    }

    /** The display name `register` passes on: the one set, else the provider's name. */
    function DisplayNameResource(): (name: WideString)
      ensures displayName.Some? ==> name == displayName.value
      ensures displayName.None? ==> name == syncRoot.providerName
    {
      displayName.UnwrapOr(syncRoot.providerName)
    }

    /** The hardlink policy `register` passes on. */
    function HardlinkPolicy(): (p: StorageProviderHardlinkPolicy)
      ensures p.Allowed? <==> allowHardlinks
    {
      if allowHardlinks then StorageProviderHardlinkPolicy.Allowed else StorageProviderHardlinkPolicy.None
    }
  }

  // ---------------------------------------------------------------------------
  // Chains of builder calls
  // ---------------------------------------------------------------------------

  /** One builder call, with its argument. */
  datatype BuilderCall =
    | HydrationTypeCall(hydration: HydrationType)
    | AllowPinningCall
    | AllowHardlinksCall
    | DisplayNameCall(name: WideString)
    | RecycleBinUriCall(uri: WideString)
    | ShowSiblingsAsGroupCall
    | PopulationTypeCall(population: PopulationType)
    | VersionCall(version: WideString)
    | ProtectionModeCall(mode: ProtectionMode)
    | SupportedAttributesCall(attributes: SupportedAttributes)
    | HydrationPolicyCall(policy: HydrationPolicy)
    | IconCall(path: WideString, index: uint16)
    | BlobCall(blob: seq<uint8>)

  /** The call does not panic. */
  predicate CallAllowed(c: BuilderCall) {
    && (c.VersionCall? ==> Utf16Length(c.version) <= CF_MAX_PROVIDER_VERSION_LENGTH)
    && (c.BlobCall? ==> |c.blob| <= MAX_BLOB_LENGTH)
  }

  /** The field a builder call writes. */
  function FieldOf(c: BuilderCall): Field {
    match c
    case HydrationTypeCall(_) => HydrationTypeField
    case AllowPinningCall => AllowPinningField
    case AllowHardlinksCall => AllowHardlinksField
    case DisplayNameCall(_) => DisplayNameField
    case RecycleBinUriCall(_) => RecycleBinUriField
    case ShowSiblingsAsGroupCall => ShowSiblingsAsGroupField
    case PopulationTypeCall(_) => PopulationTypeField
    case VersionCall(_) => VersionField
    case ProtectionModeCall(_) => ProtectionModeField
    case SupportedAttributesCall(_) => SupportedAttributesField
    case HydrationPolicyCall(_) => HydrationPolicyField
    case IconCall(_, _) => IconField
    case BlobCall(_) => BlobField
  }

  /** Performs one builder call. */
  function Apply(r: Registration, c: BuilderCall): Registration
    requires CallAllowed(c)
  {
    match c
    case HydrationTypeCall(h) => r.SetHydrationType(h)
    case AllowPinningCall => r.AllowPinning()
    case AllowHardlinksCall => r.AllowHardlinks()
    case DisplayNameCall(n) => r.SetDisplayName(n)
    case RecycleBinUriCall(u) => r.SetRecycleBinUri(u)
    case ShowSiblingsAsGroupCall => r.ShowSiblingsAsGroup()
    case PopulationTypeCall(p) => r.SetPopulationType(p)
    case VersionCall(v) => r.SetVersion(v)
    case ProtectionModeCall(m) => r.SetProtectionMode(m)
    case SupportedAttributesCall(a) => r.SetSupportedAttributes(a)
    case HydrationPolicyCall(p) => r.SetHydrationPolicy(p)
    case IconCall(path, index) => r.SetIcon(path, index)
    case BlobCall(b) => r.SetBlob(b)
  }

  /** Every builder call writes its own field and no other. */
  lemma ApplyWritesOneField(r: Registration, c: BuilderCall)
    requires CallAllowed(c)
    ensures r.AgreesExcept(Apply(r, c), FieldOf(c))
  {
    match c
    case HydrationTypeCall(h) =>
    case AllowPinningCall =>
    case AllowHardlinksCall =>
    case DisplayNameCall(n) =>
    case RecycleBinUriCall(u) =>
    case ShowSiblingsAsGroupCall =>
    case PopulationTypeCall(p) =>
    case VersionCall(v) =>
    case ProtectionModeCall(m) =>
    case SupportedAttributesCall(a) =>
    case HydrationPolicyCall(p) =>
    case IconCall(path, index) =>
    case BlobCall(b) =>
  }

  /** Two calls that write the same field leave what the second call alone would: a value
      setter called twice keeps only the last value, and a flag setter is idempotent. */
  lemma SameFieldLastCallWins(r: Registration, c: BuilderCall, d: BuilderCall)
    requires CallAllowed(c) && CallAllowed(d) && FieldOf(c) == FieldOf(d)
    ensures Apply(Apply(r, c), d) == Apply(r, d)
  {
    match d
    case HydrationTypeCall(h) =>
    case AllowPinningCall =>
    case AllowHardlinksCall =>
    case DisplayNameCall(n) =>
    case RecycleBinUriCall(u) =>
    case ShowSiblingsAsGroupCall =>
    case PopulationTypeCall(p) =>
    case VersionCall(v) =>
    case ProtectionModeCall(m) =>
    case SupportedAttributesCall(a) =>
    case HydrationPolicyCall(p) =>
    case IconCall(path, index) =>
    case BlobCall(b) =>
  }

  predicate AllAllowed(calls: seq<BuilderCall>) {
    forall i :: 0 <= i < |calls| ==> CallAllowed(calls[i])
  }

  /** A chain of builder calls, applied left to right. */
  function ApplyAll(r: Registration, calls: seq<BuilderCall>): (r': Registration)
    requires AllAllowed(calls)
    decreases |calls|
  {
    if calls == [] then r else ApplyAll(Apply(r, calls[0]), calls[1..])
  }

  /** The registration a chain of builder calls makes from `from_sync_root`. */
  function Build(root: SyncRoot, calls: seq<BuilderCall>): (r: Registration)
    requires AllAllowed(calls)
  {
    ApplyAll(Registration.FromSyncRoot(root), calls)
  }

  /** No builder call writes the sync root or the provider id. */
  lemma {:induction false} ApplyAllKeepsRootAndProviderId(r: Registration, calls: seq<BuilderCall>)
    requires AllAllowed(calls)
    ensures ApplyAll(r, calls).syncRoot == r.syncRoot
    ensures ApplyAll(r, calls).providerId == r.providerId
    decreases |calls|
  {
    if calls != [] {
      ApplyAllKeepsRootAndProviderId(Apply(r, calls[0]), calls[1..]);
    }
  }

  /** Hence `register` never sets a provider id: no chain of calls can give one. */
  lemma BuildHasNoProviderId(root: SyncRoot, calls: seq<BuilderCall>)
    requires AllAllowed(calls)
    ensures Build(root, calls).providerId.None?
    ensures Build(root, calls).syncRoot == root
  {
    ApplyAllKeepsRootAndProviderId(Registration.FromSyncRoot(root), calls);
  }

  /** Hardlinks end up allowed exactly when they were allowed before or a call allows them. */
  lemma {:induction false} ApplyAllHardlinks(r: Registration, calls: seq<BuilderCall>)
    requires AllAllowed(calls)
    ensures ApplyAll(r, calls).allowHardlinks <==> r.allowHardlinks || AllowHardlinksCall in calls
    decreases |calls|
  {
    if calls != [] {
      ApplyAllHardlinks(Apply(r, calls[0]), calls[1..]);
      assert calls == [calls[0]] + calls[1..];
    }
  }

  /** `register` asks for hardlinks exactly when `allow_hardlinks` was among the calls. */
  lemma BuildHardlinkPolicy(root: SyncRoot, calls: seq<BuilderCall>)
    requires AllAllowed(calls)
    ensures Build(root, calls).HardlinkPolicy().Allowed? <==> AllowHardlinksCall in calls
  {
    ApplyAllHardlinks(Registration.FromSyncRoot(root), calls);
  }

  /** The name given by the last `display_name` call of a chain, if any. */
  function LastDisplayName(calls: seq<BuilderCall>): (r: Option<WideString>)
    ensures r.Some? <==> exists i :: 0 <= i < |calls| && calls[i].DisplayNameCall?
    decreases |calls|
  {
    if calls == [] then Option.None
    else if calls[|calls| - 1].DisplayNameCall? then Some(calls[|calls| - 1].name)
    else LastDisplayName(calls[..|calls| - 1])
  }

  /** The display name after a chain: the last one the chain sets, else the one before. */
  lemma {:induction false} ApplyAllDisplayName(r: Registration, calls: seq<BuilderCall>)
    requires AllAllowed(calls)
    ensures ApplyAll(r, calls).displayName ==
      (if LastDisplayName(calls).Some? then LastDisplayName(calls) else r.displayName)
    decreases |calls|
  {
    if calls != [] {
      var last := calls[|calls| - 1];
      var front := calls[..|calls| - 1];
      assert front + [last] == calls;
      ApplyAllSnoc(r, front, last);
      ApplyAllDisplayName(r, front);
      var before := ApplyAll(r, front);
      ApplyWritesOneField(before, last);
      if last.DisplayNameCall? {
        assert Apply(before, last) == before.SetDisplayName(last.name);
      }
    }
  }

  /** Applying a chain and then one more call is applying the longer chain. */
  lemma {:induction false} ApplyAllSnoc(r: Registration, calls: seq<BuilderCall>, c: BuilderCall)
    requires AllAllowed(calls) && CallAllowed(c)
    ensures AllAllowed(calls + [c])
    ensures ApplyAll(r, calls + [c]) == Apply(ApplyAll(r, calls), c)
    decreases |calls|
  {
    if calls != [] {
      assert (calls + [c])[1..] == calls[1..] + [c];
      ApplyAllSnoc(Apply(r, calls[0]), calls[1..], c);
    }
  }

  /** `register` shows the name of the last `display_name` call, else the provider name. */
  lemma BuildDisplayName(root: SyncRoot, calls: seq<BuilderCall>)
    requires AllAllowed(calls)
    ensures Build(root, calls).DisplayNameResource() == LastDisplayName(calls).UnwrapOr(root.providerName)
  {
    ApplyAllDisplayName(Registration.FromSyncRoot(root), calls);
    ApplyAllKeepsRootAndProviderId(Registration.FromSyncRoot(root), calls);
  }
}
