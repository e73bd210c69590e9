# cloud-filter-rs: registration, tickets and callback defaults, in Dafny

This project models three parts of cloud-filter-rs, a Rust wrapper over the Windows Cloud
Filter API that sync engines use.

- **Sync-root registration** (`Register`, register.dfy). `Registration` is a value
  builder with a fixed default configuration. Each setter writes one field. `version` and
  `blob` panic on over-long input, and the model turns those panics into preconditions.
  `HydrationPolicy` and `SupportedAttributes` are flag sets built by bit-or, modelled as
  sets of named flags. `ProtectionMode`, `HydrationType` and `PopulationType` map to the
  platform's policy values. `HydrationType` and `PopulationType` also map back, and the
  model adds a reference inverse for `ProtectionMode` (the source has none). The model
  also covers two pure choices that `register` makes: which display name it passes (the one set, else the provider name) and
  which hardlink policy it passes. A chain of builder calls is modelled as a sequence of
  `BuilderCall`s, so that lemmas can speak of any chain. One result: no builder call sets
  `provider_id`, so `register` never passes a provider id.
- **Tickets** (`Command` and `Ticket`, ticket.dfy). There is one ticket type per
  terminating callback. Each holds its connection and transfer keys. Each ticket method is
  modelled as the `OsCall` it would hand to the operating system: a `Command` executed on
  the ticket's key pair, or a progress report on it. The capability table is stated
  exactly. For each ticket type, the lemma `…Capabilities` proves that the calls its
  methods can make are exactly the permitted ones: the right kinds of command, on its own
  key pair, and well formed.
- **Callback defaults** (`SyncFilter`, sync_filter.dfy). The model has the fourteen
  operation kinds and the callback signatures (which ones take a ticket). It has the
  trait's default bodies, and a model of an implementation as its `fetch_data` plus the
  terminating callbacks it overrides.

`Primitives` (primitives.dfy) holds `Option`, the fixed-width integer types, and the
`u64`/`i64` bit reinterpretation that `report_progress` uses.

Modelling choices:
- Wide strings are `string`. A Dafny `char` is a Unicode scalar value, so one character is
  one UTF-16 code unit inside the Basic Multilingual Plane and two outside it.
  `Register.Utf16Length` counts code units, which is what `U16Str::len` counts, and
  `version`'s length check uses it.
- Connection keys, transfer keys, placeholder entries, GUIDs, the request context and the
  info payloads are opaque types.
- The WinRT enums (`StorageProvider…`) are datatypes of their named variants.
- The Cloud Filter primary policy codes and `CF_MAX_PROVIDER_VERSION_LENGTH` are named
  constants. Their values come from the Windows SDK header cfapi.h, which is not part of
  this model. The proofs use only the fact that the codes are distinct.

Two points where the code is easy to misread:
- `write_at`'s doc comment (src/filter/ticket.rs:67-68) requires the buffer to be 4 KiB long
  or to end on the logical file size. `Ticket.FetchData.WriteAt` states that as its
  precondition, with the logical size as a ghost parameter. `Ticket.FetchData.CanMake` and
  `Ticket.FetchDataCapabilities` are stated for one given logical size. The size that
  `WriteAt` takes is a ghost argument supplied with each call, so nothing ties two writes
  of one fetch to the same size.
- `Dehydrate::pass_with_blob` checks no blob size, so `Ticket.Dehydrate.PassWithBlob` has no
  precondition. In the code modelled here, only `Registration::blob` enforces the 65536-byte limit.
  `command::Dehydrate::execute` is not part of this model.

## Model

| member | source | states |
|---|---|---|
| `Register.Registration.FromSyncRoot` | src/root/register.rs:46-64 | the default configuration: Progressive hydration, Full population, Unknown protection mode, all three flags false, no display name, recycle-bin URI, version, provider id or blob, default policy and attributes, and the stock imageres.dll icon |
| `Register.Registration.SetHydrationType` | src/root/register.rs:67-70 | the hydration type becomes the argument; every other field is unchanged |
| `Register.Registration.AllowPinning` | src/root/register.rs:73-76 | pinning becomes allowed; every other field is unchanged |
| `Register.Registration.AllowHardlinks` | src/root/register.rs:79-82 | hardlinks become allowed; every other field is unchanged |
| `Register.Registration.SetDisplayName` | src/root/register.rs:86-89 | the display name becomes `Some(name)`; every other field is unchanged |
| `Register.Registration.SetRecycleBinUri` | src/root/register.rs:92-95 | the recycle-bin URI becomes `Some(uri)`; every other field is unchanged |
| `Register.Registration.ShowSiblingsAsGroup` | src/root/register.rs:99-102 | the show-siblings flag is set; every other field is unchanged |
| `Register.Registration.SetPopulationType` | src/root/register.rs:105-108 | the population type becomes the argument; every other field is unchanged |
| `Register.Registration.SetVersion` | src/root/register.rs:111-120 | requires the version to be at most CF_MAX_PROVIDER_VERSION_LENGTH UTF-16 code units long (the source panics otherwise); stores `Some(v)`; every other field is unchanged |
| `Register.Utf16Length` | src/root/register.rs:113 | the number of UTF-16 code units of a string lies between its character count and twice that |
| `Register.Utf16LengthIsCharCountExactlyInBmp` | src/root/register.rs:113 | the code-unit count equals the character count exactly when every character lies in the Basic Multilingual Plane |
| `Register.Registration.SetProtectionMode` | src/root/register.rs:123-126 | the protection mode becomes the argument; every other field is unchanged |
| `Register.Registration.SetSupportedAttributes` | src/root/register.rs:129-132 | the supported attributes become the argument; every other field is unchanged |
| `Register.Registration.SetHydrationPolicy` | src/root/register.rs:135-138 | the hydration policy becomes the argument; every other field is unchanged |
| `Register.Registration.SetIcon` | src/root/register.rs:143-147 | the stored icon resource is `path,index` with the index in canonical decimal, and it splits back, at its last comma, into exactly the given path and index; every other field is unchanged |
| `Register.Registration.SetBlob` | src/root/register.rs:150-158 | requires the blob to be at most 65536 bytes (the source panics otherwise); stores `Some(b)`; every other field is unchanged |
| `Register.Registration.DisplayNameResource` | src/root/register.rs:169-173 | the display name passed to the platform is the one set, or the sync root's provider name when none is set |
| `Register.Registration.HardlinkPolicy` | src/root/register.rs:181-185 | the hardlink policy is `Allowed` exactly when `allow_hardlinks` was set, otherwise `None` |
| `Register.SameFieldLastCallWins` | src/root/register.rs:67-158 | for every pair of builder calls that write the same field, doing both leaves what the second alone would: each of the ten value setters keeps only its last value, and the three flag setters are idempotent |
| `Register.ApplyWritesOneField` | src/root/register.rs:67-158 | every builder call leaves every field except its own unchanged |
| `Register.ApplyAllKeepsRootAndProviderId` | src/root/register.rs:66-158 | no chain of builder calls changes the sync root or the provider id |
| `Register.BuildHasNoProviderId` | src/root/register.rs:188-190 | every registration built from `from_sync_root` has no provider id, so `register` never calls SetProviderId |
| `Register.ApplyAllHardlinks` | src/root/register.rs:79-82 | after a chain of calls, hardlinks are allowed exactly when they were before or the chain calls `allow_hardlinks` |
| `Register.BuildHardlinkPolicy` | src/root/register.rs:181-185 | for a built registration, `register` passes `Allowed` exactly when the chain calls `allow_hardlinks` |
| `Register.ApplyAllDisplayName` | src/root/register.rs:86-89 | after a chain of calls, the display name is the one given by the chain's last `display_name` call, or the previous one when the chain has none |
| `Register.BuildDisplayName` | src/root/register.rs:169-173 | for a built registration, `register` passes the last `display_name` given, or the provider name when there is none |
| `Register.ProtectionModeToPlatform` | src/root/register.rs:215-222 | Personal maps to the platform's Personal and Unknown to Unknown |
| `Register.ProtectionModeFromPlatform` | src/root/register.rs:215-222 | reference inverse of the mapping at these lines (the source has none): it keeps Personal and Unknown apart |
| `Register.ProtectionModeRoundTrip` | src/root/register.rs:215-222 | the protection-mode mapping is a bijection: both round trips are the identity |
| `Register.HydrationTypeToPlatform` | src/root/register.rs:232-241 | each hydration type maps to the platform hydration policy of the same name |
| `Register.HydrationTypeFromPlatform` | src/root/register.rs:232-241 | reference inverse of the mapping at these lines (the source has none): mapping its result forward again gives the policy started from |
| `Register.HydrationPlatformRoundTrip` | src/root/register.rs:232-241 | the hydration mapping to the platform is a bijection: both round trips are the identity |
| `Register.HydrationTypeCode` | src/root/register.rs:243-253 | reference mapping (the source has none) from each hydration type to the primary code of the same name, always one of the four recognised codes |
| `Register.HydrationTypeFromPrimary` | src/root/register.rs:243-253 | requires one of the four recognised primary codes (any other code is `unreachable!`); returns the type whose code it is |
| `Register.HydrationPrimaryRoundTrip` | src/root/register.rs:243-253 | reading a hydration type back from its primary code gives the same type |
| `Register.PopulationTypeToPlatform` | src/root/register.rs:308-315 | Full maps to the platform's Full and AlwaysFull to AlwaysFull |
| `Register.PopulationTypeFromPlatform` | src/root/register.rs:308-315 | reference inverse of the mapping at these lines (the source has none): it keeps Full and AlwaysFull apart |
| `Register.PopulationPlatformRoundTrip` | src/root/register.rs:308-315 | the population mapping to the platform is a bijection: both round trips are the identity |
| `Register.PopulationTypeCode` | src/root/register.rs:317-325 | reference mapping (the source has none) from each population type to the primary code of the same name, always one of the two recognised codes |
| `Register.PopulationTypeFromPrimary` | src/root/register.rs:317-325 | requires the FULL or ALWAYS_FULL primary code (PARTIAL and every other code are `unreachable!`); returns the type whose code it is |
| `Register.PopulationPrimaryRoundTrip` | src/root/register.rs:317-325 | reading a population type back from its primary code gives the same type |
| `Register.HydrationPolicy.Default` | src/root/register.rs:290-294 | the default policy (what `new` also returns) has no modifier bit set |
| `Register.HydrationPolicy.With` | src/root/register.rs:265 | or-ing a modifier in: the result has exactly that bit and the bits it had before |
| `Register.HydrationPolicy.RequireValidation` | src/root/register.rs:264-267 | adds ValidationRequired and keeps every other bit as it was |
| `Register.HydrationPolicy.AllowStreaming` | src/root/register.rs:272-275 | adds StreamingAllowed and keeps every other bit as it was |
| `Register.HydrationPolicy.AllowPlatformDehydration` | src/root/register.rs:278-281 | adds AutoDehydrationAllowed and keeps every other bit as it was |
| `Register.HydrationPolicy.AllowFullRestartHydration` | src/root/register.rs:284-287 | adds AllowFullRestartHydration and keeps every other bit as it was |
| `Register.HydrationPolicy.WithEach` | src/root/register.rs:263-287 | a chain of setter calls sets exactly the bits it started with plus the bits named in the chain |
| `Register.HydrationModifierAlgebra` | src/root/register.rs:263-287 | setting a modifier is idempotent and commutative and never clears a bit |
| `Register.HydrationPolicyOrderIrrelevant` | src/root/register.rs:258-294 | two chains of setters from the default that name the same modifiers give the same policy, whatever the order or repetition |
| `Register.SupportedAttributes.Default` | src/root/register.rs:398-402 | the default attributes (what `new` also returns) have no flag set |
| `Register.SupportedAttributes.With` | src/root/register.rs:337 | or-ing a flag in: the result has exactly that flag and the flags it had before |
| `Register.SupportedAttributes.FileCreationTime` | src/root/register.rs:336-339 | adds FileCreationTime and keeps every other flag |
| `Register.SupportedAttributes.FileReadonly` | src/root/register.rs:342-345 | adds FileReadOnlyAttribute and keeps every other flag |
| `Register.SupportedAttributes.FileHidden` | src/root/register.rs:348-351 | adds FileHiddenAttribute and keeps every other flag |
| `Register.SupportedAttributes.FileSystem` | src/root/register.rs:354-357 | adds FileSystemAttribute and keeps every other flag |
| `Register.SupportedAttributes.FileLastWriteTime` | src/root/register.rs:360-363 | adds FileLastWriteTime and keeps every other flag |
| `Register.SupportedAttributes.DirectoryCreationTime` | src/root/register.rs:366-369 | adds DirectoryCreationTime and keeps every other flag |
| `Register.SupportedAttributes.DirectoryReadonly` | src/root/register.rs:372-375 | adds DirectoryReadOnlyAttribute and keeps every other flag |
| `Register.SupportedAttributes.DirectoryHidden` | src/root/register.rs:378-381 | adds DirectoryHiddenAttribute and keeps every other flag |
| `Register.SupportedAttributes.DirectoryLastWriteTime` | src/root/register.rs:384-387 | adds DirectoryLastWriteTime and keeps every other flag |
| `Register.SupportedAttributes.PreserveInsync` | src/root/register.rs:392-395 | `none()` adds PreserveInsyncForSyncEngine and keeps every other flag |
| `Register.SupportedAttributes.WithEach` | src/root/register.rs:330-396 | a chain of setter calls sets exactly the flags it started with plus the flags named in the chain |
| `Register.InSyncFlagAlgebra` | src/root/register.rs:335-395 | setting an attribute flag is idempotent and commutative and never clears a flag |
| `Register.SupportedAttributesOrderIrrelevant` | src/root/register.rs:330-402 | two chains of setters from the default that name the same flags give the same attributes |
| `Register.Decimal` | src/root/register.rs:144 | `format!("{index}")` yields a non-empty string of decimal digits with no leading zero |
| `Register.DecimalRoundTrip` | src/root/register.rs:144 | reading the decimal numeral back gives the number printed |
| `Register.LastComma` | src/root/register.rs:144 | finds the position of the last comma, or reports that there is none |
| `Register.IconResource` | src/root/register.rs:143-147 | the icon resource starts with the path, followed by a comma and at least one more character |
| `Register.IconResourceRoundTrip` | src/root/register.rs:143-147 | splitting the icon resource at its last comma recovers the path and the index, even when the path contains commas |
| `Register.IconResourceInjective` | src/root/register.rs:143-147 | distinct (path, index) pairs give distinct icon resources |
| `Register.DefaultIconIsIconResource` | src/root/register.rs:61 | the default icon is the resource `icon` would build from imageres.dll and index 1525 |
| `Primitives.AsInt64` | src/filter/ticket.rs:40-41 | the `u64 as i64` cast keeps the value modulo 2^64 |
| `Primitives.AsUint64` | src/filter/ticket.rs:40-41 | the inverse reinterpretation keeps the value modulo 2^64 |
| `Primitives.AsInt64RoundTrip` | src/filter/ticket.rs:40-41 | the cast loses nothing: reading the bits back gives the value cast |
| `Primitives.AsUint64RoundTrip` | src/filter/ticket.rs:40-41 | every `i64` is the cast of exactly one `u64` |
| `Primitives.AsInt64KeepsSmallValues` | src/filter/ticket.rs:40-41 | values below 2^63 are forwarded unchanged, and larger ones become negative |
| `Ticket.FetchData.New` | src/filter/ticket.rs:24-29 | the ticket stores the given connection and transfer keys unchanged |
| `Ticket.FetchData.ReportProgress` | src/filter/ticket.rs:35-46 | reports progress on the ticket's own key pair; the forwarded `i64` values read back as the given total and completed counts |
| `Ticket.FetchData.ReadAt` | src/filter/ticket.rs:55-61 | issues `Read{buffer: buf, position: offset}` on the ticket's own key pair |
| `Ticket.FetchData.WriteAt` | src/filter/ticket.rs:64-77 | requires the buffer to be 4096 bytes long or to end on the logical file size; issues `Write{buffer: buf, position: offset}` on the ticket's own key pair |
| `Ticket.FetchDataCapabilities` | src/filter/ticket.rs:17-80 | a fetch-data ticket hydrating a file of a given logical size can make exactly the reads, progress reports and writes on its own key pair whose buffer is 4096 bytes long or ends on that size, and nothing else |
| `Ticket.ShortWriteInsideFileRefused` | src/filter/ticket.rs:64-77 | a 100-byte write at offset 0 of a 1000-byte file is not a call a fetch-data ticket can make |
| `Ticket.ValidateData.New` | src/filter/ticket.rs:91-96 | the ticket stores the given keys unchanged |
| `Ticket.ValidateData.Pass` | src/filter/ticket.rs:104-106 | issues `Validate{range}` with the range unchanged, on the ticket's own key pair |
| `Ticket.ValidateData.ReadAt` | src/filter/ticket.rs:118-124 | issues `Read{buffer: buf, position: offset}` on the ticket's own key pair |
| `Ticket.ValidateDataCapabilities` | src/filter/ticket.rs:84-127 | a validate-data ticket can make exactly the reads and validations on its own key pair |
| `Ticket.FetchPlaceholders.New` | src/filter/ticket.rs:138-143 | the ticket stores the given keys unchanged |
| `Ticket.FetchPlaceholders.PassWithPlaceholder` | src/filter/ticket.rs:148-154 | issues `CreatePlaceholders` carrying the same list, with total equal to its length, on the ticket's own key pair |
| `Ticket.FetchPlaceholdersCapabilities` | src/filter/ticket.rs:131-155 | a fetch-placeholders ticket can make exactly the well-formed placeholder creations on its own key pair |
| `Ticket.Dehydrate.New` | src/filter/ticket.rs:166-171 | the ticket stores the given keys unchanged |
| `Ticket.Dehydrate.Pass` | src/filter/ticket.rs:174-176 | `pass()` is `pass_with_blob` with an empty blob |
| `Ticket.Dehydrate.PassWithBlob` | src/filter/ticket.rs:179-181 | issues `Dehydrate{blob}` with the blob forwarded exactly, on the ticket's own key pair |
| `Ticket.DehydrateCapabilities` | src/filter/ticket.rs:159-182 | a dehydrate ticket can make exactly the dehydrations (with any blob) on its own key pair |
| `Ticket.Delete.New` | src/filter/ticket.rs:193-198 | the ticket stores the given keys unchanged |
| `Ticket.Delete.Pass` | src/filter/ticket.rs:201-203 | issues the payload-free `Delete` command on the ticket's own key pair |
| `Ticket.Rename.New` | src/filter/ticket.rs:215-220 | the ticket stores the given keys unchanged |
| `Ticket.Rename.Pass` | src/filter/ticket.rs:223-225 | issues the payload-free `Rename` command on the ticket's own key pair |
| `Ticket.DeleteAndRenameCapabilities` | src/filter/ticket.rs:186-225 | the only call a delete or rename ticket can make is its own payload-free confirmation on its own key pair |
| `Ticket.CapabilitiesDisjoint` | src/filter/ticket.rs:17-225 | no two ticket types share a kind of call, except that fetch-data and validate-data tickets can both read |
| `SyncFilter.TerminatingIffTicket` | src/filter/sync_filter.rs:15-111 | a callback is terminating exactly when it receives a ticket: fetch_data, validate_data, fetch_placeholders, dehydrate, delete and rename |
| `SyncFilter.DefaultResponse` | src/filter/sync_filter.rs:23-124 | the callbacks with a default are all except fetch_data; the terminating defaults return `Err(NotSupported)` and the notifying ones, state_changed included, return unit |
| `SyncFilter.DefaultsNeverSucceedAndIgnoreArguments` | src/filter/sync_filter.rs:33-111 | no default returns `Ok`, and a default's result depends only on the callback's kind, not on its request, ticket, info or paths |
| `SyncFilter.Respond` | src/filter/sync_filter.rs:12-125 | invoking a callback yields a result exactly for terminating kinds; fetch_data always runs the implementation's own body, and an overridden terminating callback runs the override |
| `SyncFilter.UnimplementedCallbacksDecline` | src/filter/sync_filter.rs:33-124 | a terminating callback the implementation does not override is declined with `NotSupported`, and a notifying one returns unit |

## Left out

- `Registration::register`, apart from its display-name and hardlink choices: building the `StorageProviderSyncRootInfo`, the folder lookup, the `DataWriter` and the final `StorageProviderSyncRootManager::Register` are calls into the OS.
- `From<CF_HYDRATION_POLICY_MODIFIER_USHORT> for HydrationPolicy` and `From<CF_INSYNC_POLICY> for SupportedAttributes`: these copy raw bit patterns. The flag sets here hold only the named flags, and the flags' numeric values are not part of this model.
- The numeric values of the WinRT enums and flags: each is modelled by its name only.
- `SyncRoot` apart from `provider_name`: its identifier (`to_id`) is only used in the OS call.
- `command::*::execute` and `CfReportProviderProgress`: their effect on the OS, the filling of the read buffer, and the mapping of error codes are foreign calls. Tickets are modelled by the calls they make.
- Ticket.ValidateData.ReadAt: does not state that the byte count returned equals the buffer length. That count comes from the OS inside `execute`. The OS makes that promise and this model does not state it.
- Ticket.FetchPlaceholders.PassWithPlaceholder: the total is a `nat`. The integer type that `placeholders.len() as _` casts to is declared in the command module, which is not part of this model.
- The error-code translation and the dispatcher that turns an `Err` into a denial sent to the OS: both live in modules outside this model. `CloudErrorKind` is modelled with `NotSupported`, the only variant the defaults return, and one opaque variant standing for the rest. The real enum lives in the `error` module, which is not part of this model.
- What overridden notifying callbacks do: they return unit, so their effects have no value to model.
- The `Send + Sync` bound, concurrent dispatch, single-use ticket resolution and cancellation races: the code does not enforce single use (ticket methods take `&self`), and concurrency is out of scope for a sequential model.
- `ToHString` and the UTF-16 string internals: strings are sequences of characters.
- Unpaired surrogates: a `U16Str` can hold them, but a Dafny string cannot, so wide strings that are not valid UTF-16 are not modelled.
