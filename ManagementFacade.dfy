/** The management facade: an operator entry point that finds a storage through
    the locator (by name, or the default one) and, when it is the Azure adapter,
    applies new settings and refreshes it. Any other storage is left alone. */
module ManagementFacade {
  import opened Wrappers
  import opened JavaText
  import opened StorageProperties
  import opened AzureStorage

  const REFRESHED: string := "Refreshed successfully"
  const IGNORED: string := "Not an Azure file storage - refresh attempt ignored"

  /** What the locator holds under a name: the Azure adapter or another kind of storage. */
  datatype StorageEntry = Azure(storage: AzureFileStorage) | OtherStorage(storageName: string)

  /** The file storage locator: storages by name and the default one. */
  datatype Locator = Locator(byName: map<string, StorageEntry>, defaultStorage: Option<StorageEntry>)
  {
    function GetByName(name: string): Result<StorageEntry, FacadeError>
    {
      if name in byName then Success(byName[name]) else Failure(UnknownStorage(name))
    }

    function GetDefault(): Result<StorageEntry, FacadeError>
    {
      if defaultStorage.Some? then Success(defaultStorage.value) else Failure(NoDefaultStorage)
    }
  }

  /** What escapes a facade call: a locator failure, or the adapter's exception. */
  datatype FacadeError = UnknownStorage(name: string) | NoDefaultStorage | Adapter(error: StorageError)

  /** The setters an overload applies before refreshing. `Tuned` takes the
      block size as an `int`, widened to `long` by the setter call. */
  datatype Overload =
    | Plain
    | Names(connectionString: string, containerName: string)
    | Tuned(connectionString: string, containerName: string, blockSize: Int32, maxConcurrency: Int32)

  function ApplySetters(st: AdapterState, overload: Overload): AdapterState
  {
    match overload
    case Plain => st
    case Names(cs, cn) => st.(settings := st.settings.(connectionString := cs, containerName := cn))
    case Tuned(cs, cn, bs, mc) =>
      st.(settings := Settings(cs, cn, bs, mc))
  }

  /** The effect of an overload on an Azure adapter: setters, then refresh; the
      success string exactly when refresh returns, its exception otherwise. */
  function RefreshThrough(st: AdapterState, props: Properties, overload: Overload, outcome: CreateOutcome)
    : (AdapterState, Result<string, FacadeError>)
  {
    var (st', r) := Refresh(ApplySetters(st, overload), props, outcome);
    (st', if r.Pass? then Success(REFRESHED) else Failure(Adapter(r.error)))
  }

  /** The adapters a call may change: the located one, if it is an Azure adapter. */
  function Target(found: Result<StorageEntry, FacadeError>): set<AzureFileStorage>
  {
    if found.Success? && found.value.Azure? then {found.value.storage} else {}
  }

  /** When the adapter takes its settings from the configuration record, the
      values the facade sets are overwritten by the reload before they are used. */
  lemma ReloadOverridesFacadeValues(st: AdapterState, props: Properties, overload: Overload, outcome: CreateOutcome)
    requires st.useConfigurationProperties
    ensures RefreshThrough(st, props, overload, outcome).0.settings == SettingsOf(props)
  {
  }

  /** The success string is returned exactly when refresh returns; otherwise
      its exception propagates and the setters stay applied, unless a reload
      replaced them. */
  lemma SuccessOnlyWhenRefreshReturns(st: AdapterState, props: Properties, overload: Overload, outcome: CreateOutcome)
    ensures var (st', r) := RefreshThrough(st, props, overload, outcome);
      && (r == Success(REFRESHED) <==> Refresh(ApplySetters(st, overload), props, outcome).1 == Pass)
      && (r.Failure? ==> r.error.Adapter? && r.error.error.InvalidArgument?)
      && (r.Failure? && !st.useConfigurationProperties ==> st'.settings == ApplySetters(st, overload).settings)
  {
  }

  /** Empty names passed through the facade to an adapter with its own settings
      make the call throw, after the setters ran and with the slot untouched. */
  lemma EmptyNameThrowsAfterSetters(st: AdapterState, props: Properties, cs: string, cn: string, outcome: CreateOutcome)
    requires !st.useConfigurationProperties && (cs == "" || cn == "")
    ensures var (st', r) := RefreshThrough(st, props, Names(cs, cn), outcome);
      && r.Failure?
      && st'.settings.connectionString == cs && st'.settings.containerName == cn
      && st'.slot == st.slot
  {
  }

  /** The success string is returned even when container creation failed with a
      code other than "already exists"; the slot then keeps its old content. */
  lemma SuccessDespiteCreationFailure(st: AdapterState, props: Properties, overload: Overload, code: string)
    requires ReloadSettings(ApplySetters(st, overload), props).settings.connectionString != ""
    requires ReloadSettings(ApplySetters(st, overload), props).settings.containerName != ""
    ensures var (st', r) := RefreshThrough(st, props, overload, OtherError(code));
      r == Success(REFRESHED) && st'.slot == st.slot
  {
  }

  /** The name-only overload replaces the two names and keeps the tuning values. */
  lemma NamesOverloadKeepsTuning(st: AdapterState, props: Properties, cs: string, cn: string, outcome: CreateOutcome)
    requires !st.useConfigurationProperties
    ensures RefreshThrough(st, props, Names(cs, cn), outcome).0.settings ==
      Settings(cs, cn, st.settings.blockSize, st.settings.maxConcurrency)
  {
  }

  /** The tuned overload replaces all four settings, the block size widened
      from `int` and so within the `int` range. */
  lemma TunedOverloadReplacesAll(st: AdapterState, props: Properties, cs: string, cn: string,
                                 bs: Int32, mc: Int32, outcome: CreateOutcome)
    requires !st.useConfigurationProperties
    ensures var s := RefreshThrough(st, props, Tuned(cs, cn, bs, mc), outcome).0.settings;
      s == Settings(cs, cn, bs, mc) && INT_MIN <= s.blockSize <= INT_MAX
  {
  }

  /** Java's `AzureFileStorageManagementFacade`; the three `refreshAzureClient`
      overloads, with the answer of container creation as `outcome`. */
  class AzureFileStorageManagementFacade {
    const fileStorageLocator: Locator

    constructor(fileStorageLocator: Locator)
      ensures this.fileStorageLocator == fileStorageLocator
    {
      this.fileStorageLocator := fileStorageLocator;
    }

    /** The adapters in `found`, if any, satisfy their invariant. */
    ghost predicate TargetValid(found: Result<StorageEntry, FacadeError>)
      reads Target(found)
    {
      found.Success? && found.value.Azure? ==> found.value.storage.Valid()
    }

    /** Shared body of the overloads: dispatch on what the locator returned. */
    method Dispatch(found: Result<StorageEntry, FacadeError>, overload: Overload, outcome: CreateOutcome)
      returns (r: Result<string, FacadeError>)
      requires TargetValid(found)
      modifies Target(found)
      ensures TargetValid(found)
      ensures found.Failure? ==> r == Failure(found.error)
      ensures found.Success? && found.value.OtherStorage? ==> r == Success(IGNORED)
      ensures found.Success? && found.value.Azure? ==>
        var s := found.value.storage;
        (s.State(), r) == RefreshThrough(old(s.State()), s.properties, overload, outcome)
    {
      if found.Failure? {
        return Failure(found.error);
      }
      match found.value {
        case OtherStorage(_) =>
          r := Success(IGNORED);
        case Azure(s) =>
          match overload {
            case Plain =>
            case Names(cs, cn) =>
              s.SetConnectionString(cs);
              s.SetContainerName(cn);
            case Tuned(cs, cn, bs, mc) =>
              s.SetConnectionString(cs);
              s.SetContainerName(cn);
              s.SetBlockSize(bs);
              s.SetMaxConcurrency(mc);
          }
          assert s.State() == ApplySetters(old(s.State()), overload);
          var refreshed := s.RefreshBlobContainerClient(outcome);
          r := if refreshed.Pass? then Success(REFRESHED) else Failure(Adapter(refreshed.error));
      }
    }

    /** `refreshAzureClient()`: refresh the default storage with its current settings. */
    method RefreshAzureClient(outcome: CreateOutcome) returns (r: Result<string, FacadeError>)
      requires TargetValid(fileStorageLocator.GetDefault())
      modifies Target(fileStorageLocator.GetDefault())
      ensures TargetValid(fileStorageLocator.GetDefault())
      ensures var found := fileStorageLocator.GetDefault();
        && (found.Failure? ==> r == Failure(found.error))
        && (found.Success? && found.value.OtherStorage? ==> r == Success(IGNORED))
        && (found.Success? && found.value.Azure? ==>
              var s := found.value.storage;
              (s.State(), r) == RefreshThrough(old(s.State()), s.properties, Plain, outcome))
    {
      r := Dispatch(fileStorageLocator.GetDefault(), Plain, outcome);
    }

    /** `refreshAzureClient(storageName, connectionString, containerName)`. */
    method RefreshAzureClientNamed(storageName: string, connectionString: string, containerName: string,
                                   outcome: CreateOutcome)
      returns (r: Result<string, FacadeError>)
      requires TargetValid(fileStorageLocator.GetByName(storageName))
      modifies Target(fileStorageLocator.GetByName(storageName))
      ensures TargetValid(fileStorageLocator.GetByName(storageName))
      ensures var found := fileStorageLocator.GetByName(storageName);
        && (found.Failure? ==> r == Failure(found.error))
        && (found.Success? && found.value.OtherStorage? ==> r == Success(IGNORED))
        && (found.Success? && found.value.Azure? ==>
              var s := found.value.storage;
              (s.State(), r) == RefreshThrough(old(s.State()), s.properties,
                                               Names(connectionString, containerName), outcome))
    {
      r := Dispatch(fileStorageLocator.GetByName(storageName), Names(connectionString, containerName), outcome);
    }

    /** `refreshAzureClient(storageName, connectionString, containerName, blockSize, maxConcurrency)`. */
    method RefreshAzureClientTuned(storageName: string, connectionString: string, containerName: string,
                                   blockSize: Int32, maxConcurrency: Int32, outcome: CreateOutcome)
      returns (r: Result<string, FacadeError>)
      requires TargetValid(fileStorageLocator.GetByName(storageName))
      modifies Target(fileStorageLocator.GetByName(storageName))
      ensures TargetValid(fileStorageLocator.GetByName(storageName))
      ensures var found := fileStorageLocator.GetByName(storageName);
        && (found.Failure? ==> r == Failure(found.error))
        && (found.Success? && found.value.OtherStorage? ==> r == Success(IGNORED))
        && (found.Success? && found.value.Azure? ==>
              var s := found.value.storage;
              (s.State(), r) == RefreshThrough(old(s.State()), s.properties,
                                               Tuned(connectionString, containerName, blockSize, maxConcurrency),
                                               outcome))
    {
      r := Dispatch(fileStorageLocator.GetByName(storageName),
                    Tuned(connectionString, containerName, blockSize, maxConcurrency), outcome);
    }
  }
}
