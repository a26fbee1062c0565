/** The Azure blob adapter: its four settings, the flag that says whether they
    come from the configuration record, and the slot that holds the current
    container handle. Refreshing reloads the settings, checks them and
    reconnects; save, open, remove and exists go through the slot.

    The remote service is outside the model: what container creation answered
    is an input (`CreateOutcome`), whether a blob exists is an input function,
    and save, open and remove return the request they hand to the service. */
module AzureStorage {
  import opened Wrappers
  import opened JavaText
  import opened StorageProperties
  import opened FileKeys

  const DEFAULT_STORAGE_NAME: string := "azurefs"
  const CONNECTION_STRING_EMPTY: string := "connectionString must not be empty"
  const CONTAINER_NAME_EMPTY: string := "containerName must not be empty"

  /** A client for one remote container, identified by the connection string
      and container name it was obtained with. */
  datatype Handle = ContainerHandle(connectionString: string, containerName: string)

  /** What `createBlobContainer` did: made the container, refused because it
      already exists (`CONTAINER_ALREADY_EXISTS`), or failed with another code. */
  datatype CreateOutcome = Created | AlreadyExists | OtherError(errorCode: string)

  /** The four settings fields. A null string is modelled as "", which the
      emptiness checks treat the same way. */
  datatype Settings = Settings(connectionString: string, containerName: string,
                               blockSize: Int64, maxConcurrency: Int32)

  /** Everything of the adapter that can change after construction. */
  datatype AdapterState = AdapterState(useConfigurationProperties: bool, settings: Settings,
                                       slot: Option<Handle>)

  /** The exceptions the adapter throws: `IllegalArgumentException` from the
      precondition checks, `FileStorageException` of type `IO_EXCEPTION`. */
  datatype StorageError = InvalidArgument(message: string) | IoException(message: string)

  /** A parameter value handed to save: Java `null`, or an object with the text
      its `toString` gives. */
  datatype ParamValue = Null | Object(text: string)

  /** The reference save hands back: storage name, key, original file name and
      the parameters as text. */
  datatype FileRef = FileRef(storageName: string, path: string, fileName: string,
                             parameters: map<string, string>)

  /** The upload save issues: container, blob key and the two tuning values. */
  datatype UploadRequest = UploadRequest(container: Handle, blobName: string,
                                         blockSize: Int64, maxConcurrency: Int32)

  /** A download or delete issued against one blob of a container. */
  datatype BlobRequest = BlobRequest(container: Handle, blobName: string)

  function SettingsOf(p: Properties): Settings
  {
    Settings(p.GetConnectionString(), p.GetContainerName(), p.GetBlockSize(), p.GetMaxConcurrency())
  }

  /** The handle was obtained with a non-empty connection string and container name. */
  predicate HasNames(h: Handle)
  {
    h.connectionString != "" && h.containerName != ""
  }

  /** Every handle in the slot was made from a non-empty connection string and
      container name. */
  predicate SlotInvariant(st: AdapterState)
  {
    st.slot.Some? ==> HasNames(st.slot.value)
  }

  /** `refreshProperties`: with the flag set, all four settings are taken from
      the configuration record; otherwise nothing changes. */
  function ReloadSettings(st: AdapterState, props: Properties): AdapterState
  {
    if st.useConfigurationProperties then st.(settings := SettingsOf(props)) else st
  }

  /** `refreshBlobContainerClient`: reload, check both names are non-empty, then
      put a handle in the slot unless creation failed with a code other than
      "already exists", in which case the slot keeps what it held. */
  function Refresh(st: AdapterState, props: Properties, outcome: CreateOutcome)
    : (AdapterState, Outcome<StorageError>)
  {
    var reloaded := ReloadSettings(st, props);
    var s := reloaded.settings;
    if s.connectionString == "" then (reloaded, Fail(InvalidArgument(CONNECTION_STRING_EMPTY)))
    else if s.containerName == "" then (reloaded, Fail(InvalidArgument(CONTAINER_NAME_EMPTY)))
    else match outcome
      case Created => (reloaded.(slot := Some(ContainerHandle(s.connectionString, s.containerName))), Pass)
      case AlreadyExists => (reloaded.(slot := Some(ContainerHandle(s.connectionString, s.containerName))), Pass)
      case OtherError(_) => (reloaded, Pass)
  }

  function SaveFailure(fileName: string): StorageError { IoException("Could not save file " + fileName + ".") }
  function LoadFailure(fileName: string): StorageError { IoException("Could not load file " + fileName + ".") }
  function DeleteFailure(fileName: string): StorageError { IoException("Could not delete file " + fileName + ".") }

  /** Refresh reloads all four settings from the record exactly when the flag is
      set, keeps the adapter's own values otherwise, and never changes the flag. */
  lemma RefreshReloadsOnlyWithFlag(st: AdapterState, props: Properties, outcome: CreateOutcome)
    ensures var (st', _) := Refresh(st, props, outcome);
      && st'.useConfigurationProperties == st.useConfigurationProperties
      && st'.settings == (if st.useConfigurationProperties then SettingsOf(props) else st.settings)
  {
  }

  /** Refresh throws exactly when a name is empty after the reload; the
      connection string is checked first; the slot is then left as it was. */
  lemma RefreshRejectsEmptyNames(st: AdapterState, props: Properties, outcome: CreateOutcome)
    ensures var (st', r) := Refresh(st, props, outcome);
      var s := ReloadSettings(st, props).settings;
      && (r.Fail? <==> s.connectionString == "" || s.containerName == "")
      && (s.connectionString == "" ==> r == Fail(InvalidArgument(CONNECTION_STRING_EMPTY)))
      && (s.connectionString != "" && s.containerName == "" ==> r == Fail(InvalidArgument(CONTAINER_NAME_EMPTY)))
      && (r.Fail? ==> st'.slot == st.slot)
  {
  }

  /** After a refresh that returns, the slot holds a handle for the current
      settings when the container was created or already existed, and keeps its
      previous content, possibly empty, after any other creation error. */
  lemma RefreshUpdatesSlot(st: AdapterState, props: Properties, outcome: CreateOutcome)
    ensures var (st', r) := Refresh(st, props, outcome);
      r.Pass? ==>
        st'.slot == (if outcome.OtherError? then st.slot
                     else Some(ContainerHandle(st'.settings.connectionString, st'.settings.containerName)))
  {
  }

  /** Refresh keeps the slot invariant. */
  lemma RefreshKeepsSlotInvariant(st: AdapterState, props: Properties, outcome: CreateOutcome)
    requires SlotInvariant(st)
    ensures SlotInvariant(Refresh(st, props, outcome).0)
  {
  }

  /** A creation error other than "already exists" does not clear the slot: a
      refresh that switches to another container can return normally and leave
      the handle of the old container in place. */
  lemma OtherErrorKeepsStaleHandle()
    ensures var old_ := ContainerHandle("conn", "old");
      var st := AdapterState(false, Settings("conn", "new", 1048576, 2), Some(old_));
      var (st', r) := Refresh(st, Create("", ""), OtherError("AuthorizationFailure"));
      r == Pass && st'.slot == Some(old_) && st'.slot.value.containerName != st'.settings.containerName
  {
  }

  /** Two refreshes in a row against a container that already exists both
      return and leave the same handle in the slot. */
  lemma RefreshAgainstExistingContainerIsIdempotent(st: AdapterState, props: Properties)
    requires ReloadSettings(st, props).settings.connectionString != ""
    requires ReloadSettings(st, props).settings.containerName != ""
    ensures var (st1, r1) := Refresh(st, props, AlreadyExists);
      var (st2, r2) := Refresh(st1, props, AlreadyExists);
      r1 == Pass && r2 == Pass && st2 == st1 && st1.slot.Some?
  {
  }

  /** Java's `AzureFileStorage`. `storageName` and the injected configuration
      record never change; the settings, the flag and the slot do. */
  class AzureFileStorage {
    const storageName: string
    const properties: Properties
    var useConfigurationProperties: bool
    var connectionString: string
    var containerName: string
    var blockSize: Int64
    var maxConcurrency: Int32
    var clientReference: Option<Handle>

    function State(): AdapterState
      reads this
    {
      AdapterState(useConfigurationProperties,
                   Settings(connectionString, containerName, blockSize, maxConcurrency),
                   clientReference)
    }

    /** Class invariant: a handle in the slot was made from non-empty names, so
        every request save, open and remove issue names a real container. */
    ghost predicate Valid()
      reads this
    {
      SlotInvariant(State())
    }

    /** The no-argument constructor: storage name "azurefs", settings taken from
        the configuration record at refresh, no handle yet. */
    constructor Default(properties: Properties)
      ensures storageName == DEFAULT_STORAGE_NAME && this.properties == properties
      ensures State() == AdapterState(true, Settings("", "", 0, 0), None)
      ensures Valid()
    {
      storageName := DEFAULT_STORAGE_NAME;
      this.properties := properties;
      useConfigurationProperties := true;
      connectionString, containerName, blockSize, maxConcurrency := "", "", 0, 0;
      clientReference := None;
    }

    /** The one-argument constructor: like the default one under another name. */
    constructor Named(storageName: string, properties: Properties)
      ensures this.storageName == storageName && this.properties == properties
      ensures State() == AdapterState(true, Settings("", "", 0, 0), None)
      ensures Valid()
    {
      this.storageName := storageName;
      this.properties := properties;
      useConfigurationProperties := true;
      connectionString, containerName, blockSize, maxConcurrency := "", "", 0, 0;
      clientReference := None;
    }

    /** The five-argument constructor: its own settings, which refresh keeps. */
    constructor WithSettings(storageName: string, connectionString: string, containerName: string,
                             blockSize: Int64, maxConcurrency: Int32, properties: Properties)
      ensures this.storageName == storageName && this.properties == properties
      ensures State() == AdapterState(false, Settings(connectionString, containerName, blockSize, maxConcurrency), None)
      ensures Valid()
    {
      this.storageName := storageName;
      this.properties := properties;
      useConfigurationProperties := false;
      this.connectionString, this.containerName := connectionString, containerName;
      this.blockSize, this.maxConcurrency := blockSize, maxConcurrency;
      clientReference := None;
    }

    function GetStorageName(): string
      reads this
    {
      storageName
    }

    /** `refreshProperties`. */
    method RefreshProperties()
      modifies this
      ensures State() == ReloadSettings(old(State()), properties)
    {
      if useConfigurationProperties {
        connectionString := properties.GetConnectionString();
        containerName := properties.GetContainerName();
        blockSize := properties.GetBlockSize();
        maxConcurrency := properties.GetMaxConcurrency();
      }
    }

    /** `refreshBlobContainerClient`, with the answer of container creation as
        `outcome`. */
    method RefreshBlobContainerClient(outcome: CreateOutcome) returns (r: Outcome<StorageError>)
      requires Valid()
      modifies this
      ensures Valid()
      ensures (State(), r) == Refresh(old(State()), properties, outcome)
    {
      RefreshProperties();
      if connectionString == "" {
        return Fail(InvalidArgument(CONNECTION_STRING_EMPTY));
      }
      if containerName == "" {
        return Fail(InvalidArgument(CONTAINER_NAME_EMPTY));
      }
      match outcome {
        case Created =>
          clientReference := Some(ContainerHandle(connectionString, containerName));
        case AlreadyExists =>
          clientReference := Some(ContainerHandle(connectionString, containerName));
        case OtherError(_) =>
      }
      r := Pass;
    }

    /** `saveStream`. The key is derived before anything else; with an empty
        slot nothing is uploaded and the save fails. Otherwise the upload uses
        the current tuning values, and a `null` parameter value then fails the
        save after the upload, when its text is taken. */
    method SaveStream(fileName: string, parameters: map<string, ParamValue>,
                      date: CalendarDate, uuid: string, extension: string)
      returns (r: Result<FileRef, StorageError>, upload: Option<UploadRequest>)
      ensures clientReference.None? ==> r == Failure(SaveFailure(fileName)) && upload == None
      ensures clientReference.Some? ==>
        upload == Some(UploadRequest(clientReference.value, CreateFileKey(date, uuid, extension),
                                     blockSize, maxConcurrency))
      ensures r.Success? <==> clientReference.Some? && forall k :: k in parameters ==> parameters[k].Object?
      ensures r.Failure? ==> r.error == SaveFailure(fileName)
      ensures Valid() && upload.Some? ==> HasNames(upload.value.container)
      ensures r.Success? ==>
        && r.value.storageName == GetStorageName()
        && r.value.path == CreateFileKey(date, uuid, extension)
        && r.value.fileName == fileName
        && r.value.parameters.Keys == parameters.Keys
        && forall k :: k in r.value.parameters ==> r.value.parameters[k] == parameters[k].text
    {
      var fileKey := CreateFileKey(date, uuid, extension);
      if clientReference.None? {
        return Failure(SaveFailure(fileName)), None;
      }
      upload := Some(UploadRequest(clientReference.value, fileKey, blockSize, maxConcurrency));
      if exists k :: k in parameters && parameters[k].Null? {
        return Failure(SaveFailure(fileName)), upload;
      }
      var texts := map k | k in parameters :: parameters[k].text;
      r := Success(FileRef(GetStorageName(), fileKey, fileName, texts));
    }

    /** `openStream`: the download of the referenced blob, or the load failure
        when the slot is empty. */
    method OpenStream(reference: FileRef) returns (r: Result<BlobRequest, StorageError>)
      ensures clientReference.None? ==> r == Failure(LoadFailure(reference.fileName))
      ensures clientReference.Some? ==> r == Success(BlobRequest(clientReference.value, reference.path))
      ensures Valid() && r.Success? ==> HasNames(r.value.container)
    {
      if clientReference.None? {
        return Failure(LoadFailure(reference.fileName));
      }
      r := Success(BlobRequest(clientReference.value, reference.path));
    }

    /** `removeFile`: the delete of the referenced blob, or the delete failure
        when the slot is empty. */
    method RemoveFile(reference: FileRef) returns (r: Result<BlobRequest, StorageError>)
      ensures clientReference.None? ==> r == Failure(DeleteFailure(reference.fileName))
      ensures clientReference.Some? ==> r == Success(BlobRequest(clientReference.value, reference.path))
      ensures Valid() && r.Success? ==> HasNames(r.value.container)
    {
      if clientReference.None? {
        return Failure(DeleteFailure(reference.fileName));
      }
      r := Success(BlobRequest(clientReference.value, reference.path));
    }

    /** `fileExists`: false with an empty slot, and never an exception;
        otherwise what the service says about the blob. */
    method FileExists(reference: FileRef, blobExists: (Handle, string) -> bool) returns (r: bool)
      ensures clientReference.None? ==> !r
      ensures clientReference.Some? ==> r == blobExists(clientReference.value, reference.path)
    {
      r := clientReference.Some? && blobExists(clientReference.value, reference.path);
    }

    method SetConnectionString(connectionString: string)
      modifies this
      ensures State() == old(State()).(settings := old(State()).settings.(connectionString := connectionString))
    {
      this.connectionString := connectionString;
    }

    method SetContainerName(containerName: string)
      modifies this
      ensures State() == old(State()).(settings := old(State()).settings.(containerName := containerName))
    {
      this.containerName := containerName;
    }

    method SetBlockSize(blockSize: Int64)
      modifies this
      ensures State() == old(State()).(settings := old(State()).settings.(blockSize := blockSize))
    {
      this.blockSize := blockSize;
    }

    method SetMaxConcurrency(maxConcurrency: Int32)
      modifies this
      ensures State() == old(State()).(settings := old(State()).settings.(maxConcurrency := maxConcurrency))
    {
      this.maxConcurrency := maxConcurrency;
    }
  }
}
