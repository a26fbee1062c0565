# Azure blob file storage for Jmix — a Dafny model

The repository plugs Azure Blob Storage into the Jmix file-storage abstraction.
This project models the logic of that adapter on its own terms:

- **Storage keys** (`FileKeys`). A saved file's key is a `year/MM/DD` directory, a `/`, and a
  fresh UUID followed by `.` and the original extension when there is one. The date fields, the
  UUID text and the extension are inputs. The lemmas read a key back: split at `/` it gives the
  year, the two-digit month (calendar month + 1) and day, and the file name, and
  `getExtension` of the key is the original extension.
- **The settings record** (`StorageProperties`). An immutable value with defaults of 1 MiB for
  the block size and 2 for the concurrency. Its getters return the constructor's arguments, the
  block size widened from `int` to `long`.
- **The adapter** (`AzureStorage.AzureFileStorage`). It has four settings, a
  `useConfigurationProperties` flag and a container-handle slot. Refresh reloads the settings
  (only with the flag set), checks that both names are non-empty, and then updates the slot
  from the answer of container creation: created, already exists, or another error. On another
  error the slot keeps its old handle. Save, open and remove fail with
  `Could not save/load/delete file <name>.` when the slot is empty, and exists then returns
  false. The pure functions `ReloadSettings` and `Refresh` specify the class's methods, and the
  lemmas about them state the consequences.
- **The management facade** (`ManagementFacade`). It looks a storage up by name, or takes the
  default one. For the Azure adapter it applies the overload's setters, refreshes, and returns
  `Refreshed successfully`. For any other storage it returns
  `Not an Azure file storage - refresh attempt ignored` and changes nothing: its `modifies`
  set is then empty. `RefreshThrough` specifies the dispatch. Its lemmas show three things.
  Facade-set values are overwritten by the reload when the adapter uses the configuration
  record. Success is reported even when container creation failed. An empty name makes the
  exception escape after the setters ran.

Two behaviours of the code differ from what its callers might expect:

- The facade does not turn adapter failures into status strings. The exception thrown by
  refresh's emptiness check escapes the facade (`Failure(Adapter(InvalidArgument(..)))`).
- A container-creation error other than "already exists" never clears the slot. A previous
  handle stays in place, possibly one made for other settings, and an empty slot stays empty.

Files: `Wrappers.dfy`, `JavaText.dfy`, `StorageProperties.dfy`, `FileKeys.dfy`,
`AzureStorage.dfy`, `ManagementFacade.dfy`.

## Model

| member | source | states |
|---|---|---|
| `JavaText.NatToDecimal` | azurefs/src/main/java/gr/netmechanics/jmix/azurefs/AzureFileStorage.java:163-165 | decimal text is non-empty digits, leading '0' only for 0, one digit exactly below 10, two exactly for 10..99 |
| `JavaText.IntToDecimal` | azurefs/src/main/java/gr/netmechanics/jmix/azurefs/AzureFileStorage.java:163-165 | `%d` / `String.valueOf`: digits reading back as the number, with a leading '-' exactly for negatives |
| `JavaText.DecimalRoundTrip` | azurefs/src/main/java/gr/netmechanics/jmix/azurefs/AzureFileStorage.java:163-165 | reading back the rendered number gives the number |
| `JavaText.LeftPad` | azurefs/src/main/java/gr/netmechanics/jmix/azurefs/AzureFileStorage.java:164-165 | result has length max(size, len), ends with the input, and is pad characters before it |
| `JavaText.LeftPadValue` | azurefs/src/main/java/gr/netmechanics/jmix/azurefs/AzureFileStorage.java:164-165 | '0'-padding a digit string keeps it digits and keeps its value |
| `StorageProperties.Create` | azurefs/src/main/java/gr/netmechanics/jmix/azurefs/AzureFileStorageProperties.java:35-73 | each getter returns its constructor argument; the block size is widened and stays in `int` range |
| `StorageProperties.UnsetTuningUsesDefaults` | azurefs/src/main/java/gr/netmechanics/jmix/azurefs/AzureFileStorageProperties.java:37-38 | unset block size is 1048576 and unset concurrency is 2 |
| `FileKeys.FileKeyParts` | azurefs/src/main/java/gr/netmechanics/jmix/azurefs/AzureFileStorage.java:152-154 | a key split at '/' is exactly year, month, day, generated file name |
| `FileKeys.DateDirReadsBack` | azurefs/src/main/java/gr/netmechanics/jmix/azurefs/AzureFileStorage.java:156-166 | for a calendar date: unpadded year, month = calendar month + 1 and day, each exactly two digits, reading back to the date |
| `FileKeys.UuidFilenameKeepsExtension` | azurefs/src/main/java/gr/netmechanics/jmix/azurefs/AzureFileStorage.java:168-175 | the name starts with the UUID, holds a '.' iff the extension is non-empty, and `getExtension` of it is the extension |
| `FileKeys.ExtensionIsPlain` | azurefs/src/main/java/gr/netmechanics/jmix/azurefs/AzureFileStorage.java:169 | an extension holds no '.', '/' or '\' |
| `FileKeys.FileKeyKeepsExtension` | azurefs/src/main/java/gr/netmechanics/jmix/azurefs/AzureFileStorage.java:152-175 | the key has the original file name's extension, and none when the name had none |
| `FileKeys.MarchSeventhKey` | azurefs/src/main/java/gr/netmechanics/jmix/azurefs/AzureFileStorage.java:152-175 | a ".pdf" file saved on 2024-03-07 gets key `2024/03/07/<uuid>.pdf` |
| `AzureStorage.RefreshReloadsOnlyWithFlag` | azurefs/src/main/java/gr/netmechanics/jmix/azurefs/AzureFileStorage.java:91-101 | refresh takes all four settings from the record iff the flag is set, keeps its own otherwise, never changes the flag |
| `AzureStorage.RefreshRejectsEmptyNames` | azurefs/src/main/java/gr/netmechanics/jmix/azurefs/AzureFileStorage.java:100-103 | refresh throws iff a name is empty after the reload, connection string checked first, slot unchanged |
| `AzureStorage.RefreshUpdatesSlot` | azurefs/src/main/java/gr/netmechanics/jmix/azurefs/AzureFileStorage.java:109-120 | created or already exists: slot holds a handle for the current settings; other error: slot keeps its old content |
| `AzureStorage.RefreshKeepsSlotInvariant` | azurefs/src/main/java/gr/netmechanics/jmix/azurefs/AzureFileStorage.java:100-121 | every handle in the slot was made from non-empty names |
| `AzureStorage.OtherErrorKeepsStaleHandle` | azurefs/src/main/java/gr/netmechanics/jmix/azurefs/AzureFileStorage.java:112-116 | a refresh to another container that hits another error returns normally with the old container's handle still in the slot |
| `AzureStorage.RefreshAgainstExistingContainerIsIdempotent` | azurefs/src/main/java/gr/netmechanics/jmix/azurefs/AzureFileStorage.java:109-120 | two refreshes against an existing container both return and give the same handle |
| `AzureStorage.AzureFileStorage.Default` | azurefs/src/main/java/gr/netmechanics/jmix/azurefs/AzureFileStorage.java:48-67 | storage name "azurefs", flag set, no handle |
| `AzureStorage.AzureFileStorage.Named` | azurefs/src/main/java/gr/netmechanics/jmix/azurefs/AzureFileStorage.java:69-71 | the given storage name, flag set, no handle |
| `AzureStorage.AzureFileStorage.WithSettings` | azurefs/src/main/java/gr/netmechanics/jmix/azurefs/AzureFileStorage.java:76-84 | the given name and four settings, flag cleared, no handle |
| `AzureStorage.AzureFileStorage.RefreshProperties` | azurefs/src/main/java/gr/netmechanics/jmix/azurefs/AzureFileStorage.java:91-98 | new state is `ReloadSettings` of the old one |
| `AzureStorage.AzureFileStorage.RefreshBlobContainerClient` | azurefs/src/main/java/gr/netmechanics/jmix/azurefs/AzureFileStorage.java:100-121 | new state and outcome are `Refresh` of the old state; the slot invariant is kept |
| `AzureStorage.AzureFileStorage.SaveStream` | azurefs/src/main/java/gr/netmechanics/jmix/azurefs/AzureFileStorage.java:128-150 | empty slot: save error and no upload. Otherwise it uploads to the derived key with the current tuning values and returns (storage name, key, file name, parameter texts with the same keys). A null parameter value gives the save error after the upload. The upload always targets a container with non-empty names |
| `AzureStorage.AzureFileStorage.OpenStream` | azurefs/src/main/java/gr/netmechanics/jmix/azurefs/AzureFileStorage.java:177-191 | load error with an empty slot, else a download of the reference's path from a container with non-empty names |
| `AzureStorage.AzureFileStorage.RemoveFile` | azurefs/src/main/java/gr/netmechanics/jmix/azurefs/AzureFileStorage.java:193-204 | delete error with an empty slot, else a delete of the reference's path in a container with non-empty names |
| `AzureStorage.AzureFileStorage.FileExists` | azurefs/src/main/java/gr/netmechanics/jmix/azurefs/AzureFileStorage.java:206-210 | false with an empty slot, never an error; else what the service answers |
| `AzureStorage.AzureFileStorage.SetConnectionString` | azurefs/src/main/java/gr/netmechanics/jmix/azurefs/AzureFileStorage.java:212-214 | only the connection string changes |
| `AzureStorage.AzureFileStorage.SetContainerName` | azurefs/src/main/java/gr/netmechanics/jmix/azurefs/AzureFileStorage.java:216-218 | only the container name changes |
| `AzureStorage.AzureFileStorage.SetBlockSize` | azurefs/src/main/java/gr/netmechanics/jmix/azurefs/AzureFileStorage.java:220-222 | only the block size changes |
| `AzureStorage.AzureFileStorage.SetMaxConcurrency` | azurefs/src/main/java/gr/netmechanics/jmix/azurefs/AzureFileStorage.java:224-226 | only the concurrency changes |
| `ManagementFacade.ReloadOverridesFacadeValues` | azurefs/src/main/java/gr/netmechanics/jmix/azurefs/AzureFileStorageManagementFacade.java:40-42 | with the flag set, the settings after the call are the record's, whatever the facade set |
| `ManagementFacade.SuccessOnlyWhenRefreshReturns` | azurefs/src/main/java/gr/netmechanics/jmix/azurefs/AzureFileStorageManagementFacade.java:40-43 | success string iff refresh returns; otherwise refresh's exception escapes with the setters applied |
| `ManagementFacade.EmptyNameThrowsAfterSetters` | azurefs/src/main/java/gr/netmechanics/jmix/azurefs/AzureFileStorageManagementFacade.java:40-43 | an empty name throws, after the setters ran, with the slot untouched |
| `ManagementFacade.SuccessDespiteCreationFailure` | azurefs/src/main/java/gr/netmechanics/jmix/azurefs/AzureFileStorageManagementFacade.java:64-65 | with non-empty names and another creation error, the result is the success string and the slot is unchanged |
| `ManagementFacade.NamesOverloadKeepsTuning` | azurefs/src/main/java/gr/netmechanics/jmix/azurefs/AzureFileStorageManagementFacade.java:37-43 | the three-argument overload replaces both names and keeps block size and concurrency |
| `ManagementFacade.TunedOverloadReplacesAll` | azurefs/src/main/java/gr/netmechanics/jmix/azurefs/AzureFileStorageManagementFacade.java:56-65 | the five-argument overload replaces all four settings, block size widened from `int` |
| `ManagementFacade.AzureFileStorageManagementFacade.constructor` | azurefs/src/main/java/gr/netmechanics/jmix/azurefs/AzureFileStorageManagementFacade.java:19-20 | the facade keeps the injected locator |
| `ManagementFacade.AzureFileStorageManagementFacade.Dispatch` | azurefs/src/main/java/gr/netmechanics/jmix/azurefs/AzureFileStorageManagementFacade.java:58-67 | a lookup failure escapes; another storage gives the ignored string with nothing modified; an Azure adapter ends in `RefreshThrough` of its old state |
| `ManagementFacade.AzureFileStorageManagementFacade.RefreshAzureClient` | azurefs/src/main/java/gr/netmechanics/jmix/azurefs/AzureFileStorageManagementFacade.java:22-30 | the default storage is refreshed with no setters, or the ignored string when it is not the Azure adapter |
| `ManagementFacade.AzureFileStorageManagementFacade.RefreshAzureClientNamed` | azurefs/src/main/java/gr/netmechanics/jmix/azurefs/AzureFileStorageManagementFacade.java:37-46 | the named storage gets both names set and is refreshed, or the ignored string and nothing modified |
| `ManagementFacade.AzureFileStorageManagementFacade.RefreshAzureClientTuned` | azurefs/src/main/java/gr/netmechanics/jmix/azurefs/AzureFileStorageManagementFacade.java:56-68 | the named storage gets all four settings and is refreshed, or the ignored string and nothing modified |

## Left out

- The Azure SDK (client builder, container creation, upload, download, delete, exists). Container creation is the input `CreateOutcome`. The blob-existence answer is an input function. Save, open and remove return the request they would issue instead of moving bytes, so no save→open or remove→exists round trip is stated.
- Exceptions other than the empty-slot `NullPointerException` translation and the emptiness checks. This includes the client builder rejecting a malformed connection string and creation failing with anything but a `BlobStorageException`; those propagate untranslated in the code.
- `AzureStorage.AzureFileStorage.SaveStream`: the content type from `FileTypesHelper.getMIMEType`, the 30-minute timeout, the `Context` and the stream wrapping are not modelled. `toString` of a parameter value is taken as given text.
- `AzureStorage.AzureFileStorage.OpenStream` and `RemoveFile`: a reference whose file name or path is null is not modelled, because references are values here.
- The clock, `UuidProvider` and `FilenameUtils.getExtension` are foreign helpers. The date fields, UUID text and extension are inputs to the key functions. `FileKeys.Extension` models `getExtension` (without its Windows-only ':' check) and is used only to state what the keys mean.
- `JavaText.IntToDecimal`: `%d` renders with the default locale's digits; the model uses ASCII digits.
- Java `null` strings in the settings are modelled as "", because the only thing the code does with them is the emptiness check, which treats both alike.
- The handle slot's atomicity and refresh racing in-flight transfers (concurrency): the slot is a plain `Option`.
- The locator's own failures (unknown name, no default storage) are modelled as `FacadeError` values; the locator's message text is not in this repository.
- Spring and JMX wiring: the startup event listener, `@ManagedResource`, configuration-property binding (the defaults are stated as constants and default arguments of `StorageProperties.Create`), and the two configuration classes, which contain only annotations.
- Logging of the creation warning.
