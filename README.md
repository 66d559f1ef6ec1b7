# ICPSR transfer: upload client, client cache and extension

A model of the part of the Data Transfer Project's ICPSR integration that moves
files into ICPSR's object storage and hands out importers. It has three pieces:

- **The upload client** (`ICPSRDataTransferClient`, module `TransferClient`).
  - `init` connects with a key id and secret, lists the buckets, and reuses or
    creates the export service's bucket `<exportService>-data-transfer-bucket`.
  - `uploadFile` sends a file in one of two ways. Up to the size threshold it uses
    one `putObject`. Above it, it uses a multipart upload: part 1, 2, ... of
    `partSize` bytes each, the last holding the remainder, then a completion call
    listing the part numbers.
  - The client's own source is not part of this model. Its behaviour comes from
    its unit test; where the test says nothing, the model makes its own
    assumptions, listed under "Left out".
  - The backend is a `Script`: the answers of the test's stubbed S3 calls. The
    client records every backend call in a ghost `calls` log and the monitor
    calls the tests check in a ghost `logs` log, so the tests' `verify(..., times(k))` counts
    become statements about `Times(calls, name)`.
  - `Init` and `UploadFile` are proved against the specification functions
    `RunInit` and `RunUpload`. The part loop `UploadParts` is proved against
    `UploadPartsFrom`. Lemmas about those functions give the tests' properties.
- **The client cache** (`ICPSRDataTransferClientFactory`, module `ClientFactory`).
  It maps a job id to an initialised client. A new client gets the 20 MiB / 5 MiB
  defaults and is stored only when `init` completes normally.
- **The extension** (`ICPSRTransferExtension`, module `TransferExtension`).
  - `Initialize` registers the photo and social-post importers once.
  - `GetImporter` checks that the extension is initialised and that the vertical
    is supported, then looks the vertical up. Notes, calendar and videos have no
    importer.
  - `GetExporter` always throws.

Files:

- `common.dfy`: errors, `Option`/`Result`, log levels.
- `parts.dfy`: the partition of a file into parts and its arithmetic.
- `transfer_client.dfy`: the client.
- `client_factory.dfy`: the cache.
- `transfer_extension.dfy`: the extension.

## Model

| member | source | states |
|---|---|---|
| TransferClient.NewConfig | extensions/data-transfer/portability-data-transfer-icpsr/src/test/java/org/datatransferproject/transfer/common/ICPSRDataTransferClientTest.java:98-103 | the constructor's check fails, with IllegalArgumentException, exactly when the part size is zero or less, whatever the threshold; otherwise both sizes are kept |
| TransferClient.DataTransferClient.Create | extensions/data-transfer/portability-data-transfer-icpsr/src/test/java/org/datatransferproject/transfer/common/ICPSRDataTransferClientTest.java:98-103 | building a client fails with IllegalArgumentException exactly when the part size is zero or less; otherwise a fresh, uninitialised client with no calls made |
| TransferClient.BucketName | extensions/data-transfer/portability-data-transfer-icpsr/src/test/java/org/datatransferproject/transfer/common/ICPSRDataTransferClientTest.java:72 | the bucket name is the export service followed by `-data-transfer-bucket` |
| TransferClient.BucketNameInjective | extensions/data-transfer/portability-data-transfer-icpsr/src/test/java/org/datatransferproject/transfer/common/ICPSRDataTransferClientTest.java:72 | different export services never share a bucket |
| TransferClient.ContainsBucket | extensions/data-transfer/portability-data-transfer-icpsr/src/test/java/org/datatransferproject/transfer/common/ICPSRDataTransferClientTest.java:85-88 | the scan of the listing finds the bucket exactly when its name is listed |
| TransferClient.DataTransferClient.Init | extensions/data-transfer/portability-data-transfer-icpsr/src/test/java/org/datatransferproject/transfer/common/ICPSRDataTransferClientTest.java:105-155 | outcome, backend calls, log entries, new state and bucket are those of `RunInit` on the old state; an initialised client keeps a data-transfer bucket name |
| TransferClient.InitReusesListedBucket | extensions/data-transfer/portability-data-transfer-icpsr/src/test/java/org/datatransferproject/transfer/common/ICPSRDataTransferClientTest.java:105-111 | a bucket already listed is reused: no createBucket, init succeeds, the client is initialised on that bucket |
| TransferClient.InitCreatesMissingBucket | extensions/data-transfer/portability-data-transfer-icpsr/src/test/java/org/datatransferproject/transfer/common/ICPSRDataTransferClientTest.java:113-120 | a bucket missing from the listing is created with exactly one createBucket; init succeeds exactly when that creation does |
| TransferClient.InitCreationFailureIsIOException | extensions/data-transfer/portability-data-transfer-icpsr/src/test/java/org/datatransferproject/transfer/common/ICPSRDataTransferClientTest.java:122-144 | a failed creation makes init throw IOException and keeps the state; a name already taken also logs at least one info message |
| TransferClient.InitForbiddenListingClosesClient | extensions/data-transfer/portability-data-transfer-icpsr/src/test/java/org/datatransferproject/transfer/common/ICPSRDataTransferClientTest.java:146-155 | a 403 on listing throws the credentials exception, closes the S3 client exactly once, creates no bucket, logs a debug message, leaves the client closed |
| TransferClient.InitStates | extensions/data-transfer/portability-data-transfer-icpsr/src/test/java/org/datatransferproject/transfer/common/ICPSRDataTransferClientTest.java:105-155 | after init: success means initialised on the export service's bucket; a credentials failure means closed; any other failure is an IOException that keeps state and bucket |
| TransferClient.DataTransferClient.UploadFile | extensions/data-transfer/portability-data-transfer-icpsr/src/test/java/org/datatransferproject/transfer/common/ICPSRDataTransferClientTest.java:157-227 | result and backend calls are those of `RunUpload`: no calls when not initialised, one putObject up to the threshold, otherwise start, parts in order, completion; every object written goes into the client's data-transfer bucket |
| TransferClient.DataTransferClient.UploadParts | extensions/data-transfer/portability-data-transfer-icpsr/src/test/java/org/datatransferproject/transfer/common/ICPSRDataTransferClientTest.java:196-208 | the part loop makes the calls of `UploadPartsFrom`, part by part, stopping after the first part that throws, and returns the part numbers to complete |
| TransferClient.UploadPartsFromFollowsPartition | extensions/data-transfer/portability-data-transfer-icpsr/src/test/java/org/datatransferproject/transfer/common/ICPSRDataTransferClientTest.java:196-208 | the part loop uploads exactly the parts of the partition in order, or those up to and including the failing one; it completes exactly when no part fails |
| TransferClient.UploadRequiresInit | extensions/data-transfer/portability-data-transfer-icpsr/src/test/java/org/datatransferproject/transfer/common/ICPSRDataTransferClientTest.java:157-163 | uploadFile on a client that is not initialised throws IllegalStateException and calls nothing |
| TransferClient.SmallFileIsSinglePut | extensions/data-transfer/portability-data-transfer-icpsr/src/test/java/org/datatransferproject/transfer/common/ICPSRDataTransferClientTest.java:165-188 | below the threshold: exactly one putObject, no multipart call, the result is the response's versionId or IOException |
| TransferClient.LargeFileIsMultipart | extensions/data-transfer/portability-data-transfer-icpsr/src/test/java/org/datatransferproject/transfer/common/ICPSRDataTransferClientTest.java:190-210 | above the threshold with no part failing: one start, fileSize/partSize + (fileSize%partSize == 0 ? 0 : 1) uploadPart calls, one completion listing the parts in order as the last call, no putObject, the completion's versionId |
| TransferClient.PartFailureAbortsUpload | extensions/data-transfer/portability-data-transfer-icpsr/src/test/java/org/datatransferproject/transfer/common/ICPSRDataTransferClientTest.java:212-227 | when part f throws: IOException after exactly f uploadPart calls, and no completion |
| TransferClient.UploadTargetsOwnBucket | extensions/data-transfer/portability-data-transfer-icpsr/src/test/java/org/datatransferproject/transfer/common/ICPSRDataTransferClientTest.java:165-227 | every putObject and multipart start an upload makes names the client's bucket and the given key |
| TransferClient.UploadNeverBlamesCredentials | extensions/data-transfer/portability-data-transfer-icpsr/src/test/java/org/datatransferproject/transfer/common/ICPSRDataTransferClientTest.java:178-227 | an upload fails with IllegalStateException exactly when the client is not initialised, and never with the credentials exception |
| Parts.ExpectedPartsIsCeiling | extensions/data-transfer/portability-data-transfer-icpsr/src/test/java/org/datatransferproject/transfer/common/ICPSRDataTransferClientTest.java:202 | the test's part count is the ceiling of fileSize/partSize: zero only for an empty file, otherwise (k-1)*p < n <= k*p |
| Parts.PartitionNumbering | extensions/data-transfer/portability-data-transfer-icpsr/src/test/java/org/datatransferproject/transfer/common/ICPSRDataTransferClientTest.java:200-208 | the partition has the test's expected number of parts, numbered 1, 2, ... in order |
| Parts.PartOffset | extensions/data-transfer/portability-data-transfer-icpsr/src/test/java/org/datatransferproject/transfer/common/ICPSRDataTransferClientTest.java:200-208 | part j starts at byte j*partSize |
| Parts.LastPartLength | extensions/data-transfer/portability-data-transfer-icpsr/src/test/java/org/datatransferproject/transfer/common/ICPSRDataTransferClientTest.java:200-208 | the last part holds fileSize%partSize bytes, or a full part when the size divides evenly |
| Parts.PartitionCoversFile | extensions/data-transfer/portability-data-transfer-icpsr/src/test/java/org/datatransferproject/transfer/common/ICPSRDataTransferClientTest.java:200-208 | the part lengths add up to the file size |
| Parts.PartsFromShape | extensions/data-transfer/portability-data-transfer-icpsr/src/test/java/org/datatransferproject/transfer/common/ICPSRDataTransferClientTest.java:200-208 | parts are numbered consecutively, each starts where the previous ends, all but the last are full, and the last ends at the file's end |
| ClientFactory.DefaultConfig | extensions/data-transfer/portability-data-transfer-icpsr/src/main/java/org/datatransferproject/transfer/icpsr/common/ICPSRDataTransferClientFactory.java:32-33 | the cache's sizes are 20*1024*1024 and 5*1024*1024 and pass the client constructor's check |
| ClientFactory.DataTransferClientFactory.constructor | extensions/data-transfer/portability-data-transfer-icpsr/src/main/java/org/datatransferproject/transfer/icpsr/common/ICPSRDataTransferClientFactory.java:35-38 | a new cache is empty |
| ClientFactory.DataTransferClientFactory.GetOrCreateB2Client | extensions/data-transfer/portability-data-transfer-icpsr/src/main/java/org/datatransferproject/transfer/icpsr/common/ICPSRDataTransferClientFactory.java:40-55 | a cached client is returned untouched; otherwise a fresh default client is initialised and stored under the job id only if init completed normally, and init's error propagates; a new client's state and bucket are those its init leaves; entries are never removed or replaced |
| ClientFactory.RequestTwice | extensions/data-transfer/portability-data-transfer-icpsr/src/main/java/org/datatransferproject/transfer/icpsr/common/ICPSRDataTransferClientFactory.java:40-55 | the same job asked twice returns the identical client once the first request succeeded, and init's backend calls happen only once |
| TransferExtension.IcpsrTransferExtension.constructor | extensions/data-transfer/portability-data-transfer-icpsr/src/main/java/org/datatransferproject/transfer/icpsr/ICPSRTransferExtension.java:53-54 | a new extension is not initialised and has no importers |
| TransferExtension.IcpsrTransferExtension.Initialize | extensions/data-transfer/portability-data-transfer-icpsr/src/main/java/org/datatransferproject/transfer/icpsr/ICPSRTransferExtension.java:56-77 | the first call registers exactly the photo and social-post importers; a later call only logs a severe message |
| TransferExtension.IcpsrTransferExtension.GetServiceId | extensions/data-transfer/portability-data-transfer-icpsr/src/main/java/org/datatransferproject/transfer/icpsr/ICPSRTransferExtension.java:79-82 | the service id is "ICPSR" |
| TransferExtension.IcpsrTransferExtension.GetImporter | extensions/data-transfer/portability-data-transfer-icpsr/src/main/java/org/datatransferproject/transfer/icpsr/ICPSRTransferExtension.java:84-92 | IllegalArgumentException exactly when not initialised or the vertical is not supported; otherwise the registered importer, or none |
| TransferExtension.IcpsrTransferExtension.GetExporter | extensions/data-transfer/portability-data-transfer-icpsr/src/main/java/org/datatransferproject/transfer/icpsr/ICPSRTransferExtension.java:94-97 | every call throws IllegalArgumentException |
| TransferExtension.ImportersAfterInitialize | extensions/data-transfer/portability-data-transfer-icpsr/src/main/java/org/datatransferproject/transfer/icpsr/ICPSRTransferExtension.java:50-92 | once initialised: photos and social posts get their importers; notes, calendar and videos get none; every other vertical is refused |
| TransferExtension.ImportersBeforeInitialize | extensions/data-transfer/portability-data-transfer-icpsr/src/main/java/org/datatransferproject/transfer/icpsr/ICPSRTransferExtension.java:86-87 | before initialisation every vertical is refused |

## Left out

- The upload client's source, `ICPSRDataTransferClient.java`, is not part of this model. Where its test says nothing, the model assumes:
  - a listing failure with a status other than 403 is an IOException that leaves the client as it was;
  - a failed init that is not a credentials failure leaves the lifecycle state and bucket unchanged;
  - the constructor rejects every part size of zero or less, not only zero;
  - files of at most the threshold go by putObject;
  - the part loop stops at the first part whose upload throws, so no later part is sent;
  - parts are consecutive slices of `partSize` bytes, part j starting at byte j*partSize, the last holding the remainder;
  - the completion call lists the part numbers 1..k in order;
  - uploads, single or multipart, write into the client's bucket under the given key.
- SmallFileIsSinglePut: assumed only for files strictly below the threshold. The tests do not pin the case of a file exactly at the threshold.
- The AWS SDK, the S3 client factory, the file bytes and request bodies are not modelled. A file is its size. An upload call carries its part's number, offset and length, not its bytes.
- Log messages are modelled by level only, and only the log calls the tests check (info on a name collision, debug on a 403), and the severe log of a second `initialize`.
- Which exception the SDK raises is folded into the `Script` datatype: `None` for a stub that throws, `ListingFails(status)` for the S3 exception.
- Java `long` arithmetic is unbounded here. Sizes, offsets and part counts cannot overflow in the model. The default sizes fit easily in a long.
- `JobMetadata.getExportService()` is a static, global lookup, and the `BaseICPSRS3ClientFactory` built inside the method is hard-wired, not injected. In `GetOrCreateB2Client` both are parameters: the export service and the backend script.
- The factory's `HashMap` is unsynchronised. Concurrent requests are not modelled.
- The importers are opaque values of a type parameter. Building them from the extension context is left out: the monitor, the `OkHttpClient`, the job store, the object mapper and the base URL.
- `DataVertical` is defined outside the files modelled here. Its constants are given as the project's enumeration of data kinds. Only membership in the supported list matters.
- `ICPSRVideosImporter` and `ICPSROAuthConfig` are not part of this model.
- No multipart upload is aborted or cleaned up after a failed part: the model assumes the client makes no such call.
- DataTransferClient.UploadFile: a file of exactly the threshold size is assumed to go by one putObject. No modelled file decides that case.
- DataTransferClient.UploadFile: an upload is assumed to log nothing, since `UploadFile` changes only the call record. The tests check no upload log.
- A client's `Script` is fixed when the client is built and answers every call the same way. So the model cannot show a retried `Init` succeeding after a failure on the same client. Successive uploads on one client also always meet the same failing part and the same version ids.
