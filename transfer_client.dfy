/** The upload client: it provisions the job's bucket in `Init` and sends a file
    either with one putObject or with a multipart upload in `UploadFile`.

    The object-storage backend is a `Script`: the answers its stubbed calls give.
    Every call the client makes on it is appended to the client's ghost `calls`,
    and every monitor call to its ghost `logs`, so that the number of calls of each
    kind can be stated exactly. */
module TransferClient {
  import opened Common
  import opened Parts

  /** Construction parameters: files larger than `sizeThreshold` bytes go by multipart upload. */
  datatype UploadConfig = UploadConfig(sizeThreshold: int, partSize: PositiveInt)

  /** The constructor's argument check: a part size of zero or less is rejected. */
  function NewConfig(sizeThreshold: int, partSize: int): (r: Result<UploadConfig>)
    ensures r.Failure? <==> partSize <= 0
    ensures r.Failure? ==> r.error == IllegalArgumentException
    ensures r.Success? ==> r.value.sizeThreshold == sizeThreshold && r.value.partSize == partSize
  {
    if partSize <= 0 then Failure(IllegalArgumentException)
    else Success(UploadConfig(sizeThreshold, partSize))
  }

  const BucketSuffix: string := "-data-transfer-bucket"

  /** The bucket a client uses for an export service. */
  function BucketName(exportService: string): (name: string)
    ensures |name| == |exportService| + |BucketSuffix|
    ensures name[..|exportService|] == exportService
    ensures name[|exportService|..] == BucketSuffix
  {
    exportService + BucketSuffix
  }

  /** Whether `name` is the name of a data-transfer bucket. */
  predicate IsTransferBucket(name: string)
  {
    |name| >= |BucketSuffix| && name[|name| - |BucketSuffix|..] == BucketSuffix
  }

  /** Different export services get different buckets. */
  lemma BucketNameInjective(a: string, b: string)
    requires BucketName(a) == BucketName(b)
    ensures a == b
  {
    assert a == BucketName(a)[..|a|];
  }

  /** What the backend's listBuckets stub does: answer with bucket names, or
      throw an S3 exception carrying an HTTP status code. */
  datatype Listing = Buckets(names: seq<string>) | ListingFails(statusCode: int)

  /** What the backend's createBucket stub does. */
  datatype Creation =
    | Created
    | AlreadyExists     // BucketAlreadyExistsException: someone else owns the name
    | CreationFails     // any other service exception

  /** The scripted backend. `None` stands for a stub that throws a service
      exception; `failingPart` is the number of the first part whose upload throws. */
  datatype Script = Script(
    listing: Listing,
    createBucket: Creation,
    putObject: Option<string>,              // the versionId of the response
    createMultipartUpload: Option<string>,  // the uploadId of the response
    failingPart: Option<nat>,
    completeMultipartUpload: Option<string>) // the versionId of the response

  /** One call on the backend, with the arguments that matter. */
  datatype Call =
    | CreateS3Client(keyId: string, secret: string, exportService: string)
    | ListBuckets
    | CreateBucket(name: string)
    | Close
    | PutObject(bucket: string, key: string, size: nat)
    | CreateMultipartUpload(bucket: string, key: string)
    | UploadPart(uploadId: string, part: Part)
    | CompleteMultipartUpload(uploadId: string, partNumbers: seq<nat>)
  {
    /** The backend method called. */
    function Name(): MethodName
    {
      match this
      case CreateS3Client(_, _, _) => createS3Client
      case ListBuckets => listBuckets
      case CreateBucket(_) => createBucket
      case Close => close
      case PutObject(_, _, _) => putObject
      case CreateMultipartUpload(_, _) => createMultipartUpload
      case UploadPart(_, _) => uploadPart
      case CompleteMultipartUpload(_, _) => completeMultipartUpload
    }
  }

  /** The backend methods, spelt as the client's tests name them when they count calls. */
  datatype MethodName =
    | createS3Client | listBuckets | createBucket | close
    | putObject | createMultipartUpload | uploadPart | completeMultipartUpload

  /** How many of `calls` call the backend method `name`. */
  function Times(calls: seq<Call>, name: MethodName): (k: nat)
    ensures k <= |calls|
  {
    if calls == [] then 0
    else (if calls[0].Name() == name then 1 else 0) + Times(calls[1..], name)
  }

  lemma {:induction false} TimesAppend(a: seq<Call>, b: seq<Call>, name: MethodName)
    ensures Times(a + b, name) == Times(a, name) + Times(b, name)
  {
    if a != [] {
      assert (a + b)[0] == a[0];
      assert (a + b)[1..] == a[1..] + b;
      TimesAppend(a[1..], b, name);
    } else {
      assert a + b == b;
    }
  }

  lemma TimesOne(c: Call, name: MethodName)
    ensures Times([c], name) == if c.Name() == name then 1 else 0
  {
    assert [c][1..] == [];
  }

  datatype Lifecycle = Uninitialized | Initialized | Closed

  /** The effect of one `Init`: its outcome, the backend calls and monitor logs it
      makes, and the lifecycle state and bucket it leaves. */
  datatype InitRun = InitRun(outcome: Outcome, calls: seq<Call>, logs: seq<Level>,
                             state: Lifecycle, bucket: string)

  /** What `Init` does against `script`, starting from `state` and `bucket`.
      A 403 on listing closes the connection and is a credentials failure; every
      other failure is an IOException that leaves the state as it was. */
  function RunInit(script: Script, keyId: string, secret: string, exportService: string,
                   state: Lifecycle, bucket: string): InitRun
  {
    var opening := [CreateS3Client(keyId, secret, exportService), ListBuckets];
    match script.listing
    case ListingFails(status) =>
      if status == 403 then InitRun(Fail(CredentialsException), opening + [Close], [Debug], Closed, bucket)
      else InitRun(Fail(IOException), opening, [], state, bucket)
    case Buckets(names) =>
      var name := BucketName(exportService);
      if name in names then InitRun(Pass, opening, [], Initialized, name)
      else
        var creating := opening + [CreateBucket(name)];
        match script.createBucket
        case Created => InitRun(Pass, creating, [], Initialized, name)
        case AlreadyExists => InitRun(Fail(IOException), creating, [Info], state, bucket)
        case CreationFails => InitRun(Fail(IOException), creating, [], state, bucket)
  }

  /** The effect of one `UploadFile`: its result and the backend calls it makes. */
  datatype UploadRun = UploadRun(result: Result<string>, calls: seq<Call>)

  /** The upload calls for `parts`, in order. */
  function UploadCalls(uploadId: string, parts: seq<Part>): (calls: seq<Call>)
    ensures |calls| == |parts|
  {
    if parts == [] then [] else [UploadPart(uploadId, parts[0])] + UploadCalls(uploadId, parts[1..])
  }

  /** Whether the scripted failing part is one of the first `k` parts. */
  predicate FailsWithin(failingPart: Option<nat>, k: nat)
  {
    FailsAmong(failingPart, 1, k)
  }

  function VersionOf(response: Option<string>): Result<string>
  {
    match response
    case Some(versionId) => Success(versionId)
    case None => Failure(IOException)
  }

  /** What `UploadFile(key, n)` does for a file of `n` bytes. */
  function RunUpload(script: Script, config: UploadConfig, state: Lifecycle, bucket: string,
                     key: string, n: nat): UploadRun
  {
    if state != Initialized then UploadRun(Failure(IllegalStateException), [])
    else if n <= config.sizeThreshold then
      UploadRun(VersionOf(script.putObject), [PutObject(bucket, key, n)])
    else
      var start := CreateMultipartUpload(bucket, key);
      match script.createMultipartUpload
      case None => UploadRun(Failure(IOException), [start])
      case Some(uploadId) =>
        var parts := Partition(n, config.partSize);
        if FailsWithin(script.failingPart, |parts|) then
          UploadRun(Failure(IOException),
                    [start] + UploadCalls(uploadId, parts[..script.failingPart.value]))
        else
          UploadRun(VersionOf(script.completeMultipartUpload),
                    [start] + UploadCalls(uploadId, parts)
                    + [CompleteMultipartUpload(uploadId, PartNumbers(parts))])
  }

  /** Whether `name` is one of the listed bucket names. */
  method ContainsBucket(names: seq<string>, name: string) returns (found: bool)
    ensures found <==> name in names
  {
    found := false;
    for i := 0 to |names|
      invariant found <==> name in names[..i]
    {
      assert names[..i + 1] == names[..i] + [names[i]];
      if names[i] == name {
        found := true;
      }
    }
    assert names[..|names|] == names;
  }

  class DataTransferClient {
    const script: Script
    const config: UploadConfig
    var state: Lifecycle
    var bucket: string
    ghost var calls: seq<Call>
    ghost var logs: seq<Level>

    /** A client that is initialised holds the name of a data-transfer bucket. */
    ghost predicate Valid()
      reads this
    {
      state == Initialized ==> IsTransferBucket(bucket)
    }

    constructor (script: Script, config: UploadConfig)
      ensures Valid()
      ensures this.script == script && this.config == config
      ensures state == Uninitialized && calls == [] && logs == []
    {
      this.script := script;
      this.config := config;
      state := Uninitialized;
      bucket := "";
      calls := [];
      logs := [];
    }

    /** The Java constructor: it throws IllegalArgumentException for a part size
        of zero or less, whatever the threshold. */
    static method Create(script: Script, sizeThreshold: int, partSize: int)
      returns (r: Result<DataTransferClient>)
      ensures r.Failure? <==> partSize <= 0
      ensures r.Failure? ==> r.error == IllegalArgumentException
      ensures r.Success? ==>
                && fresh(r.value) && r.value.Valid() && r.value.script == script
                && r.value.config == UploadConfig(sizeThreshold, partSize)
                && r.value.state == Uninitialized && r.value.calls == [] && r.value.logs == []
    {
      var config := NewConfig(sizeThreshold, partSize);
      if config.Failure? {
        return Failure(config.error);
      }
      var client := new DataTransferClient(script, config.value);
      return Success(client);
    }

    /** Connect with the credentials, then find or create the export service's bucket. */
    method Init(keyId: string, secret: string, exportService: string) returns (r: Outcome)
      requires Valid()
      modifies this
      ensures Valid()
      ensures var run := RunInit(script, keyId, secret, exportService, old(state), old(bucket));
        && r == run.outcome
        && calls == old(calls) + run.calls
        && logs == old(logs) + run.logs
        && state == run.state
        && bucket == run.bucket
    {
      calls := calls + [CreateS3Client(keyId, secret, exportService), ListBuckets];
      match script.listing {
        case ListingFails(status) =>
          if status == 403 {
            calls := calls + [Close];
            logs := logs + [Debug];
            state := Closed;
            return Fail(CredentialsException);
          }
          return Fail(IOException);
        case Buckets(names) =>
          var name := BucketName(exportService);
          var found := ContainsBucket(names, name);
          if found {
            bucket, state := name, Initialized;
            return Pass;
          }
          calls := calls + [CreateBucket(name)];
          match script.createBucket {
            case Created =>
              bucket, state := name, Initialized;
              return Pass;
            case AlreadyExists =>
              logs := logs + [Info];
              return Fail(IOException);
            case CreationFails =>
              return Fail(IOException);
          }
      }
    }

    /** Upload a file of `n` bytes under `key` and return the stored object's versionId. */
    method UploadFile(key: string, n: nat) returns (r: Result<string>)
      requires Valid()
      modifies this`calls
      ensures var run := RunUpload(script, config, state, bucket, key, n);
        r == run.result && calls == old(calls) + run.calls
      // the file goes into the client's data-transfer bucket
      ensures var run := RunUpload(script, config, state, bucket, key, n);
        forall c | c in run.calls && (c.PutObject? || c.CreateMultipartUpload?) :: IsTransferBucket(c.bucket)
    {
      UploadTargetsOwnBucket(script, config, state, bucket, key, n);
      if state != Initialized {
        return Failure(IllegalStateException);
      }
      if n <= config.sizeThreshold {
        calls := calls + [PutObject(bucket, key, n)];
        return VersionOf(script.putObject);
      }
      var start := CreateMultipartUpload(bucket, key);
      calls := calls + [start];
      if script.createMultipartUpload.None? {
        return Failure(IOException);
      }
      var uploadId := script.createMultipartUpload.value;
      var ok, completed := UploadParts(uploadId, n);
      UploadPartsFromFollowsPartition(uploadId, script.failingPart, 0, n, config.partSize, 1);
      if !ok {
        return Failure(IOException);
      }
      calls := calls + [CompleteMultipartUpload(uploadId, completed)];
      return VersionOf(script.completeMultipartUpload);
    }

    /** Upload the parts of a file of `n` bytes one after the other, stopping at the
        first part whose upload throws; on success, return the part numbers to complete. */
    method UploadParts(uploadId: string, n: nat) returns (ok: bool, completed: seq<nat>)
      modifies this`calls
      ensures var run := UploadPartsFrom(uploadId, script.failingPart, 0, n, config.partSize, 1);
        && ok == run.ok
        && calls == old(calls) + run.calls
        && (ok ==> completed == run.completed)
    {
      var p := config.partSize;
      ghost var run := UploadPartsFrom(uploadId, script.failingPart, 0, n, p, 1);
      completed := [];
      var position: nat := 0;
      var number: nat := 1;
      while position < n
        invariant position <= n
        invariant var rest := UploadPartsFrom(uploadId, script.failingPart, position, n, p, number);
          && old(calls) + run.calls == calls + rest.calls
          && run.completed == completed + rest.completed
          && run.ok == rest.ok
        decreases n - position
      {
        var length := if n - position < p then n - position else p;
        ghost var rest := UploadPartsFrom(uploadId, script.failingPart, position + length, n, p, number + 1);
        var call := UploadPart(uploadId, Part(number, position, length));
        calls := calls + [call];
        if script.failingPart == Some(number) {
          return false, completed;
        }
        assert calls + rest.calls == calls[..|calls| - 1] + ([call] + rest.calls);
        completed := completed + [number];
        position := position + length;
        number := number + 1;
      }
      assert calls + [] == calls;
      return true, completed;
    }
  }

  /** The outcome of the part loop: the upload calls it makes, the part numbers
      it collects, and whether every part went up. */
  datatype PartRun = PartRun(calls: seq<Call>, completed: seq<nat>, ok: bool)

  /** The part loop from byte `position` and part number `number` on: one upload call
      per part, stopping right after the first one that throws. */
  function UploadPartsFrom(uploadId: string, failingPart: Option<nat>, position: nat, n: nat,
                           p: PositiveInt, number: nat): PartRun
    requires position <= n
    decreases n - position
  {
    if position == n then PartRun([], [], true)
    else
      var length := if n - position < p then n - position else p;
      var call := UploadPart(uploadId, Part(number, position, length));
      if failingPart == Some(number) then PartRun([call], [], false)
      else
        var rest := UploadPartsFrom(uploadId, failingPart, position + length, n, p, number + 1);
        PartRun([call] + rest.calls, [number] + rest.completed, rest.ok)
  }

  /** Whether the scripted failing part is among `count` parts numbered from `first`. */
  predicate FailsAmong(failingPart: Option<nat>, first: nat, count: nat)
  {
    failingPart.Some? && first <= failingPart.value < first + count
  }

  /** The part loop uploads the parts of the partition in order: all of them, or those
      up to and including the failing one, and then reports the failure. */
  lemma {:induction false} UploadPartsFromFollowsPartition(uploadId: string, failingPart: Option<nat>,
                                                            position: nat, n: nat, p: PositiveInt, number: nat)
    requires position <= n
    ensures var run := UploadPartsFrom(uploadId, failingPart, position, n, p, number);
      var parts := PartsFrom(position, n, p, number);
      && (run.ok <==> !FailsAmong(failingPart, number, |parts|))
      && (run.ok ==> run.calls == UploadCalls(uploadId, parts) && run.completed == PartNumbers(parts))
      && (!run.ok ==> run.calls == UploadCalls(uploadId, parts[..failingPart.value - number + 1]))
    decreases n - position
  {
    if position < n {
      var length := if n - position < p then n - position else p;
      var parts := PartsFrom(position, n, p, number);
      PartsFromUnfold(position, n, p, number);
      UploadPartsFromFollowsPartition(uploadId, failingPart, position + length, n, p, number + 1);
      if failingPart != Some(number) && !FailsAmong(failingPart, number, |parts|) {
        assert parts == [parts[0]] + parts[1..];
      } else if failingPart != Some(number) {
        var k := failingPart.value - number + 1;
        assert parts[..k] == [parts[0]] + parts[1..][..k - 1];
      } else {
        assert parts[..1] == [parts[0]];
      }
    }
  }

  // Properties the client's tests assert, stated of the specification functions
  // that `Init` and `UploadFile` are proved against.

  /** When the listing already holds the bucket, init succeeds without creating one. */
  lemma InitReusesListedBucket(script: Script, keyId: string, secret: string, exportService: string,
                               state: Lifecycle, bucket: string)
    requires script.listing.Buckets? && BucketName(exportService) in script.listing.names
    ensures var run := RunInit(script, keyId, secret, exportService, state, bucket);
      && run.outcome == Pass && run.state == Initialized && run.bucket == BucketName(exportService)
      && Times(run.calls, createBucket) == 0
  {
    var run := RunInit(script, keyId, secret, exportService, state, bucket);
    TimesAppend([CreateS3Client(keyId, secret, exportService)], [ListBuckets], createBucket);
    TimesOne(CreateS3Client(keyId, secret, exportService), createBucket);
    TimesOne(ListBuckets, createBucket);
  }

  /** When the listing lacks the bucket, init creates it with exactly one call;
      if creation succeeds, init completes normally. */
  lemma InitCreatesMissingBucket(script: Script, keyId: string, secret: string, exportService: string,
                                 state: Lifecycle, bucket: string)
    requires script.listing.Buckets? && BucketName(exportService) !in script.listing.names
    ensures var run := RunInit(script, keyId, secret, exportService, state, bucket);
      && Times(run.calls, createBucket) == 1
      && CreateBucket(BucketName(exportService)) in run.calls
      && (run.outcome == Pass <==> script.createBucket == Created)
      && (run.outcome == Pass ==> run.state == Initialized && run.bucket == BucketName(exportService))
  {
    var opening := [CreateS3Client(keyId, secret, exportService), ListBuckets];
    var create := CreateBucket(BucketName(exportService));
    TimesAppend(opening, [create], createBucket);
    TimesAppend([CreateS3Client(keyId, secret, exportService)], [ListBuckets], createBucket);
    TimesOne(CreateS3Client(keyId, secret, exportService), createBucket);
    TimesOne(ListBuckets, createBucket);
    TimesOne(create, createBucket);
    assert (opening + [create])[2] == create;
  }

  /** A failed bucket creation makes init throw IOException and leaves the state as it was;
      a name collision also logs at least one info message. */
  lemma InitCreationFailureIsIOException(script: Script, keyId: string, secret: string,
                                         exportService: string, state: Lifecycle, bucket: string)
    requires script.listing.Buckets? && BucketName(exportService) !in script.listing.names
    requires script.createBucket != Created
    ensures var run := RunInit(script, keyId, secret, exportService, state, bucket);
      && run.outcome == Fail(IOException) && run.state == state
      && (script.createBucket == AlreadyExists ==> LogCount(run.logs, Info) >= 1)
  {
  }

  /** A 403 from listBuckets makes init throw the credentials exception (not an
      IOException), close the S3 client exactly once, log a debug message and end Closed. */
  lemma InitForbiddenListingClosesClient(script: Script, keyId: string, secret: string,
                                         exportService: string, state: Lifecycle, bucket: string)
    requires script.listing == ListingFails(403)
    ensures var run := RunInit(script, keyId, secret, exportService, state, bucket);
      && run.outcome == Fail(CredentialsException)
      && Times(run.calls, close) == 1
      && Times(run.calls, createBucket) == 0
      && LogCount(run.logs, Debug) >= 1
      && run.state == Closed
  {
    var opening := [CreateS3Client(keyId, secret, exportService), ListBuckets];
    TimesAppend(opening, [Close], close);
    TimesAppend(opening, [Close], createBucket);
    TimesAppend([CreateS3Client(keyId, secret, exportService)], [ListBuckets], close);
    TimesAppend([CreateS3Client(keyId, secret, exportService)], [ListBuckets], createBucket);
    TimesOne(CreateS3Client(keyId, secret, exportService), close);
    TimesOne(CreateS3Client(keyId, secret, exportService), createBucket);
    TimesOne(ListBuckets, close);
    TimesOne(ListBuckets, createBucket);
    TimesOne(Close, close);
    TimesOne(Close, createBucket);
  }

  /** A successful init leaves the client initialised on the export service's bucket;
      a 403 leaves it closed; every other failure is an IOException that leaves the
      lifecycle state and the bucket as they were. */
  lemma InitStates(script: Script, keyId: string, secret: string, exportService: string,
                   state: Lifecycle, bucket: string)
    ensures var run := RunInit(script, keyId, secret, exportService, state, bucket);
      && (run.outcome == Pass ==> run.state == Initialized && run.bucket == BucketName(exportService))
      && (run.outcome == Fail(CredentialsException) ==> run.state == Closed)
      && (run.outcome.Fail? && run.outcome.error != CredentialsException ==>
            run.outcome.error == IOException && run.state == state && run.bucket == bucket)
  {
  }

  /** uploadFile on a client that is not initialised throws IllegalStateException
      and calls nothing. */
  lemma UploadRequiresInit(script: Script, config: UploadConfig, state: Lifecycle, bucket: string,
                           key: string, n: nat)
    requires state != Initialized
    ensures RunUpload(script, config, state, bucket, key, n) == UploadRun(Failure(IllegalStateException), [])
  {
  }

  /** A file below the threshold is sent with exactly one putObject and no multipart
      call; the result is the response's versionId, and a failing putObject is an IOException. */
  lemma SmallFileIsSinglePut(script: Script, config: UploadConfig, bucket: string, key: string, n: nat)
    requires n < config.sizeThreshold
    ensures var run := RunUpload(script, config, Initialized, bucket, key, n);
      && Times(run.calls, putObject) == 1
      && Times(run.calls, createMultipartUpload) == 0
      && Times(run.calls, uploadPart) == 0
      && Times(run.calls, completeMultipartUpload) == 0
      && run.result == (if script.putObject.Some? then Success(script.putObject.value) else Failure(IOException))
  {
    var c := PutObject(bucket, key, n);
    TimesOne(c, putObject);
    TimesOne(c, createMultipartUpload);
    TimesOne(c, uploadPart);
    TimesOne(c, completeMultipartUpload);
  }

  /** The upload calls for `parts` are all uploadPart calls. */
  lemma {:induction false} TimesUploadCalls(uploadId: string, parts: seq<Part>, name: MethodName)
    ensures Times(UploadCalls(uploadId, parts), name) == if name == uploadPart then |parts| else 0
  {
    if parts != [] {
      TimesUploadCalls(uploadId, parts[1..], name);
      TimesAppend([UploadPart(uploadId, parts[0])], UploadCalls(uploadId, parts[1..]), name);
      TimesOne(UploadPart(uploadId, parts[0]), name);
    }
  }

  lemma TimesMultipart(start: Call, uploadId: string, parts: seq<Part>, complete: Call, name: MethodName)
    ensures Times([start] + UploadCalls(uploadId, parts) + [complete], name)
      == (if start.Name() == name then 1 else 0) + (if name == uploadPart then |parts| else 0)
         + (if complete.Name() == name then 1 else 0)
  {
    TimesOne(start, name);
    TimesOne(complete, name);
    TimesAppend([start] + UploadCalls(uploadId, parts), [complete], name);
    TimesAppend([start], UploadCalls(uploadId, parts), name);
    TimesUploadCalls(uploadId, parts, name);
  }

  /** A file above the threshold, with every part upload succeeding, is sent as one
      multipart upload: one start, exactly fileSize/partSize + (fileSize%partSize == 0 ? 0 : 1)
      part uploads, one completion listing the parts 1, 2, ... in order, no putObject;
      the result is the completion's versionId. */
  lemma LargeFileIsMultipart(script: Script, config: UploadConfig, bucket: string, key: string, n: nat)
    requires n > config.sizeThreshold
    requires script.createMultipartUpload.Some?
    requires !FailsWithin(script.failingPart, ExpectedParts(n, config.partSize))
    ensures var run := RunUpload(script, config, Initialized, bucket, key, n);
      var p := config.partSize;
      && Times(run.calls, createMultipartUpload) == 1
      && Times(run.calls, uploadPart) == n / p + (if n % p == 0 then 0 else 1)
      && Times(run.calls, completeMultipartUpload) == 1
      && Times(run.calls, putObject) == 0
      && run.calls[|run.calls| - 1] == CompleteMultipartUpload(script.createMultipartUpload.value,
                                                               PartNumbers(Partition(n, p)))
      && run.result == VersionOf(script.completeMultipartUpload)
  {
    var p := config.partSize;
    var uploadId := script.createMultipartUpload.value;
    var parts := Partition(n, p);
    var start := CreateMultipartUpload(bucket, key);
    var complete := CompleteMultipartUpload(uploadId, PartNumbers(parts));
    PartitionNumbering(n, p);
    TimesMultipart(start, uploadId, parts, complete, createMultipartUpload);
    TimesMultipart(start, uploadId, parts, complete, uploadPart);
    TimesMultipart(start, uploadId, parts, complete, completeMultipartUpload);
    TimesMultipart(start, uploadId, parts, complete, putObject);
  }

  /** When part number f fails, uploadFile throws IOException after exactly f part
      uploads, and the multipart upload is never completed. */
  lemma PartFailureAbortsUpload(script: Script, config: UploadConfig, bucket: string, key: string, n: nat)
    requires n > config.sizeThreshold
    requires script.createMultipartUpload.Some?
    requires FailsWithin(script.failingPart, ExpectedParts(n, config.partSize))
    ensures var run := RunUpload(script, config, Initialized, bucket, key, n);
      && run.result == Failure(IOException)
      && Times(run.calls, uploadPart) == script.failingPart.value
      && Times(run.calls, completeMultipartUpload) == 0
  {
    PartitionNumbering(n, config.partSize);
    var uploadId := script.createMultipartUpload.value;
    var uploaded := Partition(n, config.partSize)[..script.failingPart.value];
    var start := CreateMultipartUpload(bucket, key);
    TimesAppend([start], UploadCalls(uploadId, uploaded), uploadPart);
    TimesAppend([start], UploadCalls(uploadId, uploaded), completeMultipartUpload);
    TimesUploadCalls(uploadId, uploaded, uploadPart);
    TimesUploadCalls(uploadId, uploaded, completeMultipartUpload);
    TimesOne(start, uploadPart);
    TimesOne(start, completeMultipartUpload);
  }

  /** The upload calls for `parts` are uploadPart calls only. */
  lemma {:induction false} UploadCallsAreParts(uploadId: string, parts: seq<Part>)
    ensures forall c | c in UploadCalls(uploadId, parts) :: c.UploadPart? && c.uploadId == uploadId
  {
    if parts != [] {
      UploadCallsAreParts(uploadId, parts[1..]);
    }
  }

  /** Every object an upload writes goes into the client's bucket, under the given key. */
  lemma UploadTargetsOwnBucket(script: Script, config: UploadConfig, state: Lifecycle, bucket: string,
                               key: string, n: nat)
    ensures forall c | c in RunUpload(script, config, state, bucket, key, n).calls
                       && (c.PutObject? || c.CreateMultipartUpload?) :: c.bucket == bucket && c.key == key
  {
    if state == Initialized && n > config.sizeThreshold && script.createMultipartUpload.Some? {
      var uploadId := script.createMultipartUpload.value;
      var parts := Partition(n, config.partSize);
      UploadCallsAreParts(uploadId, parts);
      if FailsWithin(script.failingPart, |parts|) {
        UploadCallsAreParts(uploadId, parts[..script.failingPart.value]);
      }
    }
  }

  /** uploadFile never reports a credentials failure: every backend failure is an IOException. */
  lemma UploadNeverBlamesCredentials(script: Script, config: UploadConfig, state: Lifecycle,
                                     bucket: string, key: string, n: nat)
    ensures var r := RunUpload(script, config, state, bucket, key, n).result;
      r.Failure? ==> ((r.error == IllegalStateException <==> state != Initialized)
                      && r.error != CredentialsException)
  {
  }
}
