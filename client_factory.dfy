/** The per-job client cache: the first request for a job builds an upload client with
    the default sizes, initialises it with the job's credentials and keeps it only if
    `Init` completes normally; later requests for that job get the kept client. */
module ClientFactory {
  import opened Common
  import opened TransferClient

  /** Files larger than 20 MiB go by multipart upload. */
  const SizeThresholdForMultipartUpload: int := 20 * 1024 * 1024

  /** Multipart uploads use parts of 5 MiB. */
  const PartSizeForMultipartUpload: int := 5 * 1024 * 1024

  /** The configuration of every client the cache builds: the constructor's
      part-size check accepts it. */
  function DefaultConfig(): (config: UploadConfig)
    ensures NewConfig(SizeThresholdForMultipartUpload, PartSizeForMultipartUpload) == Success(config)
    ensures config.sizeThreshold == 20_971_520 && config.partSize == 5_242_880
  {
    UploadConfig(SizeThresholdForMultipartUpload, PartSizeForMultipartUpload)
  }

  /** A job identifier: the two 64-bit halves of a java.util.UUID. */
  datatype Uuid = Uuid(mostSignificantBits: int, leastSignificantBits: int)

  /** The job's credentials: the token is the backend key id. */
  datatype TokenSecretAuthData = TokenSecretAuthData(token: string, secret: string)

  class DataTransferClientFactory {
    var clients: map<Uuid, DataTransferClient>

    /** Every cached client was built with the default sizes and initialised successfully. */
    ghost predicate Valid()
      reads this, clients.Values
    {
      forall job :: job in clients ==>
        clients[job].Valid() && clients[job].state == Initialized && clients[job].config == DefaultConfig()
    }

    constructor ()
      ensures Valid() && clients == map[]
    {
      clients := map[];
    }

    /** The client for `jobId`. `exportService` stands for the job's export service
        and `backend` for the backend a newly built client connects to. */
    method GetOrCreateB2Client(jobId: Uuid, authData: TokenSecretAuthData, exportService: string,
                             backend: Script)
      returns (r: Result<DataTransferClient>)
      requires Valid()
      modifies this
      ensures Valid()
      // entries are only ever added, and only for jobId
      ensures forall job :: job in old(clients) ==> job in clients && clients[job] == old(clients)[job]
      ensures clients.Keys <= old(clients).Keys + {jobId}
      ensures r.Success? ==> jobId in clients && r.value == clients[jobId]
      // a cached client is returned as it is: nothing is built or initialised
      ensures jobId in old(clients) ==>
                && r == Success(old(clients)[jobId]) && clients == old(clients)
                && unchanged(old(clients)[jobId])
      // otherwise a new client is built, initialised, and cached only if init completed normally
      ensures jobId !in old(clients) ==>
                var run := RunInit(backend, authData.token, authData.secret, exportService, Uninitialized, "");
                && (r.Success? <==> run.outcome == Pass)
                && (r.Failure? ==> r.error == run.outcome.error && clients == old(clients))
                && (r.Success? ==>
                      && fresh(r.value) && r.value.config == DefaultConfig() && r.value.script == backend
                      && r.value.calls == run.calls && r.value.logs == run.logs
                      && r.value.state == run.state && r.value.bucket == run.bucket
                      && clients == old(clients)[jobId := r.value])
    {
      if jobId !in clients {
        var created := DataTransferClient.Create(backend, SizeThresholdForMultipartUpload,
                                                 PartSizeForMultipartUpload);
        var client := created.value;
        var outcome := client.Init(authData.token, authData.secret, exportService);
        InitStates(backend, authData.token, authData.secret, exportService, Uninitialized, "");
        if outcome.Fail? {
          return Failure(outcome.error);
        }
        clients := clients[jobId := client];
      }
      return Success(clients[jobId]);
    }
  }

  /** Two successive requests for the same job: once the first has succeeded, the
      second returns the identical client, whatever credentials it passes, and the
      backend sees init's calls only once. */
  method RequestTwice(factory: DataTransferClientFactory, jobId: Uuid,
                      firstAuth: TokenSecretAuthData, secondAuth: TokenSecretAuthData,
                      exportService: string, backend: Script)
    returns (first: Result<DataTransferClient>, second: Result<DataTransferClient>)
    requires factory.Valid()
    modifies factory
    ensures factory.Valid()
    ensures first.Success? ==> second == first
    // a newly built client has made init's backend calls once, and nothing more
    ensures jobId !in old(factory.clients) && first.Success? ==>
              first.value.calls == RunInit(backend, firstAuth.token, firstAuth.secret, exportService,
                                           Uninitialized, "").calls
  {
    first := factory.GetOrCreateB2Client(jobId, firstAuth, exportService, backend);
    second := factory.GetOrCreateB2Client(jobId, secondAuth, exportService, backend);
  }
}
