/** The client's configuration: the defaults, how caller options override them, the check that
    the three collaborators are present, and the retry delay rule. */
module Options {
  import opened Wrappers

  /** `retryBackoffTimeMs` is either a function of the retry number or a constant. */
  datatype Backoff = Computed(delayFor: int -> int) | Fixed(ms: int)

  /** The merged options the scheduler reads. `onProgress` records only whether a progress
      callback was given; the call it receives is modelled by the scheduler. */
  datatype Config = Config(
    partSize: int,
    parallelism: int,
    retries: int,
    retryBackoffTimeMs: Backoff,
    onProgress: bool)

  /** What a caller passes to the constructor: any of the four tunables (None = key absent), a
      progress callback or not, and whether each collaborator is present (truthy). */
  datatype ClientOptions = ClientOptions(
    partSize: Option<int>,
    parallelism: Option<int>,
    retries: Option<int>,
    retryBackoffTimeMs: Option<Backoff>,
    onProgress: bool,
    createUpload: bool,
    getPartUrl: bool,
    completeUpload: bool)

  /** 5 GiB. */
  const DefaultPartSize: int := 5 * 1024 * 1024 * 1024
  const DefaultParallelism: int := 3
  const DefaultRetries: int := 3

  /** The default backoff: the square of the retry number, in seconds. */
  function DefaultBackoffMs(retry: int): int
  {
    retry * retry * 1000
  }

  const DefaultConfig: Config :=
    Config(DefaultPartSize, DefaultParallelism, DefaultRetries, Computed(DefaultBackoffMs), false)

  const IncompleteOptionsMessage: string :=
    "Incomplete options, missing createUpload/getPartUrl/completeUpload"

  /** `Object.assign({}, defaultOptions, options)`: every key the caller gives wins. */
  function Merge(o: ClientOptions): Config
  {
    Config(
      match o.partSize case Some(v) => v case None => DefaultPartSize,
      match o.parallelism case Some(v) => v case None => DefaultParallelism,
      match o.retries case Some(v) => v case None => DefaultRetries,
      match o.retryBackoffTimeMs case Some(v) => v case None => Computed(DefaultBackoffMs),
      o.onProgress)
  }

  /** The constructor: it merges the options and then throws unless all three collaborators
      are present. */
  function NewClient(o: ClientOptions): (r: Result<Config>)
    ensures r.Ok? <==> o.createUpload && o.getPartUrl && o.completeUpload
    ensures r.Err? ==> r.error.message == IncompleteOptionsMessage
    ensures r.Ok? ==> r.value == Merge(o)
  {
    if !o.createUpload || !o.getPartUrl || !o.completeUpload then
      Err(Error(IncompleteOptionsMessage))
    else
      Ok(Merge(o))
  }

  /** Merging keeps each option the caller gave and takes the default for each it left out. */
  lemma MergeOverrides(o: ClientOptions)
    ensures Merge(o).partSize == if o.partSize.Some? then o.partSize.value else 5368709120
    ensures Merge(o).parallelism == if o.parallelism.Some? then o.parallelism.value else 3
    ensures Merge(o).retries == if o.retries.Some? then o.retries.value else 3
    ensures o.retryBackoffTimeMs.Some? ==> Merge(o).retryBackoffTimeMs == o.retryBackoffTimeMs.value
    ensures o.retryBackoffTimeMs.None? ==>
      Merge(o).retryBackoffTimeMs.Computed? &&
      forall k :: Merge(o).retryBackoffTimeMs.delayFor(k) == k * k * 1000
    ensures Merge(o).onProgress == o.onProgress
  {
  }

  /** The delay before retry number `retry`: the function applied to it, or the constant. */
  function RetryDelay(b: Backoff, retry: int): (ms: int)
    ensures b.Fixed? ==> ms == b.ms
    ensures b.Computed? ==> ms == b.delayFor(retry)
  {
    match b
    case Computed(f) => f(retry)
    case Fixed(ms) => ms
  }

  /** The default delays strictly grow with the retry number. */
  lemma DefaultBackoffGrows(j: int, k: int)
    requires 0 <= j < k
    ensures 0 <= RetryDelay(Computed(DefaultBackoffMs), j) < RetryDelay(Computed(DefaultBackoffMs), k)
  {
    assert j * j <= j * k < k * k;
  }

  /** With the defaults, the three retries wait 1, 4 and 9 seconds. */
  lemma DefaultRetryDelays()
    ensures DefaultConfig.retries == 3
    ensures RetryDelay(DefaultConfig.retryBackoffTimeMs, 1) == 1000
    ensures RetryDelay(DefaultConfig.retryBackoffTimeMs, 2) == 4000
    ensures RetryDelay(DefaultConfig.retryBackoffTimeMs, 3) == 9000
  {
  }
}
