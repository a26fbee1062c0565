/** The adapter's configuration record: connection string, container name,
    transfer block size and maximum parallelism. Every field is set once when
    the record is built and only read afterwards, so it is a value. */
module StorageProperties {
  import opened JavaText

  /** Block size used when none is configured: 1 MiB. */
  const DEFAULT_BLOCK_SIZE: Int32 := 1048576
  /** Parallel requests per transfer used when none is configured. */
  const DEFAULT_MAX_CONCURRENCY: Int32 := 2

  /** The block size is taken as an `int` and handed out as a `long`. */
  datatype Properties = Properties(connectionString: string, containerName: string,
                                   blockSize: Int32, maxConcurrency: Int32)
  {
    function GetConnectionString(): string { connectionString }
    function GetContainerName(): string { containerName }
    function GetBlockSize(): Int64 { blockSize }
    function GetMaxConcurrency(): Int32 { maxConcurrency }
  }

  /** The record's constructor. The two tuning arguments are `int`s whose
      defaults apply when the configuration leaves them unset. Each getter then
      returns its argument; the block size comes back widened to `long`, so it
      always lies within the `int` range. */
  function Create(connectionString: string, containerName: string,
                  blockSize: Int32 := DEFAULT_BLOCK_SIZE,
                  maxConcurrency: Int32 := DEFAULT_MAX_CONCURRENCY): (p: Properties)
    ensures p.GetConnectionString() == connectionString
    ensures p.GetContainerName() == containerName
    ensures p.GetBlockSize() == blockSize && INT_MIN <= p.GetBlockSize() <= INT_MAX
    ensures p.GetMaxConcurrency() == maxConcurrency
  {
    Properties(connectionString, containerName, blockSize, maxConcurrency)
  }

  /** Left unconfigured, the tuning values are 1 MiB and 2. */
  lemma UnsetTuningUsesDefaults(connectionString: string, containerName: string)
    ensures Create(connectionString, containerName).GetBlockSize() == 1048576
    ensures Create(connectionString, containerName).GetMaxConcurrency() == 2
  {
  }
}
