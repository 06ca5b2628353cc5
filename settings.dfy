/** The batch-processing configuration, an immutable value handed to both control loops. */
module Settings {

  datatype BatchProcessingSettings = BatchProcessingSettings(
    queueSizeThreshold: int,
    processingIntervalMinutes: int,
    maxRetryCount: int,
    batchCheckIntervalMinutes: int)

  /** The values a `BatchProcessingSettings` starts with when configuration sets nothing. */
  function Defaults(): (s: BatchProcessingSettings)
    ensures s.queueSizeThreshold == 100 && s.processingIntervalMinutes == 15
    ensures s.maxRetryCount == 3 && s.batchCheckIntervalMinutes == 5
  {
    BatchProcessingSettings(100, 15, 3, 5)
  }
}
