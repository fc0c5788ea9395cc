/** Default settings of the application (the values `Settings` declares). */
module Config {
  const MaxGenerationRetries: int := 2
  const MaxTransformRetries: int := 2
  const MaxTotalIterations: int := 15
  const GraphRecursionLimit: int := 20

  const DocumentGradingBatchSize: nat := 4
  const DocumentGradingRetryAttempts: int := 2
  const DocumentGradingConfidenceThreshold: real := 0.6

  const EnableRetryVariation: bool := true
  const RetryTemperatureIncrement: real := 0.1

  const ChunkSize: int := 800
  const ChunkOverlap: int := 100

  const RetrievalK: nat := 4

  const EmbeddingBatchSize: nat := 50
  const EmbeddingFallbackBatchSize: nat := 10

  const HallucinationBatchSize: nat := 3
}
