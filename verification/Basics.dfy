/** Options, results and the durations (in seconds) that the deployed services agree on. */
module Basics {

  datatype Option<+T> = None | Some(value: T)

  datatype Result<+T, +E> = Ok(value: T) | Err(error: E)

  function Min(a: int, b: int): int {
    if a <= b then a else b
  }

  // Lambda time limits: an API request, a capture worker, a reset worker.
  const REQUEST_LIMIT := 25
  const WORKER_LIMIT := 90
  const RESET_LIMIT := 60

  // Capture leases, upload URLs and clean-up delays.
  const LEASE := 120
  const UPLOAD_LIFETIME := 300
  const CANCEL_DELAY := UPLOAD_LIFETIME + 60
  const SESSION_LIFETIME := 24 * 3600
  const RETENTION := 7 * 24 * 3600
  const RECOVERY_GRACE := 300
  const BUCKET_LIFECYCLE := 10 * 24 * 3600
  const DAY := 24 * 3600

  // A request that begins at `s` cannot leave a usable upload URL behind after `s + URL_HORIZON`.
  const URL_HORIZON := REQUEST_LIMIT + UPLOAD_LIFETIME

  // Environment reset.
  const RESET_LEASE := 90
  const DRAIN := 420
  const QUEUE_WAIT := 60

  // E-mail proofs.
  const PROOF_LIFETIME := 600
  const COOLDOWN := 60
  const CLAIM_TIMEOUT := 60
}
