/** The stored capture record and the assets it pins (capture/model.go, capture/extraction.go). */
module CaptureModel {
  import opened Basics

  datatype State = Uploading | Finalizing | Ready | Failed | RequiresRecapture | Cancelled | Expired

  datatype Work = NoWork | Validate | Extract | Cleanup

  datatype Slot = Front | Back

  datatype Fault = NoFault | ValidationUnavailable | InvalidImage

  datatype Upload = Upload(id: string, slot: Slot, sha256: string, size: int, operationKey: string)

  datatype Asset = Asset(uploadId: string, slot: Slot, versionId: string, sha256: string, size: int)

  /** Transcribed card fields, in a fixed order. */
  datatype CardData = CardData(fields: seq<string>) {
    predicate Valid() {
      forall f | f in fields :: |f| <= 512 && '\0' !in f && '\r' !in f
    }

    predicate Empty() {
      forall f | f in fields :: f == ""
    }
  }

  datatype Extraction = Pending | Complete(data: CardData) | Unavailable

  datatype Reviewed = Reviewed(originCountry: string, data: CardData, savedAt: int)

  datatype Record = Record(
    id: string,
    evidenceVersion: int,
    revision: int,
    documentType: string,
    policyVersion: string,
    language: string,
    state: State,
    createdAt: int,
    expiresAt: int,
    slots: map<Slot, string>,
    uploads: seq<Upload>,
    assets: seq<Asset>,
    processed: seq<Asset>,
    fault: Fault,
    createKey: string,
    finalizeKey: string,
    retryKey: string,
    generation: int,
    attempts: int,
    leaseUntil: int,
    work: Work,
    due: int,
    deleteAfter: int,
    ttl: int,
    extraction: Option<Extraction>,
    reviewed: Option<Reviewed>,
    extractionAttempts: int
  )

  datatype Job = Job(generation: int, work: Work)

  const MAX_UPLOADS := 20
  const MAX_BYTES := 4 * 1024 * 1024

  /** A new record as `Create` writes it; `created` and `expiryBase` are two readings of the clock. */
  function NewRecord(id: string, version: int, key: string, kind: string, policy: string, language: string,
                     created: int, expiryBase: int): Record {
    Record(id, version, 1, kind, policy, language, Uploading, created, expiryBase + SESSION_LIFETIME,
           map[], [], [], [], NoFault, key, "", "", 0, 0, 0, Cleanup,
           expiryBase + SESSION_LIFETIME + CANCEL_DELAY, 0, created + 90 * DAY, None, None, 0)
  }

  /**
   The attributes that the table stores beside a record: an index entry for pending work,
   or a time-to-live, never both.
   */
  datatype Item = Item(record: Record, index: Option<(Work, int)>, ttl: Option<int>)

  function RecordItem(r: Record): Item {
    Item(r,
         if r.work.NoWork? then None else Some((r.work, r.due)),
         if r.work.NoWork? then Some(r.ttl) else None)
  }
}
