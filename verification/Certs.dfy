/** Managed certificates: the desired configuration and the active/previous version slots. */
module Certs {
  import opened Options

  datatype Error =
    | NotFound
    | OperationConflict
    | ActiveVersionConflict
    | VersionNotFound
    | VersionRevoked
    | VersionRevokePending
    | HasServerAssignments
    | OperationInFlight
    | IssueFieldsLocked
    | NoActiveVersion
    | BundleNotAvailable
    | WriteFailed
    | DuplicateKey
    | InvalidRevocationReason
    | NameTaken

  datatype Result<+T> = Ok(value: T) | Err(error: Error)

  /** The issue fields: what an Issue operation copies from the desired configuration. */
  datatype Snapshot = Snapshot(domains: seq<string>, issuerId: string, dnsAccountId: string, keyType: string)

  datatype Version = Version(
    id: string, snapshot: Snapshot, notBefore: Time, notAfter: Time,
    revokePending: bool, revokedAt: Option<Time>)

  datatype Cert = Cert(
    id: string, desired: Snapshot, renewBeforeDays: nat, serverIds: seq<string>,
    active: Option<Version>, previous: Option<Version>)

  datatype Slot = Active | Previous

  function InSlot(c: Cert, slot: Slot): Option<Version> {
    if slot == Active then c.active else c.previous
  }

  function SetSlot(c: Cert, slot: Slot, v: Version): Cert {
    if slot == Active then c.(active := Some(v)) else c.(previous := Some(v))
  }

  predicate Holds(c: Cert, slot: Slot, versionId: string) {
    InSlot(c, slot).Some? && InSlot(c, slot).value.id == versionId
  }

  /** Looks at the active slot first, then at the previous one. */
  function SlotOf(c: Cert, versionId: string): Option<Slot> {
    if Holds(c, Active, versionId) then Some(Active)
    else if Holds(c, Previous, versionId) then Some(Previous)
    else None
  }

  predicate Distributable(v: Version) {
    !v.revokePending && v.revokedAt.None?
  }

  /** The version that a bundle download of a slot serves, if any. */
  function Bundle(c: Cert, slot: Slot): Option<Version> {
    var v := InSlot(c, slot);
    if v.Some? && Distributable(v.value) then v else None
  }

  predicate DesiredDiffersFromActive(c: Cert) {
    c.active.Some? && c.desired != c.active.value.snapshot
  }

  /** The conditional update of the first issue: only into an empty active slot. */
  function InstallFirst(c: Cert, v: Version): Result<Cert> {
    if c.active.None? then Ok(c.(active := Some(v))) else Err(ActiveVersionConflict)
  }

  /** The conditional update of later issues; `copy` is the active version as it was read before. */
  function SwapIn(c: Cert, v: Version, expectedId: string, copy: Version): Result<Cert> {
    if Holds(c, Active, expectedId) then Ok(c.(active := Some(v), previous := Some(copy)))
    else Err(ActiveVersionConflict)
  }

  /** Read and conditional update of a later issue taken together. */
  function InstallSubsequent(c: Cert, v: Version, expectedId: string): Result<Cert> {
    if !Holds(c, Active, expectedId) then Err(ActiveVersionConflict)
    else SwapIn(c, v, expectedId, c.active.value)
  }

  /** Rollback: swaps the two slots unless the previous version has been revoked. */
  function Rollback(c: Cert, versionId: string): Result<Cert> {
    if !Holds(c, Previous, versionId) then Err(VersionNotFound)
    else if c.previous.value.revokedAt.Some? then Err(VersionRevoked)
    else Ok(c.(active := c.previous, previous := c.active))
  }

  function MarkRevokePending(c: Cert, versionId: string): Result<Cert> {
    match SlotOf(c, versionId)
    case None => Err(VersionNotFound)
    case Some(slot) =>
      var v := InSlot(c, slot).value;
      if v.revokedAt.Some? then Err(VersionRevoked)
      else if v.revokePending then Err(VersionRevokePending)
      else Ok(SetSlot(c, slot, v.(revokePending := true)))
  }

  function ClearRevokePending(c: Cert, versionId: string): Result<Cert> {
    match SlotOf(c, versionId)
    case None => Err(VersionNotFound)
    case Some(slot) => Ok(SetSlot(c, slot, InSlot(c, slot).value.(revokePending := false)))
  }

  /** The slot update of a completed revocation, in the slot found by an earlier read. */
  function SetRevoked(c: Cert, slot: Slot, versionId: string, at: Time): Result<Cert> {
    if !Holds(c, slot, versionId) then Err(ActiveVersionConflict)
    else Ok(SetSlot(c, slot, InSlot(c, slot).value.(revokedAt := Some(at), revokePending := false)))
  }

  function CompleteRevoke(c: Cert, versionId: string, at: Time): Result<Cert> {
    match SlotOf(c, versionId)
    case None => Err(VersionNotFound)
    case Some(slot) => SetRevoked(c, slot, versionId, at)
  }

  /** Clearing the mark that was just set gives the certificate back. */
  lemma MarkUndone(c: Cert, versionId: string)
    requires MarkRevokePending(c, versionId).Ok?
    ensures ClearRevokePending(MarkRevokePending(c, versionId).value, versionId) == Ok(c)
  {
    var slot := SlotOf(c, versionId).value;
    var marked := MarkRevokePending(c, versionId).value;
    assert SlotOf(marked, versionId) == Some(slot);
  }

  /** A rollback can be rolled back exactly if the version it took out of service is not revoked. */
  lemma RollbackUndone(c: Cert, versionId: string)
    requires Rollback(c, versionId).Ok? && c.active.Some?
    ensures Rollback(Rollback(c, versionId).value, c.active.value.id) == Ok(c) <==> c.active.value.revokedAt.None?
  {
  }

  /** A rollback right after an issue puts the old version back, exactly if it is not revoked, and keeps the new one. */
  lemma IssueUndone(c: Cert, v: Version, expectedId: string)
    requires InstallSubsequent(c, v, expectedId).Ok?
    ensures Rollback(InstallSubsequent(c, v, expectedId).value, expectedId) == Ok(c.(previous := Some(v)))
            <==> c.active.value.revokedAt.None?
  {
  }
}
