/** The values client and server exchange: keys, record copies, changes and results. */
module Protocol {

  datatype Option<+T> = None | Some(value: T)

  // Identifiers are uuid4 values in the source; only their freshness matters.
  type ClientId = nat
  type ChangeId = nat

  datatype Kind = Risk | Opportunity | Action | Assessment | Ticket

  datatype Key = Key(kind: Kind, id: nat)

  /** Risks and opportunities share one server table, whose codes are unique per project. */
  predicate Scored(kind: Kind) {
    kind.Risk? || kind.Opportunity?
  }

  type Fields = map<string, string>

  /** One version of a row, as a pull or a push result carries it. */
  datatype Copy = Copy(version: nat, deleted: bool, code: Option<string>, fields: Fields)

  datatype VersionOf = VersionOf(key: Key, version: nat)

  datatype KeyCopy = KeyCopy(key: Key, copy: Copy)

  /** Who wrote a version: one client's push, or the REST interface. */
  datatype Writer = Device(client: ClientId) | Rest

  datatype Op = Upsert | Delete

  /** A record may leave the code out, clear it, or set it. */
  datatype CodeField = Absent | Given(code: Option<string>)

  /** `deletes` is the parsed is_deleted flag, which status=deleted also sets. */
  datatype Record = Record(code: CodeField, deletes: Option<bool>, fields: Fields)

  datatype Change = Change(id: ChangeId, key: Key, op: Op, base: Option<int>, record: Record)

  datatype FailureKind = Transient | Authentication | Permission | Validation | Conflicting | OtherError

  datatype Outcome = Accepted | Conflict | Error(kind: FailureKind, retryable: bool)

  datatype Result = Result(
    id: ChangeId,
    key: Key,
    outcome: Outcome,
    replayed: bool,
    version: Option<nat>,
    receiptVersion: Option<nat>,
    record: Option<Copy>)

  /** The version an accepted change produced: for a replay, that of its first acceptance. */
  function AcknowledgedVersion(r: Result): Option<nat> {
    if r.replayed && r.receiptVersion.Some? then r.receiptVersion else r.version
  }

  /** A missing value, JSON null or a number below one all read as "no version". */
  function NoVersionBelowOne(v: int): Option<int> {
    if v >= 1 then Some(v) else None
  }
}
