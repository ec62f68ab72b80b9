/**
 * Sealing content in two places: bytes go to the physical store first, then the kernel's ledger gets a
 * receipt and an object identity, each by its own command. The daemon may die between any two of these.
 */
module Sealing {
  import opened Wrappers
  import opened StudyVocabulary
  import opened SealingNames

  // ---------- data ----------

  datatype Capability = RecordContentSealReceipt | RegisterContentObject

  datatype Body = RecordReceipt(digest: Digest) | RegisterObject(receipt: nat)

  datatype Request = Request(id: string, grant: Id, capability: Capability, generation: Option<nat>, body: Body)

  datatype Refusal = SubjectNotFound | CapabilityMismatch | InvalidExpectedGeneration | CapabilityNotGranted | CapabilityNoLongerActive | ContentObjectNotSealed | ContentSealReceiptMissing

  datatype Disposition = Accepted | Rejected(rejection: Refusal)

  /** A stored command: the fingerprint of its request and what became of it. */
  datatype Row = Row(fingerprint: Digest, disposition: Disposition)

  /** Receipt n attests digest receipts[n - 1]; object n stands for receipt objects[n - 1]. */
  datatype Ledger = Ledger(
    commands: map<string, Row>,
    receipts: seq<Digest>,
    objects: seq<nat>,
    active: map<Capability, Id>,
    retired: set<(Capability, Id)>)

  const EMPTY_LEDGER := Ledger(map[], [], [], map[], {})

  datatype Identity = Absent | SealReceiptOnly(receipt: nat) | Registered(receiptId: nat, objectId: nat)

  /** Reasons of the physical store beyond those the model decides itself. */
  datatype StoreFault = Io | UnsafeStorageDirectory | UnsafeStoredObject | TemporaryIdentityExhausted

  datatype PhysicalError = Faulted(fault: StoreFault) | SealLimitExceeded | StoredDigestMismatch

  datatype Presence = Created | AlreadyPresentVerified

  datatype Seam = PhysicalSealComplete | ReceiptRecorded | ObjectRegistered

  datatype SealingError =
    | Physical(error: PhysicalError)
    | IdempotencyConflict
    | InputDigestMismatch
    | PhysicalDigestMismatch
    | KernelServiceCapabilityMissing(missing: Capability)
    | KernelCommandRejected(capability: Capability, rejection: Refusal)
    | ReceiptNotMaterialized
    | ContentObjectNotMaterialized
    | Crash(seam: Seam)

  datatype Registration = Registration(digest: Digest, objectId: nat, presence: Presence)

  /** BLAKE3 of the content and of a request's encoding; neither is taken to be injective. */
  datatype Hashes = Hashes(content: seq<Byte> -> Digest, request: Request -> Digest)

  /** Where the physical store fails, if it does: before the object gets its name, or after. */
  datatype Weather = Fair | FailsBefore(fault: StoreFault) | FailsAfter(fault: StoreFault)

  datatype Call = Call(operation: Operation, bytes: seq<Byte>, limit: nat, weather: Weather, seam: Option<Seam>)

  type Store = map<Digest, seq<Byte>>

  datatype World = World(store: Store, ledger: Ledger)

  // ---------- the kernel ----------

  /** The position of the first occurrence. */
  function Find<T(==)>(x: T, s: seq<T>): (i: Option<nat>)
    ensures i.None? <==> x !in s
    ensures i.Some? ==> i.value < |s| && s[i.value] == x && x !in s[..i.value]
  {
    if s == [] then None
    else if s[0] == x then Some(0)
    else
      var i := Find(x, s[1..]);
      assert i.Some? ==> s[..i.value + 1] == [s[0]] + s[1..][..i.value];
      if i.Some? then Some(i.value + 1) else None
  }

  function IdentityOf(k: Ledger, d: Digest): Identity {
    match Find(d, k.receipts)
    case None => Absent
    case Some(i) =>
      match Find(i + 1, k.objects)
      case None => SealReceiptOnly(i + 1)
      case Some(j) => Registered(i + 1, j + 1)
  }

  function CapabilityOf(body: Body): Capability {
    if body.RecordReceipt? then RecordContentSealReceipt else RegisterContentObject
  }

  /** The transition itself, run inside the savepoint. */
  function ApplyBody(k: Ledger, q: Request): Result<Ledger, Refusal> {
    var c := CapabilityOf(q.body);
    if q.capability != c then Err(Refusal.CapabilityMismatch)
    else if q.generation.Some? then Err(Refusal.InvalidExpectedGeneration)
    else if !(c in k.active && k.active[c] == q.grant) then
      Err(if (c, q.grant) in k.retired then Refusal.CapabilityNoLongerActive else Refusal.CapabilityNotGranted)
    else match q.body
      case RecordReceipt(d) =>
        if d in k.receipts then Err(Refusal.ContentObjectNotSealed) else Ok(k.(receipts := k.receipts + [d]))
      case RegisterObject(r) =>
        if !(1 <= r <= |k.receipts|) then Err(Refusal.ContentSealReceiptMissing)
        else if r in k.objects then Err(Refusal.ContentObjectNotSealed)
        else Ok(k.(objects := k.objects + [r]))
  }

  /** A command runs once per identity; a rejected one stays recorded, a changed request conflicts. */
  function ExecuteRequest(h: Hashes, k: Ledger, q: Request): (Ledger, Option<Disposition>) {
    if q.id in k.commands then
      (k, if k.commands[q.id].fingerprint != h.request(q) then None else Some(k.commands[q.id].disposition))
    else match ApplyBody(k, q)
      case Ok(l) => (l.(commands := k.commands[q.id := Row(h.request(q), Accepted)]), Some(Accepted))
      case Err(e) => (k.(commands := k.commands[q.id := Row(h.request(q), Rejected(e))]), Some(Rejected(e)))
  }

  // ---------- the daemon ----------

  function SealBytes(h: Hashes, store: Store, bytes: seq<Byte>, limit: nat, weather: Weather): (Store, Result<(Digest, Presence), PhysicalError>) {
    var d := h.content(bytes);
    if weather.FailsBefore? then (store, Err(Faulted(weather.fault)))
    else if |bytes| > limit then (store, Err(SealLimitExceeded))
    else if d in store && h.content(store[d]) != d then (store, Err(StoredDigestMismatch))
    else
      var after := if d in store then store else store[d := bytes];
      (after, if weather.FailsAfter? then Err(Faulted(weather.fault)) else Ok((d, if d in store then AlreadyPresentVerified else Created)))
  }

  /** The request the daemon makes of the kernel, with the grant that is active now. */
  function RequestFor(k: Ledger, id: string, body: Body): Request
    requires CapabilityOf(body) in k.active
  {
    Request(id, k.active[CapabilityOf(body)], CapabilityOf(body), None, body)
  }

  function ServiceCommand(h: Hashes, k: Ledger, id: string, body: Body): (Ledger, Option<SealingError>) {
    var c := CapabilityOf(body);
    if c !in k.active then (k, Some(KernelServiceCapabilityMissing(c)))
    else match ExecuteRequest(h, k, RequestFor(k, id, body))
      case (l, None) => (l, Some(IdempotencyConflict))
      case (l, Some(Accepted)) => (l, None)
      case (l, Some(Rejected(e))) => (l, Some(KernelCommandRejected(c, e)))
  }

  function RegisterReceipt(h: Hashes, k: Ledger, call: Call, d: Digest, presence: Presence, receipt: nat): (Ledger, Result<Registration, SealingError>) {
    match ServiceCommand(h, k, call.operation.registerId, RegisterObject(receipt))
    case (l, Some(e)) => (l, Err(e))
    case (l, None) =>
      if call.seam == Some(ObjectRegistered) then (l, Err(Crash(ObjectRegistered)))
      else match IdentityOf(l, d)
        case Registered(_, o) => (l, Ok(Registration(d, o, presence)))
        case _ => (l, Err(ContentObjectNotMaterialized))
  }

  function RecordDigest(h: Hashes, k: Ledger, call: Call, d: Digest, presence: Presence): (Ledger, Result<Registration, SealingError>) {
    match ServiceCommand(h, k, call.operation.recordId, RecordReceipt(d))
    case (l, Some(e)) => (l, Err(e))
    case (l, None) =>
      if call.seam == Some(ReceiptRecorded) then (l, Err(Crash(ReceiptRecorded)))
      else match IdentityOf(l, d)
        case Registered(_, o) => (l, Ok(Registration(d, o, presence)))
        case SealReceiptOnly(r) => RegisterReceipt(h, l, call, d, presence, r)
        case Absent => (l, Err(ReceiptNotMaterialized))
  }

  function Seal(h: Hashes, w: World, call: Call): (World, Result<Registration, SealingError>) {
    if h.content(call.bytes) != call.operation.digest then (w, Err(InputDigestMismatch))
    else match SealBytes(h, w.store, call.bytes, call.limit, call.weather)
      case (store, Err(e)) => (World(store, w.ledger), Err(Physical(e)))
      case (store, Ok((d, presence))) =>
        if d != call.operation.digest then (World(store, w.ledger), Err(PhysicalDigestMismatch))
        else if call.seam == Some(PhysicalSealComplete) then (World(store, w.ledger), Err(Crash(PhysicalSealComplete)))
        else match IdentityOf(w.ledger, d)
          case Registered(_, o) => (World(store, w.ledger), Ok(Registration(d, o, presence)))
          case SealReceiptOnly(r) =>
            var (l, result) := RegisterReceipt(h, w.ledger, call, d, presence, r);
            (World(store, l), result)
          case Absent =>
            var (l, result) := RecordDigest(h, w.ledger, call, d, presence);
            (World(store, l), result)
  }

  // ---------- runs ----------

  /** What may happen: a sealing call, other commands of the kernel, its grants, damage to the store. */
  datatype Step =
    | Sealing(call: Call)
    | OtherCommand(id: string, row: Row)
    | Grants(active: map<Capability, Id>, retired: set<(Capability, Id)>)
    | StoreChanges(store: Store)

  function Next(h: Hashes, w: World, step: Step): World {
    match step
    case Sealing(call) => Seal(h, w, call).0
    case OtherCommand(id, row) => if id in w.ledger.commands then w else w.(ledger := w.ledger.(commands := w.ledger.commands[id := row]))
    case Grants(active, retired) => w.(ledger := w.ledger.(active := active, retired := retired))
    case StoreChanges(store) => w.(store := store)
  }

  function Run(h: Hashes, steps: seq<Step>): World {
    if steps == [] then World(map[], EMPTY_LEDGER) else Next(h, Run(h, steps[..|steps| - 1]), steps[|steps| - 1])
  }
}
