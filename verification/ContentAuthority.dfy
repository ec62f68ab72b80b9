/** The kernel store and the daemon's content authority as they run: ordered effects on two owners. */
module ContentAuthority {
  import opened Wrappers
  import opened StudyVocabulary
  import opened SealingNames
  import opened Sealing
  import opened SealingTheorems

  class KernelStore {
    const hashes: Hashes
    var commands: map<string, Row>
    var receipts: seq<Digest>
    var objects: seq<nat>
    var active: map<Capability, Id>
    var retired: set<(Capability, Id)>

    function State(): Ledger
      reads this
    {
      Ledger(commands, receipts, objects, active, retired)
    }

    ghost predicate Valid()
      reads this
    {
      Sound(State())
    }

    constructor (hashes: Hashes)
      ensures Valid() && this.hashes == hashes && State() == EMPTY_LEDGER
    {
      this.hashes := hashes;
      commands, receipts, objects, active, retired := map[], [], [], map[], {};
    }

    /** Runs the command inside a transaction: placeholder row, savepoint, transition, release or rollback. */
    method Execute(q: Request) returns (r: Option<Disposition>)
      requires Valid()
      modifies this
      ensures Valid() && (State(), r) == ExecuteRequest(hashes, old(State()), q)
    {
      var fingerprint := hashes.request(q);
      if q.id in commands {
        if commands[q.id].fingerprint != fingerprint { return None; }
        return Some(commands[q.id].disposition);
      }
      commands := commands[q.id := Row(fingerprint, Rejected(Refusal.SubjectNotFound))];
      var savepoint := (receipts, objects);
      var refusal := Transition(q);
      match refusal {
        case None =>
          commands := commands[q.id := Row(fingerprint, Accepted)];
          assert commands == old(commands)[q.id := Row(fingerprint, Accepted)];
          r := Some(Accepted);
        case Some(e) =>
          receipts, objects := savepoint.0, savepoint.1;
          commands := commands[q.id := Row(fingerprint, Rejected(e))];
          assert commands == old(commands)[q.id := Row(fingerprint, Rejected(e))];
          r := Some(Rejected(e));
      }
    }

    method Transition(q: Request) returns (refusal: Option<Refusal>)
      modifies this`receipts, this`objects
      ensures match ApplyBody(old(State()), q)
              case Ok(l) => refusal == None && State() == l
              case Err(e) => refusal == Some(e)
    {
      var c := CapabilityOf(q.body);
      if q.capability != c { return Some(Refusal.CapabilityMismatch); }
      if q.generation.Some? { return Some(Refusal.InvalidExpectedGeneration); }
      if c !in active || active[c] != q.grant {
        return Some(if (c, q.grant) in retired then Refusal.CapabilityNoLongerActive else Refusal.CapabilityNotGranted);
      }
      match q.body {
        case RecordReceipt(d) =>
          if d in receipts { return Some(Refusal.ContentObjectNotSealed); }
          receipts := receipts + [d];
        case RegisterObject(receipt) =>
          if !(1 <= receipt <= |receipts|) { return Some(Refusal.ContentSealReceiptMissing); }
          if receipt in objects { return Some(Refusal.ContentObjectNotSealed); }
          objects := objects + [receipt];
      }
      refusal := None;
    }
  }

  class ContentSealingAuthority {
    const limit: nat
    var store: Store

    constructor (limit: nat)
      ensures this.limit == limit && store == map[]
    {
      this.limit := limit;
      store := map[];
    }

    /** The physical write: link the object under its digest, or verify the one that is there. */
    method Write(h: Hashes, bytes: seq<Byte>, weather: Weather) returns (r: Result<(Digest, Presence), PhysicalError>)
      modifies this
      ensures (store, r) == SealBytes(h, old(store), bytes, limit, weather)
    {
      if weather.FailsBefore? { return Err(Faulted(weather.fault)); }
      if |bytes| > limit { return Err(SealLimitExceeded); }
      var d := h.content(bytes);
      var presence := Created;
      if d in store {
        if h.content(store[d]) != d { return Err(StoredDigestMismatch); }
        presence := AlreadyPresentVerified;
      } else {
        store := store[d := bytes];
      }
      if weather.FailsAfter? { return Err(Faulted(weather.fault)); }
      r := Ok((d, presence));
    }

    /** One whole call; with no seam this is what the daemon's callers use. */
    method SealAndRegister(kernel: KernelStore, operation: Operation, bytes: seq<Byte>, weather: Weather, seam: Option<Seam>)
      returns (r: Result<Registration, SealingError>)
      requires kernel.Valid()
      modifies this, kernel
      ensures kernel.Valid()
      ensures (World(store, kernel.State()), r) ==
              Seal(kernel.hashes, World(old(store), old(kernel.State())), Call(operation, bytes, limit, weather, seam))
    {
      hide Sound, IdentityOf, ServiceCommand;
      ghost var call := Call(operation, bytes, limit, weather, seam);
      if kernel.hashes.content(bytes) != operation.digest { return Err(InputDigestMismatch); }
      var written := Write(kernel.hashes, bytes, weather);
      if written.Err? { return Err(Physical(written.error)); }
      var (digest, presence) := written.value;
      if digest != operation.digest { return Err(PhysicalDigestMismatch); }
      if seam == Some(PhysicalSealComplete) { return Err(Crash(PhysicalSealComplete)); }
      match IdentityOf(kernel.State(), digest) {
        case Registered(_, o) => return Ok(Registration(digest, o, presence));
        case SealReceiptOnly(receipt) =>
          r := RegisterAfterReceipt(kernel, call, operation, digest, presence, receipt, seam);
          return;
        case Absent =>
      }
      var refused := ExecuteServiceCommand(kernel, operation.recordId, RecordReceipt(digest));
      if refused.Some? { return Err(refused.value); }
      if seam == Some(ReceiptRecorded) { return Err(Crash(ReceiptRecorded)); }
      match IdentityOf(kernel.State(), digest) {
        case Registered(_, o) => r := Ok(Registration(digest, o, presence));
        case SealReceiptOnly(receipt) => r := RegisterAfterReceipt(kernel, call, operation, digest, presence, receipt, seam);
        case Absent => r := Err(ReceiptNotMaterialized);
      }
    }

    method RegisterAfterReceipt(kernel: KernelStore, ghost call: Call, operation: Operation, digest: Digest, presence: Presence, receipt: nat, seam: Option<Seam>)
      returns (r: Result<Registration, SealingError>)
      requires kernel.Valid() && call.operation == operation && call.seam == seam
      modifies kernel
      ensures kernel.Valid()
      ensures (kernel.State(), r) == RegisterReceipt(kernel.hashes, old(kernel.State()), call, digest, presence, receipt)
    {
      hide Sound, IdentityOf, ServiceCommand;
      var refused := ExecuteServiceCommand(kernel, operation.registerId, RegisterObject(receipt));
      if refused.Some? { return Err(refused.value); }
      if seam == Some(ObjectRegistered) { return Err(Crash(ObjectRegistered)); }
      match IdentityOf(kernel.State(), digest) {
        case Registered(_, o) => r := Ok(Registration(digest, o, presence));
        case _ => r := Err(ContentObjectNotMaterialized);
      }
    }

    method ExecuteServiceCommand(kernel: KernelStore, id: string, body: Body) returns (e: Option<SealingError>)
      requires kernel.Valid()
      modifies kernel
      ensures kernel.Valid()
      ensures (kernel.State(), e) == ServiceCommand(kernel.hashes, old(kernel.State()), id, body)
    {
      var c := CapabilityOf(body);
      if c !in kernel.active { return Some(KernelServiceCapabilityMissing(c)); }
      var receipt := kernel.Execute(Request(id, kernel.active[c], c, None, body));
      match receipt {
        case None => e := Some(IdempotencyConflict);
        case Some(Accepted) => e := None;
        case Some(Rejected(x)) => e := Some(KernelCommandRejected(c, x));
      }
    }
  }
}
