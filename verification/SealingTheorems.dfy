/** What sealing promises across crashes, retries, other commands and damage to the store. */
module SealingTheorems {
  import opened Wrappers
  import opened StudyVocabulary
  import opened SealingNames
  import opened Sealing

  predicate Distinct<T(==)>(s: seq<T>) {
    forall i, j :: 0 <= i < j < |s| ==> s[i] != s[j]
  }

  /** One receipt per digest, one object per receipt, and every object has its receipt. */
  predicate Sound(k: Ledger) {
    && Distinct(k.receipts) && Distinct(k.objects)
    && forall r :: r in k.objects ==> 1 <= r <= |k.receipts|
  }

  /** Rows are only ever added: to the receipts, to the objects, and to the commands. */
  predicate Grows(k: Ledger, l: Ledger) {
    && k.receipts <= l.receipts && k.objects <= l.objects
    && forall id :: id in k.commands ==> id in l.commands && l.commands[id] == k.commands[id]
  }

  lemma {:induction false} FindInPrefix<T>(x: T, s: seq<T>, t: seq<T>)
    requires s <= t && x in s
    ensures Find(x, t) == Find(x, s)
  {
    if s[0] != x { FindInPrefix(x, s[1..], t[1..]); }
  }

  lemma {:induction false} FindLast<T>(x: T, s: seq<T>)
    requires x !in s
    ensures Find(x, s + [x]) == Some(|s|)
  {
    if s != [] {
      assert (s + [x])[1..] == s[1..] + [x];
      FindLast(x, s[1..]);
    }
  }

  // ---------- what one command does ----------

  /** A service command's effect: nothing, a rejected row, or the row together with its transition. */
  lemma ServiceEffect(h: Hashes, k: Ledger, id: string, body: Body)
    requires Sound(k)
    ensures var (l, e) := ServiceCommand(h, k, id, body);
      && Sound(l) && Grows(k, l) && l.active == k.active
      && l.commands.Keys <= k.commands.Keys + {id}
      && l.receipts == (if e.None? && id !in k.commands && body.RecordReceipt? then k.receipts + [body.digest] else k.receipts)
      && l.objects == (if e.None? && id !in k.commands && body.RegisterObject? then k.objects + [body.receipt] else k.objects)
      && (CapabilityOf(body) !in k.active ==> l == k)
      && (id in k.commands ==> l == k)
      && (id !in k.commands ==> (e.None? <==> CapabilityOf(body) in k.active && Fits(k, body)))
  {
  }

  /** The transition's own conditions. */
  predicate Fits(k: Ledger, body: Body) {
    match body
    case RecordReceipt(d) => d !in k.receipts
    case RegisterObject(r) => 1 <= r <= |k.receipts| && r !in k.objects
  }

  lemma IdentityFits(k: Ledger, d: Digest)
    requires Sound(k)
    ensures IdentityOf(k, d).Absent? <==> Fits(k, RecordReceipt(d))
    ensures IdentityOf(k, d).SealReceiptOnly? ==> Fits(k, RegisterObject(IdentityOf(k, d).receipt)) && k.receipts[IdentityOf(k, d).receipt - 1] == d
    ensures IdentityOf(k, d).Registered? ==>
      var i := IdentityOf(k, d);
      1 <= i.receiptId <= |k.receipts| && k.receipts[i.receiptId - 1] == d && 1 <= i.objectId <= |k.objects| && k.objects[i.objectId - 1] == i.receiptId
  {
  }

  lemma IdentityKept(k: Ledger, l: Ledger, d: Digest)
    requires Grows(k, l)
    ensures IdentityOf(k, d).Registered? ==> IdentityOf(l, d) == IdentityOf(k, d)
    ensures IdentityOf(k, d).SealReceiptOnly? ==>
      IdentityOf(l, d) == IdentityOf(k, d) || (IdentityOf(l, d).Registered? && IdentityOf(l, d).receiptId == IdentityOf(k, d).receipt)
  {
    if d in k.receipts {
      FindInPrefix(d, k.receipts, l.receipts);
      var r := Find(d, k.receipts).value + 1;
      if r in k.objects { FindInPrefix(r, k.objects, l.objects); }
    }
  }

  /** The identity after the one row a command adds. */
  lemma IdentityAfterRecord(k: Ledger, l: Ledger, d: Digest)
    requires Sound(k) && d !in k.receipts && l.receipts == k.receipts + [d] && l.objects == k.objects
    ensures IdentityOf(l, d) == SealReceiptOnly(|l.receipts|)
  {
    FindLast(d, k.receipts);
  }

  lemma IdentityAfterRegister(k: Ledger, l: Ledger, d: Digest)
    requires IdentityOf(k, d).SealReceiptOnly? && l.receipts == k.receipts && l.objects == k.objects + [IdentityOf(k, d).receipt]
    ensures IdentityOf(l, d) == Registered(IdentityOf(k, d).receipt, |l.objects|)
  {
    FindLast(IdentityOf(k, d).receipt, k.objects);
  }

  // ---------- what one call does ----------

  lemma RegisterEffect(h: Hashes, k: Ledger, call: Call, d: Digest, presence: Presence)
    requires Sound(k) && IdentityOf(k, d).SealReceiptOnly?
    ensures var r := IdentityOf(k, d).receipt; var id := call.operation.registerId;
      var (l, result) := RegisterReceipt(h, k, call, d, presence, r);
      && Sound(l) && Grows(k, l) && l.receipts == k.receipts && l.commands.Keys <= k.commands.Keys + {id}
      && (result.Ok? <==> id !in k.commands && RegisterContentObject in k.active && call.seam != Some(ObjectRegistered))
      && (result.Ok? ==> IdentityOf(l, d) == Registered(r, result.value.objectId) && result.value.digest == d && result.value.presence == presence)
      && (id !in k.commands && id in l.commands ==> IdentityOf(l, d).Registered?)
  {
    hide ServiceCommand, IdentityOf, Sound, Grows;
    var r, id := IdentityOf(k, d).receipt, call.operation.registerId;
    ServiceEffect(h, k, id, RegisterObject(r));
    IdentityFits(k, d);
    var l := ServiceCommand(h, k, id, RegisterObject(r)).0;
    UnchangedIdentity(k, l, d);
    if id !in k.commands && RegisterContentObject in k.active { IdentityAfterRegister(k, l, d); }
  }

  lemma UnchangedIdentity(k: Ledger, l: Ledger, d: Digest)
    ensures k.receipts == l.receipts && k.objects == l.objects ==> IdentityOf(k, d) == IdentityOf(l, d)
  {
  }

  lemma RecordEffect(h: Hashes, k: Ledger, call: Call, d: Digest, presence: Presence)
    requires Sound(k) && IdentityOf(k, d).Absent?
    ensures var id, next := call.operation.recordId, call.operation.registerId;
      var (l, result) := RecordDigest(h, k, call, d, presence);
      && Sound(l) && Grows(k, l) && l.commands.Keys <= k.commands.Keys + {id, next}
      && (l.receipts == k.receipts || l.receipts == k.receipts + [d])
      && (result.Ok? <==> {id, next} !! k.commands.Keys && RecordContentSealReceipt in k.active && RegisterContentObject in k.active && call.seam !in {Some(ReceiptRecorded), Some(ObjectRegistered)})
      && (result.Ok? ==> IdentityOf(l, d).Registered? && result.value == Registration(d, IdentityOf(l, d).objectId, presence))
      && (id !in k.commands && id in l.commands ==> d in l.receipts)
      && (next !in k.commands && next in l.commands ==> IdentityOf(l, d).Registered?)
  {
    hide ServiceCommand, IdentityOf, Sound, Grows, RegisterReceipt;
    var id, next := call.operation.recordId, call.operation.registerId;
    IdsDiffer(call.operation);
    ServiceEffect(h, k, id, RecordReceipt(d));
    IdentityFits(k, d);
    var (l, e) := ServiceCommand(h, k, id, RecordReceipt(d));
    UnchangedIdentity(k, l, d);
    if e.None? && id !in k.commands {
      IdentityAfterRecord(k, l, d);
      RegisterEffect(h, l, call, d, presence);
      GrowsOn(k, l, RegisterReceipt(h, l, call, d, presence, |l.receipts|).0);
    }
  }

  lemma GrowsOn(k: Ledger, l: Ledger, m: Ledger)
    requires Grows(k, l) && Grows(l, m)
    ensures Grows(k, m)
  {
  }

  /** The bytes are the operation's, within the limit, and the store takes them and holds them intact. */
  predicate Storable(h: Hashes, store: Store, call: Call) {
    var d := call.operation.digest;
    && h.content(call.bytes) == d && |call.bytes| <= call.limit && call.weather.Fair?
    && (d in store ==> h.content(store[d]) == d)
  }

  /** What the ledger must still offer: free command identities and grants for the commands yet to run. */
  predicate Finishable(k: Ledger, call: Call) {
    match IdentityOf(k, call.operation.digest)
    case Registered(_, _) => true
    case SealReceiptOnly(_) => call.operation.registerId !in k.commands && RegisterContentObject in k.active
    case Absent =>
      && call.operation.recordId !in k.commands && call.operation.registerId !in k.commands
      && RecordContentSealReceipt in k.active && RegisterContentObject in k.active
  }

  /** The call dies at its seam: the point is reached. */
  predicate Dies(k: Ledger, call: Call) {
    match call.seam
    case None => false
    case Some(PhysicalSealComplete) => true
    case Some(ReceiptRecorded) => IdentityOf(k, call.operation.digest).Absent?
    case Some(ObjectRegistered) => !IdentityOf(k, call.operation.digest).Registered?
  }

  /** Everything about one call that later steps rely on. */
  lemma SealEffect(h: Hashes, w: World, call: Call)
    requires Sound(w.ledger)
    ensures var d := call.operation.digest; var k := w.ledger;
      var (after, result) := Seal(h, w, call); var l := after.ledger;
      && Sound(l) && Grows(k, l)
      && l.commands.Keys <= k.commands.Keys + {call.operation.recordId, call.operation.registerId}
      && (l.receipts == k.receipts || (l.receipts == k.receipts + [d] && h.content(call.bytes) == d && d in after.store && h.content(after.store[d]) == d))
      && (result.Ok? <==> Storable(h, w.store, call) && Finishable(k, call) && !Dies(k, call))
      && (result.Ok? ==> IdentityOf(l, d).Registered? && result.value.digest == d && result.value.objectId == IdentityOf(l, d).objectId)
      && (IdentityOf(k, d).Registered? || !Storable(h, w.store, call) ==> l == k)
      && (call.operation.recordId !in k.commands && call.operation.recordId in l.commands ==> d in l.receipts)
      && (call.operation.registerId !in k.commands && call.operation.registerId in l.commands ==> IdentityOf(l, d).Registered?)
  {
    hide RegisterReceipt, RecordDigest, IdentityOf, Sound, Grows;
    var d, k := call.operation.digest, w.ledger;
    IdsDiffer(call.operation);
    IdentityFits(k, d);
    GrowsItself(k);
    var sealed := SealBytes(h, w.store, call.bytes, call.limit, call.weather).1;
    if sealed.Ok? && sealed.value.0 == d && call.seam != Some(PhysicalSealComplete) {
      match IdentityOf(k, d)
      case Registered(_, _) =>
      case SealReceiptOnly(r) =>
        RegisterEffect(h, k, call, d, sealed.value.1);
      case Absent =>
        RecordEffect(h, k, call, d, sealed.value.1);
    }
  }

  lemma GrowsItself(k: Ledger)
    ensures Grows(k, k)
  {
  }

  // ---------- runs ----------

  lemma NextGrows(h: Hashes, w: World, step: Step)
    requires Sound(w.ledger)
    ensures Sound(Next(h, w, step).ledger) && Grows(w.ledger, Next(h, w, step).ledger)
  {
    hide Seal;
    if step.Sealing? { SealEffect(h, w, step.call); }
  }

  /** Over every run the receipts' digests are distinct and so are the objects' receipts. */
  lemma {:induction false} OneIdentity(h: Hashes, steps: seq<Step>)
    ensures Sound(Run(h, steps).ledger)
  {
    if steps != [] {
      OneIdentity(h, steps[..|steps| - 1]);
      NextGrows(h, Run(h, steps[..|steps| - 1]), steps[|steps| - 1]);
    }
  }

  lemma {:induction false} RunGrows(h: Hashes, steps: seq<Step>, more: seq<Step>)
    ensures Grows(Run(h, steps).ledger, Run(h, steps + more).ledger)
  {
    if more == [] {
      assert steps + more == steps;
    } else {
      var all, n := steps + more, |more| - 1;
      assert all[..|all| - 1] == steps + more[..n];
      RunGrows(h, steps, more[..n]);
      OneIdentity(h, steps + more[..n]);
      NextGrows(h, Run(h, steps + more[..n]), more[n]);
    }
  }

  /** A digest that has its object keeps both identities whatever follows. */
  lemma IdentityIsForever(h: Hashes, steps: seq<Step>, more: seq<Step>, d: Digest)
    requires IdentityOf(Run(h, steps).ledger, d).Registered?
    ensures IdentityOf(Run(h, steps + more).ledger, d) == IdentityOf(Run(h, steps).ledger, d)
  {
    hide IdentityOf, Run;
    RunGrows(h, steps, more);
    IdentityKept(Run(h, steps).ledger, Run(h, steps + more).ledger, d);
  }

  /** The step is a call that first recorded the digest, with its bytes intact in the store. */
  ghost predicate SealedAt(h: Hashes, steps: seq<Step>, i: nat, d: Digest)
    requires i < |steps|
  {
    && d !in Run(h, steps[..i]).ledger.receipts && d in Run(h, steps[..i + 1]).ledger.receipts
    && steps[i].Sealing? && steps[i].call.operation.digest == d && h.content(steps[i].call.bytes) == d
    && d in Run(h, steps[..i + 1]).store && h.content(Run(h, steps[..i + 1]).store[d]) == d
  }

  lemma SealedNow(h: Hashes, steps: seq<Step>, d: Digest)
    requires steps != [] && d in Run(h, steps).ledger.receipts && d !in Run(h, steps[..|steps| - 1]).ledger.receipts
    ensures SealedAt(h, steps, |steps| - 1, d)
  {
    hide Seal, Sound;
    var n := |steps| - 1;
    var w := Run(h, steps[..n]);
    assert steps[..n + 1] == steps;
    OneIdentity(h, steps[..n]);
    if steps[n].Sealing? { SealEffect(h, w, steps[n].call); }
  }

  lemma SealedAtInLonger(h: Hashes, steps: seq<Step>, i: nat, d: Digest)
    requires i < |steps| - 1 && SealedAt(h, steps[..|steps| - 1], i, d)
    ensures SealedAt(h, steps, i, d)
  {
    hide Run;
    var before := steps[..|steps| - 1];
    assert before[..i] == steps[..i] && before[..i + 1] == steps[..i + 1];
  }

  /** Whatever the kernel attests was in the physical store, verified, when it was recorded. */
  lemma {:induction false} SealedFirst(h: Hashes, steps: seq<Step>, d: Digest)
    requires d in Run(h, steps).ledger.receipts
    ensures exists i :: 0 <= i < |steps| && SealedAt(h, steps, i, d)
  {
    hide Next, SealedAt;
    if d in Run(h, steps[..|steps| - 1]).ledger.receipts {
      SealedFirst(h, steps[..|steps| - 1], d);
      var i :| 0 <= i < |steps| - 1 && SealedAt(h, steps[..|steps| - 1], i, d);
      SealedAtInLonger(h, steps, i, d);
    } else {
      SealedNow(h, steps, d);
    }
  }

  /**
   * When a call succeeds, in any reachable state and with any crash seam: exactly when the bytes can be
   * stored, the commands still needed have free identities and grants, and the seam is not reached.
   */
  lemma CallSucceeds(h: Hashes, steps: seq<Step>, call: Call)
    ensures var w := Run(h, steps); var d := call.operation.digest;
      var (after, result) := Seal(h, w, call);
      && (result.Ok? <==> Storable(h, w.store, call) && Finishable(w.ledger, call) && !Dies(w.ledger, call))
      && (result.Ok? ==> IdentityOf(after.ledger, d).Registered? && result.value.objectId == IdentityOf(after.ledger, d).objectId)
      && after.ledger.commands.Keys <= w.ledger.commands.Keys + {call.operation.recordId, call.operation.registerId}
  {
    hide Seal, Run;
    OneIdentity(h, steps);
    SealEffect(h, Run(h, steps), call);
  }

  /** The command identity is taken by a request with another fingerprint. */
  predicate Held(h: Hashes, k: Ledger, q: Request) {
    q.id in k.commands && k.commands[q.id].fingerprint != h.request(q)
  }

  /** The next command the call needs is held by another request; after a fresh receipt that is the second one. */
  predicate ConflictsAhead(h: Hashes, k: Ledger, call: Call) {
    var o := call.operation;
    match IdentityOf(k, o.digest)
    case Registered(_, _) => false
    case SealReceiptOnly(r) => RegisterContentObject in k.active && Held(h, k, RequestFor(k, o.registerId, RegisterObject(r)))
    case Absent =>
      && RecordContentSealReceipt in k.active
      && (Held(h, k, RequestFor(k, o.recordId, RecordReceipt(o.digest)))
          || (o.recordId !in k.commands && call.seam != Some(ReceiptRecorded) && RegisterContentObject in k.active
              && Held(h, k, RequestFor(k, o.registerId, RegisterObject(|k.receipts| + 1)))))
  }

  lemma CommandConflicts(h: Hashes, k: Ledger, id: string, body: Body)
    ensures ServiceCommand(h, k, id, body).1 == Some(IdempotencyConflict) <==> CapabilityOf(body) in k.active && Held(h, k, RequestFor(k, id, body))
  {
  }

  lemma RegisterConflicts(h: Hashes, k: Ledger, call: Call, d: Digest, presence: Presence, receipt: nat)
    ensures RegisterReceipt(h, k, call, d, presence, receipt).1 == Err(IdempotencyConflict)
      <==> RegisterContentObject in k.active && Held(h, k, RequestFor(k, call.operation.registerId, RegisterObject(receipt)))
  {
    hide ServiceCommand, IdentityOf, Held;
    CommandConflicts(h, k, call.operation.registerId, RegisterObject(receipt));
  }

  /** The fresh receipt leaves the register identity as it was. */
  lemma RecordedFresh(h: Hashes, k: Ledger, call: Call)
    requires Sound(k) && IdentityOf(k, call.operation.digest).Absent?
    requires call.operation.recordId !in k.commands && RecordContentSealReceipt in k.active
    ensures var o := call.operation; var (l, e) := ServiceCommand(h, k, o.recordId, RecordReceipt(o.digest));
      && e.None? && IdentityOf(l, o.digest) == SealReceiptOnly(|k.receipts| + 1) && l.active == k.active
      && (RegisterContentObject in k.active ==>
            (Held(h, l, RequestFor(l, o.registerId, RegisterObject(|k.receipts| + 1))) <==> Held(h, k, RequestFor(k, o.registerId, RegisterObject(|k.receipts| + 1)))))
  {
    hide IdentityOf, Sound;
    var o := call.operation;
    IdsDiffer(o);
    IdentityFits(k, o.digest);
    ServiceEffect(h, k, o.recordId, RecordReceipt(o.digest));
    IdentityAfterRecord(k, ServiceCommand(h, k, o.recordId, RecordReceipt(o.digest)).0, o.digest);
  }

  lemma RecordConflicts(h: Hashes, k: Ledger, call: Call, presence: Presence)
    requires Sound(k) && IdentityOf(k, call.operation.digest).Absent?
    ensures RecordDigest(h, k, call, call.operation.digest, presence).1 == Err(IdempotencyConflict) <==> ConflictsAhead(h, k, call)
  {
    hide ServiceCommand, IdentityOf, Sound, Held, RegisterReceipt, Grows;
    var o := call.operation;
    CommandConflicts(h, k, o.recordId, RecordReceipt(o.digest));
    ServiceEffect(h, k, o.recordId, RecordReceipt(o.digest));
    var l := ServiceCommand(h, k, o.recordId, RecordReceipt(o.digest)).0;
    if o.recordId in k.commands {
      HeldIsTaken(h, k, o.recordId, RecordReceipt(o.digest));
    } else if RecordContentSealReceipt in k.active {
      RecordedFresh(h, k, call);
      RegisterConflicts(h, l, call, o.digest, presence, |k.receipts| + 1);
      NotHeld(h, k, o.recordId, RecordReceipt(o.digest));
    }
  }

  lemma HeldIsTaken(h: Hashes, k: Ledger, id: string, body: Body)
    requires id in k.commands
    ensures ServiceCommand(h, k, id, body).0 == k
  {
  }

  lemma NotHeld(h: Hashes, k: Ledger, id: string, body: Body)
    requires id !in k.commands && CapabilityOf(body) in k.active
    ensures !Held(h, k, RequestFor(k, id, body))
  {
  }

  /**
   * When a call is answered with an idempotency conflict, in any reachable state: exactly when the bytes are
   * stored and the next command it needs has its grant but not its identity.
   */
  lemma ConflictsExactly(h: Hashes, steps: seq<Step>, call: Call)
    ensures var w := Run(h, steps);
      Seal(h, w, call).1 == Err(IdempotencyConflict) <==>
        Storable(h, w.store, call) && call.seam != Some(PhysicalSealComplete) && ConflictsAhead(h, w.ledger, call)
  {
    hide Run, RegisterReceipt, RecordDigest, IdentityOf, Sound, Held;
    OneIdentity(h, steps);
    var w := Run(h, steps);
    var sealed := SealBytes(h, w.store, call.bytes, call.limit, call.weather).1;
    if sealed.Ok? && sealed.value.0 == call.operation.digest && call.seam != Some(PhysicalSealComplete) {
      match IdentityOf(w.ledger, call.operation.digest)
      case Registered(_, _) =>
      case SealReceiptOnly(r) => RegisterConflicts(h, w.ledger, call, call.operation.digest, sealed.value.1, r);
      case Absent => RecordConflicts(h, w.ledger, call, sealed.value.1);
    }
  }

  /** Once a call has returned an object, every later success for the digest returns the same and runs no command. */
  lemma RetryReturnsTheSame(h: Hashes, steps: seq<Step>, first: Call, more: seq<Step>, again: Call)
    requires Seal(h, Run(h, steps), first).1.Ok? && again.operation.digest == first.operation.digest
    ensures var w := Run(h, steps + [Sealing(first)] + more);
      var (after, result) := Seal(h, w, again);
      && after.ledger == w.ledger
      && (result.Ok? <==> Storable(h, w.store, again) && again.seam != Some(PhysicalSealComplete))
      && (result.Ok? ==> result.value.objectId == Seal(h, Run(h, steps), first).1.value.objectId)
  {
    hide Seal, IdentityOf;
    var sealed := steps + [Sealing(first)];
    assert sealed[..|sealed| - 1] == steps;
    CallSucceeds(h, steps, first);
    IdentityIsForever(h, sealed, more, first.operation.digest);
    OneIdentity(h, sealed + more);
    SealEffect(h, Run(h, sealed + more), again);
  }

  // ---------- one digest per label ----------

  /** Labels are used for the digest assigned to them, and nobody else uses the sealing command names. */
  ghost predicate Follows(step: Step, assign: string -> Digest) {
    match step
    case Sealing(call) => exists name :: Parse(name, assign(name)) == Ok(call.operation)
    case OtherCommand(id, _) => !(PREFIX <= id)
    case _ => true
  }

  /** A used command identity has done its work for its label's digest. */
  ghost predicate WorkDone(k: Ledger, assign: string -> Digest) {
    forall name: string ::
      && (RecordId(name) in k.commands ==> assign(name) in k.receipts)
      && (RegisterId(name) in k.commands ==> IdentityOf(k, assign(name)).Registered?)
  }

  lemma NamesHavePrefix(name: string)
    ensures PREFIX <= RecordId(name) && PREFIX <= RegisterId(name)
  {
    assert RecordId(name) == PREFIX + (name + RECORD_SUFFIX) && RegisterId(name) == PREFIX + (name + REGISTER_SUFFIX);
  }

  lemma WorkKept(h: Hashes, w: World, step: Step, assign: string -> Digest)
    requires Sound(w.ledger) && WorkDone(w.ledger, assign) && Follows(step, assign)
    ensures WorkDone(Next(h, w, step).ledger, assign)
  {
    hide Seal, IdentityOf, Sound, RecordId, RegisterId, Parse;
    var k, l := w.ledger, Next(h, w, step).ledger;
    NextGrows(h, w, step);
    if step.Sealing? { SealEffect(h, w, step.call); }
    forall name: string
      ensures RecordId(name) in l.commands ==> assign(name) in l.receipts
      ensures RegisterId(name) in l.commands ==> IdentityOf(l, assign(name)).Registered?
    {
      NamesHavePrefix(name);
      IdentityKept(k, l, assign(name));
      if step.Sealing? {
        var used :| Parse(used, assign(used)) == Ok(step.call.operation);
        ParsedFields(used, assign(used), step.call.operation);
        IdsKeepTheLabel(name, used);
        IdsKeepTheLabel(used, name);
      }
    }
  }

  lemma ParsedFields(name: string, d: Digest, o: Operation)
    requires Parse(name, d) == Ok(o)
    ensures o.digest == d && o.recordId == RecordId(name) && o.registerId == RegisterId(name)
  {
  }

  lemma {:induction false} WorkAlwaysDone(h: Hashes, steps: seq<Step>, assign: string -> Digest)
    requires forall s :: s in steps ==> Follows(s, assign)
    ensures WorkDone(Run(h, steps).ledger, assign)
  {
    if steps != [] {
      WorkAlwaysDone(h, steps[..|steps| - 1], assign);
      OneIdentity(h, steps[..|steps| - 1]);
      WorkKept(h, Run(h, steps[..|steps| - 1]), steps[|steps| - 1], assign);
    }
  }

  /**
   * While every label is used for one digest only, no sequence of crashes leaves a digest stuck: a call
   * that reaches no seam succeeds as soon as the bytes can be stored and the grants are there.
   */
  lemma CrashesConverge(h: Hashes, steps: seq<Step>, assign: string -> Digest, call: Call)
    requires forall s :: s in steps + [Sealing(call)] ==> Follows(s, assign)
    requires Storable(h, Run(h, steps).store, call) && call.seam.None?
    requires {RecordContentSealReceipt, RegisterContentObject} <= Run(h, steps).ledger.active.Keys
    ensures var w := Run(h, steps); var (after, result) := Seal(h, w, call);
      && result.Ok? && IdentityOf(after.ledger, call.operation.digest).Registered?
      && result.value.objectId == IdentityOf(after.ledger, call.operation.digest).objectId
      && after.ledger.commands.Keys <= w.ledger.commands.Keys + {call.operation.recordId, call.operation.registerId}
  {
    hide Seal, Run, IdentityOf, Sound, RecordId, RegisterId, Parse;
    assert Follows(Sealing(call), assign) by { assert (steps + [Sealing(call)])[|steps|] == Sealing(call); }
    assert forall s :: s in steps ==> s in steps + [Sealing(call)];
    WorkAlwaysDone(h, steps, assign);
    OneIdentity(h, steps);
    CallSucceeds(h, steps, call);
    var name :| Parse(name, assign(name)) == Ok(call.operation);
    ParsedFields(name, assign(name), call.operation);
    IdentityFits(Run(h, steps).ledger, call.operation.digest);
  }

  // ---------- a label used for two digests ----------

  /** A call that dies right after the receipt leaves just that: the receipt and its command. */
  lemma DiesAfterReceipt(h: Hashes, w: World, call: Call)
    requires Sound(w.ledger) && Storable(h, w.store, call) && IdentityOf(w.ledger, call.operation.digest).Absent?
    requires call.operation.recordId !in w.ledger.commands && RecordContentSealReceipt in w.ledger.active
    requires call.seam == Some(ReceiptRecorded)
    ensures var l := Seal(h, w, call).0.ledger;
      && l.receipts == w.ledger.receipts + [call.operation.digest] && l.objects == w.ledger.objects && l.active == w.ledger.active
      && l.commands.Keys == w.ledger.commands.Keys + {call.operation.recordId}
    ensures Seal(h, w, call).0.store == w.store[call.operation.digest := if call.operation.digest in w.store then w.store[call.operation.digest] else call.bytes]
  {
    hide ServiceCommand, IdentityOf, Sound;
    var d := call.operation.digest;
    IdentityFits(w.ledger, d);
    ServiceEffect(h, w.ledger, call.operation.recordId, RecordReceipt(d));
    CommandStored(h, w.ledger, call.operation.recordId, RecordReceipt(d));
  }

  lemma CommandStored(h: Hashes, k: Ledger, id: string, body: Body)
    requires CapabilityOf(body) in k.active
    ensures id in ServiceCommand(h, k, id, body).0.commands
    ensures id !in k.commands && ServiceCommand(h, k, id, body).1.None? ==>
      ServiceCommand(h, k, id, body).0.commands[id] == Row(h.request(RequestFor(k, id, body)), Accepted)
  {
  }

  /** A call that finds the receipt and registers its object leaves just that. */
  lemma FinishesReceipt(h: Hashes, w: World, call: Call)
    requires Sound(w.ledger) && Storable(h, w.store, call) && IdentityOf(w.ledger, call.operation.digest).SealReceiptOnly?
    requires call.operation.registerId !in w.ledger.commands && RegisterContentObject in w.ledger.active && call.seam.None?
    ensures var l := Seal(h, w, call).0.ledger;
      && l.receipts == w.ledger.receipts && l.objects == w.ledger.objects + [IdentityOf(w.ledger, call.operation.digest).receipt]
      && l.active == w.ledger.active && call.operation.registerId in l.commands
      && l.commands[call.operation.registerId] == Row(
           h.request(RequestFor(w.ledger, call.operation.registerId, RegisterObject(IdentityOf(w.ledger, call.operation.digest).receipt))), Accepted)
  {
    hide ServiceCommand, IdentityOf, Sound;
    var r := IdentityOf(w.ledger, call.operation.digest).receipt;
    IdentityFits(w.ledger, call.operation.digest);
    ServiceEffect(h, w.ledger, call.operation.registerId, RegisterObject(r));
    CommandStored(h, w.ledger, call.operation.registerId, RegisterObject(r));
  }

  lemma IdsApart(one: Operation, two: Operation)
    ensures one.registerId != two.recordId
  {
    var m :| Parse(m, one.digest) == Ok(one);
    var n :| Parse(n, two.digest) == Ok(two);
    IdsKeepTheLabel(n, m);
  }

  /** The world where the operations of two labels have each died after their receipt. */
  predicate TwoReceipts(w: World, one: Operation, two: Operation, a: seq<Byte>, b: seq<Byte>, grants: map<Capability, Id>) {
    && Sound(w.ledger) && w.ledger.receipts == [one.digest, two.digest] && w.ledger.objects == []
    && w.ledger.commands.Keys == {one.recordId, two.recordId}
    && w.ledger.active == grants
    && w.store == map[one.digest := a, two.digest := b]
  }

  lemma BothDie(h: Hashes, one: Call, two: Call, grants: map<Capability, Id>)
    requires one.seam == Some(ReceiptRecorded) == two.seam && one.weather.Fair? && two.weather.Fair?
    requires |one.bytes| <= one.limit && |two.bytes| <= two.limit
    requires h.content(one.bytes) == one.operation.digest != two.operation.digest == h.content(two.bytes)
    requires one.operation.recordId != two.operation.recordId
    requires {RecordContentSealReceipt, RegisterContentObject} <= grants.Keys
    ensures TwoReceipts(Run(h, [Grants(grants, {}), Sealing(one), Sealing(two)]), one.operation, two.operation, one.bytes, two.bytes, grants)
  {
    hide Seal;
    var s0, s1, s2: seq<Step> := [Grants(grants, {})], [Grants(grants, {}), Sealing(one)], [Grants(grants, {}), Sealing(one), Sealing(two)];
    assert s0[..0] == [] && s1[..1] == s0 && s2[..2] == s1;
    assert Run(h, s0) == World(map[], EMPTY_LEDGER.(active := grants));
    DiesAfterReceipt(h, Run(h, s0), one);
    OneIdentity(h, s1);
    assert Run(h, s1) == Seal(h, Run(h, s0), one).0;
    DiesAfterReceipt(h, Run(h, s1), two);
    OneIdentity(h, s2);
  }

  lemma TwoIdentities(k: Ledger, a: Digest, b: Digest)
    requires k.receipts == [a, b] && a != b
    ensures k.objects == [] ==> IdentityOf(k, b) == SealReceiptOnly(2)
    ensures k.objects == [2] ==> IdentityOf(k, a) == SealReceiptOnly(1)
  {
    assert k.receipts[..1] == [a];
  }

  lemma LastStep(h: Hashes, steps: seq<Step>, step: Step)
    ensures Run(h, steps + [step]) == Next(h, Run(h, steps), step)
  {
    assert (steps + [step])[..|steps|] == steps;
  }

  /** A call whose bytes are already there leaves the store alone. */
  lemma StoreKept(h: Hashes, w: World, call: Call)
    requires call.operation.digest in w.store && h.content(call.bytes) == call.operation.digest
    ensures Seal(h, w, call).0.store == w.store
  {
    hide RegisterReceipt, RecordDigest, IdentityOf;
  }

  /** What the label's register command asks for, once for the other digest's receipt and once for its own. */
  function ReuseRequest(one: Call, grants: map<Capability, Id>, receipt: nat): Request
    requires RegisterContentObject in grants
  {
    Request(one.operation.registerId, grants[RegisterContentObject], RegisterContentObject, None, RegisterObject(receipt))
  }

  /** A register identity already accepted for another receipt: a conflict, or a replay that materialises nothing. */
  lemma BlockedRegister(h: Hashes, w: World, call: Call, other: Request)
    requires Storable(h, w.store, call) && call.seam.None? && IdentityOf(w.ledger, call.operation.digest).SealReceiptOnly?
    requires RegisterContentObject in w.ledger.active && call.operation.registerId in w.ledger.commands
    requires w.ledger.commands[call.operation.registerId] == Row(h.request(other), Accepted)
    ensures var r := IdentityOf(w.ledger, call.operation.digest).receipt;
      Seal(h, w, call).1 == Err(if h.request(other) != h.request(RequestFor(w.ledger, call.operation.registerId, RegisterObject(r)))
                                then IdempotencyConflict else ContentObjectNotMaterialized)
  {
    hide IdentityOf, Sound;
  }

  /**
   * A label reused for other bytes need not conflict. Two operations die after their receipts; then the
   * first label registers the second's object, and its own digest cannot be finished under it any more.
   */
  lemma ReusedLabel(h: Hashes, one: Call, two: Call, reuse: Call, retry: Call, grants: map<Capability, Id>)
    requires one.seam == Some(ReceiptRecorded) == two.seam && reuse.seam == None == retry.seam
    requires forall c :: c in [one, two, reuse, retry] ==> c.weather.Fair? && |c.bytes| <= c.limit && h.content(c.bytes) == c.operation.digest
    requires one.operation.digest != two.operation.digest && one.operation.recordId != two.operation.recordId
    requires retry.operation == one.operation && reuse.operation.digest == two.operation.digest
    requires reuse.operation.recordId == one.operation.recordId && reuse.operation.registerId == one.operation.registerId
    requires {RecordContentSealReceipt, RegisterContentObject} <= grants.Keys
    ensures var steps := [Grants(grants, {}), Sealing(one), Sealing(two)];
      && Seal(h, Run(h, steps), reuse).1.Ok?
      && Seal(h, Run(h, steps + [Sealing(reuse)]), retry).1
           == Err(if h.request(ReuseRequest(one, grants, 2)) != h.request(ReuseRequest(one, grants, 1)) then IdempotencyConflict else ContentObjectNotMaterialized)
  {
    hide Seal, Run, IdentityOf, Sound, Grows, Named;
    var steps := [Grants(grants, {}), Sealing(one), Sealing(two)];
    assert one in [one, two, reuse, retry] && two in [one, two, reuse, retry] && reuse in [one, two, reuse, retry] && retry in [one, two, reuse, retry];
    BothDie(h, one, two, grants);
    IdsApart(one.operation, two.operation);
    IdsDiffer(one.operation);
    var w := Run(h, steps);
    TwoIdentities(w.ledger, one.operation.digest, two.operation.digest);
    CallSucceeds(h, steps, reuse);
    FinishesReceipt(h, w, reuse);
    LastStep(h, steps, Sealing(reuse));
    var after := Seal(h, w, reuse).0;
    TwoIdentities(after.ledger, one.operation.digest, two.operation.digest);
    CallSucceeds(h, steps + [Sealing(reuse)], retry);
    StoreKept(h, w, reuse);
    BlockedRegister(h, after, retry, ReuseRequest(one, grants, 2));
  }
}
