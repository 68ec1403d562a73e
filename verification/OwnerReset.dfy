/**
 Handing a device to a new owner: a durable latch, any number of clear callbacks, and
 the gate that keeps networking off until one pass over all of them has succeeded.
 */
module OwnerReset {
  /** The latch byte in its own namespace; a value above 1 is damage. */
  datatype Latch = Absent | Stored(value: nat)

  datatype Result = Unchecked | NoResetNeeded | Completed | Pending | StorageError

  datatype Value = Text(text: string) | Number(number: nat) | Flag(flag: bool)

  /** The owner namespace's keys, and those of any other one. */
  datatype Key =
    | OwnerDevice | OwnerName | WifiSsid | WifiPassword | OtaPassword | UploadHost | UploadPort | UploadProtocol
    | MqttUser | MqttPassword | CloudflareId | CloudflareSecret | AppToken | AppSubject | ProvisionedAt
    | RemoteManagement | Ready
    | OtherKey(name: string)

  /** One namespace of credentials. */
  type Namespace = map<Key, Value>

  /** The reset has been requested durably and is not finished. */
  predicate Latched(latch: Latch)
  {
    latch == Stored(1)
  }

  /** What reading the latch gave last. */
  datatype Reading = NoReading | Reading(pending: bool)

  /** Absent, or one of the two values written. */
  predicate Readable(latch: Latch)
  {
    latch.Absent? || latch.value <= 1
  }

  /** Readably not requested. */
  predicate Unlatched(latch: Latch)
  {
    latch.Absent? || latch == Stored(0)
  }

  ghost predicate AllClear(stores: seq<Namespace>)
  {
    forall i | 0 <= i < |stores| :: stores[i] == map[]
  }

  /** Some entries of each namespace are gone, none is new or changed. */
  ghost predicate Erased(a: seq<Namespace>, b: seq<Namespace>)
  {
    |a| == |b| && forall i, k | 0 <= i < |a| && k in b[i] :: k in a[i] && b[i][k] == a[i][k]
  }

  lemma ErasedChain(a: seq<Namespace>, b: seq<Namespace>, c: seq<Namespace>)
    requires Erased(a, b) && Erased(b, c)
    ensures Erased(a, c)
  {
  }

  /**
   What a pass of the reset leaves, wherever it stops: the latch, or nothing left to clear.
   */
  ghost predicate Guarded(latch: Latch, stores: seq<Namespace>)
  {
    Latched(latch) || AllClear(stores)
  }

  /** The non-volatile storage: latch, credential namespaces, factory revision. */
  class Vault {
    var latch: Latch
    var stores: seq<Namespace>
    var revision: string
    var powered: bool
    /** No step fails and power never goes: what operations then achieve is stated too. */
    const reliable: bool
    /** How many clear callbacks have been called. */
    ghost var attempts: nat
    /** How many of them have failed, what has been marked successfully, and the last reading of the latch. */
    ghost var failures: nat
    ghost var marks: seq<bool>
    ghost var reading: Reading
    /** The owner namespace is open for writing; how often it has been opened or tried. */
    ghost var writable: bool
    ghost var opens: nat

    constructor (latch: Latch, stores: seq<Namespace>, revision: string, reliable: bool)
      ensures this.latch == latch && this.stores == stores && this.revision == revision && powered &&
              this.reliable == reliable
    {
      this.reliable := reliable;
      this.latch, this.stores, this.revision, powered, attempts := latch, stores, revision, true, 0;
      failures, marks, reading, writable, opens := 0, [], NoReading, false, 0;
    }

    /** Power is back; what is stored is what the cut left. */
    method Restart()
      modifies this`powered
      ensures powered
    {
      powered := true;
    }

    /** Power may go before or after a step. */
    method Cut() returns (before: bool, after: bool)
      modifies this`powered
      ensures powered == (old(powered) && !before && !after) && (!old(powered) ==> before)
      ensures reliable && old(powered) ==> powered
    {
      before, after := *, *;
      before, after := (before && !reliable) || !powered, after && !reliable;
      powered := powered && !before && !after;
    }

    /** Opening a namespace for writing may fail. */
    method Open() returns (ok: bool)
      modifies this`writable, this`opens
      ensures ok == writable && (ok ==> powered) && opens == old(opens) + 1
      ensures reliable && powered ==> ok
    {
      ok := *;
      ok := powered && (ok || reliable);
      writable, opens := ok, opens + 1;
    }

    /** A read may fail; a damaged latch is an error, an absent one means no reset. */
    method GetPending() returns (ok: bool, pending: bool)
      modifies this`reading
      ensures ok ==> powered && pending == Latched(latch) && Readable(latch)
      ensures reading == if ok then Reading(pending) else NoReading
      ensures reliable && powered && Readable(latch) ==> ok
    {
      ok, pending := *, Latched(latch);
      ok := ok || reliable;
      if !powered || !Readable(latch) {
        ok := false;
      }
      reading := if ok then Reading(pending) else NoReading;
    }

    /** A reported success is durable; a failure may or may not be. */
    method MarkPending(pending: bool) returns (ok: bool)
      modifies this`latch, this`powered, this`marks
      ensures powered ==> old(powered)
      ensures marks == old(marks) + if ok then [pending] else []
      ensures latch == old(latch) || latch == Stored(if pending then 1 else 0)
      ensures ok ==> powered && latch == Stored(if pending then 1 else 0)
      ensures !old(powered) ==> latch == old(latch)
      ensures reliable && old(powered) ==> ok
    {
      var before, after := Cut();
      var written: bool := *;
      ok := *;
      ok := ok || reliable;
      if before || !(written || reliable) {
        return false;
      }
      latch := Stored(if pending then 1 else 0);
      ok := ok && !after;
      if ok {
        marks := marks + [pending];
      }
    }

    /** Clear one namespace. Interrupted or failing, it may have removed any part of it. */
    method Clear(i: nat) returns (ok: bool)
      requires i < |stores|
      modifies this`stores, this`powered, this`attempts, this`failures
      ensures attempts == old(attempts) + 1 && failures == old(failures) + if ok then 0 else 1
      ensures powered ==> old(powered)
      ensures Erased(old(stores), stores) && forall j | 0 <= j < |stores| && j != i :: stores[j] == old(stores)[j]
      ensures ok ==> powered && stores[i] == map[]
      ensures !old(powered) ==> stores == old(stores)
      ensures reliable && old(powered) ==> ok
    {
      var before, after := Cut();
      attempts := attempts + 1;
      if before {
        failures := failures + 1;
        return false;
      }
      var left: Namespace := *;
      ok := *;
      ok := ok || reliable;
      if ok && !after {
        stores := stores[i := map[]];
      } else {
        ok := false;
        failures := failures + 1;
        stores := stores[i := map k | k in stores[i] && k in left :: stores[i][k]];
      }
    }

    /** Write one key of the first namespace. With power on, a failed write has no effect. */
    method Put(key: Key, value: Value) returns (ok: bool)
      requires |stores| > 0 && writable
      modifies this`stores, this`powered
      ensures powered ==> old(powered)
      ensures stores == old(stores) || stores == old(stores)[0 := old(stores)[0][key := value]]
      ensures ok ==> powered && stores == old(stores)[0 := old(stores)[0][key := value]]
      ensures !ok && powered ==> stores == old(stores)
      ensures reliable && old(powered) ==> ok
    {
      var before, after := Cut();
      ok := *;
      if before || !(ok || reliable) {
        return false;
      }
      stores := stores[0 := stores[0][key := value]];
      ok := !after;
    }

    method PutRevision(value: string) returns (ok: bool)
      modifies this`revision, this`powered
      ensures powered ==> old(powered)
      ensures revision == old(revision) || revision == value
      ensures ok ==> powered && revision == value
      ensures reliable && old(powered) ==> ok
    {
      var before, after := Cut();
      ok := *;
      if before || !(ok || reliable) {
        return false;
      }
      revision := value;
      ok := !after;
    }
  }

  class Coordinator {
    var result: Result
    var requested: bool

    constructor ()
      ensures result == Unchecked && !requested
    {
      result, requested := Unchecked, false;
    }

    predicate NetworkAllowed()
      reads this
    {
      result == NoResetNeeded || result == Completed
    }

    /**
     At boot. Networking is allowed only if no reset was pending or requested, or if this very
     call has cleared every store and verified the latch clear.
     */
    method Resume(vault: Vault) returns (r: Result)
      modifies this, vault`latch, vault`stores, vault`powered, vault`attempts, vault`failures, vault`marks,
        vault`reading
      ensures vault.powered ==> old(vault.powered)
      ensures r == result && r != Unchecked && (r == Pending <==> vault.failures > old(vault.failures))
      ensures r == NoResetNeeded ==> vault.reading == Reading(false) && vault.attempts == old(vault.attempts)
      ensures old(Readable(vault.latch)) ==> Readable(vault.latch)
      ensures NetworkAllowed() ==> vault.powered && Unlatched(vault.latch)
      ensures NetworkAllowed() && (old(Latched(vault.latch)) || old(requested)) ==>
        AllClear(vault.stores) && result == Completed
      ensures old(Latched(vault.latch)) ==> Guarded(vault.latch, vault.stores)
      ensures Erased(old(vault.stores), vault.stores)
      ensures old(!Latched(vault.latch) && !requested) ==>
        vault.stores == old(vault.stores) && vault.latch == old(vault.latch)
      ensures old(requested) && !NetworkAllowed() ==> requested
      ensures vault.reliable && old(vault.powered && Readable(vault.latch)) ==>
        NetworkAllowed()
    {
      result := Unchecked;
      var ok, pending := vault.GetPending();
      if !ok {
        result := StorageError;
        return result;
      }
      if !pending {
        if requested {
          r := Request(vault);
          return;
        }
        result := NoResetNeeded;
        return result;
      }
      r := Finish(vault);
    }

    /**
     The owner asks for a reset. Nothing is cleared before the request is durable; from then
     on, wherever this stops, the latch stays or nothing is left to clear.
     */
    method Request(vault: Vault) returns (r: Result)
      modifies this, vault`latch, vault`stores, vault`powered, vault`attempts, vault`failures, vault`marks,
        vault`reading
      ensures vault.powered ==> old(vault.powered)
      ensures r == result && (r == Completed || r == Pending || r == StorageError)
      ensures r == Completed ==> vault.powered && vault.latch == Stored(0) && AllClear(vault.stores) && !requested
      ensures r != Completed ==> requested
      ensures vault.attempts != old(vault.attempts) ==> old(vault.marks) + [true] <= vault.marks
      ensures r == Completed ==> vault.marks == old(vault.marks) + [true, false] && vault.reading == Reading(false)
      ensures r == Pending <==> vault.failures > old(vault.failures)
      ensures old(Readable(vault.latch)) ==> Readable(vault.latch)
      ensures Guarded(vault.latch, vault.stores) ||
              (vault.stores == old(vault.stores) && vault.latch == old(vault.latch))
      ensures Erased(old(vault.stores), vault.stores)
      ensures vault.reliable && old(vault.powered) ==> r == Completed
    {
      result, requested := Pending, true;
      var ok := vault.MarkPending(true);
      if !ok {
        result := StorageError;
        return result;
      }
      var readable, pending := vault.GetPending();
      if !readable || !pending {
        result := StorageError;
        return result;
      }
      r := Finish(vault);
    }

    /** Every callback is tried, even after a failure; only if all succeed is the latch withdrawn. */
    method Finish(vault: Vault) returns (r: Result)
      requires Latched(vault.latch) && vault.reading == Reading(true)
      modifies this, vault`latch, vault`stores, vault`powered, vault`attempts, vault`failures, vault`marks,
        vault`reading
      ensures vault.powered ==> old(vault.powered)
      ensures r == result && (r == Completed || r == Pending || r == StorageError)
      ensures r == Completed ==> vault.powered && vault.latch == Stored(0) && AllClear(vault.stores) && !requested
      ensures r != Completed ==> requested == old(requested)
      ensures r == Pending <==> vault.failures > old(vault.failures)
      ensures if r == Completed then vault.marks == old(vault.marks) + [false] && vault.reading == Reading(false)
        else old(vault.marks) <= vault.marks
      ensures Readable(vault.latch)
      ensures Guarded(vault.latch, vault.stores) && Erased(old(vault.stores), vault.stores)
      ensures vault.attempts == old(vault.attempts) + |vault.stores|
      ensures vault.reliable && old(vault.powered) ==> r == Completed
    {
      result := Pending;
      var cleared := true;
      var i: nat := 0;
      while i < |vault.stores|
        invariant i <= |vault.stores| == |old(vault.stores)| && vault.attempts == old(vault.attempts) + i
        invariant result == Pending && requested == old(requested) && vault.marks == old(vault.marks)
        invariant vault.failures >= old(vault.failures) && (cleared <==> vault.failures == old(vault.failures))
        invariant vault.powered ==> old(vault.powered)
        invariant Latched(vault.latch) && Erased(old(vault.stores), vault.stores)
        invariant vault.reliable && old(vault.powered) ==> cleared && vault.powered
        invariant cleared ==> forall j | 0 <= j < i :: vault.stores[j] == map[]
      {
        ghost var before := vault.stores;
        var ok := vault.Clear(i);
        ErasedChain(old(vault.stores), before, vault.stores);
        cleared := ok && cleared;
        i := i + 1;
      }
      if !cleared {
        return result;
      }
      var marked := vault.MarkPending(false);
      if !marked {
        result := StorageError;
        return result;
      }
      var ok, pending := vault.GetPending();
      if !ok || pending {
        result := StorageError;
        return result;
      }
      requested := false;
      result := Completed;
      r := result;
    }
  }

  lemma ErasedKeepsClear(a: seq<Namespace>, b: seq<Namespace>)
    requires AllClear(a) && Erased(a, b)
    ensures AllClear(b)
  {
    assert forall i, k | 0 <= i < |a| && k in b[i] :: k in a[i];
  }

  /** A boot after a power cut: the coordinator is new, and the latch decides. */
  method Boot(vault: Vault) returns (coordinator: Coordinator)
    modifies vault`powered, vault`latch, vault`stores, vault`attempts, vault`failures, vault`marks, vault`reading
    ensures old(Readable(vault.latch)) ==> Readable(vault.latch)
    ensures fresh(coordinator) && Erased(old(vault.stores), vault.stores)
    ensures coordinator.NetworkAllowed() ==> vault.powered && Unlatched(vault.latch)
    ensures coordinator.NetworkAllowed() && old(Latched(vault.latch)) ==> AllClear(vault.stores)
    ensures old(Guarded(vault.latch, vault.stores)) ==> Guarded(vault.latch, vault.stores)
    ensures old(!Latched(vault.latch)) ==> vault.stores == old(vault.stores) && vault.latch == old(vault.latch)
    ensures vault.reliable && old(Readable(vault.latch)) ==> coordinator.NetworkAllowed()
  {
    vault.Restart();
    coordinator := new Coordinator();
    var r := coordinator.Resume(vault);
    if Guarded(old(vault.latch), old(vault.stores)) && !Latched(old(vault.latch)) {
      ErasedKeepsClear(old(vault.stores), vault.stores);
    }
  }

  /**
   From a reset request on, over any number of boots, each cut anywhere: the first that lets
   the device go online finds every store cleared.
   */
  method RequestThenBoots(vault: Vault, first: Coordinator, boots: nat) returns (allowed: bool)
    modifies first, vault`powered, vault`latch, vault`stores, vault`attempts, vault`failures, vault`marks, vault`reading
    ensures allowed ==> Unlatched(vault.latch)
    ensures vault.reliable && old(Readable(vault.latch)) && (old(vault.powered) || boots > 0) ==> allowed
    ensures Guarded(vault.latch, vault.stores) || (vault.stores == old(vault.stores) && vault.latch == old(vault.latch))
    ensures allowed && old(Latched(vault.latch)) ==> AllClear(vault.stores)
    ensures allowed ==> AllClear(vault.stores) || (vault.stores == old(vault.stores) && vault.latch == old(vault.latch))
  {
    var r := first.Request(vault);
    allowed := first.NetworkAllowed();
    var n := 0;
    while !allowed && n < boots
      invariant allowed ==> Unlatched(vault.latch)
      invariant old(Readable(vault.latch)) ==> Readable(vault.latch)
      invariant vault.reliable && old(Readable(vault.latch)) && (old(vault.powered) || n > 0) ==> allowed
      invariant Guarded(vault.latch, vault.stores) ||
                (vault.stores == old(vault.stores) && vault.latch == old(vault.latch))
      invariant allowed && old(Latched(vault.latch)) ==> AllClear(vault.stores)
    {
      var coordinator := Boot(vault);
      allowed, n := coordinator.NetworkAllowed(), n + 1;
    }
  }
}
