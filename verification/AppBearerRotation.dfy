/**
 Rotation of the app bearer: a candidate is stored key by key, acknowledged under the
 old bearer, proven under itself, and only then made the active one. Any key write may
 fail, with or without effect, and power may go between any two.
 */
module AppBearerRotation {
  type Token = string

  datatype Rotation = Rotation(version: nat, nonce: string, token: Token, overlap: string)

  datatype StageResult = Staged | AlreadyPending | AlreadyApplied | Rejected | StorageFault

  datatype Phase = NoPhase | Staged | Acknowledged

  /** The namespace's keys. A key that is missing reads as its default, so it is stored here as that default. */
  datatype Record = Record(
    active: Token, appliedVersion: nat, appliedNonce: string,
    ready: bool, version: nat, nonce: string, candidate: Token, overlap: string, phase: Phase)

  predicate ValidSecret(s: string, minimum: nat, maximum: nat): (valid: bool)
    ensures valid ==> minimum <= |s| <= maximum
  {
    minimum <= |s| <= maximum && forall i | 0 <= i < |s| :: s[i] as int >= 0x21 && s[i] as int != 0x7f
  }

  predicate WellFormed(r: Rotation): (valid: bool)
    ensures valid ==> r.version != 0 && r.token != ""
  {
    r.version != 0 && ValidSecret(r.nonce, 8, 96) && ValidSecret(r.token, 16, 511) && ValidSecret(r.overlap, 20, 40)
  }

  function Filled(n: nat): (s: string)
    ensures |s| == n
  {
    seq(n, i => 'a')
  }

  /** How long the parts of a rotation may be, and of which characters. */
  lemma RotationLimits(r: Rotation, n: nat, c: char)
    requires WellFormed(r)
    ensures WellFormed(r.(nonce := Filled(n))) <==> 8 <= n <= 96
    ensures WellFormed(r.(token := Filled(n))) <==> 16 <= n <= 511
    ensures WellFormed(r.(overlap := Filled(n))) <==> 20 <= n <= 40
    ensures WellFormed(r.(version := n)) <==> n > 0
    ensures ValidSecret([c], 1, 1) <==> c as int > 32 && c as int != 127
  {
    assert [c][0] == c;
  }

  function Pending(r: Record): Rotation
  {
    Rotation(r.version, r.nonce, r.candidate, r.overlap)
  }

  /** A boot takes up the stored candidate. */
  predicate Resumes(r: Record)
  {
    r.ready && WellFormed(Pending(r)) && r.phase != NoPhase
  }

  /** The bearer a boot starts with. */
  function BootBearer(r: Record, provisioned: Token): Token
  {
    if r.active != "" then r.active else provisioned
  }

  class Store {
    var record: Record
    var powered: bool
    /** No write fails and power never goes: what operations then achieve is stated too. */
    const reliable: bool

    constructor (record: Record, reliable: bool)
      ensures this.record == record && powered && this.reliable == reliable
    {
      this.record, powered, this.reliable := record, true, reliable;
    }

    method Restart()
      modifies this`powered
      ensures powered
    {
      powered := true;
    }

    /** Write or remove one key. Only a reported success is certain. */
    method Commit(next: Record) returns (ok: bool)
      modifies this
      ensures powered ==> old(powered)
      ensures ok ==> powered && record == next
      ensures record == old(record) || record == next
      ensures !old(powered) ==> record == old(record)
      ensures reliable && old(powered) ==> ok
    {
      var before: bool, written: bool, after: bool := *, *, *;
      ok := *;
      if reliable {
        before, written, after, ok := false, true, false, true;
      }
      if powered && !before && written {
        record := next;
      } else {
        ok := false;
      }
      if before || after {
        powered, ok := false, false;
      }
    }
  }

  /** The active bearer and what was applied last are untouched. */
  predicate SameApplied(a: Record, b: Record)
  {
    b.active == a.active && b.appliedVersion == a.appliedVersion && b.appliedNonce == a.appliedNonce
  }

  /** All of the candidate's keys are gone. */
  function Cleared(r: Record): Record
  {
    r.(ready := false, candidate := "", version := 0, nonce := "", overlap := "", phase := NoPhase)
  }

  /** Some of the candidate's keys have been removed, in any combination. */
  predicate PartlyCleared(a: Record, b: Record)
  {
    && SameApplied(a, b) && (b.ready ==> a.ready)
    && (b.version == a.version || b.version == 0) && (b.nonce == a.nonce || b.nonce == "")
    && (b.candidate == a.candidate || b.candidate == "") && (b.overlap == a.overlap || b.overlap == "")
    && (b.phase == a.phase || b.phase == NoPhase)
  }

  /**
   The removals are not checked, so `cand_ready` may outlive fields it vouches for. From a
   complete candidate, what is left is a complete candidate or none exactly when `cand_ready`
   went, or nothing did.
   */
  lemma ReadyMayOutliveFields(a: Record, b: Record)
    requires Resumes(a) && PartlyCleared(a, b)
    ensures (b.ready ==> Resumes(b)) <==> (!b.ready || b == a)
  {
  }

  /** It does happen: `cand_ready` stays when its removal fails and a later one does not. */
  lemma ReadyOutlivesItsToken(active: Token)
    ensures var a := Record(active, 0, "", true, 1, "a-nonce1", "a-candidate-bearer", "2030-01-01T00:00:00Z",
      Phase.Staged);
      var b := a.(candidate := "");
      Resumes(a) && PartlyCleared(a, b) && b.ready && !Resumes(b)
  {
    assert WellFormed(Rotation(1, "a-nonce1", "a-candidate-bearer", "2030-01-01T00:00:00Z"));
  }

  /** The fields behind `cand_ready` all come from one staging, even where some are missing. */
  ghost predicate TracedRecord(r: Record, written: Rotation, accepted: set<Rotation>)
  {
    r.ready ==>
      && written in accepted && WellFormed(written)
      && (r.version == 0 || r.version == written.version)
      && (r.nonce == "" || r.nonce == written.nonce)
      && (r.candidate == "" || r.candidate == written.token)
      && (r.overlap == "" || r.overlap == written.overlap)
  }

  lemma ClearedTraced(a: Record, b: Record, written: Rotation, accepted: set<Rotation>)
    requires TracedRecord(a, written, accepted) && PartlyCleared(a, b)
    ensures TracedRecord(b, written, accepted)
    ensures SameApplied(a, b) && (b.ready ==> a.ready)
  {
  }

  lemma AcceptedGrows(r: Record, written: Rotation, accepted: set<Rotation>, more: set<Rotation>)
    requires TracedRecord(r, written, accepted) && accepted <= more
    ensures TracedRecord(r, written, more)
  {
  }

  lemma NothingCleared(a: Record)
    ensures PartlyCleared(a, a)
  {
  }

  /** What a boot resumes was accepted by one `stage` call, all fields of it. */
  lemma ResumedIsOneStaging(r: Record, written: Rotation, accepted: set<Rotation>)
    requires TracedRecord(r, written, accepted) && Resumes(r)
    ensures Pending(r) == written && Pending(r) in accepted
  {
  }

  class AppBearerRotation {
    const store: Store
    var activeBearer: Token
    var candidateBearer: Token
    var nonce: string
    var overlap: string
    var appliedNonce: string
    var version: nat
    var appliedVersion: nat
    var phase: Phase
    /** What the firmware was built or provisioned with. */
    const provisioned: Token
    /** Every rotation that was ever accepted for staging, and the one whose fields the store holds. */
    ghost var accepted: set<Rotation>
    ghost var written: Rotation
    /** This boot has read the store. */
    ghost var informed: bool

    constructor (store: Store, provisioned: Token)
      requires !store.record.ready
      ensures this.store == store && this.provisioned == provisioned && accepted == {} && Traced()
      ensures phase == NoPhase && !informed && Synced()
    {
      this.store, this.provisioned := store, provisioned;
      activeBearer, candidateBearer, nonce, overlap, appliedNonce := provisioned, "", "", "", "";
      version, appliedVersion, phase := 0, 0, NoPhase;
      accepted, written, informed := {}, Rotation(0, "", "", ""), false;
    }

    predicate HasCandidate()
      reads this
    {
      phase != NoPhase && candidateBearer != ""
    }

    function Candidate(): Rotation
      reads this
    {
      Rotation(version, nonce, candidateBearer, overlap)
    }

    ghost predicate Traced()
      reads this, store
    {
      TracedRecord(store.record, written, accepted)
    }

    /** Memory agrees with the store: a candidate held is the one stored, and its phase is not ahead. */
    ghost predicate Synced()
      reads this, store
    {
      && (phase != NoPhase ==> WellFormed(Candidate()) && Pending(store.record) == Candidate())
      && (phase == Phase.Staged ==> store.record.ready && store.record.phase != NoPhase)
      && (phase == Acknowledged ==>
           (store.record.ready && store.record.phase == Acknowledged) || store.record.active == candidateBearer)
      && (phase == NoPhase ==> candidateBearer == "")
      && (informed && phase != Acknowledged ==>
          && activeBearer == BootBearer(store.record, provisioned)
          && appliedVersion == store.record.appliedVersion && appliedNonce == store.record.appliedNonce)
      && (!informed && phase != Acknowledged ==>
          activeBearer == provisioned && appliedVersion == 0 && appliedNonce == "")
    }

    method ClearCandidateMemory()
      modifies this`candidateBearer, this`nonce, this`overlap, this`version, this`phase
      ensures candidateBearer == "" && nonce == "" && overlap == "" && version == 0 && phase == NoPhase
    {
      candidateBearer, nonce, overlap, version, phase := "", "", "", 0, NoPhase;
    }

    /** Six removals, none of them checked. */
    method ClearCandidatePersistent()
      modifies store
      ensures store.powered ==> old(store.powered)
      ensures PartlyCleared(old(store.record), store.record)
      ensures store.reliable && old(store.powered) ==> store.powered && store.record == Cleared(old(store.record))
    {
      var gone := store.Commit(store.record.(ready := false));
      gone := store.Commit(store.record.(candidate := ""));
      gone := store.Commit(store.record.(version := 0));
      gone := store.Commit(store.record.(nonce := ""));
      gone := store.Commit(store.record.(overlap := ""));
      gone := store.Commit(store.record.(phase := NoPhase));
    }

    /** Boot. `readable` is false when the store cannot be read. */
    method Begin(readable: bool) returns (ok: bool)
      requires Traced()
      modifies store, this
      ensures accepted == old(accepted) && written == old(written) && informed == readable
      ensures Traced() && (store.powered ==> old(store.powered) && Synced())
      ensures PartlyCleared(old(store.record), store.record)
      ensures store.record != old(store.record) ==> readable && old(store.record.ready && !Resumes(store.record))
      ensures readable && old(Resumes(store.record)) ==>
        Candidate() == Pending(store.record) && phase == store.record.phase
      ensures !(readable && old(Resumes(store.record))) ==> phase == NoPhase
      ensures readable ==>
        && activeBearer == BootBearer(store.record, provisioned)
        && appliedVersion == store.record.appliedVersion && appliedNonce == store.record.appliedNonce
      ensures ok <==> readable && activeBearer != "" && old(store.record.ready ==> Resumes(store.record))
      ensures store.reliable && old(store.powered) ==>
        store.powered && (readable ==> store.record == old(store.record) || store.record == Cleared(old(store.record)))
      ensures store.reliable && old(store.powered) && readable ==> Resumes(store.record) || !store.record.ready
    {
      hide ValidSecret, TracedRecord, PartlyCleared, WellFormed;
      NothingCleared(store.record);
      activeBearer, appliedVersion, appliedNonce := provisioned, 0, "";
      ClearCandidateMemory();
      informed := readable;
      if !readable {
        return false;
      }
      activeBearer := BootBearer(store.record, provisioned);
      appliedVersion, appliedNonce := store.record.appliedVersion, store.record.appliedNonce;
      ok := true;
      if store.record.ready {
        ok := Resume();
      }
      ok := ok && activeBearer != "";
    }

    /** Take up the stored candidate, or clear a record that is not one. */
    method Resume() returns (ok: bool)
      requires Traced() && store.record.ready
      modifies store, this`version, this`nonce, this`candidateBearer, this`overlap, this`phase
      ensures Traced() && (store.powered ==> old(store.powered))
      ensures PartlyCleared(old(store.record), store.record)
      ensures SameApplied(old(store.record), store.record)
      ensures ok <==> old(Resumes(store.record))
      ensures ok ==>
        Candidate() == Pending(store.record) && phase == store.record.phase && store.record == old(store.record)
      ensures !ok ==> phase == NoPhase && candidateBearer == ""
      ensures store.reliable && old(store.powered) ==>
        store.powered && (!ok ==> store.record == Cleared(old(store.record)))
    {
      hide ValidSecret, TracedRecord, PartlyCleared, WellFormed;
      ghost var r := store.record;
      NothingCleared(r);
      version, nonce, candidateBearer := store.record.version, store.record.nonce, store.record.candidate;
      overlap, phase := store.record.overlap, store.record.phase;
      ok := WellFormed(Candidate()) && phase != NoPhase;
      if !ok {
        ClearCandidatePersistent();
        ClearedTraced(r, store.record, written, accepted);
        ClearCandidateMemory();
      }
    }

    /** Withdraw `cand_ready`, write the fields, and only then vouch for them. */
    method PersistCandidate() returns (ok: bool)
      requires Traced() && WellFormed(Candidate()) && Candidate() in accepted && phase == Phase.Staged
      modifies store, this`written
      ensures store.powered ==> old(store.powered)
      ensures Traced()
      ensures SameApplied(old(store.record), store.record)
      ensures ok ==>
        store.powered && store.record.ready && Pending(store.record) == Candidate() &&
        store.record.phase == Phase.Staged
      ensures store.record.ready ==>
        store.record == old(store.record) ||
        (Pending(store.record) == Candidate() && store.record.phase == Phase.Staged)
      ensures store.reliable && old(store.powered) ==> ok
    {
      ok := store.Commit(store.record.(ready := false));
      if ok {
        written := Candidate();
        ok := store.Commit(store.record.(version := version));
      }
      if ok { ok := store.Commit(store.record.(nonce := nonce)); }
      if ok { ok := store.Commit(store.record.(candidate := candidateBearer)); }
      if ok { ok := store.Commit(store.record.(overlap := overlap)); }
      if ok { ok := store.Commit(store.record.(phase := Phase.Staged)); }
      if ok { ok := store.Commit(store.record.(ready := true)); }
    }

    /** A rotation arrives. It never replaces a pending candidate, and never goes back in version. */
    method Stage(r: Rotation) returns (result: StageResult)
      requires Traced() && Synced() && store.powered
      modifies store, this
      ensures store.powered ==> old(store.powered) && Synced()
      ensures Traced() && old(accepted) <= accepted <= old(accepted) + {r} && informed == old(informed)
      ensures activeBearer == old(activeBearer)
      ensures appliedVersion == old(appliedVersion) && appliedNonce == old(appliedNonce)
      ensures SameApplied(old(store.record), store.record)
      ensures result == StageResult.Staged <==> store.powered && phase == Phase.Staged && old(phase) == NoPhase
      ensures result == StageResult.Staged ==>
        Candidate() == r && r in accepted && r.version > appliedVersion && r.token != activeBearer
      ensures result != StageResult.Staged ==> phase == old(phase)
      ensures result == AlreadyApplied <==>
        WellFormed(r) && r.version == appliedVersion && r.token == activeBearer && r.nonce == appliedNonce
      ensures result == AlreadyPending <==>
        && WellFormed(r) && r.version != appliedVersion && old(HasCandidate())
        && r.version == old(version) && r.nonce == old(nonce) && r.token == old(candidateBearer)
      ensures result == StageResult.Staged || result == StorageFault <==>
        WellFormed(r) && !old(HasCandidate()) && r.version > appliedVersion && r.token != activeBearer
      ensures result != StageResult.Staged && result != StorageFault ==> store.record == old(store.record)
      ensures old(HasCandidate()) ==>
        store.record == old(store.record) && phase == old(phase) && Candidate() == old(Candidate())
      ensures !old(HasCandidate()) && r.version <= appliedVersion ==>
        result != StageResult.Staged && store.record == old(store.record)
      ensures store.record.ready ==>
        store.record == old(store.record) ||
        (Pending(store.record) == r && store.record.phase == Phase.Staged && r.version > appliedVersion)
      ensures store.reliable && WellFormed(r) && !old(HasCandidate()) && r.version > appliedVersion &&
              r.token != activeBearer ==>
        result == StageResult.Staged
    {
      hide WellFormed, TracedRecord;
      if !WellFormed(r) {
        return Rejected;
      }
      if r.version == appliedVersion {
        return if r.nonce == appliedNonce && r.token == activeBearer then AlreadyApplied else Rejected;
      }
      if HasCandidate() {
        return if r.version == version && r.nonce == nonce && r.token == candidateBearer then AlreadyPending
          else Rejected;
      } else if r.version < appliedVersion {
        return Rejected;
      }
      if r.token == activeBearer {
        return Rejected;
      }
      version, nonce, candidateBearer, overlap, phase := r.version, r.nonce, r.token, r.overlap, Phase.Staged;
      accepted := accepted + {r};
      AcceptedGrows(store.record, written, old(accepted), accepted);
      var ok := PersistCandidate();
      if !ok {
        ClearCandidateMemory();
        return StorageFault;
      }
      result := StageResult.Staged;
    }

    /** The server has acknowledged: only the phase key changes. */
    method MarkAcknowledged(readable: bool) returns (ok: bool)
      requires Traced() && Synced() && store.powered
      modifies store, this`phase
      ensures store.powered ==> old(store.powered) && Synced()
      ensures Traced()
      ensures store.record == old(store.record) ||
              (HasCandidate() && store.record == old(store.record).(phase := Acknowledged))
      ensures ok ==>
        store.powered && old(HasCandidate()) && phase == Acknowledged &&
        store.record == old(store.record).(phase := Acknowledged)
      ensures !ok ==> phase == old(phase)
      ensures !readable ==> !ok && store.record == old(store.record)
      ensures store.reliable ==> store.powered && (readable && old(HasCandidate()) ==> ok)
    {
      if !HasCandidate() || !readable {
        return false;
      }
      ok := store.Commit(store.record.(phase := Acknowledged));
      if !ok {
        return;
      }
      phase := Acknowledged;
    }

    /** The candidate has proven itself: it becomes active before anything that could restore it goes. */
    method PromoteCandidate(readable: bool) returns (ok: bool)
      requires Traced() && Synced() && store.powered
      modifies store, this
      ensures store.powered ==> old(store.powered) && Synced()
      ensures Traced() && accepted == old(accepted) && written == old(written) &&
              (informed == old(informed) || (ok && informed))
      ensures old(phase) != Acknowledged ==>
        !ok && store.record == old(store.record) && phase == old(phase) && Candidate() == old(Candidate())
      ensures ok ==>
        && phase == NoPhase && activeBearer == old(candidateBearer) == store.record.active && informed
        && appliedVersion == old(version) && appliedNonce == old(nonce)
      ensures !ok ==> phase == old(phase) && Candidate() == old(Candidate()) && activeBearer == old(activeBearer)
      ensures Promoting(old(store.record), old(Candidate()), store.record)
      ensures ok ==> !store.record.ready
      ensures !readable ==> !ok && store.record == old(store.record)
      ensures store.reliable && ok ==> store.record == Cleared(old(store.record)).(
        active := old(candidateBearer), appliedVersion := old(version), appliedNonce := old(nonce))
      ensures store.reliable ==>
        store.powered && (readable && old(HasCandidate()) && old(phase) == Acknowledged ==> ok)
    {
      hide ValidSecret, WellFormed;
      if !HasCandidate() || phase != Acknowledged || !readable {
        return false;
      }
      ok := CommitActive();
      if !ok {
        return;
      }
      RemoveRest();
      activeBearer, appliedVersion, appliedNonce, informed := candidateBearer, version, nonce, true;
      ClearCandidateMemory();
    }

    /** The new bearer first, then what was applied, and `cand_ready` last. */
    method CommitActive() returns (ok: bool)
      requires store.powered
      modifies store
      ensures store.powered ==> old(store.powered)
      ensures Promoting(old(store.record), Candidate(), store.record)
      ensures Pending(store.record) == Pending(old(store.record)) && store.record.phase == old(store.record).phase
      ensures (store.record.ready ==> old(store.record).ready) &&
              (old(store.record).ready && !store.record.ready ==> store.record.active == candidateBearer)
      ensures ok ==> store.powered && store.record == old(store.record).(
        active := candidateBearer, appliedVersion := version, appliedNonce := nonce, ready := false)
      ensures store.reliable ==> ok
    {
      ok := store.Commit(store.record.(active := candidateBearer));
      if ok { ok := store.Commit(store.record.(appliedVersion := version)); }
      if ok { ok := store.Commit(store.record.(appliedNonce := nonce)); }
      if ok { ok := store.Commit(store.record.(ready := false)); }
    }

    method RemoveRest()
      modifies store
      ensures store.powered ==> old(store.powered)
      ensures PartlyCleared(old(store.record), store.record)
      ensures store.reliable && old(store.powered) ==>
        store.powered && store.record == Cleared(old(store.record)).(ready := old(store.record).ready)
    {
      var gone := store.Commit(store.record.(candidate := ""));
      gone := store.Commit(store.record.(version := 0));
      gone := store.Commit(store.record.(nonce := ""));
      gone := store.Commit(store.record.(overlap := ""));
      gone := store.Commit(store.record.(phase := NoPhase));
    }

    /** Give the candidate up. */
    method AbandonCandidate()
      requires Traced() && (phase != Acknowledged)
      requires Synced()
      modifies store, this`candidateBearer, this`nonce, this`overlap, this`version, this`phase
      ensures store.powered ==> old(store.powered) && Synced()
      ensures Traced() && phase == NoPhase && PartlyCleared(old(store.record), store.record)
      ensures store.reliable && old(store.powered) ==> store.powered && store.record == Cleared(old(store.record))
    {
      ClearCandidatePersistent();
      ClearCandidateMemory();
    }
  }

  /** How far a promotion of `c` has come: active first, then the applied version, and only then `cand_ready` goes. */
  predicate Promoting(a: Record, c: Rotation, b: Record)
  {
    || b == a
    || (b.active == c.token
        && (b.appliedVersion == a.appliedVersion || b.appliedVersion == c.version)
        && (b.appliedNonce == a.appliedNonce || (b.appliedNonce == c.nonce && b.appliedVersion == c.version))
        && (if b.ready then a.ready && Pending(b) == Pending(a) && b.phase == a.phase
             else (b.appliedVersion == c.version && b.appliedNonce == c.nonce) || !a.ready))
  }
}
