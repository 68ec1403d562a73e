/**
 Signed firmware updates: a session that writes the inactive slot and selects it only
 once complete and verified, over an update handle that the SDK consumes, and the
 health check that confirms or rolls back a new image after its first boot.
 */
module SignedOta {
  import opened Bytes
  import opened UploadEvidence
  import opened QueueDisk

  datatype BootState = ValidImage | PendingImage | UnknownImage

  /** What an image says of itself. */
  datatype Description = Description(magic: bool, secureVersion: nat, project: string)

  /** An image may replace the running one: no other project, and no change of security version. */
  predicate Releasable(candidate: Description, running: Description)
  {
    candidate.magic && candidate.secureVersion == running.secureVersion && candidate.project == running.project
  }

  /**
   Another project, another security version or no description at all is refused; the running
   release itself is not.
   */
  lemma OtherReleasesAreRefused(candidate: Description, running: Description)
    ensures candidate.project != running.project || candidate.secureVersion != running.secureVersion || !candidate.magic
      ==> !Releasable(candidate, running)
    ensures running.magic ==> Releasable(running, running)
  {
  }

  /**
   The SDK's update interface. Its preconditions are the handle discipline: a handle is
   written, ended or aborted only while open, and ending it consumes it whatever the result.
   */
  class Sdk {
    /**
     Secure throughout, with a valid running image and no failing call: what a session then achieves
     is stated too.
     */
    const reliable: bool
    /** The description of the running image, and the one found in an image's bytes. */
    const running: Description
    const describe: bytes -> Option<Description>
    /** Secure posture and image state as last read from the chip; both may change at any time. */
    var secure: bool
    var image: BootState
    /** How often one of the two was found wanting. */
    ghost var alarms: nat
    /** The inactive slot as last looked up, if there is one. */
    var inactive: Option<nat>
    ghost var handleOpen: bool
    /** What the inactive slot holds of the image being written, once verified that it verified, and what boots next. */
    var slot: bytes
    ghost var verified: bool
    ghost var selected: Option<bytes>

    constructor (reliable: bool, running: Description, describe: bytes -> Option<Description>)
      ensures !handleOpen && !verified && selected == None && this.reliable == reliable
      ensures this.running == running && this.describe == describe
    {
      this.reliable, this.running, this.describe := reliable, running, describe;
      secure, image, inactive, alarms := false, UnknownImage, None, 0;
      handleOpen, slot, verified, selected := false, [], false, None;
    }

    method SecurePosture() returns (s: bool)
      modifies this`secure, this`alarms
      ensures s == secure && (reliable ==> s)
      ensures alarms == old(alarms) + if s then 0 else 1
    {
      s := *;
      s := s || reliable;
      secure, alarms := s, alarms + if s then 0 else 1;
    }

    method State() returns (state: BootState)
      modifies this`image, this`alarms
      ensures state == image && (reliable ==> state == ValidImage)
      ensures alarms == old(alarms) + if state == ValidImage then 0 else 1
    {
      state := *;
      if reliable {
        state := ValidImage;
      }
      image, alarms := state, alarms + if state == ValidImage then 0 else 1;
    }

    /** Which slot is inactive, and how large it is. */
    method Inactive() returns (slot: Option<nat>)
      modifies this`inactive
      ensures slot == inactive && (reliable ==> slot == Some(0))
    {
      slot := *;
      if reliable {
        slot := Some(0);
      }
      inactive := slot;
    }

    /** The descriptions of the image just written and of the running one, unless they cannot be read. */
    method Descriptions() returns (candidate: Option<Description>, current: Option<Description>)
      ensures candidate.Some? ==> candidate == describe(slot)
      ensures current.Some? ==> current.value == running
      ensures reliable ==> candidate == describe(slot) && current == Some(running)
    {
      var one: bool, other: bool := *, *;
      candidate := if one || reliable then describe(slot) else None;
      current := if other || reliable then Some(running) else None;
    }

    /** Any other answer of the SDK. */
    method Answer() returns (ok: bool)
      ensures reliable ==> ok
    {
      ok := *;
      ok := ok || reliable;
    }

    method Begin(bytes: nat) returns (ok: bool)
      requires !handleOpen && selected == None
      modifies this`handleOpen, this`slot, this`verified
      ensures ok == handleOpen && (ok ==> slot == []) && !verified && selected == None
      ensures reliable ==> ok
    {
      ok := Answer();
      handleOpen, slot, verified := ok, [], false;
    }

    method Write(data: bytes) returns (ok: bool)
      requires handleOpen && selected == None
      modifies this`slot
      ensures ok ==> slot == old(slot) + data
      ensures reliable ==> ok
    {
      ok := Answer();
      if ok {
        slot := slot + data;
      } else {
        slot := *;
      }
    }

    method End() returns (ok: bool)
      requires handleOpen
      modifies this`handleOpen, this`verified
      ensures !handleOpen && verified == ok
      ensures reliable ==> ok
    {
      ok := Answer();
      handleOpen, verified := false, ok;
    }

    method Abort()
      requires handleOpen
      modifies this`handleOpen, this`verified
      ensures !handleOpen && !verified
    {
      handleOpen, verified := false, false;
    }

    method SetBoot() returns (ok: bool)
      requires !handleOpen && verified
      modifies this`selected
      ensures selected == if ok then Some(slot) else old(selected)
      ensures reliable ==> ok
    {
      ok := Answer();
      if ok {
        selected := Some(slot);
      }
    }
  }

  /** The device's side of an update: one handle, one verified image. */
  class Backend {
    const sdk: Sdk
    var isOpen: bool
    var isVerified: bool
    /** The slot of the session. */
    var target: Option<nat>

    ghost predicate Valid()
      reads this, sdk
    {
      && (sdk.reliable && (isOpen || isVerified) ==> target == Some(0)) && (isOpen || isVerified ==> target.Some?)
      && isOpen == sdk.handleOpen && (isVerified ==> sdk.verified && !sdk.handleOpen && Allowed(sdk.slot))
      && (sdk.selected.Some? ==> sdk.selected == Some(sdk.slot) && !isOpen && !isVerified && Allowed(sdk.slot))
    }

    /** The image may be released to this device. */
    predicate Allowed(image: bytes)
    {
      sdk.describe(image).Some? && Releasable(sdk.describe(image).value, sdk.running)
    }

    constructor (sdk: Sdk)
      requires !sdk.handleOpen && sdk.selected == None
      ensures Valid() && !isOpen && !isVerified && this.sdk == sdk
    {
      this.sdk, isOpen, isVerified, target := sdk, false, false, None;
    }

    method BeginInactive(bytes: nat, capacity: nat) returns (ok: bool)
      requires Valid() && sdk.selected == None
      modifies this, sdk
      ensures Valid() && sdk.selected == None
      ensures ok ==> isOpen && sdk.slot == [] && 0 < bytes <= capacity && !old(isOpen)
      ensures ok ==> sdk.secure && sdk.image == ValidImage && target == sdk.inactive && sdk.alarms == old(sdk.alarms)
      ensures !ok ==> isOpen == old(isOpen)
      ensures sdk.reliable && !old(isOpen) && 0 < bytes <= capacity ==> ok
    {
      var secure := sdk.SecurePosture();
      var state := sdk.State();
      if isOpen || !secure || state != ValidImage {
        return false;
      }
      target := sdk.Inactive();
      isVerified := false;
      if target.None? || bytes == 0 || bytes > capacity {
        return false;
      }
      isOpen := sdk.Begin(bytes);
      ok := isOpen;
    }

    method Write(data: bytes) returns (ok: bool)
      requires Valid() && sdk.selected == None
      modifies sdk
      ensures Valid() && sdk.selected == None
      ensures ok ==> isOpen && sdk.slot == old(sdk.slot) + data
      ensures sdk.reliable && isOpen ==> ok
    {
      ok := false;
      if isOpen {
        ok := sdk.Write(data);
      }
    }

    /** Ending the handle consumes it; the signature and the release policy decide. */
    method FinishAndVerify() returns (ok: bool)
      requires Valid() && sdk.selected == None
      modifies this`isOpen, this`isVerified, sdk`handleOpen, sdk`verified, sdk`secure, sdk`alarms
      ensures Valid() && sdk.slot == old(sdk.slot)
      ensures ok ==> old(isOpen) && !isOpen && isVerified && sdk.verified && sdk.secure && Allowed(sdk.slot)
      ensures ok ==> sdk.alarms == old(sdk.alarms)
      ensures old(isOpen) ==> isVerified == ok
      ensures sdk.reliable && old(isOpen) ==> (ok <==> Allowed(sdk.slot))
    {
      var secure := sdk.SecurePosture();
      if !isOpen || !secure {
        return false;
      }
      isOpen := false;
      ok := sdk.End();
      if !ok {
        return;
      }
      var candidate, current := sdk.Descriptions();
      if candidate.None? || current.None? {
        return false;
      }
      isVerified := Releasable(candidate.value, current.value);
      ok := isVerified;
    }

    method SelectVerified() returns (ok: bool)
      requires Valid() && sdk.selected == None
      modifies this`isVerified, sdk`selected, sdk`secure, sdk`image, sdk`inactive, sdk`alarms
      ensures Valid() && isOpen == old(isOpen)
      ensures ok ==>
        && old(isVerified) && sdk.selected == Some(sdk.slot) && sdk.secure && sdk.image == ValidImage
        && sdk.inactive == target && sdk.alarms == old(sdk.alarms)
      ensures !ok ==> sdk.selected == None
      ensures sdk.reliable && old(isVerified) ==> ok
    {
      var secure := sdk.SecurePosture();
      var state := sdk.State();
      var slot := sdk.Inactive();
      if !isVerified || !secure || state != ValidImage || target != slot {
        return false;
      }
      isVerified := false;
      ok := sdk.SetBoot();
    }

    /** Never aborts a handle that was consumed. */
    method Abort()
      requires Valid() && sdk.selected == None
      modifies this, sdk`handleOpen, sdk`verified
      ensures Valid() && !isOpen && !isVerified
    {
      if isOpen {
        sdk.Abort();
      }
      isOpen, isVerified := false, false;
    }
  }

  datatype Session = Idle | Receiving | ReadyToReboot | Abandoned

  const CHUNK_LIMIT := 4096

  class SignedOta {
    const backend: Backend
    var state: Session
    var expected: nat
    var received: nat
    /** The chunks of the current session. */
    ghost var chunks: bytes

    /**
     Receiving holds exactly while the handle is open; a selected image is a complete, verified
     session and stays as it is.
     */
    ghost predicate Valid()
      reads this, backend, backend.sdk
    {
      && backend.Valid()
      && (state == Receiving <==> backend.isOpen)
      && (state == Receiving ==> backend.sdk.slot == chunks && |chunks| == received <= expected && expected > 0)
      && (state == ReadyToReboot <==> backend.sdk.selected.Some?)
      && (state == ReadyToReboot ==>
           && backend.sdk.selected == Some(chunks) && |chunks| == expected > 0 && backend.sdk.verified
           && backend.Allowed(chunks))
    }

    constructor (backend: Backend)
      requires backend.Valid() && !backend.isOpen && backend.sdk.selected == None
      ensures Valid() && state == Idle && this.backend == backend
    {
      this.backend, state, expected, received, chunks := backend, Idle, 0, 0, [];
    }

    method Fail()
      requires backend.Valid() && backend.sdk.selected == None && (backend.isOpen ==> state == Receiving)
      modifies this, backend, backend.sdk`handleOpen, backend.sdk`verified
      ensures Valid() && state == Abandoned && !backend.isOpen
    {
      if state == Receiving {
        backend.Abort();
      }
      state := Abandoned;
    }

    method Begin(bytes: nat, capacity: nat) returns (ok: bool)
      requires Valid()
      modifies this, backend, backend.sdk
      ensures Valid()
      ensures old(state) == Receiving || old(state) == ReadyToReboot ==>
        !ok && state == old(state) && chunks == old(chunks) && backend.sdk.selected == old(backend.sdk.selected)
      ensures ok ==> state == Receiving && expected == bytes && 0 < bytes <= capacity && chunks == []
      ensures ok ==>
        backend.sdk.secure && backend.sdk.image == ValidImage && backend.sdk.alarms == old(backend.sdk.alarms)
      ensures !ok && (old(state) == Idle || old(state) == Abandoned) ==> state == Abandoned
      ensures backend.sdk.reliable && (old(state) == Idle || old(state) == Abandoned) && 0 < bytes <= capacity ==> ok
    {
      if state == Receiving || state == ReadyToReboot {
        return false;
      }
      var secure := backend.sdk.SecurePosture();
      if !secure {
        Fail();
        return false;
      }
      var image := backend.sdk.State();
      if image != ValidImage {
        Fail();
        return false;
      }
      if bytes == 0 || bytes > capacity {
        Fail();
        return false;
      }
      ok := backend.BeginInactive(bytes, capacity);
      if !ok {
        Fail();
        return false;
      }
      expected, received, state, chunks := bytes, 0, Receiving, [];
    }

    method Append(data: bytes) returns (ok: bool)
      requires Valid()
      modifies this, backend, backend.sdk
      ensures Valid()
      ensures old(state) != Receiving ==> !ok && state == old(state) && chunks == old(chunks)
      ensures ok ==> state == Receiving && chunks == old(chunks) + data && expected == old(expected)
      ensures !ok && old(state) == Receiving ==> state == Abandoned
      ensures ok ==> 0 < |data| <= CHUNK_LIMIT
      ensures backend.sdk.reliable && old(state) == Receiving ==>
        0 < |data| <= CHUNK_LIMIT && |data| <= old(expected) - old(received) ==> ok
    {
      if state != Receiving {
        return false;
      }
      if data == [] || |data| > CHUNK_LIMIT || |data| > expected - received {
        Fail();
        return false;
      }
      ok := backend.Write(data);
      if !ok {
        Fail();
        return false;
      }
      received, chunks := received + |data|, chunks + data;
    }

    /** An image is selected here or never: complete, and verified a moment ago. */
    method Finish() returns (ok: bool)
      requires Valid()
      modifies this, backend, backend.sdk
      ensures Valid()
      ensures ok <==> old(state) == Receiving && state == ReadyToReboot
      ensures ok ==>
        && backend.sdk.selected == Some(old(chunks)) && |old(chunks)| == old(expected) && backend.sdk.verified
        && backend.Allowed(old(chunks)) && backend.sdk.secure && backend.sdk.image == ValidImage
        && backend.sdk.inactive == backend.target && backend.sdk.alarms == old(backend.sdk.alarms)
      ensures !ok ==> backend.sdk.selected == old(backend.sdk.selected)
      ensures !ok && old(state) == Receiving ==> state == Abandoned && !backend.isOpen
      ensures backend.sdk.reliable && old(state) == Receiving ==>
        (ok <==> old(received) == old(expected) && backend.Allowed(old(chunks)))
    {
      if state != Receiving {
        return false;
      }
      if received != expected {
        Fail();
        return false;
      }
      var secure := backend.sdk.SecurePosture();
      if !secure {
        Fail();
        return false;
      }
      ok := backend.FinishAndVerify();
      if !ok {
        Fail();
        return false;
      }
      ok := backend.SelectVerified();
      if !ok {
        Fail();
        return false;
      }
      state := ReadyToReboot;
    }

    method Cancel()
      requires Valid()
      modifies this, backend, backend.sdk`handleOpen, backend.sdk`verified
      ensures Valid() && state == if old(state) == Receiving then Abandoned else old(state)
    {
      if state == Receiving {
        Fail();
      }
    }
  }

  datatype Health = Inactive | Pending | Confirmed | RolledBack | RecoveryRequired

  datatype Check = Check(at: nat, healthy: bool)

  /** When the unbroken run of healthy checks at the end began. */
  ghost function HealthyFrom(checks: seq<Check>): Option<nat>
  {
    if checks == [] || !checks[|checks| - 1].healthy then None
    else match HealthyFrom(checks[..|checks| - 1])
         case Some(t) => Some(t)
         case None => Some(checks[|checks| - 1].at)
  }

  const HEALTH_WINDOW_MS := 120000
  const HEALTHY_SPAN_MS := 10000

  class OtaBootHealth {
    var state: Health
    var startedMs: uint32
    var healthySinceMs: uint32
    var healthy: bool
    /** True times of the boot and of the last check, all checks, and the calls made to confirm and to roll back. */
    ghost var startedAt: nat
    ghost var seenAt: nat
    ghost var checks: seq<Check>
    ghost var confirms: nat
    ghost var rollbacks: nat

    ghost predicate Valid()
      reads this
    {
      && startedMs == Clock(startedAt) && startedAt <= seenAt
      && confirms <= 1 && rollbacks <= 1 && (state == Pending ==> confirms == 0 && rollbacks == 0)
      && (state == Confirmed ==> confirms == 1 && rollbacks == 0)
      && (state == Pending ==> seenAt - startedAt < HEALTH_WINDOW_MS)
      && (state == Pending ==> healthy == HealthyFrom(checks).Some?)
      && (state == Pending && healthy ==> Spanning(HealthyFrom(checks).value))
    }

    /** The healthy run so far began at `since`, and has not lasted long enough. */
    ghost predicate Spanning(since: nat)
      reads this
    {
      startedAt <= since <= seenAt && healthySinceMs == Clock(since) && seenAt - since < HEALTHY_SPAN_MS
    }

    constructor ()
      ensures Valid() && state == Inactive
    {
      state, startedMs, healthySinceMs, healthy := Inactive, 0, 0, false;
      startedAt, seenAt, checks, confirms, rollbacks := 0, 0, [], 0, 0;
    }

    /** Once per boot; only a production image waiting for verification is put to the test. */
    method Begin(now: nat, productionRequired: bool, boot: BootState)
      requires Valid() && confirms == 0 && rollbacks == 0
      modifies this
      ensures Valid() && startedAt == now && checks == []
      ensures state == if !productionRequired || boot == ValidImage then Inactive
        else if boot == PendingImage then Pending else RecoveryRequired
    {
      startedMs, healthy, state := Clock(now), false, Inactive;
      startedAt, seenAt, checks, confirms, rollbacks := now, now, [], 0, 0;
      if !productionRequired {
        return;
      }
      if boot == PendingImage {
        state := Pending;
      } else if boot == UnknownImage {
        state := RecoveryRequired;
      }
    }

    /** Roll back if there is an image to go back to. */
    method RollBack(possible: bool, done: bool)
      requires rollbacks == 0
      modifies this`state, this`rollbacks
      ensures rollbacks == (if possible then 1 else 0)
      ensures state == if possible && done then RolledBack else RecoveryRequired
    {
      if possible {
        rollbacks := rollbacks + 1;
      }
      state := if possible && done then RolledBack else RecoveryRequired;
    }

    /** The image has shown itself healthy for long enough, and in time. */
    ghost predicate Passed(now: nat)
      reads this
    {
      && now - startedAt < HEALTH_WINDOW_MS && HealthyFrom(checks).Some?
      && now - HealthyFrom(checks).value >= HEALTHY_SPAN_MS
    }

    /**
     One check, at the latest one counter turn less the window after the one before. The image
     is confirmed exactly when an unbroken run of healthy checks has lasted ten seconds within
     the window; past the window it never is. `confirmed`, `possible` and `done` are the SDK's answers.
     */
    method Poll(now: nat, secure: bool, sensorsReady: bool, queueReady: bool, heartbeat: bool, confirmed: bool,
        possible: bool, done: bool)
      requires Valid() && seenAt <= now && now - seenAt < WORD - HEALTH_WINDOW_MS
      modifies this
      ensures Valid() && startedAt == old(startedAt) && seenAt == now
      ensures old(state) != Pending ==> state == old(state) && confirms == old(confirms) && rollbacks == old(rollbacks)
      ensures old(state) == Pending ==>
        checks == old(checks) + [Check(now, secure && sensorsReady && queueReady && heartbeat)]
      ensures old(state) == Pending ==> (confirms == 1 <==> Passed(now))
      ensures old(state) == Pending && Passed(now) && confirmed ==> state == Confirmed && rollbacks == 0
      ensures old(state) == Pending && (if Passed(now) then !confirmed else now - startedAt >= HEALTH_WINDOW_MS) ==>
        && rollbacks == (if possible then 1 else 0)
        && state == if possible && done then RolledBack else RecoveryRequired
      ensures old(state) == Pending && !Passed(now) && now - startedAt < HEALTH_WINDOW_MS ==> state == Pending
    {
      if state != Pending {
        seenAt := now;
        return;
      }
      ghost var before := checks;
      checks := checks + [Check(now, secure && sensorsReady && queueReady && heartbeat)];
      assert checks[..|checks| - 1] == before;
      ElapsedIsTrue(startedAt, now);
      if healthy { ElapsedIsTrue(HealthyFrom(before).value, now); }
      ElapsedIsTrue(now, now);
      seenAt := now;
      if Elapsed(Clock(now), startedMs) >= HEALTH_WINDOW_MS {
        RollBack(possible, done);
        return;
      }
      if !secure || !sensorsReady || !queueReady || !heartbeat {
        healthy := false;
        return;
      }
      if !healthy {
        healthy, healthySinceMs := true, Clock(now);
      }
      if Elapsed(Clock(now), healthySinceMs) >= HEALTHY_SPAN_MS {
        confirms := confirms + 1;
        if confirmed {
          state := Confirmed;
        } else {
          RollBack(possible, done);
        }
      }
    }
  }
}
