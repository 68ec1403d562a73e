/**
 Owner-approved authorization: one durable record holds the access token, a pending
 bootstrap credential and a rotation in progress. A save replaces all of it or nothing.
 */
module LoggerAuthorization {
  import opened QueueDisk

  type Token = string

  /** The rotation part of the record. `phase` 0: none, 1: staged, 2: acknowledged. */
  datatype Rotation = Rotation(
    phase: nat, candidate: Token, nonce: string, expiry: string, version: nat, appliedVersion: nat,
    appliedNonce: string)

  datatype Pending = Pending(
    origin: string, authorizationId: string, deviceCode: string, userCode: string, ackPending: bool,
    token: Token, deviceId: string, version: nat)

  datatype Record = Record(origin: string, token: Token, deviceId: string, version: nat, rotation: Rotation,
      pending: Pending)

  const NO_PENDING := Pending("", "", "", "", false, "", "", 0)
  const NO_ROTATION := Rotation(0, "", "", "", 0, 0, "")

  predicate Printable(s: string, minimum: nat, maximum: nat): (valid: bool)
    ensures valid ==> minimum <= |s| <= maximum
  {
    minimum <= |s| <= maximum && forall i | 0 <= i < |s| :: 0x21 <= s[i] as int <= 0x7e
  }

  predicate DeviceId(s: string)
  {
    1 <= |s| <= 63 && forall i | 0 <= i < |s| :: 'a' <= s[i] <= 'z' || '0' <= s[i] <= '9' || s[i] == '-' || s[i] == '_'
  }

  predicate Hex(c: char)
  {
    '0' <= c <= '9' || 'a' <= c <= 'f'
  }

  predicate Uuid(s: string)
  {
    |s| == 36 && forall i | 0 <= i < 36 :: if i == 8 || i == 13 || i == 18 || i == 23 then s[i] == '-' else Hex(s[i])
  }

  function Filled(n: nat): (s: string)
    ensures |s| == n
  {
    seq(n, i => 'a')
  }

  /** How long these texts may be, and of which characters. */
  lemma TextLimits(n: nat, low: nat, high: nat, c: char)
    ensures Printable(Filled(n), low, high) <==> low <= n <= high
    ensures DeviceId(Filled(n)) <==> 1 <= n <= 63
    ensures Printable([c], 1, 1) <==> '!' <= c <= '~'
    ensures DeviceId([c]) <==> 'a' <= c <= 'z' || '0' <= c <= '9' || c in "-_"
  {
    assert [c][0] == c && "-_"[0] == '-' && "-_"[1] == '_';
  }

  /** Four hyphens at their places, and lower-case hexadecimal digits elsewhere. */
  lemma UuidSamples()
    ensures Uuid("01234567-89ab-cdef-0123-456789abcdef") && !Uuid("01234567-89ab-cdef-0123-456789abcdeg")
    ensures !Uuid("0123456-789ab-cdef-0123-456789abcdef") && !Uuid("01234567-89ab-cdef-0123-456789abcde")
  {
    assert "01234567-89ab-cdef-0123-456789abcdeg"[35] == 'g' && "0123456-789ab-cdef-0123-456789abcdef"[7] == '-';
  }

  /** What matters of a rotation: with none in progress, only what was applied last. */
  function Essence(r: Rotation): Rotation
  {
    if r.phase == 0 then Rotation(0, "", "", "", 0, r.appliedVersion, r.appliedNonce) else r
  }

  /** The rotation a boot takes from a record; one for another server is not taken over. */
  function Restored(r: Record, origin: string): Rotation
  {
    if r.origin == origin then r.rotation else NO_ROTATION
  }

  predicate ValidRotation(r: Rotation)
  {
    r.phase <= 2 && (r.phase != 0 ==> Printable(r.candidate, 32, 511) && Printable(r.nonce, 8, 96) && r.version != 0)
  }

  predicate ValidPending(p: Pending)
  {
    p.ackPending ==>
      Printable(p.token, 32, 511) && DeviceId(p.deviceId) && |p.authorizationId| == 36 &&
      Printable(p.deviceCode, 32, 256)
  }

  /** The part of memory that the record stands for. */
  datatype Memory = Memory(
    origin: string, token: Token, deviceId: string, version: nat, active: Token, rotation: Rotation, proof: Pending)

  /** What memory satisfies by itself once a record has been taken over. */
  ghost predicate Sane(origin: string, m: Memory)
  {
    && m.active == (if m.origin == origin then m.token else "")
    && (m.active != "" ==> Printable(m.token, 32, 511) && DeviceId(m.deviceId))
    && ValidRotation(m.rotation) && (m.origin != origin ==> Essence(m.rotation) == NO_ROTATION)
    && m.proof.origin == origin && (m.proof.ackPending ==> ValidPending(m.proof))
  }

  /** Memory is what a boot would rebuild from the record, as far as it matters. */
  ghost predicate Agrees(r: Record, origin: string, m: Memory)
  {
    && m.origin == r.origin && m.token == r.token && m.deviceId == r.deviceId && m.version == r.version
    && Essence(m.rotation) == Essence(Restored(r, origin))
    && (m.proof.ackPending <==> r.pending.origin == origin && r.pending.ackPending)
    && (m.proof.ackPending ==> r.pending == m.proof.(userCode := r.pending.userCode))
  }

  function Saved(m: Memory): Record
  {
    Record(m.origin, m.token, m.deviceId, m.version, m.rotation, m.proof)
  }

  /** What is stored once the candidate held in `m` has proven itself. */
  function Rotated(m: Memory): Record
  {
    Record(m.origin, m.rotation.candidate, m.deviceId, m.rotation.version,
      m.rotation.(appliedVersion := m.rotation.version, appliedNonce := m.rotation.nonce, phase := 0), m.proof)
  }

  /** A boot takes it over: the same logger with the new token, the rotation applied and none in progress. */
  lemma RotatedBoots(origin: string, m: Memory)
    requires Sane(origin, m) && m.rotation.phase == 2 && m.active != ""
    ensures Sensible(Rotated(m), origin)
    ensures var n := Taken(Rotated(m), origin);
      && n.active == n.token == m.rotation.candidate && n.deviceId == m.deviceId && n.version == m.rotation.version
      && n.rotation.phase == 0 && n.rotation.appliedVersion == m.rotation.version
      && n.rotation.appliedNonce == m.rotation.nonce && n.proof == m.proof
  {
    hide Printable, DeviceId;
  }

  /** What is stored once the pending credential of `m` has been acknowledged. */
  function Bootstrapped(m: Memory, origin: string): Record
  {
    Record(origin, m.proof.token, m.proof.deviceId, m.proof.version,
      m.rotation.(phase := 0, candidate := "", appliedVersion := 0, appliedNonce := ""),
      m.proof.(authorizationId := "", deviceCode := "", userCode := "", ackPending := false))
  }

  /** A boot takes it over: the logger the credential was issued for, with nothing pending and no rotation. */
  lemma BootstrappedBoots(origin: string, m: Memory)
    requires Sane(origin, m) && m.proof.ackPending
    ensures Sensible(Bootstrapped(m, origin), origin)
    ensures var n := Taken(Bootstrapped(m, origin), origin);
      && n.active == n.token == m.proof.token && n.deviceId == m.proof.deviceId && n.version == m.proof.version
      && Essence(n.rotation) == NO_ROTATION && !n.proof.ackPending
  {
    hide Printable, DeviceId;
  }

  lemma ActiveIsStored(origin: string, m: Memory)
    requires Sane(origin, m) && m.active != ""
    ensures m.token == m.active && m.origin == origin
  {
    hide Printable, DeviceId, ValidPending, ValidRotation, Essence;
  }

  lemma UuidLength(s: string)
    ensures Uuid(s) ==> |s| == 36
  {
  }

  lemma SaneFacts(origin: string, m: Memory)
    requires Sane(origin, m)
    ensures m.rotation.phase <= 2 && ValidRotation(m.rotation) && m.proof.origin == origin
    ensures m.proof.ackPending ==> ValidPending(m.proof)
    ensures m.active != "" ==> m.origin == origin && m.active == m.token
    ensures m.rotation.phase != 0 ==> m.origin == origin
  {
    hide Printable, ValidPending;
  }

  /** What a save of all of memory leaves agrees with it. */
  lemma SavedAgrees(origin: string, m: Memory)
    requires Sane(origin, m)
    ensures Agrees(Saved(m), origin, m)
  {
    hide Printable, ValidPending, ValidRotation;
  }

  /** Memory with another rotation for the same server. */
  lemma RotationSane(origin: string, m: Memory, rotation: Rotation)
    requires Sane(origin, m) && ValidRotation(rotation) && (m.origin == origin || Essence(rotation) == NO_ROTATION)
    ensures Sane(origin, m.(rotation := rotation))
  {
    hide Printable, ValidPending;
  }

  /** Two rotations alike in all that matters agree with the same records; others never do. */
  lemma RotationDecides(r: Record, origin: string, m: Memory, n: Memory)
    requires Agrees(r, origin, m) && n == m.(rotation := n.rotation)
    ensures Agrees(r, origin, n) <==> Essence(n.rotation) == Essence(m.rotation)
  {
    hide Printable, ValidPending;
  }

  lemma SameEssence(a: Rotation, b: Rotation)
    requires a.phase == b.phase == 0 && a.appliedVersion == b.appliedVersion && a.appliedNonce == b.appliedNonce
    ensures Essence(a) == Essence(b)
  {
  }

  lemma EssencePhase(a: Rotation)
    ensures Essence(a).phase == a.phase && (a.phase != 0 ==> Essence(a) == a)
  {
  }

  lemma PhaseMoved(r: Rotation, phase: nat)
    requires ValidRotation(r) && (phase == 0 || (r.phase != 0 && phase <= 2))
    ensures ValidRotation(r.(phase := phase))
  {
  }

  /** A record a boot takes over. */
  predicate Sensible(r: Record, origin: string)
  {
    SensibleCredential(r, origin) && SensiblePending(r, origin)
  }

  predicate SensibleCredential(r: Record, origin: string)
  {
    r.origin == origin ==>
      (r.token == "" || (Printable(r.token, 32, 511) && DeviceId(r.deviceId))) && ValidRotation(r.rotation)
  }

  predicate SensiblePending(r: Record, origin: string)
  {
    r.pending.origin == origin ==> ValidPending(r.pending)
  }

  /** Memory as a boot takes it from a record. */
  function Taken(r: Record, origin: string): Memory
  {
    Memory(r.origin, r.token, r.deviceId, r.version, if r.origin == origin then r.token else "", Restored(r, origin),
      if r.pending.origin == origin then r.pending else NO_PENDING.(origin := origin))
  }

  /**
   The token stored at the very start, and what the server has said since: bootstrap tokens it
   acknowledged or confirmed by identity, and for each candidate the bearers under which it
   accepted a status while it was pending.
   */
  datatype Word = Word(initial: Token, vouched: set<Token>, accepted: set<(Token, Token)>)

  function Vouched(w: Word, token: Token): Word
  {
    w.(vouched := w.vouched + {token})
  }

  /**
   A token to keep was there at the start, was vouched for, or was accepted as a candidate under
   itself; and a candidate counts as acknowledged only once accepted under the token kept.
   */
  ghost predicate Justified(w: Word, token: Token, rotation: Rotation)
  {
    && (token == w.initial || token in w.vouched || (token, token) in w.accepted)
    && (rotation.phase == 2 ==> (rotation.candidate, token) in w.accepted)
  }

  lemma TakenJustified(w: Word, r: Record, origin: string)
    requires Justified(w, r.token, r.rotation)
    ensures Justified(w, Taken(r, origin).token, Taken(r, origin).rotation)
  {
  }

  lemma RecalledAgrees(r: Record, origin: string)
    ensures Sensible(r, origin) ==> Sane(origin, Taken(r, origin)) && Agrees(r, origin, Taken(r, origin))
  {
    hide Printable, DeviceId, ValidPending;
  }

  lemma WithoutRotation(r: Rotation)
    requires r.phase == 0
    ensures ValidRotation(r)
  {
  }

  /** Memory with another pending part. */
  lemma PendingSane(origin: string, m: Memory, proof: Pending)
    requires Sane(origin, m) && proof.origin == origin && (proof.ackPending ==> ValidPending(proof))
    ensures Sane(origin, m.(proof := proof))
  {
    hide Printable, ValidPending, ValidRotation;
  }

  /** Of a pending part, its user code makes no difference, and nothing does while no acknowledgement is due. */
  lemma PendingDecides(r: Record, origin: string, m: Memory, proof: Pending)
    requires Agrees(r, origin, m) && proof.origin == origin
    requires !proof.ackPending || proof == m.proof.(userCode := proof.userCode)
    ensures Agrees(r, origin, m.(proof := proof)) <==> proof.ackPending == m.proof.ackPending
  {
    hide Printable, ValidRotation;
  }

  /** A record whose acknowledgement is not due as memory's is does not agree with it. */
  lemma PendingDiffers(r: Record, origin: string, m: Memory)
    requires r.pending.origin == origin && r.pending.ackPending != m.proof.ackPending
    ensures !Agrees(r, origin, m)
  {
  }

  /** Nor does one whose rotation matters differently. */
  lemma RotationDiffers(r: Record, origin: string, m: Memory)
    requires r.origin == origin && Essence(r.rotation) != Essence(m.rotation)
    ensures !Agrees(r, origin, m)
  {
  }

  class Store {
    var record: Record
    var powered: bool
    /** No save fails and power never goes: what operations then achieve is stated too. */
    const reliable: bool

    constructor (record: Record, reliable: bool)
      ensures this.record == record && powered && this.reliable == reliable
    {
      this.record, powered, this.reliable := record, true, reliable;
    }

    /** Power is back; the record is what the cut left. */
    method Restart()
      modifies this`powered
      ensures powered
    {
      powered := true;
    }

    /**
     One value is replaced atomically and read back. Only a reported success is certain: a
     failure may come from the read after the value was replaced.
     */
    method Save(next: Record) returns (ok: bool)
      modifies this
      ensures powered ==> old(powered)
      ensures ok ==> powered && record == next
      ensures record == old(record) || record == next
      ensures !old(powered) ==> record == old(record)
      ensures reliable && old(powered) ==> ok
    {
      var before: bool, after: bool, written: bool := *, *, *;
      ok := *;
      if reliable {
        before, after, written, ok := false, false, true, true;
      }
      if !powered || before {
        powered := false;
        return false;
      }
      if written {
        record := next;
      }
      ok := ok && written;
      if after {
        powered, ok := false, false;
      }
    }
  }

  datatype Actor = Actor(authenticated: bool, method_: string, subject: string, ingest: bool)

  /** The fields of a reply's body that the authorization reads; absent or of the wrong type is `None`. */
  datatype Body =
    | Unreadable
    | Body(status: string, tokenType: string, accessToken: Option<string>, deviceId: Option<string>,
        credentialVersion: Option<nat>, authorizationId: Option<string>, deviceCode: Option<string>,
        userCode: Option<string>, expiresIn: Option<nat>, actor: Actor)

  datatype Ask = Start | Poll | Acknowledge | Verify

  /** An offer that is new: well-formed, later than anything applied, and not the token in use. */
  predicate Fresh(o: Offer, r: Rotation, token: Token)
  {
    WellFormed(o) && o.version > r.appliedVersion && r.phase == 0 && o.token != token
  }

  predicate WellFormed(o: Offer)
  {
    o.version != 0 && Printable(o.token, 32, 511) && Printable(o.nonce, 8, 96) && Printable(o.expiry, 20, 40)
  }

  /** A rotation with `o` as its candidate, staged. */
  function Holding(r: Rotation, o: Offer): (h: Rotation)
    ensures h.phase == 1 && h.appliedVersion == r.appliedVersion && h.appliedNonce == r.appliedNonce
  {
    Rotation(1, o.token, o.nonce, o.expiry, o.version, r.appliedVersion, r.appliedNonce)
  }

  datatype Offer = Offer(version: nat, token: Token, nonce: string, expiry: string)

  class LoggerAuthorization {
    const store: Store
    const origin: string
    var activeToken: Token
    var storedOrigin: string
    var storedToken: Token
    var storedDeviceId: string
    var credentialVersion: nat
    var rotation: Rotation
    var proof: Pending
    var fallback: bool
    var verifyPending: bool
    var ready: bool
    var restart: bool
    ghost var word: Word

    ghost function Recalled(): Memory
      reads this`storedOrigin, this`storedToken, this`storedDeviceId, this`credentialVersion, this`activeToken,
        this`rotation, this`proof
    {
      Memory(storedOrigin, storedToken, storedDeviceId, credentialVersion, activeToken, rotation, proof)
    }

    /** What a boot would rebuild from the record is what memory holds. */
    ghost predicate Synced()
      reads this, store
    {
      Agrees(store.record, origin, Recalled())
    }

    /** What holds of record and memory at all times, whether or not they agree. */
    ghost predicate Valid()
      reads this, store
    {
      && Justified(word, store.record.token, store.record.rotation)
      && (ready && !restart ==> Sane(origin, Recalled()) && Justified(word, storedToken, rotation))
    }

    /** A boot has taken over the record, and no restart is due. */
    ghost predicate Working()
      reads this, store
    {
      Valid() && ready && !restart && store.powered
    }

    constructor (store: Store, origin: string)
      requires store.record.rotation.phase != 2
      ensures this.store == store && this.origin == origin && !ready && !restart && Valid()
      ensures word == Word(store.record.token, {}, {})
    {
      this.store, this.origin := store, origin;
      activeToken, storedOrigin, storedToken, storedDeviceId, credentialVersion := "", "", "", "", 0;
      rotation, proof := NO_ROTATION, NO_PENDING.(origin := origin);
      fallback, verifyPending, ready, restart := false, false, false, false;
      word := Word(store.record.token, {}, {});
    }

    /** The token to send: the candidate once acknowledged, for status requests that are not a fallback. */
    function Bearer(statusRequest: bool): Token
      reads this`rotation, this`fallback, this`activeToken
    {
      if statusRequest && rotation.phase == 2 && !fallback then rotation.candidate else activeToken
    }

    /** Save everything, with the given access token. */
    method SaveRecord(token: Token, deviceId: string, version: nat) returns (ok: bool)
      modifies store
      ensures store.powered ==> old(store.powered)
      ensures ok ==> store.powered && store.record == Record(storedOrigin, token, deviceId, version, rotation, proof)
      ensures store.record == old(store.record) ||
              store.record == Record(storedOrigin, token, deviceId, version, rotation, proof)
      ensures store.reliable && old(store.powered) ==> ok
    {
      ok := store.Save(Record(storedOrigin, token, deviceId, version, rotation, proof));
    }

    /** Power returns, and the record is taken over. */
    method Boot() returns (ok: bool)
      requires Valid()
      modifies store`powered, this`activeToken, this`storedOrigin, this`storedToken, this`storedDeviceId,
        this`credentialVersion, this`rotation, this`proof, this`fallback, this`verifyPending, this`ready, this`restart
      ensures Valid() && store.powered && store.record == old(store.record)
      ensures ok <==> Sensible(store.record, origin)
      ensures ok ==> Working() && Synced() && Recalled() == Taken(store.record, origin)
      ensures ok == ready && !fallback && !verifyPending
    {
      store.Restart();
      ok := Restore();
    }

    /** Rebuild memory from the record, refusing one that makes no sense without touching it. */
    method Restore() returns (ok: bool)
      requires Valid()
      modifies this`activeToken, this`storedOrigin, this`storedToken, this`storedDeviceId, this`credentialVersion,
        this`rotation, this`proof, this`fallback, this`verifyPending, this`ready, this`restart
      ensures Valid() && !restart && ready == ok
      ensures ok ==> Synced() && Recalled() == Taken(store.record, origin)
      ensures !fallback && !verifyPending
      ensures ok <==> Sensible(store.record, origin)
    {
      hide Agrees, Sane, Justified, Taken, SensibleCredential, SensiblePending;
      RecalledAgrees(store.record, origin);
      TakenJustified(word, store.record, origin);
      activeToken, rotation, proof := "", NO_ROTATION, NO_PENDING.(origin := origin);
      fallback, verifyPending, ready, restart := false, false, false, false;
      ok := RestoreCredential(store.record);
      if ok { ok := RestorePending(store.record); }
      ready := ok;
    }

    method RestorePending(r: Record) returns (ok: bool)
      requires proof == NO_PENDING.(origin := origin) && Recalled() == Taken(r, origin).(proof := proof)
      modifies this`proof
      ensures ok <==> SensiblePending(r, origin)
      ensures ok ==> Recalled() == Taken(r, origin)
    {
      hide ValidPending;
      ok := true;
      if r.pending.origin == origin {
        proof := r.pending;
        ok := ValidPending(proof);
      }
    }

    /** The stored credential and its rotation, taken up only for the server configured. */
    method RestoreCredential(r: Record) returns (ok: bool)
      requires activeToken == "" && rotation == NO_ROTATION
      modifies this`activeToken, this`storedOrigin, this`storedToken, this`storedDeviceId, this`credentialVersion,
        this`rotation
      ensures ok <==> SensibleCredential(r, origin)
      ensures ok ==> Recalled() == Taken(r, origin).(proof := proof)
    {
      hide Printable, DeviceId, ValidRotation, Essence;
      storedOrigin, storedToken, storedDeviceId, credentialVersion := r.origin, r.token, r.deviceId, r.version;
      if storedOrigin != origin {
        return true;
      }
      activeToken := r.token;
      if activeToken != "" && !(Printable(activeToken, 32, 511) && DeviceId(storedDeviceId)) {
        return false;
      }
      rotation := r.rotation;
      ok := ValidRotation(rotation);
    }

    /**
     A rotation offered in an authenticated reply. After a failed save no candidate is held, and
     memory agrees with the record exactly if the save had no effect.
     */
    method StageRotation(o: Offer) returns (ok: bool)
      requires Working() && activeToken != ""
      modifies store, this`rotation
      ensures Valid() && (store.powered ==> old(store.powered))
      ensures store.record.token == old(store.record).token || store.record.token == storedToken
      ensures old(rotation).phase != 0 || o.version < rotation.appliedVersion ==>
        store.record == old(store.record) && rotation == old(rotation)
      ensures !ok ==> Essence(rotation) == Essence(old(rotation))
      ensures !ok && rotation != old(rotation) ==>
        rotation == Rotation(0, "", "", "", 0, old(rotation).appliedVersion, old(rotation).appliedNonce)
      ensures old(rotation).phase == 0 && o.version != old(rotation).appliedVersion &&
              !Fresh(o, old(rotation), storedToken)
        ==> !ok && rotation == old(rotation) && store.record == old(store.record)
      ensures old(rotation).phase == 0 && o.version != old(rotation).appliedVersion &&
              (storedToken == "" || proof.ackPending) ==>
        !ok && rotation == old(rotation) && store.record == old(store.record)
      ensures !ok && old(Synced()) ==> (Synced() <==> store.record == old(store.record))
      ensures ok && rotation.phase != old(rotation).phase ==>
        && rotation == Holding(old(rotation), o) && o.version > rotation.appliedVersion
        && store.record.rotation == rotation && Synced()
      ensures store.record != old(store.record) ==>
        old(rotation).phase == 0 && store.record == Saved(old(Recalled()).(rotation := Holding(old(rotation), o)))
      ensures ok && rotation.phase != old(rotation).phase ==> store.record == Saved(Recalled())
      ensures !WellFormed(o) ==> !ok && rotation == old(rotation)
      ensures WellFormed(o) && o.version == old(rotation).appliedVersion ==>
        rotation == old(rotation) && (ok <==> o.token == storedToken && o.nonce == rotation.appliedNonce)
      ensures WellFormed(o) && o.version != old(rotation).appliedVersion && old(rotation).phase != 0 ==>
        (ok <==> o.version == rotation.version && o.token == rotation.candidate && o.nonce == rotation.nonce)
      ensures store.reliable ==> store.powered
      ensures store.reliable && Fresh(o, old(rotation), storedToken) && !proof.ackPending && storedToken != "" ==>
        ok && rotation == Holding(old(rotation), o) && store.record == Saved(Recalled())
    {
      hide Printable, ValidPending, DeviceId, Agrees, Essence, Sane;
      ghost var r, m := store.record, Recalled();
      SaneFacts(origin, m);
      if o.version == 0 || !Printable(o.token, 32, 511) || !Printable(o.nonce, 8, 96) || !Printable(o.expiry, 20, 40) {
        return false;
      }
      if o.version == rotation.appliedVersion {
        return o.token == storedToken && o.nonce == rotation.appliedNonce;
      }
      if rotation.phase != 0 {
        return o.version == rotation.version && o.token == rotation.candidate && o.nonce == rotation.nonce;
      }
      if o.version < rotation.appliedVersion || o.token == storedToken || storedToken == "" || proof.ackPending {
        return false;
      }
      rotation := rotation.(candidate := o.token, nonce := o.nonce, expiry := o.expiry, version := o.version,
        phase := 1);
      ghost var next := Recalled();
      RotationSane(origin, m, rotation);
      SavedAgrees(origin, next);
      ok := SaveRecord(storedToken, storedDeviceId, credentialVersion);
      if !ok {
        rotation := rotation.(candidate := "", nonce := "", expiry := "", version := 0, phase := 0);
        SameEssence(m.rotation, rotation);
        RotationSane(origin, m, rotation);
        EssencePhase(rotation);
        EssencePhase(next.rotation);
        RotationDiffers(Saved(next), origin, Recalled());
        if Agrees(r, origin, m) { RotationDecides(r, origin, m, Recalled()); }
      }
    }

    /**
     A status request sent under `Bearer(true)` was answered. In phase 1 that was the old bearer,
     in phase 2 the candidate itself; only the second acceptance replaces the stored token.
     */
    method StatusResult(ok: bool)
      requires Working() && !fallback && (ok ==> activeToken != "")
      modifies store, this`rotation, this`restart, this`word
      ensures Valid() && (store.powered ==> old(store.powered))
      ensures word == if ok && old(rotation).phase != 0
        then old(word).(accepted := old(word).accepted + {(old(rotation).candidate, old(Bearer(true)))}) else old(word)
      ensures store.record.token == old(store.record).token || store.record.token == storedToken ||
        (ok && old(rotation).phase == 2 && store.record.token == old(rotation).candidate
         && (store.record.token, storedToken) in word.accepted
         && (store.record.token, store.record.token) in word.accepted)
      ensures !ok ==> store.record == old(store.record) && rotation == old(rotation)
      ensures !restart && rotation != old(rotation) ==>
        ok && old(rotation).phase == 1 && rotation == old(rotation).(phase := 2) && store.record.rotation == rotation &&
        Synced()
      ensures !restart && rotation == old(rotation) && old(Synced()) ==>
        (Synced() <==> store.record == old(store.record))
      ensures store.record == old(store.record) ||
        (if old(rotation).phase == 1
         then store.record == Saved(old(Recalled()).(rotation := old(rotation).(phase := 2)))
         else old(rotation).phase == 2 && store.record == Rotated(old(Recalled())))
      ensures restart ==>
        && ok && old(rotation).phase == 2 && store.powered && store.record == Rotated(old(Recalled()))
        && Sensible(store.record, origin)
      ensures store.reliable && ok && old(rotation).phase == 1 ==>
        rotation == old(rotation).(phase := 2) && store.record == Saved(Recalled())
      ensures store.reliable ==> store.powered && (restart <==> ok && old(rotation).phase == 2)
    {
      hide ValidRotation, ValidPending, Printable, DeviceId, Essence, Agrees, Sane, Sensible;
      if !ok {
        return;
      }
      ghost var r, m := store.record, Recalled();
      SaneFacts(origin, m);
      EssencePhase(m.rotation);
      if rotation.phase != 0 {
        word := word.(accepted := word.accepted + {(rotation.candidate, Bearer(true))});
      }
      if rotation.phase == 1 {
        rotation := rotation.(phase := 2);
        PhaseMoved(m.rotation, 2);
        ghost var next := Recalled();
        RotationSane(origin, m, rotation);
        SavedAgrees(origin, next);
        EssencePhase(rotation);
        var saved := SaveRecord(storedToken, storedDeviceId, credentialVersion);
        if !saved {
          rotation := rotation.(phase := 1);
          RotationDiffers(Saved(next), origin, Recalled());
        }
      } else if rotation.phase == 2 {
        var previous := rotation;
        rotation := rotation.(appliedVersion := rotation.version, appliedNonce := rotation.nonce, phase := 0);
        EssencePhase(rotation);
        ghost var next := Record(storedOrigin, rotation.candidate, storedDeviceId, rotation.version, rotation, proof);
        var saved := SaveRecord(rotation.candidate, storedDeviceId, rotation.version);
        if !saved {
          rotation := previous;
          RotationDiffers(next, origin, Recalled());
          return;
        }
        RotatedBoots(origin, m);
        restart := true;
      }
    }

    method BeginRotationFallback()
      modifies this`fallback
      ensures fallback && Bearer(true) == activeToken
    {
      fallback := true;
    }

    /**
     After a rejected rotation: the old bearer was tried alone. Only its acceptance discards the
     candidate. A failed save keeps it, and memory then agrees with the record exactly if the save
     had no effect, or there was nothing to discard.
     */
    method FinishRotationFallback(oldAccepted: bool) returns (ok: bool)
      requires Working() && (oldAccepted ==> activeToken != "")
      modifies store, this`fallback, this`rotation
      ensures Valid() && !fallback && (store.powered ==> old(store.powered))
      ensures store.record.token == old(store.record).token || store.record.token == storedToken
      ensures ok ==>
        && oldAccepted && Synced() && store.record == Saved(Recalled())
        && rotation == Rotation(0, "", "", "", 0, old(rotation).appliedVersion, old(rotation).appliedNonce)
      ensures !oldAccepted ==> !ok && store.record == old(store.record)
      ensures !ok ==> rotation == old(rotation)
      ensures !ok && old(Synced()) ==> (Synced() <==> store.record == old(store.record) || old(rotation).phase == 0)
      ensures store.record != old(store.record) ==> store.record.rotation.phase == 0
      ensures store.reliable ==> store.powered && (oldAccepted ==> ok)
    {
      hide ValidRotation, ValidPending, Printable, DeviceId, Agrees, Essence, Sane;
      fallback := false;
      if !oldAccepted {
        return false;
      }
      ghost var r, m := store.record, Recalled();
      SaneFacts(origin, m);
      var previous := rotation;
      rotation := Rotation(0, "", "", "", 0, rotation.appliedVersion, rotation.appliedNonce);
      WithoutRotation(rotation);
      ghost var next := Recalled();
      RotationSane(origin, m, rotation);
      SavedAgrees(origin, next);
      ok := SaveRecord(storedToken, storedDeviceId, credentialVersion);
      if !ok {
        EssencePhase(rotation);
        EssencePhase(previous);
        ghost var dropped := rotation;
        rotation := previous;
        if previous.phase != 0 {
          RotationDiffers(Saved(next), origin, Recalled());
        } else {
          SameEssence(dropped, previous);
          RotationDecides(Saved(next), origin, next, Recalled());
        }
      }
    }

    /** Offered, accepted under the old bearer and then under itself, a candidate is what the next boot starts with. */
    method Rotate(o: Offer) returns (ok: bool)
      requires Working() && store.reliable && activeToken != "" && !proof.ackPending && !fallback
      requires Fresh(o, rotation, storedToken)
      modifies store, this
      ensures ok && Working() && Synced() && activeToken == storedToken == o.token && credentialVersion == o.version
      ensures storedDeviceId == old(storedDeviceId) && rotation.phase == 0
      ensures rotation.appliedVersion == o.version && rotation.appliedNonce == o.nonce
    {
      hide Printable, DeviceId, ValidPending, ValidRotation, Agrees, Sane, Justified, Sensible;
      ActiveIsStored(origin, Recalled());
      var staged := StageRotation(o);
      StatusResult(true);
      ghost var m := Recalled();
      RotatedBoots(origin, m);
      StatusResult(true);
      ok := Boot();
    }

    /** Approved by the owner, issued and acknowledged, a credential is what the next boot starts with. */
    method Authorize(challenge: Body, issued: Body, acknowledged: Body) returns (ok: bool)
      requires Working() && store.reliable && !proof.ackPending && Challenges(challenge)
      requires Issues(200, issued, Poll) && Complete(issued)
      requires acknowledged.Body? && acknowledged.status == "acknowledged"
      modifies store, this
      ensures ok && Working() && Synced() && activeToken == storedToken && storedOrigin == origin
      ensures issued.accessToken == Some(storedToken) && issued.deviceId == Some(storedDeviceId)
      ensures issued.credentialVersion == Some(credentialVersion) && !proof.ackPending
    {
      hide Printable, DeviceId, ValidPending, ValidRotation, Agrees, Sane, Justified, Sensible, Essence;
      Accept(201, challenge, Start);
      UuidLength(proof.authorizationId);
      Accept(200, issued, Poll);
      ghost var m := Recalled();
      BootstrappedBoots(origin, m);
      Accept(200, acknowledged, Acknowledge);
      ok := Boot();
    }

    /** The identity check names this very credential: its logger, by bearer, with the right to ingest. */
    predicate Confirms(a: Actor)
      reads this`proof
    {
      a.authenticated && a.method_ == "bearer" && a.subject == "logger:" + proof.deviceId && a.ingest
    }

    /**
     A reply to one of the authorization's own requests. The stored token changes only when the
     pending bootstrap credential is acknowledged, or confirmed by identity, and saved; or back
     to memory's, where a failed save had left the record ahead of it.
     */
    method Accept(code: int, body: Body, ask: Ask)
      requires Working()
      requires ask == Acknowledge || ask == Verify ==> proof.ackPending
      requires ask == Start ==> !proof.ackPending
      requires ask == Poll ==> |proof.authorizationId| == 36 && Printable(proof.deviceCode, 32, 256)
      modifies store, this`storedOrigin, this`rotation, this`proof, this`verifyPending, this`restart, this`word
      ensures Valid() && (store.powered ==> old(store.powered))
      ensures word == old(word) || (Vouches(old(proof), code, body, ask) &&
        word == Vouched(old(word), old(proof).token))
      ensures store.record.token == old(store.record).token || store.record.token == storedToken ||
        (Vouches(old(proof), code, body, ask) && store.record.token == old(proof).token &&
          old(proof).token in word.vouched)
      ensures restart ==>
        && Vouches(old(proof), code, body, ask) && store.record == Bootstrapped(old(Recalled()), origin)
        && store.powered && Sensible(store.record, origin)
      ensures code == 429 || code <= 0 || code >= 500 ==>
        proof == old(proof) && store.record == old(store.record) && verifyPending == old(verifyPending)
      ensures code == 410 && ask == Acknowledge ==>
        proof == old(proof) && store.record == old(store.record) && verifyPending
      ensures Denies(old(proof), code, body, ask) ==>
        && proof == NO_PENDING.(origin := origin) && !verifyPending
        && (store.reliable ==> store.record == Saved(Recalled()))
      ensures store.reliable && code == 201 && ask == Start && Challenges(body) ==>
        proof == Challenge(old(proof), body) && store.record == Saved(Recalled())
      ensures store.reliable && Issues(code, body, ask) && Complete(body) ==>
        proof == Credential(old(proof), body) && store.record == Saved(Recalled())
      ensures proof != old(proof) ==>
        Vouches(old(proof), code, body, ask) || Denies(old(proof), code, body, ask) ||
        (code == 201 && ask == Start) || Issues(code, body, ask)
      ensures code == 200 && ask == Verify && body.Body? ==> !verifyPending
      ensures store.reliable ==> store.powered
      ensures !restart ==> rotation == old(rotation) && storedOrigin == old(storedOrigin)
      ensures Vouches(old(proof), code, body, ask) && !restart ==> proof == old(proof).(userCode := "")
      ensures Vouches(old(proof), code, body, ask) && !restart && old(Synced()) ==>
        (Synced() <==> store.record == old(store.record))
      ensures store.reliable && Vouches(old(proof), code, body, ask) ==> restart
    {
      hide Agrees, Essence, ValidPending, ValidRotation, Printable, DeviceId, Uuid, Sane, Sensible, Complete,
        Challenges, Saved, Challenge, Credential, Justified;
      ghost var m := Recalled();
      SaneFacts(origin, m);
      if code == 429 || code <= 0 || code >= 500 {
        return;
      }
      if code == 410 && ask == Acknowledge && proof.ackPending {
        verifyPending := true;
        return;
      }
      if ask == Verify && code == 200 {
        if body.Unreadable? {
          return;
        }
        verifyPending := false;
        if Confirms(body.actor) {
          Acknowledged();
        } else {
          Rejected();
        }
        return;
      }
      if code == 410 || code == 403 || code == 401 {
        Rejected();
        return;
      }
      if body.Unreadable? {
        return;
      }
      if ask == Acknowledge && code == 200 && body.status == "acknowledged" {
        Acknowledged();
      } else if ask == Start && code == 201 {
        Challenged(body);
      } else if ask != Start && code == 202 && body.status == "authorization_pending" {
      } else if ask == Poll && code == 200 && body.status == "authorized" && body.tokenType == "Bearer" {
        Issued(body);
      }
    }

    /**
     The pending credential becomes the stored one, together with everything that ends with it.
     If the save fails, memory is as it was but for the user code, and agrees with the record
     exactly if the save had no effect.
     */
    method Acknowledged()
      requires Working() && proof.ackPending
      modifies store, this`storedOrigin, this`rotation, this`proof, this`restart, this`word
      ensures Valid() && (store.powered ==> old(store.powered))
      ensures word == Vouched(old(word), old(proof).token)
      ensures store.record == old(store.record) ||
        store.record == Bootstrapped(old(Recalled()), origin)
      ensures restart ==>
        store.powered && store.record == Bootstrapped(old(Recalled()), origin) && Sensible(store.record, origin)
      ensures !restart ==>
        rotation == old(rotation) && storedOrigin == old(storedOrigin) && proof == old(proof).(userCode := "")
      ensures !restart ==> (proof == old(proof) <==> old(proof).userCode == "")
      ensures !restart && old(Synced()) ==> (Synced() <==> store.record == old(store.record))
      ensures store.reliable ==> restart
    {
      hide Agrees, Essence, ValidPending, ValidRotation, Printable, DeviceId, Sane, Sensible;
      word := Vouched(word, proof.token);
      ghost var r, m := store.record, Recalled();
      SaneFacts(origin, m);
      var oldOrigin, oldRotation, oldProof := storedOrigin, rotation, proof;
      storedOrigin := origin;
      rotation := rotation.(phase := 0, candidate := "", appliedVersion := 0, appliedNonce := "");
      proof := proof.(authorizationId := "", deviceCode := "", userCode := "", ackPending := false);
      ghost var next := Record(storedOrigin, proof.token, proof.deviceId, proof.version, rotation, proof);
      var saved := SaveRecord(proof.token, proof.deviceId, proof.version);
      if !saved {
        storedOrigin, rotation := oldOrigin, oldRotation;
        proof := proof.(authorizationId := oldProof.authorizationId, deviceCode := oldProof.deviceCode,
          ackPending := true);
        ProofBack(oldProof, proof);
        UserCodeIsValid(oldProof);
        PendingSane(origin, m, proof);
        PendingDiffers(next, origin, Recalled());
        if Agrees(r, origin, m) { PendingDecides(r, origin, m, proof); }
        return;
      }
      BootstrappedBoots(origin, m);
      restart := true;
    }

    /** Denied, expired or disproved: the pending credential is dropped, the stored one stays. */
    method Rejected()
      requires Working()
      modifies store, this`proof, this`verifyPending
      ensures Valid() && (store.powered ==> old(store.powered))
      ensures store.record.token == old(store.record).token || store.record.token == storedToken
      ensures proof == NO_PENDING.(origin := origin) && !verifyPending
      ensures store.record != old(store.record) ==> Synced() && store.record == Saved(Recalled())
      ensures store.record == old(store.record) && old(Synced()) ==> (Synced() <==> !old(proof).ackPending)
      ensures store.reliable ==> store.powered && store.record == Saved(Recalled())
    {
      hide Agrees, Essence, ValidPending, ValidRotation, Printable, DeviceId, Sane;
      ghost var r, m := store.record, Recalled();
      SaneFacts(origin, m);
      proof, verifyPending := NO_PENDING.(origin := origin), false;
      PendingSane(origin, m, proof);
      SavedAgrees(origin, Recalled());
      if Agrees(r, origin, m) { PendingDecides(r, origin, m, proof); }
      var saved := SaveRecord(storedToken, storedDeviceId, credentialVersion);
    }

    /** A challenge for the owner to approve, saved before it is polled. */
    method Challenged(body: Body)
      requires Working() && !proof.ackPending && body.Body?
      modifies store, this`proof
      ensures Valid() && (store.powered ==> old(store.powered))
      ensures store.record.token == old(store.record).token || store.record.token == storedToken
      ensures !proof.ackPending && (old(Synced()) || store.record != old(store.record) ==> Synced())
      ensures !Challenges(body) ==> proof == old(proof) && store.record == old(store.record) && store.powered
      ensures Challenges(body) ==>
        || proof == old(proof).(authorizationId := "", deviceCode := "", userCode := "")
        || (proof == Challenge(old(proof), body) && store.powered && store.record == Saved(Recalled()))
      ensures store.reliable ==> store.powered
      ensures store.reliable && Challenges(body) ==>
        proof == Challenge(old(proof), body) && store.record == Saved(Recalled())
    {
      hide Agrees, Essence, ValidPending, ValidRotation, Printable, DeviceId, Uuid, Sane;
      ghost var r, m := store.record, Recalled();
      SaneFacts(origin, m);
      if body.authorizationId.None? || body.deviceCode.None? || body.userCode.None? || body.expiresIn.None? {
        return;
      }
      var id, code, user := body.authorizationId.value, body.deviceCode.value, body.userCode.value;
      if !Uuid(id) || !Printable(code, 32, 256) || !Printable(user, 8, 16) || body.expiresIn.value == 0
         || body.expiresIn.value > 600 {
        return;
      }
      proof := proof.(authorizationId := id, deviceCode := code, userCode := user);
      ghost var next := Recalled();
      PendingSane(origin, m, proof);
      SavedAgrees(origin, next);
      if Agrees(r, origin, m) { PendingDecides(r, origin, m, proof); }
      var saved := SaveRecord(storedToken, storedDeviceId, credentialVersion);
      if !saved {
        proof := proof.(authorizationId := "", deviceCode := "", userCode := "");
        PendingSane(origin, m, proof);
        PendingDecides(Saved(next), origin, next, proof);
        if Agrees(r, origin, m) { PendingDecides(r, origin, m, proof); }
      }
    }

    /** The server issued a credential: kept apart from the stored one until it is acknowledged. */
    method Issued(body: Body)
      requires Working() && body.Body?
      requires |proof.authorizationId| == 36 && Printable(proof.deviceCode, 32, 256)
      modifies store, this`proof
      ensures Valid() && (store.powered ==> old(store.powered))
      ensures store.record.token == old(store.record).token || store.record.token == storedToken
      ensures !Complete(body) ==> proof == old(proof) && store.record == old(store.record) && store.powered
      ensures Complete(body) ==>
        || proof == Credential(old(proof), body).(ackPending := false)
        || (proof == Credential(old(proof), body) && store.powered && store.record == Saved(Recalled()) && Synced())
      ensures old(Synced() && !proof.ackPending) && !proof.ackPending ==>
        (Synced() <==> store.record == old(store.record))
      ensures store.reliable ==> store.powered
      ensures store.reliable && Complete(body) ==>
        proof == Credential(old(proof), body) && store.record == Saved(Recalled())
    {
      hide Agrees, Essence, ValidRotation, Printable, DeviceId, Sane;
      ghost var r, m := store.record, Recalled();
      SaneFacts(origin, m);
      if body.accessToken.None? || body.deviceId.None? || body.credentialVersion.None? {
        return;
      }
      if !Printable(body.accessToken.value, 32, 511) || !DeviceId(body.deviceId.value) {
        return;
      }
      proof := proof.(ackPending := true, token := body.accessToken.value, deviceId := body.deviceId.value,
        version := body.credentialVersion.value);
      ghost var next := Recalled();
      PendingSane(origin, m, proof);
      SavedAgrees(origin, next);
      var saved := SaveRecord(storedToken, storedDeviceId, credentialVersion);
      if !saved {
        proof := proof.(ackPending := false);
        PendingSane(origin, m, proof);
        PendingDiffers(Saved(next), origin, Recalled());
        if Agrees(r, origin, m) { PendingDecides(r, origin, m, proof); }
      }
    }
  }

  lemma ProofBack(was: Pending, p: Pending)
    requires p == was.(userCode := p.userCode) && p.userCode == ""
    ensures p == was.(userCode := "") && (p == was <==> was.userCode == "")
  {
  }

  lemma UserCodeIsValid(p: Pending)
    requires ValidPending(p)
    ensures ValidPending(p.(userCode := ""))
  {
    hide Printable, DeviceId;
  }

  /** A challenge the owner can approve. */
  predicate Challenges(body: Body): (valid: bool)
    ensures valid ==> body.Body?
  {
    && body.Body? && body.authorizationId.Some? && body.deviceCode.Some? && body.userCode.Some? && body.expiresIn.Some?
    && Uuid(body.authorizationId.value) && Printable(body.deviceCode.value, 32, 256)
    && Printable(body.userCode.value, 8, 16) && 0 < body.expiresIn.value <= 600
  }

  function Challenge(p: Pending, body: Body): Pending
    requires Challenges(body)
  {
    p.(authorizationId := body.authorizationId.value, deviceCode := body.deviceCode.value,
       userCode := body.userCode.value)
  }

  function Credential(p: Pending, body: Body): Pending
    requires Complete(body)
  {
    p.(ackPending := true, token := body.accessToken.value, deviceId := body.deviceId.value,
       version := body.credentialVersion.value)
  }

  /** An issued credential with everything it needs. */
  predicate Complete(body: Body): (valid: bool)
    ensures valid ==> body.Body?
  {
    && body.Body? && body.accessToken.Some? && body.deviceId.Some? && body.credentialVersion.Some?
    && Printable(body.accessToken.value, 32, 511) && DeviceId(body.deviceId.value)
  }

  /** The reply carries an issued credential. */
  predicate Issues(code: int, body: Body, ask: Ask)
  {
    ask == Poll && code == 200 && body.Body? && body.status == "authorized" && body.tokenType == "Bearer"
  }

  /** The reply ends the pending authorization: denied, expired, or disproved by the identity check. */
  predicate Denies(p: Pending, code: int, body: Body, ask: Ask)
  {
    || (code == 410 && ask != Acknowledge) || code == 403 || code == 401
    || (code == 200 && ask == Verify && body.Body? && !Vouches(p, code, body, ask))
  }

  /**
   The reply is the server's word for the pending credential: an acknowledgement, or an identity
   check that names it.
   */
  predicate Vouches(p: Pending, code: int, body: Body, ask: Ask)
  {
    code == 200 && body.Body? && p.ackPending
    && ((ask == Acknowledge && body.status == "acknowledged")
        || (ask == Verify && body.actor.authenticated && body.actor.method_ == "bearer"
            && body.actor.subject == "logger:" + p.deviceId && body.actor.ingest))
  }
}
