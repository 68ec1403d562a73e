/**
 Provisioning over USB: the old owner's credentials are cleared behind the reset latch,
 then the new owner's are written key by key, with `ready` last.
 */
module DeviceProvisioning {
  import opened OwnerReset

  datatype Protocol = Mqtt | Https

  datatype Settings = Settings(
    deviceId: string, name: string, wifiSsid: string, wifiPassword: string, otaPassword: string,
    protocol: Protocol, host: string, port: nat, mqttUser: string, mqttPassword: string,
    cfId: string, cfSecret: string, appToken: string, appSubject: string,
    provisionedAt: string, remoteManagement: bool)

  predicate ValidText(s: string, maximum: nat): (valid: bool)
    ensures valid ==> s != ""
  {
    1 <= |s| <= maximum && forall i | 0 <= i < |s| :: s[i] as int >= 0x20 && s[i] as int != 0x7f
  }

  predicate LowerHex(c: char)
  {
    '0' <= c <= '9' || 'a' <= c <= 'f'
  }

  predicate CanonicalDeviceId(id: string)
  {
    && |id| == 16 && id[..4] == "mda-" && (forall i | 4 <= i < 16 :: LowerHex(id[i]))
    && (exists i :: 4 <= i < 16 && id[i] != '0')
  }

  /** What a command must satisfy, and what a stored record is tested for again at every boot. */
  predicate ValidSettings(c: Settings, revision: string, deviceId: string)
  {
    && CanonicalDeviceId(deviceId) && c.deviceId == deviceId
    && ValidText(c.name, 63) && ValidText(c.wifiSsid, 32) && ValidText(c.wifiPassword, 63)
    && ValidText(c.otaPassword, 127)
    && ValidText(c.host, 127) && 0 < c.port < 0x1_0000 && ValidText(revision, 31) && ValidText(c.provisionedAt, 40)
    && |c.otaPassword| >= 12 && |c.wifiPassword| >= 8
    && match c.protocol
       case Mqtt => c.mqttUser == deviceId && ValidText(c.mqttPassword, 127)
       case Https =>
         && ValidText(c.cfId, 127) && ValidText(c.cfSecret, 127) && ValidText(c.appToken, 511)
         && c.appSubject == "logger:" + deviceId
  }

  function Filled(n: nat): (s: string)
    ensures |s| == n
  {
    seq(n, i => 'a')
  }

  /** How long each text of a command may be. */
  lemma FieldLimits(c: Settings, revision: string, deviceId: string, n: nat)
    requires ValidSettings(c, revision, deviceId)
    ensures ValidSettings(c.(name := Filled(n)), revision, deviceId) <==> 1 <= n <= 63
    ensures ValidSettings(c.(wifiSsid := Filled(n)), revision, deviceId) <==> 1 <= n <= 32
    ensures ValidSettings(c.(wifiPassword := Filled(n)), revision, deviceId) <==> 8 <= n <= 63
    ensures ValidSettings(c.(otaPassword := Filled(n)), revision, deviceId) <==> 12 <= n <= 127
    ensures ValidSettings(c.(host := Filled(n)), revision, deviceId) <==> 1 <= n <= 127
    ensures ValidSettings(c.(port := n), revision, deviceId) <==> 1 <= n <= 65535
    ensures ValidSettings(c.(provisionedAt := Filled(n)), revision, deviceId) <==> 1 <= n <= 40
    ensures ValidSettings(c, Filled(n), deviceId) <==> 1 <= n <= 31
    ensures c.protocol == Mqtt ==> (ValidSettings(c.(mqttPassword := Filled(n)), revision, deviceId) <==> 1 <= n <= 127)
    ensures c.protocol == Https ==>
      && (ValidSettings(c.(cfId := Filled(n)), revision, deviceId) <==> 1 <= n <= 127)
      && (ValidSettings(c.(cfSecret := Filled(n)), revision, deviceId) <==> 1 <= n <= 127)
      && (ValidSettings(c.(appToken := Filled(n)), revision, deviceId) <==> 1 <= n <= 511)
  {
    hide CanonicalDeviceId;
  }

  /** A command for another device, or under another name at its server, is not valid. */
  lemma IdentityLimits(c: Settings, revision: string, deviceId: string, other: string, ch: char)
    requires ValidSettings(c, revision, deviceId) && other != deviceId
    ensures !ValidSettings(c.(deviceId := other), revision, deviceId)
    ensures c.protocol == Mqtt ==> !ValidSettings(c.(mqttUser := other), revision, deviceId)
    ensures c.protocol == Https ==> !ValidSettings(c.(appSubject := deviceId), revision, deviceId)
    ensures ValidText([ch], 1) <==> ch as int >= 32 && ch as int != 127
  {
    assert [ch][0] == ch;
    if c.protocol == Https {
      assert |"logger:" + deviceId| != |deviceId|;
    }
  }

  /** Twelve lower-case hexadecimal digits, not all 0, behind the prefix. */
  lemma IdentitySamples()
    ensures CanonicalDeviceId("mda-0123456789ab") && CanonicalDeviceId("mda-cdef00000000")
    ensures !CanonicalDeviceId("mda-000000000000") && !CanonicalDeviceId("mdb-0123456789ab")
    ensures !CanonicalDeviceId("mda-0123456789aB") && !CanonicalDeviceId("mda-0123456789a")
  {
    var a, b, d := "mda-0123456789ab", "mda-cdef00000000", "mda-0123456789aB";
    assert a[4] == '0' && a[5] == '1' && b[4] == 'c' && d[15] == 'B' && "mdb-0123456789ab"[2] == 'b';
  }

  function TextAt(m: Namespace, key: Key, otherwise: string): string
  {
    if key in m && m[key].Text? then m[key].text else otherwise
  }

  function NumberAt(m: Namespace, key: Key, otherwise: nat): nat
  {
    if key in m && m[key].Number? then m[key].number else otherwise
  }

  function FlagAt(m: Namespace, key: Key): bool
  {
    key in m && m[key].Flag? && m[key].flag
  }

  function Load(m: Namespace, deviceId: string): Settings
  {
    Settings(
      deviceId, TextAt(m, OwnerName, deviceId), TextAt(m, WifiSsid, ""), TextAt(m, WifiPassword, ""),
      TextAt(m, OtaPassword, ""), if NumberAt(m, UploadProtocol, 0xff) == 0 then Mqtt else Https,
      TextAt(m, UploadHost, ""), NumberAt(m, UploadPort, 0), TextAt(m, MqttUser, ""), TextAt(m, MqttPassword, ""),
      TextAt(m, CloudflareId, ""), TextAt(m, CloudflareSecret, ""), TextAt(m, AppToken, ""), TextAt(m, AppSubject, ""),
      TextAt(m, ProvisionedAt, ""), FlagAt(m, RemoteManagement))
  }

  datatype Start = Unprovisioned | Faulty | Provisioned(settings: Settings)

  /** What a boot makes of the owner namespace. */
  function BootOf(m: Namespace, revision: string, deviceId: string): Start
  {
    if !FlagAt(m, Ready) then Unprovisioned
    else if TextAt(m, OwnerDevice, "") != deviceId then Faulty
    else if NumberAt(m, UploadProtocol, 0xff) > 1 then Faulty
    else if !ValidSettings(Load(m, deviceId), if revision == "" then "unknown" else revision, deviceId) then Faulty
    else Provisioned(Load(m, deviceId))
  }

  /** A record marked ready that lacks a key it cannot do without, or names no protocol there is, makes no owner. */
  lemma MissingKeyIsNoticed(m: Namespace, k: Key, revision: string, deviceId: string)
    requires FlagAt(m, Ready) && deviceId != ""
    ensures k !in m && k in {OwnerDevice, WifiSsid, WifiPassword, OtaPassword} ==>
      BootOf(m, revision, deviceId) == Faulty
    ensures k !in m && k in {UploadHost, UploadPort, UploadProtocol, ProvisionedAt} ==>
      BootOf(m, revision, deviceId) == Faulty
    ensures k !in m && NumberAt(m, UploadProtocol, 1) == 0 && k in {MqttUser, MqttPassword} ==>
      BootOf(m, revision, deviceId) == Faulty
    ensures k !in m && NumberAt(m, UploadProtocol, 0) == 1 ==>
      k in {CloudflareId, CloudflareSecret, AppToken, AppSubject} ==> BootOf(m, revision, deviceId) == Faulty
    ensures NumberAt(m, UploadProtocol, 0) > 1 ==> BootOf(m, revision, deviceId) == Faulty
  {
    hide CanonicalDeviceId;
    assert !ValidText("", 511);
  }

  /** A command's settings as they are kept: the other protocol's credentials are not stored. */
  function Kept(c: Settings): Settings
  {
    match c.protocol
    case Mqtt => c.(cfId := "", cfSecret := "", appToken := "", appSubject := "")
    case Https => c.(mqttUser := "", mqttPassword := "")
  }

  /** The complete record of an owner, in the order it is written; `ready` last. */
  function Record(c: Settings): Namespace
  {
    Finished(ProtocolPart(Common(map[], c), c), c)[Ready := Flag(true)]
  }

  function Common(m: Namespace, c: Settings): Namespace
  {
    m[OwnerDevice := Text(c.deviceId)][OwnerName := Text(c.name)][WifiSsid := Text(c.wifiSsid)]
     [WifiPassword := Text(c.wifiPassword)]
     [OtaPassword := Text(c.otaPassword)][UploadHost := Text(c.host)][UploadPort := Number(c.port)]
     [UploadProtocol := Number(if c.protocol.Mqtt? then 0 else 1)]
  }

  function ProtocolPart(m: Namespace, c: Settings): Namespace
  {
    if c.protocol.Mqtt? then MqttPart(m, c) else HttpsPart(m, c)
  }

  function MqttPart(m: Namespace, c: Settings): Namespace
  {
    m[MqttUser := Text(c.mqttUser)][MqttPassword := Text(c.mqttPassword)]
  }

  function HttpsPart(m: Namespace, c: Settings): Namespace
  {
    m[CloudflareId := Text(c.cfId)][CloudflareSecret := Text(c.cfSecret)][AppToken := Text(c.appToken)]
     [AppSubject := Text(c.appSubject)]
  }

  function Finished(m: Namespace, c: Settings): Namespace
  {
    m[ProvisionedAt := Text(c.provisionedAt)][RemoteManagement := Flag(c.remoteManagement)]
  }

  /** Two namespaces read alike under a key. */
  predicate Same(a: Namespace, b: Namespace, k: Key)
  {
    (k in a <==> k in b) && (k in a ==> a[k] == b[k])
  }

  lemma SameReads(a: Namespace, b: Namespace, k: Key, otherwise: string, number: nat)
    requires Same(a, b, k)
    ensures TextAt(a, k, otherwise) == TextAt(b, k, otherwise) && NumberAt(a, k, number) == NumberAt(b, k, number) &&
            FlagAt(a, k) == FlagAt(b, k)
  {
  }

  predicate EarlyKey(k: Key)
  {
    k == OwnerDevice || k == OwnerName || k == WifiSsid || k == WifiPassword
    || k == OtaPassword || k == UploadHost || k == UploadPort || k == UploadProtocol
  }

  predicate LateKey(k: Key)
  {
    k == ProvisionedAt || k == RemoteManagement || k == Ready
  }

  /** What the last three writes do, and that they do no more. */
  lemma TailWrites(m: Namespace, c: Settings)
    ensures var r := Finished(m, c)[Ready := Flag(true)];
      && TextAt(r, ProvisionedAt, "") == c.provisionedAt && FlagAt(r, RemoteManagement) == c.remoteManagement
      && FlagAt(r, Ready)
      && (forall k | !LateKey(k) :: Same(r, m, k))
  {
  }

  lemma CommonWrites(c: Settings)
    ensures var m := Common(map[], c);
      && TextAt(m, OwnerDevice, "") == c.deviceId && TextAt(m, OwnerName, c.deviceId) == c.name
      && TextAt(m, WifiSsid, "") == c.wifiSsid
      && TextAt(m, WifiPassword, "") == c.wifiPassword && TextAt(m, OtaPassword, "") == c.otaPassword
      && TextAt(m, UploadHost, "") == c.host
      && NumberAt(m, UploadPort, 0) == c.port
      && NumberAt(m, UploadProtocol, 0xff) == (if c.protocol.Mqtt? then 0 else 1)
      && (forall k | k in m :: EarlyKey(k))
  {
  }

  lemma MqttWrites(m: Namespace, c: Settings)
    ensures var r := MqttPart(m, c);
      && TextAt(r, MqttUser, "") == c.mqttUser && TextAt(r, MqttPassword, "") == c.mqttPassword
      && (forall k | k != MqttUser && k != MqttPassword :: Same(r, m, k))
  {
  }

  lemma HttpsWrites(m: Namespace, c: Settings)
    ensures var r := HttpsPart(m, c);
      && TextAt(r, CloudflareId, "") == c.cfId && TextAt(r, CloudflareSecret, "") == c.cfSecret
      && TextAt(r, AppToken, "") == c.appToken && TextAt(r, AppSubject, "") == c.appSubject
      && (forall k | k != CloudflareId && k != CloudflareSecret && k != AppToken && k != AppSubject :: Same(r, m, k))
  {
  }

  lemma Unwritten(m: Namespace, k: Key)
    requires k !in m
    ensures TextAt(m, k, "") == ""
  {
  }

  /** The credentials of the protocol chosen, and none of the other's. */
  lemma ProtocolWrites(m: Namespace, c: Settings)
    requires forall k | k in m :: EarlyKey(k)
    ensures var r := ProtocolPart(m, c);
      && TextAt(r, MqttUser, "") == Kept(c).mqttUser && TextAt(r, MqttPassword, "") == Kept(c).mqttPassword
      && TextAt(r, CloudflareId, "") == Kept(c).cfId && TextAt(r, CloudflareSecret, "") == Kept(c).cfSecret
      && TextAt(r, AppToken, "") == Kept(c).appToken && TextAt(r, AppSubject, "") == Kept(c).appSubject
      && (forall k | EarlyKey(k) :: Same(r, m, k))
  {
    hide MqttPart, HttpsPart, TextAt;
    var r := ProtocolPart(m, c);
    if c.protocol.Mqtt? {
      MqttWrites(m, c);
      assert Same(r, m, CloudflareId) && Same(r, m, CloudflareSecret) && Same(r, m, AppToken) && Same(r, m, AppSubject);
      Unwritten(r, CloudflareId);
      Unwritten(r, CloudflareSecret);
      Unwritten(r, AppToken);
      Unwritten(r, AppSubject);
    } else {
      HttpsWrites(m, c);
      assert Same(r, m, MqttUser) && Same(r, m, MqttPassword);
      Unwritten(r, MqttUser);
      Unwritten(r, MqttPassword);
    }
  }

  lemma RecordLoads(c: Settings)
    ensures Load(Record(c), c.deviceId) == Kept(c)
    ensures FlagAt(Record(c), Ready) && TextAt(Record(c), OwnerDevice, "") == c.deviceId &&
            NumberAt(Record(c), UploadProtocol, 0xff) <= 1
  {
    hide TextAt, NumberAt, FlagAt, Common, ProtocolPart, Finished, Same;
    var m := Common(map[], c);
    var p := ProtocolPart(m, c);
    var r := Record(c);
    CommonWrites(c);
    ProtocolWrites(m, c);
    TailWrites(p, c);
    EarlyStays(m, p, r, OwnerDevice, "", 0);
    EarlyStays(m, p, r, OwnerName, c.deviceId, 0);
    EarlyStays(m, p, r, WifiSsid, "", 0);
    EarlyStays(m, p, r, WifiPassword, "", 0);
    EarlyStays(m, p, r, OtaPassword, "", 0);
    EarlyStays(m, p, r, UploadHost, "", 0);
    EarlyStays(m, p, r, UploadPort, "", 0);
    EarlyStays(m, p, r, UploadProtocol, "", 0xff);
    SameReads(r, p, MqttUser, "", 0);
    SameReads(r, p, MqttPassword, "", 0);
    SameReads(r, p, CloudflareId, "", 0);
    SameReads(r, p, CloudflareSecret, "", 0);
    SameReads(r, p, AppToken, "", 0);
    SameReads(r, p, AppSubject, "", 0);
  }

  lemma EarlyStays(m: Namespace, p: Namespace, r: Namespace, k: Key, otherwise: string, number: nat)
    requires EarlyKey(k) && Same(r, p, k) && Same(p, m, k)
    ensures TextAt(r, k, otherwise) == TextAt(m, k, otherwise) && NumberAt(r, k, number) == NumberAt(m, k, number)
  {
  }

  lemma KeptIsValid(c: Settings, revision: string, deviceId: string)
    requires ValidSettings(c, revision, deviceId)
    ensures ValidSettings(Kept(c), revision, deviceId) && revision != ""
  {
    hide ValidText, CanonicalDeviceId;
  }

  /** A complete record boots as exactly the settings that were sent. */
  lemma RecordBoots(c: Settings, revision: string, deviceId: string)
    requires ValidSettings(c, revision, deviceId)
    ensures BootOf(Record(c), revision, deviceId) == Provisioned(Kept(c))
  {
    RecordLoads(c);
    KeptIsValid(c, revision, deviceId);
    hide ValidText, CanonicalDeviceId, Record, Load, Kept, TextAt, NumberAt, FlagAt;
  }

  /** Whatever else is in it, the owner namespace is not marked ready, and the other namespaces are as given. */
  ghost predicate Unready(stores: seq<Namespace>, others: seq<Namespace>)
  {
    |stores| > 0 && stores[1..] == others && Ready !in stores[0]
  }

  /** Nobody owns the device, or exactly the owner with settings `c`; nothing of anyone else is left. */
  ghost predicate Vacant(stores: seq<Namespace>, revision: string, deviceId: string)
  {
    |stores| > 0 && AllClear(stores[1..]) && BootOf(stores[0], revision, deviceId) == Unprovisioned
  }

  ghost predicate OwnedBy(stores: seq<Namespace>, revision: string, deviceId: string, c: Settings)
  {
    |stores| > 0 && AllClear(stores[1..]) && BootOf(stores[0], revision, deviceId) == Provisioned(Kept(c))
  }

  /** How a provisioning command can leave the device, wherever it stops. */
  ghost predicate AllOrNothing(latch: Latch, stores: seq<Namespace>, revision: string, wasLatch: Latch,
      was: seq<Namespace>, wasRevision: string, deviceId: string, c: Settings)
  {
    || (latch == wasLatch && stores == was && revision == wasRevision)
    || Latched(latch) || Vacant(stores, revision, deviceId) || OwnedBy(stores, revision, deviceId, c)
  }

  /** A provisioning command, or a boot. */
  datatype Act = Command(settings: Settings, revision: string) | PowerOn

  /** The same after any number of commands and boots: an owner is the untouched old one, or one that was sent. */
  ghost predicate OneOwner(latch: Latch, stores: seq<Namespace>, revision: string, wasLatch: Latch, was: seq<Namespace>,
      wasRevision: string, deviceId: string, acts: seq<Act>)
  {
    || (latch == wasLatch && stores == was && revision == wasRevision)
    || Latched(latch) || Vacant(stores, revision, deviceId)
    || exists act | act in acts :: act.Command? && OwnedBy(stores, revision, deviceId, act.settings)
  }

  lemma ErasedLength(a: seq<Namespace>, b: seq<Namespace>)
    requires Erased(a, b)
    ensures |a| == |b|
  {
  }

  lemma ClearIsVacant(stores: seq<Namespace>, revision: string, deviceId: string)
    ensures AllClear(stores) && |stores| > 0 ==> Vacant(stores, revision, deviceId)
  {
  }

  /**
   Provisioning commands and boots in any order, each cut anywhere: whoever is let online is the
   untouched old owner, nobody, or exactly the owner of one command. If no step fails, a valid
   command that came last has installed its owner.
   */
  method CommandsAndBoots(vault: Vault, deviceId: string, acts: seq<Act>) returns (allowed: bool)
    requires |vault.stores| > 0
    modifies vault
    ensures allowed ==> Unlatched(vault.latch)
    ensures OneOwner(vault.latch, vault.stores, vault.revision, old(vault.latch), old(vault.stores),
      old(vault.revision), deviceId, acts)
    ensures old(vault.revision) != "" ==> vault.revision == old(vault.revision)
    ensures vault.reliable && old(vault.powered && Readable(vault.latch)) && acts != [] ==>
      match acts[|acts| - 1]
      case PowerOn => allowed
      case Command(c, revision) =>
        ValidSettings(c, revision, deviceId) && vault.revision == revision ==>
          OwnedBy(vault.stores, revision, deviceId, c)
  {
    hide ValidSettings, BootOf, Record, AllClear, Erased;
    allowed := false;
    var coordinator := new Coordinator();
    for i := 0 to |acts|
      invariant |vault.stores| == |old(vault.stores)| && fresh(coordinator) && allowed == coordinator.NetworkAllowed()
      invariant allowed ==> Unlatched(vault.latch)
      invariant OneOwner(vault.latch, vault.stores, vault.revision, old(vault.latch), old(vault.stores),
        old(vault.revision), deviceId, acts)
      invariant old(vault.revision) != "" ==> vault.revision == old(vault.revision)
      invariant vault.reliable && old(vault.powered && Readable(vault.latch)) ==>
        && vault.powered && Readable(vault.latch)
        && (i > 0 && acts[i - 1].PowerOn? ==> allowed)
        && (i > 0 && acts[i - 1].Command? && ValidSettings(acts[i - 1].settings, acts[i - 1].revision, deviceId)
            && vault.revision == acts[i - 1].revision ==>
            OwnedBy(vault.stores, vault.revision, deviceId, acts[i - 1].settings))
    {
      match acts[i] {
        case PowerOn =>
          ghost var stores := vault.stores;
          coordinator := Boot(vault);
          ErasedLength(stores, vault.stores);
          ClearIsVacant(vault.stores, vault.revision, deviceId);
        case Command(c, revision) =>
          var provisioning := new Provisioning(vault, coordinator, deviceId);
          var ok := provisioning.Accept(c, revision);
      }
      allowed := coordinator.NetworkAllowed();
    }
  }

  class Provisioning {
    const vault: Vault
    const coordinator: Coordinator
    const deviceId: string

    constructor (vault: Vault, coordinator: Coordinator, deviceId: string)
      ensures this.vault == vault && this.coordinator == coordinator && this.deviceId == deviceId
    {
      this.vault, this.coordinator, this.deviceId := vault, coordinator, deviceId;
    }

    /**
     A parsed command. However it ends, power cut included, the device still belongs to the
     untouched old owner, is held offline by the latch, has no owner, or has exactly the new
     one; success means the new one.
     */
    method Accept(c: Settings, revision: string) returns (ok: bool)
      requires |vault.stores| > 0
      modifies vault, coordinator
      ensures (vault.powered ==> old(vault.powered)) && |vault.stores| == |old(vault.stores)|
      ensures !ValidSettings(c, revision, deviceId) ==>
        !ok && vault.stores == old(vault.stores) && vault.latch == old(vault.latch) &&
        vault.revision == old(vault.revision)
      ensures AllOrNothing(vault.latch, vault.stores, vault.revision, old(vault.latch), old(vault.stores),
        old(vault.revision), deviceId, c)
      ensures coordinator.NetworkAllowed() ==>
        Unlatched(vault.latch) || (old(coordinator.NetworkAllowed()) && vault.latch == old(vault.latch))
      ensures ok ==>
        vault.powered && vault.latch == Stored(0) && AllClear(vault.stores[1..]) && vault.stores[0] == Record(c) &&
        vault.revision == revision
      ensures ok ==> BootOf(vault.stores[0], vault.revision, deviceId) == Provisioned(Kept(c))
      ensures old(vault.revision) != "" ==> vault.revision == old(vault.revision)
      ensures vault.reliable && old(vault.powered) && ValidSettings(c, revision, deviceId) && old(Matches(revision)) ==>
        ok
      ensures vault.reliable && old(vault.powered) ==> vault.powered && (!ok ==> vault.latch == old(vault.latch))
      ensures !old(Matches(revision)) ==>
        && !ok && vault.stores == old(vault.stores) && vault.latch == old(vault.latch)
        && vault.revision == old(vault.revision) != revision
    {
      hide ValidSettings, BootOf, Record;
      if !ValidSettings(c, revision, deviceId) {
        return false;
      }
      if !Matches(revision) {
        return false;
      }
      var prepared := coordinator.Request(vault);
      if !coordinator.NetworkAllowed() {
        VacantWhenClear(vault.stores, vault.revision);
        return false;
      }
      assert AllClear(vault.stores[1..]);
      VacantWhenClear(vault.stores, vault.revision);
      if vault.revision == "" {
        ok := vault.PutRevision(revision);
        VacantWhenClear(vault.stores, vault.revision);
        if !ok {
          return;
        }
      }
      ghost var others := vault.stores[1..];
      ok := WriteOwner(c);
      RecordBoots(c, revision, deviceId);
      NotReadyIsVacant(vault.stores[0], vault.revision);
    }

    /** The factory's hardware revision is unset or the one given. */
    predicate Matches(revision: string)
      reads vault`revision
    {
      vault.revision == "" || vault.revision == revision
    }

    lemma VacantWhenClear(stores: seq<Namespace>, revision: string)
      ensures AllClear(stores) && |stores| > 0 ==>
        AllClear(stores[1..]) && BootOf(stores[0], revision, deviceId) == Unprovisioned
    {
    }

    lemma NotReadyIsVacant(m: Namespace, revision: string)
      ensures Ready !in m ==> BootOf(m, revision, deviceId) == Unprovisioned
    {
    }

    /** The new owner's keys, `ready` last; on a failure everything is taken back. */
    method WriteOwner(c: Settings) returns (ok: bool)
      requires |vault.stores| > 0 && AllClear(vault.stores)
      modifies vault`stores, vault`powered, vault`attempts, vault`failures, vault`writable, vault`opens
      ensures vault.powered ==> old(vault.powered)
      ensures ok ==> vault.opens == old(vault.opens) + 1
      ensures !ok ==>
        || (vault.opens == old(vault.opens) + 1 && vault.stores == old(vault.stores))
        || (vault.opens == old(vault.opens) + 2 && (vault.writable ==> vault.attempts == old(vault.attempts) + 2))
      ensures |vault.stores| == |old(vault.stores)| && vault.stores[1..] == old(vault.stores)[1..]
      ensures ok ==> vault.powered && vault.stores[0] == Record(c)
      ensures vault.stores[0] == Record(c) || Ready !in vault.stores[0]
      ensures vault.reliable && old(vault.powered) ==> ok
    {
      hide Record, AllClear;
      ok := vault.Open();
      if !ok {
        AllClearFirst(vault.stores);
        return;
      }
      ok := WriteRecord(c);
      if !ok {
        var writable := vault.Open();
        if writable {
          var cleared := vault.Clear(0);
        }
      }
    }

    /** All of the keys, as far as they can be written. */
    method WriteRecord(c: Settings) returns (ok: bool)
      requires |vault.stores| > 0 && AllClear(vault.stores) && vault.writable
      modifies vault`stores, vault`powered, vault`attempts, vault`failures
      ensures vault.powered ==> old(vault.powered)
      ensures |vault.stores| == |old(vault.stores)| && vault.stores[1..] == old(vault.stores)[1..]
      ensures vault.attempts == old(vault.attempts) + 1
      ensures ok ==> vault.powered && vault.stores[0] == Record(c)
      ensures vault.stores[0] == Record(c) || Ready !in vault.stores[0]
      ensures !ok && vault.powered ==> Ready !in vault.stores[0]
      ensures vault.reliable && old(vault.powered) ==> ok
    {
      hide Common, ProtocolPart, Finished, AllClear;
      ok := vault.Clear(0);
      StillClear(old(vault.stores), vault.stores);
      AllClearFirst(vault.stores);
      if ok { ok := WriteCommon(c); }
      if ok { ok := WriteProtocol(c); }
      if ok { ok := WriteFinished(c); }
      if ok { ok := vault.Put(Ready, Flag(true)); }
    }

    lemma AllClearFirst(a: seq<Namespace>)
      requires AllClear(a) && |a| > 0
      ensures a[0] == map[]
    {
    }

    lemma StillClear(a: seq<Namespace>, b: seq<Namespace>)
      requires AllClear(a) && Erased(a, b)
      ensures AllClear(b) && a == b
    {
      assert forall i | 0 <= i < |a| :: b[i] == map[];
    }

    method WriteCommon(c: Settings) returns (ok: bool)
      requires |vault.stores| > 0 && vault.writable && Ready !in vault.stores[0]
      modifies vault`stores, vault`powered
      ensures vault.powered ==> old(vault.powered)
      ensures Unready(vault.stores, old(vault.stores)[1..])
      ensures ok ==> vault.powered && vault.stores[0] == Common(old(vault.stores)[0], c)
      ensures vault.reliable && old(vault.powered) ==> ok
    {
      ok := vault.Put(OwnerDevice, Text(c.deviceId));
      if ok { ok := vault.Put(OwnerName, Text(c.name)); }
      if ok { ok := vault.Put(WifiSsid, Text(c.wifiSsid)); }
      if ok { ok := vault.Put(WifiPassword, Text(c.wifiPassword)); }
      if ok { ok := vault.Put(OtaPassword, Text(c.otaPassword)); }
      if ok { ok := vault.Put(UploadHost, Text(c.host)); }
      if ok { ok := vault.Put(UploadPort, Number(c.port)); }
      if ok { ok := vault.Put(UploadProtocol, Number(if c.protocol.Mqtt? then 0 else 1)); }
    }

    method WriteProtocol(c: Settings) returns (ok: bool)
      requires |vault.stores| > 0 && vault.writable && Ready !in vault.stores[0]
      modifies vault`stores, vault`powered
      ensures vault.powered ==> old(vault.powered)
      ensures Unready(vault.stores, old(vault.stores)[1..])
      ensures ok ==> vault.powered && vault.stores[0] == ProtocolPart(old(vault.stores)[0], c)
      ensures vault.reliable && old(vault.powered) ==> ok
    {
      if c.protocol == Mqtt {
        ok := vault.Put(MqttUser, Text(c.mqttUser));
        if ok { ok := vault.Put(MqttPassword, Text(c.mqttPassword)); }
      } else {
        ok := vault.Put(CloudflareId, Text(c.cfId));
        if ok { ok := vault.Put(CloudflareSecret, Text(c.cfSecret)); }
        if ok { ok := vault.Put(AppToken, Text(c.appToken)); }
        if ok { ok := vault.Put(AppSubject, Text(c.appSubject)); }
      }
    }

    method WriteFinished(c: Settings) returns (ok: bool)
      requires |vault.stores| > 0 && vault.writable && Ready !in vault.stores[0]
      modifies vault`stores, vault`powered
      ensures vault.powered ==> old(vault.powered)
      ensures Unready(vault.stores, old(vault.stores)[1..])
      ensures ok ==> vault.powered && vault.stores[0] == Finished(old(vault.stores)[0], c)
      ensures vault.reliable && old(vault.powered) ==> ok
    {
      ok := vault.Put(ProvisionedAt, Text(c.provisionedAt));
      if ok { ok := vault.Put(RemoteManagement, Flag(c.remoteManagement)); }
    }
  }
}
