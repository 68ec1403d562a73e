/**
 The rotation as the upload loop drives it, against a server that retires the old
 bearer only once it has seen the candidate. Replies may be lost and power may go at
 any key write; the device is never left with credentials the server does not know.
 */
module BearerHandover {
  import opened AppBearerRotation

  datatype Offer = NoOffer | Offer(rotation: Rotation, acked: bool)

  /**
   `current` is the bearer the server will always honour. An offered candidate is honoured
   too once acknowledged. `confirmed` holds the tokens of all acknowledged candidates.
   */
  datatype Server = Server(current: Token, offer: Offer, confirmed: set<Token>, offers: set<Rotation>)

  predicate Honours(s: Server, bearer: Token)
  {
    bearer == s.current || (s.offer.Offer? && s.offer.acked && bearer == s.offer.rotation.token)
  }

  ghost predicate Offered(s: Server, token: Token)
  {
    exists r :: r in s.offers && r.token == token
  }

  /** The server never reused a version. */
  ghost predicate Honest(s: Server, provisioned: Token)
  {
    && (forall a, b | a in s.offers && b in s.offers :: a.version == b.version ==> a == b)
    && (forall r | r in s.offers :: r.token != provisioned)
    && (s.offer.Offer? ==> s.offer.rotation in s.offers && (s.offer.acked ==> s.offer.rotation.token in s.confirmed))
    && (s.current == provisioned || s.current in s.confirmed)
    && (forall t | t in s.confirmed :: Offered(s, t))
  }

  /** A new offer never reuses a version, nor the bearer the device was provisioned with. */
  predicate Unused(s: Server, provisioned: Token, r: Rotation)
  {
    r.token != provisioned && forall a | a in s.offers :: a.version != r.version
  }

  /** A later offer replaces any earlier one, whose candidate is dropped unless it was seen. */
  function Offers(s: Server, r: Rotation): Server
  {
    s.(offer := Offer(r, false), offers := s.offers + {r})
  }

  /** The server's handling of an acknowledgement: whether it accepts, and what it is afterwards. */
  function Acknowledge(s: Server, bearer: Token, version: nat, nonce: string): (Server, bool)
  {
    if Honours(s, bearer) && s.offer.Offer? && s.offer.rotation.version == version
       && s.offer.rotation.nonce == nonce then
      (s.(offer := s.offer.(acked := true), confirmed := s.confirmed + {s.offer.rotation.token}), true)
    else (s, false)
  }

  /** The server sees a request under `bearer`: seeing the candidate retires the old bearer. */
  function See(s: Server, bearer: Token): (Server, bool)
  {
    if s.offer.Offer? && s.offer.acked && bearer == s.offer.rotation.token
    then (s.(current := bearer, offer := NoOffer), true)
    else (s, bearer == s.current)
  }

  /** What is stored lets the next boot authenticate: the active bearer, or an acknowledged candidate it will prove. */
  predicate Reachable(r: Record, s: Server, provisioned: Token)
  {
    || BootBearer(r, provisioned) == s.current
    || (Resumes(r) && r.phase == Acknowledged && r.candidate == s.current)
  }

  /** Everything about the store that holds at every moment, also between two key writes. */
  ghost predicate Safe(r: Record, s: Server, provisioned: Token)
  {
    && Reachable(r, s, provisioned)
    && (r.ready && !(Resumes(r) && r.phase == Acknowledged) ==> BootBearer(r, provisioned) == s.current)
    && (Resumes(r) && r.phase == Acknowledged ==> r.candidate in s.confirmed)
    && (r.active != "" ==> r.active in s.confirmed && s.current != provisioned)
    && (r.ready && r.version != 0 ==> r.version >= r.appliedVersion)
    && (r.active == "" ==> r.appliedVersion == 0)
  }

  /** Everything memory adds while the device runs. */
  ghost predicate Running(rotation: AppBearerRotation, s: Server)
    reads rotation, rotation.store
  {
    && rotation.Synced()
    && (rotation.phase == Phase.Staged ==> BootBearer(rotation.store.record, rotation.provisioned) == s.current)
    && (rotation.phase == NoPhase && rotation.informed ==>
         BootBearer(rotation.store.record, rotation.provisioned) == s.current)
    && (rotation.phase == Acknowledged ==> rotation.candidateBearer in s.confirmed)
    && (rotation.phase != NoPhase ==>
         rotation.version >= rotation.store.record.appliedVersion && rotation.Candidate() in rotation.accepted)
  }

  lemma ClearedSafe(a: Record, b: Record, s: Server, provisioned: Token)
    requires Safe(a, s, provisioned) && PartlyCleared(a, b) && BootBearer(a, provisioned) == s.current
    ensures Safe(b, s, provisioned)
  {
  }

  /** A new candidate may be written over whatever was there, as long as the active bearer is the server's. */
  lemma StagedSafe(a: Record, b: Record, s: Server, provisioned: Token)
    requires Safe(a, s, provisioned) && BootBearer(a, provisioned) == s.current
    requires b.active == a.active && b.appliedVersion == a.appliedVersion
    requires b.ready ==> b == a || (b.phase == Phase.Staged && b.version > a.appliedVersion)
    ensures Safe(b, s, provisioned)
  {
  }

  lemma AcknowledgedSafe(a: Record, s: Server, provisioned: Token)
    requires Safe(a, s, provisioned) && Resumes(a) && a.candidate in s.confirmed
    ensures Safe(a.(phase := Acknowledged), s, provisioned)
  {
    hide WellFormed, ValidSecret;
  }

  lemma PromotedSafe(a: Record, c: Rotation, b: Record, s: Server, provisioned: Token)
    requires Safe(a, s, provisioned) && Promoting(a, c, b)
    requires c.token == s.current && c.token in s.confirmed && c.token != provisioned && c.token != ""
    requires c.version >= a.appliedVersion && (a.ready ==> Pending(a) == c)
    ensures Safe(b, s, provisioned) && b.appliedVersion >= a.appliedVersion
  {
    hide WellFormed, ValidSecret;
  }

  /** The reply the upload loop sees: an acceptance reaches it only if the server gave one. */
  datatype Outcome = Accepted | Refused | Unanswered

  class Handover {
    const rotation: AppBearerRotation
    var server: Server

    ghost predicate Sound()
      reads this, rotation, rotation.store
    {
      && rotation.Traced() && Honest(server, rotation.provisioned)
      && rotation.accepted <= server.offers
      && Safe(rotation.store.record, server, rotation.provisioned)
    }

    ghost predicate Valid()
      reads this, rotation, rotation.store
    {
      Sound() && (rotation.store.powered ==> Running(rotation, server))
    }

    /** The bearers the device holds now authenticate it. */
    ghost predicate CanAuthenticate()
      reads this, rotation
    {
      rotation.activeBearer == server.current ||
      (rotation.phase == Acknowledged && rotation.candidateBearer == server.current)
    }

    /** No candidate is held, and `r` is a rotation to something new. */
    ghost predicate Acceptable(r: Rotation)
      reads rotation
    {
      && WellFormed(r) && !rotation.HasCandidate()
      && r.version > rotation.appliedVersion && r.token != rotation.activeBearer
    }

    constructor (rotation: AppBearerRotation, server: Server)
      requires rotation.Traced() && rotation.accepted == {} && Honest(server, rotation.provisioned)
      requires Safe(rotation.store.record, server, rotation.provisioned)
      requires rotation.phase == NoPhase && !rotation.informed && rotation.Synced()
      ensures Valid() && this.rotation == rotation && this.server == server
    {
      this.rotation, this.server := rotation, server;
    }

    /** The server offers a rotation under a new version, whatever became of the last one. */
    method Propose(r: Rotation)
      requires Valid() && Unused(server, rotation.provisioned, r)
      modifies this
      ensures Valid() && server == Offers(old(server), r)
    {
      server := Offers(server, r);
      forall t | t in server.confirmed ensures Offered(server, t) {
        var a :| a in old(server).offers && a.token == t;
        assert a in server.offers;
      }
    }

    /** A candidate the server never saw can be withdrawn or expire. */
    method Withdraw()
      requires Valid()
      modifies this
      ensures Valid() && server == old(server).(offer := NoOffer)
    {
      server := server.(offer := NoOffer);
      forall t | t in server.confirmed ensures Offered(server, t) {
        var a :| a in old(server).offers && a.token == t;
        assert a in server.offers;
      }
    }

    /** Power returns; `readable` is false when the store cannot be read this time. */
    method Boot(readable: bool)
      requires Valid()
      modifies rotation, rotation.store
      ensures Valid() && rotation.store.record.appliedVersion == old(rotation.store.record).appliedVersion
      ensures readable ==> CanAuthenticate()
      ensures rotation.store.reliable ==> rotation.store.powered
    {
      hide WellFormed, ValidSecret, TracedRecord, PartlyCleared, Honest;
      ghost var r := rotation.store.record;
      rotation.store.Restart();
      var ok := rotation.Begin(readable);
      if rotation.store.record != r {
        ClearedSafe(r, rotation.store.record, server, rotation.provisioned);
        ClearedTraced(r, rotation.store.record, rotation.written, rotation.accepted);
      }
      if Resumes(rotation.store.record) {
        Resumed();
      }
    }

    /** Without a candidate, a bearer the server honours is the one the next boot would use. */
    lemma BootsAsNow()
      requires Valid() && rotation.store.powered && rotation.phase == NoPhase && Honours(server, rotation.activeBearer)
      ensures BootBearer(rotation.store.record, rotation.provisioned) == server.current
      ensures rotation.appliedVersion == rotation.store.record.appliedVersion
    {
      hide WellFormed, ValidSecret, TracedRecord;
    }

    lemma Resumed()
      requires rotation.Traced() && Resumes(rotation.store.record)
      ensures Pending(rotation.store.record) in rotation.accepted
    {
      ResumedIsOneStaging(rotation.store.record, rotation.written, rotation.accepted);
    }

    /** An authenticated reply carries one of the server's offers, current or old. */
    method Deliver(r: Rotation) returns (result: StageResult)
      requires Valid() && rotation.store.powered && r in server.offers
      requires Honours(server, rotation.activeBearer) || rotation.HasCandidate()
      modifies rotation, rotation.store
      ensures Valid() && SameApplied(old(rotation.store.record), rotation.store.record)
      ensures server == old(server) && rotation.activeBearer == old(rotation.activeBearer)
      ensures rotation.store.reliable && old(Acceptable(r)) ==>
        result == StageResult.Staged && rotation.Candidate() == r && rotation.phase == Phase.Staged &&
        rotation.store.powered
    {
      hide WellFormed, ValidSecret, TracedRecord, PartlyCleared;
      ghost var a := rotation.store.record;
      if rotation.phase == NoPhase {
        BootsAsNow();
      }
      result := rotation.Stage(r);
      if rotation.store.record != a {
        StagedSafe(a, rotation.store.record, server, rotation.provisioned);
      }
    }

    /**
     Acknowledge the staged candidate under the old bearer; the request may not reach the server,
     its answer may be lost, and anything in between may refuse it. Only a refusal gives it up.
     */
    method AcknowledgementTurn(readable: bool, reached: bool, answered: bool, refused: bool) returns (outcome: Outcome)
      requires Valid() && rotation.store.powered && rotation.HasCandidate() && rotation.phase == Phase.Staged
      modifies this, rotation, rotation.store
      ensures Valid() && rotation.store.record.appliedVersion == old(rotation.store.record).appliedVersion
      ensures outcome == Accepted ==> old(rotation.candidateBearer) in server.confirmed
      ensures outcome == Unanswered ==>
        && rotation.store.record == old(rotation.store.record) && rotation.phase == Phase.Staged
        && rotation.Candidate() == old(rotation.Candidate())
      ensures outcome == Accepted ==> rotation.Candidate() == old(rotation.Candidate())
      ensures outcome == Refused <==> refused && outcome != Accepted
      ensures outcome == Refused ==>
        rotation.phase == NoPhase && (rotation.store.reliable ==> !rotation.store.record.ready)
      ensures rotation.activeBearer == old(rotation.activeBearer)
      ensures rotation.appliedVersion == old(rotation.appliedVersion)
      ensures server == if reached then old(ServerAfter()) else old(server)
      ensures rotation.store.reliable ==> rotation.store.powered
      ensures rotation.phase == Acknowledged ==> outcome == Accepted
      ensures outcome == Accepted <==>
        reached && answered && old(Acknowledge(server, rotation.activeBearer, rotation.version, rotation.nonce).1)
      ensures rotation.store.reliable && readable && outcome == Accepted ==> rotation.phase == Acknowledged
    {
      hide WellFormed, ValidSecret, TracedRecord, PartlyCleared, Acknowledge, Honours, Honest;
      outcome := Unanswered;
      if reached {
        var accepted := ServerAcknowledges();
        if answered && accepted { outcome := Accepted; }
      }
      if refused && outcome != Accepted { outcome := Refused; }
      ghost var r := rotation.store.record;
      if outcome == Accepted {
        var saved := rotation.MarkAcknowledged(readable);
        if rotation.store.record != r { AcknowledgedSafe(r, server, rotation.provisioned); }
      } else if outcome == Refused {
        rotation.AbandonCandidate();
        ClearedSafe(r, rotation.store.record, server, rotation.provisioned);
        ClearedTraced(r, rotation.store.record, rotation.written, rotation.accepted);
      }
    }

    /** The server once the acknowledgement of the candidate held has reached it. */
    function ServerAfter(): Server
      reads this, rotation
    {
      Acknowledge(server, rotation.activeBearer, rotation.version, rotation.nonce).0
    }

    method ServerAcknowledges() returns (accepted: bool)
      requires Valid() && rotation.store.powered && rotation.HasCandidate() && rotation.phase == Phase.Staged
      modifies this
      ensures Valid() && server.current == old(server).current && server.offers == old(server).offers
      ensures old(server).confirmed <= server.confirmed && (accepted ==> rotation.candidateBearer in server.confirmed)
      ensures accepted == old(Acknowledge(server, rotation.activeBearer, rotation.version, rotation.nonce).1)
      ensures server == old(ServerAfter())
    {
      hide WellFormed, ValidSecret, TracedRecord, PartlyCleared;
      var (next, answer) := Acknowledge(server, rotation.activeBearer, rotation.version, rotation.nonce);
      ghost var s := server;
      server, accepted := next, answer;
      AcknowledgeHonest(s, rotation.provisioned, rotation.activeBearer, rotation.version, rotation.nonce);
      if accepted {
        assert rotation.Candidate() in s.offers;
      }
    }

    /** Prove the acknowledged candidate by using it, and promote it once the server has accepted it. */
    method ProofTurn(readable: bool, reached: bool, answered: bool) returns (outcome: Outcome)
      requires Valid() && rotation.store.powered && rotation.HasCandidate() && rotation.phase == Acknowledged
      modifies this, rotation, rotation.store
      ensures Valid() && rotation.store.record.appliedVersion >= old(rotation.store.record).appliedVersion
      ensures outcome != Accepted ==>
        rotation.store.record == old(rotation.store.record) && rotation.phase == Acknowledged
      ensures rotation.activeBearer != old(rotation.activeBearer) ==>
        outcome == Accepted && rotation.activeBearer == server.current
      ensures rotation.store.record.active != old(rotation.store.record).active ==>
        outcome == Accepted && rotation.store.record.active == old(rotation.candidateBearer) == server.current
      ensures outcome == Accepted <==> reached && answered && old(Honours(server, rotation.candidateBearer))
      ensures outcome == Refused <==> reached && answered && !old(Honours(server, rotation.candidateBearer))
      ensures rotation.store.reliable && readable && outcome == Accepted ==>
        && rotation.phase == NoPhase && rotation.activeBearer == old(rotation.candidateBearer) == server.current
        && rotation.appliedVersion == old(rotation.version) && rotation.appliedNonce == old(rotation.nonce)
        && rotation.store.powered
    {
      hide WellFormed, ValidSecret, TracedRecord, PartlyCleared;
      outcome := Unanswered;
      if reached {
        var accepted := ServerSees();
        if answered { outcome := if accepted then Accepted else Refused; }
      }
      if outcome == Accepted {
        ghost var r, c := rotation.store.record, rotation.Candidate();
        var promoted := rotation.PromoteCandidate(readable);
        PromotedSafe(r, c, rotation.store.record, server, rotation.provisioned);
      }
    }

    /** Offered, staged, acknowledged and proven without a failure, a rotation becomes the bearer on both sides. */
    method Rotate(r: Rotation)
      requires Valid() && rotation.store.powered && rotation.store.reliable && rotation.phase == NoPhase
      requires CanAuthenticate() && Acceptable(r) && Unused(server, rotation.provisioned, r)
      modifies this, rotation, rotation.store
      ensures Valid() && rotation.store.powered && rotation.phase == NoPhase
      ensures rotation.activeBearer == r.token == server.current && rotation.store.record.active == r.token
      ensures rotation.appliedVersion == r.version && rotation.appliedNonce == r.nonce
    {
      hide WellFormed, ValidSecret, TracedRecord, PartlyCleared;
      Propose(r);
      var staged := Deliver(r);
      var acknowledged := AcknowledgementTurn(true, true, true, false);
      var proven := ProofTurn(true, true, true);
    }

    /** A candidate the server refuses does not stand in the way of the next one. */
    method RefusedThenRotated(reached: bool, r: Rotation)
      requires Valid() && rotation.store.powered && rotation.store.reliable
      requires rotation.HasCandidate() && rotation.phase == Phase.Staged && CanAuthenticate()
      requires WellFormed(r) && r.version > rotation.appliedVersion && r.token != rotation.activeBearer
      requires Unused(server, rotation.provisioned, r)
      modifies this, rotation, rotation.store
      ensures Valid() && rotation.store.powered && rotation.phase == NoPhase
      ensures rotation.activeBearer == r.token == server.current && rotation.appliedVersion == r.version
    {
      hide WellFormed, ValidSecret, TracedRecord, PartlyCleared;
      var outcome := AcknowledgementTurn(true, reached, false, true);
      Rotate(r);
    }

    method ServerSees() returns (accepted: bool)
      requires Valid() && rotation.store.powered && rotation.HasCandidate() && rotation.phase == Acknowledged
      modifies this
      ensures Valid() && server.offers == old(server).offers
      ensures accepted ==> server.current == rotation.candidateBearer
      ensures server.current == old(server).current || server.current == rotation.candidateBearer
      ensures old(Honours(server, rotation.candidateBearer)) <==> accepted
    {
      hide WellFormed, ValidSecret, TracedRecord, PartlyCleared;
      var (next, answer) := See(server, rotation.candidateBearer);
      ghost var s := server;
      server, accepted := next, answer;
      SeeHonest(s, rotation.provisioned, rotation.candidateBearer);
    }
  }

  lemma AcknowledgeHonest(s: Server, provisioned: Token, bearer: Token, version: nat, nonce: string)
    requires Honest(s, provisioned)
    ensures Honest(Acknowledge(s, bearer, version, nonce).0, provisioned)
  {
    var n := Acknowledge(s, bearer, version, nonce).0;
    forall t | t in n.confirmed ensures Offered(n, t) {
      if t in s.confirmed {
        var a :| a in s.offers && a.token == t;
        assert a in n.offers;
      } else {
        assert s.offer.rotation in n.offers;
      }
    }
  }

  lemma SeeHonest(s: Server, provisioned: Token, bearer: Token)
    requires Honest(s, provisioned)
    ensures Honest(See(s, bearer).0, provisioned)
  {
    var n := See(s, bearer).0;
    forall t | t in n.confirmed ensures Offered(n, t) {
      var a :| a in s.offers && a.token == t;
      assert a in n.offers;
    }
  }
}
