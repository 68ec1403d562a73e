/**
 The one HTTPS transport, shared by three owners on the main task and run by a worker
 task. Buffers change hands through a three-state exchange; every method below that
 changes state is one step of one task, so what holds before and after each holds in
 every interleaving.
 */
module HttpsWorker {
  import opened Bytes

  const BODY_LIMIT := 6144

  datatype Owner = Nobody | Authorization | Logs | Telemetry

  function Bit(owner: Owner): bv8
  {
    match owner
    case Nobody => 0
    case Authorization => 1
    case Logs => 2
    case Telemetry => 4
  }

  /** Before all others at the transport: the lower bit. */
  predicate Outranks(a: Owner, b: Owner)
  {
    a != Nobody && Bit(a) < Bit(b)
  }

  predicate OneBit(bit: bv8)
  {
    bit == 1 || bit == 2 || bit == 4 || bit == 8 || bit == 16 || bit == 32 || bit == 64 || bit == 128
  }

  /** `p & -p` is the lowest bit set: it equals a bit of `p` exactly when `p` has no lower one. */
  lemma LowestBit(p: bv8, bit: bv8)
    requires OneBit(bit)
    ensures p & (0 - p) == bit <==> p & bit == bit && p & (bit - 1) == 0
  {
    assert bit == 1 ==> (p & (0 - p) == 1 <==> p & 1 == 1 && p & 0 == 0);
    assert bit == 2 ==> (p & (0 - p) == 2 <==> p & 2 == 2 && p & 1 == 0);
    assert bit == 4 ==> (p & (0 - p) == 4 <==> p & 4 == 4 && p & 3 == 0);
    assert bit == 8 ==> (p & (0 - p) == 8 <==> p & 8 == 8 && p & 7 == 0);
    assert bit == 16 ==> (p & (0 - p) == 16 <==> p & 16 == 16 && p & 15 == 0);
    assert bit == 32 ==> (p & (0 - p) == 32 <==> p & 32 == 32 && p & 31 == 0);
    assert bit == 64 ==> (p & (0 - p) == 64 <==> p & 64 == 64 && p & 63 == 0);
    assert bit == 128 ==> (p & (0 - p) == 128 <==> p & 128 == 128 && p & 127 == 0);
  }

  predicate Asked(pending: bv8, owner: Owner)
  {
    pending & Bit(owner) != 0
  }

  /** With an owner's bit set, the mask's lowest bit is that owner's exactly if nobody who outranks it has asked. */
  lemma TurnMeansFirst(pending: bv8, owner: Owner)
    requires owner != Nobody && Asked(pending, owner)
    ensures pending & (0 - pending) == Bit(owner) <==> forall other | Outranks(other, owner) :: !Asked(pending, other)
  {
    LowestBit(pending, Bit(owner));
    assert Outranks(Authorization, Logs) && Outranks(Authorization, Telemetry) && Outranks(Logs, Telemetry);
    assert pending & 3 == 0 <==> pending & 1 == 0 && pending & 2 == 0;
  }

  class Arbiter {
    var pending: bv8

    constructor ()
      ensures pending == 0
    {
      pending := 0;
    }

    /** Ask for the transport. Granted when it is idle and nobody who outranks the owner has asked. */
    method Request(owner: Owner, idle: bool) returns (granted: bool)
      modifies this
      ensures granted <==>
        owner != Nobody && idle && forall other | Outranks(other, owner) :: !Asked(old(pending), other)
      ensures forall other :: Asked(pending, other) <==>
        Asked(old(pending), other) || (other == owner && owner != Nobody)
    {
      var bit := Bit(owner);
      if bit == 0 {
        return false;
      }
      pending := pending | bit;
      TurnMeansFirst(pending, owner);
      granted := idle && pending & (0 - pending) == bit;
    }

    method Cancel(owner: Owner)
      modifies this
      ensures forall other :: Asked(pending, other) <==> Asked(old(pending), other) && other != owner
    {
      pending := pending & !Bit(owner);
    }
  }

  datatype Request = Request(url: bytes, payload: bytes, bearer: bytes, accessId: bytes, accessSecret: bytes, get: bool)

  datatype Result = Result(status: int, permanentRejection: bool, body: bytes)

  const EMPTY_REQUEST := Request([], [], [], [], [], false)

  /** Every field fits its buffer with the terminator. */
  predicate Fits(r: Request)
  {
    |r.url| < 513 && |r.payload| < BODY_LIMIT + 1 && |r.bearer| < 2049 && |r.accessId| < 257 && |r.accessSecret| < 513
  }

  function Filled(n: nat): (b: bytes)
    ensures |b| == n
  {
    seq(n, i => 0)
  }

  /** How long each field of a request may be. */
  lemma FieldLimits(r: Request, n: nat)
    requires Fits(r)
    ensures Fits(r.(url := Filled(n))) <==> n <= 512
    ensures Fits(r.(payload := Filled(n))) <==> n <= 6144
    ensures Fits(r.(bearer := Filled(n))) <==> n <= 2048
    ensures Fits(r.(accessId := Filled(n))) <==> n <= 256
    ensures Fits(r.(accessSecret := Filled(n))) <==> n <= 512
  {
  }

  function Flatten(chunks: seq<bytes>): bytes
  {
    if chunks == [] then [] else Flatten(chunks[..|chunks| - 1]) + chunks[|chunks| - 1]
  }

  /** The response body as the bounded sink takes it: all of it, or a failure at the first piece that does not fit. */
  method Collect(chunks: seq<bytes>) returns (ok: bool, body: bytes)
    ensures |body| <= BODY_LIMIT
    ensures ok ==> body == Flatten(chunks)
    ensures ok <==> |Flatten(chunks)| <= BODY_LIMIT
  {
    body := [];
    for i := 0 to |chunks|
      invariant body == Flatten(chunks[..i]) && |body| <= BODY_LIMIT
    {
      assert chunks[..i + 1][..i] == chunks[..i];
      if |chunks[i]| > BODY_LIMIT - |body| {
        LongerFlatten(chunks, i + 1);
        return false, body;
      }
      body := body + chunks[i];
    }
    assert chunks[..|chunks|] == chunks;
    ok := true;
  }

  lemma {:induction false} LongerFlatten(chunks: seq<bytes>, n: nat)
    requires n <= |chunks|
    ensures |Flatten(chunks[..n])| <= |Flatten(chunks)|
    decreases |chunks| - n
  {
    if n < |chunks| {
      assert chunks[..n + 1][..n] == chunks[..n];
      LongerFlatten(chunks, n + 1);
    } else {
      assert chunks[..n] == chunks;
    }
  }

  /** A result published, with the request it was computed for and whose that was. */
  datatype Answer = Answer(asker: Owner, request: Request, result: Result)

  datatype Exchange = Idle | Requested | Complete

  /** The steps of the two tasks: the main task's, then the worker's. */
  datatype Step =
    | Submits(asker: Owner, request: Request) | Remembers | Notifies | Releases(asker: Owner) | Cancels(asker: Owner)
    | Wakes | Looks | Transacts(partial: Result) | Publishes(final: Result)

  /** A step by which `owner` gives up its place: it cancels, or submits what no buffer can hold. */
  predicate Withdraws(step: Step, owner: Owner)
  {
    (step.Cancels? || (step.Submits? && !Fits(step.request))) && step.asker == owner
  }

  /** Where the main task is inside `submit`, and where the worker is inside its loop. */
  datatype MainStep = Free | Stored | Owned
  datatype WorkerStep = Waiting | Awake | Running

  class HttpsWorker {
    const arbiter: Arbiter
    var exchange: Exchange
    var request: Request
    var result: Result
    var owner: Owner
    var notified: bool
    var main: MainStep
    var worker: WorkerStep
    /** The argument of the main task's `submit`: who the accepted request is for. */
    var holder: Owner
    /** What that request was, all requests accepted, and all answers given. */
    ghost var submitted: Request
    ghost var requests: seq<(Owner, Request)>
    ghost var answers: seq<Answer>
    /** All steps taken, in order. */
    ghost var taken: seq<Step>

    ghost predicate Valid()
      reads this
    {
      && (exchange == Idle ==> owner == Nobody && request == EMPTY_REQUEST && result.body == [])
      && (exchange != Idle ==> request == submitted && holder != Nobody)
      && (exchange == Requested ==> |requests| == |answers| + 1 && requests[|answers|] == (holder, submitted))
      && (exchange != Requested ==> |requests| == |answers| && main == Free && worker == Waiting && !notified)
      && (forall i | 0 <= i < |answers| :: (answers[i].asker, answers[i].request) == requests[i])
      && (main != Free ==> worker == Waiting && !notified)
      && (exchange == Requested && main == Free ==> (notified <==> worker == Waiting))
      && (main == Owned || (main == Free && exchange != Idle) ==> owner == holder)
      && (exchange == Complete ==> answers != [] && answers[|answers| - 1] == Answer(holder, submitted, result))
    }

    constructor ()
      ensures Valid() && exchange == Idle && requests == [] && answers == [] && fresh(arbiter)
    {
      arbiter := new Arbiter();
      exchange, request, result, owner := Idle, EMPTY_REQUEST, Result(0, false, []), Nobody;
      notified, main, worker := false, Free, Waiting;
      holder, submitted, requests, answers, taken := Nobody, EMPTY_REQUEST, [], [], [];
    }

    /** Nobody who outranks the asker has asked. */
    ghost predicate First(asker: Owner)
      reads arbiter
    {
      asker != Nobody && forall other | Outranks(other, asker) :: !Asked(arbiter.pending, other)
    }

    /** Main task, first step of `submit`: win the arbitration, fill the request buffer, publish it. */
    method SubmitRequest(asker: Owner, r: Request) returns (ok: bool)
      requires Valid() && main == Free
      modifies this`exchange, this`request, this`main, this`holder, this`submitted, this`requests, arbiter
      ensures Valid()
      ensures ok <==> old(exchange) == Idle && Fits(r) && old(First(asker))
      ensures ok ==> submitted == r && holder == asker && requests == old(requests) + [(asker, r)] && main == Stored
      ensures !ok ==>
        exchange == old(exchange) && request == old(request) && requests == old(requests) && main == Free &&
        submitted == old(submitted)
      ensures forall other | other != asker :: Asked(arbiter.pending, other) <==> old(Asked(arbiter.pending, other))
      ensures ok ==> !Asked(arbiter.pending, asker)
      ensures !ok && asker != Nobody &&
        (Fits(r) || old(exchange) != Idle ||
          exists other :: Outranks(other, asker) && old(Asked(arbiter.pending, other)))
        ==> Asked(arbiter.pending, asker)
    {
      ok := arbiter.Request(asker, exchange == Idle);
      if !ok {
        return;
      }
      arbiter.Cancel(asker);
      if !Fits(r) {
        return false;
      }
      request, exchange, main := r, Requested, Stored;
      submitted, holder, requests := r, asker, requests + [(asker, r)];
    }

    /** Main task, second step: remember whose request it is. */
    method SubmitOwner(asker: Owner)
      requires Valid() && main == Stored && asker == holder
      modifies this`owner, this`main
      ensures Valid() && main == Owned && owner == holder
    {
      owner, main := asker, Owned;
    }

    /** Main task, last step: wake the worker. */
    method SubmitNotify()
      requires Valid() && main == Owned
      modifies this`notified, this`main
      ensures Valid() && main == Free
    {
      notified, main := true, Free;
    }

    /** Worker: the wait ends. */
    method Wake()
      requires Valid() && worker == Waiting && notified
      modifies this`notified, this`worker
      ensures Valid() && worker == Awake
    {
      notified, worker := false, Awake;
    }

    /** Worker: look for a request. There always is one, and it is the one submitted. */
    method Look() returns (found: bool)
      requires Valid() && worker == Awake
      modifies this`worker, this`result
      ensures Valid() && found && worker == Running && request == submitted && result == Result(-1, false, [])
    {
      found := exchange == Requested;
      worker := if found then Running else Waiting;
      result := Result(-1, false, []);
    }

    /** Worker: one more piece of the transaction, which may overwrite anything in the result buffer. */
    method Transact(partial: Result)
      requires Valid() && worker == Running
      modifies this`result
      ensures Valid() && request == submitted && result == partial
    {
      result := partial;
    }

    /** Worker: publish the result of the request it was given. */
    method Publish(final: Result)
      requires Valid() && worker == Running
      modifies this`exchange, this`worker, this`result, this`answers
      ensures Valid() && exchange == Complete && answers == old(answers) + [Answer(holder, submitted, final)]
    {
      result := final;
      exchange, worker := Complete, Waiting;
      answers := answers + [Answer(holder, request, final)];
    }

    /** Main task: a result is visible only once it is complete, and only to its owner. */
    method Poll(asker: Owner) returns (visible: bool, r: Result)
      requires Valid() && main == Free && asker != Nobody
      ensures visible <==> exchange == Complete && holder == asker
      ensures visible ==> |answers| == |requests| && answers[|answers| - 1] == Answer(asker, submitted, r)
    {
      r := result;
      visible := owner == asker && exchange == Complete;
    }

    /** Main task: give the buffers back, keeping no secret and no body. */
    method Release(asker: Owner)
      requires Valid() && main == Free
      modifies this`exchange, this`request, this`result, this`owner
      ensures Valid()
      ensures exchange == if old(exchange) == Complete && holder == asker then Idle else old(exchange)
    {
      if owner == asker && exchange == Complete {
        request, result := EMPTY_REQUEST, result.(body := []);
        exchange, owner := Idle, Nobody;
      }
    }

    /** How many steps the two tasks still have to take for the accepted request. */
    function Remaining(): nat
      reads this`exchange, this`main, this`worker
    {
      if exchange != Requested then 0
      else match main
        case Stored => 5
        case Owned => 4
        case Free => match worker case Waiting => 3 case Awake => 2 case Running => 1
    }

    /** The step due next, by the task whose turn it is. */
    function Due(final: Result): Step
      reads this`exchange, this`main, this`worker
    {
      match Remaining()
      case 5 => Remembers
      case 4 => Notifies
      case 3 => Wakes
      case 2 => Looks
      case _ => Publishes(final)
    }

    /** The step is due, whatever the result. */
    predicate IsDue(step: Step)
      reads this`exchange, this`main, this`worker
    {
      match Remaining()
      case 5 => step.Remembers?
      case 4 => step.Notifies?
      case 3 => step.Wakes?
      case 2 => step.Looks?
      case _ => step.Publishes?
    }

    /** What one step of either task does to requests and answers, to who has asked, and to how much is left to do. */
    twostate predicate Stepped(step: Step)
      reads this, arbiter
    {
      && old(answers) <= answers
      && (requests == old(requests) ||
          (step.Submits? && requests == old(requests) + [(step.asker, step.request)] && old(First(step.asker))))
      && (forall other | !Withdraws(step, other) && old(Asked(arbiter.pending, other)) ::
           Asked(arbiter.pending, other) || (requests != old(requests) && step.asker == other))
      && (old(exchange) == Requested ==>
          && requests == old(requests)
          && (answers == old(answers) ==> exchange == Requested && Remaining() <= old(Remaining())))
      && (old(exchange) == Requested && old(IsDue(step)) ==>
           |answers| > |old(answers)| || Remaining() < old(Remaining()))
    }

    /** One step of either task, which does nothing when that task is elsewhere. */
    method Take(step: Step)
      requires Valid()
      modifies this, arbiter
      ensures Valid() && Stepped(step) && taken == old(taken) + [step]
      ensures step.Submits? && Fits(step.request) && old(main == Free && exchange == Idle && First(step.asker)) ==>
        requests == old(requests) + [(step.asker, step.request)]
      ensures step.Releases? && old(main == Free && exchange == Complete && holder == step.asker) ==> exchange == Idle
      ensures step.Cancels? ==>
        if old(main) == Free then !Asked(arbiter.pending, step.asker) else arbiter.pending == old(arbiter.pending)
    {
      hide Outranks, First, Fits, Asked, Withdraws;
      taken := taken + [step];
      if step.Wakes? || step.Looks? || step.Transacts? || step.Publishes? {
        WorkerTurn(step);
      } else {
        MainTurn(step);
      }
    }

    method MainTurn(step: Step)
      requires Valid() && !step.Wakes? && !step.Looks? && !step.Transacts? && !step.Publishes?
      modifies this`exchange, this`request, this`result, this`owner, this`notified, this`main, this`holder,
        this`submitted, this`requests, arbiter
      ensures Valid() && Stepped(step)
      ensures step.Submits? && Fits(step.request) && old(main == Free && exchange == Idle && First(step.asker)) ==>
        requests == old(requests) + [(step.asker, step.request)]
      ensures step.Releases? && old(main == Free && exchange == Complete && holder == step.asker) ==> exchange == Idle
      ensures step.Cancels? ==>
        if old(main) == Free then !Asked(arbiter.pending, step.asker) else arbiter.pending == old(arbiter.pending)
    {
      hide Outranks, First, Fits;
      match step
      case Submits(asker, r) =>
        if main == Free { var ok := SubmitRequest(asker, r); }
      case Remembers =>
        if main == Stored { SubmitOwner(holder); }
      case Notifies =>
        if main == Owned { SubmitNotify(); }
      case Releases(asker) =>
        if main == Free { Release(asker); }
      case Cancels(asker) =>
        if main == Free { arbiter.Cancel(asker); }
    }

    method WorkerTurn(step: Step)
      requires Valid() && (step.Wakes? || step.Looks? || step.Transacts? || step.Publishes?)
      modifies this`exchange, this`result, this`notified, this`worker, this`answers
      ensures Valid() && Stepped(step)
    {
      match step
      case Wakes =>
        if worker == Waiting && notified { Wake(); }
      case Looks =>
        if worker == Awake { var found := Look(); }
      case Transacts(partial) =>
        if worker == Running { Transact(partial); }
      case Publishes(final) =>
        if worker == Running { Publish(final); }
    }

    /**
     Any interleaving of the two tasks: every answer is to the request accepted in its turn; and an
     owner that has asked and does not withdraw, however often it tries again, is let in before
     anyone it outranks.
     */
    method Interleave(steps: seq<Step>, ghost asked: Owner)
      requires Valid()
      modifies this, arbiter
      ensures Valid() && old(requests) <= requests && old(answers) <= answers && taken == old(taken) + steps
      ensures |answers| <= |requests| <= |answers| + 1
      ensures forall i | 0 <= i < |answers| :: (answers[i].asker, answers[i].request) == requests[i]
      ensures old(Asked(arbiter.pending, asked)) && (forall i | 0 <= i < |steps| :: !Withdraws(steps[i], asked)) ==>
        && (Asked(arbiter.pending, asked) || exists j | |old(requests)| <= j < |requests| :: requests[j].0 == asked)
        && forall i | |old(requests)| <= i < |requests| && Outranks(asked, requests[i].0) ::
             exists j | |old(requests)| <= j < i :: requests[j].0 == asked
    {
      ghost var served, at := false, 0;
      for k := 0 to |steps|
        invariant Valid() && old(requests) <= requests && old(answers) <= answers
        invariant taken == old(taken) + steps[..k]
        invariant served ==> |old(requests)| <= at < |requests| && requests[at].0 == asked
        invariant old(Asked(arbiter.pending, asked)) && (forall i | 0 <= i < k :: !Withdraws(steps[i], asked)) ==>
          && (served || Asked(arbiter.pending, asked))
          && forall i | |old(requests)| <= i < if served then at else |requests| :: !Outranks(asked, requests[i].0)
      {
        hide Outranks, Asked, Withdraws;
        ghost var before := requests;
        Take(steps[k]);
        if !served && requests != before && steps[k].asker == asked {
          served, at := true, |before|;
        }
      }
    }

    /**
     Every accepted request gets its one answer: once either task has taken the step due five times,
     whatever else the two have done in between.
     */
    method Finish(between: seq<seq<Step>>, final: Result)
      requires Valid() && exchange == Requested && |between| == 5
      modifies this, arbiter
      ensures Valid() && old(requests) <= requests && |answers| >= |old(requests)| == |old(answers)| + 1
      ensures old(answers) <= answers && forall k, step | 0 <= k < 5 && step in between[k] :: step in taken
      ensures (answers[|old(answers)|].asker, answers[|old(answers)|].request) == old((holder, submitted))
    {
      for k := 0 to 5
        invariant Valid() && old(requests) <= requests && old(answers) <= answers
        invariant forall n, step | 0 <= n < k && step in between[n] :: step in taken
        invariant |answers| < |old(requests)| ==> Remaining() <= 5 - k
      {
        Meanwhile(between[k]);
        if exchange == Requested {
          Take(Due(final));
        }
      }
    }

    /** Any steps keep the accepted request where it is, or bring it nearer to its answer. */
    method Meanwhile(steps: seq<Step>)
      requires Valid()
      modifies this, arbiter
      ensures Valid() && old(requests) <= requests && old(answers) <= answers && taken == old(taken) + steps
      ensures old(exchange) == Requested && answers == old(answers) ==> Remaining() <= old(Remaining())
    {
      for k := 0 to |steps|
        invariant Valid() && old(requests) <= requests && old(answers) <= answers
        invariant taken == old(taken) + steps[..k]
        invariant old(exchange) == Requested && answers == old(answers) ==>
          exchange == Requested && Remaining() <= old(Remaining())
      {
        Take(steps[k]);
      }
    }
  }
}
