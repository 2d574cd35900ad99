/** Messages through the whole store: from the header and content that the broker
    enqueues, through log, journal, crash and recovery, to what it gets back. */
module Messages {
  import opened Records
  import opened Content
  import opened Codec
  import opened Protocol
  import opened ProtocolInvariant
  import opened Journal
  import opened Recovery
  import opened Restart
  import Crash
  import OperationLog

  /** The message of an `enqueue` call: the flag goes to the log beside the bytes, and
      once more into their first octet. */
  function MessageOf(transient: bool, header: bytes, content: bytes): Msg
    requires |header| < TWO_32
  {
    Msg(transient, MsgEncode(transient, header, content))
  }

  /** Some `enqueue` call may carry this message. */
  ghost predicate Encoded(m: Msg) {
    exists header, content :: |header| < TWO_32 && m == MessageOf(m.transient, header, content)
  }

  ghost predicate FlagInOctet(m: Msg) {
    && m.body != [] && (m.body[0] == 0 <==> !m.transient)
    && (ReadBack(m.body) == Transient <==> m.transient)
  }

  /** The flag that recovery reads from the bytes is the flag of the message. */
  lemma OctetIsFlag(m: Msg)
    requires Encoded(m)
    ensures FlagInOctet(m) && ReadBack(m.body) != Malformed
  {
    EncodedBytes(m);
    var header, content :| |header| < TWO_32 && m == MessageOf(m.transient, header, content);
    ReadBackIs(m.transient, header, content);
  }

  lemma EncodedBytes(m: Msg)
    requires Encoded(m)
    ensures m.body != [] && m.body[0] == if m.transient then 1 else 0
  {
    var header, content :| |header| < TWO_32 && m == MessageOf(m.transient, header, content);
    StoredBytes(m.transient, header, content);
  }

  /** What the log gives back of such a message is the message, and the flag in the
      record is the octet. */
  lemma LogKeepsMessage(m: Msg, rest: bytes)
    requires Encoded(m) && |m.body| < TWO_64
    ensures GetMsg(PutMsg(m) + rest) == Some((m, |PutMsg(m)|))
    ensures m.body != [] && PutMsg(m)[8] == m.body[0]
  {
    MsgWhole(m, rest);
    EncodedBytes(m);
  }

  /** Any octet but 0 means a transient message, in the record as in the bytes. */
  lemma AnyOctet(b: byte, body: bytes)
    requires |body| < TWO_64
    ensures GetMsg(U64(|body|) + [b] + body) == Some((Msg(b != 0, body), 9 + |body|))
    ensures ReadBack([b] + body) == Transient <==> b != 0
  {
    var bs := U64(|body|) + [b] + body;
    assert bs[..8] == U64(|body|) && bs[8] == b && bs[9..9 + |body|] == body;
    U64RoundTrip(|body|);
  }

  // ---------------------------------------------------------------------
  // Whole runs

  /** Every message that is enqueued is such a message. */
  ghost predicate Encodes(step: Step) {
    step.Enqueue? && (step.e.EnqNew? || step.e.EnqDup?) ==> Encoded(step.e.msg)
  }

  ghost predicate OpsEncoded(s: State) {
    forall op | op in s.ops :: Encoded(s.ops[op].msg)
  }

  /** A step keeps the messages of the operations, and an enqueue adds its own. */
  ghost predicate KeepsMessages(s: State, step: Step, s': State) {
    forall op | op in s'.ops ::
      if op in s.ops then s'.ops[op].msg == s.ops[op].msg
      else step.Enqueue? && (step.e.EnqNew? || step.e.EnqDup?) && s'.ops[op].msg == step.e.msg
  }

  lemma EnqueueMessages(c: Config, s: State, e: EnqueueStep)
    requires EnqueueEnabled(s, e) && IdsOk(s)
    ensures KeepsMessages(s, Enqueue(e), EnqueueNext(c, s, e))
  {
    if e.EnqNew? {
      NewIsNew(s, OpId(s.nextId, e.qid));
    }
  }

  lemma NewIsNew(s: State, op: OpId)
    requires IdsOk(s) && op.pid == s.nextId
    ensures op !in s.ops
  {
    assert op in s.ops ==> op.pid in s.first;
  }

  lemma StoreMessages(c: Config, s: State, t: StoreStep)
    requires StoreEnabled(c, s, t)
    ensures KeepsMessages(s, Store(t), StoreNext(c, s, t))
  {
  }

  lemma AddPidMessages(s: State, a: AddPidStep)
    requires AddPidEnabled(s, a)
    ensures KeepsMessages(s, AddPid(a), AddPidNext(s, a))
  {
  }

  lemma DequeueMessages(c: Config, s: State, d: DequeueStep)
    requires DequeueEnabled(s, d)
    ensures KeepsMessages(s, Dequeue(d), DequeueNext(c, s, d))
  {
  }

  lemma WaitMessages(s: State, w: WaitStep)
    requires WaitEnabled(s, w)
    ensures KeepsMessages(s, Wait(w), WaitNext(s, w))
  {
  }

  lemma DeleteMessages(c: Config, s: State, x: DeleteStep)
    requires DeleteEnabled(c, s, x)
    ensures KeepsMessages(s, Delete(x), DeleteNext(c, s, x))
  {
  }

  lemma StepMessages(c: Config, s: State, step: Step)
    requires Enabled(c, s, step) && IdsOk(s)
    ensures KeepsMessages(s, step, Apply(c, s, step))
  {
    match step
    case Enqueue(e) => EnqueueMessages(c, s, e);
    case Store(t) => StoreMessages(c, s, t);
    case AddPid(a) => AddPidMessages(s, a);
    case Dequeue(d) => DequeueMessages(c, s, d);
    case Wait(w) => WaitMessages(s, w);
    case Delete(x) => DeleteMessages(c, s, x);
    case CleanEnq(_) =>
    case CleanDeq(_) =>
  }

  lemma StepEncodes(c: Config, s: State, step: Step, s': State)
    requires Enabled(c, s, step) && IdsOk(s) && OpsEncoded(s) && Encodes(step) && s' == Apply(c, s, step)
    ensures OpsEncoded(s')
  {
    StepMessages(c, s, step);
    EncodedNext(s, step, s');
  }

  lemma EncodedNext(s: State, step: Step, s': State)
    requires OpsEncoded(s) && Encodes(step) && KeepsMessages(s, step, s')
    ensures OpsEncoded(s')
  {
  }

  lemma {:induction false} RunEncodes(c: Config, steps: seq<Step>)
    requires IsRun(c, steps) && forall x | x in steps :: Encodes(x)
    ensures OpsEncoded(Final(c, steps))
    decreases |steps|
  {
    if steps != [] {
      var before := steps[..|steps| - 1];
      assert forall x | x in before :: x in steps;
      RunEncodes(c, before);
      RunKeeps(c, before);
      StepEncodes(c, Final(c, before), steps[|steps| - 1], Final(c, steps));
    }
  }

  /** The octet agrees with the flag in every message that the journals hold and in
      every one that replaying the log gives. */
  lemma StoreEncodes(c: Config, steps: seq<Step>, s: State, op: OpId)
    requires IsRun(c, steps) && s == Final(c, steps) && forall x | x in steps :: Encodes(x)
    ensures op in s.journal ==> Encoded(s.journal[op]) && FlagInOctet(s.journal[op])
    ensures op in Crash.PE(s) ==> Encoded(Crash.PE(s)[op]) && FlagInOctet(Crash.PE(s)[op])
  {
    RunEncodes(c, steps);
    HeldMessages(c, steps, s, op);
    if op in s.ops {
      OctetIsFlag(s.ops[op].msg);
    }
  }

  lemma HeldMessages(c: Config, steps: seq<Step>, s: State, op: OpId)
    requires IsRun(c, steps) && s == Final(c, steps)
    ensures op in s.journal ==> op in s.ops && s.journal[op] == s.ops[op].msg
    ensures op in Crash.PE(s) ==> op in s.ops && Crash.PE(s)[op] == s.ops[op].msg
  {
    RunKeeps(c, steps);
    OperationLog.RecoveryIsBounded(s.enq);
    if op in s.ops {
      Crash.AfterRun(c, steps, op);
    }
  }

  /** Whatever the broker gets back from a queue reads, in the way recovery reads it,
      as a persistent message with the header and the content that were enqueued. */
  lemma BackAsEnqueued(c: Config, steps: seq<Step>, s: State, q: uint64, r: Pass, e: Entry)
    requires IsRun(c, steps) && s == Final(c, steps) && forall x | x in steps :: Encodes(x)
    requires GotBack(s, q, r) && e in r.delivered
    ensures OpId(e.0, q) in s.ops && e.1 == s.ops[OpId(e.0, q)].msg
    ensures exists header, content ::
              |header| < TWO_32 && e.1 == MessageOf(false, header, content) &&
              ReadBack(e.1.body) == Persistent(header, content)
  {
    RunEncodes(c, steps);
    assert Restart.Handed(r, e.0);
    var m := e.1;
    var header, content :| |header| < TWO_32 && m == MessageOf(m.transient, header, content);
    ReadBackIs(m.transient, header, content);
  }
}
