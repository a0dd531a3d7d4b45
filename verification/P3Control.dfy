/** The ping/pang/pung controller (p3ctrl.v): three queues that pass three
    buffer tokens between the snooper, the CPU and the forwarder. */
module P3Control {
  import opened JobQueues

  datatype P3 = P3(sn: Slots, cpu: Slots, fwd: Slots)

  /** The done pulses of one cycle. */
  datatype Pulses = Pulses(snDone: bool, acc: bool, rej: bool, fwdDone: bool)

  const P3_RESET := P3(Slots(1, 2, 3), EMPTY, EMPTY)

  function P3Next(p: P3, i: Pulses): P3 {
    P3(SnQueueNext(p.sn, Head(p.cpu), i.rej, Head(p.fwd), i.fwdDone, i.snDone),
       QueueNext(p.cpu, Head(p.sn), i.snDone, i.acc || i.rej),
       QueueNext(p.fwd, Head(p.cpu), i.acc, i.fwdDone))
  }

  function Count(q: Slots, t: Token): nat {
    (if q.first == t then 1 else 0) + (if q.second == t then 1 else 0) + (if q.third == t then 1 else 0)
  }

  /** How many of the nine slots hold t. */
  function Copies(p: P3, t: Token): nat { Count(p.sn, t) + Count(p.cpu, t) + Count(p.fwd, t) }

  /** Each of the three tokens is in exactly one of the nine slots. */
  predicate Conserved(p: P3) {
    Copies(p, 1) == 1 && Copies(p, 2) == 1 && Copies(p, 3) == 1
  }

  /** Only an agent that has a buffer pulses done. */
  predicate Owning(p: P3, i: Pulses) {
    && (i.snDone ==> Head(p.sn) != 0)
    && (i.acc || i.rej ==> Head(p.cpu) != 0)
    && (i.fwdDone ==> Head(p.fwd) != 0)
  }

  /** E1: an agent pulses done only when its token has reached `first`. */
  predicate AtFirst(p: P3, i: Pulses) {
    && (i.snDone ==> p.sn.first != 0)
    && (i.acc || i.rej ==> p.cpu.first != 0)
    && (i.fwdDone ==> p.fwd.first != 0)
  }

  /** E2: no agent pulses done in two consecutive cycles. */
  predicate NoRepeat(prev: Pulses, i: Pulses) {
    && !(prev.snDone && i.snDone)
    && !((prev.acc || prev.rej) && (i.acc || i.rej))
    && !(prev.fwdDone && i.fwdDone)
  }

  /** A step that moves tokens without losing or copying one: E1, E3 (accept and
      reject exclude each other), and a double arrival finds `third` empty. */
  predicate Disciplined(p: P3, i: Pulses) {
    AtFirst(p, i) && !(i.acc && i.rej) && (i.rej && i.fwdDone ==> p.sn.third == 0)
  }

  lemma ConservedSizes(p: P3)
    requires Conserved(p)
    ensures |Contents(p.sn)| + |Contents(p.cpu)| + |Contents(p.fwd)| == 3
  {
    CountSizes(p.sn);
    CountSizes(p.cpu);
    CountSizes(p.fwd);
  }

  lemma CountSizes(q: Slots)
    ensures |Contents(q)| == Count(q, 1) + Count(q, 2) + Count(q, 3)
  {
  }

  /** What a disciplined step does to the three queues, as plain sequences. */
  lemma TokensMove(p: P3, i: Pulses)
    requires Conserved(p) && Disciplined(p, i)
    ensures var p' := P3Next(p, i);
      && Contents(p'.sn) == Fifo(Contents(p.sn), i.snDone,
           (if i.rej then [Head(p.cpu)] else []) + (if i.fwdDone then [Head(p.fwd)] else []))
      && Contents(p'.cpu) == Fifo(Contents(p.cpu), i.acc || i.rej, if i.snDone then [Head(p.sn)] else [])
      && Contents(p'.fwd) == Fifo(Contents(p.fwd), i.fwdDone, if i.acc then [Head(p.cpu)] else [])
      && Conserved(p')
  {
    hide Conserved;
    ConservedSizes(p);
    HeadIsOldest(p.sn);
    HeadIsOldest(p.cpu);
    HeadIsOldest(p.fwd);
    SnQueueIsFifoIff(p.sn, Head(p.cpu), i.rej, Head(p.fwd), i.fwdDone, i.snDone);
    QueueIsFifoIff(p.cpu, Head(p.sn), i.snDone, i.acc || i.rej);
    QueueIsFifoIff(p.fwd, Head(p.cpu), i.acc, i.fwdDone);
    ConservedIff(p, i);
  }

  /** Exactly when one step keeps every token, for agents that own what they
      release.  (A double arrival that overwrites `third` is harmless in one
      case: when the snooper releases that very token.) */
  lemma ConservedIff(p: P3, i: Pulses)
    requires Conserved(p) && Owning(p, i)
    ensures Conserved(P3Next(p, i)) <==>
      && !(i.acc && i.rej)
      && (i.acc || i.rej ==> p.cpu.first != 0)
      && (i.fwdDone ==> p.fwd.first != 0)
      && (i.snDone ==> p.sn.first != 0 || (p.sn.second == 0 && i.rej && i.fwdDone))
      && (i.rej && i.fwdDone && p.sn.third != 0 ==> i.snDone)
  {
    hide QueueNext, SnQueueNext, Count, Copies, P3Next, Contents;
    ConservedSizes(p);
    HeadIsOldest(p.sn);
    HeadIsOldest(p.cpu);
    HeadIsOldest(p.fwd);
    TokenBalance(p, i, 1);
    TokenBalance(p, i, 2);
    TokenBalance(p, i, 3);
    Distinct(p);
  }

  /** What conservation says about the slots that the balance mentions. */
  lemma Distinct(p: P3)
    requires Conserved(p)
    ensures var s, c, f := Head(p.sn), Head(p.cpu), Head(p.fwd);
            && (s != 0 ==> s != c && s != f) && (c != 0 ==> c != f)
            && (p.sn.third != 0 ==> p.sn.third != c && p.sn.third != f)
            && (p.sn.third != 0 ==> p.sn.third != p.sn.first && p.sn.third != p.sn.second)
    ensures Head(p.cpu) != 0 && Head(p.fwd) != 0 ==> |Contents(p.sn)| <= 1
  {
  }

  function One(b: bool): int { if b then 1 else 0 }

  /** Where the copies of one token come from and go to in a step. */
  lemma TokenBalance(p: P3, i: Pulses, t: Token)
    requires t != 0 && Owning(p, i)
    requires |Contents(p.sn)| + |Contents(p.cpu)| + |Contents(p.fwd)| == 3
    ensures var p' := P3Next(p, i);
      Copies(p', t) == Copies(p, t)
        + One(i.snDone && Head(p.sn) == t) - One(i.snDone && p.sn.first == t)
        + One(i.rej && Head(p.cpu) == t) + One(i.acc && Head(p.cpu) == t) - One((i.acc || i.rej) && p.cpu.first == t)
        + One(i.fwdDone && Head(p.fwd) == t) - One(i.fwdDone && p.fwd.first == t)
        - One(i.rej && i.fwdDone && p.sn.third == t)
  {
    hide QueueNext, SnQueueNext, Count;
    HeadIsOldest(p.sn);
    HeadIsOldest(p.cpu);
    HeadIsOldest(p.fwd);
    DoubleCount(p.sn, Head(p.cpu), i.rej, Head(p.fwd), i.fwdDone, i.snDone, t);
    SingleCount(p.cpu, Head(p.sn), i.snDone, i.acc || i.rej, t);
    SingleCount(p.fwd, Head(p.cpu), i.acc, i.fwdDone, t);
  }

  lemma SingleCount(q: Slots, token: Token, en: bool, deq: bool, t: Token)
    requires t != 0 && (en ==> |Contents(q)| < 3)
    ensures Count(QueueNext(q, token, en, deq), t) ==
            Count(q, t) + One(en && token == t) - One(deq && q.first == t)
  {
  }

  lemma DoubleCount(q: Slots, fromCpu: Token, enCpu: bool, fromFwd: Token, enFwd: bool, deq: bool, t: Token)
    requires t != 0 && (enCpu || enFwd ==> |Contents(q)| < 3) && (enCpu && enFwd ==> |Contents(q)| <= 1)
    ensures Count(SnQueueNext(q, fromCpu, enCpu, fromFwd, enFwd, deq), t) ==
            Count(q, t) + One(enCpu && fromCpu == t) + One(enFwd && fromFwd == t)
            - One(deq && q.first == t) - One(enCpu && enFwd && q.third == t)
  {
  }

  // ------------------------------------------------------------------- runs

  function P3Run(ins: seq<Pulses>): P3 {
    if ins == [] then P3_RESET else P3Next(P3Run(ins[..|ins| - 1]), ins[|ins| - 1])
  }

  /** E1, E2 and E3 in every cycle of a run from reset. */
  predicate Environment(ins: seq<Pulses>) {
    ins != [] ==>
      var k := |ins| - 1;
      && Environment(ins[..k])
      && AtFirst(P3Run(ins[..k]), ins[k]) && !(ins[k].acc && ins[k].rej)
      && (k > 0 ==> NoRepeat(ins[k - 1], ins[k]))
  }

  /** A token that is alone in `third` of the snooper's queue arrived there in
      the last cycle, so one of its two producers has just pulsed. */
  lemma ThirdIsRecent(p: P3, i: Pulses)
    requires Conserved(p) && Disciplined(p, i)
    ensures var p' := P3Next(p, i);
            p'.sn.third != 0 ==> i.rej || i.fwdDone || (p'.sn.first != 0 && p'.sn.second != 0)
  {
  }

  /** E2 rules out the one double arrival that would lose a token. */
  lemma NoRepeatMeansDisciplined(p: P3, prev: Pulses, i: Pulses)
    requires Conserved(p) && Disciplined(p, prev)
    requires AtFirst(P3Next(p, prev), i) && !(i.acc && i.rej) && NoRepeat(prev, i)
    ensures Disciplined(P3Next(p, prev), i)
  {
    hide P3Next;
    var p' := P3Next(p, prev);
    ThirdIsRecent(p, prev);
    TokensMove(p, prev);
    ConservedSizes(p');
    if i.rej && i.fwdDone {
      assert |Contents(p'.cpu)| >= 1 && |Contents(p'.fwd)| >= 1;
    }
  }

  /** Token conservation: in every state reachable from reset under E1-E3 each
      of the three tokens is in exactly one of the nine slots, whatever pulses
      coincide; and every step moves tokens first-in, first-out. */
  lemma {:induction false} TokensConserved(ins: seq<Pulses>)
    requires Environment(ins)
    ensures Conserved(P3Run(ins))
    ensures ins != [] ==>
            Conserved(P3Run(ins[..|ins| - 1])) && Disciplined(P3Run(ins[..|ins| - 1]), ins[|ins| - 1])
  {
    hide P3Next, Conserved, Disciplined, AtFirst;
    if ins == [] {
      ResetConserved();
    } else {
      var k := |ins| - 1;
      TokensConserved(ins[..k]);
      if k > 0 {
        assert ins[..k][..k - 1] == ins[..k - 1];
        NoRepeatMeansDisciplined(P3Run(ins[..k - 1]), ins[k - 1], ins[k]);
      } else {
        FirstStep(ins[0]);
      }
      TokensMove(P3Run(ins[..k]), ins[k]);
    }
  }

  lemma ResetConserved()
    ensures Conserved(P3_RESET)
  {
  }

  lemma FirstStep(i: Pulses)
    requires AtFirst(P3_RESET, i) && !(i.acc && i.rej)
    ensures Disciplined(P3_RESET, i)
  {
  }

  /** An agent's buffer does not change until it releases it. */
  lemma HeadPersists(p: P3, i: Pulses)
    requires Conserved(p) && Disciplined(p, i)
    ensures !i.snDone && Head(p.sn) != 0 ==> Head(P3Next(p, i).sn) == Head(p.sn)
    ensures !i.acc && !i.rej && Head(p.cpu) != 0 ==> Head(P3Next(p, i).cpu) == Head(p.cpu)
    ensures !i.fwdDone && Head(p.fwd) != 0 ==> Head(P3Next(p, i).fwd) == Head(p.fwd)
  {
  }

  // ----------------------------------------------------------------- module

  class P3ControlModule {
    const snq: Queue
    const cpuq: Queue
    const fwdq: Queue

    constructor (snq: Queue, cpuq: Queue, fwdq: Queue)
      requires snq != cpuq && snq != fwdq && cpuq != fwdq
      ensures this.snq == snq && this.cpuq == cpuq && this.fwdq == fwdq && Valid()
    {
      this.snq, this.cpuq, this.fwdq := snq, cpuq, fwdq;
    }

    predicate Valid() { snq != cpuq && snq != fwdq && cpuq != fwdq }

    function Regs(): P3
      reads snq, cpuq, fwdq
    {
      P3(snq.Regs(), cpuq.Regs(), fwdq.Regs())
    }

    method Clock(rst: bool, i: Pulses)
      requires Valid()
      modifies snq, cpuq, fwdq
      ensures Regs() == if rst then P3_RESET else P3Next(old(Regs()), i)
    {
      hide Head, SnQueueNext, QueueNext, Fifo, Contents;
      var snSel, cpuSel, fwdSel := Head(snq.Regs()), Head(cpuq.Regs()), Head(fwdq.Regs());
      snq.ClockDouble(rst, cpuSel, i.rej, fwdSel, i.fwdDone, i.snDone);
      cpuq.ClockSingle(rst, snSel, i.snDone, i.acc || i.rej);
      fwdq.ClockSingle(rst, cpuSel, i.acc, i.fwdDone);
    }
  }
}
