/** The three job queues of the ping/pang/pung controller: three slots each,
    shifting towards `first` whenever there is a bubble in front. */
module JobQueues {
  /** 0 is an empty slot; 1, 2 and 3 are the ping, pang and pung buffers. */
  type Token = t: nat | t < 4

  datatype Slots = Slots(first: Token, second: Token, third: Token)

  const EMPTY := Slots(0, 0, 0)

  /** The buffer the queue's agent is connected to. */
  function Head(q: Slots): Token {
    if q.first == 0 then if q.second == 0 then q.third else q.second else q.first
  }

  /** The shift, which all three queues share. */
  function Shift(q: Slots, deq: bool, secondN: Token, thirdN: Token): Slots {
    Slots(
      if deq || q.first == 0 then q.second else q.first,
      if deq || q.first == 0 || q.second == 0 then secondN else q.second,
      if deq || q.first == 0 || q.second == 0 || q.third == 0 then thirdN else q.third)
  }

  /** cpuqueue.v and fwdqueue.v: one producer. */
  function QueueNext(q: Slots, token: Token, en: bool, deq: bool): Slots {
    Shift(q, deq, q.third, if en then token else 0)
  }

  /** snqueue.v: two producers, which may both deliver in the same cycle. */
  function SnQueueNext(q: Slots, fromCpu: Token, enCpu: bool, fromFwd: Token, enFwd: bool, deq: bool): Slots {
    Shift(q, deq,
          if enCpu && enFwd then fromCpu else q.third,
          if enCpu && enFwd then fromFwd else if enCpu then fromCpu else if enFwd then fromFwd else 0)
  }

  // ------------------------------------------------------ the abstract queue

  function Opt(t: Token): seq<Token> { if t == 0 then [] else [t] }

  /** The tokens in the queue, oldest first. */
  function Contents(q: Slots): seq<Token> { Opt(q.first) + Opt(q.second) + Opt(q.third) }

  function Tail(c: seq<Token>): seq<Token> { if c == [] then [] else c[1..] }

  /** The first-in, first-out law: remove the head, then append the arrivals. */
  function Fifo(c: seq<Token>, deq: bool, arrivals: seq<Token>): seq<Token> {
    (if deq then Tail(c) else c) + arrivals
  }

  lemma HeadIsOldest(q: Slots)
    ensures Contents(q) == [] <==> Head(q) == 0
    ensures Contents(q) != [] ==> Head(q) == Contents(q)[0]
    ensures q.first != 0 ==> Head(q) == q.first
  {
  }

  /** Exactly when a single-producer queue obeys the law: the head has reached
      `first` before it is removed, and nothing arrives at a full queue. */
  lemma QueueIsFifoIff(q: Slots, token: Token, en: bool, deq: bool)
    ensures var c := Contents(q); var arrivals := if en then Opt(token) else [];
            Contents(QueueNext(q, token, en, deq)) == Fifo(c, deq, arrivals)
            <==> (deq && c != [] ==> q.first != 0) && (arrivals != [] && |c| == 3 ==> deq)
  {
  }

  function SnArrivals(fromCpu: Token, enCpu: bool, fromFwd: Token, enFwd: bool): seq<Token> {
    (if enCpu then Opt(fromCpu) else []) + (if enFwd then Opt(fromFwd) else [])
  }

  /** Exactly when a double arrival is lossless: `third` is overwritten, and
      `second` takes a token only if it moves. */
  predicate DoubleFits(q: Slots, fromCpu: Token, fromFwd: Token, deq: bool) {
    if Head(q) != 0 && q.first != 0 && q.second != 0 && !deq then
      if q.third == 0 then fromCpu == 0 else fromCpu == 0 && fromFwd == 0
    else q.third == 0
  }

  predicate SnFifo(q: Slots, fromCpu: Token, enCpu: bool, fromFwd: Token, enFwd: bool, deq: bool) {
    Contents(SnQueueNext(q, fromCpu, enCpu, fromFwd, enFwd, deq))
      == Fifo(Contents(q), deq, SnArrivals(fromCpu, enCpu, fromFwd, enFwd))
  }

  lemma SnDoubleIsFifoIff(q: Slots, fromCpu: Token, fromFwd: Token, deq: bool)
    requires deq && Contents(q) != [] ==> q.first != 0
    ensures SnFifo(q, fromCpu, true, fromFwd, true, deq) <==> DoubleFits(q, fromCpu, fromFwd, deq)
  {
  }

  lemma SnSingleIsFifoIff(q: Slots, fromCpu: Token, enCpu: bool, fromFwd: Token, enFwd: bool, deq: bool)
    requires (deq && Contents(q) != [] ==> q.first != 0) && !(enCpu && enFwd)
    ensures SnFifo(q, fromCpu, enCpu, fromFwd, enFwd, deq)
            <==> (SnArrivals(fromCpu, enCpu, fromFwd, enFwd) != [] && |Contents(q)| == 3 ==> deq)
  {
  }

  /** Exactly when the snooper's queue obeys the law. */
  lemma SnQueueIsFifoIff(q: Slots, fromCpu: Token, enCpu: bool, fromFwd: Token, enFwd: bool, deq: bool)
    requires deq && Contents(q) != [] ==> q.first != 0
    ensures var c := Contents(q); var arrivals := SnArrivals(fromCpu, enCpu, fromFwd, enFwd);
            Contents(SnQueueNext(q, fromCpu, enCpu, fromFwd, enFwd, deq)) == Fifo(c, deq, arrivals)
            <==> if enCpu && enFwd then DoubleFits(q, fromCpu, fromFwd, deq) else arrivals != [] && |c| == 3 ==> deq
  {
    hide Contents, SnQueueNext, Fifo, SnArrivals, DoubleFits;
    if enCpu && enFwd {
      SnDoubleIsFifoIff(q, fromCpu, fromFwd, deq);
    } else {
      SnSingleIsFifoIff(q, fromCpu, enCpu, fromFwd, enFwd, deq);
    }
  }

  /** Bubbles close: without a removal a token that is the head is in `first`
      after at most two cycles, and stays the head meanwhile. */
  lemma HeadReachesFirst(q: Slots, t1: Token, e1: bool, t2: Token, e2: bool)
    requires Contents(q) != []
    ensures var q1 := QueueNext(q, t1, e1, false); var q2 := QueueNext(q1, t2, e2, false);
            Head(q1) == Head(q) && Head(q2) == Head(q) && q2.first == Head(q)
  {
  }

  /** The same for the snooper's queue, whatever arrives. */
  lemma SnHeadReachesFirst(q: Slots, c1: Token, e1: bool, f1: Token, g1: bool, c2: Token, e2: bool, f2: Token, g2: bool)
    requires Contents(q) != []
    ensures var q1 := SnQueueNext(q, c1, e1, f1, g1, false); var q2 := SnQueueNext(q1, c2, e2, f2, g2, false);
            (e1 && g1 ==> q.third == 0) ==>
            Head(q1) == Head(q) && ((e2 && g2 ==> q1.third == 0) ==> q2.first == Head(q))
  {
  }

  // ---------------------------------------------------------------- modules

  /** The registers and clocked shift of one queue. */
  class Queue {
    var first: Token
    var second: Token
    var third: Token

    constructor (q: Slots)
      ensures Regs() == q
    {
      first, second, third := q.first, q.second, q.third;
    }

    function Regs(): Slots
      reads this
    {
      Slots(first, second, third)
    }

    method Clock(deq: bool, secondN: Token, thirdN: Token)
      modifies this
      ensures Regs() == Shift(old(Regs()), deq, secondN, thirdN)
    {
      var bubble1 := first == 0;
      var bubble2 := bubble1 || second == 0;
      var bubble3 := bubble2 || third == 0;
      if deq || bubble1 {
        first := second;
      }
      if deq || bubble2 {
        second := secondN;
      }
      if deq || bubble3 {
        third := thirdN;
      }
    }

    /** cpuqueue.v, fwdqueue.v */
    method ClockSingle(rst: bool, token: Token, en: bool, deq: bool)
      modifies this
      ensures Regs() == if rst then EMPTY else QueueNext(old(Regs()), token, en, deq)
      ensures var c := Contents(old(Regs()));
              !rst && (deq && c != [] ==> old(first) != 0) && (en && token != 0 && |c| == 3 ==> deq) ==>
              Contents(Regs()) == Fifo(c, deq, if en then Opt(token) else [])
    {
      QueueIsFifoIff(Regs(), token, en, deq);
      if rst {
        first, second, third := 0, 0, 0;
      } else {
        Clock(deq, third, if en then token else 0);
      }
    }

    /** snqueue.v */
    method ClockDouble(rst: bool, fromCpu: Token, enCpu: bool, fromFwd: Token, enFwd: bool, deq: bool)
      modifies this
      ensures Regs() == if rst then Slots(1, 2, 3) else SnQueueNext(old(Regs()), fromCpu, enCpu, fromFwd, enFwd, deq)
    {
      if rst {
        first, second, third := 1, 2, 3;
      } else {
        Clock(deq,
              if enCpu && enFwd then fromCpu else third,
              if enCpu && enFwd then fromFwd else if enCpu then fromCpu else if enFwd then fromFwd else 0);
      }
    }
  }
}
