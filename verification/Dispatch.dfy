/** Worker dispatch: one event loop pushes into bounded queues, one worker serves each.

Every step below is what one thread does between two points where another thread
can come in. A lock is taken in a single step and only when it is free;
pthread_cond_wait gives the lock up and blocks in one step, may wake without a
signal, and has to take the lock again; a signal that finds nobody waiting is lost.
*/
module Dispatch {
  import opened Common

  type Msg = nat

  const IntMax := 0x7fff_ffff

  datatype Owner = Free | Worker | Pusher

  /** Where the worker of a queue is in GetMessageFromRecvQueue. */
  datatype WorkerPc = Outside | Holding | Waiting | Woken | Took

  datatype Queue = Queue(items: seq<Msg>, owner: Owner, worker: WorkerPc, taken: seq<Msg>)

  /** Where the event loop is in PushMessageToRecvQueue. `seen` records the sizes the scan read. */
  datatype PusherPc =
    | Quiet
    | Scanning(msg: Msg, seen: seq<nat>, min: int, which: nat)
    | Storing(msg: Msg, seen: seq<nat>, min: int, which: nat)
    | Wanting(msg: Msg, seen: seq<nat>, which: nat)
    | Inside(msg: Msg, seen: seq<nat>, which: nat)
    | Pushed(which: nat)
    | Leaving(which: nat)

  /** `seen` are the sizes the scan read, `length` is the size of the chosen queue before the message went in. */
  datatype Outcome = Queued(msg: Msg, which: nat, seen: seq<nat>, length: nat) | Refused(msg: Msg, seen: seq<nat>)

  datatype State = State(queues: seq<Queue>, max: nat, pusher: PusherPc, log: seq<Outcome>)

  datatype Step = Offer(msg: Msg) | PusherStep | WorkerStep(q: nat) | SpuriousWake(q: nat)

  // ---------- steps ----------

  function PutQueue(s: State, q: nat, u: Queue): State
    requires q < |s.queues|
  {
    s.(queues := s.queues[q := u])
  }

  /** The next move of the worker of queue `u`, unless it is blocked. */
  function WorkerMove(u: Queue): Option<Queue> {
    match u.worker
    case Outside | Woken => if u.owner == Free then Some(u.(owner := Worker, worker := Holding)) else None
    case Holding =>
      if u.items == [] then Some(u.(owner := Free, worker := Waiting))
      else Some(u.(items := u.items[1..], taken := u.taken + [u.items[0]], worker := Took))
    case Took => Some(u.(owner := Free, worker := Outside))
    case Waiting => None
  }

  function Signalled(u: Queue): Queue {
    if u.worker == Waiting then u.(worker := Woken) else u
  }

  /** The next move of the event loop. The size that is compared and the size that is
  stored are two separate reads. */
  function PusherMove(s: State): Option<State> {
    match s.pusher
    case Quiet => None
    case Scanning(m, seen, min, which) =>
      if |seen| < |s.queues| then
        var size := |s.queues[|seen|].items|;
        Some(s.(pusher := if size < min then Storing(m, seen + [size], min, which) else Scanning(m, seen + [size], min, which)))
      else Some(s.(pusher := Wanting(m, seen, which)))
    case Storing(m, seen, min, which) =>
      if 0 < |seen| <= |s.queues| then Some(s.(pusher := Scanning(m, seen, |s.queues[|seen| - 1].items|, |seen| - 1)))
      else None
    case Wanting(m, seen, which) =>
      if which < |s.queues| && s.queues[which].owner == Free then
        Some(PutQueue(s, which, s.queues[which].(owner := Pusher)).(pusher := Inside(m, seen, which)))
      else None
    case Inside(m, seen, which) =>
      if which >= |s.queues| then None
      else if |s.queues[which].items| == s.max then Some(s.(pusher := Leaving(which), log := s.log + [Refused(m, seen)]))
      else
        Some(PutQueue(s, which, s.queues[which].(items := s.queues[which].items + [m]))
             .(pusher := Pushed(which), log := s.log + [Queued(m, which, seen, |s.queues[which].items|)]))
    case Pushed(which) =>
      if which >= |s.queues| then None
      else if |s.queues[which].items| == 1 then
        Some(PutQueue(s, which, Signalled(s.queues[which])).(pusher := Leaving(which)))
      else Some(s.(pusher := Leaving(which)))
    case Leaving(which) =>
      if which >= |s.queues| then None
      else Some(PutQueue(s, which, s.queues[which].(owner := Free)).(pusher := Quiet))
  }

  function Do(s: State, step: Step): Option<State> {
    match step
    case Offer(m) => if s.pusher == Quiet then Some(s.(pusher := Scanning(m, [], IntMax, 0))) else None
    case PusherStep => PusherMove(s)
    case WorkerStep(q) =>
      if q >= |s.queues| then None
      else (match WorkerMove(s.queues[q]) case None => None case Some(u) => Some(PutQueue(s, q, u)))
    case SpuriousWake(q) =>
      if q < |s.queues| && s.queues[q].worker == Waiting then Some(PutQueue(s, q, s.queues[q].(worker := Woken))) else None
  }

  /** The state after a whole interleaving, if every step of it can be taken. */
  function Run(s: State, steps: seq<Step>): Option<State>
    decreases |steps|
  {
    if steps == [] then Some(s)
    else match Do(s, steps[0]) case None => None case Some(t) => Run(t, steps[1..])
  }

  function Start(n: nat, max: nat): State {
    State(seq(n, _ => Queue([], Free, Outside, [])), max, Quiet, [])
  }

  // ---------- the invariant ----------

  /** The messages the log says went into queue `q`, in order. */
  function SentTo(log: seq<Outcome>, q: nat): (r: seq<Msg>) {
    if log == [] then []
    else
      var rest, last := SentTo(log[..|log| - 1], q), log[|log| - 1];
      if last.Queued? && last.which == q then rest + [last.msg] else rest
  }

  predicate PusherHolds(p: PusherPc, q: nat) {
    (p.Inside? || p.Pushed? || p.Leaving?) && p.which == q
  }

  /** A worker that sleeps on a non-empty queue has a signal coming. */
  predicate NoLostWakeup(u: Queue, p: PusherPc, q: nat) {
    u.worker == Waiting && u.items != [] ==> p == Pushed(q) && |u.items| == 1
  }

  predicate QueueOk(u: Queue, s: State, q: nat) {
    && |u.items| <= s.max
    && (u.owner == Worker <==> u.worker == Holding || u.worker == Took)
    && (u.owner == Pusher <==> PusherHolds(s.pusher, q))
    && SentTo(s.log, q) == u.taken + u.items
    && NoLostWakeup(u, s.pusher, q)
  }

  ghost predicate AllSeen(seen: seq<nat>, low: int, max: nat) {
    forall j :: 0 <= j < |seen| ==> low <= seen[j] <= max
  }

  /** What the unlocked scan is worth: the chosen queue is no longer now than any
  queue was when the scan read it. */
  ghost predicate ScanOk(s: State) {
    match s.pusher
    case Quiet => true
    case Scanning(_, seen, min, which) =>
      && |seen| <= |s.queues| && which < |s.queues| && AllSeen(seen, min, s.max)
      && (if seen == [] then min == IntMax else |s.queues[which].items| <= min)
    case Storing(_, seen, min, which) =>
      && 0 < |seen| <= |s.queues| && AllSeen(seen[..|seen| - 1], min, s.max)
      && |s.queues[|seen| - 1].items| <= seen[|seen| - 1] < min && seen[|seen| - 1] <= s.max
    case Wanting(_, seen, which) =>
      |seen| == |s.queues| && which < |seen| && AllSeen(seen, |s.queues[which].items|, s.max)
    case Inside(_, seen, which) =>
      |seen| == |s.queues| && which < |seen| && AllSeen(seen, |s.queues[which].items|, s.max)
    case Pushed(which) => which < |s.queues| && s.queues[which].items != []
    case Leaving(which) => which < |s.queues|
  }

  /** What a decision says of the sizes the scan read: a message goes into a queue no longer than any queue was
  when it was scanned, and is refused only if all were full. */
  ghost predicate DecisionOk(o: Outcome, n: nat, max: nat) {
    |o.seen| == n && AllSeen(o.seen, if o.Queued? then o.length else max, max) && (o.Queued? ==> o.length < max)
  }

  ghost predicate DecisionsOk(s: State) {
    forall i :: 0 <= i < |s.log| ==> DecisionOk(s.log[i], |s.queues|, s.max)
  }

  ghost predicate QueuesOk(s: State) {
    forall q :: 0 <= q < |s.queues| ==> QueueOk(s.queues[q], s, q)
  }

  ghost predicate Inv(s: State) {
    0 < |s.queues| && s.max < IntMax && QueuesOk(s) && ScanOk(s) && DecisionsOk(s)
  }

  lemma SentToMore(log: seq<Outcome>, o: Outcome, q: nat)
    ensures SentTo(log + [o], q) == if o.Queued? && o.which == q then SentTo(log, q) + [o.msg] else SentTo(log, q)
  {
    assert (log + [o])[..|log|] == log;
  }

  lemma StartInv(n: nat, max: nat)
    requires 0 < n && max < IntMax
    ensures Inv(Start(n, max))
  {
  }

  // ---------- every step keeps it ----------

  lemma WorkerQueueOk(u: Queue, s: State, q: nat)
    requires QueueOk(u, s, q) && WorkerMove(u).Some?
    ensures var v := WorkerMove(u).value; QueueOk(v, s, q) && |v.items| <= |u.items|
  {
    if u.worker == Holding && u.items != [] {
      assert u.taken + [u.items[0]] + u.items[1..] == u.taken + u.items;
    }
  }

  /** A queue that changed alone, and did not grow, leaves the rest of the invariant. */
  lemma OneQueueChanged(s: State, q: nat, u: Queue)
    requires Inv(s) && q < |s.queues| && QueueOk(u, s, q)
    requires |u.items| <= |s.queues[q].items| && (u.items == [] ==> s.pusher != Pushed(q))
    ensures Inv(PutQueue(s, q, u))
  {
    var t := PutQueue(s, q, u);
    assert forall k :: 0 <= k < |s.queues| && k != q ==> t.queues[k] == s.queues[k];
    forall k | 0 <= k < |t.queues| ensures QueueOk(t.queues[k], t, k) {
      assert QueueOk(s.queues[k], s, k);
    }
    assert forall k :: 0 <= k < |s.queues| ==> |t.queues[k].items| <= |s.queues[k].items|;
    ScanShrinks(s, t);
  }

  lemma ScanShrinks(s: State, t: State)
    requires ScanOk(s) && t == s.(queues := t.queues) && |t.queues| == |s.queues|
    requires forall k :: 0 <= k < |s.queues| ==> |t.queues[k].items| <= |s.queues[k].items|
    requires forall k :: 0 <= k < |s.queues| && t.queues[k].items == [] ==> s.pusher != Pushed(k) || s.queues[k].items == []
    ensures ScanOk(t)
  {
  }

  lemma WorkerKeeps(s: State, q: nat)
    requires Inv(s) && Do(s, WorkerStep(q)).Some?
    ensures Inv(Do(s, WorkerStep(q)).value)
  {
    var u := s.queues[q];
    assert QueueOk(u, s, q);
    WorkerQueueOk(u, s, q);
    OneQueueChanged(s, q, WorkerMove(u).value);
  }

  lemma WakeKeeps(s: State, q: nat)
    requires Inv(s) && Do(s, SpuriousWake(q)).Some?
    ensures Inv(Do(s, SpuriousWake(q)).value)
  {
    assert QueueOk(s.queues[q], s, q);
    OneQueueChanged(s, q, s.queues[q].(worker := Woken));
  }

  /** The pusher's own moves through the scan touch no queue. */
  lemma ScanKeeps(s: State)
    requires Inv(s) && (s.pusher.Scanning? || s.pusher.Storing?)
    ensures PusherMove(s).Some? && Inv(PusherMove(s).value)
  {
    var t := PusherMove(s).value;
    PusherMovedOn(s, t.pusher);
    if s.pusher.Scanning? && |s.pusher.seen| < |s.queues| {
      assert QueueOk(s.queues[|s.pusher.seen|], s, |s.pusher.seen|);
      assert (s.pusher.seen + [|s.queues[|s.pusher.seen|].items|])[..|s.pusher.seen|] == s.pusher.seen;
    }
  }

  /** A pusher outside the critical sections makes no difference to the queues. */
  lemma PusherMovedOn(s: State, p: PusherPc)
    requires QueuesOk(s) && !s.pusher.Inside? && !s.pusher.Pushed? && !s.pusher.Leaving?
    requires !p.Inside? && !p.Pushed? && !p.Leaving?
    ensures QueuesOk(s.(pusher := p))
  {
    forall k | 0 <= k < |s.queues| ensures QueueOk(s.queues[k], s.(pusher := p), k) {
      assert QueueOk(s.queues[k], s, k);
    }
  }

  /** The decision in the critical section, seen from queue `k`. */
  lemma DecisionSent(s: State, t: State, k: nat)
    requires PusherMove(s) == Some(t) && s.pusher.Inside? && s.pusher.which < |s.queues| && k < |s.queues|
    requires SentTo(s.log, k) == s.queues[k].taken + s.queues[k].items
    ensures SentTo(t.log, k) == t.queues[k].taken + t.queues[k].items
  {
    var u := s.queues[k];
    SentToMore(s.log, t.log[|s.log|], k);
    assert u.taken + (u.items + [s.pusher.msg]) == (u.taken + u.items) + [s.pusher.msg];
  }

  lemma DecisionKeepsQueue(s: State, t: State, k: nat)
    requires PusherMove(s) == Some(t) && s.pusher.Inside?
    requires s.pusher.which < |s.queues| && k < |s.queues| && QueueOk(s.queues[k], s, k)
    ensures QueueOk(t.queues[k], t, k)
  {
    DecisionSent(s, t, k);
  }

  /** The other moves around the critical section. */
  lemma LockKeepsQueue(s: State, t: State, k: nat)
    requires PusherMove(s) == Some(t) && (s.pusher.Wanting? || s.pusher.Pushed? || s.pusher.Leaving?)
    requires s.pusher.which < |s.queues| && k < |s.queues| && QueueOk(s.queues[k], s, k)
    ensures QueueOk(t.queues[k], t, k)
  {
  }

  lemma InsideKeepsQueues(s: State, t: State, q: nat)
    requires Inv(s) && PusherMove(s) == Some(t) && !s.pusher.Scanning? && !s.pusher.Storing? && q == s.pusher.which
    ensures |t.queues| == |s.queues| && QueuesOk(t)
  {
    forall k | 0 <= k < |t.queues| ensures QueueOk(t.queues[k], t, k) {
      assert QueueOk(s.queues[k], s, k);
      if s.pusher.Inside? { DecisionKeepsQueue(s, t, k); } else { LockKeepsQueue(s, t, k); }
    }
  }

  lemma InsideKeepsScan(s: State, t: State)
    requires Inv(s) && PusherMove(s) == Some(t) && !s.pusher.Scanning? && !s.pusher.Storing?
    ensures ScanOk(t)
  {
    assert forall k :: 0 <= k < |s.queues| ==> |s.queues[k].items| <= |t.queues[k].items|;
  }

  lemma InsideKeepsLog(s: State, t: State)
    requires Inv(s) && PusherMove(s) == Some(t) && !s.pusher.Scanning? && !s.pusher.Storing?
    ensures DecisionsOk(t)
  {
  }

  lemma InsideKeeps(s: State)
    requires Inv(s) && PusherMove(s).Some? && !s.pusher.Scanning? && !s.pusher.Storing?
    ensures Inv(PusherMove(s).value)
  {
    var t := PusherMove(s).value;
    InsideKeepsQueues(s, t, s.pusher.which);
    InsideKeepsScan(s, t);
    InsideKeepsLog(s, t);
    assert t.max == s.max;
  }

  /** Every step of every thread keeps the invariant. */
  lemma StepKeeps(s: State, step: Step)
    requires Inv(s) && Do(s, step).Some?
    ensures Inv(Do(s, step).value)
  {
    match step
    case Offer(m) =>
      PusherMovedOn(s, Do(s, step).value.pusher);
    case PusherStep =>
      if s.pusher.Scanning? || s.pusher.Storing? { ScanKeeps(s); } else { InsideKeeps(s); }
    case WorkerStep(q) => WorkerKeeps(s, q);
    case SpuriousWake(q) => WakeKeeps(s, q);
  }

  lemma {:induction false} RunKeeps(s: State, steps: seq<Step>)
    requires Inv(s) && Run(s, steps).Some?
    ensures Inv(Run(s, steps).value)
    decreases |steps|
  {
    if steps != [] {
      StepKeeps(s, steps[0]);
      RunKeeps(Do(s, steps[0]).value, steps[1..]);
    }
  }

  // ---------- what whole runs keep ----------

  /** The messages offered in a run, in order. */
  function Offered(steps: seq<Step>): seq<Msg> {
    if steps == [] then [] else (if steps[0].Offer? then [steps[0].msg] else []) + Offered(steps[1..])
  }

  /** The messages whose offer has been decided, and the one in hand. */
  function Decided(log: seq<Outcome>): seq<Msg> { seq(|log|, i requires 0 <= i < |log| => log[i].msg) }

  function InHand(p: PusherPc): seq<Msg> {
    if p.Scanning? || p.Storing? || p.Wanting? || p.Inside? then [p.msg] else []
  }

  lemma OfferedOnce(s: State, step: Step)
    requires Do(s, step).Some?
    ensures var t := Do(s, step).value;
      Decided(t.log) + InHand(t.pusher) == (Decided(s.log) + InHand(s.pusher)) + (if step.Offer? then [step.msg] else [])
  {
  }

  lemma {:induction false} EveryOfferIsDecidedOnce(s: State, steps: seq<Step>)
    requires Run(s, steps).Some?
    ensures var t := Run(s, steps).value;
      Decided(t.log) + InHand(t.pusher) == (Decided(s.log) + InHand(s.pusher)) + Offered(steps)
    decreases |steps|
  {
    if steps != [] {
      OfferedOnce(s, steps[0]);
      EveryOfferIsDecidedOnce(Do(s, steps[0]).value, steps[1..]);
      Regroup(Decided(s.log) + InHand(s.pusher), if steps[0].Offer? then [steps[0].msg] else [], Offered(steps[1..]));
    }
  }

  /** Over every interleaving: no queue is over its maximum, each queue hands its messages
  out in the order they were accepted, each once, no worker sleeps through a message,
  a message goes into a queue no longer than any queue was when the scan read it, and it
  is refused only if the scan found every queue full. */
  lemma DispatchIsSafe(n: nat, max: nat, steps: seq<Step>)
    requires 0 < n && max < IntMax && Run(Start(n, max), steps).Some?
    ensures var t := Run(Start(n, max), steps).value;
      && |t.queues| == n && t.max == max
      && (forall q :: 0 <= q < n ==>
            && |t.queues[q].items| <= max
            && t.queues[q].taken + t.queues[q].items == SentTo(t.log, q)
            && (t.queues[q].worker == Waiting && t.queues[q].items != [] ==> t.pusher == Pushed(q) && |t.queues[q].items| == 1))
      && (forall i :: 0 <= i < |t.log| ==>
            && |t.log[i].seen| == n
            && (t.log[i].Refused? ==> forall q :: 0 <= q < n ==> t.log[i].seen[q] == max)
            && (t.log[i].Queued? ==> t.log[i].length < max && forall q :: 0 <= q < n ==> t.log[i].length <= t.log[i].seen[q]))
      && Decided(t.log) + InHand(t.pusher) == Offered(steps)
  {
    StartInv(n, max);
    RunKeeps(Start(n, max), steps);
    EveryOfferIsDecidedOnce(Start(n, max), steps);
    SameShape(Start(n, max), steps);
    var t := Run(Start(n, max), steps).value;
    forall q | 0 <= q < n
      ensures QueueOk(t.queues[q], t, q)
    {
    }
  }

  lemma {:induction false} SameShape(s: State, steps: seq<Step>)
    requires Run(s, steps).Some?
    ensures |Run(s, steps).value.queues| == |s.queues| && Run(s, steps).value.max == s.max
    decreases |steps|
  {
    if steps != [] { SameShape(Do(s, steps[0]).value, steps[1..]); }
  }

  // ---------- progress ----------

  function WorkerWeight(w: WorkerPc): (r: nat) {
    match w
    case Waiting => 0 case Holding => 1 case Outside => 2 case Woken => 2 case Took => 3
  }

  function Weight(u: Queue): nat { 3 * |u.items| + WorkerWeight(u.worker) }

  function Weights(us: seq<Queue>): nat {
    if us == [] then 0 else Weight(us[0]) + Weights(us[1..])
  }

  function PusherWeight(p: PusherPc, n: nat): int {
    match p
    case Quiet => 0
    case Scanning(_, seen, _, _) => 10 + 2 * (n - |seen|)
    case Storing(_, seen, _, _) => 11 + 2 * (n - |seen|)
    case Wanting(_, _, _) => 9
    case Inside(_, _, _) => 8
    case Pushed(_) => 4
    case Leaving(_) => 1
  }

  function Measure(s: State): int { Weights(s.queues) + PusherWeight(s.pusher, |s.queues|) }

  lemma {:induction false} WeightsPut(us: seq<Queue>, q: nat, u: Queue)
    requires q < |us|
    ensures Weights(us[q := u]) == Weights(us) - Weight(us[q]) + Weight(u)
  {
    if q == 0 {
      assert us[q := u][1..] == us[1..];
    } else {
      assert us[q := u][1..] == us[1..][q - 1 := u];
      WeightsPut(us[1..], q - 1, u);
    }
  }

  /** What a step may add to the measure: an offer and a spurious wakeup do, nothing else. */
  function Gain(step: Step, n: nat): (r: int) {
    match step
    case Offer(_) => 10 + 2 * n
    case SpuriousWake(_) => 2
    case _ => -1
  }

  lemma PutMeasure(s: State, q: nat, u: Queue, p: PusherPc, log: seq<Outcome>)
    requires q < |s.queues|
    ensures Measure(PutQueue(s, q, u).(pusher := p, log := log))
         == Measure(s) - Weight(s.queues[q]) + Weight(u)
            - PusherWeight(s.pusher, |s.queues|) + PusherWeight(p, |s.queues|)
  {
    WeightsPut(s.queues, q, u);
  }

  lemma InsideMeasure(s: State)
    requires Inv(s) && PusherMove(s).Some? && !s.pusher.Scanning? && !s.pusher.Storing?
    ensures Measure(PusherMove(s).value) < Measure(s)
  {
    var t, q := PusherMove(s).value, s.pusher.which;
    assert t == PutQueue(s, q, t.queues[q]).(pusher := t.pusher, log := t.log);
    PutMeasure(s, q, t.queues[q], t.pusher, t.log);
  }

  lemma WorkerMeasure(u: Queue)
    requires WorkerMove(u).Some?
    ensures Weight(WorkerMove(u).value) < Weight(u)
  {
  }

  lemma ScanMeasure(s: State)
    requires Inv(s) && PusherMove(s).Some? && (s.pusher.Scanning? || s.pusher.Storing?)
    ensures Measure(PusherMove(s).value) < Measure(s)
  {
  }

  lemma StepMeasure(s: State, step: Step)
    requires Inv(s) && Do(s, step).Some?
    ensures Measure(Do(s, step).value) <= Measure(s) + Gain(step, |s.queues|)
  {
    var t := Do(s, step).value;
    match step
    case Offer(_) =>
    case PusherStep =>
      if !s.pusher.Scanning? && !s.pusher.Storing? { InsideMeasure(s); } else { ScanMeasure(s); }
    case WorkerStep(q) => WorkerMeasure(s.queues[q]); PutMeasure(s, q, t.queues[q], s.pusher, s.log);
    case SpuriousWake(q) => PutMeasure(s, q, t.queues[q], s.pusher, s.log);
  }

  lemma MeasureIsNat(s: State)
    requires Inv(s)
    ensures 0 <= Measure(s)
  {
  }

  function Gains(steps: seq<Step>, n: nat): int {
    if steps == [] then 0 else Gain(steps[0], n) + Gains(steps[1..], n)
  }

  lemma {:induction false} RunMeasure(s: State, steps: seq<Step>)
    requires Inv(s) && Run(s, steps).Some?
    ensures 0 <= Measure(Run(s, steps).value) <= Measure(s) + Gains(steps, |s.queues|)
    decreases |steps|
  {
    if steps == [] {
      MeasureIsNat(s);
    } else {
      StepKeeps(s, steps[0]);
      StepMeasure(s, steps[0]);
      SameShape(s, [steps[0]]);
      RunMeasure(Do(s, steps[0]).value, steps[1..]);
    }
  }

  predicate IsOwnStep(step: Step) { step.PusherStep? || step.WorkerStep? }

  lemma {:induction false} OwnStepsGain(steps: seq<Step>, n: nat)
    requires forall i :: 0 <= i < |steps| ==> IsOwnStep(steps[i])
    ensures Gains(steps, n) == -|steps|
  {
    if steps != [] {
      assert IsOwnStep(steps[0]);
      OwnStepsGain(steps[1..], n);
    }
  }

  /** Without new messages and spurious wakeups the threads come to rest. */
  lemma RunsAreBounded(s: State, steps: seq<Step>)
    requires Inv(s) && Run(s, steps).Some? && forall i :: 0 <= i < |steps| ==> IsOwnStep(steps[i])
    ensures |steps| <= Measure(s)
  {
    RunMeasure(s, steps);
    OwnStepsGain(steps, |s.queues|);
  }

  ghost predicate AtRest(s: State) {
    Do(s, PusherStep) == None && forall q: nat :: Do(s, WorkerStep(q)) == None
  }

  /** Where they come to rest nothing is left over: every queue is empty, every worker is
  waiting, and every accepted message has been taken, in order. */
  lemma AtRestMeansDrained(s: State)
    requires Inv(s) && AtRest(s)
    ensures s.pusher == Quiet
    ensures forall q :: 0 <= q < |s.queues| ==>
      s.queues[q].items == [] && s.queues[q].worker == Waiting && s.queues[q].taken == SentTo(s.log, q)
  {
    PusherIsQuiet(s);
    forall q | 0 <= q < |s.queues|
      ensures s.queues[q].items == [] && s.queues[q].worker == Waiting && s.queues[q].taken == SentTo(s.log, q)
    {
      assert QueueOk(s.queues[q], s, q);
      assert Do(s, WorkerStep(q)) == None;
    }
  }

  /** Whoever holds the lock the event loop wants can move. */
  lemma WantingMoves(s: State)
    requires Inv(s) && s.pusher.Wanting?
    ensures PusherMove(s).Some? || Do(s, WorkerStep(s.pusher.which)).Some?
  {
    assert QueueOk(s.queues[s.pusher.which], s, s.pusher.which);
  }

  lemma PusherIsQuiet(s: State)
    requires Inv(s) && AtRest(s)
    ensures s.pusher == Quiet
  {
    if s.pusher.Wanting? { WantingMoves(s); }
  }

  // ---------- balance ----------

  ghost predicate Balanced(s: State) {
    forall a, b :: 0 <= a < |s.queues| && 0 <= b < |s.queues| ==> |s.queues[a].items| <= |s.queues[b].items| + 1
  }

  /** What the scan read is still true, or has grown. */
  ghost predicate SeenStands(s: State) {
    s.pusher.Scanning? || s.pusher.Storing? || s.pusher.Wanting? || s.pusher.Inside? ==>
      forall j :: 0 <= j < |s.pusher.seen| && j < |s.queues| ==> s.pusher.seen[j] <= |s.queues[j].items|
  }

  predicate Takes(s: State, step: Step) {
    step.WorkerStep? && step.q < |s.queues| && s.queues[step.q].worker == Holding && s.queues[step.q].items != []
  }

  ghost predicate NoTakes(s: State, steps: seq<Step>)
    decreases |steps|
  {
    steps == [] || (!Takes(s, steps[0]) && (Do(s, steps[0]).Some? ==> NoTakes(Do(s, steps[0]).value, steps[1..])))
  }

  lemma PushBalances(s: State, t: State)
    requires Inv(s) && Balanced(s) && SeenStands(s)
    requires s.pusher.Inside? && PusherMove(s) == Some(t)
    ensures Balanced(t)
  {
    var w := s.pusher.which;
    forall a | 0 <= a < |s.queues| ensures |s.queues[w].items| <= |s.queues[a].items| {
      assert |s.queues[w].items| <= s.pusher.seen[a] <= |s.queues[a].items|;
    }
  }

  ghost predicate SameLengths(s: State, t: State) {
    |s.queues| == |t.queues| && forall k :: 0 <= k < |s.queues| ==> |t.queues[k].items| == |s.queues[k].items|
  }

  lemma OthersLeaveLengths(s: State, step: Step)
    requires Do(s, step).Some? && !Takes(s, step) && (step.PusherStep? ==> !s.pusher.Inside?)
    ensures SameLengths(s, Do(s, step).value)
  {
  }

  lemma ScanStands(s: State, step: Step)
    requires Inv(s) && SeenStands(s) && Do(s, step).Some?
    requires SameLengths(s, Do(s, step).value)
    ensures SeenStands(Do(s, step).value)
  {
  }

  lemma StepBalances(s: State, step: Step)
    requires Inv(s) && Balanced(s) && SeenStands(s) && Do(s, step).Some? && !Takes(s, step)
    ensures Balanced(Do(s, step).value) && SeenStands(Do(s, step).value)
  {
    if step.PusherStep? && s.pusher.Inside? {
      PushBalances(s, Do(s, step).value);
    } else {
      OthersLeaveLengths(s, step);
      ScanStands(s, step);
      BalancedBy(s, Do(s, step).value);
    }
  }

  lemma BalancedBy(s: State, t: State)
    requires Balanced(s) && SameLengths(s, t)
    ensures Balanced(t)
  {
  }

  /** As long as no worker takes a message, the queue lengths differ by at most one. */
  lemma {:induction false} RunBalances(s: State, steps: seq<Step>)
    requires Inv(s) && Balanced(s) && SeenStands(s) && Run(s, steps).Some? && NoTakes(s, steps)
    ensures Balanced(Run(s, steps).value)
    decreases |steps|
  {
    if steps != [] {
      StepKeeps(s, steps[0]);
      StepBalances(s, steps[0]);
      RunBalances(Do(s, steps[0]).value, steps[1..]);
    }
  }

  // ---------- one call that nobody interrupts ----------

  /** Queue `w` is the first of the shortest among the first `n`. */
  ghost predicate FirstShortest(qs: seq<seq<Msg>>, n: nat, w: nat) {
    && w < n <= |qs|
    && (forall j :: 0 <= j < n ==> |qs[w]| <= |qs[j]|)
    && (forall j :: 0 <= j < w ==> |qs[w]| < |qs[j]|)
  }

  class NetFrame {
    var recvQueues: seq<seq<Msg>>
    const maxRecvQueueSize: nat

    ghost predicate Valid()
      reads this
    {
      0 < |recvQueues| && maxRecvQueueSize < IntMax && forall q :: 0 <= q < |recvQueues| ==> |recvQueues[q]| <= maxRecvQueueSize
    }

    constructor (n: nat, max: nat)
      requires 0 < n && max < IntMax
      ensures Valid() && recvQueues == seq(n, _ => []) && maxRecvQueueSize == max
    {
      recvQueues := seq(n, _ => []);
      maxRecvQueueSize := max;
    }

    method ShortestQueue() returns (which: nat)
      requires Valid()
      ensures FirstShortest(recvQueues, |recvQueues|, which)
    {
      var min := IntMax;
      which := 0;
      var i := 0;
      while i < |recvQueues|
        invariant 0 <= i <= |recvQueues|
        invariant if i == 0 then min == IntMax && which == 0
                  else FirstShortest(recvQueues, i, which) && min == |recvQueues[which]|
      {
        if |recvQueues[i]| < min {
          min := |recvQueues[i]|;
          which := i;
        }
        i := i + 1;
      }
    }

    /** Refused with -2 exactly when every queue is full; otherwise the first shortest queue
    grows by the message, and its worker is signalled exactly when it was empty. */
    method PushMessageToRecvQueue(m: Msg) returns (ret: int, ghost which: nat, signalled: bool)
      requires Valid()
      modifies this
      ensures Valid() && FirstShortest(old(recvQueues), |old(recvQueues)|, which)
      ensures ret == -2 <==> forall q :: 0 <= q < |old(recvQueues)| ==> |old(recvQueues[q])| == maxRecvQueueSize
      ensures ret == -2 ==> recvQueues == old(recvQueues) && !signalled
      ensures ret != -2 ==> ret == 0 && recvQueues == old(recvQueues)[which := old(recvQueues)[which] + [m]]
      ensures ret != -2 ==> (signalled <==> old(recvQueues)[which] == [])
    {
      signalled := false;
      var w := ShortestQueue();
      which := w;
      if |recvQueues[w]| == maxRecvQueueSize { return -2, w, false; }
      recvQueues := recvQueues[w := recvQueues[w] + [m]];
      if |recvQueues[w]| == 1 { signalled := true; }
      ret := 0;
    }
  }

  function Items(us: seq<Queue>): (r: seq<seq<Msg>>)
    ensures |r| == |us|
  {
    seq(|us|, i requires 0 <= i < |us| => us[i].items)
  }

  lemma RunMore(s: State, steps: seq<Step>, more: Step)
    requires Run(s, steps).Some?
    ensures Run(s, steps + [more]) == Do(Run(s, steps).value, more)
    decreases |steps|
  {
    if steps == [] {
      assert steps + [more] == [more] && [more][1..] == [];
    } else {
      assert (steps + [more])[1..] == steps[1..] + [more];
      RunMore(Do(s, steps[0]).value, steps[1..], more);
    }
  }

  /** A scan that has read sizes that still stand. */
  ghost predicate ScanPoint(s: State) {
    && Inv(s) && s.pusher.Scanning?
    && (if s.pusher.seen == [] then s.pusher.which == 0
        else FirstShortest(Items(s.queues), |s.pusher.seen|, s.pusher.which) && s.pusher.min == |s.queues[s.pusher.which].items|)
  }

  lemma FirstShortestMore(qs: seq<seq<Msg>>, n: nat, w: nat)
    requires n < |qs| && if n == 0 then w == 0 else FirstShortest(qs, n, w)
    ensures FirstShortest(qs, n + 1, if |qs[n]| < |qs[w]| then n else w)
  {
  }

  /** State `t` is one scan reading further on than `s`. */
  ghost predicate ReadOne(s: State, t: State)
    requires s.pusher.Scanning?
  {
    ScanPoint(t) && t == s.(pusher := t.pusher) && t.pusher.msg == s.pusher.msg && |t.pusher.seen| == |s.pusher.seen| + 1
  }

  lemma CompareAndStore(s: State) returns (t: State, twice: bool)
    requires ScanPoint(s) && |s.pusher.seen| < |s.queues|
    ensures ReadOne(s, t)
    ensures PusherMove(s).Some? && (if twice then PusherMove(PusherMove(s).value) == Some(t) else PusherMove(s) == Some(t))
  {
    ScanKeeps(s);
    FirstShortestMore(Items(s.queues), |s.pusher.seen|, s.pusher.which);
    if s.pusher.seen == [] { FirstIsStored(s); }
    t := PusherMove(s).value;
    twice := t.pusher.Storing?;
    if twice { StoreIt(s, t); t := PusherMove(t).value; } else { KeepIt(s, t); }
  }

  /** The first size read is below the initial minimum. */
  lemma FirstIsStored(s: State)
    requires ScanPoint(s) && s.pusher.seen == []
    ensures PusherMove(s).Some? && PusherMove(s).value.pusher.Storing?
  {
    assert QueueOk(s.queues[0], s, 0);
  }

  lemma StoreIt(s: State, u: State)
    requires ScanPoint(s) && |s.pusher.seen| < |s.queues| && PusherMove(s) == Some(u) && u.pusher.Storing? && Inv(u)
    requires FirstShortest(Items(s.queues), |s.pusher.seen| + 1, |s.pusher.seen|)
    ensures PusherMove(u).Some? && ReadOne(s, PusherMove(u).value)
  {
    ScanKeeps(u);
  }

  lemma KeepIt(s: State, t: State)
    requires ScanPoint(s) && |s.pusher.seen| < |s.queues| && PusherMove(s) == Some(t) && t.pusher.Scanning? && Inv(t)
    requires s.pusher.seen != [] && FirstShortest(Items(s.queues), |s.pusher.seen| + 1, s.pusher.which)
    ensures ReadOne(s, t)
  {
  }

  ghost predicate OnlyPusher(steps: seq<Step>, all: seq<Step>) {
    steps <= all && forall i :: |steps| <= i < |all| ==> all[i] == PusherStep
  }

  lemma OneMore(s0: State, steps: seq<Step>, s: State) returns (all: seq<Step>, t: State)
    requires Run(s0, steps) == Some(s) && PusherMove(s).Some?
    ensures all == steps + [PusherStep] && t == PusherMove(s).value && Run(s0, all) == Some(t)
  {
    RunMore(s0, steps, PusherStep);
    all, t := steps + [PusherStep], PusherMove(s).value;
  }

  lemma ReadAlone(s0: State, steps: seq<Step>, s: State) returns (all: seq<Step>, t: State)
    requires Run(s0, steps) == Some(s) && ScanPoint(s) && |s.pusher.seen| < |s.queues|
    ensures OnlyPusher(steps, all) && Run(s0, all) == Some(t) && ReadOne(s, t)
  {
    var u, twice := CompareAndStore(s);
    all, t := OneMore(s0, steps, s);
    if twice { all, t := OneMore(s0, all, t); }
  }

  lemma ScanEnds(s: State)
    requires ScanPoint(s) && |s.pusher.seen| == |s.queues|
    ensures PusherMove(s).Some?
    ensures var t := PusherMove(s).value;
      && Inv(t) && t.pusher.Wanting? && t == s.(pusher := t.pusher) && t.pusher.msg == s.pusher.msg
      && FirstShortest(Items(s.queues), |s.queues|, t.pusher.which)
  {
    ScanKeeps(s);
  }

  /** The scan on its own ends at the first shortest queue. */
  lemma {:induction false} ScanAlone(s0: State, steps: seq<Step>, s: State) returns (all: seq<Step>, t: State)
    requires Run(s0, steps) == Some(s) && ScanPoint(s)
    ensures OnlyPusher(steps, all) && Run(s0, all) == Some(t) && Inv(t)
    ensures t.pusher.Wanting? && t == s.(pusher := t.pusher) && t.pusher.msg == s.pusher.msg
    ensures FirstShortest(Items(s.queues), |s.queues|, t.pusher.which)
    decreases |s.queues| - |s.pusher.seen|
  {
    if |s.pusher.seen| == |s.queues| {
      ScanEnds(s);
      all, t := OneMore(s0, steps, s);
    } else {
      var u;
      all, u := ReadAlone(s0, steps, s);
      all, t := ScanAlone(s0, all, u);
    }
  }

  /** What a push does to the queue it picked. */
  function Grown(u: Queue, m: Msg, max: nat): Queue {
    if |u.items| == max then u else (if u.items == [] then Signalled(u) else u).(items := u.items + [m])
  }

  /** With the lock held: the check of the length, the message, perhaps the signal, and the unlock. */
  lemma InsideAlone(s0: State, steps: seq<Step>, s: State) returns (all: seq<Step>, t: State)
    requires Run(s0, steps) == Some(s) && s.pusher.Inside? && s.pusher.which < |s.queues|
    requires |s.queues[s.pusher.which].items| <= s.max
    ensures OnlyPusher(steps, all) && Run(s0, all) == Some(t) && t.pusher == Quiet
    ensures var w := s.pusher.which; t.queues == s.queues[w := Grown(s.queues[w], s.pusher.msg, s.max).(owner := Free)]
  {
    all, t := OneMore(s0, steps, s);
    if t.pusher.Pushed? { all, t := OneMore(s0, all, t); }
    all, t := OneMore(s0, all, t);
  }

  /** After the scan: the lock, and what is done with it. */
  lemma AppendAlone(s0: State, steps: seq<Step>, s: State) returns (all: seq<Step>, t: State)
    requires Run(s0, steps) == Some(s) && s.pusher.Wanting? && s.pusher.which < |s.queues|
    requires s.queues[s.pusher.which].owner == Free && |s.queues[s.pusher.which].items| <= s.max
    ensures OnlyPusher(steps, all) && Run(s0, all) == Some(t) && t.pusher == Quiet
    ensures var w := s.pusher.which; t.queues == s.queues[w := Grown(s.queues[w], s.pusher.msg, s.max)]
  {
    all, t := OneMore(s0, steps, s);
    all, t := InsideAlone(s0, all, t);
  }

  /** With the locks free and no other thread moving, the steps of the state machine do
  what PushMessageToRecvQueue does. */
  lemma PushAlone(s: State, m: Msg) returns (steps: seq<Step>, which: nat)
    requires Inv(s) && s.pusher == Quiet && forall q :: 0 <= q < |s.queues| ==> s.queues[q].owner == Free
    ensures FirstShortest(Items(s.queues), |s.queues|, which)
    ensures OnlyPusher([Offer(m)], steps) && Run(s, steps).Some?
    ensures var t := Run(s, steps).value;
      t.pusher == Quiet && t.queues == s.queues[which := Grown(s.queues[which], m, s.max)]
  {
    steps := [Offer(m)];
    assert steps[1..] == [];
    var t := Do(s, Offer(m)).value;
    StepKeeps(s, Offer(m));
    steps, t := ScanAlone(s, steps, t);
    which := t.pusher.which;
    assert QueueOk(t.queues[which], t, which);
    steps, t := AppendAlone(s, steps, t);
  }
}
