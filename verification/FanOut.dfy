/** The fan-out/fan-in test service: a front end BF asks two backends and answers with the sum.

BF keeps one entry per sequence number; replies come back in any order, each at
most once.  Requests from clients, backend work, deliveries, losses and hang-ups
interleave freely.
*/
module FanOut {
  import opened Common

  // ---------- packets ----------

  datatype Kind = ReqToBF | RspFromBF | ReqToBB1 | RspFromBB1 | ReqToBB2 | RspFromBB2

  /** `x` and `y` are the operands of a request, `x` the value of a reply. */
  datatype Packet = Packet(kind: Kind, seqNo: int, x: int, y: int)

  datatype Role = BB1 | BB2

  function ReqKind(r: Role): Kind { if r == BB1 then ReqToBB1 else ReqToBB2 }

  function RspKind(r: Role): Kind { if r == BB1 then RspFromBB1 else RspFromBB2 }

  // ---------- the front end ----------

  /** ReqLocalData, with the response under construction reduced to its sum. */
  datatype Entry = Entry(arrived1: bool, arrived2: bool, sum: int, client: Endpoint)

  type Table = map<int, Entry>

  datatype Answer = Answer(seqNo: int, to: Endpoint, sum: int)

  datatype Accepted = Accepted(code: int, ld: Table, out1: Option<Packet>, out2: Option<Packet>)

  /** A request from a client: refused (-1) for another packet type or a sequence number already taken. */
  function ProcessData(ld: Table, p: Packet, from: Endpoint): Accepted {
    if p.kind != ReqToBF || p.seqNo in ld then Accepted(-1, ld, None, None)
    else Accepted(0, ld[p.seqNo := Entry(false, false, 0, from)],
                  Some(Packet(ReqToBB1, p.seqNo, p.x, 0)), Some(Packet(ReqToBB2, p.seqNo, p.y, 0)))
  }

  datatype Replied = Replied(code: int, ld: Table, answer: Option<Answer>)

  function Arrive(e: Entry, r: Role, v: int): Entry {
    if r == BB1 then e.(sum := e.sum + v, arrived1 := true) else e.(sum := e.sum + v, arrived2 := true)
  }

  function AnswerIfComplete(ld: Table, q: int): Option<Answer>
    requires q in ld
  {
    if ld[q].arrived1 && ld[q].arrived2 then Some(Answer(q, ld[q].client, ld[q].sum)) else None
  }

  /** ReceiveRspFromBB1CallBack and ReceiveRspFromBB2CallBack. */
  function CallBack(ld: Table, r: Role, p: Packet): Replied {
    if p.kind != RspKind(r) || p.seqNo !in ld then Replied(-1, ld, None)
    else
      var ld' := ld[p.seqNo := Arrive(ld[p.seqNo], r, p.x)];
      Replied(1, ld', AnswerIfComplete(ld', p.seqNo))
  }

  // ---------- the backends ----------

  const DieMax := 1000000

  /** The reply rule of both backends: the operand plus a random number; -1 for another packet type. */
  function Reply(r: Role, p: Packet, die: int): Option<Packet> {
    if p.kind != ReqKind(r) then None else Some(Packet(RspKind(r), p.seqNo, p.x + die, 0))
  }

  // ---------- the whole system ----------

  /** How far a request to one backend has come; `v` is the value of the backend's reply. */
  datatype Stage = AtBackend | OnWayBack(v: int) | Back(v: int) | Gone

  /** Packets in flight between BF and one backend; `stage` and the number drawn for each request are history. */
  datatype Side = Side(to: multiset<Packet>, from: multiset<Packet>, stage: map<int, Stage>, drawn: map<int, int>)

  datatype Asked = Asked(a: int, b: int, client: Endpoint)

  /** A logged answer; `delivered` tells whether the client's connection was still there. */
  datatype Logged = Logged(answer: Answer, delivered: bool)

  /** `asked`, `log`, `at` (position of a sequence number's answer) and `losses` are history. */
  datatype Sys = Sys(ld: Table, alive: set<Endpoint>, side1: Side, side2: Side,
                     asked: map<int, Asked>, log: seq<Logged>, at: map<int, nat>, losses: nat)

  const NoTraffic := Side(multiset{}, multiset{}, map[], map[])
  const Start := Sys(map[], {}, NoTraffic, NoTraffic, map[], [], map[], 0)

  function SideOf(s: Sys, r: Role): Side { if r == BB1 then s.side1 else s.side2 }

  function WithSide(s: Sys, r: Role, d: Side): Sys { if r == BB1 then s.(side1 := d) else s.(side2 := d) }

  datatype Event =
    | Opens(client: Endpoint)
    | Hangs(client: Endpoint)
    | Asks(client: Endpoint, p: Packet)
    | Serves(r: Role, p: Packet, die: int)
    | Delivers(r: Role, p: Packet)
    | LosesRequest(r: Role, p: Packet)
    | LosesReply(r: Role, p: Packet)

  predicate Enabled(s: Sys, e: Event) {
    match e
    case Opens(c) => true
    case Hangs(c) => true
    case Asks(c, p) => c in s.alive
    case Serves(r, p, die) => p in SideOf(s, r).to && 1 <= die <= DieMax
    case Delivers(r, p) => p in SideOf(s, r).from
    case LosesRequest(r, p) => p in SideOf(s, r).to
    case LosesReply(r, p) => p in SideOf(s, r).from
  }

  function OnAsk(s: Sys, c: Endpoint, p: Packet): Sys {
    var a := ProcessData(s.ld, p, c);
    if a.code < 0 || a.out1.None? || a.out2.None? then s.(alive := s.alive - {c})
    else s.(ld := a.ld, asked := s.asked[p.seqNo := Asked(p.x, p.y, c)],
            side1 := OnSend(s.side1, a.out1.value), side2 := OnSend(s.side2, a.out2.value))
  }

  function OnSend(d: Side, p: Packet): Side {
    d.(to := d.to + multiset{p}, stage := d.stage[p.seqNo := AtBackend])
  }

  function OnServe(d: Side, r: Role, p: Packet, die: int): Side {
    var d1 := d.(to := d.to - multiset{p});
    match Reply(r, p, die)
    case None => d1.(stage := d.stage[p.seqNo := Gone])
    case Some(q) =>
      d1.(from := d.from + multiset{q}, stage := d.stage[q.seqNo := OnWayBack(q.x)], drawn := d.drawn[p.seqNo := die])
  }

  function OnLoseRequest(d: Side, p: Packet): Side {
    d.(to := d.to - multiset{p}, stage := d.stage[p.seqNo := Gone])
  }

  function OnLoseReply(d: Side, p: Packet): Side {
    d.(from := d.from - multiset{p}, stage := d.stage[p.seqNo := Gone])
  }

  function OnReceive(d: Side, p: Packet): Side {
    d.(from := d.from - multiset{p}, stage := d.stage[p.seqNo := Back(p.x)])
  }

  function OnDeliver(s: Sys, r: Role, p: Packet): Sys {
    var c := CallBack(s.ld, r, p);
    var s1 := WithSide(s.(ld := c.ld), r, OnReceive(SideOf(s, r), p));
    match c.answer
    case None => s1
    case Some(a) => s1.(log := s.log + [Logged(a, a.to in s.alive)], at := s.at[a.seqNo := |s.log|])
  }

  function OnLoss(s: Sys, r: Role, d: Side): Sys { WithSide(s, r, d).(losses := s.losses + 1) }

  function Next(s: Sys, e: Event): Sys
    requires Enabled(s, e)
  {
    match e
    case Opens(c) => s.(alive := s.alive + {c})
    case Hangs(c) => s.(alive := s.alive - {c})
    case Asks(c, p) => OnAsk(s, c, p)
    case Serves(r, p, die) => WithSide(s, r, OnServe(SideOf(s, r), r, p, die))
    case Delivers(r, p) => OnDeliver(s, r, p)
    case LosesRequest(r, p) => OnLoss(s, r, OnLoseRequest(SideOf(s, r), p))
    case LosesReply(r, p) => OnLoss(s, r, OnLoseReply(SideOf(s, r), p))
  }

  /** `es` can happen in this order from `s`, and ends in `s'`. */
  ghost predicate Leads(s: Sys, es: seq<Event>, s': Sys)
    decreases |es|
  {
    if es == [] then s' == s else Enabled(s, es[0]) && Leads(Next(s, es[0]), es[1..], s')
  }

  // ---------- the invariant ----------

  function Operand(k: Asked, r: Role): int { if r == BB1 then k.a else k.b }

  predicate AwaitedRequest(d: Side, r: Role, asked: map<int, Asked>, p: Packet) {
    && p.seqNo in d.stage && d.stage[p.seqNo] == AtBackend
    && p.seqNo in asked && p == Packet(ReqKind(r), p.seqNo, Operand(asked[p.seqNo], r), 0)
  }

  predicate AwaitedReply(d: Side, r: Role, p: Packet) {
    p.seqNo in d.stage && d.stage[p.seqNo] == OnWayBack(p.x) && p == Packet(RspKind(r), p.seqNo, p.x, 0)
  }

  /** A reply to number `q` is the operand plus the number drawn for it. */
  predicate FromDraw(g: Stage, drawn: map<int, int>, q: int, operand: int) {
    g.OnWayBack? || g.Back? ==> q in drawn && 1 <= drawn[q] <= DieMax && g.v == operand + drawn[q]
  }

  /** Exactly the awaited packets are in flight, each once. */
  ghost predicate FlightOk(d: Side, r: Role, asked: map<int, Asked>) {
    && (forall p :: d.to[p] == if AwaitedRequest(d, r, asked, p) then 1 else 0)
    && (forall p :: d.from[p] == if AwaitedReply(d, r, p) then 1 else 0)
  }

  ghost predicate StagesOk(d: Side, r: Role, asked: map<int, Asked>, exact: bool) {
    && d.stage.Keys == asked.Keys
    && (forall q :: q in d.stage ==> FromDraw(d.stage[q], d.drawn, q, Operand(asked[q], r)) && (exact ==> d.stage[q] != Gone))
  }

  function Part(d: Side, q: int): int
    requires q in d.stage
  {
    if d.stage[q].Back? then d.stage[q].v else 0
  }

  /** The entry of a sequence number: which replies are back, and their sum. */
  ghost predicate EntryOk(s: Sys, q: int)
    requires q in s.ld
  {
    && q in s.side1.stage && q in s.side2.stage && q in s.asked
    && s.ld[q] == Entry(s.side1.stage[q].Back?, s.side2.stage[q].Back?,
                        Part(s.side1, q) + Part(s.side2, q), s.asked[q].client)
  }

  ghost predicate LogOk(s: Sys) {
    && (forall q :: q in s.at <==> q in s.ld && s.ld[q].arrived1 && s.ld[q].arrived2)
    && (forall q :: q in s.at ==> s.at[q] < |s.log| && s.log[s.at[q]].answer == Answer(q, s.ld[q].client, s.ld[q].sum))
    && (forall i :: 0 <= i < |s.log| ==> s.log[i].answer.seqNo in s.at && s.at[s.log[i].answer.seqNo] == i)
  }

  ghost predicate Ledger(s: Sys) {
    && s.ld.Keys == s.asked.Keys
    && StagesOk(s.side1, BB1, s.asked, s.losses == 0)
    && StagesOk(s.side2, BB2, s.asked, s.losses == 0)
    && (forall q :: q in s.ld ==> EntryOk(s, q))
    && LogOk(s)
  }

  ghost predicate Flights(s: Sys) {
    FlightOk(s.side1, BB1, s.asked) && FlightOk(s.side2, BB2, s.asked)
  }

  ghost predicate Inv(s: Sys) { Flights(s) && Ledger(s) }

  // ---------- packets in flight ----------

  lemma SendFlight(d: Side, r: Role, asked: map<int, Asked>, q: int, k: Asked)
    requires FlightOk(d, r, asked) && q !in asked && q !in d.stage
    ensures FlightOk(OnSend(d, Packet(ReqKind(r), q, Operand(k, r), 0)), r, asked[q := k])
  {
  }

  lemma ServeFlight(d: Side, r: Role, asked: map<int, Asked>, p: Packet, die: int)
    requires FlightOk(d, r, asked) && p in d.to
    ensures AwaitedRequest(d, r, asked, p) && FlightOk(OnServe(d, r, p, die), r, asked)
  {
    assert AwaitedRequest(d, r, asked, p);
  }

  lemma LoseRequestFlight(d: Side, r: Role, asked: map<int, Asked>, p: Packet)
    requires FlightOk(d, r, asked) && p in d.to
    ensures AwaitedRequest(d, r, asked, p) && FlightOk(OnLoseRequest(d, p), r, asked)
  {
    assert AwaitedRequest(d, r, asked, p);
  }

  lemma LoseReplyFlight(d: Side, r: Role, asked: map<int, Asked>, p: Packet)
    requires FlightOk(d, r, asked) && p in d.from
    ensures AwaitedReply(d, r, p) && FlightOk(OnLoseReply(d, p), r, asked)
  {
    assert AwaitedReply(d, r, p);
  }

  lemma ReceiveFlight(d: Side, r: Role, asked: map<int, Asked>, p: Packet)
    requires FlightOk(d, r, asked) && p in d.from
    ensures AwaitedReply(d, r, p) && FlightOk(OnReceive(d, p), r, asked)
  {
    assert AwaitedReply(d, r, p);
  }

  lemma AskFlights(s: Sys, c: Endpoint, p: Packet)
    requires Flights(s) && s.ld.Keys == s.asked.Keys == s.side1.stage.Keys == s.side2.stage.Keys
    ensures Flights(OnAsk(s, c, p))
  {
    if p.kind == ReqToBF && p.seqNo !in s.ld {
      SendFlight(s.side1, BB1, s.asked, p.seqNo, Asked(p.x, p.y, c));
      SendFlight(s.side2, BB2, s.asked, p.seqNo, Asked(p.x, p.y, c));
    }
  }

  lemma NextFlights(s: Sys, e: Event)
    requires Inv(s) && Enabled(s, e)
    ensures Flights(Next(s, e))
  {
    if e.Opens? || e.Hangs? {
    } else if e.Asks? {
      AskFlights(s, e.client, e.p);
    } else {
      MoveFlights(s, e);
    }
  }

  lemma MoveFlights(s: Sys, e: Event)
    requires Flights(s) && Enabled(s, e) && !e.Opens? && !e.Hangs? && !e.Asks? && s.ld.Keys == s.asked.Keys
    ensures Flights(Next(s, e))
  {
    var d := SideOf(s, e.r);
    match e
    case Serves(r, p, die) =>
      ServeFlight(d, r, s.asked, p, die);
      SideFlights(s, r, OnServe(d, r, p, die), s.losses);
    case Delivers(r, p) =>
      ReceiveFlight(d, r, s.asked, p);
      DeliverFlights(s, r, p);
    case LosesRequest(r, p) =>
      LoseRequestFlight(d, r, s.asked, p);
      SideFlights(s, r, OnLoseRequest(d, p), s.losses + 1);
    case LosesReply(r, p) =>
      LoseReplyFlight(d, r, s.asked, p);
      SideFlights(s, r, OnLoseReply(d, p), s.losses + 1);
  }

  lemma SideFlights(s: Sys, r: Role, d: Side, losses: nat)
    requires Flights(s) && FlightOk(d, r, s.asked)
    ensures Flights(WithSide(s, r, d).(losses := losses))
  {
  }

  /** A delivery takes the packet off its side and leaves the other side alone. */
  lemma DeliverSides(s: Sys, r: Role, p: Packet)
    ensures var s' := OnDeliver(s, r, p);
      s'.asked == s.asked && s'.side1 == (if r == BB1 then OnReceive(s.side1, p) else s.side1)
      && s'.side2 == (if r == BB2 then OnReceive(s.side2, p) else s.side2)
  {
  }

  lemma DeliverFlights(s: Sys, r: Role, p: Packet)
    requires Flights(s) && FlightOk(OnReceive(SideOf(s, r), p), r, s.asked)
    ensures Flights(OnDeliver(s, r, p))
  {
    DeliverSides(s, r, p);
  }

  // ---------- entries and answers ----------

  lemma AskEntries(s: Sys, c: Endpoint, p: Packet)
    requires s.ld.Keys == s.asked.Keys && forall q :: q in s.ld ==> EntryOk(s, q)
    requires p.kind == ReqToBF && p.seqNo !in s.ld
    ensures var s' := OnAsk(s, c, p); forall q :: q in s'.ld ==> EntryOk(s', q)
  {
    var s' := OnAsk(s, c, p);
    forall q | q in s'.ld ensures EntryOk(s', q) {
      if q != p.seqNo { assert EntryOk(s, q); }
    }
  }

  lemma AskLog(s: Sys, c: Endpoint, p: Packet)
    requires LogOk(s) && p.seqNo !in s.ld
    ensures LogOk(OnAsk(s, c, p))
  {
  }

  /** What an accepted request does to the parts of the system. */
  lemma AskParts(s: Sys, c: Endpoint, p: Packet)
    requires p.kind == ReqToBF && p.seqNo !in s.ld
    ensures var s' := OnAsk(s, c, p);
      && s'.ld.Keys == s.ld.Keys + {p.seqNo} && s'.losses == s.losses
      && s'.asked == s.asked[p.seqNo := Asked(p.x, p.y, c)]
      && s'.side1 == OnSend(s.side1, Packet(ReqToBB1, p.seqNo, p.x, 0))
      && s'.side2 == OnSend(s.side2, Packet(ReqToBB2, p.seqNo, p.y, 0))
  {
  }

  lemma AskBothStages(s: Sys, c: Endpoint, p: Packet)
    requires StagesOk(s.side1, BB1, s.asked, s.losses == 0) && StagesOk(s.side2, BB2, s.asked, s.losses == 0)
    requires p.kind == ReqToBF && p.seqNo !in s.ld && s.ld.Keys == s.asked.Keys
    ensures var s' := OnAsk(s, c, p);
      StagesOk(s'.side1, BB1, s'.asked, s'.losses == 0) && StagesOk(s'.side2, BB2, s'.asked, s'.losses == 0)
  {
    AskParts(s, c, p);
    AskStages(s.side1, BB1, s.asked, s.losses == 0, p, Asked(p.x, p.y, c));
    AskStages(s.side2, BB2, s.asked, s.losses == 0, p, Asked(p.x, p.y, c));
  }

  lemma AskLedger(s: Sys, c: Endpoint, p: Packet)
    requires Ledger(s)
    ensures Ledger(OnAsk(s, c, p))
  {
    if p.kind == ReqToBF && p.seqNo !in s.ld {
      AskParts(s, c, p);
      AskEntries(s, c, p);
      AskLog(s, c, p);
      AskBothStages(s, c, p);
    } else {
      HangLedger(s, OnAsk(s, c, p));
    }
  }

  lemma AskStages(d: Side, r: Role, asked: map<int, Asked>, exact: bool, p: Packet, k: Asked)
    requires StagesOk(d, r, asked, exact) && p.seqNo !in asked
    ensures StagesOk(OnSend(d, Packet(ReqKind(r), p.seqNo, Operand(k, r), 0)), r, asked[p.seqNo := k], exact)
  {
  }

  /** Only for number `q` something may have been drawn. */
  ghost predicate DrawsStay(drawn: map<int, int>, drawn': map<int, int>, q: int) {
    forall t :: t != q && t in drawn ==> t in drawn' && drawn'[t] == drawn[t]
  }

  /** The stage of one request changes, but no reply comes back. */
  lemma QuietLedger(s: Sys, r: Role, d: Side, q: int, g: Stage, losses: nat)
    requires Ledger(s) && (losses == 0 ==> s.losses == 0 && g != Gone)
    requires q in s.asked && d.stage == SideOf(s, r).stage[q := g]
    requires !g.Back? && q in SideOf(s, r).stage && !SideOf(s, r).stage[q].Back?
    requires FromDraw(g, d.drawn, q, Operand(s.asked[q], r)) && DrawsStay(SideOf(s, r).drawn, d.drawn, q)
    ensures Ledger(WithSide(s, r, d).(losses := losses))
  {
    QuietEntries(s, r, d, q, g, losses);
    QuietStages(s, r, d, q, g, losses);
    assert LogOk(WithSide(s, r, d).(losses := losses));
  }

  lemma QuietEntries(s: Sys, r: Role, d: Side, q: int, g: Stage, losses: nat)
    requires forall t :: t in s.ld ==> EntryOk(s, t)
    requires d.stage == SideOf(s, r).stage[q := g]
    requires !g.Back? && q in SideOf(s, r).stage && !SideOf(s, r).stage[q].Back?
    ensures var s' := WithSide(s, r, d).(losses := losses); forall t :: t in s'.ld ==> EntryOk(s', t)
  {
    var s' := WithSide(s, r, d).(losses := losses);
    forall t | t in s'.ld ensures EntryOk(s', t) {
      assert EntryOk(s, t);
    }
  }

  lemma QuietStages(s: Sys, r: Role, d: Side, q: int, g: Stage, losses: nat)
    requires StagesOk(SideOf(s, r), r, s.asked, s.losses == 0) && (losses == 0 ==> s.losses == 0 && g != Gone)
    requires q in s.asked && d.stage == SideOf(s, r).stage[q := g]
    requires FromDraw(g, d.drawn, q, Operand(s.asked[q], r)) && DrawsStay(SideOf(s, r).drawn, d.drawn, q)
    ensures StagesOk(d, r, s.asked, losses == 0)
  {
  }

  lemma DeliverEntries(s: Sys, r: Role, p: Packet)
    requires Ledger(s) && AwaitedReply(SideOf(s, r), r, p)
    ensures p.seqNo in s.ld && p.seqNo !in s.at && CallBack(s.ld, r, p).code == 1
    ensures var s' := OnDeliver(s, r, p); forall q :: q in s'.ld ==> EntryOk(s', q)
  {
    assert EntryOk(s, p.seqNo);
    var s' := OnDeliver(s, r, p);
    DeliverFrame(s, r, p);
    forall q | q in s'.ld ensures EntryOk(s', q) {
      assert EntryOk(s, q);
      if r == BB1 { assert s'.side2 == s.side2; } else { assert s'.side1 == s.side1; }
    }
  }

  /** What a delivery leaves alone. */
  lemma DeliverFrame(s: Sys, r: Role, p: Packet)
    requires p.seqNo in s.ld && p.kind == RspKind(r)
    ensures var s' := OnDeliver(s, r, p);
      && SideOf(s', r) == OnReceive(SideOf(s, r), p)
      && (r == BB1 ==> s'.side2 == s.side2) && (r == BB2 ==> s'.side1 == s.side1)
      && (s'.asked, s'.losses, s'.alive) == (s.asked, s.losses, s.alive)
      && s'.ld == s.ld[p.seqNo := Arrive(s.ld[p.seqNo], r, p.x)]
  {
  }

  lemma DeliverLog(s: Sys, r: Role, p: Packet)
    requires LogOk(s) && p.seqNo in s.ld && p.seqNo !in s.at && p.kind == RspKind(r)
    ensures LogOk(OnDeliver(s, r, p))
  {
    if CallBack(s.ld, r, p).answer.None? { DeliverLogWaits(s, r, p); } else { DeliverLogAnswers(s, r, p); }
  }

  lemma DeliverLogWaits(s: Sys, r: Role, p: Packet)
    requires LogOk(s) && p.seqNo in s.ld && p.seqNo !in s.at && p.kind == RspKind(r) && CallBack(s.ld, r, p).answer.None?
    ensures LogOk(OnDeliver(s, r, p))
  {
  }

  lemma DeliverLogAnswers(s: Sys, r: Role, p: Packet)
    requires LogOk(s) && p.seqNo in s.ld && p.seqNo !in s.at && p.kind == RspKind(r) && CallBack(s.ld, r, p).answer.Some?
    ensures LogOk(OnDeliver(s, r, p))
  {
  }

  lemma DeliverLedger(s: Sys, r: Role, p: Packet)
    requires Ledger(s) && AwaitedReply(SideOf(s, r), r, p)
    ensures Ledger(OnDeliver(s, r, p))
  {
    DeliverEntries(s, r, p);
    DeliverLog(s, r, p);
    DeliverFrame(s, r, p);
    DeliverStages(SideOf(s, r), r, s.asked, s.losses == 0, p);
  }

  lemma DeliverStages(d: Side, r: Role, asked: map<int, Asked>, exact: bool, p: Packet)
    requires StagesOk(d, r, asked, exact) && AwaitedReply(d, r, p)
    ensures StagesOk(OnReceive(d, p), r, asked, exact)
  {
  }

  lemma ServeLedger(s: Sys, r: Role, p: Packet, die: int)
    requires Ledger(s) && AwaitedRequest(SideOf(s, r), r, s.asked, p) && 1 <= die <= DieMax
    ensures Ledger(WithSide(s, r, OnServe(SideOf(s, r), r, p, die)))
  {
    QuietLedger(s, r, OnServe(SideOf(s, r), r, p, die), p.seqNo, OnWayBack(p.x + die), s.losses);
  }

  /** In-flight packets are the awaited ones. */
  lemma InFlight(s: Sys, r: Role, p: Packet)
    requires Flights(s)
    ensures p in SideOf(s, r).to ==> AwaitedRequest(SideOf(s, r), r, s.asked, p)
    ensures p in SideOf(s, r).from ==> AwaitedReply(SideOf(s, r), r, p)
  {
  }

  lemma LossKeepsLedger(s: Sys, r: Role, d: Side, q: int)
    requires Ledger(s) && q in SideOf(s, r).stage && !SideOf(s, r).stage[q].Back?
    requires d.stage == SideOf(s, r).stage[q := Gone] && d.drawn == SideOf(s, r).drawn
    ensures Ledger(OnLoss(s, r, d))
  {
    QuietLedger(s, r, d, q, Gone, s.losses + 1);
  }

  lemma LoseRequestLedger(s: Sys, r: Role, p: Packet)
    requires Ledger(s) && AwaitedRequest(SideOf(s, r), r, s.asked, p)
    ensures Ledger(OnLoss(s, r, OnLoseRequest(SideOf(s, r), p)))
  {
    LossKeepsLedger(s, r, OnLoseRequest(SideOf(s, r), p), p.seqNo);
  }

  lemma LoseReplyLedger(s: Sys, r: Role, p: Packet)
    requires Ledger(s) && AwaitedReply(SideOf(s, r), r, p)
    ensures Ledger(OnLoss(s, r, OnLoseReply(SideOf(s, r), p)))
  {
    LossKeepsLedger(s, r, OnLoseReply(SideOf(s, r), p), p.seqNo);
  }

  lemma HangLedger(s: Sys, s': Sys)
    requires Ledger(s) && s' == s.(alive := s'.alive)
    ensures Ledger(s')
  {
    forall q | q in s'.ld ensures EntryOk(s', q) { assert EntryOk(s, q); }
  }

  lemma ClientLedger(s: Sys, e: Event)
    requires Ledger(s) && Enabled(s, e) && (e.Opens? || e.Hangs? || e.Asks?)
    ensures Ledger(Next(s, e))
  {
    if e.Asks? { AskLedger(s, e.client, e.p); } else { HangLedger(s, Next(s, e)); }
  }

  lemma WorkLedger(s: Sys, e: Event)
    requires Ledger(s) && Enabled(s, e)
    requires e.Serves? || e.Delivers?
    requires e.Serves? ==> AwaitedRequest(SideOf(s, e.r), e.r, s.asked, e.p)
    requires e.Delivers? ==> AwaitedReply(SideOf(s, e.r), e.r, e.p)
    ensures Ledger(Next(s, e))
  {
    match e
    case Serves(r, p, die) => ServeLedger(s, r, p, die);
    case Delivers(r, p) => DeliverLedger(s, r, p);
  }

  lemma LossLedger(s: Sys, e: Event)
    requires Ledger(s) && Enabled(s, e)
    requires e.LosesRequest? || e.LosesReply?
    requires e.LosesRequest? ==> AwaitedRequest(SideOf(s, e.r), e.r, s.asked, e.p)
    requires e.LosesReply? ==> AwaitedReply(SideOf(s, e.r), e.r, e.p)
    ensures Ledger(Next(s, e))
  {
    match e
    case LosesRequest(r, p) => LoseRequestLedger(s, r, p);
    case LosesReply(r, p) => LoseReplyLedger(s, r, p);
  }

  lemma NextInv(s: Sys, e: Event)
    requires Inv(s) && Enabled(s, e)
    ensures Inv(Next(s, e))
  {
    NextFlights(s, e);
    if e.Opens? || e.Hangs? || e.Asks? {
      ClientLedger(s, e);
    } else {
      InFlight(s, e.r, e.p);
      if e.Serves? || e.Delivers? { WorkLedger(s, e); } else { LossLedger(s, e); }
    }
  }

  lemma {:induction false} LeadsInv(s: Sys, es: seq<Event>, s': Sys)
    requires Inv(s) && Leads(s, es, s')
    ensures Inv(s')
    decreases |es|
  {
    if es != [] {
      NextInv(s, es[0]);
      LeadsInv(Next(s, es[0]), es[1..], s');
    }
  }

  // ---------- safety ----------

  ghost predicate Reachable(s: Sys) { exists es: seq<Event> :: Leads(Start, es, s) }

  lemma ReachableInv(s: Sys)
    requires Reachable(s)
    ensures Inv(s)
  {
    var es: seq<Event> :| Leads(Start, es, s);
    LeadsInv(Start, es, s);
  }

  /** Every answer goes to the asking client and is the sum of exactly the two replies for its number. */
  lemma AnswersAreRight(s: Sys, i: nat)
    requires Reachable(s) && i < |s.log|
    ensures var a := s.log[i].answer;
      && a.seqNo in s.asked && a.seqNo in s.side1.stage && a.seqNo in s.side2.stage
      && a.to == s.asked[a.seqNo].client
      && s.side1.stage[a.seqNo].Back? && s.side2.stage[a.seqNo].Back?
      && a.sum == s.side1.stage[a.seqNo].v + s.side2.stage[a.seqNo].v
      && a.seqNo in s.side1.drawn && a.seqNo in s.side2.drawn
      && 1 <= s.side1.drawn[a.seqNo] <= DieMax && 1 <= s.side2.drawn[a.seqNo] <= DieMax
      && a.sum == s.asked[a.seqNo].a + s.asked[a.seqNo].b + s.side1.drawn[a.seqNo] + s.side2.drawn[a.seqNo]
  {
    ReachableInv(s);
    assert EntryOk(s, s.log[i].answer.seqNo);
  }

  /** At most one answer per sequence number. */
  lemma AtMostOneAnswer(s: Sys, i: nat, j: nat)
    requires Reachable(s) && i < |s.log| && j < |s.log| && s.log[i].answer.seqNo == s.log[j].answer.seqNo
    ensures i == j
  {
    ReachableInv(s);
  }

  /** The client asked for number `q` in this run. */
  ghost predicate AskedIn(es: seq<Event>, q: int, k: Asked) {
    exists i :: 0 <= i < |es| && es[i] == Asks(k.client, Packet(ReqToBF, q, k.a, k.b))
  }

  /** A backend served the request for number `q` with operand `operand` in this run, and drew `die`. */
  ghost predicate ServedIn(es: seq<Event>, r: Role, q: int, operand: int, die: int) {
    exists i :: 0 <= i < |es| && es[i] == Serves(r, Packet(ReqKind(r), q, operand, 0), die)
  }

  ghost predicate AsksTraced(es: seq<Event>, s: Sys) {
    forall q :: q in s.asked ==> AskedIn(es, q, s.asked[q])
  }

  ghost predicate DrawsTraced(es: seq<Event>, r: Role, d: Side, asked: map<int, Asked>) {
    forall q :: q in d.drawn ==> q in asked && ServedIn(es, r, q, Operand(asked[q], r), d.drawn[q])
  }

  ghost predicate Traced(es: seq<Event>, s: Sys) {
    AsksTraced(es, s) && DrawsTraced(es, BB1, s.side1, s.asked) && DrawsTraced(es, BB2, s.side2, s.asked)
  }

  lemma AskedStays(es: seq<Event>, e: Event, q: int, k: Asked)
    requires AskedIn(es, q, k) || e == Asks(k.client, Packet(ReqToBF, q, k.a, k.b))
    ensures AskedIn(es + [e], q, k)
  {
    var more := es + [e];
    if AskedIn(es, q, k) {
      var i :| 0 <= i < |es| && es[i] == Asks(k.client, Packet(ReqToBF, q, k.a, k.b));
      assert more[i] == es[i];
    } else {
      assert more[|es|] == e;
    }
  }

  lemma ServedStays(es: seq<Event>, e: Event, r: Role, q: int, operand: int, die: int)
    requires ServedIn(es, r, q, operand, die) || e == Serves(r, Packet(ReqKind(r), q, operand, 0), die)
    ensures ServedIn(es + [e], r, q, operand, die)
  {
    var more := es + [e];
    if ServedIn(es, r, q, operand, die) {
      var i :| 0 <= i < |es| && es[i] == Serves(r, Packet(ReqKind(r), q, operand, 0), die);
      assert more[i] == es[i];
    } else {
      assert more[|es|] == e;
    }
  }

  lemma StepAsksTraced(es: seq<Event>, s: Sys, e: Event)
    requires Enabled(s, e) && AsksTraced(es, s)
    ensures AsksTraced(es + [e], Next(s, e))
  {
    var s' := Next(s, e);
    forall q | q in s'.asked ensures AskedIn(es + [e], q, s'.asked[q]) {
      AskedStays(es, e, q, s'.asked[q]);
    }
  }

  lemma AskedGrows(s: Sys, e: Event)
    requires Enabled(s, e) && s.ld.Keys == s.asked.Keys
    ensures forall q :: q in s.asked ==> q in Next(s, e).asked && Next(s, e).asked[q] == s.asked[q]
  {
  }

  /** A number is drawn only where a request is served. */
  predicate DrawnBy(e: Event, r: Role, drawn: map<int, int>, drawn': map<int, int>) {
    drawn' == if e.Serves? && e.r == r && e.p.kind == ReqKind(r) then drawn[e.p.seqNo := e.die] else drawn
  }

  lemma ServeDraws(s: Sys, r: Role, p: Packet, die: int, side: Role)
    requires Enabled(s, Serves(r, p, die))
    ensures DrawnBy(Serves(r, p, die), side, SideOf(s, side).drawn, SideOf(Next(s, Serves(r, p, die)), side).drawn)
  {
    OnServeDraws(SideOf(s, r), r, p, die);
  }

  lemma OnServeDraws(d: Side, r: Role, p: Packet, die: int)
    ensures OnServe(d, r, p, die).drawn == if p.kind == ReqKind(r) then d.drawn[p.seqNo := die] else d.drawn
  {
  }

  lemma DeliverDraws(s: Sys, r: Role, p: Packet, side: Role)
    ensures SideOf(OnDeliver(s, r, p), side).drawn == SideOf(s, side).drawn
  {
    DeliverSides(s, r, p);
  }

  lemma AskDraws(s: Sys, c: Endpoint, p: Packet, side: Role)
    ensures SideOf(OnAsk(s, c, p), side).drawn == SideOf(s, side).drawn
  {
  }

  lemma LossDraws(s: Sys, r: Role, d: Side, side: Role)
    requires d.drawn == SideOf(s, r).drawn
    ensures SideOf(OnLoss(s, r, d), side).drawn == SideOf(s, side).drawn
  {
  }

  lemma OtherDraws(s: Sys, e: Event, r: Role)
    requires Enabled(s, e) && !e.Serves?
    ensures SideOf(Next(s, e), r).drawn == SideOf(s, r).drawn
  {
    match e
    case Delivers(r', p) => DeliverDraws(s, r', p, r);
    case Asks(c, p) => AskDraws(s, c, p, r);
    case LosesRequest(r', p) => LossDraws(s, r', OnLoseRequest(SideOf(s, r'), p), r);
    case LosesReply(r', p) => LossDraws(s, r', OnLoseReply(SideOf(s, r'), p), r);
    case _ =>
  }

  lemma StepDraws(s: Sys, e: Event, r: Role)
    requires Enabled(s, e)
    ensures DrawnBy(e, r, SideOf(s, r).drawn, SideOf(Next(s, e), r).drawn)
  {
    if e.Serves? { ServeDraws(s, e.r, e.p, e.die, r); } else { OtherDraws(s, e, r); }
  }

  lemma StepDrawsTraced(es: seq<Event>, s: Sys, e: Event, r: Role)
    requires Inv(s) && Enabled(s, e) && DrawsTraced(es, r, SideOf(s, r), s.asked)
    ensures DrawsTraced(es + [e], r, SideOf(Next(s, e), r), Next(s, e).asked)
  {
    StepDraws(s, e, r);
    AskedGrows(s, e);
    if e.Serves? { InFlight(s, e.r, e.p); }
    DrawsStayTraced(es, e, r, SideOf(s, r), SideOf(Next(s, e), r), s.asked, Next(s, e).asked);
  }

  lemma DrawsStayTraced(es: seq<Event>, e: Event, r: Role, d: Side, d': Side, asked: map<int, Asked>, asked': map<int, Asked>)
    requires DrawsTraced(es, r, d, asked) && forall q :: q in asked ==> q in asked' && asked'[q] == asked[q]
    requires DrawnBy(e, r, d.drawn, d'.drawn) && (e.Serves? && e.r == r ==> AwaitedRequest(d, r, asked, e.p))
    ensures DrawsTraced(es + [e], r, d', asked')
  {
    forall q | q in d'.drawn
      ensures q in asked' && ServedIn(es + [e], r, q, Operand(asked'[q], r), d'.drawn[q])
    {
      ServedStays(es, e, r, q, Operand(asked[q], r), d'.drawn[q]);
    }
  }

  lemma StepTraced(es: seq<Event>, s: Sys, e: Event)
    requires Inv(s) && Enabled(s, e) && Traced(es, s)
    ensures Traced(es + [e], Next(s, e))
  {
    StepAsksTraced(es, s, e);
    StepDrawsTraced(es, s, e, BB1);
    StepDrawsTraced(es, s, e, BB2);
  }

  lemma {:induction false} LeadsTraced(past: seq<Event>, s: Sys, es: seq<Event>, s': Sys)
    requires Inv(s) && Traced(past, s) && Leads(s, es, s')
    ensures Traced(past + es, s')
    decreases |es|
  {
    if es == [] {
      assert past + es == past;
    } else {
      assert (past + [es[0]]) + es[1..] == past + es;
      StepTraced(past, s, es[0]);
      NextInv(s, es[0]);
      LeadsTraced(past + [es[0]], Next(s, es[0]), es[1..], s');
    }
  }

  /** Every answer stems from one request of the client it goes to, and adds its two operands and the
  two numbers that the backends drew when they served it. */
  lemma AnswersComeFromRun(es: seq<Event>, s: Sys, i: nat) returns (k: Asked, die1: int, die2: int)
    requires Leads(Start, es, s) && i < |s.log|
    ensures var a := s.log[i].answer;
      && a == Answer(a.seqNo, k.client, k.a + k.b + die1 + die2)
      && AskedIn(es, a.seqNo, k)
      && ServedIn(es, BB1, a.seqNo, k.a, die1) && ServedIn(es, BB2, a.seqNo, k.b, die2)
  {
    StartInv();
    LeadsTraced([], Start, es, s);
    assert [] + es == es;
    AnswersAreRight(s, i);
    var q := s.log[i].answer.seqNo;
    k, die1, die2 := s.asked[q], s.side1.drawn[q], s.side2.drawn[q];
  }

  /** A refused request only costs the client its connection. */
  lemma RefusedCloses(s: Sys, c: Endpoint, p: Packet)
    requires c in s.alive
    ensures var s' := Next(s, Asks(c, p));
      if p.kind != ReqToBF || p.seqNo in s.ld then s' == s.(alive := s.alive - {c})
      else s'.alive == s.alive && p.seqNo in s'.ld
  {
  }

  /** An answer is sent exactly if its client is still connected when the second reply is taken in. */
  lemma SentIfConnected(s: Sys, e: Event)
    requires Enabled(s, e)
    ensures var s' := Next(s, e);
      s'.log != s.log ==>
        && e.Delivers? && |s'.log| == |s.log| + 1 && s.log <= s'.log
        && (s'.log[|s.log|].delivered <==> s'.log[|s.log|].answer.to in s.alive)
  {
  }

  // ---------- termination ----------

  /** Work of the backends and of the network, as opposed to the clients'. */
  predicate Internal(e: Event) { e.Serves? || e.Delivers? }

  predicate AllInternal(es: seq<Event>) {
    es == [] || (Internal(es[0]) && AllInternal(es[1..]))
  }

  /** Two steps are left for a request, one for a reply. */
  function SideWork(d: Side): nat { 2 * |d.to| + |d.from| }

  function Work(s: Sys): nat { SideWork(s.side1) + SideWork(s.side2) }

  lemma OneLess(m: multiset<Packet>, p: Packet)
    requires p in m
    ensures |m - multiset{p}| == |m| - 1
  {
  }

  lemma ServeWork(d: Side, r: Role, p: Packet, die: int)
    requires p in d.to && p.kind == ReqKind(r)
    ensures SideWork(OnServe(d, r, p, die)) == SideWork(d) - 1
  {
    OneLess(d.to, p);
  }

  lemma DeliverWork(s: Sys, r: Role, p: Packet)
    requires p in SideOf(s, r).from && p.seqNo in s.ld && p.kind == RspKind(r)
    ensures Work(OnDeliver(s, r, p)) == Work(s) - 1
  {
    DeliverFrame(s, r, p);
    OneLess(SideOf(s, r).from, p);
    assert SideWork(OnReceive(SideOf(s, r), p)) == SideWork(SideOf(s, r)) - 1;
  }

  lemma SystemServeWork(s: Sys, r: Role, p: Packet, die: int)
    requires p in SideOf(s, r).to && p.kind == ReqKind(r)
    ensures var s' := WithSide(s, r, OnServe(SideOf(s, r), r, p, die));
      Work(s') == Work(s) - 1 && s'.losses == s.losses && s'.asked == s.asked
  {
    ServeWork(SideOf(s, r), r, p, die);
  }

  /** Packets BF and the backends expect: right type, known number. */
  ghost predicate Expected(s: Sys, e: Event) {
    Internal(e) && e.p.seqNo in s.ld && e.p.kind == if e.Serves? then ReqKind(e.r) else RspKind(e.r)
  }

  lemma InternalExpected(s: Sys, e: Event)
    requires Inv(s) && Enabled(s, e) && Internal(e)
    ensures Expected(s, e)
  {
    InFlight(s, e.r, e.p);
  }

  lemma InternalWork(s: Sys, e: Event)
    requires Enabled(s, e) && Expected(s, e)
    ensures Work(Next(s, e)) == Work(s) - 1 && Next(s, e).losses == s.losses && Next(s, e).asked == s.asked
  {
    match e
    case Serves(r, p, die) => SystemServeWork(s, r, p, die);
    case Delivers(r, p) =>
      DeliverWork(s, r, p);
      DeliverFrame(s, r, p);
  }

  lemma InternalStep(s: Sys, e: Event)
    requires Inv(s) && Enabled(s, e) && Internal(e)
    ensures Work(Next(s, e)) == Work(s) - 1 && Next(s, e).losses == s.losses && Next(s, e).asked == s.asked
    ensures Inv(Next(s, e))
  {
    InternalExpected(s, e);
    InternalWork(s, e);
    NextInv(s, e);
  }

  /** Without new requests and losses every run ends: each step uses up one unit of work. */
  lemma {:induction false} RunsAreBounded(s: Sys, es: seq<Event>, s': Sys)
    requires Inv(s) && Leads(s, es, s') && AllInternal(es)
    ensures |es| + Work(s') == Work(s) && s'.losses == s.losses && s'.asked == s.asked && Inv(s')
    decreases |es|
  {
    if es != [] {
      InternalStep(s, es[0]);
      RunsAreBounded(Next(s, es[0]), es[1..], s');
    }
  }

  lemma WorkCanGoOn(s: Sys)
    requires 0 < Work(s)
    ensures exists e :: Internal(e) && Enabled(s, e)
  {
    if p :| p in s.side1.to { assert Enabled(s, Serves(BB1, p, 1)); }
    else if p :| p in s.side2.to { assert Enabled(s, Serves(BB2, p, 1)); }
    else if p :| p in s.side1.from { assert Enabled(s, Delivers(BB1, p)); }
    else if p :| p in s.side2.from { assert Enabled(s, Delivers(BB2, p)); }
  }

  /** When nothing is left to do and nothing was lost, every accepted number has its answer. */
  lemma QuiescentMeansAnswered(s: Sys, q: int)
    requires Reachable(s) && s.losses == 0 && !exists e :: Internal(e) && Enabled(s, e)
    requires q in s.asked
    ensures exists i :: 0 <= i < |s.log| && s.log[i].answer.seqNo == q
  {
    ReachableInv(s);
    if 0 < Work(s) { WorkCanGoOn(s); }
    NothingInFlight(s.side1, BB1, s.asked, q);
    NothingInFlight(s.side2, BB2, s.asked, q);
    assert EntryOk(s, q) && q in s.at;
    assert s.log[s.at[q]].answer.seqNo == q;
  }

  lemma NothingInFlight(d: Side, r: Role, asked: map<int, Asked>, q: int)
    requires FlightOk(d, r, asked) && StagesOk(d, r, asked, true) && |d.to| == 0 && |d.from| == 0 && q in asked
    ensures d.stage[q].Back?
  {
    var p := Packet(ReqKind(r), q, Operand(asked[q], r), 0);
    assert d.to[p] == 0 && !AwaitedRequest(d, r, asked, p);
    var v := if d.stage[q].OnWayBack? then d.stage[q].v else 0;
    assert d.from[Packet(RspKind(r), q, v, 0)] == 0 && !AwaitedReply(d, r, Packet(RspKind(r), q, v, 0));
  }

  // ---------- the second callback as written ----------

  /** cb_lv_bf.cc:202-253 goes on after a wrong packet type instead of returning -1. */
  function CallBack2AsWritten(ld: Table, p: Packet): Replied {
    if p.kind == RspFromBB2 && p.seqNo !in ld then Replied(-1, ld, None)
    else
      var ld' := if p.kind == RspFromBB2 then ld[p.seqNo := Arrive(ld[p.seqNo], BB2, p.x)] else ld;
      if p.seqNo !in ld' then Replied(-1, ld', None) else Replied(1, ld', AnswerIfComplete(ld', p.seqNo))
  }

  predicate Complete(ld: Table, q: int) { q in ld && ld[q].arrived1 && ld[q].arrived2 }

  /** It answers when it should not, or otherwise than it should, exactly for a packet of another type
  whose number is known and has both replies. */
  lemma CallBack2AsWrittenIff(ld: Table, p: Packet)
    ensures CallBack2AsWritten(ld, p).answer != CallBack(ld, BB2, p).answer <==> p.kind != RspFromBB2 && Complete(ld, p.seqNo)
    ensures CallBack2AsWritten(ld, p).ld == CallBack(ld, BB2, p).ld
  {
  }

  /** A stray packet for a finished number makes it answer the client a second time. */
  lemma StrayPacketAnswersAgain(s: Sys, i: nat, p: Packet)
    requires Reachable(s) && i < |s.log| && p.seqNo == s.log[i].answer.seqNo && p.kind != RspFromBB2
    ensures CallBack2AsWritten(s.ld, p).answer == Some(s.log[i].answer)
    ensures CallBack(s.ld, BB2, p).answer == None
  {
    ReachableInv(s);
  }

  // ---------- runs with the second callback as written ----------

  /** An event of the system, or a packet of another type that reaches the second callback. */
  datatype Happening = Proper(e: Event) | Strays(p: Packet)

  /** `again` lists the answers that stray packets caused. */
  datatype Observed = Observed(sys: Sys, again: seq<Answer>)

  predicate CanHappen(o: Observed, h: Happening) {
    match h
    case Proper(e) => Enabled(o.sys, e)
    case Strays(p) => p.kind != RspFromBB2
  }

  function OnDeliverAsWritten(s: Sys, p: Packet): Sys {
    var c := CallBack2AsWritten(s.ld, p);
    var s1 := WithSide(s.(ld := c.ld), BB2, OnReceive(s.side2, p));
    match c.answer
    case None => s1
    case Some(a) => s1.(log := s.log + [Logged(a, a.to in s.alive)], at := s.at[a.seqNo := |s.log|])
  }

  function NextAsWritten(o: Observed, h: Happening): Observed
    requires CanHappen(o, h)
  {
    match h
    case Proper(e) =>
      if e.Delivers? && e.r == BB2 then o.(sys := OnDeliverAsWritten(o.sys, e.p)) else o.(sys := Next(o.sys, e))
    case Strays(p) =>
      var c := CallBack2AsWritten(o.sys.ld, p);
      Observed(o.sys.(ld := c.ld), o.again + if c.answer.Some? then [c.answer.value] else [])
  }

  ghost predicate LeadsAsWritten(o: Observed, hs: seq<Happening>, o': Observed)
    decreases |hs|
  {
    if hs == [] then o' == o else CanHappen(o, hs[0]) && LeadsAsWritten(NextAsWritten(o, hs[0]), hs[1..], o')
  }

  /** No stray packet comes for a number that has its answer. */
  ghost predicate Harmless(o: Observed, hs: seq<Happening>)
    decreases |hs|
  {
    hs == [] ||
    (CanHappen(o, hs[0]) && (hs[0].Strays? ==> !Complete(o.sys.ld, hs[0].p.seqNo)) && Harmless(NextAsWritten(o, hs[0]), hs[1..]))
  }

  /** The numbers of all answers sent, whatever caused them. */
  function Answered(o: Observed): seq<int> {
    seq(|o.sys.log| + |o.again|, i requires 0 <= i < |o.sys.log| + |o.again| =>
      if i < |o.sys.log| then o.sys.log[i].answer.seqNo else o.again[i - |o.sys.log|].seqNo)
  }

  ghost predicate AtMostOneEach(o: Observed) {
    forall i, j :: 0 <= i < j < |Answered(o)| ==> Answered(o)[i] != Answered(o)[j]
  }

  ghost predicate ObservedOk(o: Observed) {
    Inv(o.sys) && forall i :: 0 <= i < |o.again| ==> o.again[i].seqNo in o.sys.at
  }

  lemma AnsweredStays(s: Sys, e: Event)
    requires Enabled(s, e)
    ensures forall q :: q in s.at ==> q in Next(s, e).at
  {
  }

  /** On what the second backend sends, the callback as written is the intended one. */
  lemma DeliverAsWritten(s: Sys, p: Packet)
    requires Inv(s) && p in s.side2.from
    ensures OnDeliverAsWritten(s, p) == OnDeliver(s, BB2, p)
  {
    assert AwaitedReply(s.side2, BB2, p);
  }

  lemma StepAsWrittenOk(o: Observed, h: Happening)
    requires ObservedOk(o) && CanHappen(o, h)
    ensures ObservedOk(NextAsWritten(o, h))
    ensures var more := |NextAsWritten(o, h).again| - |o.again|;
      more == if h.Strays? && Complete(o.sys.ld, h.p.seqNo) then 1 else 0
  {
    match h
    case Proper(e) =>
      NextInv(o.sys, e);
      AnsweredStays(o.sys, e);
      if e.Delivers? && e.r == BB2 { DeliverAsWritten(o.sys, e.p); }
    case Strays(p) =>
      assert CallBack2AsWritten(o.sys.ld, p).ld == o.sys.ld;
      assert NextAsWritten(o, h).sys == o.sys;
  }

  lemma {:induction false} AgainIff(o: Observed, hs: seq<Happening>, o': Observed)
    requires ObservedOk(o) && LeadsAsWritten(o, hs, o')
    ensures ObservedOk(o') && |o.again| <= |o'.again|
    ensures |o'.again| == |o.again| <==> Harmless(o, hs)
    decreases |hs|
  {
    if hs != [] {
      StepAsWrittenOk(o, hs[0]);
      AgainIff(NextAsWritten(o, hs[0]), hs[1..], o');
    }
  }

  /** With the second callback as written, a run keeps to one answer per number exactly when no packet of
  another type reaches that callback for a number already answered. */
  lemma AtMostOneAsWrittenIff(hs: seq<Happening>, o: Observed)
    requires LeadsAsWritten(Observed(Start, []), hs, o)
    ensures AtMostOneEach(o) <==> Harmless(Observed(Start, []), hs)
  {
    StartInv();
    AgainIff(Observed(Start, []), hs, o);
    if o.again == [] {
      forall i, j | 0 <= i < j < |Answered(o)| ensures Answered(o)[i] != Answered(o)[j] {
        assert o.sys.at[o.sys.log[i].answer.seqNo] == i && o.sys.at[o.sys.log[j].answer.seqNo] == j;
      }
    } else {
      SecondAnswer(o);
    }
  }

  /** From any state that runs lead to, backends and network alone can finish all work. */
  lemma {:induction false} CanFinish(s: Sys) returns (es: seq<Event>, s': Sys)
    requires Inv(s)
    ensures Leads(s, es, s') && AllInternal(es) && Work(s') == 0
    ensures Inv(s') && s'.losses == s.losses && s'.asked == s.asked
    decreases Work(s)
  {
    if Work(s) == 0 {
      es, s' := [], s;
    } else {
      WorkCanGoOn(s);
      var e :| Internal(e) && Enabled(s, e);
      InternalStep(s, e);
      var rest;
      rest, s' := CanFinish(Next(s, e));
      es := [e] + rest;
      assert es[1..] == rest;
    }
  }

  function Propers(es: seq<Event>): seq<Happening> {
    if es == [] then [] else [Proper(es[0])] + Propers(es[1..])
  }

  /** Without stray packets the callback as written makes no difference. */
  lemma {:induction false} LeadsAlike(o: Observed, es: seq<Event>, s': Sys)
    requires ObservedOk(o) && Leads(o.sys, es, s')
    ensures LeadsAsWritten(o, Propers(es), Observed(s', o.again))
    decreases |es|
  {
    if es != [] {
      StepAsWrittenOk(o, Proper(es[0]));
      if es[0].Delivers? && es[0].r == BB2 { DeliverAsWritten(o.sys, es[0].p); }
      assert NextAsWritten(o, Proper(es[0])) == Observed(Next(o.sys, es[0]), o.again);
      LeadsAlike(NextAsWritten(o, Proper(es[0])), es[1..], s');
      assert Propers(es)[1..] == Propers(es[1..]);
    }
  }

  lemma {:induction false} LeadsOnward(o: Observed, hs: seq<Happening>, o': Observed, h: Happening)
    requires LeadsAsWritten(o, hs, o') && CanHappen(o', h)
    ensures LeadsAsWritten(o, hs + [h], NextAsWritten(o', h))
    decreases |hs|
  {
    if hs == [] {
      assert hs + [h] == [h] && [h][1..] == [];
    } else {
      assert (hs + [h])[1..] == hs[1..] + [h];
      LeadsOnward(NextAsWritten(o, hs[0]), hs[1..], o', h);
    }
  }

  /** A client opens and asks under number 5. */
  lemma FirstAsk() returns (es: seq<Event>, s: Sys)
    ensures Leads(Start, es, s) && Inv(s) && 5 in s.asked && s.losses == 0
  {
    var a, b := Opens(1), Asks(1, Packet(ReqToBF, 5, 0, 0));
    var s1 := Next(Start, a);
    s := Next(s1, b);
    es := [a] + [b];
    assert es[1..] == [b] && [b][1..] == [];
    assert Leads(s1, [b], s);
    StartInv();
    LeadsInv(Start, es, s);
  }

  lemma StartInv()
    ensures Inv(Start)
  {
    assert Leads(Start, [], Start);
    ReachableInv(Start);
  }

  lemma {:induction false} LeadsJoin(s: Sys, es: seq<Event>, s': Sys, more: seq<Event>, s'': Sys)
    requires Leads(s, es, s') && Leads(s', more, s'')
    ensures Leads(s, es + more, s'')
    decreases |es|
  {
    if es == [] {
      assert es + more == more;
    } else {
      assert (es + more)[1..] == es[1..] + more;
      LeadsJoin(Next(s, es[0]), es[1..], s', more, s'');
    }
  }

  /** A run that answers a number and then gets a stray packet for it answers twice. */
  lemma SecondAnswerOccurs() returns (hs: seq<Happening>, o: Observed)
    ensures LeadsAsWritten(Observed(Start, []), hs, o) && !AtMostOneEach(o)
  {
    var es, s := FirstAsk();
    var more, s' := CanFinish(s);
    LeadsJoin(Start, es, s, more, s');
    Finished(es + more, s', 5);
    StartInv();
    LeadsAlike(Observed(Start, []), es + more, s');
    var o' := Observed(s', []);
    AgainIff(Observed(Start, []), Propers(es + more), o');
    var h := Strays(Packet(ReqToBB2, 5, 0, 0));
    LeadsOnward(Observed(Start, []), Propers(es + more), o', h);
    hs, o := Propers(es + more) + [h], NextAsWritten(o', h);
    StepAsWrittenOk(o', h);
    SecondAnswer(o);
  }

  lemma SecondAnswer(o: Observed)
    requires ObservedOk(o) && o.again != []
    ensures !AtMostOneEach(o)
  {
    var q, n := o.again[0].seqNo, |o.sys.log|;
    assert q in o.sys.at;
    var i := o.sys.at[q];
    assert i < n && o.sys.log[i].answer.seqNo == q;
    assert Answered(o)[i] == q && Answered(o)[n] == q;
  }

  lemma Finished(es: seq<Event>, s: Sys, q: int)
    requires Leads(Start, es, s) && Work(s) == 0 && s.losses == 0 && q in s.asked
    ensures Complete(s.ld, q)
  {
    assert Reachable(s);
    forall e ensures !(Internal(e) && Enabled(s, e)) {
      NoWorkNoStep(s, e);
    }
    QuiescentMeansAnswered(s, q);
    ReachableInv(s);
  }

  lemma NoWorkNoStep(s: Sys, e: Event)
    requires Work(s) == 0
    ensures !(Internal(e) && Enabled(s, e))
  {
  }

  // ---------- the front end and backend objects ----------

  class TestBF {
    var ld: Table

    constructor ()
      ensures ld == map[]
    {
      ld := map[];
    }

    /** Returns the code and the packets sent to the two backends. */
    method ReceiveRequest(p: Packet, from: Endpoint) returns (code: int, out1: Option<Packet>, out2: Option<Packet>)
      modifies this
      ensures Accepted(code, ld, out1, out2) == ProcessData(old(ld), p, from)
      ensures code == if p.kind == ReqToBF && p.seqNo !in old(ld) then 0 else -1
      ensures code == -1 ==> ld == old(ld) && out1 == None && out2 == None
      ensures code == 0 ==> ld == old(ld)[p.seqNo := Entry(false, false, 0, from)]
      ensures code == 0 ==> out1 == Some(Packet(ReqToBB1, p.seqNo, p.x, 0)) && out2 == Some(Packet(ReqToBB2, p.seqNo, p.y, 0))
    {
      if p.kind != ReqToBF { return -1, None, None; }
      if p.seqNo in ld { return -1, None, None; }
      ld := ld[p.seqNo := Entry(false, false, 0, from)];
      return 0, Some(Packet(ReqToBB1, p.seqNo, p.x, 0)), Some(Packet(ReqToBB2, p.seqNo, p.y, 0));
    }

    method AnswerClient(q: int) returns (a: Option<Answer>)
      requires q in ld
      ensures a == AnswerIfComplete(ld, q)
    {
      a := None;
      if ld[q].arrived1 && ld[q].arrived2 { a := Some(Answer(q, ld[q].client, ld[q].sum)); }
    }

    method ReceiveRspFromBB1CallBack(p: Packet) returns (code: int, a: Option<Answer>)
      modifies this
      ensures Replied(code, ld, a) == CallBack(old(ld), BB1, p)
      ensures code == if p.kind == RspFromBB1 && p.seqNo in old(ld) then 1 else -1
      ensures code == -1 ==> ld == old(ld) && a == None
      ensures code == 1 ==> var e := old(ld)[p.seqNo];
        && ld == old(ld)[p.seqNo := e.(sum := e.sum + p.x, arrived1 := true)]
        && a == if e.arrived2 then Some(Answer(p.seqNo, e.client, e.sum + p.x)) else None
    {
      if p.kind != RspFromBB1 { return -1, None; }
      if p.seqNo !in ld { return -1, None; }
      ld := ld[p.seqNo := ld[p.seqNo].(sum := ld[p.seqNo].sum + p.x)];
      ld := ld[p.seqNo := ld[p.seqNo].(arrived1 := true)];
      a := AnswerClient(p.seqNo);
      code := 1;
    }

    method ReceiveRspFromBB2CallBack(p: Packet) returns (code: int, a: Option<Answer>)
      modifies this
      ensures Replied(code, ld, a) == CallBack(old(ld), BB2, p)
      ensures code == if p.kind == RspFromBB2 && p.seqNo in old(ld) then 1 else -1
      ensures code == -1 ==> ld == old(ld) && a == None
      ensures code == 1 ==> var e := old(ld)[p.seqNo];
        && ld == old(ld)[p.seqNo := e.(sum := e.sum + p.x, arrived2 := true)]
        && a == if e.arrived1 then Some(Answer(p.seqNo, e.client, e.sum + p.x)) else None
    {
      if p.kind != RspFromBB2 { return -1, None; }
      if p.seqNo !in ld { return -1, None; }
      ld := ld[p.seqNo := ld[p.seqNo].(sum := ld[p.seqNo].sum + p.x)];
      ld := ld[p.seqNo := ld[p.seqNo].(arrived2 := true)];
      a := AnswerClient(p.seqNo);
      code := 1;
    }
  }

  /** A backend; `rolls` is what its random generator yields, one number after the other. */
  class TestBB {
    const role: Role
    const rolls: nat -> int
    var drawn: nat

    constructor (role: Role, rolls: nat -> int)
      ensures this.role == role && this.rolls == rolls && drawn == 0
    {
      this.role, this.rolls, drawn := role, rolls, 0;
    }

    /** Fills the reply field by field; a packet of another type draws no number. */
    method ProcessData(p: Packet) returns (code: int, rsp: Option<Packet>)
      modifies this
      ensures rsp == Reply(role, p, rolls(old(drawn)))
      ensures rsp.Some? <==> p.kind == if role == BB1 then ReqToBB1 else ReqToBB2
      ensures rsp.Some? ==>
        rsp.value == Packet(if role == BB1 then RspFromBB1 else RspFromBB2, p.seqNo, p.x + rolls(old(drawn)), 0)
      ensures code == (if rsp.Some? then 2 else -1) && drawn == old(drawn) + if rsp.Some? then 1 else 0
    {
      if p.kind != ReqKind(role) { return -1, None; }
      var die := rolls(drawn);
      drawn := drawn + 1;
      var x := p.x + die;
      var q := p.seqNo;
      return 2, Some(Packet(RspKind(role), q, x, 0));
    }
  }
}
