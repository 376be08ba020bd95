/** The front end of the fan-out service on top of the client connection pool.

Requests to the backends go through `ClientPool`, and a reply reaches the front end only
when the pool hands one over. That each request is answered at most once is here a
consequence of the pool's invariant.
*/
module Service {
  import opened Common
  import Pool = ClientPool
  import Fan = FanOut

  /** A request to a backend, as the front end knows it. */
  datatype Call = Call(seqNo: int, role: Fan.Role)

  /** The two callbacks, as the pool registers them. */
  function CallbackOf(r: Fan.Role): Pool.Handler { if r == Fan.BB1 then Some(1) else Some(2) }

  function EndpointOf(r: Fan.Role): Endpoint { if r == Fan.BB1 then 1 else 2 }

  /** `calls` tells which call each pool request makes, `ids` the two pool requests of a sequence number, and
  `values` the value each answered request got; `at` is the position of a number's answer. */
  datatype State = State(
    pool: Pool.State, ld: Fan.Table, log: seq<Fan.Answer>,
    calls: map<nat, Call>, ids: map<int, (nat, nat)>, values: map<nat, int>, at: map<int, nat>)

  const Start := State(Pool.Init, map[], [], map[], map[], map[], map[])

  datatype Event =
    | Asks(p: Fan.Packet, client: Endpoint)
    | Completes(s: Pool.SockId, i: nat, error: bool, value: int)

  /** One request to a backend through the pool. */
  function Forward(st: State, q: int, r: Fan.Role): State {
    st.(pool := Pool.Send(st.pool, EndpointOf(r), CallbackOf(r)), calls := st.calls[st.pool.nextReq := Call(q, r)])
  }

  /** The two requests of a number. */
  function ForwardBoth(st: State, q: int): State {
    var id := st.pool.nextReq;
    Forward(Forward(st, q, Fan.BB1), q, Fan.BB2).(ids := st.ids[q := (id, id + 1)])
  }

  /** TestBF::ProcessData with its two calls of ToWriteThenCallBack. */
  function OnAsk(st: State, p: Fan.Packet, client: Endpoint): State {
    var a := Fan.ProcessData(st.ld, p, client);
    if a.code < 0 then st else ForwardBoth(st.(ld := a.ld), p.seqNo)
  }

  /** Whether a completion hands a reply over. */
  predicate HandsOver(st: State, s: Pool.SockId, i: nat, error: bool) {
    && !error && i < |Pool.Pending(st.pool, s)| && Pool.Pending(st.pool, s)[i].ReadBody?
    && s in st.pool.socks && Pool.WireOf(st.pool, s) != [] && Pool.WireOf(st.pool, s)[0].id in st.calls
  }

  /** The backend's reply to the request at hand goes through the callback registered on the connection. */
  function ReplyOf(st: State, s: Pool.SockId, value: int): Fan.Replied
    requires s in st.pool.socks && Pool.WireOf(st.pool, s) != [] && Pool.WireOf(st.pool, s)[0].id in st.calls
  {
    var call := st.calls[Pool.WireOf(st.pool, s)[0].id];
    var role := if st.pool.socks[s].cb == Some(1) then Fan.BB1 else Fan.BB2;
    Fan.CallBack(st.ld, role, Fan.Packet(Fan.RspKind(call.role), call.seqNo, value, 0))
  }

  /** The front end takes in what its callback made of the reply to request `id`. */
  function Applied(st: State, pool: Pool.State, id: nat, value: int, c: Fan.Replied): State {
    var st1 := st.(pool := pool, ld := c.ld, values := st.values[id := value]);
    match c.answer
    case None => st1
    case Some(a) => st1.(log := st.log + [a], at := st.at[a.seqNo := |st.log|])
  }

  function OnReply(st: State, s: Pool.SockId, i: nat, value: int): State
    requires HandsOver(st, s, i, false)
  {
    var c := ReplyOf(st, s, value);
    Applied(st, Pool.Next(st.pool, Pool.Completes(s, i, false, [], c.code == 1)), Pool.WireOf(st.pool, s)[0].id, value, c)
  }

  function Next(st: State, e: Event): State {
    match e
    case Asks(p, client) => OnAsk(st, p, client)
    case Completes(s, i, error, value) =>
      if HandsOver(st, s, i, error) then OnReply(st, s, i, value)
      else st.(pool := Pool.Next(st.pool, Pool.Completes(s, i, error, [], true)))
  }

  function Run(st: State, es: seq<Event>): State
    decreases |es|
  {
    if es == [] then st else Run(Next(st, es[0]), es[1..])
  }

  // ---------- what one step of the pool does to the requests ----------

  /** The request a live connection carries. */
  predicate Carries(st: Pool.State, s: Pool.SockId, id: nat) {
    s in st.socks && st.socks[s].sendBuf.id == id
  }

  /** Nothing but a new request. */
  ghost predicate OneMore(st: Pool.State, st': Pool.State, cb: Pool.Handler) {
    && st'.nextReq == st.nextReq + 1
    && (exists s :: st'.fate == st.fate[st.nextReq := Pool.OnSock(s)])
    && (forall t :: t in st'.socks ==>
          || (t in st.socks && st'.socks[t].sendBuf == st.socks[t].sendBuf)
          || (st'.socks[t].sendBuf.id == st.nextReq && st'.socks[t].sendBuf.cb == cb))
  }

  lemma SendChanges(st: Pool.State, ep: Endpoint, cb: Pool.Handler)
    ensures OneMore(st, Pool.Send(st, ep, cb), cb)
  {
  }

  /** At most the fate of request `id`, and connections may be gone. */
  ghost predicate OnlyFate(st: Pool.State, st': Pool.State, id: nat) {
    && st'.nextReq == st.nextReq
    && id in st'.fate && st'.fate == st.fate[id := st'.fate[id]]
    && (forall t :: t in st'.socks ==> t in st.socks && st'.socks[t].sendBuf == st.socks[t].sendBuf)
  }

  lemma HandleChanges(st: Pool.State, s: Pool.SockId, kind: Pool.Kind, error: bool, ok: bool)
    requires s in st.socks && st.socks[s].sendBuf.id in st.fate && st.fate[st.socks[s].sendBuf.id].OnSock?
    requires kind.ReadBody? ==> Pool.WireOf(st, s) == [st.socks[s].sendBuf]
    ensures var st' := Pool.Handle(st, s, kind, error, [], ok);
      && OnlyFate(st, st', st.socks[s].sendBuf.id)
      && (st'.fate[st.socks[s].sendBuf.id].Answered? <==> kind.ReadBody? && !error)
      && (st'.fate[st.socks[s].sendBuf.id].Lost? ==> error || kind.WriteLast?)
  {
  }

  /** A connection with a pending operation carries a request. */
  lemma Carried(st: Pool.State, s: Pool.SockId, i: nat)
    requires Pool.Inv(st, None) && i < |Pool.Pending(st, s)|
    ensures Pool.Pending(st, s) == [Pool.Pending(st, s)[i]] && s in st.socks
    ensures st.socks[s].sendBuf.id in st.fate && st.fate[st.socks[s].sendBuf.id] == Pool.OnSock(s)
    ensures st.socks[s].cb == Pool.Chosen(st.socks[s].sendBuf) && !Pool.Pending(st, s)[i].WriteLast?
    ensures Pool.Pending(st, s)[i].ReadBody? ==> Pool.WireOf(st, s) == [st.socks[s].sendBuf]
  {
    Pool.OnlyPending(st, s, i);
    assert Pool.SockOk(st, None, s);
  }

  /** A completion concerns the one request its connection carries: a reply handed over answers it, and any
  other completion leaves it as it is or loses it. */
  lemma CompletesChanges(st: Pool.State, s: Pool.SockId, i: nat, error: bool, ok: bool)
    requires Pool.Inv(st, None) && i < |Pool.Pending(st, s)|
    ensures s in st.socks
    ensures var st' := Pool.Next(st, Pool.Completes(s, i, error, [], ok));
      && OnlyFate(st, st', st.socks[s].sendBuf.id)
      && (st'.fate[st.socks[s].sendBuf.id].Answered? <==> Pool.Pending(st, s)[i].ReadBody? && !error)
      && (st'.fate[st.socks[s].sendBuf.id].Lost? ==> error)
  {
    Carried(st, s, i);
    var kind := Pool.Pending(st, s)[i];
    Pool.NextIsHandle(st, s, kind, error, [], ok);
    HandleChanges(Pool.Popped(st, s), s, kind, error, ok);
  }

  // ---------- the invariant ----------

  function IdOf(pair: (nat, nat), r: Fan.Role): nat { if r == Fan.BB1 then pair.0 else pair.1 }

  function Arrived(e: Fan.Entry, r: Fan.Role): bool { if r == Fan.BB1 then e.arrived1 else e.arrived2 }

  /** Pool requests and calls correspond. */
  ghost predicate CallsOk(calls: map<nat, Call>, ids: map<int, (nat, nat)>, next: nat) {
    && (forall id :: id in calls <==> 0 <= id < next)
    && (forall id :: id in calls ==> calls[id].seqNo in ids && IdOf(ids[calls[id].seqNo], calls[id].role) == id)
    && (forall q, r: Fan.Role :: q in ids ==> IdOf(ids[q], r) in calls && calls[IdOf(ids[q], r)] == Call(q, r))
  }

  /** Each connection carries the request of a call, with that call's callback. */
  ghost predicate BuffersOk(socks: map<Pool.SockId, Pool.Sock>, calls: map<nat, Call>) {
    forall t :: t in socks ==>
      socks[t].sendBuf.id in calls && socks[t].sendBuf.cb == CallbackOf(calls[socks[t].sendBuf.id].role)
  }

  function Got(e: Fan.Entry, r: Fan.Role, ids: (nat, nat), values: map<nat, int>): int {
    if Arrived(e, r) && IdOf(ids, r) in values then values[IdOf(ids, r)] else 0
  }

  predicate IsAnswered(fate: map<nat, Pool.Fate>, id: nat) { id in fate && fate[id].Answered? }

  /** A reply has arrived exactly if the pool answered its request, and the sum is that of the replies arrived. */
  ghost predicate EntryOk(e: Fan.Entry, ids: (nat, nat), fate: map<nat, Pool.Fate>, values: map<nat, int>) {
    && (forall r: Fan.Role :: Arrived(e, r) <==> IsAnswered(fate, IdOf(ids, r)))
    && (forall r: Fan.Role :: Arrived(e, r) ==> IdOf(ids, r) in values)
    && e.sum == Got(e, Fan.BB1, ids, values) + Got(e, Fan.BB2, ids, values)
  }

  ghost predicate EntriesOk(ld: Fan.Table, ids: map<int, (nat, nat)>, fate: map<nat, Pool.Fate>, values: map<nat, int>) {
    ids.Keys == ld.Keys && forall q :: q in ld ==> EntryOk(ld[q], ids[q], fate, values)
  }

  ghost predicate LogOk(ld: Fan.Table, log: seq<Fan.Answer>, at: map<int, nat>) {
    && (forall q :: q in at <==> Fan.Complete(ld, q))
    && (forall q :: q in at ==> at[q] < |log| && log[at[q]] == Fan.Answer(q, ld[q].client, ld[q].sum))
    && (forall i :: 0 <= i < |log| ==> log[i].seqNo in at && at[log[i].seqNo] == i)
  }

  /** The front end's part of the invariant. */
  ghost predicate Own(st: State) {
    && CallsOk(st.calls, st.ids, st.pool.nextReq) && BuffersOk(st.pool.socks, st.calls)
    && EntriesOk(st.ld, st.ids, st.pool.fate, st.values) && LogOk(st.ld, st.log, st.at)
  }

  ghost predicate Inv(st: State) { Pool.Inv(st.pool, None) && Own(st) }

  lemma StartInv()
    ensures Inv(Start)
  {
    Pool.InitInv();
  }

  /** A pool step that answers nothing. */
  lemma QuietEntries(ld: Fan.Table, ids: map<int, (nat, nat)>, values: map<nat, int>,
                     fate: map<nat, Pool.Fate>, fate': map<nat, Pool.Fate>)
    requires EntriesOk(ld, ids, fate, values) && forall id: nat :: IsAnswered(fate', id) <==> IsAnswered(fate, id)
    ensures EntriesOk(ld, ids, fate', values)
  {
    forall q | q in ld ensures EntryOk(ld[q], ids[q], fate', values) {
      assert EntryOk(ld[q], ids[q], fate, values);
    }
  }

  lemma QuietOwn(st: State, pool: Pool.State, id: nat)
    requires Own(st) && OnlyFate(st.pool, pool, id) && (IsAnswered(pool.fate, id) <==> IsAnswered(st.pool.fate, id))
    ensures Own(st.(pool := pool))
  {
    QuietEntries(st.ld, st.ids, st.values, st.pool.fate, pool.fate);
  }

  /** What is not handed over answers nothing. */
  lemma QuietFate(st: State, s: Pool.SockId, i: nat, error: bool) returns (id: nat)
    requires Pool.Inv(st.pool, None) && BuffersOk(st.pool.socks, st.calls)
    requires i < |Pool.Pending(st.pool, s)| && !HandsOver(st, s, i, error)
    ensures var pool := Pool.Next(st.pool, Pool.Completes(s, i, error, [], true));
      OnlyFate(st.pool, pool, id) && !IsAnswered(pool.fate, id) && !IsAnswered(st.pool.fate, id)
  {
    Carried(st.pool, s, i);
    CompletesChanges(st.pool, s, i, error, true);
    id := st.pool.socks[s].sendBuf.id;
  }

  lemma QuietInv(st: State, s: Pool.SockId, i: nat, error: bool)
    requires Inv(st) && !HandsOver(st, s, i, error)
    ensures Inv(st.(pool := Pool.Next(st.pool, Pool.Completes(s, i, error, [], true))))
  {
    if i < |Pool.Pending(st.pool, s)| {
      var id := QuietFate(st, s, i, error);
      PoolCompletes(st.pool, s, i, error, true);
      QuietOwn(st, Pool.Next(st.pool, Pool.Completes(s, i, error, [], true)), id);
    }
  }

  /** What is known of fates: only requests made are answered. */
  ghost predicate FatesKnown(pool: Pool.State) {
    forall id: nat :: IsAnswered(pool.fate, id) ==> id < pool.nextReq
  }

  lemma PoolFates(pool: Pool.State)
    requires Pool.Inv(pool, None)
    ensures FatesKnown(pool)
  {
  }

  lemma ForwardChanges(st: State, q: int, r: Fan.Role)
    requires FatesKnown(st.pool) && BuffersOk(st.pool.socks, st.calls)
    requires forall id :: id in st.calls ==> id < st.pool.nextReq
    ensures var st' := Forward(st, q, r);
      && FatesKnown(st'.pool) && BuffersOk(st'.pool.socks, st'.calls)
      && st'.pool.nextReq == st.pool.nextReq + 1
      && (forall id: nat :: IsAnswered(st'.pool.fate, id) <==> IsAnswered(st.pool.fate, id))
  {
    SendChanges(st.pool, EndpointOf(r), CallbackOf(r));
    var pool := Forward(st, q, r).pool;
    var s :| pool.fate == st.pool.fate[st.pool.nextReq := Pool.OnSock(s)];
    assert !IsAnswered(pool.fate, st.pool.nextReq) && !IsAnswered(st.pool.fate, st.pool.nextReq);
    assert forall id: nat :: IsAnswered(pool.fate, id) <==> IsAnswered(st.pool.fate, id);
  }

  lemma AskCalls(calls: map<nat, Call>, ids: map<int, (nat, nat)>, next: nat, q: int)
    requires CallsOk(calls, ids, next) && q !in ids
    ensures CallsOk(calls[next := Call(q, Fan.BB1)][next + 1 := Call(q, Fan.BB2)], ids[q := (next, next + 1)], next + 2)
  {
  }

  lemma AskEntries(ld: Fan.Table, ids: map<int, (nat, nat)>, values: map<nat, int>,
                   fate: map<nat, Pool.Fate>, fate': map<nat, Pool.Fate>, next: nat, q: int, client: Endpoint)
    requires EntriesOk(ld, ids, fate, values) && q !in ld
    requires forall id: nat :: IsAnswered(fate', id) <==> IsAnswered(fate, id)
    requires forall id: nat :: IsAnswered(fate, id) ==> id < next
    ensures EntriesOk(ld[q := Fan.Entry(false, false, 0, client)], ids[q := (next, next + 1)], fate', values)
  {
    QuietEntries(ld, ids, values, fate, fate');
    assert EntryOk(Fan.Entry(false, false, 0, client), (next, next + 1), fate', values);
  }

  lemma AskLog(ld: Fan.Table, log: seq<Fan.Answer>, at: map<int, nat>, q: int, client: Endpoint)
    requires LogOk(ld, log, at) && q !in ld
    ensures LogOk(ld[q := Fan.Entry(false, false, 0, client)], log, at)
  {
  }

  /** Both requests of an accepted number. */
  lemma ForwardBothChanges(st: State, q: int)
    requires FatesKnown(st.pool) && BuffersOk(st.pool.socks, st.calls)
    requires forall id :: id in st.calls ==> id < st.pool.nextReq
    ensures var st', next := ForwardBoth(st, q), st.pool.nextReq;
      && BuffersOk(st'.pool.socks, st'.calls) && st'.pool.nextReq == next + 2
      && (forall id: nat :: IsAnswered(st'.pool.fate, id) <==> IsAnswered(st.pool.fate, id))
  {
    ForwardChanges(st, q, Fan.BB1);
    ForwardChanges(Forward(st, q, Fan.BB1), q, Fan.BB2);
  }

  lemma ForwardBothIs(st: State, q: int)
    ensures var st', next := ForwardBoth(st, q), st.pool.nextReq;
      st' == st.(pool := st'.pool, ids := st.ids[q := (next, next + 1)],
                 calls := st.calls[next := Call(q, Fan.BB1)][next + 1 := Call(q, Fan.BB2)])
  {
    assert Forward(st, q, Fan.BB1).pool.nextReq == st.pool.nextReq + 1;
  }

  lemma AskIs(st: State, p: Fan.Packet, client: Endpoint)
    requires Fan.ProcessData(st.ld, p, client).code >= 0
    ensures p.seqNo !in st.ld
    ensures OnAsk(st, p, client) == ForwardBoth(st.(ld := st.ld[p.seqNo := Fan.Entry(false, false, 0, client)]), p.seqNo)
  {
  }

  lemma AskOwn(st: State, st': State, q: int, next: nat, client: Endpoint)
    requires Own(st) && FatesKnown(st.pool) && q !in st.ld && next == st.pool.nextReq
    requires BuffersOk(st'.pool.socks, st'.calls) && st'.pool.nextReq == next + 2
    requires st' == st.(ld := st.ld[q := Fan.Entry(false, false, 0, client)], pool := st'.pool,
                        ids := st.ids[q := (next, next + 1)],
                        calls := st.calls[next := Call(q, Fan.BB1)][next + 1 := Call(q, Fan.BB2)])
    requires forall id: nat :: IsAnswered(st'.pool.fate, id) <==> IsAnswered(st.pool.fate, id)
    ensures Own(st')
  {
    AskCalls(st.calls, st.ids, next, q);
    AskEntries(st.ld, st.ids, st.values, st.pool.fate, st'.pool.fate, next, q, client);
    AskLog(st.ld, st.log, st.at, q, client);
  }

  lemma AskPool(st: State, p: Fan.Packet, client: Endpoint)
    requires Pool.Inv(st.pool, None)
    ensures Pool.Inv(OnAsk(st, p, client).pool, None)
  {
    Pool.SendInv(st.pool, None, EndpointOf(Fan.BB1), CallbackOf(Fan.BB1));
    Pool.SendInv(Pool.Send(st.pool, EndpointOf(Fan.BB1), CallbackOf(Fan.BB1)), None, EndpointOf(Fan.BB2), CallbackOf(Fan.BB2));
  }

  lemma AskInv(st: State, p: Fan.Packet, client: Endpoint)
    requires Inv(st)
    ensures Inv(OnAsk(st, p, client))
  {
    AskPool(st, p, client);
    PoolFates(st.pool);
    if Fan.ProcessData(st.ld, p, client).code >= 0 {
      AskIs(st, p, client);
      var st1 := st.(ld := st.ld[p.seqNo := Fan.Entry(false, false, 0, client)]);
      ForwardBothChanges(st1, p.seqNo);
      ForwardBothIs(st1, p.seqNo);
      AskOwn(st, ForwardBoth(st1, p.seqNo), p.seqNo, st.pool.nextReq, client);
    }
  }

  // ---------- a reply ----------

  /** The entry of the request answered. */
  lemma ReplyEntry(e: Fan.Entry, ids: (nat, nat), values: map<nat, int>,
                   fate: map<nat, Pool.Fate>, fate': map<nat, Pool.Fate>, r: Fan.Role, value: int)
    requires EntryOk(e, ids, fate, values) && ids.0 != ids.1 && !IsAnswered(fate, IdOf(ids, r))
    requires forall other :: IsAnswered(fate', other) <==> IsAnswered(fate, other) || other == IdOf(ids, r)
    ensures EntryOk(Fan.Arrive(e, r, value), ids, fate', values[IdOf(ids, r) := value])
  {
  }

  /** The entry of another number. */
  lemma OtherEntry(e: Fan.Entry, ids: (nat, nat), values: map<nat, int>,
                   fate: map<nat, Pool.Fate>, fate': map<nat, Pool.Fate>, id: nat, value: int)
    requires EntryOk(e, ids, fate, values) && ids.0 != id && ids.1 != id
    requires forall other :: IsAnswered(fate', other) <==> IsAnswered(fate, other) || other == id
    ensures EntryOk(e, ids, fate', values[id := value])
  {
  }

  lemma ReplyEntries(ld: Fan.Table, ids: map<int, (nat, nat)>, values: map<nat, int>,
                     fate: map<nat, Pool.Fate>, fate': map<nat, Pool.Fate>, calls: map<nat, Call>, next: nat, id: nat, value: int)
    requires EntriesOk(ld, ids, fate, values) && CallsOk(calls, ids, next) && id in calls && !IsAnswered(fate, id)
    requires forall other :: IsAnswered(fate', other) <==> IsAnswered(fate, other) || other == id
    ensures calls[id].seqNo in ld
    ensures EntriesOk(ld[calls[id].seqNo := Fan.Arrive(ld[calls[id].seqNo], calls[id].role, value)], ids, fate', values[id := value])
  {
    var q, role := calls[id].seqNo, calls[id].role;
    var ld' := ld[q := Fan.Arrive(ld[q], role, value)];
    forall k | k in ld ensures EntryOk(ld'[k], ids[k], fate', values[id := value]) {
      assert calls[IdOf(ids[k], Fan.BB1)] == Call(k, Fan.BB1) && calls[IdOf(ids[k], Fan.BB2)] == Call(k, Fan.BB2);
      if k == q {
        ReplyEntry(ld[k], ids[k], values, fate, fate', role, value);
      } else {
        OtherEntry(ld[k], ids[k], values, fate, fate', id, value);
      }
    }
  }

  lemma ReplyLog(ld: Fan.Table, log: seq<Fan.Answer>, at: map<int, nat>, q: int, r: Fan.Role, value: int)
    requires LogOk(ld, log, at) && q in ld && !Arrived(ld[q], r)
    ensures var ld' := ld[q := Fan.Arrive(ld[q], r, value)];
      var a := Fan.AnswerIfComplete(ld', q);
      if a.None? then LogOk(ld', log, at) else LogOk(ld', log + [a.value], at[q := |log|])
  {
  }

  /** The pool's side of a completion. */
  lemma PoolCompletes(pool: Pool.State, s: Pool.SockId, i: nat, error: bool, ok: bool)
    requires Pool.Inv(pool, None) && i < |Pool.Pending(pool, s)|
    ensures Pool.Inv(Pool.Next(pool, Pool.Completes(s, i, error, [], ok)), None)
  {
    Pool.CompletesInv(pool, s, i, error, [], ok);
  }

  /** A reply goes to the callback of its own call, and the call had no reply yet. */
  lemma ReplyFacts(st: State, s: Pool.SockId, i: nat, ok: bool)
    requires Pool.Inv(st.pool, None) && BuffersOk(st.pool.socks, st.calls) && HandsOver(st, s, i, false)
    ensures var id := Pool.WireOf(st.pool, s)[0].id;
      var pool := Pool.Next(st.pool, Pool.Completes(s, i, false, [], ok));
      && OnlyFate(st.pool, pool, id) && id in st.pool.fate && pool.fate[id].Answered? && st.pool.fate[id].OnSock?
      && st.pool.socks[s].cb == CallbackOf(st.calls[id].role)
  {
    Carried(st.pool, s, i);
    CompletesChanges(st.pool, s, i, false, ok);
  }

  lemma AppliedOwn(st: State, pool: Pool.State, id: nat, value: int, c: Fan.Replied)
    requires Own(st) && OnlyFate(st.pool, pool, id)
    requires EntriesOk(c.ld, st.ids, pool.fate, st.values[id := value])
    requires if c.answer.None? then LogOk(c.ld, st.log, st.at)
             else LogOk(c.ld, st.log + [c.answer.value], st.at[c.answer.value.seqNo := |st.log|])
    ensures Own(Applied(st, pool, id, value, c))
  {
  }

  lemma ReplyOwn(st: State, pool: Pool.State, id: nat, value: int)
    requires Own(st) && id in st.calls && !IsAnswered(st.pool.fate, id)
    requires OnlyFate(st.pool, pool, id) && IsAnswered(pool.fate, id)
    ensures var q, r := st.calls[id].seqNo, st.calls[id].role;
      && q in st.ld
      && var c := Fan.CallBack(st.ld, r, Fan.Packet(Fan.RspKind(r), q, value, 0));
         c.code == 1 && Own(Applied(st, pool, id, value, c))
  {
    assert forall other: nat :: IsAnswered(pool.fate, other) <==> IsAnswered(st.pool.fate, other) || other == id;
    var q, r := st.calls[id].seqNo, st.calls[id].role;
    ReplyEntries(st.ld, st.ids, st.values, st.pool.fate, pool.fate, st.calls, st.pool.nextReq, id, value);
    assert EntryOk(st.ld[q], st.ids[q], st.pool.fate, st.values);
    ReplyLog(st.ld, st.log, st.at, q, r, value);
    AppliedOwn(st, pool, id, value, Fan.CallBack(st.ld, r, Fan.Packet(Fan.RspKind(r), q, value, 0)));
  }

  /** The callback registered is that of the call, so it is this call's reply that is taken in. */
  lemma ReplyIs(st: State, s: Pool.SockId, i: nat, value: int)
    requires HandsOver(st, s, i, false)
    requires var call := st.calls[Pool.WireOf(st.pool, s)[0].id];
      st.pool.socks[s].cb == CallbackOf(call.role)
      && Fan.CallBack(st.ld, call.role, Fan.Packet(Fan.RspKind(call.role), call.seqNo, value, 0)).code == 1
    ensures var id := Pool.WireOf(st.pool, s)[0].id;
      var call := st.calls[id];
      OnReply(st, s, i, value)
        == Applied(st, Pool.Next(st.pool, Pool.Completes(s, i, false, [], true)), id, value,
                   Fan.CallBack(st.ld, call.role, Fan.Packet(Fan.RspKind(call.role), call.seqNo, value, 0)))
  {
  }

  lemma ReplyKeepsOwn(st: State, s: Pool.SockId, i: nat, value: int)
    requires Inv(st) && HandsOver(st, s, i, false)
    ensures Own(OnReply(st, s, i, value))
  {
    ReplyFacts(st, s, i, true);
    ReplyOwn(st, Pool.Next(st.pool, Pool.Completes(s, i, false, [], true)), Pool.WireOf(st.pool, s)[0].id, value);
    ReplyIs(st, s, i, value);
  }

  lemma ReplyPool(st: State, s: Pool.SockId, i: nat, value: int)
    requires Pool.Inv(st.pool, None) && HandsOver(st, s, i, false)
    ensures Pool.Inv(OnReply(st, s, i, value).pool, None)
  {
    PoolCompletes(st.pool, s, i, false, ReplyOf(st, s, value).code == 1);
  }

  lemma ReplyInv(st: State, s: Pool.SockId, i: nat, value: int)
    requires Inv(st) && HandsOver(st, s, i, false)
    ensures Inv(OnReply(st, s, i, value))
  {
    ReplyKeepsOwn(st, s, i, value);
    ReplyPool(st, s, i, value);
  }

  lemma NextInv(st: State, e: Event)
    requires Inv(st)
    ensures Inv(Next(st, e))
  {
    match e
    case Asks(p, client) => AskInv(st, p, client);
    case Completes(s, i, error, value) =>
      if HandsOver(st, s, i, error) { ReplyInv(st, s, i, value); } else { QuietInv(st, s, i, error); }
  }

  lemma {:induction false} RunInv(st: State, es: seq<Event>)
    requires Inv(st)
    ensures Inv(Run(st, es))
    decreases |es|
  {
    if es != [] {
      NextInv(st, es[0]);
      RunInv(Next(st, es[0]), es[1..]);
    }
  }

  // ---------- every run ----------

  /** The service answers each number at most once, whatever completes, fails or comes in which order. */
  lemma AtMostOneAnswer(es: seq<Event>, i: nat, j: nat)
    requires var log := Run(Start, es).log; i < |log| && j < |log| && log[i].seqNo == log[j].seqNo
    ensures i == j
  {
    StartInv();
    RunInv(Start, es);
  }

  /** Each answer adds up the values of the two requests made for its number, which the pool answered,
  once each; and it goes to the client recorded. */
  lemma AnswersAreSums(es: seq<Event>, i: nat)
    requires i < |Run(Start, es).log|
    ensures var st := Run(Start, es);
      var a := st.log[i];
      && a.seqNo in st.ids && a.seqNo in st.ld && a.to == st.ld[a.seqNo].client
      && (forall r: Fan.Role ::
            var id := IdOf(st.ids[a.seqNo], r);
            IsAnswered(st.pool.fate, id) && id in st.values && id in st.calls && st.calls[id] == Call(a.seqNo, r))
      && a.sum == st.values[IdOf(st.ids[a.seqNo], Fan.BB1)] + st.values[IdOf(st.ids[a.seqNo], Fan.BB2)]
  {
    StartInv();
    RunInv(Start, es);
    var st := Run(Start, es);
    assert EntryOk(st.ld[st.log[i].seqNo], st.ids[st.log[i].seqNo], st.pool.fate, st.values);
  }

  /** Completion `k` of the run handed over the reply to pool request `id`. */
  ghost predicate RepliedAt(es: seq<Event>, k: nat, id: nat) {
    && k < |es| && es[k].Completes? && HandsOver(Run(Start, es[..k]), es[k].s, es[k].i, es[k].error)
    && Pool.WireOf(Run(Start, es[..k]).pool, es[k].s)[0].id == id
  }

  lemma {:induction false} RunSnoc(st: State, es: seq<Event>, e: Event)
    ensures Run(st, es + [e]) == Next(Run(st, es), e)
    decreases |es|
  {
    if es == [] {
      assert [e][1..] == [] && es + [e] == [e];
    } else {
      assert (es + [e])[1..] == es[1..] + [e];
      RunSnoc(Next(st, es[0]), es[1..], e);
    }
  }

  /** Only a reply handed over changes the values, and only that of its own request. */
  lemma NextValues(st: State, e: Event)
    ensures Next(st, e).values ==
      if e.Completes? && HandsOver(st, e.s, e.i, e.error)
      then st.values[Pool.WireOf(st.pool, e.s)[0].id := e.value] else st.values
  {
    if e.Asks? { AskValues(st, e.p, e.client); }
  }

  lemma AskValues(st: State, p: Fan.Packet, client: Endpoint)
    ensures OnAsk(st, p, client).values == st.values
  {
  }

  /** The value of a request is that of a reply handed over for it. */
  lemma {:induction false} ValueFromReply(es: seq<Event>, id: nat) returns (k: nat)
    requires id in Run(Start, es).values
    ensures RepliedAt(es, k, id) && es[k].value == Run(Start, es).values[id]
    decreases |es|
  {
    if es == [] {
      assert false;
    } else {
      var n := |es| - 1;
      var before, e := es[..n], es[n];
      assert es == before + [e];
      RunSnoc(Start, before, e);
      var st := Run(Start, before);
      NextValues(st, e);
      if e.Completes? && HandsOver(st, e.s, e.i, e.error) && Pool.WireOf(st.pool, e.s)[0].id == id {
        k := n;
      } else {
        k := ValueFromReply(before, id);
        assert before[..k] == es[..k];
      }
    }
  }

  /** Each answer adds the values of two replies that the pool handed over in the run: one to the request that
  its number made of each backend. */
  lemma AnswersAddReplies(es: seq<Event>, i: nat) returns (k1: nat, k2: nat)
    requires i < |Run(Start, es).log|
    ensures var st := Run(Start, es);
      var a := st.log[i];
      && a.seqNo in st.ids
      && RepliedAt(es, k1, st.ids[a.seqNo].0) && RepliedAt(es, k2, st.ids[a.seqNo].1)
      && st.ids[a.seqNo].0 in st.calls && st.calls[st.ids[a.seqNo].0] == Call(a.seqNo, Fan.BB1)
      && st.ids[a.seqNo].1 in st.calls && st.calls[st.ids[a.seqNo].1] == Call(a.seqNo, Fan.BB2)
      && a.sum == es[k1].value + es[k2].value
  {
    AnswersAreSums(es, i);
    var st := Run(Start, es);
    var ids := st.ids[st.log[i].seqNo];
    assert ids.0 == IdOf(ids, Fan.BB1) && ids.1 == IdOf(ids, Fan.BB2);
    k1 := ValueFromReply(es, ids.0);
    k2 := ValueFromReply(es, ids.1);
  }

  /** A number whose two requests were answered has its answer. */
  lemma AnsweredWhenBothBack(es: seq<Event>, q: int)
    requires var st := Run(Start, es);
      q in st.ids && forall r: Fan.Role :: IsAnswered(st.pool.fate, IdOf(st.ids[q], r))
    ensures exists i :: 0 <= i < |Run(Start, es).log| && Run(Start, es).log[i].seqNo == q
  {
    StartInv();
    RunInv(Start, es);
    var st := Run(Start, es);
    assert EntryOk(st.ld[q], st.ids[q], st.pool.fate, st.values);
    assert Arrived(st.ld[q], Fan.BB1) && Arrived(st.ld[q], Fan.BB2);
    assert st.log[st.at[q]].seqNo == q;
  }

  // ---------- progress ----------

  /** A completion of a pending operation. */
  predicate Real(st: State, e: Event) {
    e.Completes? && e.i < |Pool.Pending(st.pool, e.s)|
  }

  /** The pool's part of such a step. */
  lemma RealPool(st: State, e: Event)
    requires Real(st, e)
    ensures exists ok :: Next(st, e).pool == Pool.Next(st.pool, Pool.Completes(e.s, e.i, e.error, [], ok))
  {
    var ok := if HandsOver(st, e.s, e.i, e.error) then ReplyOf(st, e.s, e.value).code == 1 else true;
    assert Next(st, e).pool == Pool.Next(st.pool, Pool.Completes(e.s, e.i, e.error, [], ok));
  }

  ghost predicate AllReal(st: State, es: seq<Event>)
    decreases |es|
  {
    es == [] || (Real(st, es[0]) && AllReal(Next(st, es[0]), es[1..]))
  }

  lemma StepWorks(st: State, e: Event)
    requires Pool.Inv(st.pool, None) && Real(st, e)
    ensures var p, p' := st.pool, Next(st, e).pool;
      p'.nextSock == p.nextSock && Pool.Work(p', p.nextSock) < Pool.Work(p, p.nextSock)
  {
    RealPool(st, e);
    var ok :| Next(st, e).pool == Pool.Next(st.pool, Pool.Completes(e.s, e.i, e.error, [], ok));
    Pool.StepWorks(st.pool, Pool.Completes(e.s, e.i, e.error, [], ok));
  }

  /** Without new requests the service comes to rest. */
  lemma {:induction false} RunsAreBounded(st: State, es: seq<Event>)
    requires Inv(st) && AllReal(st, es)
    ensures |es| <= Pool.Work(st.pool, st.pool.nextSock)
    decreases |es|
  {
    if es != [] {
      StepWorks(st, es[0]);
      NextInv(st, es[0]);
      RunsAreBounded(Next(st, es[0]), es[1..]);
    }
  }

  ghost predicate NoneLost(pool: Pool.State) {
    forall id :: id in pool.fate ==> !pool.fate[id].Lost?
  }

  predicate NoError(e: Event) { e.Completes? ==> !e.error }

  lemma AskLosesNone(st: State, p: Fan.Packet, client: Endpoint)
    requires NoneLost(st.pool)
    ensures NoneLost(OnAsk(st, p, client).pool)
  {
    var pool := st.pool;
    SendChanges(pool, EndpointOf(Fan.BB1), CallbackOf(Fan.BB1));
    var pool1 := Pool.Send(pool, EndpointOf(Fan.BB1), CallbackOf(Fan.BB1));
    SendChanges(pool1, EndpointOf(Fan.BB2), CallbackOf(Fan.BB2));
  }

  lemma CompletionLosesNone(pool: Pool.State, s: Pool.SockId, i: nat, ok: bool)
    requires Pool.Inv(pool, None) && NoneLost(pool) && i < |Pool.Pending(pool, s)|
    ensures NoneLost(Pool.Next(pool, Pool.Completes(s, i, false, [], ok)))
  {
    CompletesChanges(pool, s, i, false, ok);
  }

  lemma NextLosesNone(st: State, e: Event)
    requires Pool.Inv(st.pool, None) && NoneLost(st.pool) && NoError(e)
    ensures NoneLost(Next(st, e).pool)
  {
    match e
    case Asks(p, client) => AskLosesNone(st, p, client);
    case Completes(s, i, error, value) =>
      if i < |Pool.Pending(st.pool, s)| {
        RealPool(st, e);
        var ok :| Next(st, e).pool == Pool.Next(st.pool, Pool.Completes(s, i, false, [], ok));
        CompletionLosesNone(st.pool, s, i, ok);
      }
  }

  lemma {:induction false} RunLosesNone(st: State, es: seq<Event>)
    requires Inv(st) && NoneLost(st.pool) && forall i :: 0 <= i < |es| ==> NoError(es[i])
    ensures NoneLost(Run(st, es).pool)
    decreases |es|
  {
    if es != [] {
      assert NoError(es[0]);
      NextInv(st, es[0]);
      NextLosesNone(st, es[0]);
      RunLosesNone(Next(st, es[0]), es[1..]);
    }
  }

  /** Where a run without errors has come to rest, every number accepted has its answer. */
  lemma AllAnsweredAtRest(es: seq<Event>, q: int)
    requires forall i :: 0 <= i < |es| ==> NoError(es[i])
    requires var st := Run(Start, es); q in st.ids && forall s :: Pool.Pending(st.pool, s) == []
    ensures exists i :: 0 <= i < |Run(Start, es).log| && Run(Start, es).log[i].seqNo == q
  {
    StartInv();
    RunInv(Start, es);
    RunLosesNone(Start, es);
    var st := Run(Start, es);
    forall r: Fan.Role ensures IsAnswered(st.pool.fate, IdOf(st.ids[q], r)) {
      assert IdOf(st.ids[q], r) in st.calls;
      Pool.Settled(st.pool, IdOf(st.ids[q], r));
    }
    AnsweredWhenBothBack(es, q);
  }
}
