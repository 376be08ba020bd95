/** The client connection pool of the asio skeleton (length-value sockets).

Requests to one endpoint share pooled connections.  Each connection has the
flags `inUse` and `connected` and a registered callback; every asynchronous
operation ends in a completion handler.  Completions come in any order, may
fail, and a callback may send further requests before it returns.
*/
module ClientPool {
  import opened Common

  type SockId = nat

  /** Which callback a request was sent with; none means the server's ProcessData. */
  type Handler = Option<nat>

  /** A request: `found` is the callback already registered on the idle connection picked for it. */
  datatype Req = Req(id: nat, ep: Endpoint, cb: Handler, found: Handler)

  datatype Sock = Sock(ep: Endpoint, inUse: bool, connected: bool, cb: Handler, sendBuf: Req)

  /** Kinds of asynchronous operation. */
  datatype Kind = Connect | Write | ReadLen | ReadBody | WriteLast

  /** A reply handed to `used`; it answers `req`. */
  datatype Done = Done(req: Req, used: Handler)

  /** What became of a request. */
  datatype Fate = OnSock(s: SockId) | Answered(i: nat) | Lost

  /** `ops` lists the pending operations of each connection, `wire` is the peer's view: requests written on a
      connection and not yet answered, oldest first.
      `done`, `fate` and the counters record the history of the run. */
  datatype State = State(
    socks: map<SockId, Sock>,
    lists: map<Endpoint, seq<SockId>>,
    ops: map<SockId, seq<Kind>>,
    wire: map<SockId, seq<Req>>,
    nextSock: SockId, nextReq: nat,
    done: seq<Done>, fate: map<nat, Fate>,
    faulted: bool)

  const Init := State(map[], map[], map[], map[], 0, 0, [], map[], false)

  // ---------- the endpoint lists ----------

  function ListOf(lists: map<Endpoint, seq<SockId>>, ep: Endpoint): seq<SockId> {
    if ep in lists then lists[ep] else []
  }

  function WireOf(st: State, s: SockId): seq<Req> {
    if s in st.wire then st.wire[s] else []
  }

  /** Operations pending on a connection. */
  function Pending(st: State, s: SockId): seq<Kind> {
    if s in st.ops then st.ops[s] else []
  }

  function Start(st: State, s: SockId, k: Kind): map<SockId, seq<Kind>> {
    st.ops[s := Pending(st, s) + [k]]
  }

  predicate Idle(socks: map<SockId, Sock>, s: SockId) {
    s in socks && !socks[s].inUse && socks[s].connected
  }

  /** The first idle connection of a list. */
  function FirstIdle(socks: map<SockId, Sock>, l: seq<SockId>): (r: Option<SockId>)
    ensures r.Some? ==> r.value in l && Idle(socks, r.value)
    ensures r.None? ==> forall s :: s in l ==> !Idle(socks, s)
  {
    if l == [] then None
    else if Idle(socks, l[0]) then Some(l[0])
    else FirstIdle(socks, l[1..])
  }

  /** An idle connection that stands before the one found in the list would have been found. */
  lemma {:induction false} FirstIdleIsFirst(socks: map<SockId, Sock>, l: seq<SockId>, i: nat)
    requires i < |l| && Idle(socks, l[i]) && forall j :: 0 <= j < i ==> !Idle(socks, l[j])
    ensures FirstIdle(socks, l) == Some(l[i])
  {
    if i > 0 { FirstIdleIsFirst(socks, l[1..], i - 1); }
  }

  function Insert(lists: map<Endpoint, seq<SockId>>, ep: Endpoint, s: SockId): (r: map<Endpoint, seq<SockId>>)
    ensures forall ep', t :: t in ListOf(r, ep') <==> t in ListOf(lists, ep') || (ep' == ep && t == s)
  {
    var r := lists[ep := ListOf(lists, ep) + [s]];
    assert forall ep' :: ep' != ep ==> ListOf(r, ep') == ListOf(lists, ep');
    r
  }

  /** Removes every occurrence, as std::list::remove does. */
  function Without(l: seq<SockId>, s: SockId): (r: seq<SockId>)
    ensures |r| <= |l| && forall t :: t in r <==> t in l && t != s
  {
    if l == [] then []
    else
      assert forall t :: t in l <==> t == l[0] || t in l[1..];
      if l[0] == s then Without(l[1..], s) else [l[0]] + Without(l[1..], s)
  }

  /** What is kept stays in order. */
  lemma {:induction false} WithoutInOrder(a: seq<SockId>, b: seq<SockId>, s: SockId)
    ensures Without(a + b, s) == Without(a, s) + Without(b, s)
  {
    if a == [] {
      assert a + b == b;
    } else {
      assert (a + b)[1..] == a[1..] + b;
      WithoutInOrder(a[1..], b, s);
    }
  }

  function Remove(lists: map<Endpoint, seq<SockId>>, ep: Endpoint, s: SockId): (r: map<Endpoint, seq<SockId>>)
    ensures forall ep', t :: t in ListOf(r, ep') ==> t in ListOf(lists, ep') && !(ep' == ep && t == s)
    ensures forall ep', t :: t in ListOf(lists, ep') && t != s ==> t in ListOf(r, ep')
  {
    if ep !in lists then lists
    else
      var r := lists[ep := Without(lists[ep], s)];
      assert forall ep' :: ep' != ep ==> ListOf(r, ep') == ListOf(lists, ep');
      r
  }

  // ---------- the handlers ----------

  function Destroy(st: State, s: SockId): State
    requires s in st.socks
  {
    st.(lists := Remove(st.lists, st.socks[s].ep, s), socks := st.socks - {s}, wire := st.wire - {s})
  }

  /** Closes the connection of a request that will get no reply. */
  function Fail(st: State, s: SockId): State
    requires s in st.socks
  {
    Destroy(st, s).(fate := st.fate[st.socks[s].sendBuf.id := Lost])
  }

  function ConnectThenWrite(st: State, ep: Endpoint, cb: Handler): State {
    var s, req := st.nextSock, Req(st.nextReq, ep, cb, None);
    st.(socks := st.socks[s := Sock(ep, false, false, cb, req)],
        lists := Insert(st.lists, ep, s),
        ops := Start(st, s, Connect),
        nextSock := s + 1, nextReq := st.nextReq + 1, fate := st.fate[req.id := OnSock(s)])
  }

  function WriteThenRead(st: State, s: SockId, req: Req): State
    requires s in st.socks
  {
    st.(faulted := st.faulted || st.socks[s].inUse,
        socks := st.socks[s := st.socks[s].(inUse := true, sendBuf := req)],
        ops := Start(st, s, Write),
        nextReq := st.nextReq + 1, fate := st.fate[req.id := OnSock(s)])
  }

  /** ToWriteThenCallBack when `cb` is given, else ToWriteThenRead for a client. */
  function Send(st: State, ep: Endpoint, cb: Handler): State {
    match FirstIdle(st.socks, ListOf(st.lists, ep))
    case None => ConnectThenWrite(st, ep, cb)
    case Some(s) => Reuse(st, s, ep, cb)
  }

  function Reuse(st: State, s: SockId, ep: Endpoint, cb: Handler): State
    requires s in st.socks
  {
    var found := st.socks[s].cb;
    var st1 := if cb.Some? then st.(socks := st.socks[s := st.socks[s].(cb := cb)]) else st;
    WriteThenRead(st1, s, Req(st.nextReq, ep, cb, found))
  }

  /** ToWriteThenClose for a client (skeleton.hpp:397-431): the write starts without the connection being
  marked as in use. Without an idle connection nothing happens. */
  function Close(st: State, ep: Endpoint): State {
    match FirstIdle(st.socks, ListOf(st.lists, ep))
    case None => st
    case Some(s) =>
      var req := Req(st.nextReq, ep, None, st.socks[s].cb);
      st.(socks := st.socks[s := st.socks[s].(sendBuf := req)],
          ops := Start(st, s, WriteLast),
          nextReq := st.nextReq + 1, fate := st.fate[req.id := OnSock(s)])
  }

  function SendAll(st: State, sends: seq<(Endpoint, Handler)>): State
    decreases |sends|
  {
    if sends == [] then st else SendAll(Send(st, sends[0].0, sends[0].1), sends[1..])
  }

  function HandleConnect(st: State, s: SockId, error: bool): State
    requires s in st.socks
  {
    if error then Fail(st, s)
    else
      st.(faulted := st.faulted || st.socks[s].inUse,
          socks := st.socks[s := st.socks[s].(connected := true, inUse := true)],
          lists := Insert(st.lists, st.socks[s].ep, s),
          ops := Start(st, s, Write))
  }

  function HandleWrite(st: State, s: SockId, error: bool): State
    requires s in st.socks
  {
    if error then Fail(st, s)
    else
      st.(wire := st.wire[s := WireOf(st, s) + [st.socks[s].sendBuf]], ops := Start(st, s, ReadLen))
  }

  /** `error` also stands for a length field over the limit. */
  function HandleReadLen(st: State, s: SockId, error: bool): State
    requires s in st.socks
  {
    if error then Fail(st, s) else st.(ops := Start(st, s, ReadBody))
  }

  /** The reply at hand answers the oldest unanswered request on this connection. */
  function HandOver(st: State, s: SockId): State
    requires s in st.socks && WireOf(st, s) != []
  {
    var req := WireOf(st, s)[0];
    st.(wire := st.wire[s := WireOf(st, s)[1..]],
        done := st.done + [Done(req, st.socks[s].cb)],
        fate := st.fate[req.id := Answered(|st.done|)])
  }

  /** After the callback: a client callback returns either an error or 1, which frees the connection. */
  function AfterCallback(st: State, s: SockId, ok: bool): State {
    if s !in st.socks then st.(faulted := true)
    else if !ok then Destroy(st, s)
    else st.(faulted := st.faulted || !st.socks[s].inUse,
             socks := st.socks[s := st.socks[s].(inUse := false)])
  }

  function HandleReadBody(st: State, s: SockId, error: bool, sends: seq<(Endpoint, Handler)>, ok: bool): State
    requires s in st.socks
  {
    if error then Fail(st, s)
    else if WireOf(st, s) == [] then st.(faulted := true)
    else AfterCallback(SendAll(HandOver(st, s), sends), s, ok)
  }

  /** The callback's return code: an error closes the connection, 1 frees it; 0, 2 and 3 are for servers, and
  an assertion fails for them, as for any other code. */
  function HandleReadBodyCode(st: State, s: SockId, error: bool, sends: seq<(Endpoint, Handler)>, code: int): State
    requires s in st.socks
  {
    if error || code < 0 || code == 1 then HandleReadBody(st, s, error, sends, code == 1)
    else if WireOf(st, s) == [] then st.(faulted := true)
    else SendAll(HandOver(st, s), sends).(faulted := true)
  }

  function Handle(st: State, s: SockId, kind: Kind, error: bool, sends: seq<(Endpoint, Handler)>, ok: bool): State
    requires s in st.socks
  {
    match kind
    case Connect => HandleConnect(st, s, error)
    case Write => HandleWrite(st, s, error)
    case ReadLen => HandleReadLen(st, s, error)
    case ReadBody => HandleReadBody(st, s, error, sends, ok)
    case WriteLast => Fail(st, s)
  }

  // ---------- events ----------

  datatype Event =
    | Sends(ep: Endpoint, cb: Handler)
    | Closes(ep: Endpoint)
    | Completes(s: SockId, i: nat, error: bool, sends: seq<(Endpoint, Handler)>, ok: bool)

  /** A completion for a destroyed connection would be a fault too. */
  function Next(st: State, ev: Event): State {
    match ev
    case Sends(ep, cb) => Send(st, ep, cb)
    case Closes(ep) => Close(st, ep)
    case Completes(s, i, error, sends, ok) =>
      if i >= |Pending(st, s)| then st
      else
        var kind := Pending(st, s)[i];
        // the handler runs once its operation is off the list
        var st1 := st.(ops := st.ops[s := Pending(st, s)[..i] + Pending(st, s)[i + 1..]]);
        if s !in st.socks then st1.(faulted := true) else Handle(st1, s, kind, error, sends, ok)
  }

  function Run(st: State, evs: seq<Event>): State
    decreases |evs|
  {
    if evs == [] then st else Run(Next(st, evs[0]), evs[1..])
  }

  // ---------- the invariant ----------

  /** The callback that will be called for a request. */
  function Chosen(req: Req): Handler { if req.cb.Some? then req.cb else req.found }

  /** Carries a request: connecting or in use, and not inside its own callback. */
  predicate Active(st: State, busy: Option<SockId>, s: SockId) {
    s in st.socks && Some(s) != busy && (st.socks[s].inUse || !st.socks[s].connected)
  }

  ghost predicate SockOk(st: State, busy: Option<SockId>, s: SockId)
    requires s in st.socks
  {
    var k := st.socks[s];
    && (!k.connected ==> !k.inUse && Some(s) != busy)
    && |Pending(st, s)| == (if Active(st, busy, s) then 1 else 0)
    && (Active(st, busy, s) ==> (Pending(st, s)[0].Connect? <==> !k.connected) && !Pending(st, s)[0].WriteLast?)
    && WireOf(st, s) == (if |Pending(st, s)| == 1 && !Pending(st, s)[0].Connect? && !Pending(st, s)[0].Write?
                         then [k.sendBuf] else [])
    && (Active(st, busy, s) ==>
          && k.cb == Chosen(k.sendBuf) && k.sendBuf.ep == k.ep
          && k.sendBuf.id in st.fate && st.fate[k.sendBuf.id] == OnSock(s))
  }

  ghost predicate SocksOk(st: State, busy: Option<SockId>) {
    forall s :: s in st.socks ==> SockOk(st, busy, s)
  }

  /** No operation and no reply to come outlives its connection. */
  ghost predicate NothingDangling(st: State) {
    forall s :: s !in st.socks ==> Pending(st, s) == [] && WireOf(st, s) == []
  }

  /** The endpoint lists hold exactly the live connections, each under its own endpoint. */
  ghost predicate ListsOk(socks: map<SockId, Sock>, lists: map<Endpoint, seq<SockId>>) {
    && (forall s :: s in socks ==> s in ListOf(lists, socks[s].ep))
    && (forall ep, s :: s in ListOf(lists, ep) ==> s in socks && socks[s].ep == ep)
  }

  /** The fate of a request on a connection is that connection's current request. */
  ghost predicate FatesOk(st: State, busy: Option<SockId>) {
    && (forall id :: id in st.fate <==> 0 <= id < st.nextReq)
    && (forall id :: id in st.fate && st.fate[id].OnSock? ==>
          Active(st, busy, st.fate[id].s) && st.socks[st.fate[id].s].sendBuf.id == id)
  }

  /** Answered requests and the log of replies correspond one to one. */
  ghost predicate AnswersOk(st: State) {
    && (forall id :: id in st.fate && st.fate[id].Answered? ==>
          st.fate[id].i < |st.done| && st.done[st.fate[id].i].req.id == id)
    && (forall i :: 0 <= i < |st.done| ==>
          && st.done[i].req.id in st.fate && st.fate[st.done[i].req.id] == Answered(i)
          && st.done[i].used == Chosen(st.done[i].req))
  }

  /** `busy` is the connection whose callback is running, if any. */
  ghost predicate Core(st: State, busy: Option<SockId>) {
    && !st.faulted
    && (busy.Some? ==> busy.value in st.socks && st.socks[busy.value].inUse)
    && (forall s :: s in st.socks ==> s < st.nextSock)
    && SocksOk(st, busy) && NothingDangling(st) && FatesOk(st, busy) && AnswersOk(st)
  }

  ghost predicate Inv(st: State, busy: Option<SockId>) { Core(st, busy) && ListsOk(st.socks, st.lists) }

  lemma InitInv()
    ensures Inv(Init, None)
  {
  }

  // ---------- frames ----------

  /** A connection the step does not touch. */
  ghost predicate Same(st: State, st': State, t: SockId) {
    && t in st.socks && t in st'.socks && st'.socks[t] == st.socks[t]
    && WireOf(st', t) == WireOf(st, t)
    && Pending(st', t) == Pending(st, t)
    && (st.socks[t].sendBuf.id in st.fate && st.fate[st.socks[t].sendBuf.id] == OnSock(t) ==>
          st.socks[t].sendBuf.id in st'.fate && st'.fate[st.socks[t].sendBuf.id] == OnSock(t))
  }

  lemma SameOk(st: State, st': State, busy: Option<SockId>, busy': Option<SockId>, t: SockId)
    requires t in st.socks && SockOk(st, busy, t) && Same(st, st', t)
    requires Some(t) == busy <==> Some(t) == busy'
    ensures SockOk(st', busy', t)
  {
  }

  ghost predicate OthersSame(st: State, st': State, s: SockId) {
    forall t :: t in st'.socks && t != s ==> Same(st, st', t)
  }

  /** Only connection `s` changes. */
  lemma SocksFrame(st: State, st': State, busy: Option<SockId>, busy': Option<SockId>, s: SockId)
    requires SocksOk(st, busy) && OthersSame(st, st', s)
    requires forall t :: t != s ==> (Some(t) == busy <==> Some(t) == busy')
    requires s in st'.socks ==> SockOk(st', busy', s)
    ensures SocksOk(st', busy')
  {
    forall t | t in st'.socks ensures SockOk(st', busy', t) {
      if t != s {
        assert SockOk(st, busy, t);
        SameOk(st, st', busy, busy', t);
      }
    }
  }

  /** Request `id` takes fate `f`; connections other than `s` stay as active as they were. */
  lemma FatesFrame(st: State, st': State, busy: Option<SockId>, busy': Option<SockId>, s: SockId, id: nat, f: Fate)
    requires FatesOk(st, busy) && st'.fate == st.fate[id := f]
    requires st'.nextReq == (if id == st.nextReq then st.nextReq + 1 else st.nextReq) && id <= st.nextReq
    requires forall t :: t != s && Active(st, busy, t) ==> Active(st', busy', t) && st'.socks[t] == st.socks[t]
    requires Active(st, busy, s) ==> st.socks[s].sendBuf.id == id
    requires f.OnSock? ==> f.s == s && Active(st', busy', s) && st'.socks[s].sendBuf.id == id
    ensures FatesOk(st', busy')
  {
  }

  /** No reply is logged. */
  lemma AnswersFrame(st: State, st': State, id: nat, f: Fate)
    requires AnswersOk(st) && st'.done == st.done && st'.fate == st.fate[id := f] && !f.Answered?
    requires id in st.fate ==> !st.fate[id].Answered?
    ensures AnswersOk(st')
  {
  }

  // ---------- sending keeps the invariant ----------

  lemma ConnectThenWriteSock(st: State, busy: Option<SockId>, ep: Endpoint, cb: Handler)
    requires NothingDangling(st) && st.nextSock !in st.socks && Some(st.nextSock) != busy
    ensures SockOk(ConnectThenWrite(st, ep, cb), busy, st.nextSock)
  {
  }

  lemma ConnectThenWriteOthers(st: State, ep: Endpoint, cb: Handler)
    requires st.nextReq !in st.fate
    ensures OthersSame(st, ConnectThenWrite(st, ep, cb), st.nextSock)
  {
  }

  lemma ConnectThenWriteSocks(st: State, busy: Option<SockId>, ep: Endpoint, cb: Handler)
    requires Core(st, busy)
    ensures SocksOk(ConnectThenWrite(st, ep, cb), busy)
  {
    assert st.nextSock !in st.socks;
    ConnectThenWriteSock(st, busy, ep, cb);
    ConnectThenWriteOthers(st, ep, cb);
    SocksFrame(st, ConnectThenWrite(st, ep, cb), busy, busy, st.nextSock);
  }

  lemma ConnectThenWriteFates(st: State, busy: Option<SockId>, ep: Endpoint, cb: Handler)
    requires st.nextSock !in st.socks && Some(st.nextSock) != busy && FatesOk(st, busy) && AnswersOk(st)
    ensures FatesOk(ConnectThenWrite(st, ep, cb), busy) && AnswersOk(ConnectThenWrite(st, ep, cb))
  {
    var st', s := ConnectThenWrite(st, ep, cb), st.nextSock;
    FatesFrame(st, st', busy, busy, s, st.nextReq, OnSock(s));
    AnswersFrame(st, st', st.nextReq, OnSock(s));
  }

  lemma ConnectThenWriteCore(st: State, busy: Option<SockId>, ep: Endpoint, cb: Handler)
    requires Core(st, busy)
    ensures Core(ConnectThenWrite(st, ep, cb), busy)
  {
    ConnectThenWriteSocks(st, busy, ep, cb);
    ConnectThenWriteFates(st, busy, ep, cb);
  }

  lemma ReuseSock(st: State, busy: Option<SockId>, ep: Endpoint, cb: Handler, s: SockId)
    requires Idle(st.socks, s) && st.socks[s].ep == ep && SockOk(st, busy, s) && Some(s) != busy
    ensures SockOk(Reuse(st, s, ep, cb), busy, s)
  {
  }

  lemma ReuseOthers(st: State, ep: Endpoint, cb: Handler, s: SockId)
    requires s in st.socks && st.nextReq !in st.fate
    ensures OthersSame(st, Reuse(st, s, ep, cb), s)
  {
  }

  lemma ReuseSocks(st: State, busy: Option<SockId>, ep: Endpoint, cb: Handler, s: SockId)
    requires Core(st, busy) && Idle(st.socks, s) && st.socks[s].ep == ep
    ensures SocksOk(Reuse(st, s, ep, cb), busy)
  {
    assert SockOk(st, busy, s);
    ReuseSock(st, busy, ep, cb, s);
    ReuseOthers(st, ep, cb, s);
    SocksFrame(st, Reuse(st, s, ep, cb), busy, busy, s);
  }

  lemma ReuseFates(st: State, busy: Option<SockId>, ep: Endpoint, cb: Handler, s: SockId)
    requires Idle(st.socks, s) && Some(s) != busy && FatesOk(st, busy) && AnswersOk(st)
    ensures FatesOk(Reuse(st, s, ep, cb), busy) && AnswersOk(Reuse(st, s, ep, cb))
  {
    FatesFrame(st, Reuse(st, s, ep, cb), busy, busy, s, st.nextReq, OnSock(s));
    AnswersFrame(st, Reuse(st, s, ep, cb), st.nextReq, OnSock(s));
  }

  lemma ReuseCore(st: State, busy: Option<SockId>, ep: Endpoint, cb: Handler, s: SockId)
    requires Core(st, busy) && Idle(st.socks, s) && st.socks[s].ep == ep
    ensures Core(Reuse(st, s, ep, cb), busy)
  {
    ReuseSocks(st, busy, ep, cb, s);
    ReuseFates(st, busy, ep, cb, s);
  }

  // ---------- the lists ----------

  /** Inserting a connection, even a second time, keeps the lists right. */
  lemma InsertLists(socks: map<SockId, Sock>, lists: map<Endpoint, seq<SockId>>, s: SockId, k: Sock)
    requires ListsOk(socks, lists) && (s in socks ==> socks[s].ep == k.ep)
    ensures ListsOk(socks[s := k], Insert(lists, k.ep, s))
  {
  }

  lemma UpdateLists(socks: map<SockId, Sock>, lists: map<Endpoint, seq<SockId>>, s: SockId, k: Sock)
    requires ListsOk(socks, lists) && s in socks && socks[s].ep == k.ep
    ensures ListsOk(socks[s := k], lists)
  {
  }

  /** Removing every occurrence makes up for the double insertion. */
  lemma RemoveLists(socks: map<SockId, Sock>, lists: map<Endpoint, seq<SockId>>, s: SockId)
    requires ListsOk(socks, lists) && s in socks
    ensures ListsOk(socks - {s}, Remove(lists, socks[s].ep, s))
  {
    RemovedLists(socks, lists, s, Remove(lists, socks[s].ep, s));
  }

  lemma RemovedLists(socks: map<SockId, Sock>, lists: map<Endpoint, seq<SockId>>, s: SockId,
                     r: map<Endpoint, seq<SockId>>)
    requires ListsOk(socks, lists) && s in socks
    requires forall ep, t :: t in ListOf(r, ep) ==> t in ListOf(lists, ep) && !(ep == socks[s].ep && t == s)
    requires forall ep, t :: t in ListOf(lists, ep) && t != s ==> t in ListOf(r, ep)
    ensures ListsOk(socks - {s}, r)
  {
  }

  lemma FoundEndpoint(socks: map<SockId, Sock>, lists: map<Endpoint, seq<SockId>>, ep: Endpoint, s: SockId)
    requires ListsOk(socks, lists) && FirstIdle(socks, ListOf(lists, ep)) == Some(s)
    ensures Idle(socks, s) && socks[s].ep == ep
  {
  }

  lemma SendNewInv(st: State, busy: Option<SockId>, ep: Endpoint, cb: Handler)
    requires Inv(st, busy)
    ensures Inv(ConnectThenWrite(st, ep, cb), busy)
    ensures busy.Some? ==> ConnectThenWrite(st, ep, cb).socks[busy.value] == st.socks[busy.value]
  {
    ConnectThenWriteCore(st, busy, ep, cb);
    InsertLists(st.socks, st.lists, st.nextSock, Sock(ep, false, false, cb, Req(st.nextReq, ep, cb, None)));
  }

  lemma ReuseLists(st: State, ep: Endpoint, cb: Handler, s: SockId)
    requires ListsOk(st.socks, st.lists) && s in st.socks && st.socks[s].ep == ep
    ensures ListsOk(Reuse(st, s, ep, cb).socks, Reuse(st, s, ep, cb).lists)
    ensures forall t :: t in st.socks && t != s ==> Reuse(st, s, ep, cb).socks[t] == st.socks[t]
  {
    var k := Reuse(st, s, ep, cb).socks[s];
    assert Reuse(st, s, ep, cb).socks == st.socks[s := k];
    UpdateLists(st.socks, st.lists, s, k);
  }

  lemma SendReuseInv(st: State, busy: Option<SockId>, ep: Endpoint, cb: Handler, s: SockId)
    requires Inv(st, busy) && FirstIdle(st.socks, ListOf(st.lists, ep)) == Some(s)
    ensures Inv(Reuse(st, s, ep, cb), busy)
    ensures busy.Some? ==> Reuse(st, s, ep, cb).socks[busy.value] == st.socks[busy.value]
  {
    FoundEndpoint(st.socks, st.lists, ep, s);
    ReuseCore(st, busy, ep, cb, s);
    ReuseLists(st, ep, cb, s);
  }

  lemma SendInv(st: State, busy: Option<SockId>, ep: Endpoint, cb: Handler)
    requires Inv(st, busy)
    ensures Inv(Send(st, ep, cb), busy)
    ensures busy.Some? ==> Send(st, ep, cb).socks[busy.value] == st.socks[busy.value]
  {
    match FirstIdle(st.socks, ListOf(st.lists, ep))
    case None => SendNewInv(st, busy, ep, cb);
    case Some(s) => SendReuseInv(st, busy, ep, cb, s);
  }

  lemma {:induction false} SendAllInv(st: State, busy: Option<SockId>, sends: seq<(Endpoint, Handler)>)
    requires Inv(st, busy)
    ensures Inv(SendAll(st, sends), busy)
    ensures busy.Some? ==> SendAll(st, sends).socks[busy.value] == st.socks[busy.value]
    decreases |sends|
  {
    if sends != [] {
      SendInv(st, busy, sends[0].0, sends[0].1);
      SendAllInv(Send(st, sends[0].0, sends[0].1), busy, sends[1..]);
    }
  }

  // ---------- completions keep the invariant ----------

  /** The state in which a handler runs: its operation is no longer pending. */
  function Popped(st: State, s: SockId): State { st.(ops := st.ops[s := []]) }

  lemma FailSocks(st: State, s: SockId)
    requires Core(st, None) && Active(st, None, s)
    ensures SocksOk(Fail(Popped(st, s), s), None) && SockOk(st, None, s)
  {
    assert SockOk(st, None, s);
    SocksFrame(st, Fail(Popped(st, s), s), None, None, s);
  }

  lemma FailCore(st: State, s: SockId)
    requires Core(st, None) && Active(st, None, s)
    ensures Core(Fail(Popped(st, s), s), None)
  {
    FailSocks(st, s);
    FatesFrame(st, Fail(Popped(st, s), s), None, None, s, st.socks[s].sendBuf.id, Lost);
    AnswersFrame(st, Fail(Popped(st, s), s), st.socks[s].sendBuf.id, Lost);
  }

  /** A successful step of a request's life: `s` stays active with the same request. */
  ghost predicate Progress(st: State, st': State, s: SockId) {
    && Active(st, None, s) && Active(st', None, s)
    && st'.socks[s].sendBuf == st.socks[s].sendBuf
    && (st'.fate, st'.done, st'.nextReq, st'.nextSock, st'.faulted)
       == (st.fate, st.done, st.nextReq, st.nextSock, st.faulted)
    && st'.socks == st.socks[s := st'.socks[s]]
    && (forall t :: t != s ==> Pending(st', t) == Pending(st, t) && WireOf(st', t) == WireOf(st, t))
  }

  lemma ProgressOthers(st: State, st': State, s: SockId)
    requires Progress(st, st', s)
    ensures OthersSame(st, st', s)
  {
  }

  lemma ProgressFates(st: State, st': State, s: SockId)
    requires FatesOk(st, None) && AnswersOk(st) && Progress(st, st', s)
    ensures FatesOk(st', None) && AnswersOk(st')
  {
  }

  lemma ProgressCore(st: State, st': State, s: SockId)
    requires Core(st, None) && Progress(st, st', s) && SockOk(st', None, s)
    ensures Core(st', None)
  {
    ProgressOthers(st, st', s);
    SocksFrame(st, st', None, None, s);
    ProgressFates(st, st', s);
  }

  lemma ConnectedCore(st: State, s: SockId)
    requires Core(st, None) && s in st.socks && Pending(st, s) == [Connect]
    ensures Core(HandleConnect(Popped(st, s), s, false), None)
  {
    assert SockOk(st, None, s);
    ProgressCore(st, HandleConnect(Popped(st, s), s, false), s);
  }

  lemma WrittenCore(st: State, s: SockId)
    requires Core(st, None) && s in st.socks && Pending(st, s) == [Write]
    ensures Core(HandleWrite(Popped(st, s), s, false), None)
  {
    assert SockOk(st, None, s);
    ProgressCore(st, HandleWrite(Popped(st, s), s, false), s);
  }

  lemma LengthReadCore(st: State, s: SockId)
    requires Core(st, None) && s in st.socks && Pending(st, s) == [ReadLen]
    ensures Core(HandleReadLen(Popped(st, s), s, false), None)
  {
    assert SockOk(st, None, s);
    ProgressCore(st, HandleReadLen(Popped(st, s), s, false), s);
  }

  lemma HandOverSocks(st: State, s: SockId)
    requires Core(st, None) && s in st.socks && Pending(st, s) == [ReadBody]
    ensures WireOf(st, s) == [st.socks[s].sendBuf] && SockOk(st, None, s)
    ensures SocksOk(HandOver(Popped(st, s), s), Some(s))
  {
    assert SockOk(st, None, s);
    var st' := HandOver(Popped(st, s), s);
    assert SockOk(st', Some(s), s);
    SocksFrame(st, st', None, Some(s), s);
  }

  lemma HandOverFates(st: State, s: SockId)
    requires s in st.socks && WireOf(st, s) == [st.socks[s].sendBuf] && FatesOk(st, None) && AnswersOk(st)
    requires SockOk(st, None, s) && Active(st, None, s)
    ensures FatesOk(HandOver(Popped(st, s), s), Some(s)) && AnswersOk(HandOver(Popped(st, s), s))
  {
    FatesFrame(st, HandOver(Popped(st, s), s), None, Some(s), s, st.socks[s].sendBuf.id, Answered(|st.done|));
  }

  /** The reply at hand is the answer to the request last written on the connection. */
  lemma HandOverCore(st: State, s: SockId)
    requires Core(st, None) && s in st.socks && Pending(st, s) == [ReadBody]
    ensures WireOf(st, s) == [st.socks[s].sendBuf]
    ensures Core(HandOver(Popped(st, s), s), Some(s))
  {
    HandOverSocks(st, s);
    HandOverFates(st, s);
  }

  lemma AfterCallbackOthers(st: State, s: SockId, ok: bool)
    requires s in st.socks
    ensures OthersSame(st, AfterCallback(st, s, ok), s)
  {
  }

  lemma AfterCallbackSocks(st: State, s: SockId, ok: bool)
    requires Core(st, Some(s))
    ensures SocksOk(AfterCallback(st, s, ok), None) && SockOk(st, Some(s), s)
  {
    assert SockOk(st, Some(s), s);
    if ok { assert SockOk(AfterCallback(st, s, ok), None, s); }
    AfterCallbackOthers(st, s, ok);
    SocksFrame(st, AfterCallback(st, s, ok), Some(s), None, s);
  }

  lemma AfterCallbackCore(st: State, s: SockId, ok: bool)
    requires Core(st, Some(s))
    ensures Core(AfterCallback(st, s, ok), None)
  {
    AfterCallbackSocks(st, s, ok);
    AfterCallbackLog(st, s, ok);
  }

  lemma AfterCallbackLog(st: State, s: SockId, ok: bool)
    requires s in st.socks && st.socks[s].inUse && FatesOk(st, Some(s)) && AnswersOk(st)
    requires st.socks[s].connected
    ensures FatesOk(AfterCallback(st, s, ok), None) && AnswersOk(AfterCallback(st, s, ok))
  {
  }

  lemma AfterCallbackInv(st: State, s: SockId, ok: bool)
    requires Inv(st, Some(s))
    ensures Inv(AfterCallback(st, s, ok), None)
  {
    AfterCallbackCore(st, s, ok);
    if ok { UpdateLists(st.socks, st.lists, s, st.socks[s].(inUse := false)); }
    else { RemoveLists(st.socks, st.lists, s); }
  }

  lemma BodyReadInv(st: State, s: SockId, sends: seq<(Endpoint, Handler)>, ok: bool)
    requires Inv(st, None) && s in st.socks && Pending(st, s) == [ReadBody]
    ensures Inv(HandleReadBody(Popped(st, s), s, false, sends, ok), None)
  {
    HandOverCore(st, s);
    SendAllInv(HandOver(Popped(st, s), s), Some(s), sends);
    AfterCallbackInv(SendAll(HandOver(Popped(st, s), s), sends), s, ok);
  }

  lemma HandleInv(st: State, s: SockId, kind: Kind, error: bool, sends: seq<(Endpoint, Handler)>, ok: bool)
    requires Inv(st, None) && s in st.socks && Pending(st, s) == [kind]
    ensures kind != WriteLast
    ensures Inv(Handle(Popped(st, s), s, kind, error, sends, ok), None)
  {
    assert SockOk(st, None, s);
    if error {
      FailCore(st, s);
      RemoveLists(st.socks, st.lists, s);
    } else {
      match kind
      case Connect =>
        ConnectedCore(st, s);
        InsertLists(st.socks, st.lists, s, st.socks[s].(connected := true, inUse := true));
      case Write => WrittenCore(st, s);
      case ReadLen => LengthReadCore(st, s);
      case ReadBody => BodyReadInv(st, s, sends, ok);
      case WriteLast =>
    }
  }

  // ---------- what closes a connection ----------

  /** Nothing is left of a connection but its number. */
  ghost predicate Closed(st: State, s: SockId) {
    s !in st.socks && WireOf(st, s) == [] && forall ep :: s !in ListOf(st.lists, ep)
  }

  lemma DestroyCloses(st: State, s: SockId)
    requires ListsOk(st.socks, st.lists) && s in st.socks
    ensures Closed(Destroy(st, s), s)
  {
    RemoveLists(st.socks, st.lists, s);
  }

  /** A negative code of the callback closes the connection; 1 leaves it connected, listed and idle. */
  lemma CodeDecides(st: State, s: SockId, sends: seq<(Endpoint, Handler)>, code: int)
    requires Inv(st, None) && s in st.socks && Pending(st, s) == [ReadBody]
    ensures var st' := HandleReadBodyCode(Popped(st, s), s, false, sends, code);
      && (code < 0 ==> Closed(st', s))
      && (code == 1 ==> s in st'.socks && Idle(st'.socks, s) && s in ListOf(st'.lists, st.socks[s].ep))
  {
    HandOverCore(st, s);
    var st1 := HandOver(Popped(st, s), s);
    SendAllInv(st1, Some(s), sends);
    var st2 := SendAll(st1, sends);
    if code < 0 { DestroyCloses(st2, s); }
    assert SockOk(st2, Some(s), s);
  }

  /** A completion with an error closes its connection, and so does a reply that the callback refuses. */
  lemma ErrorCloses(st: State, s: SockId, i: nat, error: bool, sends: seq<(Endpoint, Handler)>, ok: bool)
    requires Inv(st, None) && i < |Pending(st, s)|
    requires error || (Pending(st, s)[i].ReadBody? && !ok)
    ensures Closed(Next(st, Completes(s, i, error, sends, ok)), s)
  {
    OnlyPending(st, s, i);
    NextIsHandle(st, s, Pending(st, s)[i], error, sends, ok);
    if error { HandleErrorCloses(Popped(st, s), s, Pending(st, s)[i], sends, ok); } else { CodeDecides(st, s, sends, -1); }
  }

  lemma HandleErrorCloses(st: State, s: SockId, kind: Kind, sends: seq<(Endpoint, Handler)>, ok: bool)
    requires ListsOk(st.socks, st.lists) && s in st.socks
    ensures Closed(Handle(st, s, kind, true, sends, ok), s)
  {
    assert Handle(st, s, kind, true, sends, ok) == Fail(st, s);
    DestroyCloses(st, s);
  }

  /** The operation `kind` of a connection has completed, and its handler is about to run. */
  ghost predicate JustDone(st: State, s: SockId, kind: Kind) {
    s in st.socks && s in st.ops && st.ops[s] == [] && Inv(st.(ops := st.ops[s := [kind]]), None)
  }

  lemma CodeDecidesHere(st: State, s: SockId, sends: seq<(Endpoint, Handler)>, code: int)
    requires JustDone(st, s, ReadBody)
    ensures var st' := HandleReadBodyCode(st, s, false, sends, code);
      && (code < 0 ==> Closed(st', s))
      && (code == 1 ==> s in st'.socks && Idle(st'.socks, s) && s in ListOf(st'.lists, st.socks[s].ep))
  {
    var before := st.(ops := st.ops[s := [ReadBody]]);
    assert before.ops[s := []] == st.ops;
    assert Popped(before, s) == st;
    CodeDecides(before, s, sends, code);
  }

  /** An assertion fails in the read handler exactly when a callback that was called returned a server's code. */
  lemma CodeFaultsIff(st: State, s: SockId, error: bool, sends: seq<(Endpoint, Handler)>, code: int)
    requires Inv(st, None) && s in st.socks && Pending(st, s) == [ReadBody]
    ensures HandleReadBodyCode(Popped(st, s), s, error, sends, code).faulted <==> !error && 0 <= code != 1
  {
    HandleInv(st, s, ReadBody, error, sends, code == 1);
    HandOverSocks(st, s);
  }

  /** A pending operation is the only one of its connection, and the connection is live. */
  lemma OnlyPending(st: State, s: SockId, i: nat)
    requires Core(st, None) && i < |Pending(st, s)|
    ensures s in st.socks && Pending(st, s) == [Pending(st, s)[i]]
    ensures i == 0
  {
    assert s in st.socks && SockOk(st, None, s);
  }

  lemma NextIsHandle(st: State, s: SockId, kind: Kind, error: bool, sends: seq<(Endpoint, Handler)>, ok: bool)
    requires s in st.socks && Pending(st, s) == [kind]
    ensures Next(st, Completes(s, 0, error, sends, ok)) == Handle(Popped(st, s), s, kind, error, sends, ok)
  {
    assert Pending(st, s)[..0] + Pending(st, s)[1..] == [];
  }

  lemma CompletesInv(st: State, s: SockId, i: nat, error: bool, sends: seq<(Endpoint, Handler)>, ok: bool)
    requires Inv(st, None) && i < |Pending(st, s)|
    ensures Inv(Next(st, Completes(s, i, error, sends, ok)), None)
  {
    OnlyPending(st, s, i);
    var kind := Pending(st, s)[i];
    NextIsHandle(st, s, kind, error, sends, ok);
    HandleInv(st, s, kind, error, sends, ok);
  }

  /** No ToWriteThenClose of a client finds an idle connection. */
  predicate CloseFindsNone(st: State, ev: Event) {
    ev.Closes? ==> FirstIdle(st.socks, ListOf(st.lists, ev.ep)) == None
  }

  predicate ClosesFindNone(st: State, evs: seq<Event>)
    decreases |evs|
  {
    evs == [] || (CloseFindsNone(st, evs[0]) && ClosesFindNone(Next(st, evs[0]), evs[1..]))
  }

  lemma NextInv(st: State, ev: Event)
    requires Inv(st, None) && CloseFindsNone(st, ev)
    ensures Inv(Next(st, ev), None)
  {
    match ev
    case Sends(ep, cb) => SendInv(st, None, ep, cb);
    case Closes(ep) =>
    case Completes(s, i, error, sends, ok) =>
      if i < |Pending(st, s)| { CompletesInv(st, s, i, error, sends, ok); }
  }

  lemma {:induction false} RunInv(st: State, evs: seq<Event>)
    requires Inv(st, None) && ClosesFindNone(st, evs)
    ensures Inv(Run(st, evs), None)
    decreases |evs|
  {
    if evs != [] {
      NextInv(st, evs[0]);
      RunInv(Next(st, evs[0]), evs[1..]);
    }
  }

  // ---------- theorems about every run ----------

  lemma EveryRunInv(evs: seq<Event>)
    requires ClosesFindNone(Init, evs)
    ensures Inv(Run(Init, evs), None)
  {
    InitInv();
    RunInv(Init, evs);
  }

  /** A connecting or in-use connection has exactly one pending operation, an idle one has none,
      and no assertion about `in_use` ever fails. */
  lemma OneOperationPerRequest(evs: seq<Event>, s: SockId)
    requires ClosesFindNone(Init, evs) && s in Run(Init, evs).socks
    ensures var st := Run(Init, evs);
      && !st.faulted
      && |Pending(st, s)| == (if st.socks[s].inUse || !st.socks[s].connected then 1 else 0)
      && |WireOf(st, s)| <= 1
  {
    EveryRunInv(evs);
    assert SockOk(Run(Init, evs), None, s);
  }

  /** Each reply goes to the callback given with the request last written on its connection, unless
      none was given: then the callback left over on the reused connection gets it. */
  lemma ReplyGoesToChosen(evs: seq<Event>, i: nat)
    requires ClosesFindNone(Init, evs) && i < |Run(Init, evs).done|
    ensures var d := Run(Init, evs).done[i];
      && d.used == Chosen(d.req)
      && (d.used == d.req.cb <==> d.req.cb.Some? || d.req.found.None?)
  {
    EveryRunInv(evs);
  }

  /** Every request issued is on one connection, or answered once, or lost; never two of these. */
  lemma OneFatePerRequest(evs: seq<Event>, id: nat)
    requires ClosesFindNone(Init, evs) && id < Run(Init, evs).nextReq
    ensures var st := Run(Init, evs);
      && id in st.fate
      && (forall i :: 0 <= i < |st.done| ==> (st.done[i].req.id == id <==> st.fate[id] == Answered(i)))
      && (forall s :: s in st.socks && (st.socks[s].inUse || !st.socks[s].connected) ==>
            (st.socks[s].sendBuf.id == id <==> st.fate[id] == OnSock(s)))
      && (st.fate[id].OnSock? ==> st.fate[id].s in st.socks)
      && (st.fate[id].Answered? ==> st.fate[id].i < |st.done|)
  {
    EveryRunInv(evs);
    var st := Run(Init, evs);
    forall s | s in st.socks && (st.socks[s].inUse || !st.socks[s].connected)
      ensures st.socks[s].sendBuf.id == id <==> st.fate[id] == OnSock(s)
    {
      assert SockOk(st, None, s);
    }
  }

  /** A destroyed connection leaves no operation, no reply to come and no list entry, however often it was inserted. */
  lemma NoStaleConnection(evs: seq<Event>, s: SockId, ep: Endpoint)
    requires ClosesFindNone(Init, evs) && s !in Run(Init, evs).socks
    ensures var st := Run(Init, evs);
      Pending(st, s) == [] && WireOf(st, s) == [] && s !in ListOf(st.lists, ep)
  {
    EveryRunInv(evs);
    Gone(Run(Init, evs), s, ep);
  }

  lemma Gone(st: State, s: SockId, ep: Endpoint)
    requires NothingDangling(st) && ListsOk(st.socks, st.lists) && s !in st.socks
    ensures Pending(st, s) == [] && WireOf(st, s) == [] && s !in ListOf(st.lists, ep)
  {
  }

  const Ok := (s: SockId) => Completes(s, 0, false, [], true)

  /** From written to answered, with no failure and no further sends. */
  lemma RoundTrip(st: State, s: SockId)
    requires s in st.socks && st.socks[s].inUse && Pending(st, s) == [Write] && WireOf(st, s) == []
    ensures var st' := Next(Next(Next(st, Ok(s)), Ok(s)), Ok(s));
      && st'.done == st.done + [Done(st.socks[s].sendBuf, st.socks[s].cb)]
      && st'.socks == st.socks[s := st.socks[s].(inUse := false)]
      && st'.lists == st.lists && Pending(st', s) == [] && WireOf(st', s) == []
  {
    NextIsHandle(st, s, Write, false, [], true);
    var st1 := Next(st, Ok(s));
    NextIsHandle(st1, s, ReadLen, false, [], true);
    var st2 := Next(st1, Ok(s));
    NextIsHandle(st2, s, ReadBody, false, [], true);
  }

  /** ToWriteThenRead on a connection that once carried a callback: the old callback gets the reply. */
  lemma StaleCallback(st: State, ep: Endpoint, s: SockId)
    requires FirstIdle(st.socks, ListOf(st.lists, ep)) == Some(s)
    requires st.socks[s].cb.Some? && Pending(st, s) == [] && WireOf(st, s) == []
    ensures var st' := Next(Next(Next(Next(st, Sends(ep, None)), Ok(s)), Ok(s)), Ok(s));
      && |st'.done| == |st.done| + 1
      && st'.done[|st.done|].req.cb == None
      && st'.done[|st.done|].used == st.socks[s].cb
  {
    RoundTrip(Next(st, Sends(ep, None)), s);
  }

  lemma FirstConnect(st: State, ep: Endpoint, cb: Handler, s: SockId)
    requires ListOf(st.lists, ep) == [] && s == st.nextSock && Pending(st, s) == [] && WireOf(st, s) == []
    ensures var st2 := Next(Next(st, Sends(ep, cb)), Ok(s));
      && s in st2.socks && st2.socks[s].inUse && st2.socks[s].connected && st2.socks[s].cb == cb
      && Pending(st2, s) == [Write] && WireOf(st2, s) == [] && ListOf(st2.lists, ep) == [s, s]
  {
    var st1 := ConnectThenWrite(st, ep, cb);
    assert st1 == Next(st, Sends(ep, cb)) && Pending(st1, s) == [Connect];
    NextIsHandle(st1, s, Connect, false, [], true);
  }

  /** A first request on a new connection. */
  lemma FirstRoundTrip(st: State, ep: Endpoint, cb: Handler, s: SockId)
    requires ListOf(st.lists, ep) == [] && s == st.nextSock && Pending(st, s) == [] && WireOf(st, s) == []
    ensures var st' := Next(Next(Next(Next(Next(st, Sends(ep, cb)), Ok(s)), Ok(s)), Ok(s)), Ok(s));
      && FirstIdle(st'.socks, ListOf(st'.lists, ep)) == Some(s)
      && st'.socks[s].cb == cb && Pending(st', s) == [] && WireOf(st', s) == []
  {
    FirstConnect(st, ep, cb, s);
    RoundTrip(Next(Next(st, Sends(ep, cb)), Ok(s)), s);
  }

  lemma SendThenFour(st: State, send: Event, s: SockId)
    ensures Run(st, [send, Ok(s), Ok(s), Ok(s), Ok(s)]) == Next(Next(Next(Next(Next(st, send), Ok(s)), Ok(s)), Ok(s)), Ok(s))
  {
    var evs, st1 := [send, Ok(s), Ok(s), Ok(s), Ok(s)], Next(st, send);
    RunOne(st, evs);
    RunOne(st1, evs[1..]);
    RunOne(Next(st1, Ok(s)), evs[2..]);
    RunOne(Next(Next(st1, Ok(s)), Ok(s)), evs[3..]);
    RunOne(Next(Next(Next(st1, Ok(s)), Ok(s)), Ok(s)), evs[4..]);
  }

  /** Such states occur: one answered request with callback 7 leads to one. */
  lemma StaleCallbackOccurs()
    ensures exists evs: seq<Event>, s: SockId :: var st := Run(Init, evs);
      && FirstIdle(st.socks, ListOf(st.lists, 1)) == Some(s)
      && st.socks[s].cb == Some(7) && Pending(st, s) == [] && WireOf(st, s) == []
  {
    SendThenFour(Init, Sends(1, Some(7)), 0);
    FirstRoundTrip(Init, 1, Some(7), 0);
  }

  lemma RunOne(st: State, evs: seq<Event>)
    requires evs != []
    ensures Run(st, evs) == Run(Next(st, evs[0]), evs[1..])
  {
  }

  // ---------- ToWriteThenClose ----------

  /** A connecting or in-use connection has exactly one pending operation, an idle one none. */
  ghost predicate OneOperationEach(st: State) {
    forall s :: s in st.socks ==>
      |Pending(st, s)| == if st.socks[s].inUse || !st.socks[s].connected then 1 else 0
  }

  ghost predicate Throughout(st: State, evs: seq<Event>)
    decreases |evs|
  {
    OneOperationEach(st) && (evs == [] || Throughout(Next(st, evs[0]), evs[1..]))
  }

  lemma InvOneOperation(st: State)
    requires Inv(st, None)
    ensures OneOperationEach(st)
  {
    forall s | s in st.socks
      ensures |Pending(st, s)| == if st.socks[s].inUse || !st.socks[s].connected then 1 else 0
    {
      assert SockOk(st, None, s);
    }
  }

  lemma CloseBreaks(st: State, ep: Endpoint)
    requires OneOperationEach(st) && FirstIdle(st.socks, ListOf(st.lists, ep)) != None
    ensures !OneOperationEach(Close(st, ep))
  {
    var s := FirstIdle(st.socks, ListOf(st.lists, ep)).value;
    assert Pending(st, s) == [] && Pending(Close(st, ep), s) == [WriteLast];
  }

  lemma {:induction false} ThroughoutIff(st: State, evs: seq<Event>)
    requires Inv(st, None)
    ensures Throughout(st, evs) <==> ClosesFindNone(st, evs)
    decreases |evs|
  {
    InvOneOperation(st);
    if evs != [] {
      if CloseFindsNone(st, evs[0]) {
        NextInv(st, evs[0]);
        ThroughoutIff(Next(st, evs[0]), evs[1..]);
      } else {
        CloseBreaks(st, evs[0].ep);
      }
    }
  }

  /** The pool keeps one operation per request through a whole run exactly when no ToWriteThenClose of
  a client finds an idle connection in it. */
  lemma OneOperationIff(evs: seq<Event>)
    ensures Throughout(Init, evs) <==> ClosesFindNone(Init, evs)
  {
    InitInv();
    ThroughoutIff(Init, evs);
  }

  /** After such a call the next send picks the same connection, which then has two writes pending. */
  lemma CloseThenSend(st: State, ep: Endpoint, cb: Handler, s: SockId)
    requires FirstIdle(st.socks, ListOf(st.lists, ep)) == Some(s) && Pending(st, s) == []
    ensures Pending(Next(Next(st, Closes(ep)), Sends(ep, cb)), s) == [WriteLast, Write]
  {
    IdleStays(st, Close(st, ep), ListOf(st.lists, ep), s);
  }

  lemma {:induction false} IdleStays(st: State, st': State, l: seq<SockId>, s: SockId)
    requires s in st.socks && s in st'.socks && st'.socks == st.socks[s := st'.socks[s]]
    requires st'.socks[s].inUse == st.socks[s].inUse && st'.socks[s].connected == st.socks[s].connected
    ensures FirstIdle(st'.socks, l) == FirstIdle(st.socks, l)
    decreases |l|
  {
    if l != [] { IdleStays(st, st', l[1..], s); }
  }

  /** It happens: one answered request, a close and a request leave two writes on one connection. */
  lemma TwoWritesOccur()
    ensures exists evs: seq<Event>, s: SockId :: Pending(Run(Init, evs), s) == [WriteLast, Write]
  {
    var evs: seq<Event>, s: SockId :| var st := Run(Init, evs);
      && FirstIdle(st.socks, ListOf(st.lists, 1)) == Some(s)
      && st.socks[s].cb == Some(7) && Pending(st, s) == [] && WireOf(st, s) == [] by {
      StaleCallbackOccurs();
    }
    CloseThenSend(Run(Init, evs), 1, None, s);
    RunOnward(Init, evs, [Closes(1), Sends(1, None)]);
    var st := Run(Init, evs);
    RunOne(st, [Closes(1), Sends(1, None)]);
    RunOne(Next(st, Closes(1)), [Sends(1, None)]);
    assert Pending(Run(Init, evs + [Closes(1), Sends(1, None)]), s) == [WriteLast, Write];
  }

  lemma {:induction false} RunOnward(st: State, evs: seq<Event>, more: seq<Event>)
    ensures Run(st, evs + more) == Run(Run(st, evs), more)
    decreases |evs|
  {
    if evs == [] {
      assert evs + more == more;
    } else {
      assert (evs + more)[1..] == evs[1..] + more;
      RunOnward(Next(st, evs[0]), evs[1..], more);
    }
  }

  // ---------- the write handler as written ----------

  /** skeleton.hpp:1242-1246 returns on an error without destroying the connection. */
  function HandleWriteAsWritten(st: State, s: SockId, error: bool): State
    requires s in st.socks
  {
    if error then st else HandleWrite(st, s, false)
  }

  /** In use, but with nothing pending that could ever free it. */
  ghost predicate Leaked(st: State, s: SockId) {
    s in st.socks && s < st.nextSock && st.socks[s].inUse && Pending(st, s) == []
  }

  lemma InUsePending(st: State, s: SockId)
    ensures Inv(st, None) && s in st.socks && st.socks[s].inUse ==> Pending(st, s) != []
  {
    if Inv(st, None) && s in st.socks { assert SockOk(st, None, s); }
  }

  /** As written the handler leaks the connection exactly when the write failed. */
  lemma WriteErrorLeaksIff(st: State, s: SockId, error: bool)
    requires Inv(st, None) && s in st.socks && Pending(st, s) == [Write]
    ensures Leaked(HandleWriteAsWritten(Popped(st, s), s, error), s) <==> error
    ensures Inv(HandleWriteAsWritten(Popped(st, s), s, error), None) <==> !error
  {
    assert SockOk(st, None, s);
    if error { InUsePending(HandleWriteAsWritten(Popped(st, s), s, error), s); }
    else { WrittenCore(st, s); }
  }

  lemma SendLeaves(st: State, s: SockId, ep: Endpoint, cb: Handler)
    requires Leaked(st, s)
    ensures Leaked(Send(st, ep, cb), s)
  {
  }

  lemma {:induction false} SendAllLeaves(st: State, s: SockId, sends: seq<(Endpoint, Handler)>)
    requires Leaked(st, s)
    ensures Leaked(SendAll(st, sends), s)
    decreases |sends|
  {
    if sends != [] {
      SendLeaves(st, s, sends[0].0, sends[0].1);
      SendAllLeaves(Send(st, sends[0].0, sends[0].1), s, sends[1..]);
    }
  }

  lemma ReadBodyLeaves(st: State, s: SockId, t: SockId, sends: seq<(Endpoint, Handler)>, ok: bool)
    requires Leaked(st, s) && t in st.socks && t != s
    ensures Leaked(HandleReadBody(st, t, false, sends, ok), s)
  {
    if WireOf(st, t) != [] { SendAllLeaves(HandOver(st, t), s, sends); }
  }

  lemma HandleLeaves(st: State, s: SockId, t: SockId, kind: Kind, error: bool,
                     sends: seq<(Endpoint, Handler)>, ok: bool)
    requires Leaked(st, s) && t in st.socks && t != s
    ensures Leaked(Handle(st, t, kind, error, sends, ok), s)
  {
    if kind.ReadBody? && !error { ReadBodyLeaves(st, s, t, sends, ok); }
  }

  /** The pool with this handler in place of the repaired one. */
  function HandleAsWritten(st: State, s: SockId, kind: Kind, error: bool, sends: seq<(Endpoint, Handler)>, ok: bool): State
    requires s in st.socks
  {
    if kind.Write? then HandleWriteAsWritten(st, s, error) else Handle(st, s, kind, error, sends, ok)
  }

  function NextAsWritten(st: State, ev: Event): State {
    match ev
    case Sends(ep, cb) => Send(st, ep, cb)
    case Closes(ep) => Close(st, ep)
    case Completes(s, i, error, sends, ok) =>
      if i >= |Pending(st, s)| then st
      else
        var kind := Pending(st, s)[i];
        var st1 := st.(ops := st.ops[s := Pending(st, s)[..i] + Pending(st, s)[i + 1..]]);
        if s !in st.socks then st1.(faulted := true) else HandleAsWritten(st1, s, kind, error, sends, ok)
  }

  function RunAsWritten(st: State, evs: seq<Event>): State
    decreases |evs|
  {
    if evs == [] then st else RunAsWritten(NextAsWritten(st, evs[0]), evs[1..])
  }

  lemma CloseLeaves(st: State, s: SockId, ep: Endpoint)
    requires Leaked(st, s)
    ensures Leaked(Close(st, ep), s)
  {
  }

  lemma CompletesLeaves(st: State, s: SockId, t: SockId, i: nat, error: bool, sends: seq<(Endpoint, Handler)>, ok: bool)
    requires Leaked(st, s)
    ensures Leaked(NextAsWritten(st, Completes(t, i, error, sends, ok)), s)
  {
    if i < |Pending(st, t)| && t in st.socks {
      var st1 := st.(ops := st.ops[t := Pending(st, t)[..i] + Pending(st, t)[i + 1..]]);
      HandleLeaves(st1, s, t, Pending(st, t)[i], error, sends, ok);
    }
  }

  lemma NextLeaves(st: State, s: SockId, ev: Event)
    requires Leaked(st, s)
    ensures Leaked(NextAsWritten(st, ev), s)
  {
    match ev
    case Sends(ep, cb) => SendLeaves(st, s, ep, cb);
    case Closes(ep) => CloseLeaves(st, s, ep);
    case Completes(t, i, error, sends, ok) => CompletesLeaves(st, s, t, i, error, sends, ok);
  }

  /** In the pool as written a leaked connection is never closed and never used again. */
  lemma {:induction false} LeakedForever(st: State, s: SockId, evs: seq<Event>)
    requires Leaked(st, s)
    ensures Leaked(RunAsWritten(st, evs), s)
    decreases |evs|
  {
    if evs != [] {
      NextLeaves(st, s, evs[0]);
      LeakedForever(NextAsWritten(st, evs[0]), s, evs[1..]);
    }
  }

  /** No ToWriteThenClose finds an idle connection, and no write completes with an error. */
  predicate StepHarmless(st: State, ev: Event) {
    && CloseFindsNone(st, ev)
    && (ev.Completes? && ev.i < |Pending(st, ev.s)| && Pending(st, ev.s)[ev.i].Write? ==> !ev.error)
  }

  predicate Harmless(st: State, evs: seq<Event>)
    decreases |evs|
  {
    evs == [] || (StepHarmless(st, evs[0]) && Harmless(NextAsWritten(st, evs[0]), evs[1..]))
  }

  ghost predicate ThroughoutAsWritten(st: State, evs: seq<Event>)
    decreases |evs|
  {
    OneOperationEach(st) && (evs == [] || ThroughoutAsWritten(NextAsWritten(st, evs[0]), evs[1..]))
  }

  lemma HarmlessStep(st: State, ev: Event)
    requires StepHarmless(st, ev)
    ensures NextAsWritten(st, ev) == Next(st, ev)
  {
  }

  /** A write that completes with an error leaves a connection in use with nothing pending. */
  lemma WriteErrorBreaks(st: State, s: SockId, i: nat, sends: seq<(Endpoint, Handler)>, ok: bool)
    requires Inv(st, None) && i < |Pending(st, s)| && Pending(st, s)[i].Write?
    ensures Leaked(NextAsWritten(st, Completes(s, i, true, sends, ok)), s)
    ensures !OneOperationEach(NextAsWritten(st, Completes(s, i, true, sends, ok)))
  {
    OnlyPending(st, s, i);
    assert SockOk(st, None, s);
    assert Pending(st, s)[..i] + Pending(st, s)[i + 1..] == [];
    var st' := NextAsWritten(st, Completes(s, i, true, sends, ok));
    assert s in st'.socks && Pending(st', s) == [] && st'.socks[s].inUse;
  }

  lemma {:induction false} ThroughoutAsWrittenIff(st: State, evs: seq<Event>)
    requires Inv(st, None)
    ensures ThroughoutAsWritten(st, evs) <==> Harmless(st, evs)
    decreases |evs|
  {
    InvOneOperation(st);
    if evs != [] {
      var ev := evs[0];
      if StepHarmless(st, ev) {
        HarmlessStep(st, ev);
        NextInv(st, ev);
        ThroughoutAsWrittenIff(Next(st, ev), evs[1..]);
      } else if ev.Closes? {
        CloseBreaks(st, ev.ep);
      } else {
        WriteErrorBreaks(st, ev.s, ev.i, ev.sends, ev.ok);
      }
    }
  }

  /** The pool as written keeps one operation per request through a whole run exactly when no write in it
  completes with an error and no ToWriteThenClose of a client finds an idle connection. */
  lemma OneOperationAsWrittenIff(evs: seq<Event>)
    ensures ThroughoutAsWritten(Init, evs) <==> Harmless(Init, evs)
  {
    InitInv();
    ThroughoutAsWrittenIff(Init, evs);
  }

  lemma ConnectWrites(st: State, s: SockId)
    requires s in st.socks && s < st.nextSock && Pending(st, s) == [Connect]
    ensures var st' := NextAsWritten(st, Completes(s, 0, false, [], true));
      s in st'.socks && s < st'.nextSock && st'.socks[s].inUse && Pending(st', s) == [Write]
  {
    assert Pending(st, s)[..0] + Pending(st, s)[1..] == [];
  }

  lemma FailedWriteLeaks(st: State, s: SockId)
    requires s in st.socks && s < st.nextSock && st.socks[s].inUse && Pending(st, s) == [Write]
    ensures Leaked(NextAsWritten(st, Completes(s, 0, true, [], true)), s)
  {
    assert Pending(st, s)[..0] + Pending(st, s)[1..] == [];
  }

  lemma RunAsWrittenOne(st: State, evs: seq<Event>)
    requires evs != []
    ensures RunAsWritten(st, evs) == RunAsWritten(NextAsWritten(st, evs[0]), evs[1..])
  {
  }

  /** A send, a connect and a failed write leak the first connection. */
  lemma LeakOccurs()
    ensures exists evs: seq<Event>, s: SockId :: Leaked(RunAsWritten(Init, evs), s)
  {
    var a, b, c := Sends(1, None), Completes(0, 0, false, [], true), Completes(0, 0, true, [], true);
    var st1 := NextAsWritten(Init, a);
    assert st1 == ConnectThenWrite(Init, 1, None);
    ConnectWrites(st1, 0);
    var st2 := NextAsWritten(st1, b);
    FailedWriteLeaks(st2, 0);
    var evs := [a] + ([b] + [c]);
    assert evs[1..] == [b] + [c] && ([b] + [c])[1..] == [c] && [c][1..] == [];
    RunAsWrittenOne(Init, evs);
    RunAsWrittenOne(st1, [b] + [c]);
    RunAsWrittenOne(st2, [c]);
    assert Leaked(RunAsWritten(Init, evs), 0);
  }

  // ---------- progress ----------

  function Weight(k: Kind): nat {
    match k case Connect => 4 case Write => 3 case ReadLen => 2 case ReadBody => 1 case WriteLast => 1
  }

  function Weights(ks: seq<Kind>): nat {
    if ks == [] then 0 else Weight(ks[0]) + Weights(ks[1..])
  }

  /** What is pending on the first `n` connections. */
  function Work(st: State, n: nat): nat {
    if n == 0 then 0 else Weights(Pending(st, n - 1)) + Work(st, n - 1)
  }

  lemma {:induction false} WorkChanges(st: State, st': State, n: nat, s: SockId)
    requires forall t :: t != s ==> Pending(st', t) == Pending(st, t)
    ensures Work(st', n) == Work(st, n) + if s < n then Weights(Pending(st', s)) - Weights(Pending(st, s)) else 0
  {
    if n > 0 { WorkChanges(st, st', n - 1, s); }
  }

  /** A completion handler without further sends starts at most the next operation of its own connection. */
  lemma HandleStarts(st: State, s: SockId, kind: Kind, error: bool, ok: bool)
    requires s in st.socks && Pending(st, s) == []
    ensures var st' := Handle(st, s, kind, error, [], ok);
      && st'.nextSock == st.nextSock
      && (forall t :: t != s ==> Pending(st', t) == Pending(st, t))
      && |Pending(st', s)| <= 1 && (Pending(st', s) != [] ==> Weight(Pending(st', s)[0]) < Weight(kind))
  {
  }

  lemma WeightsOne(ks: seq<Kind>)
    requires |ks| == 1
    ensures Weights(ks) == Weight(ks[0])
  {
    assert ks[1..] == [];
  }

  /** A completion of a pending operation. */
  predicate Real(st: State, ev: Event) {
    ev.Completes? && ev.sends == [] && ev.i < |Pending(st, ev.s)|
  }

  lemma HandleWorks(st: State, s: SockId, kind: Kind, error: bool, ok: bool)
    requires s in st.socks && s < st.nextSock && Pending(st, s) == [kind]
    ensures var st' := Handle(Popped(st, s), s, kind, error, [], ok);
      st'.nextSock == st.nextSock && Work(st', st.nextSock) < Work(st, st.nextSock)
  {
    HandleStarts(Popped(st, s), s, kind, error, ok);
    var st' := Handle(Popped(st, s), s, kind, error, [], ok);
    WeightsOne(Pending(st, s));
    if Pending(st', s) != [] { WeightsOne(Pending(st', s)); }
    WorkChanges(st, st', st.nextSock, s);
  }

  lemma StepWorks(st: State, ev: Event)
    requires Inv(st, None) && Real(st, ev)
    ensures Next(st, ev).nextSock == st.nextSock && Work(Next(st, ev), st.nextSock) < Work(st, st.nextSock)
  {
    OnlyPending(st, ev.s, ev.i);
    var kind := Pending(st, ev.s)[ev.i];
    NextIsHandle(st, ev.s, kind, ev.error, [], ev.ok);
    HandleWorks(st, ev.s, kind, ev.error, ev.ok);
  }

  ghost predicate AllReal(st: State, evs: seq<Event>)
    decreases |evs|
  {
    evs == [] || (Real(st, evs[0]) && AllReal(Next(st, evs[0]), evs[1..]))
  }

  /** Without new requests the pool comes to rest: each completion uses up some of the work pending. */
  lemma {:induction false} RunsAreBounded(st: State, evs: seq<Event>)
    requires Inv(st, None) && AllReal(st, evs)
    ensures |evs| <= Work(st, st.nextSock)
    decreases |evs|
  {
    if evs != [] {
      StepWorks(st, evs[0]);
      NextInv(st, evs[0]);
      RunsAreBounded(Next(st, evs[0]), evs[1..]);
    }
  }

  /** Where nothing is pending, every request was answered or lost. */
  lemma RestMeansSettled(evs: seq<Event>, id: nat)
    requires ClosesFindNone(Init, evs) && id < Run(Init, evs).nextReq
    requires forall s :: Pending(Run(Init, evs), s) == []
    ensures var st := Run(Init, evs); id in st.fate && (st.fate[id].Answered? || st.fate[id].Lost?)
  {
    EveryRunInv(evs);
    Settled(Run(Init, evs), id);
  }

  lemma OnSockPending(st: State, id: nat)
    requires Inv(st, None) && id in st.fate
    ensures st.fate[id].OnSock? ==> Pending(st, st.fate[id].s) != []
  {
    if st.fate[id].OnSock? { assert SockOk(st, None, st.fate[id].s); }
  }

  lemma Settled(st: State, id: nat)
    requires Inv(st, None) && id < st.nextReq && forall s :: Pending(st, s) == []
    ensures id in st.fate && (st.fate[id].Answered? || st.fate[id].Lost?)
  {
    OnSockPending(st, id);
  }

  // ---------- the skeleton object ----------

  /** The pool's fields; `ops`, `wire`, `done` and `fate` stand for the asio service, the peers and the history. */
  class Skeleton {
    var socks: map<SockId, Sock>
    var lists: map<Endpoint, seq<SockId>>
    var ops: map<SockId, seq<Kind>>
    var wire: map<SockId, seq<Req>>
    var nextSock: SockId
    var nextReq: nat
    var done: seq<Done>
    var fate: map<nat, Fate>
    var faulted: bool

    ghost function Model(): State
      reads this
    {
      State(socks, lists, ops, wire, nextSock, nextReq, done, fate, faulted)
    }

    constructor ()
      ensures Model() == Init
    {
      socks, lists, ops, wire := map[], map[], map[], map[];
      nextSock, nextReq, done, fate, faulted := 0, 0, [], map[], false;
    }

    method FindIdleTCPClientSocket(ep: Endpoint) returns (r: Option<SockId>)
      ensures r == FirstIdle(socks, ListOf(lists, ep))
    {
      if ep !in lists { return None; }
      var l := lists[ep];
      var i := 0;
      while i < |l|
        invariant 0 <= i <= |l| && FirstIdle(socks, l) == FirstIdle(socks, l[i..])
      {
        if l[i] in socks && !socks[l[i]].inUse && socks[l[i]].connected { return Some(l[i]); }
        i := i + 1;
      }
      return None;
    }

    method InsertTCPClientSocket(ep: Endpoint, s: SockId)
      modifies this`lists
      ensures Model() == old(Model()).(lists := Insert(old(lists), ep, s))
      ensures ListOf(lists, ep) == ListOf(old(lists), ep) + [s]
    {
      lists := if ep in lists then lists[ep := lists[ep] + [s]] else lists[ep := [s]];
      assert [] + [s] == [s];
    }

    /** std::list::remove. */
    method ListRemove(l: seq<SockId>, s: SockId) returns (kept: seq<SockId>)
      ensures kept == Without(l, s)
    {
      kept := [];
      var i := 0;
      while i < |l|
        invariant 0 <= i <= |l| && kept + Without(l[i..], s) == Without(l, s)
      {
        if l[i] != s { kept := kept + [l[i]]; }
        i := i + 1;
      }
    }

    method DestroySocket(s: SockId)
      requires s in socks
      modifies this
      ensures Model() == Destroy(old(Model()), s)
      ensures old(ListsOk(socks, lists)) ==> Closed(Model(), s)
    {
      ghost var st := Model();
      if ListsOk(socks, lists) { DestroyCloses(st, s); }
      var ep := socks[s].ep;
      if ep in lists {
        var kept := ListRemove(lists[ep], s);
        lists := lists[ep := kept];
      }
      socks := socks - {s};
      wire := wire - {s};
    }

    method Abandon(s: SockId)
      requires s in socks
      modifies this
      ensures Model() == Fail(old(Model()), s)
      ensures old(ListsOk(socks, lists)) ==> Closed(Model(), s)
    {
      var id := socks[s].sendBuf.id;
      DestroySocket(s);
      fate := fate[id := Lost];
    }

    method AsyncStart(s: SockId, k: Kind)
      modifies this`ops
      ensures Model() == old(Model()).(ops := Start(old(Model()), s, k))
    {
      ops := ops[s := (if s in ops then ops[s] else []) + [k]];
    }

    method ToConnectThenWrite(ep: Endpoint, cb: Handler)
      modifies this
      ensures Model() == ConnectThenWrite(old(Model()), ep, cb)
    {
      var s := nextSock;
      socks := socks[s := Sock(ep, false, false, cb, Req(nextReq, ep, cb, None))];
      fate := fate[nextReq := OnSock(s)];
      nextSock, nextReq := s + 1, nextReq + 1;
      ghost var st := Model();
      InsertTCPClientSocket(ep, s);
      AsyncStart(s, Connect);
      assert Model() == st.(lists := Insert(st.lists, ep, s), ops := Start(st, s, Connect));
    }

    method ToWriteThenRead(s: SockId, req: Req)
      requires s in socks
      modifies this
      ensures Model() == WriteThenRead(old(Model()), s, req)
    {
      if socks[s].inUse { faulted := true; }
      socks := socks[s := socks[s].(inUse := true, sendBuf := req)];
      fate := fate[req.id := OnSock(s)];
      nextReq := nextReq + 1;
      AsyncStart(s, Write);
    }

    /** ToWriteThenCallBack with a callback, ToWriteThenRead by endpoint without one. */
    method ToWrite(ep: Endpoint, cb: Handler)
      modifies this
      ensures Model() == Send(old(Model()), ep, cb)
    {
      var found := FindIdleTCPClientSocket(ep);
      match found
      case None => ToConnectThenWrite(ep, cb);
      case Some(s) =>
        var req := Req(nextReq, ep, cb, socks[s].cb);
        if cb.Some? { socks := socks[s := socks[s].(cb := cb)]; }
        ToWriteThenRead(s, req);
    }

    method HandleConnectThenWrite(s: SockId, error: bool)
      requires s in socks
      modifies this
      ensures Model() == HandleConnect(old(Model()), s, error)
      ensures error && old(ListsOk(socks, lists)) ==> Closed(Model(), s)
    {
      if error { Abandon(s); return; }
      if socks[s].inUse { faulted := true; }
      socks := socks[s := socks[s].(connected := true, inUse := true)];
      InsertTCPClientSocket(socks[s].ep, s);
      AsyncStart(s, Write);
    }

    method HandleWriteThenReadL(s: SockId, error: bool)
      requires s in socks
      modifies this
      ensures Model() == HandleWrite(old(Model()), s, error)
      ensures error && old(ListsOk(socks, lists)) ==> Closed(Model(), s)
    {
      if error { Abandon(s); return; }
      wire := wire[s := (if s in wire then wire[s] else []) + [socks[s].sendBuf]];
      AsyncStart(s, ReadLen);
    }

    /** `len` is the length field. */
    method HandleReadLThenReadV(s: SockId, error: bool, len: int, maxRecvBufSize: int)
      requires s in socks
      modifies this
      ensures Model() == HandleReadLen(old(Model()), s, error || len > maxRecvBufSize)
      ensures (error || len > maxRecvBufSize) && old(ListsOk(socks, lists)) ==> Closed(Model(), s)
    {
      if error { Abandon(s); return; }
      if len > maxRecvBufSize { Abandon(s); return; }
      AsyncStart(s, ReadBody);
    }

    /** `sends` are the requests the callback issues, `code` is what it returns. */
    method HandleReadVThenProcess(s: SockId, error: bool, sends: seq<(Endpoint, Handler)>, code: int)
      requires s in socks
      modifies this
      ensures Model() == HandleReadBodyCode(old(Model()), s, error, sends, code)
      ensures error && old(ListsOk(socks, lists)) ==> Closed(Model(), s)
      ensures code < 0 && old(JustDone(Model(), s, ReadBody)) ==> Closed(Model(), s)
      ensures !error && code == 1 && old(JustDone(Model(), s, ReadBody)) ==>
        s in socks && socks[s].connected && !socks[s].inUse && s in ListOf(lists, old(socks[s].ep))
    {
      if JustDone(Model(), s, ReadBody) { CodeDecidesHere(Model(), s, sends, code); }
      if error { Abandon(s); return; }
      if s !in wire || wire[s] == [] { faulted := true; return; }
      CallBack(s, sends);
      if code < 0 {
        if s !in socks { faulted := true; } else { DestroySocket(s); }
      } else if code == 1 {
        if s !in socks { faulted := true; return; }
        if !socks[s].inUse { faulted := true; }
        socks := socks[s := socks[s].(inUse := false)];
      } else {
        faulted := true;
      }
    }

    /** The reply goes to the callback, which may send. */
    method CallBack(s: SockId, sends: seq<(Endpoint, Handler)>)
      requires s in socks && WireOf(Model(), s) != []
      modifies this
      ensures Model() == SendAll(HandOver(old(Model()), s), sends)
    {
      var req := wire[s][0];
      wire := wire[s := wire[s][1..]];
      fate := fate[req.id := Answered(|done|)];
      done := done + [Done(req, socks[s].cb)];
      ghost var st := Model();
      var i := 0;
      while i < |sends|
        invariant 0 <= i <= |sends| && SendAll(Model(), sends[i..]) == SendAll(st, sends)
      {
        ToWrite(sends[i].0, sends[i].1);
        i := i + 1;
      }
    }

    /** ToWriteThenClose for a client; -1 when there is no idle connection. */
    method ToWriteThenClose(ep: Endpoint) returns (ret: int)
      modifies this
      ensures Model() == Close(old(Model()), ep)
      ensures ret == if FirstIdle(old(socks), ListOf(old(lists), ep)) == None then -1 else 0
    {
      var found := FindIdleTCPClientSocket(ep);
      if found.None? { return -1; }
      var s := found.value;
      var req := Req(nextReq, ep, None, socks[s].cb);
      socks := socks[s := socks[s].(sendBuf := req)];
      fate := fate[req.id := OnSock(s)];
      nextReq := nextReq + 1;
      AsyncStart(s, WriteLast);
      return 0;
    }

    /** Its completion closes the connection, whether or not the write failed. */
    method HandleWriteThenClose(s: SockId)
      requires s in socks
      modifies this
      ensures Model() == Handle(old(Model()), s, WriteLast, false, [], true)
      ensures old(ListsOk(socks, lists)) ==> Closed(Model(), s)
    {
      Abandon(s);
    }
  }
}
