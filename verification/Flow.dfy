/**
  Why offloading comes to an end.  Uncomputed jobs flow between the two `job_todo` queues; if every offload is
  decided against the peer's true queue size, a potential of the flow falls with every job pulled to be offloaded
  and never rises, whatever the threads do in between.
 */
module Flow {
  import opened Wrappers
  import opened Protocol
  import opened Ownership
  import opened Invariant
  import opened Progress

  // ---------- uncomputed jobs on their way ----------

  /** The pulls an offload loop has yet to make. */
  function LeftOf<V>(r: Reader<V>): nat {
    match r
    case ROffer(left) => left
    case ROfferHand(_, rest) => rest
    case _ => 0
  }

  /** The ids on the wire to the server. */
  function Carried<V>(inbox: seq<Frame<V>>): nat {
    if inbox == [] then 0 else Bit(inbox[0].Data? || inbox[0].StopMsg?) + Carried(inbox[1..])
  }

  /** The jobs on the wire back to the client. */
  function Returning<V>(n: nat, inbox: seq<Frame<V>>): nat {
    if inbox == [] then 0 else Bit(inbox[0].Data? && inbox[0].id >= n) + Returning(n, inbox[1..])
  }

  /** What the client holds on its way to its own queue, the reader's final sentinel included. */
  function Homeward<V>(n: nat, c: Node<V>): nat {
    Returning(n, c.inbox) + Bit(c.reader.RBack?) + Bit(!(c.reader.RStop? || c.reader.RStuck?))
  }

  /** What the client holds on its way to the server's queue, client main's final sentinel included. */
  function Outward<V>(c: Node<V>): nat {
    |c.tosend| + Bit(c.writer.WSend?) + Bit(!c.worker.MStop?) + Bit(c.reader.ROfferHand?)
  }

  /** What the server holds on its way to its queue. */
  function Arriving<V>(v: Node<V>): nat {
    Carried(v.inbox) + Bit(v.reader.RGot? || v.reader.RCopy? || v.reader.RStored? || v.reader.RGotStop?)
  }

  /** Each queue without the pulls still to be made from it, and each queue as it will be when all that is on its
      way has arrived. */
  datatype Tide = Tide(client: int, server: int, clientEnd: int, serverEnd: int, left: int)

  function TideOf<V>(n: nat, s: Sys<V>): Tide {
    var c, v := s.client, s.server;
    var a, b := |c.todo| - LeftOf(c.reader), |v.todo| - LeftOf(v.reader);
    Tide(a, b,
         a + Homeward(n, c) + Bit(v.reader.ROfferHand?) + LeftOf(v.reader),
         b + Outward(c) + Arriving(v) + LeftOf(c.reader),
         LeftOf(c.reader) + LeftOf(v.reader))
  }

  // ---------- the potential ----------

  /** All that can still come to rest in a queue. */
  function Volume(t: Tide): int { t.clientEnd + t.serverEnd }

  function Lower(t: Tide): int { if t.client <= t.server then t.client else t.server }

  /** The end size of the queue that is higher by three or more: only that side can decide to offload. */
  function Slope(top: nat, t: Tide): int {
    if t.client >= t.server + 3 then t.clientEnd + top
    else if t.server >= t.client + 3 then t.serverEnd + top
    else 3 * top + 1
  }

  ghost predicate Within(top: nat, t: Tide) {
    && 0 <= Volume(t) <= top && Lower(t) <= top
    && 0 - top <= t.clientEnd <= 2 * top && 0 - top <= t.serverEnd <= 2 * top
  }

  function Potential(top: nat, t: Tide): int {
    (6 * top + 4) * Volume(t) + (3 * top + 2) * (top - Lower(t)) + Slope(top, t) + t.left
  }

  lemma Scale(k: nat, d: int)
    ensures d >= 1 ==> k * d >= k
    ensures d >= 0 ==> k * d >= 0
    ensures d >= -1 ==> k * d >= 0 - k
  {
    if d >= 1 { assert k * d == k * (d - 1) + k; }
  }

  lemma Weigh(top: nat, t: Tide, u: Tide)
    ensures Potential(top, t) - Potential(top, u) ==
      (6 * top + 4) * (Volume(t) - Volume(u)) + (3 * top + 2) * (Lower(u) - Lower(t))
      + Slope(top, t) - Slope(top, u) + t.left - u.left
  {
    hide Volume, Lower, Slope;
    var k, m := 6 * top + 4, 3 * top + 2;
    assert k * (Volume(t) - Volume(u)) == k * Volume(t) - k * Volume(u);
    assert m * (Lower(u) - Lower(t)) == m * (top - Lower(t)) - m * (top - Lower(u));
  }

  /** A step that pulls nothing and decides nothing. */
  ghost predicate Drifts(t: Tide, u: Tide) {
    u.client >= t.client && u.server >= t.server && u.clientEnd <= t.clientEnd && u.serverEnd <= t.serverEnd
    && u.left == t.left
  }

  /** A worker pulls a job. */
  ghost predicate Drains(t: Tide, u: Tide) {
    && u.left == t.left
    && (u == t.(client := t.client - 1, clientEnd := t.clientEnd - 1)
        || u == t.(server := t.server - 1, serverEnd := t.serverEnd - 1))
  }

  /** A node decides to offload k jobs, against a true size. */
  ghost predicate Turns(t: Tide, u: Tide, k: nat) {
    && (u == Tide(t.client - k, t.server, t.clientEnd - k, t.serverEnd + k, t.left + k)
        || u == Tide(t.client, t.server - k, t.clientEnd + k, t.serverEnd - k, t.left + k))
    && (u.client == t.client ==> u.server >= t.client + 3 && k >= 3)
    && (u.server == t.server ==> u.client >= t.server + 3 && k >= 3)
  }

  lemma DriftFalls(top: nat, t: Tide, u: Tide)
    requires Within(top, t) && Within(top, u) && Drifts(t, u)
    ensures Potential(top, u) <= Potential(top, t)
  {
    Weigh(top, t, u);
    Scale(6 * top + 4, Volume(t) - Volume(u));
    Scale(3 * top + 2, Lower(u) - Lower(t));
    hide Potential;
  }

  lemma DrainFalls(top: nat, t: Tide, u: Tide)
    requires Within(top, t) && Within(top, u) && Drains(t, u)
    ensures Potential(top, u) <= Potential(top, t)
  {
    Weigh(top, t, u);
    Scale(6 * top + 4, Volume(t) - Volume(u));
    Scale(3 * top + 2, Lower(u) - Lower(t));
    hide Potential;
  }

  lemma TurnKeeps(top: nat, t: Tide, u: Tide, k: nat)
    requires Turns(t, u, k)
    ensures Potential(top, u) == Potential(top, t)
  {
    Weigh(top, t, u);
    hide Potential;
  }

  // ---------- one step of one node ----------

  lemma {:induction false} CarriedConcat<V>(a: seq<Frame<V>>, b: seq<Frame<V>>)
    ensures Carried(a + b) == Carried(a) + Carried(b)
  {
    if a == [] {
      assert a + b == b;
    } else {
      assert (a + b)[1..] == a[1..] + b;
      CarriedConcat(a[1..], b);
    }
  }

  lemma {:induction false} ReturningConcat<V>(n: nat, a: seq<Frame<V>>, b: seq<Frame<V>>)
    ensures Returning(n, a + b) == Returning(n, a) + Returning(n, b)
  {
    if a == [] {
      assert a + b == b;
    } else {
      assert (a + b)[1..] == a[1..] + b;
      ReturningConcat(n, a[1..], b);
    }
  }

  /** How a step of the client, or of the server, changes its own part of the tide. */
  datatype Change = Change(todo: int, left: int, toMine: int, toPeer: int)

  function ClientChange<V>(n: nat, c: Node<V>, o: Outcome<V>): Change
    requires o.Went?
  {
    Change(|o.me.todo| - |c.todo|, LeftOf(o.me.reader) - LeftOf(c.reader), Homeward(n, o.me) - Homeward(n, c),
           Outward(o.me) + Carried(o.sent) - Outward(c))
  }

  function ServerChange<V>(n: nat, v: Node<V>, o: Outcome<V>): Change
    requires o.Went?
  {
    Change(|o.me.todo| - |v.todo|, LeftOf(o.me.reader) - LeftOf(v.reader), Arriving(o.me) - Arriving(v),
           Bit(o.me.reader.ROfferHand?) + Returning(n, o.sent) - Bit(v.reader.ROfferHand?))
  }

  const STILL := Change(0, 0, 0, 0)

  /** Ids come closer to the queues; a sentinel may leave the flow. */
  ghost predicate Nears(ch: Change, sentinel: bool) {
    && ch.todo >= 0 && ch.left == 0 && ch.todo + ch.toMine <= 0 && ch.toPeer <= 0
    && (!sentinel ==> ch.todo + ch.toMine == 0 && ch.toPeer == 0)
  }

  /** The client's reader takes the sentinel off the wire, or the server's reader passes it on. */
  ghost predicate EndSeen<V>(nd: Node<V>) {
    (nd.reader.RWait? && nd.inbox != [] && nd.inbox[0].StopMsg?) || nd.reader.RGotStop?
  }

  lemma MainChange<V>(p: Params<V>, c: Node<V>, finished: nat)
    requires ClientMain(p, c, finished).Went?
    ensures ClientChange(p.n, c, ClientMain(p, c, finished)) == STILL.(todo := if c.worker.MPull? then -1 else 0)
  {
    hide Returning;
  }

  lemma ClientWriterChange<V>(p: Params<V>, c: Node<V>, finished: nat)
    requires ClientWriter(p, c, finished).Went?
    ensures ClientChange(p.n, c, ClientWriter(p, c, finished)) == STILL
  {
    hide Returning;
    OneCarried<V>();
  }

  lemma OneCarried<V>()
    ensures forall f: Frame<V> :: Carried([f]) == Bit(f.Data? || f.StopMsg?)
    ensures forall n: nat, f: Frame<V> :: Returning(n, [f]) == Bit(f.Data? && f.id >= n)
  {
  }

  lemma ServerWorkerChange<V>(p: Params<V>, v: Node<V>)
    requires ServerWorker(p, v).Went?
    ensures ServerChange(p.n, v, ServerWorker(p, v)) == STILL.(todo := if v.worker.MPull? then -1 else 0)
  {
    hide Carried;
  }

  lemma ServerWriterChange<V>(p: Params<V>, v: Node<V>)
    requires ServerWriter(p, v).Went? && (v.writer.WSend? ==> v.writer.job < p.n)
    ensures ServerChange(p.n, v, ServerWriter(p, v)) == STILL
  {
    hide Carried;
    OneCarried<V>();
  }

  lemma ClientOffloadChange<V>(p: Params<V>, c: Node<V>)
    requires Offload(p, c, RCheck).Went?
    requires c.reader.ROfferHand? ==> c.reader.job >= 0
    requires c.reader.ROffer? && c.todo != [] ==> c.todo[0] > STOP
    ensures ClientChange(p.n, c, Offload(p, c, RCheck)) ==
      if OffloadPull(c.reader) then Change(-1, -1, 0, 1) else STILL
  {
    hide Returning;
    OneCarried<V>();
  }

  lemma ServerOffloadChange<V>(p: Params<V>, v: Node<V>)
    requires Offload(p, v, RWait).Went?
    requires v.reader.ROfferHand? ==> v.reader.job >= 0
    requires v.reader.ROffer? && v.todo != [] ==> v.todo[0] > STOP
    ensures ServerChange(p.n, v, Offload(p, v, RWait)) ==
      if OffloadPull(v.reader) then Change(-1, -1, 0, 1) else STILL
  {
    hide Carried;
    OneCarried<V>();
  }

  /** A state frame makes the reader start an offload loop. */
  ghost predicate Decides<V>(p: Params<V>, me: Node<V>, home: Reader<V>) {
    me.reader.RWait? && me.inbox != [] && me.inbox[0].StateMsg? &&
    OnState(p.policy, me, me.inbox[0].num, home).reader.ROffer?
  }

  /** What a reader decides from a size. */
  lemma Decision<V>(p: Params<V>, me: Node<V>, num: int, home: Reader<V>)
    requires home.RCheck? || home.RWait?
    ensures var me' := OnState(p.policy, me, num, home);
      && me' == me.(reader := me'.reader, peer := me'.peer)
      && (me'.reader.ROffer? ==> |me.todo| - num >= 6 && me'.reader.left == (|me.todo| - num) / 2 >= 3)
      && (!me'.reader.ROffer? ==> me'.reader == home || me'.reader.RAsk?)
  {
  }

  lemma ClientReceiveChange<V>(p: Params<V>, c: Node<V>)
    requires c.reader.RWait? && c.inbox != [] && ToClientOk(p, c.inbox[0])
    ensures var o := Local(ClientReceive(p, c, c.inbox[0]).(inbox := c.inbox[1..]));
      var ch := ClientChange(p.n, c, o);
      if Decides(p, c, RCheck)
      then
        var k := o.me.reader.left;
        k >= 3 && |c.todo| - c.inbox[0].num >= 6 && k == (|c.todo| - c.inbox[0].num) / 2 && ch == STILL.(left := k)
      else Nears(ch, EndSeen(c))
  {
    hide OnState;
    if c.inbox[0].StateMsg? { Decision(p, c, c.inbox[0].num, RCheck); }
    assert Carried<V>([]) == 0;
  }

  lemma ServerReceiveChange<V>(p: Params<V>, v: Node<V>)
    requires v.reader.RWait? && v.inbox != [] && ToServerOk(p, v.inbox[0])
    ensures var o := Local(ServerReceive(p, v, v.inbox[0]).(inbox := v.inbox[1..]));
      var ch := ServerChange(p.n, v, o);
      if Decides(p, v, RWait)
      then
        var k := o.me.reader.left;
        k >= 3 && |v.todo| - v.inbox[0].num >= 6 && k == (|v.todo| - v.inbox[0].num) / 2 && ch == STILL.(left := k)
      else Nears(ch, EndSeen(v))
  {
    hide OnState;
    if v.inbox[0].StateMsg? { Decision(p, v, v.inbox[0].num, RWait); }
    assert Returning<V>(p.n, []) == 0;
  }

  lemma ClientDeliverChange<V>(p: Params<V>, c: Node<V>)
    requires ClientDeliver(p, c).Went?
    ensures Nears(ClientChange(p.n, c, ClientDeliver(p, c)), EndSeen(c))
  {
    hide Returning;
    assert Carried<V>([]) == 0;
  }

  lemma ClientCheckChange<V>(p: Params<V>, c: Node<V>, finished: nat)
    requires c.reader.RCheck? && ClientCheck(p, c, finished).Went?
    ensures Nears(ClientChange(p.n, c, ClientCheck(p, c, finished)), EndSeen(c))
  {
    hide Returning;
    assert Carried<V>([]) == 0;
  }

  lemma ServerDeliverChange<V>(p: Params<V>, v: Node<V>)
    requires ServerDeliver(p, v).Went?
    ensures Nears(ServerChange(p.n, v, ServerDeliver(p, v)), EndSeen(v))
  {
    hide Carried;
    assert Returning<V>(p.n, []) == 0;
  }

  lemma ManagerChange<V>(n: nat, me: Node<V>)
    ensures Manager(me).Went? && ClientChange(n, me, Manager(me)) == STILL && ServerChange(n, me, Manager(me)) == STILL
  {
    OneCarried<V>();
  }

  // ---------- one step of the system ----------

  ghost predicate Turning(ch: Change, todo: nat, num: int) {
    todo - num >= 6 && ch == STILL.(left := (todo - num) / 2)
  }

  lemma ClientReaderChange<V>(p: Params<V>, c: Node<V>, finished: nat)
    requires ClientReader(p, c, finished).Went?
    requires c.reader.RWait? && c.inbox != [] ==> ToClientOk(p, c.inbox[0])
    requires c.reader.ROfferHand? ==> c.reader.job >= 0
    requires c.reader.ROffer? && c.todo != [] ==> c.todo[0] > STOP
    ensures var ch := ClientChange(p.n, c, ClientReader(p, c, finished));
      if OffloadPull(c.reader) then ch == Change(-1, -1, 0, 1)
      else if Decides(p, c, RCheck) then Turning(ch, |c.todo|, c.inbox[0].num)
      else Nears(ch, EndSeen(c))
  {
    hide ClientChange, Offload, ClientCheck, ClientReceive, ClientDeliver, ToClientOk, OnState;
    if
    case Offloading(c.reader) => ClientOffloadChange(p, c);
    case c.reader.RCheck? => ClientCheckChange(p, c, finished);
    case c.reader.RWait? => ClientReceiveChange(p, c);
    case !Offloading(c.reader) && !c.reader.RCheck? && !c.reader.RWait? => ClientDeliverChange(p, c);
  }

  lemma ServerReaderChange<V>(p: Params<V>, v: Node<V>)
    requires ServerReader(p, v).Went? && !v.reader.RCheck?
    requires v.reader.RWait? && v.inbox != [] ==> ToServerOk(p, v.inbox[0])
    requires v.reader.ROfferHand? ==> v.reader.job >= 0
    requires v.todo != [] ==> v.todo[0] > STOP
    ensures var ch := ServerChange(p.n, v, ServerReader(p, v));
      if OffloadPull(v.reader) then ch == Change(-1, -1, 0, 1)
      else if Decides(p, v, RWait) then Turning(ch, |v.todo|, v.inbox[0].num)
      else Nears(ch, EndSeen(v))
  {
    hide ServerChange, Offload, ServerReceive, ServerDeliver, ToServerOk, OnState;
    if
    case Offloading(v.reader) => ServerOffloadChange(p, v);
    case v.reader.RWait? => ServerReceiveChange(p, v);
    case !Offloading(v.reader) && !v.reader.RWait? => ServerDeliverChange(p, v);
  }

  /** A worker takes an id out of its queue. */
  ghost predicate WorkerPulls<V>(s: Sys<V>, t: Thread) {
    (t == CMain && s.client.worker.MPull?) || (t == SWorker && s.server.worker.MPull?)
  }

  lemma ClientStepChange<V>(p: Params<V>, s: Sys<V>, t: Thread)
    requires Inv(p, s) && OnClient(t) && ClientStep(p, s.client, s.finished, t).Went?
    ensures var c := s.client;
      var ch := ClientChange(p.n, c, ClientStep(p, c, s.finished, t));
      if Pulls(s, t) then ch == Change(-1, -1, 0, 1)
      else if t == CReader && Decides(p, c, RCheck) then Turning(ch, |c.todo|, c.inbox[0].num)
      else if WorkerPulls(s, t) then ch == STILL.(todo := -1)
      else Nears(ch, EndSeen(c))
  {
    hide Inv, ClientChange, ClientMain, ClientWriter, ClientReader, Manager, Decides, ToClientOk;
    ClientFacts(p, s);
    match t
    case CMain => MainChange(p, s.client, s.finished);
    case CWriter => ClientWriterChange(p, s.client, s.finished);
    case CReader => ClientReaderChange(p, s.client, s.finished);
    case CManager => ManagerChange(p.n, s.client);
  }

  lemma ServerStepChange<V>(p: Params<V>, s: Sys<V>, t: Thread)
    requires Inv(p, s) && !OnClient(t) && ServerStep(p, s.server, t).Went?
    ensures var v := s.server;
      var ch := ServerChange(p.n, v, ServerStep(p, v, t));
      if Pulls(s, t) then ch == Change(-1, -1, 0, 1)
      else if t == SReader && Decides(p, v, RWait) then Turning(ch, |v.todo|, v.inbox[0].num)
      else if WorkerPulls(s, t) then ch == STILL.(todo := -1)
      else Nears(ch, EndSeen(v))
  {
    hide Inv, ServerChange, ServerWorker, ServerWriter, ServerReader, Manager, Decides, ToServerOk;
    ServerFacts(p, s);
    match t
    case SWorker => ServerWorkerChange(p, s.server);
    case SWriter => ServerWriterChange(p, s.server);
    case SReader => ServerReaderChange(p, s.server);
    case SManager => ManagerChange(p.n, s.server);
  }

  /** How a change of the client moves the tide. */
  function ByClient(t: Tide, ch: Change): Tide {
    Tide(t.client + ch.todo - ch.left, t.server, t.clientEnd + ch.todo - ch.left + ch.toMine,
         t.serverEnd + ch.toPeer + ch.left, t.left + ch.left)
  }

  function ByServer(t: Tide, ch: Change): Tide {
    Tide(t.client, t.server + ch.todo - ch.left, t.clientEnd + ch.toPeer + ch.left,
         t.serverEnd + ch.todo - ch.left + ch.toMine, t.left + ch.left)
  }

  lemma ClientTide<V>(n: nat, s: Sys<V>, o: Outcome<V>, s': Sys<V>)
    requires o.Went? && s'.client == o.me && s'.server == s.server.(inbox := s.server.inbox + o.sent)
    ensures TideOf(n, s') == ByClient(TideOf(n, s), ClientChange(n, s.client, o))
  {
    hide Homeward, Outward, Carried;
    CarriedConcat(s.server.inbox, o.sent);
  }

  lemma ServerTide<V>(n: nat, s: Sys<V>, o: Outcome<V>, s': Sys<V>)
    requires o.Went? && s'.server == o.me && s'.client == s.client.(inbox := s.client.inbox + o.sent)
    ensures TideOf(n, s') == ByServer(TideOf(n, s), ServerChange(n, s.server, o))
  {
    hide Arriving, Returning;
    ReturningConcat(n, s.client.inbox, o.sent);
  }

  /** An offload is decided on the peer's true queue size. */
  ghost predicate SeesTrueSize<V>(p: Params<V>, s: Sys<V>, t: Thread) {
    && (t == CReader && Decides(p, s.client, RCheck) ==> s.client.inbox[0].num == |s.server.todo|)
    && (t == SReader && Decides(p, s.server, RWait) ==> s.server.inbox[0].num == |s.client.todo|)
  }

  ghost predicate Deciding<V>(p: Params<V>, s: Sys<V>, t: Thread) {
    (t == CReader && Decides(p, s.client, RCheck)) || (t == SReader && Decides(p, s.server, RWait))
  }

  /** What any step does to the tide. */
  ghost predicate TideTurns<V>(p: Params<V>, s: Sys<V>, t: Thread, s': Sys<V>) {
    var a, b := TideOf(p.n, s), TideOf(p.n, s');
    if Pulls(s, t) then b == a.(left := a.left - 1)
    else if Deciding(p, s, t) then b.left >= a.left && Turns(a, b, b.left - a.left)
    else if WorkerPulls(s, t) then Drains(a, b)
    else
      Drifts(a, b) &&
      (!EndSeen(s.client) && !EndSeen(s.server) ==> b.clientEnd == a.clientEnd && b.serverEnd == a.serverEnd)
  }

  lemma ClientStepTide<V>(p: Params<V>, s: Sys<V>, t: Thread, s': Sys<V>)
    requires Inv(p, s) && OnClient(t) && ClientStep(p, s.client, s.finished, t).Went? && SeesTrueSize(p, s, t)
    requires var o := ClientStep(p, s.client, s.finished, t);
      s'.client == o.me && s'.server == s.server.(inbox := s.server.inbox + o.sent)
    ensures TideTurns(p, s, t, s')
  {
    hide Inv, ClientStep, ClientChange, TideOf, OnState, EndSeen;
    TideBounds(p.n, s);
    ClientStepChange(p, s, t);
    ClientTide(p.n, s, ClientStep(p, s.client, s.finished, t), s');
  }

  lemma ServerStepTide<V>(p: Params<V>, s: Sys<V>, t: Thread, s': Sys<V>)
    requires Inv(p, s) && !OnClient(t) && ServerStep(p, s.server, t).Went? && SeesTrueSize(p, s, t)
    requires var o := ServerStep(p, s.server, t);
      s'.server == o.me && s'.client == s.client.(inbox := s.client.inbox + o.sent)
    ensures TideTurns(p, s, t, s')
  {
    hide Inv, ServerStep, ServerChange, TideOf, OnState, EndSeen;
    TideBounds(p.n, s);
    ServerStepChange(p, s, t);
    ServerTide(p.n, s, ServerStep(p, s.server, t), s');
  }

  lemma StepTide<V>(p: Params<V>, s: Sys<V>, t: Thread, s': Sys<V>)
    requires Inv(p, s) && Step(p, s, t) == Some(s') && !EarlyOffload(s, t) && SeesTrueSize(p, s, t)
    ensures TideTurns(p, s, t, s')
  {
    hide Inv, ClientStep, ServerStep, TideTurns, EarlyOffload, SeesTrueSize;
    StepInv(p, s, t, s');
    NoFault(p, s);
    NoFault(p, s');
    if OnClient(t) { ClientStepTide(p, s, t, s'); } else { ServerStepTide(p, s, t, s'); }
  }

  lemma TideBounds<V>(n: nat, s: Sys<V>)
    ensures var t := TideOf(n, s);
      && t.client == |s.client.todo| - LeftOf(s.client.reader) && t.server == |s.server.todo| - LeftOf(s.server.reader)
      && t.left == LeftOf(s.client.reader) + LeftOf(s.server.reader)
      && |s.client.todo| + |s.server.todo| <= Volume(t)
  {
  }

  // ---------- whole executions ----------

  /** At most `top` ids are on their way, and no loop has more than that to pull. */
  ghost predicate Fits<V>(n: nat, top: nat, s: Sys<V>) {
    LeftOf(s.client.reader) <= top && LeftOf(s.server.reader) <= top && Volume(TideOf(n, s)) <= top
  }

  lemma FitsWithin<V>(n: nat, top: nat, s: Sys<V>)
    requires Fits(n, top, s)
    ensures Within(top, TideOf(n, s)) && TideOf(n, s).left >= 0
  {
    hide Homeward, Outward, Arriving;
  }

  /** A reader's loop has no more left than before, unless it has just decided. */
  lemma LeftAfter<V>(p: Params<V>, s: Sys<V>, t: Thread, s': Sys<V>)
    requires Inv(p, s) && Step(p, s, t) == Some(s') && !s'.fault && SeesTrueSize(p, s, t)
    ensures LeftOf(s'.client.reader) <= LeftOf(s.client.reader) || LeftOf(s'.client.reader) <= |s.client.todo|
    ensures LeftOf(s'.server.reader) <= LeftOf(s.server.reader) || LeftOf(s'.server.reader) <= |s.server.todo|
  {
    hide Inv, ClientStep, ServerStep, OnState, Homeward, Outward, Arriving, Returning, Carried, Pulls, WorkerPulls;
    if OnClient(t) {
      ClientStepChange(p, s, t);
    } else {
      ServerStepChange(p, s, t);
    }
  }

  lemma StepPotential<V>(p: Params<V>, top: nat, s: Sys<V>, t: Thread, s': Sys<V>)
    requires Inv(p, s) && Step(p, s, t) == Some(s') && !EarlyOffload(s, t) && SeesTrueSize(p, s, t) && Fits(p.n, top, s)
    ensures Fits(p.n, top, s')
    ensures Potential(top, TideOf(p.n, s')) + Bit(Pulls(s, t)) <= Potential(top, TideOf(p.n, s))
  {
    hide Inv, Step, TideOf, EarlyOffload, SeesTrueSize, Pulls, Deciding, WorkerPulls, Within, Potential;
    StepTide(p, s, t, s');
    StepInv(p, s, t, s');
    NoFault(p, s');
    LeftAfter(p, s, t, s');
    TideBounds(p.n, s);
    FitsWithin(p.n, top, s);
    FitsWithin(p.n, top, s');
    var a, b := TideOf(p.n, s), TideOf(p.n, s');
    if Pulls(s, t) { PullFalls(top, a, b); }
    else if Deciding(p, s, t) { TurnKeeps(top, a, b, b.left - a.left); }
    else if WorkerPulls(s, t) { DrainFalls(top, a, b); }
    else { DriftFalls(top, a, b); }
  }

  lemma PullFalls(top: nat, a: Tide, b: Tide)
    requires b == a.(left := a.left - 1)
    ensures Potential(top, b) == Potential(top, a) - 1
  {
    Weigh(top, a, b);
    Scale(6 * top + 4, 0);
    hide Potential;
  }

  /** Every offload of the execution is decided on a true size. */
  ghost predicate TrueSizes<V>(p: Params<V>, schedule: seq<Thread>, states: seq<Sys<V>>)
    requires |states| == |schedule| + 1
  {
    forall i {:trigger schedule[i]} | 0 <= i < |schedule| :: SeesTrueSize(p, states[i], schedule[i])
  }

  /** At most so many jobs are ever pulled to be offloaded among n jobs. */
  function PullBound(n: nat): nat {
    var top := n + 2;
    9 * top * top + 9 * top + 1
  }

  lemma StartPotential<V>(p: Params<V>)
    requires WellFormed(p)
    ensures Fits(p.n, p.n + 2, Init(p))
    ensures Potential(p.n + 2, TideOf(p.n, Init(p))) <= PullBound(p.n)
  {
    var top, h := p.n + 2, p.n / 2;
    var t := TideOf(p.n, Init(p));
    assert t == Tide(h, 0, h + 1, h + 1, 0);
    assert (6 * top + 4) * top == 6 * top * top + 4 * top;
    assert (3 * top + 2) * top == 3 * top * top + 2 * top;
  }

  lemma {:induction false} PullsBounded<V>(p: Params<V>, schedule: seq<Thread>, states: seq<Sys<V>>, k: nat)
    requires WellFormed(p) && Execution(p, schedule, states) && MainPullsFirst(schedule, states)
    requires TrueSizes(p, schedule, states) && k <= |schedule|
    ensures Fits(p.n, p.n + 2, states[k])
    ensures PullsIn(schedule, states, k) + Potential(p.n + 2, TideOf(p.n, states[k])) <= PullBound(p.n)
  {
    hide Inv, Step, EarlyOffload, Pulls, Init, SeesTrueSize, Fits, Potential, TideOf, PullBound;
    if k == 0 {
      StartPotential(p);
    } else {
      PullsBounded(p, schedule, states, k - 1);
      ExecutionInv(p, schedule, states, k - 1);
      StepPotential(p, p.n + 2, states[k - 1], schedule[k - 1], states[k]);
    }
  }

  /** If every offload is decided on the peer's true queue size, an execution, however its threads interleave,
      moves jobs no more often than a polynomial in their number says. */
  lemma WorkEnds<V>(p: Params<V>, schedule: seq<Thread>, states: seq<Sys<V>>, k: nat)
    requires WellFormed(p) && Execution(p, schedule, states) && MainPullsFirst(schedule, states)
    requires TrueSizes(p, schedule, states) && k <= |schedule|
    ensures PullsIn(schedule, states, k) <= PullBound(p.n)
    ensures MovesIn(p, schedule, states, k) <= 26 * (p.n / 2) + 29 + 5 * PullBound(p.n)
  {
    hide Step, EarlyOffload, Pulls, Idles, Init, SeesTrueSize, Fits, Potential, TideOf, PullBound, Rank;
    PullsBounded(p, schedule, states, k);
    FitsWithin(p.n, p.n + 2, states[k]);
    PotentialNatural(p.n + 2, TideOf(p.n, states[k]));
    MovesBounded(p, schedule, states, k);
  }

  lemma PotentialNatural(top: nat, t: Tide)
    requires Within(top, t) && t.left >= 0
    ensures Potential(top, t) >= 0
  {
    Scale(6 * top + 4, Volume(t));
    Scale(3 * top + 2, top - Lower(t));
  }
}
