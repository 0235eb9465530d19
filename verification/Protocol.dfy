/**
  The two-node load-balancing protocol of MP4 as a step machine.

  Eight threads run: the client's main, writer, reader and state manager, and the server's
  worker, writer, reader and state manager.  Every thread is a deterministic program, so an
  execution is fixed by its schedule, the sequence of threads that take the next step.
  One step is one test of the finished counter, one pull, push, send or receive, or half of a
  computation or of a copy into the array.  A thread that would block has no next state (`None`).
 */
module Protocol {
  import opened Wrappers

  const STOP := -1
  const DIFF_THRESHOLD := 5

  /** What a run is given: the number of jobs, the transfer policy, the two initial arrays (one value per slot),
      and the work done on a slot.  `compute` and `storeLocal` change a slot entry by entry, so each is two steps:
      `half` is what a slot holds somewhere in the computation and `rest` what the rest of it makes of that;
      `mix` is what a slot holds when part of a received body has been copied into it. */
  datatype Params<!V> = Params(
    n: nat, policy: int, c0: seq<V>, s0: seq<V>, half: V -> V, rest: V -> V, mix: (V, V) -> V)

  /** The whole computation on a slot. */
  function Compute<V>(p: Params<V>, x: V): V {
    p.rest(p.half(x))
  }

  ghost predicate WellFormed<V>(p: Params<V>) {
    p.n >= 2 && p.n % 2 == 0 && |p.c0| == p.n && |p.s0| == p.n
  }

  datatype Frame<V> = StateMsg(num: int) | Rebalance | Data(id: int, body: V) | StopMsg

  /** Program counters of the computing thread (client main, server worker). */
  datatype Worker = MCheck | MPull | MHold(job: int) | MHalf(job: int) | MDone(job: int) | MLeave | MStop

  /** Program counters of the thread that empties `job_tosend`. */
  datatype Writer = WCheck | WPull | WSend(job: int) | WStop

  /** Program counters of the thread that reads the socket and runs `adaptor`. */
  datatype Reader<V> =
    | RCheck
    | RWait
    | RAsk
    | ROffer(left: nat)
    | ROfferHand(job: int, rest: nat)
    | RGot(job: int, body: V)
    | RCopy(job: int, body: V)
    | RStored(job: int)
    | RBack(job: int)
    | RGotStop
    | RStuck
    | RStop

  datatype Node<V> = Node(
    todo: seq<int>, tosend: seq<int>, arr: seq<V>, inbox: seq<Frame<V>>,
    worker: Worker, writer: Writer, reader: Reader<V>, manager: Option<int>,
    peer: int, asked: bool)

  /** `done` lists the jobs in the order they were counted, `started` says that client main
      has pulled, `fault` that a slot outside the array was touched. */
  datatype Sys<V> = Sys(client: Node<V>, server: Node<V>, finished: nat, done: seq<int>, started: bool, fault: bool)

  datatype Thread = CMain | CWriter | CReader | CManager | SWorker | SWriter | SReader | SManager

  /** What one step of a thread does: it waits, touches a slot outside the array, or changes its own
      node, sends some frames to the peer and counts some jobs as finished. */
  datatype Outcome<V> = Blocked | OutOfArray | Went(me: Node<V>, sent: seq<Frame<V>>, counted: seq<int>)

  /** The initial state: `bootstrap` has filled the client's two queues. */
  function Init<V>(p: Params<V>): Sys<V> {
    Sys(
      Node(seq(p.n / 2, i => i), seq(p.n / 2, i => i + p.n / 2), p.c0, [],
           MCheck, WCheck, RCheck, None, -1, false),
      Node([], [], p.s0, [], MPull, WPull, RWait, None, -1, false),
      0, [], false, false)
  }

  // ---------- transfer ----------

  /** The slot that `create_message` and `transfer_handler` read from an id. */
  function SlotOf(n: nat, id: int): int {
    if id > n then id - n else id
  }

  /** The frame `transfer` sends for an id; `None` when its slot lies outside the array. */
  function FrameFor<V>(n: nat, arr: seq<V>, id: int): Option<Frame<V>> {
    if id == STOP then Some(StopMsg)
    else if 0 <= SlotOf(n, id) < |arr| then Some(Data(id, arr[SlotOf(n, id)]))
    else None
  }

  /** A transfer that leaves the node as `next`. */
  function Transfer<V>(n: nat, arr: seq<V>, id: int, next: Node<V>): Outcome<V> {
    match FrameFor(n, arr, id)
    case None => OutOfArray
    case Some(f) => Went(next, [f], [])
  }

  /** A step that sends nothing and counts nothing. */
  function Local<V>(next: Node<V>): Outcome<V> {
    Went(next, [], [])
  }

  // ---------- adaptor ----------

  /** `state_handle` and the decisions of `adaptor`; `home` is where the reader loop resumes. */
  function OnState<V>(policy: int, me: Node<V>, num: int, home: Reader<V>): Node<V> {
    if me.peer == -1 && num == 0 then me.(reader := home)
    else
      var diff := |me.todo| - num;
      me.(peer := num,
          reader :=
            if policy > 0 && diff < DIFF_THRESHOLD then RAsk
            else if diff > DIFF_THRESHOLD && num != -1 && (policy == 0 || policy == 2 || me.asked)
            then ROffer(diff / 2)
            else home)
  }

  /** The rest of `adaptor`: ask the peer to rebalance, or pull and send jobs while any are left to
      transfer.  A negative id ends the loop. */
  function Offload<V>(p: Params<V>, me: Node<V>, home: Reader<V>): Outcome<V> {
    match me.reader
    case RAsk => Went(me.(reader := home), [Rebalance], [])
    case ROffer(left) =>
      if left == 0 then Local(me.(reader := home))
      else if me.todo == [] then Blocked
      else if me.todo[0] > -1 then
        Local(me.(todo := me.todo[1..], reader := ROfferHand(me.todo[0], left - 1)))
      else Local(me.(todo := me.todo[1..], reader := home))
    case ROfferHand(j, rest) => Transfer(p.n, me.arr, p.n + j, me.(reader := ROffer(rest)))
    case _ => Blocked
  }

  predicate Offloading<V>(r: Reader<V>) {
    r.RAsk? || r.ROffer? || r.ROfferHand?
  }

  /** A state manager reads its queue's size, and in a later step sends it. */
  function Manager<V>(me: Node<V>): Outcome<V> {
    match me.manager
    case None => Local(me.(manager := Some(|me.todo|)))
    case Some(k) => Went(me.(manager := None), [StateMsg(k)], [])
  }

  // ---------- client threads ----------

  function ClientMain<V>(p: Params<V>, c: Node<V>, finished: nat): Outcome<V> {
    match c.worker
    case MCheck => Local(c.(worker := if finished < p.n then MPull else MLeave))
    case MPull =>
      if c.todo == [] then Blocked
      else Local(c.(todo := c.todo[1..], worker := if c.todo[0] == STOP then MCheck else MHold(c.todo[0])))
    case MHold(j) =>
      if 0 <= j < |c.arr| then Local(c.(arr := c.arr[j := p.half(c.arr[j])], worker := MHalf(j)))
      else OutOfArray
    case MHalf(j) =>
      if 0 <= j < |c.arr| then Local(c.(arr := c.arr[j := p.rest(c.arr[j])], worker := MDone(j)))
      else OutOfArray
    case MDone(j) => Went(c.(worker := MCheck), [], [j])
    case MLeave =>
      if |c.tosend| == p.n then Blocked else Local(c.(tosend := c.tosend + [STOP], worker := MStop))
    case MStop => Blocked
  }

  function ClientWriter<V>(p: Params<V>, c: Node<V>, finished: nat): Outcome<V> {
    match c.writer
    case WCheck => Local(c.(writer := if finished == p.n then WStop else WPull))
    case WPull =>
      if c.tosend == [] then Blocked
      else Local(c.(tosend := c.tosend[1..], writer := WSend(c.tosend[0])))
    case WSend(j) => Transfer(p.n, c.arr, j, c.(writer := WCheck))
    case WStop => Blocked
  }

  /** The loop head of `read_from_server`: exit, leaving a sentinel for client main, or read on. */
  function ClientCheck<V>(p: Params<V>, c: Node<V>, finished: nat): Outcome<V> {
    if finished != p.n then Local(c.(reader := RWait))
    else if |c.todo| == p.n then Blocked
    else Local(c.(todo := c.todo + [STOP], reader := RStop))
  }

  function ClientReceive<V>(p: Params<V>, c: Node<V>, f: Frame<V>): Node<V> {
    match f
    case StateMsg(num) => OnState(p.policy, c, num, RCheck)
    case Rebalance => c.(asked := true, reader := RCheck)
    case StopMsg => c.(reader := RStuck)
    case Data(id, v) =>
      if 0 <= id < p.n then c.(reader := RGot(id, v))
      else if id >= p.n then c.(reader := RBack(id - p.n))
      else c.(reader := RCheck)
  }

  /** `read_from_server` after a data frame: store a result and count it, or queue the job the server
      sent back uncomputed. */
  function ClientDeliver<V>(p: Params<V>, c: Node<V>): Outcome<V> {
    match c.reader
    case RGot(j, v) =>
      if 0 <= j < |c.arr| then Local(c.(arr := c.arr[j := p.mix(c.arr[j], v)], reader := RCopy(j, v))) else OutOfArray
    case RCopy(j, v) =>
      if 0 <= j < |c.arr| then Local(c.(arr := c.arr[j := v], reader := RStored(j))) else OutOfArray
    case RStored(j) => Went(c.(reader := RCheck), [], [j])
    case RBack(j) =>
      if |c.todo| == p.n then Blocked else Local(c.(todo := c.todo + [j], reader := RCheck))
    case _ => Blocked
  }

  function ClientReader<V>(p: Params<V>, c: Node<V>, finished: nat): Outcome<V> {
    if c.reader.RCheck? then ClientCheck(p, c, finished)
    else if c.reader.RWait? then
      if c.inbox == [] then Blocked else Local(ClientReceive(p, c, c.inbox[0]).(inbox := c.inbox[1..]))
    else if Offloading(c.reader) then Offload(p, c, RCheck)
    else ClientDeliver(p, c)
  }

  // ---------- server threads ----------

  function ServerWorker<V>(p: Params<V>, v: Node<V>): Outcome<V> {
    match v.worker
    case MPull =>
      if v.todo == [] then Blocked
      else Local(v.(todo := v.todo[1..], worker := if v.todo[0] > -1 then MHold(v.todo[0]) else MStop))
    case MHold(j) =>
      if 0 <= j < |v.arr| then Local(v.(arr := v.arr[j := p.half(v.arr[j])], worker := MHalf(j)))
      else OutOfArray
    case MHalf(j) =>
      if 0 <= j < |v.arr| then Local(v.(arr := v.arr[j := p.rest(v.arr[j])], worker := MDone(j)))
      else OutOfArray
    case MDone(j) =>
      if |v.tosend| == p.n then Blocked else Local(v.(tosend := v.tosend + [j], worker := MPull))
    case _ => Blocked
  }

  function ServerWriter<V>(p: Params<V>, v: Node<V>): Outcome<V> {
    match v.writer
    case WPull =>
      if v.tosend == [] then Blocked
      else Local(v.(tosend := v.tosend[1..], writer := WSend(v.tosend[0])))
    case WSend(j) => Transfer(p.n, v.arr, j, v.(writer := if j == STOP then WStop else WPull))
    case _ => Blocked
  }

  function ServerReceive<V>(p: Params<V>, v: Node<V>, f: Frame<V>): Node<V> {
    match f
    case StateMsg(num) => OnState(p.policy, v, num, RWait)
    case Rebalance => v.(asked := true, reader := RWait)
    case StopMsg => v.(reader := RGotStop)
    case Data(id, x) =>
      if id > -1 then v.(reader := RGot(SlotOf(p.n, id), x)) else v.(reader := RWait)
  }

  /** `transfer_handler` after a data frame: store the data and queue the job, or pass the sentinel on. */
  function ServerDeliver<V>(p: Params<V>, v: Node<V>): Outcome<V> {
    match v.reader
    case RGot(j, x) =>
      if 0 <= j < |v.arr| then Local(v.(arr := v.arr[j := p.mix(v.arr[j], x)], reader := RCopy(j, x))) else OutOfArray
    case RCopy(j, x) =>
      if 0 <= j < |v.arr| then Local(v.(arr := v.arr[j := x], reader := RStored(j))) else OutOfArray
    case RStored(j) =>
      if |v.todo| == p.n then Blocked else Local(v.(todo := v.todo + [j], reader := RWait))
    case RGotStop =>
      if |v.tosend| == p.n then Blocked else Local(v.(tosend := v.tosend + [STOP], reader := RWait))
    case _ => Blocked
  }

  function ServerReader<V>(p: Params<V>, v: Node<V>): Outcome<V> {
    if v.reader.RWait? then
      if v.inbox == [] then Blocked else Local(ServerReceive(p, v, v.inbox[0]).(inbox := v.inbox[1..]))
    else if Offloading(v.reader) then Offload(p, v, RWait)
    else ServerDeliver(p, v)
  }

  // ---------- runs ----------

  predicate OnClient(t: Thread) {
    t == CMain || t == CWriter || t == CReader || t == CManager
  }

  function ClientStep<V>(p: Params<V>, c: Node<V>, finished: nat, t: Thread): Outcome<V>
    requires OnClient(t)
  {
    match t
    case CMain => ClientMain(p, c, finished)
    case CWriter => ClientWriter(p, c, finished)
    case CReader => ClientReader(p, c, finished)
    case CManager => Manager(c)
  }

  function ServerStep<V>(p: Params<V>, v: Node<V>, t: Thread): Outcome<V>
    requires !OnClient(t)
  {
    match t
    case SWorker => ServerWorker(p, v)
    case SWriter => ServerWriter(p, v)
    case SReader => ServerReader(p, v)
    case SManager => Manager(v)
  }

  function Step<V>(p: Params<V>, s: Sys<V>, t: Thread): Option<Sys<V>> {
    if s.fault then None
    else if OnClient(t) then
      match ClientStep(p, s.client, s.finished, t)
      case Blocked => None
      case OutOfArray => Some(s.(fault := true))
      case Went(c, sent, counted) =>
        Some(Sys(c, s.server.(inbox := s.server.inbox + sent), s.finished + |counted|, s.done + counted,
                 s.started || c.worker.MHold?, false))
    else
      match ServerStep(p, s.server, t)
      case Blocked => None
      case OutOfArray => Some(s.(fault := true))
      case Went(v, sent, _) =>
        Some(s.(server := v, client := s.client.(inbox := s.client.inbox + sent)))
  }

  /** An execution: a schedule, none of whose steps blocks, and the states it leads through. */
  ghost predicate Execution<V>(p: Params<V>, schedule: seq<Thread>, states: seq<Sys<V>>) {
    && |states| == |schedule| + 1 && states[0] == Init(p)
    && forall i {:trigger schedule[i]} | 0 <= i < |schedule| :: Step(p, states[i], schedule[i]) == Some(states[i + 1])
  }

  /** The client's offload loop pulls before client main has pulled anything. */
  predicate EarlyOffload<V>(s: Sys<V>, t: Thread) {
    t == CReader && s.client.reader.ROffer? && s.client.reader.left > 0 && !s.started
  }

  /** In this execution client main performs the first pull. */
  ghost predicate MainPullsFirst<V>(schedule: seq<Thread>, states: seq<Sys<V>>)
    requires |states| == |schedule| + 1
  {
    forall i {:trigger schedule[i]} | 0 <= i < |schedule| :: !EarlyOffload(states[i], schedule[i])
  }

  /** A state of an execution in which client main performs the first pull. */
  ghost predicate Reached<V>(p: Params<V>, schedule: seq<Thread>, states: seq<Sys<V>>, s: Sys<V>) {
    WellFormed(p) && Execution(p, schedule, states) && MainPullsFirst(schedule, states) && s in states
  }
}
