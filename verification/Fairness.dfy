/** Every fair run of MP4 whose offloads are decided on true sizes, and in which no offload loop waits for a job that
    cannot come, counts every job. */
module Fairness {
  import opened Wrappers
  import opened Protocol
  import opened Ownership
  import opened Invariant
  import opened Progress
  import opened Flow
  import opened Completion
  import Theorems

  // ---------- infinite runs ----------

  ghost predicate Run<V>(p: Params<V>, schedule: nat -> Thread, states: nat -> Sys<V>) {
    && states(0) == Init(p)
    && forall i: nat {:trigger schedule(i)} :: Step(p, states(i), schedule(i)) == Some(states(i + 1))
  }

  /** From position i on, the thread takes a step or cannot. */
  ghost predicate Chance<V>(p: Params<V>, schedule: nat -> Thread, states: nat -> Sys<V>, t: Thread, i: nat) {
    exists j: nat {:trigger schedule(j)} :: i <= j && (schedule(j) == t || Step(p, states(j), t).None?)
  }

  /** No thread that can take a step is passed over for ever. */
  ghost predicate Fair<V>(p: Params<V>, schedule: nat -> Thread, states: nat -> Sys<V>) {
    forall t: Thread, i: nat {:trigger Chance(p, schedule, states, t, i)} | !Manages(t) ::
      Chance(p, schedule, states, t, i)
  }

  /** Client main pulls first, offloads are decided on true sizes, and no offload loop is jammed. */
  ghost predicate Good<V>(p: Params<V>, schedule: nat -> Thread, states: nat -> Sys<V>) {
    forall i: nat {:trigger schedule(i)} ::
      && !EarlyOffload(states(i), schedule(i)) && SeesTrueSize(p, states(i), schedule(i))
      && !Jammed(states(i).client) && !Jammed(states(i).server)
  }

  ghost function FirstThreads(schedule: nat -> Thread, k: nat): seq<Thread> {
    seq(k, i requires 0 <= i < k => schedule(i))
  }

  ghost function FirstStates<V>(states: nat -> Sys<V>, k: nat): seq<Sys<V>> {
    seq(k + 1, i requires 0 <= i <= k => states(i))
  }

  lemma Prefix<V>(p: Params<V>, schedule: nat -> Thread, states: nat -> Sys<V>, k: nat)
    requires Run(p, schedule, states) && Good(p, schedule, states)
    ensures var ts, ss := FirstThreads(schedule, k), FirstStates(states, k);
      Execution(p, ts, ss) && MainPullsFirst(ts, ss) && TrueSizes(p, ts, ss)
  {
    hide Step, Init, EarlyOffload, SeesTrueSize, Jammed;
    var ts := FirstThreads(schedule, k);
    assert forall i | 0 <= i < k :: ts[i] == schedule(i);
  }

  lemma At<V>(p: Params<V>, schedule: nat -> Thread, states: nat -> Sys<V>, k: nat)
    requires WellFormed(p) && Run(p, schedule, states) && Good(p, schedule, states)
    ensures Inv(p, states(k)) && LateEnds(p, states(k)) && !Jammed(states(k).client) && !Jammed(states(k).server)
    ensures Step(p, states(k), schedule(k)) == Some(states(k + 1)) && !EarlyOffload(states(k), schedule(k))
  {
    hide Step, Init, EarlyOffload, SeesTrueSize, Jammed, Inv, LateEnds;
    var t := schedule(k);
    Prefix(p, schedule, states, k);
    ExecutionInv(p, FirstThreads(schedule, k), FirstStates(states, k), k);
    EndsAreLate(p, FirstThreads(schedule, k), FirstStates(states, k), k);
  }

  // ---------- moves are bounded ----------

  /** How many of the first k steps move an id. */
  ghost function Moves<V>(p: Params<V>, schedule: nat -> Thread, states: nat -> Sys<V>, k: nat): nat {
    if k == 0 then 0 else Moves(p, schedule, states, k - 1) + Bit(!Idles(p, states(k - 1), schedule(k - 1)))
  }

  lemma {:induction false} MovesPrefix<V>(
      p: Params<V>, schedule: nat -> Thread, states: nat -> Sys<V>, k: nat, m: nat)
    requires k <= m
    ensures var ts, ss := FirstThreads(schedule, m), FirstStates(states, m);
      Moves(p, schedule, states, k) == MovesIn(p, ts, ss, k) + PullsIn(ts, ss, k)
  {
    hide Idles, Pulls;
    if k > 0 {
      MovesPrefix(p, schedule, states, k - 1, m);
      NotBoth(p, states(k - 1), schedule(k - 1));
    }
  }

  function MoveBound(n: nat): nat { 26 * (n / 2) + 29 + 6 * PullBound(n) }

  lemma MovesFew<V>(p: Params<V>, schedule: nat -> Thread, states: nat -> Sys<V>, k: nat)
    requires WellFormed(p) && Run(p, schedule, states) && Good(p, schedule, states)
    ensures Moves(p, schedule, states, k) <= MoveBound(p.n)
  {
    hide Run, Good, Idles, Pulls, PullBound;
    Prefix(p, schedule, states, k);
    WorkEnds(p, FirstThreads(schedule, k), FirstStates(states, k), k);
    MovesPrefix(p, schedule, states, k, k);
  }

  // ---------- threads that have work ----------

  predicate Carrying<V>(f: Frame<V>) {
    f.Data? || f.StopMsg?
  }

  /** A frame with an id is on the wire. */
  predicate Loaded<V>(inbox: seq<Frame<V>>) {
    inbox != [] && (Carrying(inbox[0]) || Loaded(inbox[1..]))
  }

  /** The frames before it. */
  function Ahead<V>(inbox: seq<Frame<V>>): nat {
    if inbox == [] || Carrying(inbox[0]) then 0 else 1 + Ahead(inbox[1..])
  }

  lemma {:induction false} LoadedMore<V>(a: seq<Frame<V>>, b: seq<Frame<V>>)
    requires Loaded(a)
    ensures Loaded(a + b) && Ahead(a + b) == Ahead(a)
  {
    if !Carrying(a[0]) {
      assert (a + b)[1..] == a[1..] + b;
      LoadedMore(a[1..], b);
    }
  }

  lemma {:induction false} NotLoaded<V>(n: nat, inbox: seq<Frame<V>>)
    requires !Loaded(inbox)
    ensures InboxIds(n, inbox) == multiset{}
  {
    if inbox != [] { NotLoaded(n, inbox[1..]); }
  }

  predicate Holds<V>(r: Reader<V>) {
    r.ROfferHand? || r.RGot? || r.RCopy? || r.RStored? || r.RBack? || r.RGotStop?
  }

  predicate WorkerHolds(w: Worker) {
    w.MHold? || w.MHalf? || w.MDone?
  }

  /** The thread has an id to move: in its hand, in the queue it pulls from, or on the wire to it. */
  predicate HasWork<V>(s: Sys<V>, t: Thread) {
    match t
    case CMain => s.client.todo != [] || WorkerHolds(s.client.worker)
    case CWriter => s.client.tosend != [] || s.client.writer.WSend?
    case CReader => Holds(s.client.reader) || Loaded(s.client.inbox)
    case SWorker => s.server.todo != [] || WorkerHolds(s.server.worker)
    case SWriter => s.server.tosend != [] || s.server.writer.WSend?
    case SReader => Holds(s.server.reader) || Loaded(s.server.inbox)
    case _ => false
  }

  /** How many idle steps the thread can take before it moves an id. */
  function ReaderDelay<V>(nd: Node<V>): nat {
    if Holds(nd.reader) then 0
    else 4 * Ahead(nd.inbox) + if nd.reader.RWait? then 0 else if nd.reader.RCheck? then 1 else 2
  }

  function Delay<V>(s: Sys<V>, t: Thread): nat {
    match t
    case CMain => Bit(s.client.worker.MCheck?)
    case CWriter => Bit(s.client.writer.WCheck?)
    case CReader => ReaderDelay(s.client)
    case SReader => ReaderDelay(s.server)
    case _ => 0
  }

  // ---------- one of them has ----------

  lemma NodeEmpty<V>(n: nat, nd: Node<V>)
    requires nd.todo == [] && nd.tosend == [] && !WorkerHolds(nd.worker) && !nd.writer.WSend?
    requires !Holds(nd.reader) && !Loaded(nd.inbox)
    ensures NodeIds(n, nd) == multiset{}
  {
    NotLoaded(n, nd.inbox);
  }

  /** As long as a job is not counted, some thread has work. */
  lemma SomebodyHasWork<V>(p: Params<V>, s: Sys<V>) returns (t: Thread)
    requires Inv(p, s) && s.finished < p.n
    ensures !Manages(t) && HasWork(s, t)
  {
    hide Inv, NodeIds, WorkerHolds, Holds, Loaded;
    if HasWork(s, CMain) { return CMain; }
    if HasWork(s, CWriter) { return CWriter; }
    if HasWork(s, CReader) { return CReader; }
    if HasWork(s, SWorker) { return SWorker; }
    if HasWork(s, SWriter) { return SWriter; }
    if HasWork(s, SReader) { return SReader; }
    NodeEmpty(p.n, s.client);
    NodeEmpty(p.n, s.server);
    NothingLeft(p, s);
    t := CMain;
    assert false;
  }

  // ---------- a thread with work ----------

  lemma ReaderCanGo<V>(p: Params<V>, s: Sys<V>, t: Thread)
    requires !s.fault && ClientAtWork(p, s.client) && ServerAtWork(p, s.server) && s.finished < p.n
    requires !Jammed(s.client) && !Jammed(s.server) && (t == CReader || t == SReader) && HasWork(s, t)
    ensures Step(p, s, t).Some?
  {
    hide FrameFor, ClientReceive, ServerReceive;
  }

  lemma CanGo<V>(p: Params<V>, s: Sys<V>, t: Thread)
    requires !s.fault && ClientAtWork(p, s.client) && ServerAtWork(p, s.server) && s.finished < p.n
    requires !Jammed(s.client) && !Jammed(s.server) && HasWork(s, t)
    ensures Step(p, s, t).Some?
  {
    if t == CReader || t == SReader {
      hide Step;
      ReaderCanGo(p, s, t);
    } else {
      hide FrameFor, Loaded, ClientReader, ServerReader;
    }
  }

  /** An idle step brings it nearer to its work. */
  lemma ClientReaderNears<V>(p: Params<V>, c: Node<V>, finished: nat)
    requires ClientReader(p, c, finished).Went? && ReaderIdles(c, finished, p.n) && Loaded(c.inbox)
    ensures var c' := ClientReader(p, c, finished).me;
      Loaded(c'.inbox) && !Holds(c.reader) && !Holds(c'.reader) && ReaderDelay(c') < ReaderDelay(c)
  {
    hide FrameFor;
  }

  lemma ServerReaderNears<V>(p: Params<V>, v: Node<V>, finished: nat)
    requires ServerReader(p, v).Went? && ReaderIdles(v, finished, p.n) && Loaded(v.inbox)
    requires !v.reader.RCheck?
    ensures var v' := ServerReader(p, v).me;
      Loaded(v'.inbox) && !Holds(v.reader) && !Holds(v'.reader) && ReaderDelay(v') < ReaderDelay(v)
  {
    hide FrameFor;
  }

  /** A node as its peer's frames leave it. */
  lemma MoreFrames<V>(nd: Node<V>, sent: seq<Frame<V>>)
    ensures Loaded(nd.inbox) ==>
      Loaded(nd.inbox + sent) && ReaderDelay(nd.(inbox := nd.inbox + sent)) == ReaderDelay(nd)
    ensures Holds(nd.reader) ==> ReaderDelay(nd.(inbox := nd.inbox + sent)) == 0
  {
    if Loaded(nd.inbox) { LoadedMore(nd.inbox, sent); }
  }

  /** What an idle step of a client thread leaves alone. */
  lemma ClientIdles<V>(p: Params<V>, s: Sys<V>, t: Thread)
    requires OnClient(t) && Idles(p, s, t) && ClientStep(p, s.client, s.finished, t).Went?
    ensures var c, c' := s.client, ClientStep(p, s.client, s.finished, t).me;
      && c'.todo == c.todo && c'.tosend == c.tosend
      && (t != CMain ==> c'.worker == c.worker) && (t != CWriter ==> c'.writer == c.writer)
      && (t != CReader ==> c'.reader == c.reader && c'.inbox == c.inbox)
    ensures ClientStep(p, s.client, s.finished, t).counted == []
  {
    hide FrameFor;
  }

  lemma ServerIdles<V>(p: Params<V>, s: Sys<V>, t: Thread)
    requires !OnClient(t) && Idles(p, s, t) && ServerStep(p, s.server, t).Went? && !s.server.reader.RCheck?
    ensures var v, v' := s.server, ServerStep(p, s.server, t).me;
      && v'.todo == v.todo && v'.tosend == v.tosend && v'.worker == v.worker && v'.writer == v.writer
      && (t != SReader ==> v'.reader == v.reader && v'.inbox == v.inbox)
  {
    hide FrameFor;
  }

  /** A thread's own idle step keeps its work and brings it nearer. */
  lemma OwnStep<V>(p: Params<V>, s: Sys<V>, t: Thread, s': Sys<V>)
    requires Step(p, s, t) == Some(s') && !s'.fault && Idles(p, s, t) && !Manages(t) && HasWork(s, t)
    requires !s.server.reader.RCheck?
    ensures HasWork(s', t) && Delay(s', t) < Delay(s, t)
  {
    hide ReaderDelay, Loaded, Holds, ClientReader, ServerReader, ReaderIdles;
    if t == CReader {
      ReaderHoldsIdle(s.client, s.finished, p.n);
      ClientReaderNears(p, s.client, s.finished);
    } else if t == SReader {
      ReaderHoldsIdle(s.server, s.finished, p.n);
      ServerReaderNears(p, s.server, s.finished);
    }
  }

  lemma ReaderHoldsIdle<V>(nd: Node<V>, finished: nat, n: nat)
    requires ReaderIdles(nd, finished, n)
    ensures !Holds(nd.reader)
  {
  }

  /** An idle step of another thread takes no work away, and does not put it off. */
  lemma OthersStep<V>(p: Params<V>, s: Sys<V>, u: Thread, s': Sys<V>, t: Thread)
    requires Step(p, s, u) == Some(s') && !s'.fault && Idles(p, s, u) && u != t && HasWork(s, t)
    requires !s.server.reader.RCheck?
    ensures HasWork(s', t) && Delay(s', t) <= Delay(s, t)
  {
    hide ReaderDelay, Loaded, Holds, ClientStep, ServerStep, Idles;
    if OnClient(u) {
      ClientIdles(p, s, u);
      MoreFrames(s.server, ClientStep(p, s.client, s.finished, u).sent);
      SameDelay(s'.client, s.client);
    } else {
      ServerIdles(p, s, u);
      MoreFrames(s.client, ServerStep(p, s.server, u).sent);
      SameDelay(s'.server, s.server);
    }
  }

  lemma SameDelay<V>(a: Node<V>, b: Node<V>)
    ensures a.reader == b.reader && a.inbox == b.inbox ==> ReaderDelay(a) == ReaderDelay(b)
  {
  }

  // ---------- sooner or later ----------

  /** From position k on, the thread has had work and nobody has moved an id. */
  lemma {:induction false} KeepsWork<V>(
      p: Params<V>, schedule: nat -> Thread, states: nat -> Sys<V>, k: nat, j: nat, t: Thread)
    requires WellFormed(p) && Run(p, schedule, states) && Good(p, schedule, states) && k <= j
    requires HasWork(states(k), t)
    requires forall i: nat {:trigger schedule(i)} | k <= i < j ::
      Idles(p, states(i), schedule(i)) && schedule(i) != t
    ensures HasWork(states(j), t) && Delay(states(j), t) <= Delay(states(k), t)
  {
    hide Run, Good, Step, Idles, HasWork, Delay, EarlyOffload, Inv, LateEnds, Jammed;
    if k < j {
      var i := j - 1;
      var u := schedule(i);
      KeepsWork(p, schedule, states, k, i, t);
      At(p, schedule, states, i);
      At(p, schedule, states, j);
      NoFault(p, states(j));
      ServerHasNoCheck(p, states(i));
      OthersStep(p, states(i), u, states(j), t);
    }
  }

  lemma ServerHasNoCheck<V>(p: Params<V>, s: Sys<V>)
    requires Inv(p, s)
    ensures !s.server.reader.RCheck?
  {
  }

  /** The first position from k on, up to j, at which the thread takes a step or somebody moves an id. */
  lemma {:induction false} FirstEvent<V>(
      p: Params<V>, schedule: nat -> Thread, states: nat -> Sys<V>, k: nat, j: nat, t: Thread) returns (i: nat)
    requires k <= j && (schedule(j) == t || !Idles(p, states(j), schedule(j)))
    ensures k <= i <= j && (schedule(i) == t || !Idles(p, states(i), schedule(i)))
    ensures forall l: nat {:trigger schedule(l)} | k <= l < i :: Idles(p, states(l), schedule(l)) && schedule(l) != t
    decreases j - k
  {
    hide Idles;
    if schedule(k) == t || !Idles(p, states(k), schedule(k)) {
      i := k;
    } else {
      i := FirstEvent(p, schedule, states, k + 1, j, t);
    }
  }

  /** The thread could go on at position j, so that it did, or somebody moved an id before. */
  lemma ChanceTaken<V>(
      p: Params<V>, schedule: nat -> Thread, states: nat -> Sys<V>, k: nat, t: Thread) returns (i: nat)
    requires WellFormed(p) && Run(p, schedule, states) && Good(p, schedule, states) && Fair(p, schedule, states)
    requires !Manages(t) && HasWork(states(k), t)
    requires forall l: nat {:trigger states(l)} :: states(l).finished < p.n
    ensures k <= i && (schedule(i) == t || !Idles(p, states(i), schedule(i)))
    ensures forall l: nat {:trigger schedule(l)} | k <= l < i :: Idles(p, states(l), schedule(l)) && schedule(l) != t
  {
    hide Run, Good, Step, Idles, HasWork, Delay, EarlyOffload, Inv, LateEnds, Jammed, ClientAtWork, ServerAtWork;
    assert Chance(p, schedule, states, t, k);
    var j: nat :| k <= j && (schedule(j) == t || Step(p, states(j), t).None?);
    if forall l: nat {:trigger schedule(l)} | k <= l < j :: Idles(p, states(l), schedule(l)) && schedule(l) != t {
      KeepsWork(p, schedule, states, k, j, t);
      At(p, schedule, states, j);
      AtWork(p, states(j));
      CanGo(p, states(j), t);
      i := j;
    } else {
      var l: nat :| k <= l < j && !(Idles(p, states(l), schedule(l)) && schedule(l) != t);
      i := FirstEvent(p, schedule, states, k, l, t);
    }
  }

  /** In a run that never ends, a thread with work brings about a step that moves an id. */
  lemma {:induction false} Eventually<V>(
      p: Params<V>, schedule: nat -> Thread, states: nat -> Sys<V>, k: nat, t: Thread) returns (i: nat)
    requires WellFormed(p) && Run(p, schedule, states) && Good(p, schedule, states) && Fair(p, schedule, states)
    requires !Manages(t) && HasWork(states(k), t)
    requires forall l: nat {:trigger states(l)} :: states(l).finished < p.n
    ensures k <= i && !Idles(p, states(i), schedule(i))
    decreases Delay(states(k), t)
  {
    hide Run, Good, Fair, Step, Idles, HasWork, Delay, EarlyOffload, Inv, LateEnds, Jammed;
    var j := ChanceTaken(p, schedule, states, k, t);
    if Idles(p, states(j), schedule(j)) {
      KeepsWork(p, schedule, states, k, j, t);
      At(p, schedule, states, j);
      At(p, schedule, states, j + 1);
      NoFault(p, states(j + 1));
      ServerHasNoCheck(p, states(j));
      OwnStep(p, states(j), t, states(j + 1));
      i := Eventually(p, schedule, states, j + 1, t);
    } else {
      i := j;
    }
  }

  lemma {:induction false} MovesGrow<V>(
      p: Params<V>, schedule: nat -> Thread, states: nat -> Sys<V>, k: nat, i: nat)
    requires k <= i
    ensures Moves(p, schedule, states, k) <= Moves(p, schedule, states, i)
  {
    if k < i { MovesGrow(p, schedule, states, k, i - 1); }
  }

  /** Ids would move for ever. */
  lemma {:induction false} MovesWithoutEnd<V>(
      p: Params<V>, schedule: nat -> Thread, states: nat -> Sys<V>, m: nat) returns (k: nat)
    requires WellFormed(p) && Run(p, schedule, states) && Good(p, schedule, states) && Fair(p, schedule, states)
    requires forall l: nat {:trigger states(l)} :: states(l).finished < p.n
    ensures Moves(p, schedule, states, k) >= m
  {
    hide Run, Good, Fair, Idles, HasWork, Inv, EarlyOffload, LateEnds, Jammed, Step;
    if m == 0 {
      k := 0;
    } else {
      var i := MovesWithoutEnd(p, schedule, states, m - 1);
      At(p, schedule, states, i);
      var t := SomebodyHasWork(p, states(i));
      var j := Eventually(p, schedule, states, i, t);
      MovesGrow(p, schedule, states, i, j);
      k := j + 1;
    }
  }

  lemma CountAtMost<V>(p: Params<V>, s: Sys<V>)
    requires Inv(p, s)
    ensures s.finished <= p.n
  {
    hide NodeIds, ClientSlots, JobZero, ServerOk;
    DoneBound(p.n, Tokens(p.n, s), s.done);
  }

  /** In a fair run in which client main pulls first, every offload is decided on the true size and none is ever
      jammed, all jobs are counted, and the client's array is the sequential loop's. */
  lemma FairRunsComplete<V>(p: Params<V>, schedule: nat -> Thread, states: nat -> Sys<V>) returns (k: nat)
    requires WellFormed(p) && Run(p, schedule, states) && Good(p, schedule, states) && Fair(p, schedule, states)
    ensures states(k).finished == p.n && states(k).client.arr == Theorems.Sequential(p, p.n)
  {
    hide Run, Good, Fair, Inv, Moves, MoveBound;
    if forall l: nat {:trigger states(l)} :: states(l).finished < p.n {
      var l := MovesWithoutEnd(p, schedule, states, MoveBound(p.n) + 1);
      MovesFew(p, schedule, states, l);
      assert false;
    }
    k :| states(k).finished >= p.n;
    At(p, schedule, states, k);
    CountAtMost(p, states(k));
    Prefix(p, schedule, states, k);
    var ts, ss := FirstThreads(schedule, k), FirstStates(states, k);
    assert ss[k] in ss;
    Theorems.EndToEnd(p, ts, ss, states(k));
  }
}
