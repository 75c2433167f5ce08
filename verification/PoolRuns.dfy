/** What holds of the pool side over every run of the proxy: its invariant, the routing of share
    answers, and the order in which failover visits the pools. */
module PoolRuns {
  import opened Wrappers
  import opened Arith
  import opened Json
  import opened Stratum
  import opened Connections
  import opened EventLoops
  import opened Pools
  import opened Workers
  import opened Proxies

  // ----- What one event does to the pool side ---------------------------------------------------

  datatype Move =
    | Stay
    | Message(effect: Effect)
    | Forward(share: Share)
    | LogIn
    | Lose
    | Retry

  function Moved(cfg: seq<PoolConfig>, p: Pool, net: Net, m: Move, env: Env): Out
    requires p.index < |cfg|
  {
    match m
    case Stay => Out(p, net, [])
    case Message(f) => Apply(cfg, p, net, f, env)
    case Forward(share) => SubmitShare(p, net, share, env)
    case LogIn => SendLogin(cfg, p, net, env)
    case Lose => GoDown(cfg, p, net, env)
    case Retry => var a := TryConnect(cfg, p, net, p.index, env); Out(a.pool, a.net, [])
  }

  function EnvOf(e: Event): Env {
    match e
    case Accepted(_, env) => env
    case WorkerLine(_, _, env) => env
    case PoolLine(_, _, env) => env
    case HandshakeTick(_, _, _, env) => env
    case ReconnectDue(_, env) => env
    case _ => Env(0, map[], {}, 0)
  }

  /** The events in which a connection to a pool can be created. */
  predicate MayConnect(e: Event) {
    e.PoolLine? || e.HandshakeTick? || e.ReconnectDue?
  }

  predicate MoveApplies(p: Pool, m: Move) {
    m.Message? ==> Applies(p, m.effect)
  }

  /** Every event is one of these moves for the pool side. */
  lemma PoolMove(cfg: Config, s: Sys, e: Event) returns (m: Move, net: Net)
    requires InRange(cfg, s)
    ensures MoveApplies(s.pool, m) && (!MayConnect(e) ==> m.Stay? || m.Forward?) && (m.Message? ==> e.PoolLine?)
    ensures var t := Step(cfg, s, e);
      var o := Moved(cfg.pools, s.pool, net, m, EnvOf(e));
      o.pool == t.sys.pool && o.log == t.log
  {
    m, net := Stay, s.net;
    match e
    case WorkerLine(fd, line, env) =>
      var h := OnWorkerMessage(cfg.whitelist, s.workers, s.net.conns, fd, line, env);
      if h.share.Some? {
        m, net := Forward(h.share.value), s.net.(conns := h.conns);
      }
    case PoolLine(fd, line, env) =>
      var f := MessageEffect(cfg.pools, s.pool, s.net, line, env);
      m := Message(f);
    case HandshakeTick(fd, attachOk, r, env) =>
      if fd in s.net.conns {
        var h := HandshakeStep(s.net.conns[fd], attachOk, r);
        net := s.net.(conns := s.net.conns[fd := h.conn]);
        m := if h.told == Some(Connected) then LogIn else if h.told == Some(ConnState.Error) then Lose else Stay;
      }
    case ReconnectDue(i, env) =>
      m := Retry;
      net := if i < |s.net.timers| then s.net.(timers := s.net.timers[..i] + s.net.timers[i + 1..]) else s.net;
    case _ =>
  }

  /** The first event of a run, as a move of the pool side, and the run that is left. */
  lemma FirstMove(cfg: Config, s: Sys, events: seq<Event>) returns (t: Stepped, m: Move, net: Net)
    requires InRange(cfg, s) && events != []
    ensures InRange(cfg, t.sys) && MoveApplies(s.pool, m) && t == Step(cfg, s, events[0])
    ensures !MayConnect(events[0]) ==> m.Stay? || m.Forward?
    ensures var o := Moved(cfg.pools, s.pool, net, m, EnvOf(events[0]));
      o.pool == t.sys.pool && o.log == t.log
    ensures var rest := Run(cfg, t.sys, events[1..]);
      Run(cfg, s, events) == Stepped(rest.sys, t.log + rest.log)
  {
    t := Step(cfg, s, events[0]);
    m, net := PoolMove(cfg, s, events[0]);
  }

  // ----- The invariant of the pool side ---------------------------------------------------------

  predicate PoolOk(cfg: seq<PoolConfig>, p: Pool) {
    && p.index < |cfg| && p.name == cfg[p.index].name
    && 0 <= p.attempts <= MAX_RECONNECT_ATTEMPTS
    && p.connected == p.authenticated
    && (p.subscribed ==> p.authenticated)
    && p.nextId >= 1
    && (forall id :: id in p.shares ==> 1 <= id < p.nextId)
  }

  lemma MoveKeepsPoolOk(cfg: seq<PoolConfig>, p: Pool, net: Net, m: Move, env: Env)
    requires PoolOk(cfg, p) && MoveApplies(p, m)
    ensures var q := Moved(cfg, p, net, m, env).pool;
      PoolOk(cfg, q) && p.nextId <= q.nextId <= p.nextId + 1
  {
    match m
    case Retry => TryConnectSelectsFirst(cfg, p, net, p.index, env);
    case Lose => GoDownKeepsPoolOk(cfg, p, net, env);
    case Message(f) => EffectKeepsPoolOk(cfg, p, net, f, env);
    case _ =>
  }

  lemma EffectKeepsPoolOk(cfg: seq<PoolConfig>, p: Pool, net: Net, f: Effect, env: Env)
    requires PoolOk(cfg, p) && Applies(p, f)
    ensures var q := Apply(cfg, p, net, f, env).pool;
      PoolOk(cfg, q) && q.nextId == p.nextId
  {
    if f.WentDown? {
      GoDownKeepsPoolOk(cfg, p, net, env);
    }
  }

  lemma GoDownKeepsPoolOk(cfg: seq<PoolConfig>, p: Pool, net: Net, env: Env)
    requires PoolOk(cfg, p)
    ensures var q := GoDown(cfg, p, net, env).pool;
      PoolOk(cfg, q) && q.nextId == p.nextId && q.shares == p.shares
  {
    if p.attempts == MAX_RECONNECT_ATTEMPTS {
      TryConnectSelectsFirst(cfg, Down(p).(attempts := 0), net, NextIndex(p.index, |cfg|), env);
    }
  }

  /** In every state the proxy can reach: the index is in range and names the current pool, there are
      at most five attempts, connected and authenticated agree, subscribed implies authenticated, and
      every pending share id was handed out. Ids grow by at most one per event, so a 32-bit counter
      does not overflow in the first 2^31 - 2 events. */
  lemma {:induction false} PoolOkAlways(cfg: Config, s: Sys, events: seq<Event>)
    requires InRange(cfg, s) && PoolOk(cfg.pools, s.pool)
    ensures var q := Run(cfg, s, events).sys.pool;
      PoolOk(cfg.pools, q) && s.pool.nextId <= q.nextId <= s.pool.nextId + |events|
    decreases events
  {
    if events != [] {
      var t, m, net := FirstMove(cfg, s, events);
      MoveKeepsPoolOk(cfg.pools, s.pool, net, m, EnvOf(events[0]));
      PoolOkAlways(cfg, t.sys, events[1..]);
    }
  }

  lemma PoolOkAtStart(cfg: Config, poolJob: Job, workerJob: Job, env: Env)
    requires cfg.pools != []
    ensures PoolOk(cfg.pools, Started(cfg, poolJob, workerJob, env).pool)
  {
    TryConnectSelectsFirst(cfg.pools, NewPool(cfg.pools, poolJob), Net(map[], []), 0, env);
  }

  // ----- Share routing --------------------------------------------------------------------------

  predicate Issues(e: Entry) {
    e.LoginIssued? || e.ShareIssued?
  }

  function Shares(log: seq<Entry>): nat {
    if log == [] then 0 else (if log[0].ShareIssued? then 1 else 0) + Shares(log[1..])
  }

  function Answers(log: seq<Entry>): nat {
    if log == [] then 0 else (if log[0].AnswerRouted? then 1 else 0) + Answers(log[1..])
  }

  /** Ids are handed out in increasing order, to logins and shares alike. */
  ghost predicate IdsIncrease(p: Pool, log: seq<Entry>) {
    && (forall k :: 0 <= k < |log| && Issues(log[k]) ==> 1 <= log[k].id < p.nextId)
    && (forall k, l :: 0 <= k < l < |log| && Issues(log[k]) && Issues(log[l]) ==> log[k].id < log[l].id)
  }

  /** An answer goes to the worker whose share was given its id, after that share, and at most once. */
  ghost predicate AnswersMatch(log: seq<Entry>) {
    && (forall l :: 0 <= l < |log| && log[l].AnswerRouted? ==>
          ShareIssued(log[l].id, log[l].worker) in log[..l])
    && (forall k, l :: 0 <= k < l < |log| && log[k].AnswerRouted? && log[l].AnswerRouted? ==>
          log[k].id != log[l].id)
  }

  /** The pending map holds exactly the shares without an answer. */
  ghost predicate PendingIsUnanswered(p: Pool, log: seq<Entry>) {
    && (forall id :: id in p.shares ==> ShareIssued(id, p.shares[id]) in log && !AnsweredIn(log, id))
    && (forall k :: 0 <= k < |log| && log[k].ShareIssued? ==> log[k].id in p.shares || AnsweredIn(log, log[k].id))
  }

  ghost predicate AnsweredIn(log: seq<Entry>, id: int) {
    exists l :: 0 <= l < |log| && log[l].AnswerRouted? && log[l].id == id
  }

  ghost predicate Books(p: Pool, log: seq<Entry>) {
    && IdsIncrease(p, log)
    && AnswersMatch(log)
    && PendingIsUnanswered(p, log)
    && Shares(log) == Answers(log) + |p.shares|
  }

  lemma {:induction false} CountAppend(a: seq<Entry>, b: seq<Entry>)
    ensures Shares(a + b) == Shares(a) + Shares(b)
    ensures Answers(a + b) == Answers(a) + Answers(b)
  {
    if a == [] {
      assert a + b == b;
    } else {
      assert (a + b)[1..] == a[1..] + b;
      CountAppend(a[1..], b);
    }
  }

  lemma CountOne(e: Entry)
    ensures Shares([e]) == (if e.ShareIssued? then 1 else 0)
    ensures Answers([e]) == (if e.AnswerRouted? then 1 else 0)
  {
    assert [e][1..] == [];
  }

  /** An entry that is neither an id nor an answer leaves the books as they are. */
  lemma BooksOther(p: Pool, q: Pool, log: seq<Entry>, e: Entry)
    requires Books(p, log) && q.shares == p.shares && q.nextId == p.nextId
    requires !Issues(e) && !e.AnswerRouted?
    ensures Books(q, log + [e])
  {
    IdsStay(p, q, log, e);
    AnswersGrow(log, e);
    PendingGrows(p, q, log, e);
    CountsGrow(log, e);
  }

  lemma CountsGrow(log: seq<Entry>, e: Entry)
    ensures Shares(log + [e]) == Shares(log) + (if e.ShareIssued? then 1 else 0)
    ensures Answers(log + [e]) == Answers(log) + (if e.AnswerRouted? then 1 else 0)
  {
    CountAppend(log, [e]);
    CountOne(e);
  }

  lemma IdsStay(p: Pool, q: Pool, log: seq<Entry>, e: Entry)
    requires IdsIncrease(p, log) && q.nextId == p.nextId && !Issues(e)
    ensures IdsIncrease(q, log + [e])
  {
  }

  lemma IdsGrow(p: Pool, q: Pool, log: seq<Entry>, e: Entry)
    requires IdsIncrease(p, log) && q.nextId == p.nextId + 1
    requires Issues(e) && e.id == p.nextId >= 1
    ensures IdsIncrease(q, log + [e])
  {
  }

  lemma AnswersGrow(log: seq<Entry>, e: Entry)
    requires AnswersMatch(log)
    requires e.AnswerRouted? ==> ShareIssued(e.id, e.worker) in log && !AnsweredIn(log, e.id)
    ensures AnswersMatch(log + [e])
  {
    var all := log + [e];
    forall l | 0 <= l < |all| && all[l].AnswerRouted?
      ensures ShareIssued(all[l].id, all[l].worker) in all[..l]
    {
      if l < |log| {
        assert all[..l] == log[..l];
      } else {
        assert all[..l] == log;
      }
    }
  }

  lemma PendingGrows(p: Pool, q: Pool, log: seq<Entry>, e: Entry)
    requires PendingIsUnanswered(p, log) && q.shares == p.shares
    requires !e.AnswerRouted? && !e.ShareIssued?
    ensures PendingIsUnanswered(q, log + [e])
  {
    AnsweredGrows(log, e);
  }

  lemma AnsweredGrows(log: seq<Entry>, e: Entry)
    ensures forall id :: AnsweredIn(log + [e], id) <==> AnsweredIn(log, id) || (e.AnswerRouted? && id == e.id)
  {
    var all := log + [e];
    assert all[|log|] == e;
    forall id ensures AnsweredIn(all, id) <==> AnsweredIn(log, id) || (e.AnswerRouted? && id == e.id) {
      if AnsweredIn(log, id) {
        var l :| 0 <= l < |log| && log[l].AnswerRouted? && log[l].id == id;
        assert all[l] == log[l];
      }
    }
  }

  lemma BooksLogin(p: Pool, log: seq<Entry>)
    requires Books(p, log) && p.nextId >= 1
    ensures Books(p.(nextId := p.nextId + 1), log + [LoginIssued(p.nextId)])
  {
    var e := LoginIssued(p.nextId);
    var q := p.(nextId := p.nextId + 1);
    IdsGrow(p, q, log, e);
    AnswersGrow(log, e);
    PendingGrows(p, q, log, e);
    CountsGrow(log, e);
  }

  /** The pool side after a share was forwarded. */
  function WithShare(p: Pool, worker: string): Pool {
    p.(nextId := p.nextId + 1, shares := p.shares[p.nextId := worker])
  }

  lemma BooksShare(p: Pool, log: seq<Entry>, worker: string)
    requires Books(p, log) && p.nextId >= 1
    requires forall id :: id in p.shares ==> id < p.nextId
    ensures Books(WithShare(p, worker), log + [ShareIssued(p.nextId, worker)])
  {
    var e := ShareIssued(p.nextId, worker);
    NewIdIsUnanswered(p, log);
    IdsGrow(p, WithShare(p, worker), log, e);
    AnswersGrow(log, e);
    PendingGains(p, log, worker);
    CountsGrow(log, e);
    OneMoreShare(p.shares, p.nextId, worker);
  }

  lemma OneMoreShare(shares: map<int, string>, id: int, worker: string)
    requires id !in shares
    ensures |shares[id := worker]| == |shares| + 1
  {
    assert shares[id := worker].Keys == shares.Keys + {id};
  }

  lemma NewIdIsUnanswered(p: Pool, log: seq<Entry>)
    requires IdsIncrease(p, log) && AnswersMatch(log)
    ensures !AnsweredIn(log, p.nextId)
  {
    forall l | 0 <= l < |log| && log[l].AnswerRouted? ensures log[l].id < p.nextId {
      assert ShareIssued(log[l].id, log[l].worker) in log[..l];
      var k :| 0 <= k < l && log[..l][k] == ShareIssued(log[l].id, log[l].worker);
      assert Issues(log[k]);
    }
  }

  lemma PendingGains(p: Pool, log: seq<Entry>, worker: string)
    requires PendingIsUnanswered(p, log) && !AnsweredIn(log, p.nextId)
    ensures PendingIsUnanswered(WithShare(p, worker), log + [ShareIssued(p.nextId, worker)])
  {
    var all := log + [ShareIssued(p.nextId, worker)];
    AnsweredGrows(log, ShareIssued(p.nextId, worker));
    assert all[|log|] == ShareIssued(p.nextId, worker);
    forall k | 0 <= k < |log| ensures all[k] == log[k] {}
  }

  /** The pool side after an answer was passed on. */
  function WithoutShare(p: Pool, id: int): Pool {
    p.(shares := p.shares - {id})
  }

  lemma BooksAnswer(p: Pool, log: seq<Entry>, id: int, accepted: bool, error: string)
    requires Books(p, log) && id in p.shares
    ensures Books(WithoutShare(p, id), log + [AnswerRouted(id, p.shares[id], accepted, error)])
  {
    var e := AnswerRouted(id, p.shares[id], accepted, error);
    IdsStay(p, WithoutShare(p, id), log, e);
    AnswersGrow(log, e);
    PendingLoses(p, log, id, e);
    CountsGrow(log, e);
    OneLessShare(p.shares, id);
  }

  lemma OneLessShare(shares: map<int, string>, id: int)
    requires id in shares
    ensures |shares - {id}| == |shares| - 1
  {
    assert (shares - {id}).Keys == shares.Keys - {id};
  }

  lemma PendingLoses(p: Pool, log: seq<Entry>, id: int, e: Entry)
    requires PendingIsUnanswered(p, log) && e.AnswerRouted? && e.id == id
    ensures PendingIsUnanswered(WithoutShare(p, id), log + [e])
  {
    AnsweredGrows(log, e);
  }

  lemma MoveKeepsBooks(cfg: seq<PoolConfig>, p: Pool, net: Net, m: Move, env: Env, log: seq<Entry>)
    requires PoolOk(cfg, p) && MoveApplies(p, m) && Books(p, log)
    ensures var o := Moved(cfg, p, net, m, env); Books(o.pool, log + o.log)
  {
    match m
    case Stay => BooksSame(p, p, log);
    case LogIn => BooksLogin(p, log);
    case Forward(share) => SubmitKeepsBooks(p, net, share, env, log);
    case Retry =>
      TryConnectSelectsFirst(cfg, p, net, p.index, env);
      BooksSame(p, TryConnect(cfg, p, net, p.index, env).pool, log);
    case Lose => FailureKeepsBooks(cfg, p, net, env, log);
    case Message(f) => EffectKeepsBooks(cfg, p, net, f, env, log);
  }

  lemma SubmitKeepsBooks(p: Pool, net: Net, share: Share, env: Env, log: seq<Entry>)
    requires Books(p, log) && p.nextId >= 1
    requires forall id :: id in p.shares ==> id < p.nextId
    ensures var o := SubmitShare(p, net, share, env); Books(o.pool, log + o.log)
  {
    if p.connected && p.hasJob {
      BooksShare(p, log, share.worker);
    } else {
      BooksSame(p, p, log);
    }
  }

  lemma FailureKeepsBooks(cfg: seq<PoolConfig>, p: Pool, net: Net, env: Env, log: seq<Entry>)
    requires PoolOk(cfg, p) && Books(p, log)
    ensures var o := GoDown(cfg, p, net, env); Books(o.pool, log + o.log)
  {
    GoDownKeepsPoolOk(cfg, p, net, env);
    BooksOther(p, GoDown(cfg, p, net, env).pool, log, PoolFailed);
  }

  lemma BooksSame(p: Pool, q: Pool, log: seq<Entry>)
    requires Books(p, log) && q.shares == p.shares && q.nextId == p.nextId
    ensures Books(q, log + [])
  {
    assert log + [] == log;
  }

  lemma EffectKeepsBooks(cfg: seq<PoolConfig>, p: Pool, net: Net, f: Effect, env: Env, log: seq<Entry>)
    requires PoolOk(cfg, p) && Books(p, log)
    ensures var o := Apply(cfg, p, net, f, env); Books(o.pool, log + o.log)
  {
    match f
    case Nothing => BooksSame(p, p, log);
    case Torn(login, job) => BooksSame(p, (if login then LoggedIn(p) else p).(job := job), log);
    case WentUp => BooksOther(p, GoUp(p, net).pool, log, PoolAuthenticated);
    case WentDown => FailureKeepsBooks(cfg, p, net, env, log);
    case Answered(login, id, error) => AnswerKeepsBooks(p, net, login, id, error, log);
    case Adopted(login, job) => AdoptionKeepsBooks(p, net, login, job, log);
  }

  lemma AnswerKeepsBooks(p: Pool, net: Net, login: bool, id: int, error: Value, log: seq<Entry>)
    requires Books(p, log)
    ensures var o := RouteAnswer(if login then LoggedIn(p) else p, net, id, error); Books(o.pool, log + o.log)
  {
    var q := if login then LoggedIn(p) else p;
    BooksSame(p, q, log);
    assert log + [] == log;
    if id in q.shares {
      BooksAnswer(q, log, id, IsEmptyValue(error), if error.Str? then error.s else "");
    }
  }

  lemma AdoptionKeepsBooks(p: Pool, net: Net, login: bool, job: Job, log: seq<Entry>)
    requires Books(p, log)
    ensures var o := if login then AdoptAssigned(LoggedIn(p), net, Assigned(job, true))
                     else Out(p.(job := job, hasJob := true), net, [JobAdopted(job)]);
      Books(o.pool, log + o.log)
  {
    if login {
      var q := AdoptAssigned(LoggedIn(p), net, Assigned(job, true)).pool;
      BooksOther(p, q, log, PoolAuthenticated);
      BooksOther(q, q, log + [PoolAuthenticated], JobAdopted(job));
      assert log + [PoolAuthenticated] + [JobAdopted(job)] == log + [PoolAuthenticated, JobAdopted(job)];
    } else {
      BooksOther(p, p.(job := job, hasJob := true), log, JobAdopted(job));
    }
  }

  /** Over every run: an answer is passed on only for an id that a share was given, only to the worker
      of that share, and at most once per id; a login's id is never among them; and the shares
      forwarded are the answers passed on plus the pending entries. */
  lemma BooksAlways(cfg: Config, s: Sys, events: seq<Event>, log: seq<Entry>)
    requires InRange(cfg, s) && PoolOk(cfg.pools, s.pool) && Books(s.pool, log)
    ensures var t := Run(cfg, s, events); Books(t.sys.pool, log + t.log)
  {
    var P: Claim := (x: Sys, l: seq<Entry>) => PoolOk(cfg.pools, x.pool) && Books(x.pool, l);
    forall x, e, l | InRange(cfg, x) && P(x, l) ensures Keeps(cfg, P, x, e, l) {
      EventKeepsBooks(cfg, x, e, l);
    }
    GuardedByEvents(cfg, s, events, (x, e) => true);
    RunKeeps(cfg, (x, e) => true, P, s, events, log);
  }

  lemma EventKeepsBooks(cfg: Config, s: Sys, e: Event, log: seq<Entry>)
    requires InRange(cfg, s) && PoolOk(cfg.pools, s.pool) && Books(s.pool, log)
    ensures var t := Step(cfg, s, e); PoolOk(cfg.pools, t.sys.pool) && Books(t.sys.pool, log + t.log)
  {
    var m, net := PoolMove(cfg, s, e);
    MoveKeepsPoolOk(cfg.pools, s.pool, net, m, EnvOf(e));
    MoveKeepsBooks(cfg.pools, s.pool, net, m, EnvOf(e), log);
  }

  /** A login's id is never answered as a share. */
  lemma LoginsAreNotAnswered(p: Pool, log: seq<Entry>)
    requires Books(p, log)
    ensures forall k, l ::
      (0 <= k < |log| && 0 <= l < |log| && log[k].LoginIssued? && log[l].AnswerRouted?) ==>
      log[k].id != log[l].id
  {
    forall k, l | 0 <= k < |log| && 0 <= l < |log| && log[k].LoginIssued? && log[l].AnswerRouted?
      ensures log[k].id != log[l].id
    {
      assert ShareIssued(log[l].id, log[l].worker) in log[..l];
      var j :| 0 <= j < l && log[..l][j] == ShareIssued(log[l].id, log[l].worker);
      assert Issues(log[j]) && Issues(log[k]) && j != k;
    }
  }

  lemma BooksAtStart(cfg: Config, poolJob: Job, workerJob: Job, env: Env)
    requires cfg.pools != []
    ensures var p := Started(cfg, poolJob, workerJob, env).pool; PoolOk(cfg.pools, p) && Books(p, [])
  {
    PoolOkAtStart(cfg, poolJob, workerJob, env);
    TryConnectSelectsFirst(cfg.pools, NewPool(cfg.pools, poolJob), Net(map[], []), 0, env);
  }

  /** Share routing from the start of the proxy. */
  lemma ShareRouting(cfg: Config, poolJob: Job, workerJob: Job, env: Env, events: seq<Event>)
    requires cfg.pools != []
    ensures var t := Run(cfg, Started(cfg, poolJob, workerJob, env), events);
      Books(t.sys.pool, t.log)
  {
    var s := Started(cfg, poolJob, workerJob, env);
    BooksAtStart(cfg, poolJob, workerJob, env);
    BooksAlways(cfg, s, events, []);
    assert [] + Run(cfg, s, events).log == Run(cfg, s, events).log;
  }

  // ----- Failover -------------------------------------------------------------------------------

  function Failures(log: seq<Entry>): nat {
    if log == [] then 0 else (if log[0].PoolFailed? then 1 else 0) + Failures(log[1..])
  }

  predicate NoLogin(log: seq<Entry>) {
    forall e :: e in log ==> !e.PoolAuthenticated?
  }

  /** Position on the cycle of six connection attempts for each pool. */
  function Position(p: Pool): int {
    6 * p.index + p.attempts
  }

  /** Whatever pool is tried during the event, a connection to it can be created. */
  predicate Creatable(n: nat, env: Env) {
    forall i: nat :: i < n ==> i in env.connect
  }

  predicate AllCreatable(n: nat, events: seq<Event>) {
    forall e :: e in events && MayConnect(e) ==> Creatable(n, EnvOf(e))
  }

  function Successor(c: int, m: int): int {
    if c + 1 == m then 0 else c + 1
  }

  /** A failure advances the position by one exactly when it only retries, or when a connection to the
      next pool can be created, or when the next pool is the last one, where the search ends anyway. */
  lemma FailureAdvancesIff(cfg: seq<PoolConfig>, p: Pool, net: Net, env: Env)
    requires PoolOk(cfg, p)
    ensures var next := NextIndex(p.index, |cfg|);
      Position(GoDown(cfg, p, net, env).pool) == Successor(Position(p), 6 * |cfg|)
      <==> (p.attempts < MAX_RECONNECT_ATTEMPTS || next in env.connect || next == |cfg| - 1)
  {
    if p.attempts == MAX_RECONNECT_ATTEMPTS {
      NextIndexIs(p.index, |cfg|);
      TryConnectSelectsFirst(cfg, Down(p).(attempts := 0), net, NextIndex(p.index, |cfg|), env);
    }
  }

  lemma NextIndexIs(i: nat, n: nat)
    requires i < n
    ensures NextIndex(i, n) == if i + 1 == n then 0 else i + 1
  {
    DivModUnique(i, n, 0, i);
    ModSuccessor(i, n);
  }

  /** Without a login, a failure moves the position on by one and nothing else moves it. */
  predicate Advances(n: nat, p: Pool, q: Pool, log: seq<Entry>) {
    NoLogin(log) ==>
      && Failures(log) <= 1
      && Position(q) == (if Failures(log) == 0 then Position(p) else Successor(Position(p), 6 * n))
  }

  lemma MoveAdvances(cfg: seq<PoolConfig>, p: Pool, net: Net, m: Move, env: Env)
    requires PoolOk(cfg, p) && MoveApplies(p, m)
    requires Creatable(|cfg|, env) || m.Stay? || m.Forward?
    ensures var o := Moved(cfg, p, net, m, env); Advances(|cfg|, p, o.pool, o.log)
  {
    var o := Moved(cfg, p, net, m, env);
    if m.Retry? {
      TryConnectSelectsFirst(cfg, p, net, p.index, env);
    } else if m.Lose? || (m.Message? && m.effect.WentDown?) {
      FailureAdvancesIff(cfg, p, net, env);
      assert o.log == [PoolFailed];
      assert Failures(o.log[1..]) == 0;
    } else {
      FewEntries(cfg, p, net, m, env);
    }
  }

  lemma FewEntries(cfg: seq<PoolConfig>, p: Pool, net: Net, m: Move, env: Env)
    requires PoolOk(cfg, p) && MoveApplies(p, m)
    requires !m.Retry? && !m.Lose? && !(m.Message? && m.effect.WentDown?)
    ensures var o := Moved(cfg, p, net, m, env);
      Failures(o.log) == 0 && (NoLogin(o.log) ==> Position(o.pool) == Position(p))
  {
    var o := Moved(cfg, p, net, m, env);
    if |o.log| == 1 {
      assert Failures(o.log[1..]) == 0;
    }
    if m.Message? && m.effect.Adopted? && m.effect.login {
      assert PoolAuthenticated in o.log;
      assert o.log[1..][1..] == [];
    }
  }

  lemma {:induction false} FailuresAppend(a: seq<Entry>, b: seq<Entry>)
    ensures Failures(a + b) == Failures(a) + Failures(b)
  {
    if a == [] {
      assert a + b == b;
    } else {
      assert (a + b)[1..] == a[1..] + b;
      FailuresAppend(a[1..], b);
    }
  }

  lemma EventAdvances(cfg: Config, s: Sys, e: Event)
    requires InRange(cfg, s) && PoolOk(cfg.pools, s.pool)
    requires MayConnect(e) ==> Creatable(|cfg.pools|, EnvOf(e))
    ensures var t := Step(cfg, s, e);
      PoolOk(cfg.pools, t.sys.pool) && Advances(|cfg.pools|, s.pool, t.sys.pool, t.log)
  {
    var m, net := PoolMove(cfg, s, e);
    MoveKeepsPoolOk(cfg.pools, s.pool, net, m, EnvOf(e));
    MoveAdvances(cfg.pools, s.pool, net, m, EnvOf(e));
  }

  ghost predicate OnCounter(cfg: seq<PoolConfig>, start: Pool, p: Pool, log: seq<Entry>) {
    && PoolOk(cfg, start) && PoolOk(cfg, p)
    && (NoLogin(log) ==> Position(p) == (Position(start) + Failures(log)) % (6 * |cfg|))
  }

  lemma EventKeepsCounter(cfg: Config, start: Pool, s: Sys, e: Event, log: seq<Entry>)
    requires InRange(cfg, s) && OnCounter(cfg.pools, start, s.pool, log)
    requires MayConnect(e) ==> Creatable(|cfg.pools|, EnvOf(e))
    ensures var t := Step(cfg, s, e); OnCounter(cfg.pools, start, t.sys.pool, log + t.log)
  {
    EventAdvances(cfg, s, e);
    var t := Step(cfg, s, e);
    AdvanceKeepsCounter(cfg.pools, start, s.pool, t.sys.pool, log, t.log);
  }

  lemma AdvanceKeepsCounter(cfg: seq<PoolConfig>, start: Pool, p: Pool, q: Pool, log: seq<Entry>, more: seq<Entry>)
    requires OnCounter(cfg, start, p, log) && PoolOk(cfg, q) && Advances(|cfg|, p, q, more)
    ensures OnCounter(cfg, start, q, log + more)
  {
    AdvanceAdds(|cfg|, p, q, log, more, Position(start));
  }

  lemma CounterStarts(cfg: seq<PoolConfig>, p: Pool)
    requires PoolOk(cfg, p)
    ensures OnCounter(cfg, p, p, [])
  {
    DivModUnique(Position(p), 6 * |cfg|, 0, Position(p));
  }

  /** While connections can be created and nothing logs in, failures are all that moves the failover,
      and each moves it by one: after `k` failures the position is the old one plus `k`, modulo six
      times the number of pools. */
  lemma FailoverIsACounter(cfg: Config, s: Sys, events: seq<Event>)
    requires InRange(cfg, s) && PoolOk(cfg.pools, s.pool) && AllCreatable(|cfg.pools|, events)
    ensures var t := Run(cfg, s, events); OnCounter(cfg.pools, s.pool, t.sys.pool, t.log)
  {
    var G: Guard := (x: Sys, e: Event) => MayConnect(e) ==> Creatable(|cfg.pools|, EnvOf(e));
    var P: Claim := (x: Sys, l: seq<Entry>) => OnCounter(cfg.pools, s.pool, x.pool, l);
    CounterStarts(cfg.pools, s.pool);
    GuardedByEvents(cfg, s, events, G);
    forall x, e, l | InRange(cfg, x) && P(x, l) && G(x, e) ensures Keeps(cfg, P, x, e, l) {
      EventKeepsCounter(cfg, s.pool, x, e, l);
    }
    RunKeeps(cfg, G, P, s, events, []);
    assert [] + Run(cfg, s, events).log == Run(cfg, s, events).log;
  }

  lemma AdvanceAdds(n: nat, p: Pool, q: Pool, l: seq<Entry>, more: seq<Entry>, c: int)
    requires n > 0 && c >= 0 && Advances(n, p, q, more)
    requires NoLogin(l) ==> Position(p) == (c + Failures(l)) % (6 * n)
    ensures NoLogin(l + more) ==> Position(q) == (c + Failures(l + more)) % (6 * n)
  {
    if NoLogin(l + more) {
      assert forall e :: e in l ==> e in l + more;
      assert forall e :: e in more ==> e in l + more;
      FailuresAppend(l, more);
      ModSuccessor(c + Failures(l), 6 * n);
    }
  }

  /** On the counter, after `k` failures the pool in use is `(attempts + k) / 6` places further round
      the list. */
  lemma FailoverIndex(cfg: seq<PoolConfig>, start: Pool, p: Pool, log: seq<Entry>)
    requires OnCounter(cfg, start, p, log)
    ensures NoLogin(log) ==> p.index == (start.index + (start.attempts + Failures(log)) / 6) % |cfg|
  {
    if NoLogin(log) {
      IndexOfPosition(start.index, start.attempts + Failures(log), |cfg|, p.index, p.attempts);
    }
  }

  lemma IndexOfPosition(index: int, k: nat, n: nat, index': int, attempts': int)
    requires n > 0 && 0 <= index' < n && 0 <= attempts' <= 5
    requires 6 * index' + attempts' == (6 * index + k) % (6 * n)
    ensures index' == (index + k / 6) % n
  {
    var c := 6 * index + k;
    var q := c / (6 * n);
    assert c == 6 * n * q + (6 * index' + attempts');
    assert 6 * n * q == 6 * (n * q);
    assert index + k / 6 == n * q + index';
    DivModUnique(index + k / 6, n, q, index');
  }

  /** Some state of the run uses the pool. */
  predicate Visits(cfg: Config, s: Sys, events: seq<Event>, target: nat)
    requires InRange(cfg, s)
    decreases events
  {
    s.pool.index == target ||
    (events != [] && Visits(cfg, Step(cfg, s, events[0]).sys, events[1..], target))
  }

  /** How many failures it takes from a position to the first attempt at a pool. */
  function Distance(p: Pool, n: nat, target: nat): int {
    if 6 * target >= Position(p) then 6 * target - Position(p) else 6 * target - Position(p) + 6 * n
  }

  /** Enough failures visit any given pool; six times the number of pools are always enough. */
  lemma {:induction false} FailoverVisitsEveryPool(cfg: Config, s: Sys, events: seq<Event>, target: nat)
    requires InRange(cfg, s) && PoolOk(cfg.pools, s.pool) && AllCreatable(|cfg.pools|, events)
    requires NoLogin(Run(cfg, s, events).log)
    requires target < |cfg.pools|
    requires Failures(Run(cfg, s, events).log) >= Distance(s.pool, |cfg.pools|, target)
    ensures Distance(s.pool, |cfg.pools|, target) < 6 * |cfg.pools|
    ensures Visits(cfg, s, events, target)
    decreases events
  {
    if s.pool.index != target && events != [] {
      var t := NextOnTheWay(cfg, s, events, target);
      FailoverVisitsEveryPool(cfg, t.sys, events[1..], target);
    }
  }

  lemma NextOnTheWay(cfg: Config, s: Sys, events: seq<Event>, target: nat) returns (t: Stepped)
    requires events != [] && s.pool.index != target && target < |cfg.pools|
    requires InRange(cfg, s) && PoolOk(cfg.pools, s.pool) && AllCreatable(|cfg.pools|, events)
    requires NoLogin(Run(cfg, s, events).log)
    requires Failures(Run(cfg, s, events).log) >= Distance(s.pool, |cfg.pools|, target)
    ensures InRange(cfg, t.sys) && PoolOk(cfg.pools, t.sys.pool) && AllCreatable(|cfg.pools|, events[1..])
    ensures Visits(cfg, t.sys, events[1..], target) ==> Visits(cfg, s, events, target)
    ensures NoLogin(Run(cfg, t.sys, events[1..]).log)
    ensures Failures(Run(cfg, t.sys, events[1..]).log) >= Distance(t.sys.pool, |cfg.pools|, target)
  {
    t := Step(cfg, s, events[0]);
    assert events[0] in events;
    EventAdvances(cfg, s, events[0]);
    var rest := Run(cfg, t.sys, events[1..]);
    assert forall e :: e in t.log ==> e in t.log + rest.log;
    assert forall e :: e in rest.log ==> e in t.log + rest.log;
    assert forall e :: e in events[1..] ==> e in events;
    FailuresAppend(t.log, rest.log);
  }
}
