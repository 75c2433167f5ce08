/** A proxy behind another proxy, over whole runs: no share answer is ever passed on, because the other
    proxy acknowledges shares with a boolean and prints objects only for logins. */
module Chains {
  import opened Json
  import opened Stratum
  import opened Connections
  import opened EventLoops
  import opened Pools
  import opened Workers
  import opened Proxies
  import opened PoolRuns
  import opened Logins
  import opened Exchange

  // ----- Lines that another proxy prints --------------------------------------------------------

  /** A login with this id was offered on the connection. */
  predicate SentLogin(sent: seq<Msg>, id: int) {
    exists i :: 0 <= i < |sent| && sent[i].LoginMsg? && sent[i].id == id
  }

  /** The text of a message that a proxy prints; its login replies answer logins sent to it. */
  ghost predicate FromProxy(sent: seq<Msg>, line: string) {
    exists m :: CleanMsg(m) && line == Text(m) && (m.LoginReply? ==> SentLogin(sent, m.id))
  }

  /** Every pool line is one that another proxy prints. */
  ghost predicate PoolIsProxy(s: Sys, e: Event) {
    e.PoolLine? ==> e.fd in s.net.conns && FromProxy(s.net.conns[e.fd].sent, e.line)
  }

  /** The line offered last answers a login under its id with a login reply, a share with an
      acknowledgement. */
  predicate Replied(before: seq<Msg>, after: seq<Msg>, m: Msg) {
    && |after| == |before| + 1 && after[..|before|] == before
    && match m {
         case LoginMsg(_, _, id) => after[|before|].LoginReply? && after[|before|].id == id
         case SubmitMsg(id, _, _, _, _) => after[|before|] == SubmitAck(id)
         case _ => false
       }
  }

  /** A proxy does print login replies only for logins: its replies to what another proxy sends. */
  lemma RepliesAreInKind(whitelist: seq<string>, w: State, conns: map<int, Conn>, fd: int, m: Msg, env: Env)
    requires (m.LoginMsg? || m.SubmitMsg?) && CleanMsg(m) && fd in w.entries && fd in conns && conns[fd].CanSend()
    ensures var h := OnWorkerMessage(whitelist, w, conns, fd, Text(m), env);
      fd in h.conns && Replied(conns[fd].sent, h.conns[fd].sent, m)
  {
    if m.LoginMsg? {
      LoginRoundTrip(whitelist, w, conns, fd, m.wallet, m.password, m.id, env);
    } else {
      ShareRoundTrip(whitelist, w, conns, fd, m.id, Share(m.worker, m.jobId, m.nonce, m.result), env);
    }
  }

  /** What the pool side finds in a clean message: a method, a boolean result, or a login reply. */
  lemma ProxyLineReads(m: Msg)
    requires CleanMsg(m)
    ensures var v := Parse(Text(m));
      && v.Some?
      && (m.LoginMsg? || m.SubmitMsg? || m.JobMsg? ==> v.value.Has("method"))
      && (m.AuthorizeReply? || m.SubmitAck? ==> v.value.Has("result") && v.value.fields["result"].Bool?)
      && (m.LoginReply? ==> v.value.Has("id") && v.value.fields["id"] == Num(m.id))
  {
    CleanMsgReads(m);
    var ms := Layout(m).members;
    match m
    case LoginMsg(_, _, _) => MemberAt(ms, 0);
    case SubmitMsg(_, _, _, _, _) => MemberAt(ms, 1);
    case JobMsg(_) => MemberAt(ms, 1);
    case AuthorizeReply(_, _) => MemberAt(ms, 1);
    case SubmitAck(_) => MemberAt(ms, 2);
    case LoginReply(_, _, _) => MemberAt(ms, 0);
  }

  /** The id of a login is never pending. */
  lemma LoginIsNotPending(p: Pool, log: seq<Entry>, id: int)
    requires Books(p, log) && LoginIssued(id) in log
    ensures id !in p.shares
  {
    if id in p.shares {
      var k :| 0 <= k < |log| && log[k] == LoginIssued(id);
      var l :| 0 <= l < |log| && log[l] == ShareIssued(id, p.shares[id]);
      assert Issues(log[k]) && Issues(log[l]) && k != l;
    }
  }

  lemma ProxyLineDeliversNone(cfg: Config, p: Pool, conns: map<int, Conn>, fd: int, line: string, env: Env,
                              log: seq<Entry>)
    requires Books(p, log) && AllLogged(cfg.pools, conns, log) && fd in conns && FromProxy(conns[fd].sent, line)
    ensures !Delivers(p, line, env)
  {
    var m :| CleanMsg(m) && line == Text(m) && (m.LoginReply? ==> SentLogin(conns[fd].sent, m.id));
    ProxyLineReads(m);
    if m.LoginReply? {
      SentLoginIsLogged(cfg.pools, conns, fd, m.id, log);
      LoginIsNotPending(p, log, m.id);
    }
  }

  lemma SentLoginIsLogged(pools: seq<PoolConfig>, conns: map<int, Conn>, fd: int, id: int, log: seq<Entry>)
    requires AllLogged(pools, conns, log) && fd in conns && SentLogin(conns[fd].sent, id)
    ensures LoginIssued(id) in log
  {
    var i :| 0 <= i < |conns[fd].sent| && conns[fd].sent[i].LoginMsg? && conns[fd].sent[i].id == id;
    assert LoggedIfLogin(pools, conns[fd].sent[i], log);
  }

  // ----- The run --------------------------------------------------------------------------------

  /** From `start` pending shares and a log of length `n`, nothing was answered and nothing forgotten. */
  ghost predicate NoneAnswered(start: map<int, string>, n: nat, shares: map<int, string>, log: seq<Entry>) {
    && n <= |log|
    && (forall k :: n <= k < |log| ==> !log[k].AnswerRouted?)
    && (forall id :: id in start ==> id in shares && shares[id] == start[id])
  }

  ghost predicate ChainOk(cfg: Config, start: map<int, string>, n: nat, s: Sys, log: seq<Entry>) {
    && PoolOk(cfg.pools, s.pool) && Books(s.pool, log) && AllLogged(cfg.pools, s.net.conns, log)
    && NoneAnswered(start, n, s.pool.shares, log)
  }

  lemma EventAnswersNone(cfg: Config, s: Sys, e: Event, log: seq<Entry>)
    requires InRange(cfg, s) && PoolOk(cfg.pools, s.pool) && Books(s.pool, log)
    requires AllLogged(cfg.pools, s.net.conns, log)
    requires PoolIsProxy(s, e)
    ensures var t := Step(cfg, s, e); NoneAnswered(s.pool.shares, 0, t.sys.pool.shares, t.log)
  {
    if e.PoolLine? {
      ProxyLineDeliversNone(cfg, s.pool, s.net.conns, e.fd, e.line, e.env, log);
      AnswerPassedIff(cfg.pools, s.pool, s.net, e.line, e.env);
    } else {
      OtherEventsAnswerNone(cfg, s, e);
    }
  }

  lemma OtherEventsAnswerNone(cfg: Config, s: Sys, e: Event)
    requires InRange(cfg, s) && PoolOk(cfg.pools, s.pool) && !e.PoolLine?
    ensures var t := Step(cfg, s, e); NoneAnswered(s.pool.shares, 0, t.sys.pool.shares, t.log)
  {
    var m, net := PoolMove(cfg, s, e);
    assert !m.Message?;
    MoveAnswersNone(cfg.pools, s.pool, net, m, EnvOf(e));
  }

  lemma MoveAnswersNone(cfg: seq<PoolConfig>, p: Pool, net: Net, m: Move, env: Env)
    requires PoolOk(cfg, p) && !m.Message?
    ensures var o := Moved(cfg, p, net, m, env); NoneAnswered(p.shares, 0, o.pool.shares, o.log)
  {
    match m
    case Lose => GoDownKeepsShares(cfg, p, net, env);
    case Retry => TryConnectSelectsFirst(cfg, p, net, p.index, env);
    case _ =>
  }

  lemma EventKeepsChain(cfg: Config, start: map<int, string>, n: nat, s: Sys, e: Event, log: seq<Entry>)
    requires InRange(cfg, s) && ChainOk(cfg, start, n, s, log) && PoolIsProxy(s, e)
    ensures var t := Step(cfg, s, e); ChainOk(cfg, start, n, t.sys, log + t.log)
  {
    EventKeepsBooks(cfg, s, e, log);
    EventKeepsLogged(cfg, s, e, log);
    EventAnswersNone(cfg, s, e, log);
  }

  /** Over every run of a proxy whose pools are proxies: no share answer is passed on, no pending share is
      forgotten, and the pending map grows by exactly the shares forwarded. */
  lemma ChainNeverAnswers(cfg: Config, s: Sys, events: seq<Event>, log: seq<Entry>)
    requires InRange(cfg, s) && PoolOk(cfg.pools, s.pool) && Books(s.pool, log)
    requires AllLogged(cfg.pools, s.net.conns, log)
    requires Guarded(cfg, s, events, PoolIsProxy)
    ensures var t := Run(cfg, s, events);
      && !HasAnswer(t.log)
      && (forall id :: id in s.pool.shares ==> id in t.sys.pool.shares && t.sys.pool.shares[id] == s.pool.shares[id])
      && |t.sys.pool.shares| == |s.pool.shares| + Shares(t.log)
  {
    var start, n := s.pool.shares, |log|;
    var P: Claim := (x: Sys, l: seq<Entry>) => ChainOk(cfg, start, n, x, l);
    forall x, e, l | InRange(cfg, x) && P(x, l) && PoolIsProxy(x, e) ensures Keeps(cfg, P, x, e, l) {
      EventKeepsChain(cfg, start, n, x, e, l);
    }
    RunKeeps(cfg, PoolIsProxy, P, s, events, log);
    ChainEnds(cfg, s, Run(cfg, s, events), log);
  }

  lemma ChainEnds(cfg: Config, s: Sys, t: Stepped, log: seq<Entry>)
    requires Books(s.pool, log) && ChainOk(cfg, s.pool.shares, |log|, t.sys, log + t.log)
    ensures !HasAnswer(t.log)
    ensures |t.sys.pool.shares| == |s.pool.shares| + Shares(t.log)
  {
    forall i | 0 <= i < |t.log| ensures !t.log[i].AnswerRouted? {
      assert (log + t.log)[|log| + i] == t.log[i];
    }
    CountAppend(log, t.log);
    NoAnswers(t.log);
  }

  lemma {:induction false} NoAnswers(log: seq<Entry>)
    requires !HasAnswer(log)
    ensures Answers(log) == 0
  {
    if log != [] {
      assert !log[0].AnswerRouted?;
      forall i | 0 <= i < |log[1..]| ensures !log[1..][i].AnswerRouted? {
        assert log[1..][i] == log[i + 1];
      }
      NoAnswers(log[1..]);
    }
  }

  lemma ChainFromStart(cfg: Config, poolJob: Job, workerJob: Job, env: Env, events: seq<Event>)
    requires cfg.pools != []
    requires Guarded(cfg, Started(cfg, poolJob, workerJob, env), events, PoolIsProxy)
    ensures var t := Run(cfg, Started(cfg, poolJob, workerJob, env), events);
      !HasAnswer(t.log) && |t.sys.pool.shares| == Shares(t.log)
  {
    var s := Started(cfg, poolJob, workerJob, env);
    BooksAtStart(cfg, poolJob, workerJob, env);
    StartHasNoLogin(cfg, poolJob, workerJob, env);
    StartIsEmpty(cfg, poolJob, workerJob, env);
    ChainNeverAnswers(cfg, s, events, []);
  }

  lemma StartIsEmpty(cfg: Config, poolJob: Job, workerJob: Job, env: Env)
    requires cfg.pools != []
    ensures var s := Started(cfg, poolJob, workerJob, env); s.pool.shares == map[]
  {
    TryConnectSelectsFirst(cfg.pools, NewPool(cfg.pools, poolJob), Net(map[], []), 0, env);
  }
}
