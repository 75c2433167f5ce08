/** The safety theorem of the relay: what holds in every state that the started proxy can reach. */
module Safety {
  import opened Stratum
  import opened Pools
  import opened Workers
  import opened Proxies
  import opened PoolRuns
  import opened LoginFirst
  import opened WorkerRuns
  import opened Mirror

  /** For every configuration with a pool and every possible run from the start: the pool side keeps its
      invariant and its books on share answers, pool connections start with a login, authorized workers
      are vetted, and ready workers outside the gap hold the current job. */
  lemma RelayIsSafe(cfg: Config, poolJob: Job, workerJob: Job, env: Env, events: seq<Event>)
    requires cfg.pools != []
    requires forall i :: i in env.connect ==> env.connect[i] >= 0
    requires Possible(cfg, Started(cfg, poolJob, workerJob, env), events)
    ensures var s := Started(cfg, poolJob, workerJob, env);
      var t := Run(cfg, s, events);
      && PoolOk(cfg.pools, t.sys.pool)
      && Books(t.sys.pool, t.log)
      && LoginsFirst(t.sys)
      && Good(cfg, t.sys.workers, t.sys.net.conns, GapAfterRun(cfg, s, events, {}))
  {
    var s := Started(cfg, poolJob, workerJob, env);
    PoolOkAtStart(cfg, poolJob, workerJob, env);
    PoolOkAlways(cfg, s, events);
    ShareRouting(cfg, poolJob, workerJob, env, events);
    StartIsOrderly(cfg, poolJob, workerJob, env);
    LoginIsAlwaysFirst(cfg, s, events);
    StartIsGood(cfg, poolJob, workerJob, env);
    WorkersAlwaysGood(cfg, s, events, {});
  }

  /** The same for nonces, with at most 2^32 accepted workers, and for the two job copies, with
      well-formed job messages. */
  lemma RelayIsSafeWithin(cfg: Config, poolJob: Job, workerJob: Job, env: Env, events: seq<Event>)
    requires cfg.pools != []
    requires Accepts(events) <= NONCE_COUNT
    requires forall e :: e in events && e.PoolLine? ==> WellFormed(e.line)
    ensures var t := Run(cfg, Started(cfg, poolJob, workerJob, env), events);
      NoncesOk(t.sys.workers, Accepts(events)) && Mirrored(t.sys)
  {
    var s := Started(cfg, poolJob, workerJob, env);
    TrackEnds(s.workers, workerJob, Accepts(events), events);
    NoncesAreUnique(cfg, s, events, Accepts(events));
    TrackEnds(Run(cfg, s, events).sys.workers, workerJob, Accepts(events), events);
    StartIsMirrored(cfg, poolJob, workerJob, env);
    AlwaysMirrored(cfg, s, events);
  }
}
