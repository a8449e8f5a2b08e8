/** The reconciliation performed by CShroudnode::Check, as a function from
    the fields Check reads to the four fields it may write. The method
    NodeRecord.Check in module Node is proved to change the record exactly
    as this function says. */
module NodeCheck {
  import opened ShroudTypes

  /** The fields Check writes. */
  datatype Standing = Standing(state: NodeState, timeLastChecked: int, poseBanScore: int, poseBanHeight: int)

  /** The fields Check only reads. */
  datatype Evidence = Evidence(protocolVersion: int, operatorKey: Key, lastPing: Ping,
                               sigTime: int, timeLastWatchdogVote: int)

  /** A non-forced check within SHROUDNODE_CHECK_SECONDS of the last one. */
  predicate Throttled(st: Standing, force: bool, env: Env)
  {
    !force && env.now - st.timeLastChecked < env.c.checkSeconds
  }

  /** The check runs at all: no shutdown, not throttled. */
  predicate Proceeds(st: Standing, force: bool, env: Env)
  {
    !env.shutdown && !Throttled(st, force, env)
  }

  /** The check gets past the collateral test and reaches the ban step. */
  predicate ReachesBanStep(st: Standing, force: bool, env: Env)
  {
    Proceeds(st, force, env) && st.state != OutpointSpent && !env.chainBusy && env.utxoPresent
  }

  /** Below the payment protocol, or our own node outside the activation band. */
  predicate RequiresUpdate(ev: Evidence, env: Env)
  {
    || ev.protocolVersion < env.minPaymentProto
    || (IsOurs(env, ev.operatorKey)
        && (ev.protocolVersion < env.c.minPaymentProto1 || ev.protocolVersion > env.c.minPaymentProto2))
  }

  /** The list is not synced yet and no recent ping has arrived. */
  predicate WaitingForPing(ev: Evidence, env: Env)
  {
    !env.listSynced && !PingedWithin(ev.lastPing, env.c.minMnpSeconds, env.now)
  }

  predicate WatchdogHasExpired(ev: Evidence, env: Env)
  {
    env.synced && env.watchdogActive && env.now - ev.timeLastWatchdogVote > env.c.watchdogMaxSeconds
  }

  /** The node is judged on its pings: it meets the protocol and is either
      not waiting for a ping or is our own node. */
  predicate SubjectToExpiry(ev: Evidence, env: Env)
  {
    !RequiresUpdate(ev, env) && (!WaitingForPing(ev, env) || IsOurs(env, ev.operatorKey))
  }

  /** The states a node waiting for a ping keeps during list sync. */
  predicate IsDeadState(s: NodeState)
  {
    s == Expired || s == WatchdogExpired || s == NewStartRequired
  }

  /** DecreasePoSeBanScore: one step towards -SHROUDNODE_POSE_BAN_MAX_SCORE, never below it. */
  function DecreasedBanScore(score: int, c: Consts): (r: int)
    ensures r <= score
    ensures r < score <==> score > -c.poseBanMaxScore
    ensures r < score ==> r == score - 1
  {
    if score > -c.poseBanMaxScore then score - 1 else score
  }

  /** The state ladder after the ban step: the first of UPDATE_REQUIRED,
      NEW_START_REQUIRED, WATCHDOG_EXPIRED, EXPIRED, PRE_ENABLED that
      applies, else ENABLED; a foreign node waiting for its first ping in a
      dead state keeps it. */
  function Ladder(current: NodeState, ev: Evidence, env: Env): (r: NodeState)
    ensures r != OutpointSpent && r != PoSeBan
    ensures r == UpdateRequired <==> RequiresUpdate(ev, env)
    ensures (&& !RequiresUpdate(ev, env) && WaitingForPing(ev, env) && !IsOurs(env, ev.operatorKey)
             && IsDeadState(current)) ==> r == current
    ensures SubjectToExpiry(ev, env) && !PingedWithin(ev.lastPing, env.c.newStartRequiredSeconds, env.now)
            ==> r == NewStartRequired
    ensures r == NewStartRequired ==>
              current == NewStartRequired || !PingedWithin(ev.lastPing, env.c.newStartRequiredSeconds, env.now)
    ensures (&& SubjectToExpiry(ev, env) && PingedWithin(ev.lastPing, env.c.newStartRequiredSeconds, env.now)
             && WatchdogHasExpired(ev, env)) ==> r == WatchdogExpired
    ensures (&& SubjectToExpiry(ev, env) && PingedWithin(ev.lastPing, env.c.newStartRequiredSeconds, env.now)
             && !WatchdogHasExpired(ev, env) && !PingedWithin(ev.lastPing, env.c.expirationSeconds, env.now))
            ==> r == Expired
    // a node that survives every expiry test (or is exempt from them) is PRE_ENABLED or ENABLED
    ensures (&& !RequiresUpdate(ev, env)
             && !(WaitingForPing(ev, env) && !IsOurs(env, ev.operatorKey) && IsDeadState(current))
             && (|| !SubjectToExpiry(ev, env)
                 || (&& PingedWithin(ev.lastPing, env.c.newStartRequiredSeconds, env.now)
                     && !WatchdogHasExpired(ev, env)
                     && PingedWithin(ev.lastPing, env.c.expirationSeconds, env.now))))
            ==> r == if ev.lastPing.sigTime - ev.sigTime < env.c.minMnpSeconds then PreEnabled else Enabled
    ensures r == WatchdogExpired && !IsDeadState(current) ==> WatchdogHasExpired(ev, env)
    ensures r == Expired && !IsDeadState(current) ==>
              !PingedWithin(ev.lastPing, env.c.expirationSeconds, env.now) && !WatchdogHasExpired(ev, env)
    ensures r == PreEnabled ==> !RequiresUpdate(ev, env) && ev.lastPing.sigTime - ev.sigTime < env.c.minMnpSeconds
    ensures r == Enabled ==>
              && !RequiresUpdate(ev, env)
              && ev.lastPing.sigTime - ev.sigTime >= env.c.minMnpSeconds
              && ((WaitingForPing(ev, env) && !IsOurs(env, ev.operatorKey))
                  || (PingedWithin(ev.lastPing, env.c.expirationSeconds, env.now) && !WatchdogHasExpired(ev, env)))
  {
    var ours := IsOurs(env, ev.operatorKey);
    var waiting := WaitingForPing(ev, env);
    if RequiresUpdate(ev, env) then UpdateRequired
    else if waiting && !ours && IsDeadState(current) then current
    else if (!waiting || ours) && !PingedWithin(ev.lastPing, env.c.newStartRequiredSeconds, env.now) then NewStartRequired
    else if (!waiting || ours) && WatchdogHasExpired(ev, env) then WatchdogExpired
    else if (!waiting || ours) && !PingedWithin(ev.lastPing, env.c.expirationSeconds, env.now) then Expired
    else if ev.lastPing.sigTime - ev.sigTime < env.c.minMnpSeconds then PreEnabled
    else Enabled
  }

  /** CShroudnode::Check(force) as a function of the record and environment. */
  function Reconcile(st: Standing, ev: Evidence, force: bool, env: Env): (r: Standing)
    // throttle: nothing changes
    ensures !Proceeds(st, force, env) ==> r == st
    ensures Proceeds(st, force, env) ==> r.timeLastChecked == env.now
    // once spent, always spent
    ensures st.state == OutpointSpent ==> r.state == OutpointSpent
    // a spent record only gets its check time stamped
    ensures Proceeds(st, force, env) && st.state == OutpointSpent ==> r == st.(timeLastChecked := env.now)
    // a busy chain lock defers the check
    ensures Proceeds(st, force, env) && st.state != OutpointSpent && env.chainBusy
            ==> r == st.(timeLastChecked := env.now)
    // the collateral is gone
    ensures Proceeds(st, force, env) && st.state != OutpointSpent && !env.chainBusy && !env.utxoPresent
            ==> r == st.(timeLastChecked := env.now, state := OutpointSpent)
    // ban when the score reaches the maximum, for one payment cycle
    ensures ReachesBanStep(st, force, env) && st.state != PoSeBan && st.poseBanScore >= env.c.poseBanMaxScore
            ==> r == st.(timeLastChecked := env.now, state := PoSeBan, poseBanHeight := env.height + env.listSize)
    // no unban before the ban height
    ensures ReachesBanStep(st, force, env) && st.state == PoSeBan && env.height < st.poseBanHeight
            ==> r == st.(timeLastChecked := env.now)
    // from the ban height on: decay the score and re-evaluate from scratch
    ensures ReachesBanStep(st, force, env) && st.state == PoSeBan && env.height >= st.poseBanHeight
            ==> r == st.(timeLastChecked := env.now, poseBanScore := DecreasedBanScore(st.poseBanScore, env.c),
                         state := Ladder(PoSeBan, ev, env))
    ensures ReachesBanStep(st, force, env) && st.state != PoSeBan && st.poseBanScore < env.c.poseBanMaxScore
            ==> r == st.(timeLastChecked := env.now, state := Ladder(st.state, ev, env))
    // a ban is only ever entered from a full score
    ensures r.state == PoSeBan ==> st.state == PoSeBan || st.poseBanScore >= env.c.poseBanMaxScore
    ensures r.poseBanHeight != st.poseBanHeight ==> r.state == PoSeBan
  {
    if !Proceeds(st, force, env) then st
    else
      var checked := st.(timeLastChecked := env.now);
      if st.state == OutpointSpent then checked
      else if env.chainBusy then checked
      else if !env.utxoPresent then checked.(state := OutpointSpent)
      else if st.state == PoSeBan && env.height < st.poseBanHeight then checked
      else if st.state != PoSeBan && st.poseBanScore >= env.c.poseBanMaxScore then
        checked.(state := PoSeBan, poseBanHeight := env.height + env.listSize)
      else
        var decayed := if st.state == PoSeBan then checked.(poseBanScore := DecreasedBanScore(st.poseBanScore, env.c))
                       else checked;
        decayed.(state := Ladder(st.state, ev, env))
  }

  /** Checking again at the same moment without force does nothing more:
      the first check already stamped the time. */
  lemma RecheckIsIdempotent(st: Standing, ev: Evidence, force: bool, env: Env)
    requires env.c.checkSeconds > 0
    ensures Reconcile(Reconcile(st, ev, force, env), ev, false, env) == Reconcile(st, ev, force, env)
  {
  }

  /** One round of the periodic sweep: whether it was forced, and what it saw. */
  datatype Round = Round(force: bool, env: Env)

  /** The standing after a series of checks with unchanged evidence. */
  function CheckRounds(st: Standing, ev: Evidence, rounds: seq<Round>): Standing
    decreases |rounds|
  {
    if rounds == [] then st
    else CheckRounds(Reconcile(st, ev, rounds[0].force, rounds[0].env), ev, rounds[1..])
  }

  /** OUTPOINT_SPENT is terminal: no sequence of checks leaves it. */
  lemma {:induction false} SpentIsTerminal(st: Standing, ev: Evidence, rounds: seq<Round>)
    requires st.state == OutpointSpent
    ensures CheckRounds(st, ev, rounds).state == OutpointSpent
    decreases |rounds|
  {
    if rounds != [] {
      SpentIsTerminal(Reconcile(st, ev, rounds[0].force, rounds[0].env), ev, rounds[1..]);
    }
  }

  /** A banned record whose collateral stays unspent stays banned, with its
      score and ban height untouched, through any checks whose chain heights
      are all below the ban height. */
  lemma {:induction false} BanHoldsUntilHeight(st: Standing, ev: Evidence, rounds: seq<Round>)
    requires st.state == PoSeBan
    requires forall i :: 0 <= i < |rounds| ==> rounds[i].env.utxoPresent && rounds[i].env.height < st.poseBanHeight
    ensures var r := CheckRounds(st, ev, rounds);
      r.state == PoSeBan && r.poseBanScore == st.poseBanScore && r.poseBanHeight == st.poseBanHeight
    decreases |rounds|
  {
    if rounds != [] {
      var next := Reconcile(st, ev, rounds[0].force, rounds[0].env);
      assert next.state == PoSeBan && next.poseBanHeight == st.poseBanHeight && next.poseBanScore == st.poseBanScore;
      assert forall i :: 0 <= i < |rounds[1..]| ==> rounds[1..][i] == rounds[i + 1];
      BanHoldsUntilHeight(next, ev, rounds[1..]);
    }
  }
}
