/** CShroudnode: the per-node record whose fields Check, the setters, the
    broadcast merge, the ping pipeline and the payout scan update in place.
    Every state-changing method is proved against the functions of modules
    NodeCheck, Messages and Payout. `notifications` counts the change
    notifications (GetMainSignals().UpdatedShroudnode) raised for the record. */
module Node {
  import opened ShroudTypes
  import opened NodeCheck
  import opened Messages
  import opened Payout

  /** The identity fields a newer broadcast replaces. */
  datatype Identity = Identity(addr: Service, operatorKey: Key, sig: Sig, sigTime: int, protocolVersion: int)

  /** SetRank's clamp: a rank outside [0, listSize] becomes 0. */
  function ClampRank(newRank: int, listSize: int): (r: int)
    ensures r == newRank || r == 0
    ensures 0 <= listSize ==> 0 <= r <= listSize
    ensures 0 <= newRank <= listSize ==> r == newRank
  {
    if newRank < 0 || newRank > listSize then 0 else newRank
  }

  /** C++ integer division by two, which truncates toward zero. */
  function HalfTowardZero(x: int): (r: int)
    ensures 0 <= x ==> 0 <= r && r + r <= x < r + r + 2
    ensures x < 0 ==> r <= 0 && r + r >= x > r + r - 2
  {
    if x >= 0 then x / 2 else -((-x) / 2)
  }

  /** One change notification when the record is ours and something changed. */
  function Notice(isMine: bool, changed: bool): nat
  {
    if isMine && changed then 1 else 0
  }

  /** The ping a record holds after SetLastPing(p): the ping's equality
      ignores time and signature, so a ping equal to the held one is not stored. */
  function StoredPing(held: Ping, p: Ping): (r: Ping)
    ensures SamePing(r, p)
  {
    if SamePing(held, p) then held else p
  }

  /** The change notifications of an accepted ping that meets the held ping
      `held`: one for bumping the list sync when the list is not synced and
      no ping arrived for half the expiration time, one when the stored ping
      changes and one when the forced Check changes the state (the last two
      only for our own node). */
  function AcceptedPingNotices(isMine: bool, held: Ping, p: Ping, before: NodeState, after: NodeState, env: Env): nat
  {
    (if !env.listSynced && !PingedWithin(held, HalfTowardZero(env.c.expirationSeconds), env.now) then 1 else 0)
    + Notice(isMine, !SamePing(held, p)) + Notice(isMine, after != before)
  }

  /** IsBroadcastedWithin: the record's broadcast was signed less than `seconds` ago. */
  predicate BroadcastedWithin(sigTime: int, seconds: int, now: int)
  {
    now - sigTime < seconds
  }

  class NodeRecord {
    const vin: TxIn
    const pubKeyCollateral: Key
    /** IsMyShroudnode(): the collateral is one of the locally configured entries. */
    const isMine: bool

    var addr: Service
    var pubKeyOperator: Key
    var lastPing: Ping
    var sig: Sig
    var sigTime: int
    var timeLastChecked: int
    var timeLastPaid: int
    var timeLastWatchdogVote: int
    var state: NodeState
    var cacheCollateralBlock: int
    var blockLastPaid: int
    var protocolVersion: int
    var poseBanScore: int
    var poseBanHeight: int
    var rank: int
    ghost var notifications: nat

    function GetStanding(): Standing
      reads this
    {
      Standing(state, timeLastChecked, poseBanScore, poseBanHeight)
    }

    function GetEvidence(): Evidence
      reads this
    {
      Evidence(protocolVersion, pubKeyOperator, lastPing, sigTime, timeLastWatchdogVote)
    }

    function GetTarget(): Target
      reads this
    {
      Target(state, lastPing, pubKeyOperator)
    }

    function GetIdentity(): Identity
      reads this
    {
      Identity(addr, pubKeyOperator, sig, sigTime, protocolVersion)
    }

    /** A record for a new node; it starts ENABLED and signed now. */
    constructor (addrNew: Service, vinNew: TxIn, collateralKey: Key, operatorKey: Key,
                 protocolVersionIn: int, now: int, mine: bool)
      ensures vin == vinNew && pubKeyCollateral == collateralKey && isMine == mine
      ensures GetIdentity() == Identity(addrNew, operatorKey, [], now, protocolVersionIn)
      ensures lastPing == NullPing && state == Enabled
      ensures GetStanding() == Standing(Enabled, 0, 0, 0)
      ensures timeLastPaid == 0 && timeLastWatchdogVote == 0 && cacheCollateralBlock == 0
      ensures blockLastPaid == 0 && rank == 0 && notifications == 0
    {
      vin, pubKeyCollateral, isMine := vinNew, collateralKey, mine;
      addr, pubKeyOperator, lastPing, sig, sigTime := addrNew, operatorKey, NullPing, [], now;
      timeLastChecked, timeLastPaid, timeLastWatchdogVote := 0, 0, 0;
      state := Enabled;
      cacheCollateralBlock, blockLastPaid := 0, 0;
      protocolVersion := protocolVersionIn;
      poseBanScore, poseBanHeight := 0, 0;
      rank := 0;
      notifications := 0;
    }

    /** A record created from a broadcast: its identity, ping and state,
        with the watchdog vote time set to the broadcast's signature time. */
    constructor FromBroadcast(b: Broadcast, mine: bool)
      ensures vin == b.vin && pubKeyCollateral == b.pubKeyCollateral && isMine == mine
      ensures GetIdentity() == Identity(b.addr, b.pubKeyOperator, b.sig, b.sigTime, b.protocolVersion)
      ensures lastPing == b.lastPing && timeLastWatchdogVote == b.sigTime
      ensures GetStanding() == Standing(b.state, 0, 0, 0)
      ensures timeLastPaid == 0 && cacheCollateralBlock == 0 && blockLastPaid == 0
      ensures rank == 0 && notifications == 0
    {
      vin, pubKeyCollateral, isMine := b.vin, b.pubKeyCollateral, mine;
      addr, pubKeyOperator, lastPing, sig, sigTime := b.addr, b.pubKeyOperator, b.lastPing, b.sig, b.sigTime;
      timeLastChecked, timeLastPaid, timeLastWatchdogVote := 0, 0, b.sigTime;
      state := b.state;
      cacheCollateralBlock, blockLastPaid := 0, 0;
      protocolVersion := b.protocolVersion;
      poseBanScore, poseBanHeight := 0, 0;
      rank := 0;
      notifications := 0;
    }

    // ------------------------------------------------------------ setters

    /** Notifies only when the state actually changes and the node is ours. */
    method SetStatus(newState: NodeState)
      modifies this`state, this`notifications
      ensures state == newState
      ensures notifications == old(notifications) + (if isMine && old(state) != newState then 1 else 0)
    {
      if state != newState {
        state := newState;
        if isMine {
          notifications := notifications + 1;
        }
      }
    }

    /** Stores the ping unless it equals the held one under the ping's equality. */
    method SetLastPing(p: Ping)
      modifies this`lastPing, this`notifications
      ensures lastPing == StoredPing(old(lastPing), p)
      ensures notifications == old(notifications) + Notice(isMine, !SamePing(old(lastPing), p))
    {
      if !SamePing(lastPing, p) {
        lastPing := p;
        if isMine {
          notifications := notifications + 1;
        }
      }
    }

    method SetTimeLastPaid(t: int)
      modifies this`timeLastPaid, this`notifications
      ensures timeLastPaid == t
      ensures notifications == old(notifications) + (if isMine && old(timeLastPaid) != t then 1 else 0)
    {
      if timeLastPaid != t {
        timeLastPaid := t;
        if isMine {
          notifications := notifications + 1;
        }
      }
    }

    method SetBlockLastPaid(h: int)
      modifies this`blockLastPaid, this`notifications
      ensures blockLastPaid == h
      ensures notifications == old(notifications) + (if isMine && old(blockLastPaid) != h then 1 else 0)
    {
      if blockLastPaid != h {
        blockLastPaid := h;
        if isMine {
          notifications := notifications + 1;
        }
      }
    }

    /** Stores a new rank, clamped to [0, listSize]; an unchanged request
        leaves the rank as it is, even when it is out of range. */
    method SetRank(newRank: int, listSize: int)
      modifies this`rank, this`notifications
      ensures rank == if newRank != old(rank) then ClampRank(newRank, listSize) else old(rank)
      ensures notifications == old(notifications) + (if isMine && old(rank) != newRank then 1 else 0)
    {
      if rank != newRank {
        rank := newRank;
        if rank < 0 || rank > listSize {
          rank := 0;
        }
        if isMine {
          notifications := notifications + 1;
        }
      }
    }

    method DecreasePoSeBanScore(c: Consts)
      modifies this`poseBanScore
      ensures poseBanScore == DecreasedBanScore(old(poseBanScore), c)
    {
      if poseBanScore > -c.poseBanMaxScore {
        poseBanScore := poseBanScore - 1;
      }
    }

    method UpdateWatchdogVoteTime(now: int)
      modifies this`timeLastWatchdogVote
      ensures timeLastWatchdogVote == now
    {
      timeLastWatchdogVote := now;
    }

    // -------------------------------------------------------------- Check

    /** CShroudnode::Check: the four fields it writes become what Reconcile
        computes; a notification is raised when our node's state changed. */
    method Check(force: bool, env: Env)
      modifies this`state, this`timeLastChecked, this`poseBanScore, this`poseBanHeight, this`notifications
      ensures GetStanding() == Reconcile(old(GetStanding()), GetEvidence(), force, env)
      ensures notifications == old(notifications) + (if isMine && state != old(state) then 1 else 0)
    {
      if env.shutdown { return; }
      if !force && env.now - timeLastChecked < env.c.checkSeconds { return; }
      timeLastChecked := env.now;

      // a spent collateral is final
      if state == OutpointSpent { return; }
      if env.chainBusy { return; }
      if !env.utxoPresent {
        SetStatus(OutpointSpent);
        return;
      }
      var height := env.height;

      if state == PoSeBan {
        if height < poseBanHeight { return; }
        DecreasePoSeBanScore(env.c);
      } else if poseBanScore >= env.c.poseBanMaxScore {
        SetStatus(PoSeBan);
        // banned until every listed node has had its turn to be paid
        poseBanHeight := height + env.listSize;
        return;
      }

      ApplyLadder(env);
    }


    /** The state ladder of Check, run once the ban step lets it through. */
    method ApplyLadder(env: Env)
      modifies this`state, this`notifications
      ensures state == Ladder(old(state), GetEvidence(), env)
      ensures notifications == old(notifications) + (if isMine && state != old(state) then 1 else 0)
    {
      var ours := IsOurs(env, pubKeyOperator);
      var requireUpdate := protocolVersion < env.minPaymentProto
        || (ours && (protocolVersion < env.c.minPaymentProto1 || protocolVersion > env.c.minPaymentProto2));
      if requireUpdate {
        SetStatus(UpdateRequired);
        return;
      }

      // during list sync a foreign node without a recent ping keeps a dead state
      var waitForPing := !env.listSynced && !PingedWithin(lastPing, env.c.minMnpSeconds, env.now);
      if waitForPing && !ours {
        if state == Expired || state == WatchdogExpired || state == NewStartRequired {
          return;
        }
      }

      if !waitForPing || ours {
        if !PingedWithin(lastPing, env.c.newStartRequiredSeconds, env.now) {
          SetStatus(NewStartRequired);
          return;
        }
        var watchdogExpired := env.synced && env.watchdogActive
          && env.now - timeLastWatchdogVote > env.c.watchdogMaxSeconds;
        if watchdogExpired {
          SetStatus(WatchdogExpired);
          return;
        }
        if !PingedWithin(lastPing, env.c.expirationSeconds, env.now) {
          SetStatus(Expired);
          return;
        }
      }

      if lastPing.sigTime - sigTime < env.c.minMnpSeconds {
        SetStatus(PreEnabled);
        return;
      }
      SetStatus(Enabled);
    }

    // ------------------------------------------------- collateral age

    /** GetCollateralAge with its cached collateral height: -1 when the
        chain is busy or has no tip; otherwise the cache is filled once from
        the input age and the age is the distance from the cached height. */
    method GetCollateralAge(chainBusy: bool, hasTip: bool, height: int, inputAge: int) returns (age: int)
      modifies this`cacheCollateralBlock
      ensures chainBusy || !hasTip ==> age == -1 && cacheCollateralBlock == old(cacheCollateralBlock)
      ensures !chainBusy && hasTip && old(cacheCollateralBlock) != 0
              ==> age == height - old(cacheCollateralBlock) && cacheCollateralBlock == old(cacheCollateralBlock)
      ensures !chainBusy && hasTip && old(cacheCollateralBlock) == 0 && inputAge > 0
              ==> cacheCollateralBlock == height - inputAge && age == inputAge
      ensures !chainBusy && hasTip && old(cacheCollateralBlock) == 0 && inputAge <= 0
              ==> cacheCollateralBlock == 0 && age == inputAge
    {
      if chainBusy || !hasTip {
        return -1;
      }
      if cacheCollateralBlock == 0 {
        if inputAge > 0 {
          cacheCollateralBlock := height - inputAge;
        } else {
          return inputAge;
        }
      }
      age := height - cacheCollateralBlock;
    }

    // --------------------------------------------------- payout history

    /** UpdateLastPaid: walks back from chain[0] at most maxScan times and
        records the first confirmed payment above the last paid height;
        the last paid height never decreases. */
    method UpdateLastPaid(chain: seq<Block>, maxScan: int, o: Oracles)
      modifies this`blockLastPaid, this`timeLastPaid, this`notifications
      ensures var found := FindPaidBlock(chain, 0, if maxScan < 0 then 0 else maxScan,
                                         old(blockLastPaid), o.payeeScript(pubKeyCollateral));
        && (found.Some? ==> && blockLastPaid == chain[found.value].height && timeLastPaid == chain[found.value].time
                            && notifications == old(notifications) + Notice(isMine, true)
                                                + Notice(isMine, chain[found.value].time != old(timeLastPaid)))
        && (found.None? ==> && blockLastPaid == old(blockLastPaid) && timeLastPaid == old(timeLastPaid)
                            && notifications == old(notifications))
      ensures blockLastPaid >= old(blockLastPaid)
    {
      if chain == [] { return; }
      var payee := o.payeeScript(pubKeyCollateral);
      var budget: nat := if maxScan < 0 then 0 else maxScan;
      ghost var goal := FindPaidBlock(chain, 0, budget, blockLastPaid, payee);
      var i := 0;
      var cur := 0;
      while cur < |chain| && chain[cur].height > blockLastPaid && i < maxScan
        invariant 0 <= cur < |chain| && 0 <= i <= budget
        invariant blockLastPaid == old(blockLastPaid) && timeLastPaid == old(timeLastPaid)
        invariant notifications == old(notifications)
        invariant FindPaidBlock(chain, cur, budget - i, blockLastPaid, payee) == goal
        decreases budget - i
      {
        var b := chain[cur];
        if HasPayeeWithVotes(b, payee) {
          if !b.readOk {
            i := i + 1;
            continue;
          }
          var k := 0;
          while k < |b.coinbase|
            invariant 0 <= k <= |b.coinbase|
            invariant forall m :: 0 <= m < k ==> b.coinbase[m] != TxOut(payee, b.scheduledPayment)
          {
            if b.coinbase[k].script == payee && b.coinbase[k].value == b.scheduledPayment {
              assert PaysExactly(b, payee);
              SetBlockLastPaid(b.height);
              SetTimeLastPaid(b.time);
              return;
            }
            k := k + 1;
          }
        }
        if cur + 1 == |chain| {
          break;
        }
        cur := cur + 1;
        i := i + 1;
      }
    }

    // ------------------------------------------------------------ pings

    /** CShroudnodePing::CheckAndUpdate for an existing record: the ping
        passes the guards of PingVerdictFor or the record is untouched; an
        accepted ping becomes lastPing, a forced Check follows, and the
        result is whether the record is then ENABLED. */
    method CheckAndUpdatePing(p: Ping, fromNewBroadcast: bool, env: Env, o: Oracles) returns (ok: bool, dos: int)
      modifies this`lastPing, this`state, this`timeLastChecked, this`poseBanScore, this`poseBanHeight, this`notifications
      ensures var v := PingVerdictFor(p, Some(old(GetTarget())), fromNewBroadcast, env, o);
        && dos == PingDos(v)
        && (v.PingRejected? ==> !ok && lastPing == old(lastPing) && GetStanding() == old(GetStanding())
                                && notifications == old(notifications))
        && (v.PingAccepted? ==>
              var stored := StoredPing(old(lastPing), p);
              && lastPing == stored
              && GetStanding() == Reconcile(old(GetStanding()), old(GetEvidence()).(lastPing := stored), true, env)
              && ok == (state == Enabled)
              && notifications == old(notifications) + AcceptedPingNotices(isMine, old(lastPing), p, old(state), state, env))
    {
      var simple := PingSimpleCheck(p, env);
      if simple.PingRejected? {
        return false, PingDos(simple);
      }
      if !fromNewBroadcast {
        if state == UpdateRequired {
          return false, 0;
        }
        if state == NewStartRequired {
          return false, 0;
        }
      }
      if AnchorTooOld(p, env) {
        return false, 0;
      }
      // a ping less than MIN_MNP - 60 seconds after the known one is too early
      if PingedWithin(lastPing, env.c.minMnpSeconds - 60, SpacingTime(p, env)) {
        return false, 0;
      }
      if !o.verifyPing(pubKeyOperator, p) {
        return false, 33;
      }
      StoreAcceptedPing(p, env);
      ok := state == Enabled;
      dos := 0;
    }

    /** What CheckAndUpdate does with a ping that passed every guard: store
        it and force a Check. */
    method StoreAcceptedPing(p: Ping, env: Env)
      modifies this`lastPing, this`state, this`timeLastChecked, this`poseBanScore, this`poseBanHeight, this`notifications
      ensures lastPing == StoredPing(old(lastPing), p)
      ensures GetStanding() == Reconcile(old(GetStanding()), old(GetEvidence()).(lastPing := StoredPing(old(lastPing), p)), true, env)
      ensures notifications == old(notifications) + AcceptedPingNotices(isMine, old(lastPing), p, old(state), state, env)
    {
      // no ping for half the expiration time while the list is still syncing: one extra notification
      if !env.listSynced && !PingedWithin(lastPing, HalfTowardZero(env.c.expirationSeconds), env.now) {
        notifications := notifications + 1;
      }
      SetLastPing(p);
      Check(true, env);
    }

    // ------------------------------------------------------- broadcasts

    /** The embedded ping of a merged broadcast: an empty one is stored
        as is, any other goes through CheckAndUpdate as coming from a new
        broadcast. */
    method AdoptEmbeddedPing(p: Ping, env: Env, o: Oracles)
      modifies this`lastPing, this`state, this`timeLastChecked, this`poseBanScore, this`poseBanHeight, this`notifications
      ensures IsNullPing(p) ==>
                && lastPing == StoredPing(old(lastPing), p) && GetStanding() == old(GetStanding())
                && notifications == old(notifications) + Notice(isMine, !SamePing(old(lastPing), p))
      ensures !IsNullPing(p) && PingVerdictFor(p, Some(old(GetTarget())), true, env, o).PingRejected?
              ==> lastPing == old(lastPing) && GetStanding() == old(GetStanding()) && notifications == old(notifications)
      ensures !IsNullPing(p) && PingVerdictFor(p, Some(old(GetTarget())), true, env, o).PingAccepted?
              ==> var stored := StoredPing(old(lastPing), p);
                  && lastPing == stored
                  && GetStanding() == Reconcile(old(GetStanding()), old(GetEvidence()).(lastPing := stored), true, env)
                  && notifications == old(notifications) + AcceptedPingNotices(isMine, old(lastPing), p, old(state), state, env)
    {
      if IsNullPing(p) {
        SetLastPing(p);
      } else {
        var accepted, _ := CheckAndUpdatePing(p, true, env, o);
        if accepted {
          SetLastPing(p);
        }
      }
    }

    /** The first half of the merge: the broadcast's identity replaces the
        record's, and ban score, ban height and check time start over. */
    method TakeIdentity(b: Broadcast)
      modifies this`addr, this`pubKeyOperator, this`sig, this`sigTime, this`protocolVersion,
               this`poseBanScore, this`poseBanHeight, this`timeLastChecked
      ensures GetIdentity() == Identity(b.addr, b.pubKeyOperator, b.sig, b.sigTime, b.protocolVersion)
      ensures poseBanScore == 0 && poseBanHeight == 0 && timeLastChecked == 0
    {
      pubKeyOperator := b.pubKeyOperator;
      sigTime := b.sigTime;
      sig := b.sig;
      protocolVersion := b.protocolVersion;
      addr := b.addr;
      poseBanScore := 0;
      poseBanHeight := 0;
      timeLastChecked := 0;
    }

    /** UpdateFromNewBroadcast: a broadcast no newer than the record (and
        not a recovery) changes nothing; otherwise the identity fields are
        copied, ban score, ban height and check time are reset, the embedded
        ping goes through the ping pipeline, and our own node gets the
        negative ban score and is refused under a foreign protocol version. */
    method UpdateFromNewBroadcast(b: Broadcast, env: Env, o: Oracles) returns (ok: bool)
      modifies this`addr, this`pubKeyOperator, this`sig, this`sigTime, this`protocolVersion,
               this`poseBanScore, this`poseBanHeight, this`timeLastChecked, this`lastPing, this`state,
               this`notifications
      ensures MergeRefused(old(sigTime), b) ==> !ok && unchanged(this)
      ensures !MergeRefused(old(sigTime), b) ==>
        && GetIdentity() == Identity(b.addr, b.pubKeyOperator, b.sig, b.sigTime, b.protocolVersion)
        && ok == !(IsOurs(env, b.pubKeyOperator) && b.protocolVersion != env.c.protocolVersion)
        && (IsOurs(env, b.pubKeyOperator) ==> poseBanScore == -env.c.poseBanMaxScore)
      ensures !MergeRefused(old(sigTime), b) && IsNullPing(b.lastPing)
              ==> && lastPing == StoredPing(old(lastPing), b.lastPing)
                  && state == old(state) && timeLastChecked == 0 && poseBanHeight == 0
                  && (!IsOurs(env, b.pubKeyOperator) ==> poseBanScore == 0)
                  && notifications == old(notifications) + Notice(isMine, !SamePing(old(lastPing), b.lastPing))
      ensures !MergeRefused(old(sigTime), b) && !IsNullPing(b.lastPing)
              && PingVerdictFor(b.lastPing, Some(Target(old(state), old(lastPing), b.pubKeyOperator)), true, env, o).PingRejected?
              ==> && lastPing == old(lastPing)
                  && state == old(state) && timeLastChecked == 0 && poseBanHeight == 0
                  && (!IsOurs(env, b.pubKeyOperator) ==> poseBanScore == 0)
                  && notifications == old(notifications)
      ensures !MergeRefused(old(sigTime), b) && !IsNullPing(b.lastPing)
              && PingVerdictFor(b.lastPing, Some(Target(old(state), old(lastPing), b.pubKeyOperator)), true, env, o).PingAccepted?
              ==> var stored := StoredPing(old(lastPing), b.lastPing);
                  var r := Reconcile(Standing(old(state), 0, 0, 0),
                                     Evidence(b.protocolVersion, b.pubKeyOperator, stored, b.sigTime, timeLastWatchdogVote),
                                     true, env);
                  && lastPing == stored
                  && state == r.state && timeLastChecked == r.timeLastChecked && poseBanHeight == r.poseBanHeight
                  && (!IsOurs(env, b.pubKeyOperator) ==> poseBanScore == r.poseBanScore)
                  && notifications == old(notifications) + AcceptedPingNotices(isMine, old(lastPing), b.lastPing, old(state), state, env)
    {
      if b.sigTime <= sigTime && !b.recovery {
        return false;
      }
      TakeIdentity(b);
      AdoptEmbeddedPing(b.lastPing, env, o);
      // the broadcast carries our own operator key
      if IsOurs(env, pubKeyOperator) {
        poseBanScore := -env.c.poseBanMaxScore;
        if protocolVersion != env.c.protocolVersion {
          return false;
        }
      }
      return true;
    }
  }

  /** CShroudnodePing::CheckAndUpdate, including the case of no record. */
  method CheckAndUpdate(p: Ping, rec: NodeRecord?, fromNewBroadcast: bool, env: Env, o: Oracles) returns (ok: bool, dos: int)
    modifies rec
    ensures rec == null ==> !ok && dos == PingDos(PingVerdictFor(p, None, fromNewBroadcast, env, o))
    ensures rec != null ==>
      var v := PingVerdictFor(p, Some(old(rec.GetTarget())), fromNewBroadcast, env, o);
      && dos == PingDos(v)
      && unchanged(rec`addr, rec`pubKeyOperator, rec`sig, rec`sigTime, rec`protocolVersion, rec`timeLastPaid,
                   rec`timeLastWatchdogVote, rec`cacheCollateralBlock, rec`blockLastPaid, rec`rank)
      && (v.PingRejected? ==> !ok && unchanged(rec))
      && (v.PingAccepted? ==> rec.lastPing == StoredPing(old(rec.lastPing), p)
                              && rec.GetStanding() == Reconcile(old(rec.GetStanding()),
                                                                old(rec.GetEvidence()).(lastPing := StoredPing(old(rec.lastPing), p)), true, env)
                              && ok == (rec.state == Enabled)
                              && rec.notifications == old(rec.notifications)
                                 + AcceptedPingNotices(rec.isMine, old(rec.lastPing), p, old(rec.state), rec.state, env))
  {
    if rec == null {
      var simple := PingSimpleCheck(p, env);
      return false, PingDos(simple);
    }
    ok, dos := rec.CheckAndUpdatePing(p, fromNewBroadcast, env, o);
  }

  /** CShroudnodeBroadcast::Update: the signature-time gate, a Check, the
      admission gate, and then the merge when the record's broadcast is old
      enough or the broadcast is our own node's. */
  method Update(b: Broadcast, rec: NodeRecord, env: Env, o: Oracles) returns (ok: bool, dos: int)
    modifies rec`addr, rec`pubKeyOperator, rec`sig, rec`sigTime, rec`protocolVersion,
             rec`poseBanScore, rec`poseBanHeight, rec`timeLastChecked, rec`lastPing, rec`state,
             rec`notifications
    ensures SigTimeGate(old(rec.sigTime), b).Refuse? ==> !ok && dos == 0 && unchanged(rec)
    ensures SigTimeGate(old(rec.sigTime), b).Pass? ==>
      var checked := Reconcile(old(rec.GetStanding()), old(rec.GetEvidence()), false, env);
      var gate := AdmissionGate(checked.state == PoSeBan, rec.pubKeyCollateral, b, o);
      var merges := !BroadcastedWithin(old(rec.sigTime), env.c.minMnbSeconds, env.now) || IsOurs(env, b.pubKeyOperator);
      && ok == gate.Pass?
      && (gate.Refuse? ==> dos == gate.dos)
      && (gate.Pass? ==> dos == 0)
      && (gate.Refuse? || !merges ==>
            rec.GetStanding() == checked && rec.GetIdentity() == old(rec.GetIdentity()) && rec.lastPing == old(rec.lastPing))
      && (gate.Pass? && merges ==>
            rec.GetIdentity() == Identity(b.addr, b.pubKeyOperator, b.sig, b.sigTime, b.protocolVersion))
  {
    dos := 0;
    if rec.sigTime == b.sigTime && !b.recovery {
      return false, 0;
    }
    // the record's signature time is later than the broadcast's
    if rec.sigTime > b.sigTime {
      return false, 0;
    }
    ghost var sigTime0 := rec.sigTime;
    rec.Check(false, env);
    if rec.state == PoSeBan {
      return false, 0;
    }
    if rec.pubKeyCollateral != b.pubKeyCollateral {
      return false, 33;
    }
    if !o.verifyBroadcast(b) {
      return false, 100;
    }
    if !BroadcastedWithin(rec.sigTime, env.c.minMnbSeconds, env.now) || IsOurs(env, b.pubKeyOperator) {
      SigTimeGateAdmitsMerge(sigTime0, b);
      var merged := rec.UpdateFromNewBroadcast(b, env, o);
      if merged {
        rec.Check(false, env);
      }
      // the list sync is told of the update and the record is announced
      rec.notifications := rec.notifications + 1;
    }
    return true, 0;
  }
}
