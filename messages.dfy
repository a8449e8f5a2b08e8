/** The acceptance ladders of the two signed messages: the ping's
    SimpleCheck and CheckAndUpdate guards, the broadcast's SimpleCheck, the
    guards of CShroudnodeBroadcast::Update and CheckOutpoint. Each is an
    ordered list of tests whose first failure decides the outcome and the
    misbehaviour score (nDos) charged to the sender. */
module Messages {
  import opened ShroudTypes

  /** How far in the future a signature time may lie: one hour. */
  const MAX_FUTURE_SECONDS: int := 60 * 60

  /** A ping may anchor at most this many blocks behind the tip. */
  const MAX_ANCHOR_AGE: int := 24

  /** P2PKH scripts are 25 bytes. */
  const P2PKH_SCRIPT_SIZE: nat := 25

  // ---------------------------------------------------------------- pings

  datatype PingRejection =
    | FutureSigTime
    | UnknownBlock
    | NoRecord
    | ProtocolOutdated
    | NewStartNeeded
    | StaleAnchor
    | TooEarly
    | BadSignature

  datatype PingVerdict = PingAccepted | PingRejected(reason: PingRejection)

  /** The misbehaviour score of a ping verdict. */
  function PingDos(v: PingVerdict): (dos: int)
    ensures dos == 0 || dos == 1 || dos == 33
    ensures dos == 1 <==> v == PingRejected(FutureSigTime)
    ensures dos == 33 <==> v == PingRejected(BadSignature)
  {
    match v
    case PingRejected(FutureSigTime) => 1
    case PingRejected(BadSignature) => 33
    case _ => 0
  }

  /** CShroudnodePing::SimpleCheck. */
  function PingSimpleCheck(p: Ping, env: Env): (v: PingVerdict)
    ensures v.PingAccepted? <==> p.sigTime <= env.now + MAX_FUTURE_SECONDS && p.blockHash in env.blockIndex
    ensures v.PingRejected? ==> v.reason == FutureSigTime || v.reason == UnknownBlock
    ensures v == PingRejected(FutureSigTime) <==> p.sigTime > env.now + MAX_FUTURE_SECONDS
  {
    if p.sigTime > env.now + MAX_FUTURE_SECONDS then PingRejected(FutureSigTime)
    else if p.blockHash !in env.blockIndex then PingRejected(UnknownBlock)
    else PingAccepted
  }

  /** What CheckAndUpdate reads of the record the ping is for. */
  datatype Target = Target(state: NodeState, lastPing: Ping, operatorKey: Key)

  /** The anchor block lies more than 24 blocks behind the tip. */
  predicate AnchorTooOld(p: Ping, env: Env)
  {
    p.blockHash in env.blockIndex && env.blockIndex[p.blockHash] < env.height - MAX_ANCHOR_AGE
  }

  /** The record already holds a ping signed less than MIN_MNP - 60 seconds before this one. */
  predicate ArrivedTooEarly(t: Target, p: Ping, env: Env)
  {
    PingedWithin(t.lastPing, env.c.minMnpSeconds - 60, SpacingTime(p, env))
  }

  /** The moment the spacing test measures at: the ping's signature time,
      except that IsPingedWithin reads a time of -1 as "now". */
  function SpacingTime(p: Ping, env: Env): int
  {
    if p.sigTime == -1 then env.now else p.sigTime
  }

  /** Every test of a ping that comes before its signature is checked. */
  predicate PassesGuardsBeforeSignature(p: Ping, target: Option<Target>, fromNewBroadcast: bool, env: Env)
  {
    && p.sigTime <= env.now + MAX_FUTURE_SECONDS
    && p.blockHash in env.blockIndex
    && target.Some?
    && (fromNewBroadcast || (target.value.state != UpdateRequired && target.value.state != NewStartRequired))
    && !AnchorTooOld(p, env)
    && !ArrivedTooEarly(target.value, p, env)
  }

  /** Every test of a ping before it is stored, in the source's order. */
  predicate PingAcceptable(p: Ping, target: Option<Target>, fromNewBroadcast: bool, env: Env, o: Oracles)
  {
    PassesGuardsBeforeSignature(p, target, fromNewBroadcast, env) && o.verifyPing(target.value.operatorKey, p)
  }

  /** The guards of CShroudnodePing::CheckAndUpdate, up to storing the ping. */
  function PingVerdictFor(p: Ping, target: Option<Target>, fromNewBroadcast: bool, env: Env, o: Oracles): (v: PingVerdict)
    ensures v.PingAccepted? <==> PingAcceptable(p, target, fromNewBroadcast, env, o)
    ensures PingSimpleCheck(p, env).PingRejected? ==> v == PingSimpleCheck(p, env)
    ensures v == PingRejected(NoRecord) <==> PingSimpleCheck(p, env).PingAccepted? && target.None?
    ensures target.Some? && ArrivedTooEarly(target.value, p, env) ==> v.PingRejected?
    ensures v == PingRejected(BadSignature) <==>
              PassesGuardsBeforeSignature(p, target, fromNewBroadcast, env) && !o.verifyPing(target.value.operatorKey, p)
  {
    var simple := PingSimpleCheck(p, env);
    if simple.PingRejected? then simple
    else if target.None? then PingRejected(NoRecord)
    else
      var t := target.value;
      if !fromNewBroadcast && t.state == UpdateRequired then PingRejected(ProtocolOutdated)
      else if !fromNewBroadcast && t.state == NewStartRequired then PingRejected(NewStartNeeded)
      else if AnchorTooOld(p, env) then PingRejected(StaleAnchor)
      else if ArrivedTooEarly(t, p, env) then PingRejected(TooEarly)
      else if !o.verifyPing(t.operatorKey, p) then PingRejected(BadSignature)
      else PingAccepted
  }

  /** Two pings of one record signed less than MIN_MNP - 60 seconds apart
      (a second ping with time -1 counts as signed now): once the first is
      stored the second is refused without penalty, while one signed at
      least that much later passes this test. */
  lemma PingSpacing(t: Target, first: Ping, second: Ping, fromNewBroadcast: bool, env: Env, o: Oracles)
    requires !IsNullPing(first) && t.lastPing == first
    ensures SpacingTime(second, env) - first.sigTime < env.c.minMnpSeconds - 60
            ==> PingVerdictFor(second, Some(t), fromNewBroadcast, env, o).PingRejected?
                && PingDos(PingVerdictFor(second, Some(t), fromNewBroadcast, env, o)) <= 1
    ensures SpacingTime(second, env) - first.sigTime >= env.c.minMnpSeconds - 60 ==> !ArrivedTooEarly(t, second, env)
  {
  }

  // ----------------------------------------------------------- broadcasts

  /** The port convention: mainnet only on its default port, other
      networks never on the mainnet default port. */
  predicate PortAllowed(isMainnet: bool, port: int, mainnetDefaultPort: int)
  {
    if isMainnet then port == mainnetDefaultPort else port != mainnetDefaultPort
  }

  /** The outcome of CShroudnodeBroadcast::SimpleCheck: verdict, nDos and
      the broadcast itself, which the check may mark EXPIRED. */
  datatype SimpleCheckResult = SimpleCheckResult(ok: bool, dos: int, mnb: Broadcast)

  predicate WellFormedBroadcast(b: Broadcast, env: Env, o: Oracles)
  {
    && o.validNetAddr(b.addr)
    && b.sigTime <= env.now + MAX_FUTURE_SECONDS
    && b.protocolVersion >= env.minPaymentProto
    && o.scriptSize(b.pubKeyCollateral) == P2PKH_SCRIPT_SIZE
    && o.scriptSize(b.pubKeyOperator) == P2PKH_SCRIPT_SIZE
    && b.vin.scriptSig == []
    && PortAllowed(env.isMainnet, b.addr.port, env.mainnetDefaultPort)
  }

  /** The embedded ping is empty or fails its own SimpleCheck. */
  predicate BadEmbeddedPing(b: Broadcast, env: Env)
  {
    IsNullPing(b.lastPing) || PingSimpleCheck(b.lastPing, env).PingRejected?
  }

  predicate MalformedScripts(b: Broadcast, o: Oracles)
  {
    || o.scriptSize(b.pubKeyCollateral) != P2PKH_SCRIPT_SIZE
    || o.scriptSize(b.pubKeyOperator) != P2PKH_SCRIPT_SIZE
    || b.vin.scriptSig != []
  }

  function BroadcastSimpleCheck(b: Broadcast, env: Env, o: Oracles): (r: SimpleCheckResult)
    ensures r.ok <==> WellFormedBroadcast(b, env, o)
    ensures r.dos == 0 || r.dos == 1 || r.dos == 100
    ensures !o.validNetAddr(b.addr) ==> r == SimpleCheckResult(false, 0, b)
    ensures o.validNetAddr(b.addr) && b.sigTime > env.now + MAX_FUTURE_SECONDS ==> r == SimpleCheckResult(false, 1, b)
    ensures r.dos == 100 <==>
              (&& o.validNetAddr(b.addr) && b.sigTime <= env.now + MAX_FUTURE_SECONDS
               && b.protocolVersion >= env.minPaymentProto && MalformedScripts(b, o))
    ensures r.mnb == b || r.mnb == b.(state := Expired)
    ensures o.validNetAddr(b.addr) && b.sigTime <= env.now + MAX_FUTURE_SECONDS
            ==> r.mnb == if BadEmbeddedPing(b, env) then b.(state := Expired) else b
    // after the time tests only the embedded ping's future-time 1 can be left behind
    ensures r.dos != 100 && o.validNetAddr(b.addr) && b.sigTime <= env.now + MAX_FUTURE_SECONDS
            ==> r.dos == if !IsNullPing(b.lastPing) && b.lastPing.sigTime > env.now + MAX_FUTURE_SECONDS then 1 else 0
  {
    if !o.validNetAddr(b.addr) then SimpleCheckResult(false, 0, b)
    else if b.sigTime > env.now + MAX_FUTURE_SECONDS then SimpleCheckResult(false, 1, b)
    else
      // the embedded ping's own check leaves its nDos behind
      var dos := if IsNullPing(b.lastPing) then 0 else PingDos(PingSimpleCheck(b.lastPing, env));
      var mnb := if BadEmbeddedPing(b, env) then b.(state := Expired) else b;
      if b.protocolVersion < env.minPaymentProto then SimpleCheckResult(false, dos, mnb)
      else if o.scriptSize(b.pubKeyCollateral) != P2PKH_SCRIPT_SIZE then SimpleCheckResult(false, 100, mnb)
      else if o.scriptSize(b.pubKeyOperator) != P2PKH_SCRIPT_SIZE then SimpleCheckResult(false, 100, mnb)
      else if b.vin.scriptSig != [] then SimpleCheckResult(false, 100, mnb)
      else if !PortAllowed(env.isMainnet, b.addr.port, env.mainnetDefaultPort) then SimpleCheckResult(false, dos, mnb)
      else SimpleCheckResult(true, dos, mnb)
  }

  /** A bad embedded ping never by itself makes SimpleCheck reject. */
  lemma BadPingOnlyExpires(b: Broadcast, env: Env, o: Oracles)
    requires WellFormedBroadcast(b, env, o) && BadEmbeddedPing(b, env)
    ensures BroadcastSimpleCheck(b, env, o).ok
    ensures BroadcastSimpleCheck(b, env, o).mnb.state == Expired
  {
  }

  /** The port rule keeps the networks apart: no broadcast passes
      SimpleCheck both on mainnet and on another network that agree on the
      mainnet default port. */
  lemma NoBroadcastOnBothNetworks(b: Broadcast, main: Env, other: Env, o: Oracles)
    requires main.isMainnet && !other.isMainnet && main.mainnetDefaultPort == other.mainnetDefaultPort
    ensures !(BroadcastSimpleCheck(b, main, o).ok && BroadcastSimpleCheck(b, other, o).ok)
  {
  }

  /** Pass, or refuse with a misbehaviour score. */
  datatype Gate = Pass | Refuse(dos: int)

  /** The signature-time tests that open CShroudnodeBroadcast::Update. */
  function SigTimeGate(existingSigTime: int, b: Broadcast): (g: Gate)
    ensures g.Pass? <==> b.sigTime > existingSigTime || (b.sigTime == existingSigTime && b.recovery)
    ensures g.Refuse? ==> g.dos == 0
  {
    if existingSigTime == b.sigTime && !b.recovery then Refuse(0)
    else if existingSigTime > b.sigTime then Refuse(0)
    else Pass
  }

  /** The guard of CShroudnode::UpdateFromNewBroadcast. */
  predicate MergeRefused(existingSigTime: int, b: Broadcast)
  {
    b.sigTime <= existingSigTime && !b.recovery
  }

  /** A broadcast that passes Update's signature-time gate is always merged
      by UpdateFromNewBroadcast, and never moves the signature time back. */
  lemma SigTimeGateAdmitsMerge(existingSigTime: int, b: Broadcast)
    requires SigTimeGate(existingSigTime, b).Pass?
    ensures !MergeRefused(existingSigTime, b)
    ensures b.sigTime >= existingSigTime
  {
  }

  /** The tests of Update after the record was re-checked. */
  function AdmissionGate(bannedAfterCheck: bool, existingCollateralKey: Key, b: Broadcast, o: Oracles): (g: Gate)
    ensures g.Pass? <==> !bannedAfterCheck && existingCollateralKey == b.pubKeyCollateral && o.verifyBroadcast(b)
    ensures g.Refuse? && bannedAfterCheck ==> g.dos == 0
    ensures g.Refuse? && !bannedAfterCheck && existingCollateralKey != b.pubKeyCollateral ==> g.dos == 33
    ensures g.Refuse? && !bannedAfterCheck && existingCollateralKey == b.pubKeyCollateral ==> g.dos == 100
  {
    if bannedAfterCheck then Refuse(0)
    else if existingCollateralKey != b.pubKeyCollateral then Refuse(33)
    else if !o.verifyBroadcast(b) then Refuse(100)
    else Pass
  }

  // -------------------------------------------------------- collateral

  /** What the chain says about the collateral output. */
  datatype CoinView = CoinView(
    busy: bool,                 // TRY_LOCK(cs_main) did not acquire
    present: bool,              // coin found, index in range, output not null
    value: int,                 // the output's nValue
    coinHeight: int,            // height of the block holding it
    requiredValue: int,         // SHROUDNODE_COIN_REQUIRED(height) * COIN
    minConfirmations: int,      // nShroudnodeMinimumConfirmations
    associated: bool,           // IsVinAssociatedWithPubkey
    confBlockTime: Option<int>) // time of the block giving the minimum confirmations, if the transaction is indexed

  /** A rejection is transient (`retry`) when the broadcast is dropped from
      the seen map so that it will be checked again. */
  datatype OutpointVerdict = OutpointOk | OutpointRejected(dos: int, retry: bool)

  predicate IsOwnActiveBroadcast(b: Broadcast, env: Env)
  {
    env.active.Some? && b.vin.prevout == env.active.value.prevout && b.pubKeyOperator == env.active.value.operatorKey
  }

  predicate Confirmed(coin: CoinView, env: Env)
  {
    env.height - coin.coinHeight + 1 >= coin.minConfirmations
  }

  predicate Backdated(b: Broadcast, coin: CoinView)
  {
    coin.confBlockTime.Some? && coin.confBlockTime.value > b.sigTime
  }

  /** CShroudnodeBroadcast::CheckOutpoint; `dosIn` is the caller's nDos,
      which the first test returns untouched. */
  function CheckOutpoint(b: Broadcast, coin: CoinView, env: Env, o: Oracles, dosIn: int): (r: OutpointVerdict)
    ensures r.OutpointOk? <==>
              && !IsOwnActiveBroadcast(b, env) && o.verifyBroadcast(b) && !coin.busy && coin.present
              && coin.value == coin.requiredValue && Confirmed(coin, env) && coin.associated && !Backdated(b, coin)
    ensures r.OutpointRejected? && r.retry <==>
              && !IsOwnActiveBroadcast(b, env) && o.verifyBroadcast(b)
              && (coin.busy || (coin.present && coin.value == coin.requiredValue && !Confirmed(coin, env)))
    ensures r.OutpointRejected? && r.retry ==> r.dos == 0
    ensures IsOwnActiveBroadcast(b, env) ==> r == OutpointRejected(dosIn, false)
    ensures !IsOwnActiveBroadcast(b, env) && !o.verifyBroadcast(b) ==> r == OutpointRejected(100, false)
    ensures r == OutpointRejected(33, false) && !IsOwnActiveBroadcast(b, env) <==>
              && !IsOwnActiveBroadcast(b, env) && o.verifyBroadcast(b) && !coin.busy && coin.present
              && coin.value == coin.requiredValue && Confirmed(coin, env) && !coin.associated
    // a missing coin, a wrong value and a backdated signature are refused without penalty
    ensures (&& !IsOwnActiveBroadcast(b, env) && o.verifyBroadcast(b) && !coin.busy
             && (!coin.present || coin.value != coin.requiredValue)) ==> r == OutpointRejected(0, false)
    ensures (&& !IsOwnActiveBroadcast(b, env) && o.verifyBroadcast(b) && !coin.busy && coin.present
             && coin.value == coin.requiredValue && Confirmed(coin, env) && coin.associated && Backdated(b, coin))
            ==> r == OutpointRejected(0, false)
  {
    if IsOwnActiveBroadcast(b, env) then OutpointRejected(dosIn, false)
    else if !o.verifyBroadcast(b) then OutpointRejected(100, false)
    else if coin.busy then OutpointRejected(0, true)
    else if !coin.present then OutpointRejected(0, false)
    else if coin.value != coin.requiredValue then OutpointRejected(0, false)
    else if !Confirmed(coin, env) then OutpointRejected(0, true)
    else if !coin.associated then OutpointRejected(33, false)
    else if Backdated(b, coin) then OutpointRejected(0, false)
    else OutpointOk
  }
}
