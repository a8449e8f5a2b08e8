/** The vocabulary of the shroudnode subsystem: identifiers, the two signed
    messages (ping and broadcast), the eight node states, the constants of
    the shroudnode header and the environment (clock, chain, sync state,
    cryptography) that every decision of the core reads. */
module ShroudTypes {

  datatype Option<+T> = None | Some(value: T)

  const TWO_256: int := 0x1_0000_0000_0000_0000_0000_0000_0000_0000_0000_0000_0000_0000_0000_0000_0000_0000

  /** An arith_uint256 / uint256 value. */
  type U256 = x: int | 0 <= x < TWO_256

  /** An unsigned 32-bit output index. */
  type U32 = x: int | 0 <= x < 0x1_0000_0000

  /** A public key, identified by its key id. */
  type Key = nat

  type Script = seq<int>
  type Sig = seq<int>

  /** The collateral reference: transaction id and output index. */
  datatype Outpoint = Outpoint(hash: U256, n: U32)

  datatype TxIn = TxIn(prevout: Outpoint, scriptSig: Script)

  datatype Service = Service(ip: nat, port: nat)

  /** CShroudnodePing: a heartbeat anchored at a recent block. */
  datatype Ping = Ping(vin: TxIn, blockHash: U256, sigTime: int, sig: Sig)

  /** The default-constructed ping, which the source uses as "no ping". */
  const NullPing: Ping := Ping(TxIn(Outpoint(0, 0xFFFF_FFFF), []), 0, 0, [])

  /** The ping's `==`: two pings are the same when they come from the same
      input and are anchored at the same block; time and signature are not
      compared. */
  predicate SamePing(a: Ping, b: Ping)
  {
    a.vin == b.vin && a.blockHash == b.blockHash
  }

  /** `p == CShroudnodePing()` under that equality. */
  predicate IsNullPing(p: Ping)
  {
    SamePing(p, NullPing)
  }

  datatype NodeState =
    | PreEnabled
    | Enabled
    | Expired
    | OutpointSpent
    | UpdateRequired
    | WatchdogExpired
    | NewStartRequired
    | PoSeBan

  /** CShroudnodeBroadcast: the identity-bearing fields of a record, the
      embedded ping, the broadcast's own state (its SimpleCheck may mark it
      expired) and the recovery flag. */
  datatype Broadcast = Broadcast(
    vin: TxIn,
    addr: Service,
    pubKeyCollateral: Key,
    pubKeyOperator: Key,
    sig: Sig,
    sigTime: int,
    protocolVersion: int,
    lastPing: Ping,
    state: NodeState,
    recovery: bool)

  /** The constants of the shroudnode header, left uninterpreted. */
  datatype Consts = Consts(
    checkSeconds: int,             // SHROUDNODE_CHECK_SECONDS
    minMnpSeconds: int,            // SHROUDNODE_MIN_MNP_SECONDS
    minMnbSeconds: int,            // SHROUDNODE_MIN_MNB_SECONDS
    expirationSeconds: int,        // SHROUDNODE_EXPIRATION_SECONDS
    watchdogMaxSeconds: int,       // SHROUDNODE_WATCHDOG_MAX_SECONDS
    newStartRequiredSeconds: int,  // SHROUDNODE_NEW_START_REQUIRED_SECONDS
    poseBanMaxScore: int,          // SHROUDNODE_POSE_BAN_MAX_SCORE
    minPaymentProto1: int,         // MIN_SHROUDNODE_PAYMENT_PROTO_VERSION_1
    minPaymentProto2: int,         // MIN_SHROUDNODE_PAYMENT_PROTO_VERSION_2
    protocolVersion: int)          // PROTOCOL_VERSION

  /** The locally running shroudnode (fShroudNode and activeShroudnode). */
  datatype ActiveNode = ActiveNode(prevout: Outpoint, operatorKey: Key)

  /** Everything the core reads from clock, chain, sync and configuration. */
  datatype Env = Env(
    c: Consts,
    now: int,                    // GetTime() and GetAdjustedTime()
    shutdown: bool,              // ShutdownRequested()
    chainBusy: bool,             // TRY_LOCK(cs_main) did not acquire
    utxoPresent: bool,           // the collateral coin exists, index in range, output not null
    height: int,                 // chainActive.Height()
    listSize: int,               // mnodeman.size()
    listSynced: bool,            // shroudnodeSync.IsShroudnodeListSynced()
    synced: bool,                // shroudnodeSync.IsSynced()
    watchdogActive: bool,        // mnodeman.IsWatchdogActive()
    minPaymentProto: int,        // mnpayments.GetMinShroudnodePaymentsProto()
    active: Option<ActiveNode>,  // None when this process is not a shroudnode
    blockIndex: map<U256, int>,  // mapBlockIndex: block hash to height
    isMainnet: bool,
    mainnetDefaultPort: int)

  /** Signing, script derivation and address checks, which this core only calls. */
  datatype Oracles = Oracles(
    verifyPing: (Key, Ping) -> bool,        // CShroudnodePing::CheckSignature
    verifyBroadcast: Broadcast -> bool,     // CShroudnodeBroadcast::CheckSignature
    scriptSize: Key -> nat,                 // GetScriptForDestination(key id).size()
    payeeScript: Key -> Script,             // GetScriptForDestination(key id)
    validNetAddr: Service -> bool)          // IsValidNetAddr

  /** IsPingedWithin: a ping exists and was signed less than `seconds` before `at`. */
  predicate PingedWithin(last: Ping, seconds: int, at: int)
  {
    !IsNullPing(last) && at - last.sigTime < seconds
  }

  /** fShroudNode && activeShroudnode.pubKeyShroudnode == operatorKey */
  predicate IsOurs(env: Env, operatorKey: Key)
  {
    env.active.Some? && env.active.value.operatorKey == operatorKey
  }

  predicate IsStateName(r: string)
  {
    r in {"PRE_ENABLED", "ENABLED", "EXPIRED", "OUTPOINT_SPENT", "UPDATE_REQUIRED",
          "WATCHDOG_EXPIRED", "NEW_START_REQUIRED", "POSE_BAN"}
  }

  /** The printable name of a state; never the "UNKNOWN" of the fallback. */
  function StateToString(s: NodeState): (r: string)
    ensures IsStateName(r) && r != "UNKNOWN"
  {
    match s
    case PreEnabled => "PRE_ENABLED"
    case Enabled => "ENABLED"
    case Expired => "EXPIRED"
    case OutpointSpent => "OUTPOINT_SPENT"
    case UpdateRequired => "UPDATE_REQUIRED"
    case WatchdogExpired => "WATCHDOG_EXPIRED"
    case NewStartRequired => "NEW_START_REQUIRED"
    case PoSeBan => "POSE_BAN"
  }

  /** Distinct states print differently, so the name identifies the state. */
  lemma StateToStringInjective(s: NodeState, t: NodeState)
    ensures StateToString(s) == StateToString(t) ==> s == t
  {
    if StateToString(s) == StateToString(t) {
      match s
      case PreEnabled => assert StateToString(s)[0] == 'P' && |StateToString(s)| == 11;
      case Enabled => assert |StateToString(s)| == 7;
      case Expired => assert StateToString(s)[0] == 'E' && |StateToString(s)| == 7;
      case OutpointSpent => assert |StateToString(s)| == 14;
      case UpdateRequired => assert |StateToString(s)| == 15;
      case WatchdogExpired => assert |StateToString(s)| == 16;
      case NewStartRequired => assert |StateToString(s)| == 18;
      case PoSeBan => assert |StateToString(s)| == 8;
    }
  }
}
