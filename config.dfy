/**
 * The pure middle of generateConfig: the L3 configuration record built from
 * the decoded chain config, the rollup's core contracts, the operators'
 * derived addresses and the creation receipt's block number; the argument
 * object handed to the node-config builder; and the L3 record's
 * serialisation with the BigInt replacer.
 */
module Config {
  import opened Wrappers
  import opened Json
  import Decimal

  /** An account address as the libraries return it (a checksummed hex string). */
  type Address = string

  /** The parts of a chain descriptor that are read: its id and its default HTTP RPC URLs. */
  datatype RpcUrlSet = RpcUrlSet(http: seq<string>)
  datatype RpcUrls = RpcUrls(defaultUrls: RpcUrlSet)
  datatype Chain = Chain(id: int, rpcUrls: RpcUrls)

  /** The parent chain generateConfig is fixed to, arbitrumSepolia, as the chain table of its library describes it. */
  const ArbitrumSepolia := Chain(421614, RpcUrls(RpcUrlSet(["https://sepolia-rollup.arbitrum.io/rpc"])))

  /** The fixed minimum L2 base fee, in wei. */
  const MinL2BaseFee := 100000000

  /** The parent-chain node URL written into the L3 record as a literal. */
  const ParentChainNodeUrl := "https://sepolia-rollup.arbitrum.io/rpc"

  /** getRpcUrl: the first default HTTP URL; `undefined` (None) when the list is empty. */
  function GetRpcUrl(chain: Chain): (r: Option<string>)
    ensures r.Some? <==> chain.rpcUrls.defaultUrls.http != []
    ensures r.Some? ==> r.value in chain.rpcUrls.defaultUrls.http
    ensures r.Some? ==> r.value == chain.rpcUrls.defaultUrls.http[0]
  {
    var urls := chain.rpcUrls.defaultUrls.http;
    if |urls| > 0 then Some(urls[0]) else None
  }

  /** The decoded chain config; only chainId is read, the rest is carried unseen. */
  datatype ChainConfig = ChainConfig(chainId: int, rest: Json)

  /** The rollup's deployed core contracts, as decoded from the creation receipt. */
  datatype CoreContracts = CoreContracts(
    rollup: Address,
    nativeToken: Address,
    inbox: Address,
    outbox: Address,
    rollupEventInbox: Address,
    challengeManager: Address,
    adminProxy: Address,
    sequencerInbox: Address,
    bridge: Address,
    upgradeExecutor: Address,
    validatorUtils: Address,
    validatorWalletCreator: Address)

  function CoreAddresses(c: CoreContracts): seq<Address> {
    [c.rollup, c.nativeToken, c.inbox, c.outbox, c.rollupEventInbox, c.challengeManager,
     c.adminProxy, c.sequencerInbox, c.bridge, c.upgradeExecutor, c.validatorUtils, c.validatorWalletCreator]
  }

  /** The process environment variables read; `None` is an unset variable (the `!` assertions check nothing). */
  datatype Env = Env(
    chainName: Option<string>,
    batchPosterPrivateKey: Option<string>,
    validatorPrivateKey: Option<string>,
    deployerPrivateKey: Option<string>)

  /** The three operators' derived addresses. */
  datatype Operators = Operators(deployer: Address, staker: Address, batchPoster: Address)

  /**
   * Derives the three operator addresses. `accountOf` stands for
   * `privateKeyToAccount(sanitizePrivateKey(key)).address`; `None` means that
   * call throws. The first throw ends the run.
   */
  function DeriveOperators(env: Env, accountOf: Option<string> -> Option<Address>): (r: Option<Operators>)
    ensures r.Some? <==>
      accountOf(env.deployerPrivateKey).Some? && accountOf(env.validatorPrivateKey).Some?
      && accountOf(env.batchPosterPrivateKey).Some?
    ensures r.Some? ==>
      Some(r.value.deployer) == accountOf(env.deployerPrivateKey)
      && Some(r.value.staker) == accountOf(env.validatorPrivateKey)
      && Some(r.value.batchPoster) == accountOf(env.batchPosterPrivateKey)
  {
    match (accountOf(env.deployerPrivateKey), accountOf(env.validatorPrivateKey), accountOf(env.batchPosterPrivateKey))
    case (Some(d), Some(s), Some(b)) => Some(Operators(d, s, b))
    case _ => None
  }

  /** The L3 configuration record, one field per key of the object literal. */
  datatype L3Config = L3Config(
    networkFeeReceiver: Address,
    infrastructureFeeCollector: Address,
    staker: Address,
    batchPoster: Address,
    chainOwner: Address,
    chainId: int,
    chainName: Option<string>,
    minL2BaseFee: int,
    parentChainId: int,
    parentChainNodeUrl: string,
    utils: Address,
    rollup: Address,
    inbox: Address,
    nativeToken: Address,
    outbox: Address,
    rollupEventInbox: Address,
    challengeManager: Address,
    adminProxy: Address,
    sequencerInbox: Address,
    bridge: Address,
    upgradeExecutor: Address,
    validatorUtils: Address,
    validatorWalletCreator: Address,
    deployedAtBlockNumber: nat)

  /** Every address-valued field of the record, in key order. */
  function AddressFields(r: L3Config): seq<Address> {
    [r.networkFeeReceiver, r.infrastructureFeeCollector, r.staker, r.batchPoster, r.chainOwner,
     r.utils, r.rollup, r.inbox, r.nativeToken, r.outbox, r.rollupEventInbox, r.challengeManager,
     r.adminProxy, r.sequencerInbox, r.bridge, r.upgradeExecutor, r.validatorUtils, r.validatorWalletCreator]
  }

  /** Each of the record's contract fields holds the same-named core contract. */
  predicate CopiesCoreContracts(r: L3Config, c: CoreContracts) {
    && r.rollup == c.rollup && r.inbox == c.inbox && r.nativeToken == c.nativeToken
    && r.outbox == c.outbox && r.rollupEventInbox == c.rollupEventInbox
    && r.challengeManager == c.challengeManager && r.adminProxy == c.adminProxy
    && r.sequencerInbox == c.sequencerInbox && r.bridge == c.bridge
    && r.upgradeExecutor == c.upgradeExecutor && r.validatorUtils == c.validatorUtils
    && r.validatorWalletCreator == c.validatorWalletCreator
  }

  /** The l3Config object literal. */
  function BuildL3Config(chainConfig: ChainConfig, core: CoreContracts, ops: Operators,
                         chainName: Option<string>, parentChain: Chain, blockNumber: nat): (r: L3Config)
    // one deployer identity fills the three owner and fee roles
    ensures r.networkFeeReceiver == ops.deployer && r.infrastructureFeeCollector == ops.deployer
    ensures r.chainOwner == ops.deployer
    ensures r.staker == ops.staker && r.batchPoster == ops.batchPoster
    ensures r.chainId == chainConfig.chainId && r.chainName == chainName
    ensures r.minL2BaseFee == 100000000 && r.parentChainId == parentChain.id
    ensures r.parentChainNodeUrl == "https://sepolia-rollup.arbitrum.io/rpc"
    // validatorUtils is emitted twice, under `utils` and under its own name
    ensures r.utils == core.validatorUtils && r.utils == r.validatorUtils
    ensures CopiesCoreContracts(r, core)
    ensures r.deployedAtBlockNumber == blockNumber
  {
    L3Config(
      networkFeeReceiver := ops.deployer,
      infrastructureFeeCollector := ops.deployer,
      staker := ops.staker,
      batchPoster := ops.batchPoster,
      chainOwner := ops.deployer,
      chainId := chainConfig.chainId,
      chainName := chainName,
      minL2BaseFee := MinL2BaseFee,
      parentChainId := parentChain.id,
      parentChainNodeUrl := ParentChainNodeUrl,
      utils := core.validatorUtils,
      rollup := core.rollup,
      inbox := core.inbox,
      nativeToken := core.nativeToken,
      outbox := core.outbox,
      rollupEventInbox := core.rollupEventInbox,
      challengeManager := core.challengeManager,
      adminProxy := core.adminProxy,
      sequencerInbox := core.sequencerInbox,
      bridge := core.bridge,
      upgradeExecutor := core.upgradeExecutor,
      validatorUtils := core.validatorUtils,
      validatorWalletCreator := core.validatorWalletCreator,
      deployedAtBlockNumber := blockNumber)
  }

  /** No address is made up: each one is an operator's derived address or a core contract. */
  lemma NoAddressSynthesised(chainConfig: ChainConfig, core: CoreContracts, ops: Operators,
                             chainName: Option<string>, parentChain: Chain, blockNumber: nat)
    ensures forall a :: a in AddressFields(BuildL3Config(chainConfig, core, ops, chainName, parentChain, blockNumber)) ==>
      a in [ops.deployer, ops.staker, ops.batchPoster] || a in CoreAddresses(core)
  {
  }

  /** Every core contract appears in the record. */
  lemma EveryCoreContractEmitted(chainConfig: ChainConfig, core: CoreContracts, ops: Operators,
                                 chainName: Option<string>, parentChain: Chain, blockNumber: nat)
    ensures forall a :: a in CoreAddresses(core) ==>
      a in AddressFields(BuildL3Config(chainConfig, core, ops, chainName, parentChain, blockNumber))
  {
  }

  /** The literal node URL does not follow the parent chain's own RPC URLs: only its id is read. */
  lemma NodeUrlIgnoresParentRpcUrls(chainConfig: ChainConfig, core: CoreContracts, ops: Operators,
                                    chainName: Option<string>, p1: Chain, p2: Chain, blockNumber: nat)
    requires p1.id == p2.id
    ensures BuildL3Config(chainConfig, core, ops, chainName, p1, blockNumber)
         == BuildL3Config(chainConfig, core, ops, chainName, p2, blockNumber)
  {
  }

  /** For the parent chain generateConfig is fixed to, the literal happens to agree with getRpcUrl. */
  lemma NodeUrlAgreesForArbitrumSepolia()
    ensures GetRpcUrl(ArbitrumSepolia) == Some(ParentChainNodeUrl)
  {
  }

  // ----- the record as the serialiser sees it -----

  /** The keys of the object literal, in the order it writes them. */
  const L3Keys: seq<string> := [
    "networkFeeReceiver", "infrastructureFeeCollector", "staker", "batchPoster", "chainOwner",
    "chainId", "chainName", "minL2BaseFee", "parentChainId", "parent-chain-node-url",
    "utils", "rollup", "inbox", "nativeToken", "outbox", "rollupEventInbox", "challengeManager",
    "adminProxy", "sequencerInbox", "bridge", "upgradeExecutor", "validatorUtils",
    "validatorWalletCreator", "deployedAtBlockNumber"]

  /**
   * The value the object literal gives the key at position k: addresses and
   * the name are strings (an unset name is `undefined`), the ids and the fee
   * are Numbers, the receipt's block number is a BigInt.
   */
  function L3Value(r: L3Config, k: nat): Json
    requires k < |L3Keys|
  {
    match k
    case 0 => JStr(r.networkFeeReceiver)
    case 1 => JStr(r.infrastructureFeeCollector)
    case 2 => JStr(r.staker)
    case 3 => JStr(r.batchPoster)
    case 4 => JStr(r.chainOwner)
    case 5 => JNum(r.chainId)
    case 6 => if r.chainName.Some? then JStr(r.chainName.value) else JUndefined
    case 7 => JNum(r.minL2BaseFee)
    case 8 => JNum(r.parentChainId)
    case 9 => JStr(r.parentChainNodeUrl)
    case 10 => JStr(r.utils)
    case 11 => JStr(r.rollup)
    case 12 => JStr(r.inbox)
    case 13 => JStr(r.nativeToken)
    case 14 => JStr(r.outbox)
    case 15 => JStr(r.rollupEventInbox)
    case 16 => JStr(r.challengeManager)
    case 17 => JStr(r.adminProxy)
    case 18 => JStr(r.sequencerInbox)
    case 19 => JStr(r.bridge)
    case 20 => JStr(r.upgradeExecutor)
    case 21 => JStr(r.validatorUtils)
    case 22 => JStr(r.validatorWalletCreator)
    case 23 => JBig(r.deployedAtBlockNumber)
  }

  /** The l3Config object as the serialiser sees it: its properties in the order the literal writes them. */
  function L3ToJson(r: L3Config): (j: Json)
    ensures j.JObj? && |j.members| == |L3Keys|
  {
    JObj(seq(|L3Keys|, k requires 0 <= k < |L3Keys| => Member(L3Keys[k], L3Value(r, k))))
  }

  /** Without the replacer, serialising the record throws: its block number is a BigInt. */
  lemma PlainStringifyOfL3Throws(r: L3Config)
    ensures Stringify(L3ToJson(r)) == Err(TypeError)
  {
    var j := L3ToJson(r);
    assert j.members[23].value == JBig(r.deployedAtBlockNumber);
    StringifyThrowsIffBig(j);
  }

  /** `JSON.stringify(l3Config, replacer)`: the text written to l3-config.json. */
  function SerializeL3(r: L3Config): (text: string)
    ensures StringifyReplacingBigInts(L3ToJson(r)) == Ok(Some(text))
    ensures Stringify(ReplaceAll(L3ToJson(r))) == Ok(Some(text))
  {
    var j := L3ToJson(r);
    StringifyReplacingBigIntsNeverThrows(j);
    match StringifyReplacingBigInts(j)
    case Ok(Some(t)) => t
    case _ => assert false; ""
  }

  lemma L3KeyNamesDistinct()
    ensures forall i, j :: 0 <= i < j < |L3Keys| ==> L3Keys[i] != L3Keys[j]
  {
  }

  /** The record's object has one member per key: 24 keys, each once. */
  lemma L3ObjectKeys(r: L3Config)
    ensures |L3ToJson(r).members| == |L3Keys|
    ensures forall k :: 0 <= k < |L3Keys| ==> L3ToJson(r).members[k].key == L3Keys[k]
    ensures KeysDistinct(L3ToJson(r).members)
  {
    L3KeyNamesDistinct();
  }

  /** The member under the k-th key is the literal's k-th value. */
  lemma L3Lookup(r: L3Config, k: nat)
    requires k < |L3Keys|
    ensures Lookup(L3ToJson(r).members, L3Keys[k]) == Some(L3Value(r, k))
  {
    L3ObjectKeys(r);
    LookupAt(L3ToJson(r).members, k);
  }

  /** After the replacer, the member under the k-th key is the replaced k-th value. */
  lemma L3LookupReplaced(r: L3Config, k: nat)
    requires k < |L3Keys|
    ensures Lookup(ReplaceAll(L3ToJson(r)).members, L3Keys[k]) == Some(ReplaceAll(L3Value(r, k)))
  {
    L3ObjectKeys(r);
    LookupAfterReplaceAll(L3ToJson(r).members, k);
  }

  // The member lemmas are split into small groups: each group first names the
  // literal's values for its indices, then looks each one up by its index.

  lemma L3RolesValues(r: L3Config)
    ensures L3Value(r, 0) == JStr(r.networkFeeReceiver)
    ensures L3Value(r, 1) == JStr(r.infrastructureFeeCollector)
    ensures L3Value(r, 2) == JStr(r.staker)
    ensures L3Value(r, 3) == JStr(r.batchPoster)
    ensures L3Value(r, 4) == JStr(r.chainOwner)
  {
  }

  /** The five role addresses, each under its own key. */
  lemma L3ObjectRoles(r: L3Config)
    ensures var ms := L3ToJson(r).members;
      && Lookup(ms, "networkFeeReceiver") == Some(JStr(r.networkFeeReceiver))
      && Lookup(ms, "infrastructureFeeCollector") == Some(JStr(r.infrastructureFeeCollector))
      && Lookup(ms, "staker") == Some(JStr(r.staker))
      && Lookup(ms, "batchPoster") == Some(JStr(r.batchPoster))
      && Lookup(ms, "chainOwner") == Some(JStr(r.chainOwner))
  {
    L3RolesValues(r);
    L3Lookup(r, 0);
    L3Lookup(r, 1);
    L3Lookup(r, 2);
    L3Lookup(r, 3);
    L3Lookup(r, 4);
  }

  lemma L3ValidatorContractsValues(r: L3Config)
    ensures L3Value(r, 10) == JStr(r.utils)
    ensures L3Value(r, 21) == JStr(r.validatorUtils)
    ensures L3Value(r, 22) == JStr(r.validatorWalletCreator)
  {
  }

  /** The validator contracts: `utils`, `validatorUtils` and `validatorWalletCreator`. */
  lemma L3ObjectValidatorContracts(r: L3Config)
    ensures var ms := L3ToJson(r).members;
      && Lookup(ms, "utils") == Some(JStr(r.utils))
      && Lookup(ms, "validatorUtils") == Some(JStr(r.validatorUtils))
      && Lookup(ms, "validatorWalletCreator") == Some(JStr(r.validatorWalletCreator))
  {
    L3ValidatorContractsValues(r);
    L3Lookup(r, 10);
    L3Lookup(r, 21);
    L3Lookup(r, 22);
  }

  lemma L3RollupContractsValues(r: L3Config)
    ensures L3Value(r, 11) == JStr(r.rollup)
    ensures L3Value(r, 12) == JStr(r.inbox)
    ensures L3Value(r, 13) == JStr(r.nativeToken)
    ensures L3Value(r, 14) == JStr(r.outbox)
    ensures L3Value(r, 15) == JStr(r.rollupEventInbox)
  {
  }

  /** The rollup and its message-passing contracts. */
  lemma L3ObjectRollupContracts(r: L3Config)
    ensures var ms := L3ToJson(r).members;
      && Lookup(ms, "rollup") == Some(JStr(r.rollup))
      && Lookup(ms, "inbox") == Some(JStr(r.inbox))
      && Lookup(ms, "nativeToken") == Some(JStr(r.nativeToken))
      && Lookup(ms, "outbox") == Some(JStr(r.outbox))
      && Lookup(ms, "rollupEventInbox") == Some(JStr(r.rollupEventInbox))
  {
    L3RollupContractsValues(r);
    L3Lookup(r, 11);
    L3Lookup(r, 12);
    L3Lookup(r, 13);
    L3Lookup(r, 14);
    L3Lookup(r, 15);
  }

  lemma L3AdminContractsValues(r: L3Config)
    ensures L3Value(r, 16) == JStr(r.challengeManager)
    ensures L3Value(r, 17) == JStr(r.adminProxy)
    ensures L3Value(r, 18) == JStr(r.sequencerInbox)
    ensures L3Value(r, 19) == JStr(r.bridge)
    ensures L3Value(r, 20) == JStr(r.upgradeExecutor)
  {
  }

  /** The challenge manager, admin proxy, sequencer inbox, bridge and upgrade executor. */
  lemma L3ObjectAdminContracts(r: L3Config)
    ensures var ms := L3ToJson(r).members;
      && Lookup(ms, "challengeManager") == Some(JStr(r.challengeManager))
      && Lookup(ms, "adminProxy") == Some(JStr(r.adminProxy))
      && Lookup(ms, "sequencerInbox") == Some(JStr(r.sequencerInbox))
      && Lookup(ms, "bridge") == Some(JStr(r.bridge))
      && Lookup(ms, "upgradeExecutor") == Some(JStr(r.upgradeExecutor))
  {
    L3AdminContractsValues(r);
    L3Lookup(r, 16);
    L3Lookup(r, 17);
    L3Lookup(r, 18);
    L3Lookup(r, 19);
    L3Lookup(r, 20);
  }

  lemma L3ScalarsValues(r: L3Config)
    ensures L3Value(r, 5) == JNum(r.chainId)
    ensures L3Value(r, 6) == (if r.chainName.Some? then JStr(r.chainName.value) else JUndefined)
    ensures L3Value(r, 7) == JNum(r.minL2BaseFee)
    ensures L3Value(r, 8) == JNum(r.parentChainId)
    ensures L3Value(r, 9) == JStr(r.parentChainNodeUrl)
    ensures L3Value(r, 23) == JBig(r.deployedAtBlockNumber)
  {
  }

  /** The identifiers, the fee, the node URL and the block number; chainName is `undefined` when unset. */
  lemma L3ObjectScalars(r: L3Config)
    ensures var ms := L3ToJson(r).members;
      && Lookup(ms, "chainId") == Some(JNum(r.chainId))
      && Lookup(ms, "chainName") == Some(if r.chainName.Some? then JStr(r.chainName.value) else JUndefined)
      && Lookup(ms, "minL2BaseFee") == Some(JNum(r.minL2BaseFee))
      && Lookup(ms, "parentChainId") == Some(JNum(r.parentChainId))
      && Lookup(ms, "parent-chain-node-url") == Some(JStr(r.parentChainNodeUrl))
      && Lookup(ms, "deployedAtBlockNumber") == Some(JBig(r.deployedAtBlockNumber))
  {
    L3ScalarsValues(r);
    L3Lookup(r, 5);
    L3Lookup(r, 6);
    L3Lookup(r, 7);
    L3Lookup(r, 8);
    L3Lookup(r, 9);
    L3Lookup(r, 23);
  }

  /** In the emitted object the deployer fills the three owner and fee roles, and the staker and batch poster are their own accounts. */
  lemma EmittedRoles(chainConfig: ChainConfig, core: CoreContracts, ops: Operators,
      chainName: Option<string>, parentChain: Chain, blockNumber: nat)
    ensures var ms := L3ToJson(BuildL3Config(chainConfig, core, ops, chainName, parentChain, blockNumber)).members;
      && Lookup(ms, "networkFeeReceiver") == Some(JStr(ops.deployer))
      && Lookup(ms, "infrastructureFeeCollector") == Some(JStr(ops.deployer))
      && Lookup(ms, "staker") == Some(JStr(ops.staker))
      && Lookup(ms, "batchPoster") == Some(JStr(ops.batchPoster))
      && Lookup(ms, "chainOwner") == Some(JStr(ops.deployer))
  {
    var r := BuildL3Config(chainConfig, core, ops, chainName, parentChain, blockNumber);
    L3ObjectRoles(r);
  }

  /** The emitted object carries every core contract verbatim, validatorUtils under both `utils` and its own key. */
  lemma EmittedCoreContracts(chainConfig: ChainConfig, core: CoreContracts, ops: Operators,
      chainName: Option<string>, parentChain: Chain, blockNumber: nat)
    ensures var ms := L3ToJson(BuildL3Config(chainConfig, core, ops, chainName, parentChain, blockNumber)).members;
      && Lookup(ms, "utils") == Some(JStr(core.validatorUtils))
      && Lookup(ms, "validatorUtils") == Some(JStr(core.validatorUtils))
      && Lookup(ms, "validatorWalletCreator") == Some(JStr(core.validatorWalletCreator))
      && Lookup(ms, "rollup") == Some(JStr(core.rollup))
      && Lookup(ms, "inbox") == Some(JStr(core.inbox))
      && Lookup(ms, "nativeToken") == Some(JStr(core.nativeToken))
      && Lookup(ms, "outbox") == Some(JStr(core.outbox))
      && Lookup(ms, "rollupEventInbox") == Some(JStr(core.rollupEventInbox))
      && Lookup(ms, "challengeManager") == Some(JStr(core.challengeManager))
      && Lookup(ms, "adminProxy") == Some(JStr(core.adminProxy))
      && Lookup(ms, "sequencerInbox") == Some(JStr(core.sequencerInbox))
      && Lookup(ms, "bridge") == Some(JStr(core.bridge))
      && Lookup(ms, "upgradeExecutor") == Some(JStr(core.upgradeExecutor))
  {
    var r := BuildL3Config(chainConfig, core, ops, chainName, parentChain, blockNumber);
    L3ObjectValidatorContracts(r);
    L3ObjectRollupContracts(r);
    L3ObjectAdminContracts(r);
  }

  /** The emitted object's chain ids, fixed fee and fixed node URL, its block number still a BigInt, and its chain name only when set. */
  lemma EmittedScalars(chainConfig: ChainConfig, core: CoreContracts, ops: Operators,
      chainName: Option<string>, parentChain: Chain, blockNumber: nat)
    ensures var ms := L3ToJson(BuildL3Config(chainConfig, core, ops, chainName, parentChain, blockNumber)).members;
      && Lookup(ms, "chainId") == Some(JNum(chainConfig.chainId))
      && Lookup(ms, "parentChainId") == Some(JNum(parentChain.id))
      && Lookup(ms, "minL2BaseFee") == Some(JNum(100000000))
      && Lookup(ms, "parent-chain-node-url") == Some(JStr("https://sepolia-rollup.arbitrum.io/rpc"))
      && Lookup(ms, "deployedAtBlockNumber") == Some(JBig(blockNumber))
      && Lookup(ms, "chainName") == Some(if chainName.Some? then JStr(chainName.value) else JUndefined)
  {
    var r := BuildL3Config(chainConfig, core, ops, chainName, parentChain, blockNumber);
    L3ObjectScalars(r);
  }

  /** After the replacer the object holds no BigInt, so it serialises without throwing. */
  lemma SerialisedHasNoBigInt(r: L3Config)
    ensures var j := ReplaceAll(L3ToJson(r)); j.JObj? && !ContainsBig(j)
  {
    ReplaceAllLeavesNoBig(L3ToJson(r));
  }

  /** The Numbers chainId and minL2BaseFee stay Numbers through the replacer. */
  lemma SerialisedNumbers(r: L3Config)
    ensures var ms := ReplaceAll(L3ToJson(r)).members;
      && Lookup(ms, "chainId") == Some(JNum(r.chainId))
      && Lookup(ms, "minL2BaseFee") == Some(JNum(r.minL2BaseFee))
  {
    L3ScalarsValues(r);
    L3LookupReplaced(r, 5);
    L3LookupReplaced(r, 7);
  }

  /**
   * The block number is emitted as its decimal string, without leading
   * zeros, and that string parses back to the block number.
   */
  lemma SerialisedBlockNumber(r: L3Config)
    ensures exists s ::
      && Lookup(ReplaceAll(L3ToJson(r)).members, "deployedAtBlockNumber") == Some(JStr(s))
      && Decimal.CanonicalDecimal(s) && Decimal.ParseDecimal(s) == Some(r.deployedAtBlockNumber)
  {
    L3ScalarsValues(r);
    L3LookupReplaced(r, 23);
    Decimal.BigIntToStringRoundTrip(r.deployedAtBlockNumber);
  }

  /** Under every key the object holds exactly the value the literal gives it. */
  lemma L3ObjectHoldsLiteral(r: L3Config)
    ensures forall k :: 0 <= k < |L3Keys| ==> Lookup(L3ToJson(r).members, L3Keys[k]) == Some(L3Value(r, k))
  {
    forall k | 0 <= k < |L3Keys| ensures Lookup(L3ToJson(r).members, L3Keys[k]) == Some(L3Value(r, k)) {
      L3Lookup(r, k);
    }
  }

  /** The replacer changes no member of the object but the block number. */
  lemma ReplacerTouchesOnlyBlockNumber(r: L3Config)
    ensures var ms := L3ToJson(r).members;
      forall k :: 0 <= k < |ms| && k != 23 ==> ReplaceAll(L3ToJson(r)).members[k] == ms[k]
  {
    var ms := L3ToJson(r).members;
    forall k | 0 <= k < |ms| && k != 23 ensures ReplaceAll(L3ToJson(r)).members[k] == ms[k] {
      assert !ContainsBig(ms[k].value);
      ReplaceAllWithoutBig(ms[k].value);
    }
  }

  // ----- what the written text shows -----

  /** The text shows `"key":value` for the k-th key whenever that member, after the replacer, serialises to text. */
  lemma L3TextShowsMember(r: L3Config, k: nat, t: string)
    requires k < |L3Keys|
    requires SerializeProperty(L3Keys[k], ReplaceAll(L3Value(r, k)), false) == Ok(Some(t))
    ensures Occurs(Quote(L3Keys[k]) + ":" + t, SerializeL3(r))
  {
    var text := SerializeL3(r);
    var j := ReplaceAll(L3ToJson(r));
    L3ObjectKeys(r);
    assert j.members[k] == Member(L3Keys[k], ReplaceAll(L3Value(r, k)));
    StringifyShowsMember(j, k, t);
  }

  /** A string-valued member is shown as its key and its quoted value. */
  lemma L3TextShowsString(r: L3Config, k: nat, s: string)
    requires k < |L3Keys| && L3Value(r, k) == JStr(s)
    ensures Occurs(Quote(L3Keys[k]) + ":" + Quote(s), SerializeL3(r))
  {
    L3TextShowsMember(r, k, Quote(s));
  }

  /** The block number is shown as the quoted decimal string the replacer made of it. */
  lemma L3TextShowsBlockNumber(r: L3Config)
    ensures Occurs(Quote("deployedAtBlockNumber") + ":" + Quote(Decimal.BigIntToString(r.deployedAtBlockNumber)), SerializeL3(r))
  {
    assert L3Keys[23] == "deployedAtBlockNumber";
    L3ScalarsValues(r);
    L3TextShowsMember(r, 23, Quote(Decimal.BigIntToString(r.deployedAtBlockNumber)));
  }

  /** The fee is shown as the bare digits of a Number. */
  lemma L3TextShowsFee(r: L3Config)
    ensures Occurs(Quote("minL2BaseFee") + ":" + Decimal.BigIntToString(r.minL2BaseFee), SerializeL3(r))
  {
    assert L3Keys[7] == "minL2BaseFee";
    L3ScalarsValues(r);
    SerializeNumber(L3Keys[7], r.minL2BaseFee);
    L3TextShowsMember(r, 7, Decimal.BigIntToString(r.minL2BaseFee));
  }

  /** A chain name that is set is shown as a quoted string under its key. */
  lemma L3TextShowsChainName(r: L3Config)
    ensures r.chainName.Some? ==> Occurs(Quote("chainName") + ":" + Quote(r.chainName.value), SerializeL3(r))
  {
    if r.chainName.Some? {
      assert L3Keys[6] == "chainName";
      L3ScalarsValues(r);
      L3TextShowsString(r, 6, r.chainName.value);
    }
  }

  /** The rollup and the inbox are shown as quoted strings under their keys. */
  lemma L3TextShowsRollupAndInbox(r: L3Config)
    ensures Occurs(Quote("rollup") + ":" + Quote(r.rollup), SerializeL3(r))
    ensures Occurs(Quote("inbox") + ":" + Quote(r.inbox), SerializeL3(r))
  {
    assert L3Keys[11] == "rollup" && L3Keys[12] == "inbox";
    L3RollupContractsValues(r);
    L3TextShowsString(r, 11, r.rollup);
    L3TextShowsString(r, 12, r.inbox);
  }

  lemma FeeDigits()
    ensures Decimal.BigIntToString(MinL2BaseFee) == "100000000"
  {
  }

  /** A key with nothing to escape appears in the text as itself in double quotes, then a colon. */
  lemma PlainKey(k: string)
    requires forall i :: 0 <= i < |k| ==> PlainChar(k[i])
    ensures Quote(k) + ":" == "\"" + k + "\":"
  {
    QuotePlain(k);
  }

  /**
   * The fee appears in the text as the literal `"minL2BaseFee":100000000`.
   * Here and below the keys are parameters fixed by `requires`, which keeps
   * the verifier from unfolding the quoting of a literal character by character.
   */
  lemma FeeText(key: string, digits: string)
    requires key == "minL2BaseFee" && digits == "100000000"
    ensures Quote(key) + ":" + digits == "\"minL2BaseFee\":100000000"
  {
    PlainKey(key);
  }

  /** The rollup, inbox and chain-name keys appear in the text literally, in double quotes. */
  lemma ScenarioKeyText(rollup: string, inbox: string, chainName: string)
    requires rollup == "rollup" && inbox == "inbox" && chainName == "chainName"
    ensures Quote(rollup) + ":" == "\"rollup\":"
    ensures Quote(inbox) + ":" == "\"inbox\":"
    ensures Quote(chainName) + ":" == "\"chainName\":"
  {
    PlainKey(rollup);
    PlainKey(inbox);
    PlainKey(chainName);
  }

  /** So does the block-number key. */
  lemma BlockNumberKeyText(key: string)
    requires key == "deployedAtBlockNumber"
    ensures Quote(key) + ":" == "\"deployedAtBlockNumber\":"
  {
    PlainKey(key);
  }

  /**
   * The text written for a deployment shows `"minL2BaseFee":100000000`, the
   * rollup and inbox addresses and a chain name that is set as quoted strings
   * under their keys, and the block number as a quoted decimal string.
   */
  lemma L3TextScenario(chainConfig: ChainConfig, core: CoreContracts, ops: Operators,
                       chainName: Option<string>, parentChain: Chain, blockNumber: nat)
    ensures var text := SerializeL3(BuildL3Config(chainConfig, core, ops, chainName, parentChain, blockNumber));
      && Occurs("\"minL2BaseFee\":100000000", text)
      && Occurs("\"rollup\":" + Quote(core.rollup), text)
      && Occurs("\"inbox\":" + Quote(core.inbox), text)
      && (chainName.Some? ==> Occurs("\"chainName\":" + Quote(chainName.value), text))
      && Occurs("\"deployedAtBlockNumber\":" + Quote(Decimal.BigIntToString(blockNumber)), text)
  {
    var r := BuildL3Config(chainConfig, core, ops, chainName, parentChain, blockNumber);
    L3TextShowsFee(r);
    FeeDigits();
    FeeText("minL2BaseFee", "100000000");
    ScenarioKeyText("rollup", "inbox", "chainName");
    BlockNumberKeyText("deployedAtBlockNumber");
    L3TextShowsRollupAndInbox(r);
    L3TextShowsChainName(r);
    L3TextShowsBlockNumber(r);
  }

  // ----- the node configuration's arguments, and generateConfig's L3 step -----

  /** The argument object passed to the node-config builder. */
  datatype NodeConfigParams = NodeConfigParams(
    chainName: Option<string>,
    chainConfig: ChainConfig,
    coreContracts: CoreContracts,
    batchPosterPrivateKey: Option<string>,
    validatorPrivateKey: Option<string>,
    parentChainId: int,
    parentChainRpcUrl: Option<string>)

  /** The node config receives the raw signing keys and the parent chain's resolved RPC URL. */
  function BuildNodeConfigParams(env: Env, chainConfig: ChainConfig, core: CoreContracts, parentChain: Chain): (p: NodeConfigParams)
    ensures p.chainName == env.chainName && p.chainConfig == chainConfig && p.coreContracts == core
    ensures p.batchPosterPrivateKey == env.batchPosterPrivateKey && p.validatorPrivateKey == env.validatorPrivateKey
    ensures p.parentChainId == parentChain.id
    ensures p.parentChainRpcUrl == GetRpcUrl(parentChain)
  {
    NodeConfigParams(
      chainName := env.chainName,
      chainConfig := chainConfig,
      coreContracts := core,
      batchPosterPrivateKey := env.batchPosterPrivateKey,
      validatorPrivateKey := env.validatorPrivateKey,
      parentChainId := parentChain.id,
      parentChainRpcUrl := GetRpcUrl(parentChain))
  }

  /**
   * After the node config: derive the operators, build the record and
   * serialise it. `None` is a derivation that throws, after which nothing is
   * written.
   */
  function GenerateL3Text(env: Env, accountOf: Option<string> -> Option<Address>, parentChain: Chain,
                          chainConfig: ChainConfig, core: CoreContracts, blockNumber: nat): (out: Option<string>)
    ensures out.Some? <==> DeriveOperators(env, accountOf).Some?
    ensures out.Some? ==>
      StringifyReplacingBigInts(L3ToJson(BuildL3Config(chainConfig, core, DeriveOperators(env, accountOf).value,
                                                       env.chainName, parentChain, blockNumber))) == Ok(out)
  {
    match DeriveOperators(env, accountOf)
    case None => None
    case Some(ops) => Some(SerializeL3(BuildL3Config(chainConfig, core, ops, env.chainName, parentChain, blockNumber)))
  }

  /** The raw keys reach the L3 text only through their derived addresses. */
  lemma L3TextDependsOnlyOnAccounts(e1: Env, e2: Env, accountOf: Option<string> -> Option<Address>, parentChain: Chain,
                                    chainConfig: ChainConfig, core: CoreContracts, blockNumber: nat)
    requires e1.chainName == e2.chainName
    requires accountOf(e1.deployerPrivateKey) == accountOf(e2.deployerPrivateKey)
    requires accountOf(e1.validatorPrivateKey) == accountOf(e2.validatorPrivateKey)
    requires accountOf(e1.batchPosterPrivateKey) == accountOf(e2.batchPosterPrivateKey)
    ensures GenerateL3Text(e1, accountOf, parentChain, chainConfig, core, blockNumber)
         == GenerateL3Text(e2, accountOf, parentChain, chainConfig, core, blockNumber)
  {
  }

  /**
   * The L3 record and the node-config arguments agree: same chain id,
   * parent-chain id and chain name; the L3 staker and batch poster are the
   * accounts of the keys the node-config builder receives. The node URLs agree exactly when getRpcUrl yields the literal.
   */
  lemma ArtifactsAgree(env: Env, accountOf: Option<string> -> Option<Address>, parentChain: Chain,
                       chainConfig: ChainConfig, core: CoreContracts, blockNumber: nat)
    requires DeriveOperators(env, accountOf).Some?
    ensures var p := BuildNodeConfigParams(env, chainConfig, core, parentChain);
      var r := BuildL3Config(chainConfig, core, DeriveOperators(env, accountOf).value, env.chainName, parentChain, blockNumber);
      && r.chainId == p.chainConfig.chainId
      && r.parentChainId == p.parentChainId
      && r.chainName == p.chainName
      && Some(r.staker) == accountOf(p.validatorPrivateKey)
      && Some(r.batchPoster) == accountOf(p.batchPosterPrivateKey)
      && CopiesCoreContracts(r, p.coreContracts)
      && (p.parentChainRpcUrl == Some(r.parentChainNodeUrl) <==> GetRpcUrl(parentChain) == Some(ParentChainNodeUrl))
  {
  }
}
