/**
 * The network configuration of the dashboard: which network the app talks to, the names the Stacks and
 * Bitcoin libraries use for it, its API endpoints and explorer links, and the exported constants.
 * The process environment is a parameter.
 */
module AppConsts {
  import opened Wrappers
  import opened TemplateStrings

  /** The `NetworkUsed` enum; `Value` is the string each member stands for. */
  datatype NetworkUsed = Mainnet | Testnet | NakamotoTestnet | Devnet {
    function Value(): string {
      match this
      case Mainnet => "mainnet"
      case Testnet => "testnet"
      case NakamotoTestnet => "nakamotoTestnet"
      case Devnet => "devnet"
    }
  }

  /** The `BitcoinNetworkName` enum. */
  datatype BitcoinNetworkName = BitcoinMainnet | BitcoinTestnet {
    function Value(): string {
      match this
      case BitcoinMainnet => "mainnet"
      case BitcoinTestnet => "testnet"
    }
  }

  /** The members of the `StacksNetworks` tuple type. */
  const STACKS_NETWORKS: seq<string> := ["mainnet", "testnet", "devnet", "mocknet"]

  /** The environment variables the module reads; an unset variable is `None`. */
  datatype Env = Env(
    network: Option<string>,
    poolOperator: Option<string>,
    poolBtcAddress: Option<string>,
    poolPrivateKey: Option<string>,
    signerPrivateKey: Option<string>)

  /** `NETWORK`: `process.env.NETWORK || "devnet"`, so an unset or empty variable selects devnet. */
  function Network(env: Env): (r: string)
    ensures r != ""
    ensures r == "devnet" <==> env.network in {None, Some(""), Some("devnet")}
    ensures r != "devnet" ==> env.network == Some(r)
  {
    match env.network
    case Some(s) => if s != "" then s else "devnet"
    case None => "devnet"
  }

  /** The `NetworkUsed` member whose value is `s`, if any (the `as NetworkUsed` cast checks nothing). */
  function ParseNetwork(s: string): (r: Option<NetworkUsed>)
    ensures forall n: NetworkUsed :: r == Some(n) <==> n.Value() == s
  {
    if s == "mainnet" then Some(Mainnet)
    else if s == "testnet" then Some(Testnet)
    else if s == "nakamotoTestnet" then Some(NakamotoTestnet)
    else if s == "devnet" then Some(Devnet)
    else None
  }

  /** `getStacksNetworkName`: mainnet and devnet keep their names; everything else falls to "testnet". */
  function GetStacksNetworkName(network: string): (r: string)
    ensures r in STACKS_NETWORKS && r != "mocknet"
    ensures r == network || r == "testnet"
    ensures r == "testnet" <==> network != "mainnet" && network != "devnet"
  {
    match network
    case "mainnet" => "mainnet"
    case "devnet" => "devnet"
    case _ => "testnet"
  }

  /** `getBitcoinNetworkName`: only mainnet maps to the Bitcoin mainnet. */
  function GetBitcoinNetworkName(network: string): (r: BitcoinNetworkName)
    ensures r == BitcoinMainnet <==> network == "mainnet"
  {
    match network
    case "mainnet" => BitcoinMainnet
    case _ => BitcoinTestnet
  }

  /** The enum members map as the switch cases list them. */
  lemma NetworkNamesOfMembers()
    ensures GetStacksNetworkName(Mainnet.Value()) == "mainnet" && GetBitcoinNetworkName(Mainnet.Value()) == BitcoinMainnet
    ensures GetStacksNetworkName(Testnet.Value()) == "testnet" && GetBitcoinNetworkName(Testnet.Value()) == BitcoinTestnet
    ensures GetStacksNetworkName(NakamotoTestnet.Value()) == "testnet"
    ensures GetBitcoinNetworkName(NakamotoTestnet.Value()) == BitcoinTestnet
    ensures GetStacksNetworkName(Devnet.Value()) == "devnet" && GetBitcoinNetworkName(Devnet.Value()) == BitcoinTestnet
  {
  }

  /** The Stacks and Bitcoin names agree on every network except devnet, which Bitcoin treats as testnet. */
  lemma NetworkNamesAgreeExceptDevnet(network: string)
    ensures GetBitcoinNetworkName(network).Value() == GetStacksNetworkName(network) <==> network != "devnet"
  {
  }

  /** The fields of one `API_CONFIG` entry other than the three URL builders. */
  datatype ApiConfig = ApiConfig(
    apiUrl: string,
    poxInfoUrl: string,
    rewardIndexesApiUrl: string,
    poxContractAddress: string,
    poolOperator: Option<string>,
    poolBtcAddress: Option<string>,
    poolPrivateKey: Option<string>,
    signerPrivateKey: Option<string>,
    databasePath: string,
    firstPox4Cycle: nat)

  // The string fields of each `API_CONFIG` entry.

  const MAINNET_API_URL: string := "https://api.mainnet.hiro.so/extended/v1/tx/events"
  const MAINNET_POX_INFO_URL: string := "https://api.mainnet.hiro.so/v2/pox"
  const MAINNET_REWARD_INDEXES_API_URL: string :=
    "https://api.mainnet.hiro.so/v2/map_entry/SP000000000000000000002Q6VF78/pox-4/reward-cycle-pox-address-list"
  const MAINNET_POX_CONTRACT_ADDRESS: string := "SP000000000000000000002Q6VF78.pox-4"
  const MAINNET_DATABASE_PATH: string := "src/database/mainnet-pox-events.db"

  const TESTNET_API_URL: string := "https://api.testnet.hiro.so/extended/v1/tx/events"
  const TESTNET_POX_INFO_URL: string := "https://api.testnet.hiro.so/v2/pox"
  const TESTNET_REWARD_INDEXES_API_URL: string :=
    "https://api.testnet.hiro.so/v2/map_entry/ST000000000000000000002AMW42H/pox-4/reward-cycle-pox-address-list"
  const TESTNET_POX_CONTRACT_ADDRESS: string := "ST000000000000000000002AMW42H.pox-4"
  const TESTNET_DATABASE_PATH: string := "src/database/testnet-pox-events.db"

  const NAKAMOTO_TESTNET_API_URL: string := "https://api.nakamoto.testnet.hiro.so/extended/v1/tx/events"
  const NAKAMOTO_TESTNET_POX_INFO_URL: string := "https://api.nakamoto.testnet.hiro.so/v2/pox"
  const NAKAMOTO_TESTNET_REWARD_INDEXES_API_URL: string :=
    "https://api.nakamoto.testnet.hiro.so/v2/map_entry/ST000000000000000000002AMW42H/pox-4/reward-cycle-pox-address-list"
  const NAKAMOTO_TESTNET_POX_CONTRACT_ADDRESS: string := "ST000000000000000000002AMW42H.pox-4"
  const NAKAMOTO_TESTNET_DATABASE_PATH: string := "src/database/nakamoto-testnet-pox-events.db"

  const DEVNET_API_URL: string := "http://localhost:3999/extended/v1/tx/events"
  const DEVNET_POX_INFO_URL: string := "http://localhost:3999/v2/pox"
  const DEVNET_REWARD_INDEXES_API_URL: string :=
    "http://localhost:3999/v2/map_entry/ST000000000000000000002AMW42H/pox-4/reward-cycle-pox-address-list"
  const DEVNET_POX_CONTRACT_ADDRESS: string := "ST000000000000000000002AMW42H.pox-4"
  const DEVNET_DATABASE_PATH: string := "src/database/devnet-pox-events.db"

  /** `API_CONFIG[n]` without its URL builders; the pool settings come from the environment. */
  function ApiConfigFor(n: NetworkUsed, env: Env): (c: ApiConfig)
    ensures c.firstPox4Cycle == if n == Mainnet then 84 else 1
    ensures c.poolOperator == env.poolOperator && c.poolBtcAddress == env.poolBtcAddress
    ensures c.poolPrivateKey == env.poolPrivateKey && c.signerPrivateKey == env.signerPrivateKey
  {
    match n
    case Mainnet =>
      ApiConfig(MAINNET_API_URL, MAINNET_POX_INFO_URL, MAINNET_REWARD_INDEXES_API_URL, MAINNET_POX_CONTRACT_ADDRESS,
        env.poolOperator, env.poolBtcAddress, env.poolPrivateKey, env.signerPrivateKey, MAINNET_DATABASE_PATH, 84)
    case Testnet =>
      ApiConfig(TESTNET_API_URL, TESTNET_POX_INFO_URL, TESTNET_REWARD_INDEXES_API_URL, TESTNET_POX_CONTRACT_ADDRESS,
        env.poolOperator, env.poolBtcAddress, env.poolPrivateKey, env.signerPrivateKey, TESTNET_DATABASE_PATH, 1)
    case NakamotoTestnet =>
      ApiConfig(NAKAMOTO_TESTNET_API_URL, NAKAMOTO_TESTNET_POX_INFO_URL, NAKAMOTO_TESTNET_REWARD_INDEXES_API_URL, NAKAMOTO_TESTNET_POX_CONTRACT_ADDRESS,
        env.poolOperator, env.poolBtcAddress, env.poolPrivateKey, env.signerPrivateKey, NAKAMOTO_TESTNET_DATABASE_PATH, 1)
    case Devnet =>
      ApiConfig(DEVNET_API_URL, DEVNET_POX_INFO_URL, DEVNET_REWARD_INDEXES_API_URL, DEVNET_POX_CONTRACT_ADDRESS,
        env.poolOperator, env.poolBtcAddress, env.poolPrivateKey, env.signerPrivateKey, DEVNET_DATABASE_PATH, 1)
  }

  /** The query parameter the nakamoto testnet links append to the testnet ones. */
  const NAKAMOTO_API_PARAM: string := "&api=https://api.nakamoto.testnet.hiro.so"

  /** The hosted and the local Stacks explorer, and the Bitcoin explorer. */
  const HIRO_EXPLORER: string := "https://explorer.hiro.so/"
  const LOCAL_EXPLORER: string := "http://localhost:8000/"
  const MEMPOOL: string := "https://mempool.space/"

  /**
   * The template literal of `GET_TRANSACTION_EXPLORER_URL`, split at `${txid}`. Outside devnet the `chain`
   * parameter names the Stacks network the app uses, and the nakamoto testnet also names its own API.
   */
  function TransactionUrlTemplate(n: NetworkUsed): (t: Template)
    ensures n != Devnet ==> t.prefix == HIRO_EXPLORER + "txid/"
    ensures n != Devnet ==>
      t.suffix == "?chain=" + GetStacksNetworkName(n.Value()) + (if n == NakamotoTestnet then NAKAMOTO_API_PARAM else "")
    ensures n == Devnet ==> t == Template(LOCAL_EXPLORER + "txid/", "?chain=mainnet")
  {
    match n
    case Mainnet => Template("https://explorer.hiro.so/txid/", "?chain=mainnet")
    case Testnet => Template("https://explorer.hiro.so/txid/", "?chain=testnet")
    case NakamotoTestnet => Template("https://explorer.hiro.so/txid/", "?chain=testnet" + NAKAMOTO_API_PARAM)
    case Devnet => Template("http://localhost:8000/txid/", "?chain=mainnet")
  }

  /**
   * The template literal of `GET_BITCOIN_ADDRESS_EXPLORER_URL`, split at `${address}`: outside devnet, the
   * mempool.space page of the Bitcoin network the app uses.
   */
  function BitcoinAddressUrlTemplate(n: NetworkUsed): (t: Template)
    ensures t.suffix == ""
    ensures n != Devnet ==>
      t.prefix == MEMPOOL + (if GetBitcoinNetworkName(n.Value()) == BitcoinTestnet then "testnet/" else "") + "address/"
    ensures n == Devnet ==> t.prefix == "http://localhost:8001/address/"
  {
    match n
    case Mainnet => Template("https://mempool.space/address/", "")
    case Testnet => Template("https://mempool.space/testnet/address/", "")
    case NakamotoTestnet => Template("https://mempool.space/testnet/address/", "")
    case Devnet => Template("http://localhost:8001/address/", "")
  }

  /**
   * The template literal of `GET_STACKS_ADDRESS_EXPLORER_URL`, split at `${address}`: the address page of the
   * explorer the transaction links use, with the same query.
   */
  function StacksAddressUrlTemplate(n: NetworkUsed): (t: Template)
    ensures t.suffix == TransactionUrlTemplate(n).suffix
    ensures t.prefix == (if n == Devnet then LOCAL_EXPLORER else HIRO_EXPLORER) + "address/"
    ensures TransactionUrlTemplate(n).prefix == (if n == Devnet then LOCAL_EXPLORER else HIRO_EXPLORER) + "txid/"
  {
    match n
    case Mainnet => Template("https://explorer.hiro.so/address/", "?chain=mainnet")
    case Testnet => Template("https://explorer.hiro.so/address/", "?chain=testnet")
    case NakamotoTestnet => Template("https://explorer.hiro.so/address/", "?chain=testnet" + NAKAMOTO_API_PARAM)
    case Devnet => Template("http://localhost:8000/address/", "?chain=mainnet")
  }

  /** `API_CONFIG[n].GET_TRANSACTION_EXPLORER_URL(txid)`: the id can be read back out of the link. */
  function TransactionExplorerUrl(n: NetworkUsed, txid: string): (r: string)
    ensures TransactionUrlTemplate(n).Match(r) == Some(txid)
  {
    MatchFill(TransactionUrlTemplate(n), txid);
    TransactionUrlTemplate(n).Fill(txid)
  }

  /** `API_CONFIG[n].GET_BITCOIN_ADDRESS_EXPLORER_URL(address)`: the address can be read back out of the link. */
  function BitcoinAddressExplorerUrl(n: NetworkUsed, address: string): (r: string)
    ensures BitcoinAddressUrlTemplate(n).Match(r) == Some(address)
  {
    MatchFill(BitcoinAddressUrlTemplate(n), address);
    BitcoinAddressUrlTemplate(n).Fill(address)
  }

  /** `API_CONFIG[n].GET_STACKS_ADDRESS_EXPLORER_URL(address)`: the address can be read back out of the link. */
  function StacksAddressExplorerUrl(n: NetworkUsed, address: string): (r: string)
    ensures StacksAddressUrlTemplate(n).Match(r) == Some(address)
  {
    MatchFill(StacksAddressUrlTemplate(n), address);
    StacksAddressUrlTemplate(n).Fill(address)
  }

  /** Mainnet transaction links say `?chain=mainnet` and testnet ones `?chain=testnet`. */
  lemma TransactionChainParameters(txid: string)
    ensures TransactionExplorerUrl(Mainnet, txid) == "https://explorer.hiro.so/txid/" + txid + "?chain=mainnet"
    ensures TransactionExplorerUrl(Testnet, txid) == "https://explorer.hiro.so/txid/" + txid + "?chain=testnet"
  {
  }

  /** The nakamoto transaction link is the testnet one with the nakamoto API added. */
  lemma NakamotoTransactionUrl(txid: string)
    ensures TransactionExplorerUrl(NakamotoTestnet, txid)
         == TransactionExplorerUrl(Testnet, txid) + NAKAMOTO_API_PARAM
  {
    FillExtendSuffix(TransactionUrlTemplate(Testnet), NAKAMOTO_API_PARAM, txid);
  }

  /** The nakamoto Stacks address link is the testnet one with the nakamoto API added. */
  lemma NakamotoStacksAddressUrl(address: string)
    ensures StacksAddressExplorerUrl(NakamotoTestnet, address)
         == StacksAddressExplorerUrl(Testnet, address) + NAKAMOTO_API_PARAM
  {
    FillExtendSuffix(StacksAddressUrlTemplate(Testnet), NAKAMOTO_API_PARAM, address);
  }

  /** Bitcoin links: mempool.space on mainnet, its testnet pages on both testnets, and a local explorer on devnet. */
  lemma BitcoinExplorerPerNetwork(address: string)
    ensures BitcoinAddressExplorerUrl(Mainnet, address) == "https://mempool.space/address/" + address
    ensures BitcoinAddressExplorerUrl(Testnet, address) == "https://mempool.space/testnet/address/" + address
    ensures BitcoinAddressExplorerUrl(NakamotoTestnet, address) == BitcoinAddressExplorerUrl(Testnet, address)
    ensures BitcoinAddressExplorerUrl(Devnet, address) == "http://localhost:8001/address/" + address
  {
  }

  /** Devnet links point at local explorers and still say `?chain=mainnet`. */
  lemma DevnetExplorers(txid: string, address: string)
    ensures TransactionExplorerUrl(Devnet, txid) == "http://localhost:8000/txid/" + txid + "?chain=mainnet"
    ensures StacksAddressExplorerUrl(Devnet, address) == "http://localhost:8000/address/" + address + "?chain=mainnet"
  {
  }

  /** Page size and cycle window constants. */
  const LIMIT: nat := 100
  const MAX_CYCLES_FOR_OPERATIONS: nat := 12
  const SERVER_PORT: nat := 8080

  /**
   * The properties every object literal inherits from `Object.prototype`. `API_CONFIG[NETWORK]` with one of
   * these as NETWORK is that inherited member, not `undefined`, and reading a config field off it gives
   * `undefined` without throwing.
   */
  const OBJECT_PROTOTYPE_KEYS: set<string> := {
    "constructor", "__proto__", "hasOwnProperty", "isPrototypeOf", "propertyIsEnumerable", "toString",
    "toLocaleString", "valueOf", "__defineGetter__", "__defineSetter__", "__lookupGetter__", "__lookupSetter__"}

  /** What `currentConfig = API_CONFIG[NETWORK]` is: an entry of the table, an inherited member, or `undefined`. */
  datatype CurrentConfig = Entry(entryNetwork: NetworkUsed, config: ApiConfig) | Inherited | Undefined

  /** `API_CONFIG[name]`: only the four enum values are own keys of the table. */
  function LookupConfig(name: string, env: Env): (c: CurrentConfig)
    ensures c.Entry? <==> ParseNetwork(name).Some?
    ensures c.Entry? ==> c.entryNetwork.Value() == name && c.config == ApiConfigFor(c.entryNetwork, env)
    ensures c.Inherited? <==> name in OBJECT_PROTOTYPE_KEYS
  {
    match ParseNetwork(name)
    case Some(n) => Entry(n, ApiConfigFor(n, env))
    case None => if name in OBJECT_PROTOTYPE_KEYS then Inherited else Undefined
  }

  /**
   * What the module exports once it has loaded. The config fields and the three builders are read off
   * `currentConfig`; they are `None` (undefined) when it is an inherited member rather than an entry.
   */
  datatype Exports = Exports(
    network: string,
    stacksNetworkName: string,
    bitcoinNetworkName: BitcoinNetworkName,
    currentConfig: CurrentConfig)
  {
    function Config(): (c: Option<ApiConfig>)
      ensures c.Some? <==> currentConfig.Entry?
      ensures c.Some? ==> c.value == currentConfig.config
    {
      if currentConfig.Entry? then Some(currentConfig.config) else None
    }

    /** `GET_TRANSACTION_EXPLORER_URL(txid)`, or `None` when the export is undefined and calling it throws. */
    function GetTransactionExplorerUrl(txid: string): (r: Option<string>)
      ensures r.Some? <==> currentConfig.Entry?
      ensures r.Some? ==> TransactionUrlTemplate(currentConfig.entryNetwork).Match(r.value) == Some(txid)
    {
      if currentConfig.Entry? then Some(TransactionExplorerUrl(currentConfig.entryNetwork, txid)) else None
    }

    /** `GET_BITCOIN_ADDRESS_EXPLORER_URL(address)`, or `None` when the export is undefined. */
    function GetBitcoinAddressExplorerUrl(address: string): (r: Option<string>)
      ensures r.Some? <==> currentConfig.Entry?
      ensures r.Some? ==> BitcoinAddressUrlTemplate(currentConfig.entryNetwork).Match(r.value) == Some(address)
    {
      if currentConfig.Entry? then Some(BitcoinAddressExplorerUrl(currentConfig.entryNetwork, address)) else None
    }

    /** `GET_STACKS_ADDRESS_EXPLORER_URL(address)`, or `None` when the export is undefined. */
    function GetStacksAddressExplorerUrl(address: string): (r: Option<string>)
      ensures r.Some? <==> currentConfig.Entry?
      ensures r.Some? ==> StacksAddressUrlTemplate(currentConfig.entryNetwork).Match(r.value) == Some(address)
    {
      if currentConfig.Entry? then Some(StacksAddressExplorerUrl(currentConfig.entryNetwork, address)) else None
    }
  }

  /**
   * Evaluating the module. The network names are computed before the table is read. When `currentConfig`
   * is `undefined`, reading its first field throws and the module fails to load (`None`); when it is an
   * inherited member, the module loads with every config-derived export undefined.
   */
  function LoadModule(env: Env): (r: Option<Exports>)
    ensures r.Some? <==> ParseNetwork(Network(env)).Some? || Network(env) in OBJECT_PROTOTYPE_KEYS
    ensures r.Some? ==> r.value.network == Network(env)
    ensures r.Some? ==> r.value.stacksNetworkName == GetStacksNetworkName(Network(env))
    ensures r.Some? ==> r.value.bitcoinNetworkName == GetBitcoinNetworkName(Network(env))
    ensures r.Some? ==> (r.value.Config().Some? <==> ParseNetwork(Network(env)).Some?)
    ensures r.Some? && r.value.Config().Some? ==>
      && r.value.currentConfig.entryNetwork.Value() == Network(env)
      && r.value.Config().value == ApiConfigFor(r.value.currentConfig.entryNetwork, env)
  {
    var name := Network(env);
    var current := LookupConfig(name, env);
    if current.Undefined? then None
    else Some(Exports(name, GetStacksNetworkName(name), GetBitcoinNetworkName(name), current))
  }

  /** With NETWORK set to an inherited property name, the module loads, but its builders are all undefined. */
  lemma InheritedNetworkLoadsUndefined(env: Env, id: string)
    requires Network(env) in OBJECT_PROTOTYPE_KEYS
    ensures LoadModule(env).Some? && LoadModule(env).value.Config() == None
    ensures LoadModule(env).value.GetTransactionExplorerUrl(id) == None
    ensures LoadModule(env).value.GetBitcoinAddressExplorerUrl(id) == None
    ensures LoadModule(env).value.GetStacksAddressExplorerUrl(id) == None
    ensures LoadModule(env).value.stacksNetworkName == "testnet"
    ensures LoadModule(env).value.bitcoinNetworkName == BitcoinTestnet
  {
  }

  /** Any other NETWORK outside the enum makes the module throw while loading. */
  lemma UnknownNetworkFailsToLoad(env: Env)
    requires ParseNetwork(Network(env)).None? && Network(env) !in OBJECT_PROTOTYPE_KEYS
    ensures LoadModule(env).None?
  {
  }

  /** With NETWORK unset or empty the module loads the devnet settings. */
  lemma DefaultNetworkIsDevnet(env: Env)
    requires env.network == None || env.network == Some("")
    ensures LoadModule(env).Some? && LoadModule(env).value.network == "devnet"
    ensures LoadModule(env).value.currentConfig.Entry? && LoadModule(env).value.currentConfig.entryNetwork == Devnet
    ensures LoadModule(env).value.stacksNetworkName == "devnet"
    ensures LoadModule(env).value.bitcoinNetworkName == BitcoinTestnet
    ensures LoadModule(env).value.currentConfig.config.firstPox4Cycle == 1
  {
  }

  /** `FIRST_POX_4_CYCLE` is 84 exactly when the loaded network is mainnet, and 1 otherwise. */
  lemma FirstPox4Cycle(env: Env)
    requires LoadModule(env).Some? && LoadModule(env).value.Config().Some?
    ensures LoadModule(env).value.Config().value.firstPox4Cycle == if env.network == Some("mainnet") then 84 else 1
  {
  }
}
