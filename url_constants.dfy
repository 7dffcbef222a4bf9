/**
 * The second copy of the network configuration, which keeps only the three explorer URL builders and adds
 * the data server's URL. It declares its own enums; the lemmas at the end show that it agrees with AppConsts.
 */
module UrlConstants {
  import opened Wrappers
  import opened TemplateStrings
  import AppConsts

  /** This file's own `NetworkUsed` enum. */
  datatype NetworkUsed = Mainnet | Testnet | NakamotoTestnet | Devnet {
    function Value(): string {
      match this
      case Mainnet => "mainnet"
      case Testnet => "testnet"
      case NakamotoTestnet => "nakamotoTestnet"
      case Devnet => "devnet"
    }
  }

  /** This file's own `BitcoinNetworkName` enum. */
  datatype BitcoinNetworkName = BitcoinMainnet | BitcoinTestnet {
    function Value(): string {
      match this
      case BitcoinMainnet => "mainnet"
      case BitcoinTestnet => "testnet"
    }
  }

  const STACKS_NETWORKS: seq<string> := ["mainnet", "testnet", "devnet", "mocknet"]

  /** The address the dashboard fetches its snapshot from. */
  const SERVER_URL: string := "http://localhost:8080/data"

  /** `NETWORK`: the NETWORK environment variable, or "devnet" when it is unset or empty. */
  function Network(envNetwork: Option<string>): (r: string)
    ensures r != ""
    ensures r == "devnet" <==> envNetwork in {None, Some(""), Some("devnet")}
    ensures r != "devnet" ==> envNetwork == Some(r)
  {
    match envNetwork
    case Some(s) => if s != "" then s else "devnet"
    case None => "devnet"
  }

  function ParseNetwork(s: string): (r: Option<NetworkUsed>)
    ensures forall n: NetworkUsed :: r == Some(n) <==> n.Value() == s
  {
    if s == "mainnet" then Some(Mainnet)
    else if s == "testnet" then Some(Testnet)
    else if s == "nakamotoTestnet" then Some(NakamotoTestnet)
    else if s == "devnet" then Some(Devnet)
    else None
  }

  /** `getStacksNetworkName`: mainnet and devnet keep their names; everything else falls to "testnet". */
  function GetStacksNetworkName(network: string): (r: string)
    ensures r in STACKS_NETWORKS && r != "mocknet"
    ensures r == network || r == "testnet"
    ensures r == "testnet" <==> network != "mainnet" && network != "devnet"
  {
    match network
    case "mainnet" => "mainnet"
    case "devnet" => "devnet"
    case _ => "testnet"
  }

  /** `getBitcoinNetworkName`: only mainnet maps to the Bitcoin mainnet. */
  function GetBitcoinNetworkName(network: string): (r: BitcoinNetworkName)
    ensures r == BitcoinMainnet <==> network == "mainnet"
  {
    match network
    case "mainnet" => BitcoinMainnet
    case _ => BitcoinTestnet
  }

  const NAKAMOTO_API_PARAM: string := "&api=https://api.nakamoto.testnet.hiro.so"

  /** The template literal of `GET_TRANSACTION_EXPLORER_URL` here: the same as that of the same network in AppConsts. */
  function TransactionUrlTemplate(n: NetworkUsed): (t: Template)
    ensures forall m: AppConsts.NetworkUsed :: m.Value() == n.Value() ==> t == AppConsts.TransactionUrlTemplate(m)
  {
    match n
    case Mainnet => Template("https://explorer.hiro.so/txid/", "?chain=mainnet")
    case Testnet => Template("https://explorer.hiro.so/txid/", "?chain=testnet")
    case NakamotoTestnet => Template("https://explorer.hiro.so/txid/", "?chain=testnet" + NAKAMOTO_API_PARAM)
    case Devnet => Template("http://localhost:8000/txid/", "?chain=mainnet")
  }

  /** The template literal of `GET_BITCOIN_ADDRESS_EXPLORER_URL` here: the same as that of the same network in AppConsts. */
  function BitcoinAddressUrlTemplate(n: NetworkUsed): (t: Template)
    ensures forall m: AppConsts.NetworkUsed :: m.Value() == n.Value() ==> t == AppConsts.BitcoinAddressUrlTemplate(m)
  {
    match n
    case Mainnet => Template("https://mempool.space/address/", "")
    case Testnet => Template("https://mempool.space/testnet/address/", "")
    case NakamotoTestnet => Template("https://mempool.space/testnet/address/", "")
    case Devnet => Template("http://localhost:8001/address/", "")
  }

  /** The template literal of `GET_STACKS_ADDRESS_EXPLORER_URL` here: the same as that of the same network in AppConsts. */
  function StacksAddressUrlTemplate(n: NetworkUsed): (t: Template)
    ensures forall m: AppConsts.NetworkUsed :: m.Value() == n.Value() ==> t == AppConsts.StacksAddressUrlTemplate(m)
  {
    match n
    case Mainnet => Template("https://explorer.hiro.so/address/", "?chain=mainnet")
    case Testnet => Template("https://explorer.hiro.so/address/", "?chain=testnet")
    case NakamotoTestnet => Template("https://explorer.hiro.so/address/", "?chain=testnet" + NAKAMOTO_API_PARAM)
    case Devnet => Template("http://localhost:8000/address/", "?chain=mainnet")
  }

  /** `GET_TRANSACTION_EXPLORER_URL` of network `n`: the id sits verbatim between a fixed prefix and suffix. */
  function TransactionExplorerUrl(n: NetworkUsed, txid: string): (r: string)
    ensures TransactionUrlTemplate(n).Match(r) == Some(txid)
  {
    MatchFill(TransactionUrlTemplate(n), txid);
    TransactionUrlTemplate(n).Fill(txid)
  }

  /** `GET_BITCOIN_ADDRESS_EXPLORER_URL` of network `n`. */
  function BitcoinAddressExplorerUrl(n: NetworkUsed, address: string): (r: string)
    ensures BitcoinAddressUrlTemplate(n).Match(r) == Some(address)
  {
    MatchFill(BitcoinAddressUrlTemplate(n), address);
    BitcoinAddressUrlTemplate(n).Fill(address)
  }

  /** `GET_STACKS_ADDRESS_EXPLORER_URL` of network `n`. */
  function StacksAddressExplorerUrl(n: NetworkUsed, address: string): (r: string)
    ensures StacksAddressUrlTemplate(n).Match(r) == Some(address)
  {
    MatchFill(StacksAddressUrlTemplate(n), address);
    StacksAddressUrlTemplate(n).Fill(address)
  }

  /** What `currentConfig = API_CONFIG[NETWORK]` is here: an entry, an inherited `Object.prototype` member, or `undefined`. */
  datatype CurrentConfig = Entry(entryNetwork: NetworkUsed) | Inherited | Undefined

  /** `API_CONFIG[name]`: the own keys are the four enum values; the inherited names are those of AppConsts. */
  function LookupConfig(name: string): (c: CurrentConfig)
    ensures c.Entry? <==> ParseNetwork(name).Some?
    ensures c.Entry? ==> c.entryNetwork.Value() == name
    ensures c.Inherited? <==> name in AppConsts.OBJECT_PROTOTYPE_KEYS
  {
    match ParseNetwork(name)
    case Some(n) => Entry(n)
    case None => if name in AppConsts.OBJECT_PROTOTYPE_KEYS then Inherited else Undefined
  }

  /** The module's exports once it has loaded; the builders are `None` (undefined) unless `currentConfig` is an entry. */
  datatype Exports = Exports(
    network: string,
    stacksNetworkName: string,
    bitcoinNetworkName: BitcoinNetworkName,
    currentConfig: CurrentConfig)
  {
    function GetTransactionExplorerUrl(txid: string): (r: Option<string>)
      ensures r.Some? <==> currentConfig.Entry?
      ensures r.Some? ==> TransactionUrlTemplate(currentConfig.entryNetwork).Match(r.value) == Some(txid)
    {
      if currentConfig.Entry? then Some(TransactionExplorerUrl(currentConfig.entryNetwork, txid)) else None
    }

    function GetBitcoinAddressExplorerUrl(address: string): (r: Option<string>)
      ensures r.Some? <==> currentConfig.Entry?
      ensures r.Some? ==> BitcoinAddressUrlTemplate(currentConfig.entryNetwork).Match(r.value) == Some(address)
    {
      if currentConfig.Entry? then Some(BitcoinAddressExplorerUrl(currentConfig.entryNetwork, address)) else None
    }

    function GetStacksAddressExplorerUrl(address: string): (r: Option<string>)
      ensures r.Some? <==> currentConfig.Entry?
      ensures r.Some? ==> StacksAddressUrlTemplate(currentConfig.entryNetwork).Match(r.value) == Some(address)
    {
      if currentConfig.Entry? then Some(StacksAddressExplorerUrl(currentConfig.entryNetwork, address)) else None
    }
  }

  /**
   * Evaluating the module: it fails to load (`None`) when `currentConfig` is `undefined`, and loads with
   * undefined builders when NETWORK is an inherited property name.
   */
  function LoadModule(envNetwork: Option<string>): (r: Option<Exports>)
    ensures r.Some? <==> ParseNetwork(Network(envNetwork)).Some? || Network(envNetwork) in AppConsts.OBJECT_PROTOTYPE_KEYS
    ensures r.Some? ==> r.value.network == Network(envNetwork)
    ensures r.Some? ==> r.value.stacksNetworkName == GetStacksNetworkName(Network(envNetwork))
    ensures r.Some? ==> r.value.bitcoinNetworkName == GetBitcoinNetworkName(Network(envNetwork))
    ensures r.Some? ==> (r.value.currentConfig.Entry? <==> ParseNetwork(Network(envNetwork)).Some?)
    ensures r.Some? && r.value.currentConfig.Entry? ==> r.value.currentConfig.entryNetwork.Value() == Network(envNetwork)
  {
    var name := Network(envNetwork);
    var current := LookupConfig(name);
    if current.Undefined? then None
    else Some(Exports(name, GetStacksNetworkName(name), GetBitcoinNetworkName(name), current))
  }

  /** Both copies of the network switches give the same names for every NETWORK string. */
  lemma NetworkNamesAgreeWithAppConsts(env: AppConsts.Env)
    ensures Network(env.network) == AppConsts.Network(env)
    ensures GetStacksNetworkName(Network(env.network)) == AppConsts.GetStacksNetworkName(AppConsts.Network(env))
    ensures GetBitcoinNetworkName(Network(env.network)).Value()
         == AppConsts.GetBitcoinNetworkName(AppConsts.Network(env)).Value()
  {
  }

  /** For the same network and argument, the builders here return the same URL as those in AppConsts. */
  lemma BuildersAgreeWithAppConsts(n: NetworkUsed, m: AppConsts.NetworkUsed, id: string)
    requires n.Value() == m.Value()
    ensures TransactionExplorerUrl(n, id) == AppConsts.TransactionExplorerUrl(m, id)
    ensures BitcoinAddressExplorerUrl(n, id) == AppConsts.BitcoinAddressExplorerUrl(m, id)
    ensures StacksAddressExplorerUrl(n, id) == AppConsts.StacksAddressExplorerUrl(m, id)
  {
  }

  /**
   * Whatever the environment, the two modules load or fail together, and once loaded their builders are
   * defined together and return the same URLs.
   */
  lemma ExportsAgreeWithAppConsts(env: AppConsts.Env, id: string)
    ensures LoadModule(env.network).Some? <==> AppConsts.LoadModule(env).Some?
    ensures LoadModule(env.network).Some? ==>
      && LoadModule(env.network).value.GetTransactionExplorerUrl(id)
         == AppConsts.LoadModule(env).value.GetTransactionExplorerUrl(id)
      && LoadModule(env.network).value.GetBitcoinAddressExplorerUrl(id)
         == AppConsts.LoadModule(env).value.GetBitcoinAddressExplorerUrl(id)
      && LoadModule(env.network).value.GetStacksAddressExplorerUrl(id)
         == AppConsts.LoadModule(env).value.GetStacksAddressExplorerUrl(id)
  {
    var mine, theirs := LoadModule(env.network), AppConsts.LoadModule(env);
    NetworkNamesAgreeWithAppConsts(env);
    if mine.Some? && mine.value.currentConfig.Entry? {
      assert mine.value.currentConfig.entryNetwork.Value() == theirs.value.currentConfig.entryNetwork.Value();
      BuildersAgreeWithAppConsts(mine.value.currentConfig.entryNetwork, theirs.value.currentConfig.entryNetwork, id);
    }
  }
}
