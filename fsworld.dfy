/** The simulated-network world `FSWorld`: validating its options, assembling
    the command line the simulator process is spawned with, the requests it
    sends to the simulator's privileged endpoints (account injection, epoch
    changes) and the termination of the process it owns. */
module FsWorld {
  import opened Base
  import opened Strings
  import opened Codecs
  import opened Gateway

  /** A spawned simulator process: the binary and argument vector it was
      started with, and whether it has been sent the kill signal. */
  class ChildProcess {
    const binary: string
    const argv: seq<string>
    var killed: bool

    constructor (binary: string, argv: seq<string>)
      ensures this.binary == binary && this.argv == argv && !killed
    {
      this.binary := binary;
      this.argv := argv;
      killed := false;
    }

    /** `kill()`. */
    method Kill()
      modifies this
      ensures killed
    {
      killed := true;
    }
  }

  /** The options `FSWorld.new` reads (the server is passed beside them). */
  datatype NewOptions = NewOptions(
    chainId: Option<string>, proxyUrl: string, gasPrice: Option<nat>, explorerUrl: Option<string>)

  /** What an `FSWorld` is built with. */
  datatype WorldConfig = WorldConfig(chainId: string, proxy: ProxyConfig, gasPrice: nat, explorerUrl: Option<string>)

  const SimulatorChainId := "chain"
  const DefaultGasPrice: nat := 1_000_000_000
  const ChainIdGivenMessage := "chainId is not undefined."
  const NoServerMessage := "No server defined."

  /** `FSWorld.new` without its allocation: a chain identifier may not be
      given (the simulator's is always "chain"); the gas price defaults to
      1 000 000 000; the proxy gets the URL and the explorer base. */
  function NewWorldConfig(opts: NewOptions): (r: Outcome<WorldConfig>)
    ensures r.Err? <==> opts.chainId.Some?
    ensures r.Err? ==> r.failure == Error(ChainIdGivenMessage)
    ensures r.Ok? ==> r.value.chainId == SimulatorChainId && r.value.explorerUrl == opts.explorerUrl
    ensures r.Ok? ==> r.value.gasPrice == if opts.gasPrice.Some? then opts.gasPrice.value else DefaultGasPrice
    ensures r.Ok? ==> r.value.proxy == ProxyConfig(opts.proxyUrl, map[], opts.explorerUrl.GetOr(""))
  {
    if opts.chainId.Some? then Err(Error(ChainIdGivenMessage))
    else Ok(WorldConfig(
      SimulatorChainId,
      NewProxy(Settings(opts.proxyUrl, None, opts.explorerUrl)),
      opts.gasPrice.GetOr(DefaultGasPrice),
      opts.explorerUrl))
  }

  // ---------------------------------------------------------------------------
  // The simulator's command line

  /** Where the simulator package keeps its binary and its configuration files. */
  datatype Package = Package(binaryPath: string, configsPath: string)

  datatype StartOptions = StartOptions(
    gasPrice: Option<nat>, explorerUrl: Option<string>,
    binaryPath: Option<string>, binaryPort: Option<nat>,
    binaryConfigPath: Option<string>, proxyConfigsPath: Option<string>,
    nodeConfigsPath: Option<string>, nodeOverrideConfigPath: Option<string>,
    nodeOverrideConfigPaths: Option<seq<string>>, downloadConfigs: Option<bool>)

  /** The node override files: the caller's list, or the two built-in files
      (the default override, then `nodeOverride.toml`); a single override path
      the caller gives is appended last. */
  function OverridePaths(opts: StartOptions, pkg: Package): seq<string> {
    opts.nodeOverrideConfigPaths.GetOr([pkg.configsPath + "/nodeOverrideDefault.toml", pkg.configsPath + "/nodeOverride.toml"])
    + (if opts.nodeOverrideConfigPath.Some? then [opts.nodeOverrideConfigPath.value] else [])
  }

  /** `!downloadConfigs`: configuration downloads are skipped unless asked for. */
  predicate SkipDownload(opts: StartOptions) {
    opts.downloadConfigs != Some(true)
  }

  /** The four fixed options, in order, with their defaults: port 0 and the
      package's configuration files. */
  function FixedArgs(opts: StartOptions, pkg: Package): seq<string> {
    [ "--server-port", NatToDecimal(opts.binaryPort.GetOr(0)),
      "--config", opts.binaryConfigPath.GetOr(pkg.configsPath + "/config.toml"),
      "--proxy-configs", opts.proxyConfigsPath.GetOr(pkg.configsPath + "/proxy/config"),
      "--node-configs", opts.nodeConfigsPath.GetOr(pkg.configsPath + "/node/config") ]
  }

  /** The argument vector of the simulator: the fixed options first; then
      `--node-override-config` with the comma-joined override files exactly
      when there are any; then `--skip-configs-download` last exactly when
      downloads are not asked for. */
  ghost predicate IsLaunchArgs(opts: StartOptions, pkg: Package, args: seq<string>) {
    var ov := OverridePaths(opts, pkg);
    && |args| == 8 + (if |ov| > 0 then 2 else 0) + (if SkipDownload(opts) then 1 else 0)
    && args[..8] == FixedArgs(opts, pkg)
    && (|ov| > 0 ==> args[8] == "--node-override-config" && args[9] == Join(ov, ','))
    && (SkipDownload(opts) ==> args[|args| - 1] == "--skip-configs-download")
  }

  /** The argument assembly of `FSWorld.start`. */
  method StartArgs(opts: StartOptions, pkg: Package) returns (binary: string, args: seq<string>)
    ensures binary == opts.binaryPath.GetOr(pkg.binaryPath)
    ensures IsLaunchArgs(opts, pkg, args)
  {
    binary := opts.binaryPath.GetOr(pkg.binaryPath);
    var port := opts.binaryPort.GetOr(0);
    var binaryConfigPath := opts.binaryConfigPath.GetOr(pkg.configsPath + "/config.toml");
    var proxyConfigsPath := opts.proxyConfigsPath.GetOr(pkg.configsPath + "/proxy/config");
    var nodeConfigsPath := opts.nodeConfigsPath.GetOr(pkg.configsPath + "/node/config");
    var overrides := opts.nodeOverrideConfigPaths.GetOr([pkg.configsPath + "/nodeOverrideDefault.toml", pkg.configsPath + "/nodeOverride.toml"]);
    if opts.nodeOverrideConfigPath.Some? {
      overrides := overrides + [opts.nodeOverrideConfigPath.value];
    }
    assert overrides == OverridePaths(opts, pkg);
    args := [
      "--server-port", NatToDecimal(port),
      "--config", binaryConfigPath,
      "--proxy-configs", proxyConfigsPath,
      "--node-configs", nodeConfigsPath ];
    if |overrides| > 0 {
      args := args + ["--node-override-config", Join(overrides, ',')];
    }
    if opts.downloadConfigs != Some(true) {
      args := args + ["--skip-configs-download"];
    }
  }

  /** The layout fixes the argument vector: there is only one. */
  lemma LaunchArgsUnique(opts: StartOptions, pkg: Package, a: seq<string>, b: seq<string>)
    requires IsLaunchArgs(opts, pkg, a) && IsLaunchArgs(opts, pkg, b)
    ensures a == b
  {
    var ov := OverridePaths(opts, pkg);
    assert |a| == |b|;
    forall i | 0 <= i < |a| ensures a[i] == b[i] {
      if i < 8 {
        assert a[i] == a[..8][i] && b[i] == b[..8][i];
      }
    }
  }

  /** Without caller paths the override files are the two built-in ones, and
      a single override path comes after them. */
  lemma DefaultOverrides(opts: StartOptions, pkg: Package)
    requires opts.nodeOverrideConfigPaths.None?
    ensures opts.nodeOverrideConfigPath.None? ==>
      OverridePaths(opts, pkg) == [pkg.configsPath + "/nodeOverrideDefault.toml", pkg.configsPath + "/nodeOverride.toml"]
    ensures opts.nodeOverrideConfigPath.Some? ==>
      |OverridePaths(opts, pkg)| == 3 && OverridePaths(opts, pkg)[2] == opts.nodeOverrideConfigPath.value
  {
  }

  /** The simulator recovers the override files by splitting on commas, when
      no file name contains one. */
  lemma OverridesRecoverable(opts: StartOptions, pkg: Package, args: seq<string>)
    requires IsLaunchArgs(opts, pkg, args) && |OverridePaths(opts, pkg)| > 0
    requires SeparatorFree(OverridePaths(opts, pkg), ',')
    ensures Split(args[9], ',') == OverridePaths(opts, pkg)
  {
    SplitJoin(OverridePaths(opts, pkg), ',');
  }

  // ---------------------------------------------------------------------------
  // The world and its requests to the simulator

  /** The account fields besides the address; `code` may be a symbolic
      reference that `expandCode` resolves. */
  datatype AccountFields = AccountFields(
    nonce: Option<nat>, balance: Option<nat>, code: Option<string>,
    codeMetadata: Option<string>, kvs: Option<map<string, string>>, owner: Option<AddressLike>)

  datatype Account = Account(address: AddressLike, fields: AccountFields)

  /** A request to the simulator's privileged endpoints. */
  datatype Request = SetAccounts(accounts: seq<Account>) | AdvanceToEpoch(epoch: int)

  /** A wallet or contract handle wrapping an address. */
  datatype Handle = WalletHandle(address: AddressLike) | ContractHandle(address: AddressLike)

  /** An account whose code, if any, has been expanded. */
  function Expanded(a: Account, expand: string -> string): Account {
    if a.fields.code.Some? then a.(fields := a.fields.(code := Some(expand(a.fields.code.value)))) else a
  }

  class FSWorld {
    const config: WorldConfig
    var server: ChildProcess?
    /** The requests sent to the simulator, oldest first. */
    var requests: seq<Request>

    constructor (config: WorldConfig, server: ChildProcess?)
      ensures this.config == config && this.server == server && requests == []
    {
      this.config := config;
      this.server := server;
      requests := [];
    }

    /** `FSWorld.new`. */
    static method New(opts: NewOptions, server: ChildProcess?) returns (r: Outcome<FSWorld>)
      ensures r.Err? <==> opts.chainId.Some?
      ensures r.Err? ==> r.failure == Error(ChainIdGivenMessage)
      ensures r.Ok? ==> fresh(r.value) && r.value.config == NewWorldConfig(opts).value
      ensures r.Ok? ==> r.value.server == server && r.value.requests == []
    {
      var config := NewWorldConfig(opts);
      if config.Err? {
        r := Err(config.failure);
      } else {
        var w := new FSWorld(config.value, server);
        r := Ok(w);
      }
    }

    /** `FSWorld.start`: spawn the simulator with the assembled command line
      and build the world around the URL its ready line announces
      (`boundAddress`). */
    static method Start(opts: StartOptions, pkg: Package, boundAddress: string) returns (w: FSWorld)
      ensures fresh(w) && fresh(w.server) && w.requests == []
      ensures w.server.binary == opts.binaryPath.GetOr(pkg.binaryPath) && !w.server.killed
      ensures IsLaunchArgs(opts, pkg, w.server.argv)
      ensures w.config == NewWorldConfig(NewOptions(None, "http://" + boundAddress, opts.gasPrice, opts.explorerUrl)).value
    {
      var binary, args := StartArgs(opts, pkg);
      var server := new ChildProcess(binary, args);
      var config := NewWorldConfig(NewOptions(None, "http://" + boundAddress, opts.gasPrice, opts.explorerUrl));
      w := new FSWorld(config.value, server);
    }

    /** `setAccounts`: expands the code of each account in place, in the
      caller's own list, then sends the list to the simulator. */
    method SetAccountsInPlace(params: array<Account>, expand: string -> string)
      modifies this, params
      ensures forall i :: 0 <= i < params.Length ==> params[i] == Expanded(old(params[i]), expand)
      ensures requests == old(requests) + [SetAccounts(params[..])]
      ensures server == old(server)
    {
      for i := 0 to params.Length
        invariant forall j :: 0 <= j < i ==> params[j] == Expanded(old(params[j]), expand)
        invariant forall j :: i <= j < params.Length ==> params[j] == old(params[j])
        invariant requests == old(requests) && server == old(server)
      {
        if params[i].fields.code.Some? {
          params[i] := params[i].(fields := params[i].fields.(code := Some(expand(params[i].fields.code.value))));
        }
      }
      requests := requests + [SetAccounts(params[..])];
    }

    /** The common part of `createWallets` and `createContracts`: give each
      request its derived address, inject all the accounts, and return one
      handle per request, in order. `derived[i]` is the address
      `createAddressLike` gives the i-th request. */
    method CreateAccounts(params: seq<AccountFields>, derived: seq<AddressLike>, expand: string -> string, wallets: bool)
      returns (handles: seq<Handle>)
      requires |derived| == |params|
      modifies this
      ensures |handles| == |params|
      ensures forall i :: 0 <= i < |params| ==>
        handles[i] == (if wallets then WalletHandle(derived[i]) else ContractHandle(derived[i]))
      ensures requests == old(requests) + [SetAccounts(seq(|params|, i requires 0 <= i < |params| => Expanded(Account(derived[i], params[i]), expand)))]
      ensures server == old(server)
    {
      var accounts := new Account[|params|](i requires 0 <= i < |params| reads {} => Account(derived[i], params[i]));
      SetAccountsInPlace(accounts, expand);
      handles := seq(|params|, i requires 0 <= i < |params| =>
        if wallets then WalletHandle(derived[i]) else ContractHandle(derived[i]));
      assert accounts[..] == seq(|params|, i requires 0 <= i < |params| => Expanded(Account(derived[i], params[i]), expand));
    }

    /** `createWallets`: one wallet per request, in order. */
    method CreateWallets(params: seq<AccountFields>, derived: seq<AddressLike>, expand: string -> string)
      returns (handles: seq<Handle>)
      requires |derived| == |params|
      modifies this
      ensures |handles| == |params| && forall i :: 0 <= i < |params| ==> handles[i] == WalletHandle(derived[i])
      ensures requests == old(requests) + [SetAccounts(seq(|params|, i requires 0 <= i < |params| => Expanded(Account(derived[i], params[i]), expand)))]
      ensures server == old(server)
    {
      handles := CreateAccounts(params, derived, expand, true);
    }

    /** `createContracts`: one contract per request, in order. */
    method CreateContracts(params: seq<AccountFields>, derived: seq<AddressLike>, expand: string -> string)
      returns (handles: seq<Handle>)
      requires |derived| == |params|
      modifies this
      ensures |handles| == |params| && forall i :: 0 <= i < |params| ==> handles[i] == ContractHandle(derived[i])
      ensures requests == old(requests) + [SetAccounts(seq(|params|, i requires 0 <= i < |params| => Expanded(Account(derived[i], params[i]), expand)))]
      ensures server == old(server)
    {
      handles := CreateAccounts(params, derived, expand, false);
    }

    /** `advanceToEpoch`. */
    method AdvanceToEpochRequest(epoch: int)
      modifies this
      ensures requests == old(requests) + [AdvanceToEpoch(epoch)] && server == old(server)
    {
      requests := requests + [AdvanceToEpoch(epoch)];
    }

    /** `advanceEpoch`: move `epochs` epochs past the current epoch, which the
      network status of shard 0 reports as `currentEpoch`. */
    method AdvanceEpoch(currentEpoch: int, epochs: int)
      modifies this
      ensures requests == old(requests) + [AdvanceToEpoch(currentEpoch + epochs)] && server == old(server)
    {
      AdvanceToEpochRequest(currentEpoch + epochs);
    }

    /** `terminate`: kill the simulator; a world without one is an error. The
      world keeps its server, so terminating again kills it again. */
    method Terminate() returns (r: Outcome<()>)
      modifies server
      ensures server == null ==> r == Err(Error(NoServerMessage))
      ensures server != null ==> r == Ok(()) && server.killed
    {
      if server == null {
        r := Err(Error(NoServerMessage));
      } else {
        server.Kill();
        r := Ok(());
      }
    }
  }
}
