/**
 * The per-account `Application` of src/app.js: its constructor fields, the
 * prefixed logger, `initialize` (an ordered walk over four services that stops
 * at the first failure) and `start` (rounds of cycles, inter-cycle pauses and a
 * cooldown, forever, or a terminal park after a fatal error).
 *
 * The dashboard, timers and the remote calls are outside the model. Their
 * outcomes arrive as inputs (`InitWorld`, the `failing` map of `runCycle`
 * calls that throw), and the timed waits become `Step`s of a trace.
 */
module App {
  import opened Wrappers
  import JsText
  import P = ProviderCore

  /** `config.cycles`: `default` cycles per round, then a `cooldownTime` ms rest. */
  datatype Cycles = Cycles(perRound: int, cooldownTime: int)

  /** `config.wallet`. */
  datatype WalletConfig = WalletConfig(privateKey: Option<string>, address: Option<string>)

  /** The parts of an application config the core reads. */
  datatype Config = Config(
    wallet: Option<WalletConfig>,
    cycles: Cycles,
    magma: Option<string>,       // config.contracts.magma
    logPrefix: Option<string>,
    uiPort: Option<int>)

  // ---------------------------------------------------------------- logging

  /** `this.config.logPrefix || ""`. */
  function LogPrefixOf(c: Config): string {
    if JsText.Truthy(c.logPrefix) then c.logPrefix.value else ""
  }

  /** The line `log(message)` emits: bracketed prefix when the prefix is non-empty. */
  function Prefixed(prefix: string, message: string): string {
    if prefix != "" then "[" + prefix + "] " + message else message
  }

  /** A log line is the message behind a prefix of `|prefix| + 3` characters, or none without a prefix. */
  lemma PrefixedShape(prefix: string, message: string)
    ensures var line := Prefixed(prefix, message);
      && |line| == |message| + (if prefix == "" then 0 else |prefix| + 3)
      && line[|line| - |message|..] == message
      && (prefix != "" ==> line[..|prefix| + 3] == "[" + prefix + "] ")
      && (prefix == "" ==> line == message)
  {
    if prefix != "" {
      assert Prefixed(prefix, message) == ("[" + prefix + "] ") + message;
    }
  }

  /** Reads the message back out of a log line, if the line carries the prefix. */
  function Unprefixed(prefix: string, line: string): Option<string> {
    if prefix == "" then Some(line)
    else if |line| >= |prefix| + 3 && line[..|prefix| + 3] == "[" + prefix + "] " then Some(line[|prefix| + 3..])
    else None
  }

  /** Prefixing is undone by `Unprefixed`: a log line determines its message. */
  lemma UnprefixedPrefixed(prefix: string, message: string)
    ensures Unprefixed(prefix, Prefixed(prefix, message)) == Some(message)
  {
    if prefix != "" {
      var line := Prefixed(prefix, message);
      assert line[..|prefix| + 3] == "[" + prefix + "] ";
      assert line[|prefix| + 3..] == message;
    }
  }

  /** The lines logged for a sequence of messages. */
  function PrefixAll(prefix: string, messages: seq<string>): seq<string> {
    seq(|messages|, k requires 0 <= k < |messages| => Prefixed(prefix, messages[k]))
  }

  lemma PrefixAllAppend(prefix: string, a: seq<string>, b: seq<string>)
    ensures PrefixAll(prefix, a + b) == PrefixAll(prefix, a) + PrefixAll(prefix, b)
  {
  }

  // --------------------------------------------------------------- services

  datatype ServiceKey = RubicSwap | IzumiSwap | BeanSwap | MagmaStaking
  datatype ServiceClass = SwapService | BeanswapService | StakingService

  /** One entry of `serviceDefinitions`. */
  datatype ServiceDef = ServiceDef(key: ServiceKey, name: string, cls: ServiceClass, address: Option<string>)

  /** A constructed service: `new cls(contractAddress, walletConfig)`. */
  datatype Service = Service(cls: ServiceClass, contractAddress: Option<string>, walletConfig: Option<WalletConfig>)

  /** `new TokenService(walletConfig)`. */
  datatype TokenService = TokenService(walletConfig: Option<WalletConfig>)

  /** `serviceDefinitions`, in the order `Object.entries` walks it. */
  function ServiceDefinitions(c: Config): seq<ServiceDef> {
    [ ServiceDef(RubicSwap, "Rubic Swap", SwapService, None),
      ServiceDef(IzumiSwap, "Izumi Swap", SwapService, None),
      ServiceDef(BeanSwap, "Bean Swap", BeanswapService, None),
      ServiceDef(MagmaStaking, "Magma Staking", StakingService, c.magma) ]
  }

  /** `info.address ? new info.service(info.address, wallet) : new info.service(null, wallet)`. */
  function Construct(d: ServiceDef, wallet: Option<WalletConfig>): Service {
    Service(d.cls, if JsText.Truthy(d.address) then d.address else None, wallet)
  }

  /** What the outside world answers during `initialize`. */
  datatype InitWorld = InitWorld(
    env: P.Env,                              // what the provider singleton sees
    tokenInit: Outcome<string>,              // TokenService.initialize, NFT gate included
    walletInfo: Outcome<string>,             // TokenService.getWalletInfo
    serviceFaults: map<ServiceKey, string>)  // services whose initialize throws, with the message

  /** Index of the first definition whose service fails, or `|defs|` when none does. */
  function FirstFailure(defs: seq<ServiceDef>, faults: map<ServiceKey, string>): (k: nat)
    ensures k <= |defs|
    ensures forall j :: 0 <= j < k ==> defs[j].key !in faults
    ensures k < |defs| ==> defs[k].key in faults
  {
    if defs == [] then 0
    else if defs[0].key in faults then 0
    else 1 + FirstFailure(defs[1..], faults)
  }

  /** How many services the loop constructs: all of them, or up to the first failing one. */
  function Attempted(defs: seq<ServiceDef>, faults: map<ServiceKey, string>): nat {
    var k := FirstFailure(defs, faults);
    if k < |defs| then k + 1 else |defs|
  }

  /** `this.services` after `this.services[key] = ...` for each definition in turn. */
  function Install(m: map<ServiceKey, Service>, defs: seq<ServiceDef>, wallet: Option<WalletConfig>): map<ServiceKey, Service>
    decreases |defs|
  {
    if defs == [] then m
    else Install(m, defs[..|defs| - 1], wallet)[defs[|defs| - 1].key := Construct(defs[|defs| - 1], wallet)]
  }

  /** Installing one definition more. */
  lemma InstallStep(m: map<ServiceKey, Service>, defs: seq<ServiceDef>, i: nat, wallet: Option<WalletConfig>)
    requires i < |defs|
    ensures Install(m, defs[..i + 1], wallet) == Install(m, defs[..i], wallet)[defs[i].key := Construct(defs[i], wallet)]
  {
    assert defs[..i + 1][..i] == defs[..i];
  }

  /** Distinct definitions: each key occurs once. */
  ghost predicate DistinctKeys(defs: seq<ServiceDef>) {
    forall i, j :: 0 <= i < j < |defs| ==> defs[i].key != defs[j].key
  }

  /**
   * Installing a list of distinct definitions adds exactly their keys, each
   * mapped to its constructed service, and leaves every other key alone.
   */
  lemma {:induction false} InstallContents(m: map<ServiceKey, Service>, defs: seq<ServiceDef>, wallet: Option<WalletConfig>)
    requires DistinctKeys(defs)
    ensures forall j :: 0 <= j < |defs| ==>
      defs[j].key in Install(m, defs, wallet) && Install(m, defs, wallet)[defs[j].key] == Construct(defs[j], wallet)
    ensures forall key :: (forall j :: 0 <= j < |defs| ==> defs[j].key != key) ==>
      (key in Install(m, defs, wallet) <==> key in m) &&
      (key in m ==> Install(m, defs, wallet)[key] == m[key])
  {
    if defs != [] {
      var init := defs[..|defs| - 1];
      assert DistinctKeys(init);
      InstallContents(m, init, wallet);
      forall j | 0 <= j < |init|
        ensures defs[j] == init[j] && defs[j].key != defs[|defs| - 1].key
      {
      }
    }
  }

  /**
   * Installing the first `n` of a list of distinct definitions constructs each
   * of those `n` and leaves the keys of the others as they were.
   */
  lemma InstallPrefix(m: map<ServiceKey, Service>, defs: seq<ServiceDef>, n: nat, wallet: Option<WalletConfig>)
    requires DistinctKeys(defs) && n <= |defs|
    ensures forall j :: 0 <= j < n ==>
      defs[j].key in Install(m, defs[..n], wallet) && Install(m, defs[..n], wallet)[defs[j].key] == Construct(defs[j], wallet)
    ensures forall j :: n <= j < |defs| ==>
      && (defs[j].key in Install(m, defs[..n], wallet) <==> defs[j].key in m)
      && (defs[j].key in m ==> Install(m, defs[..n], wallet)[defs[j].key] == m[defs[j].key])
  {
    var done := defs[..n];
    assert DistinctKeys(done);
    InstallContents(m, done, wallet);
    forall j | 0 <= j < n ensures done[j] == defs[j] { }
    forall j | n <= j < |defs| ensures forall i :: 0 <= i < |done| ==> done[i].key != defs[j].key { }
  }

  /** The messages `initialize` logs for one service. */
  function EntryLog(d: ServiceDef, faults: map<ServiceKey, string>): seq<string> {
    ["Initializing " + d.name + "..."]
      + (if d.key in faults then ["Failed to initialize " + d.name + ": " + faults[d.key]]
         else [d.name + " initialized successfully"])
  }

  /** The messages `initialize` logs while it walks `defs`. */
  function ServiceLog(defs: seq<ServiceDef>, faults: map<ServiceKey, string>): seq<string>
    decreases |defs|
  {
    if defs == [] then [] else ServiceLog(defs[..|defs| - 1], faults) + EntryLog(defs[|defs| - 1], faults)
  }

  /** Logging one definition more. */
  lemma ServiceLogStep(defs: seq<ServiceDef>, i: nat, faults: map<ServiceKey, string>)
    requires i < |defs|
    ensures ServiceLog(defs[..i + 1], faults) == ServiceLog(defs[..i], faults) + EntryLog(defs[i], faults)
  {
    assert defs[..i + 1][..i] == defs[..i];
  }

  /** Every attempted service logs two lines, its announcement first, in definition order. */
  lemma {:induction false} ServiceLogOrder(defs: seq<ServiceDef>, faults: map<ServiceKey, string>)
    ensures |ServiceLog(defs, faults)| == 2 * |defs|
    ensures forall j :: 0 <= j < |defs| ==>
      ServiceLog(defs, faults)[2 * j] == "Initializing " + defs[j].name + "..."
  {
    if defs != [] {
      var init := defs[..|defs| - 1];
      ServiceLogOrder(init, faults);
      forall j | 0 <= j < |init| ensures defs[j] == init[j] { }
    }
  }

  /** Everything `initialize` does, as values. */
  datatype InitReport = InitReport(
    ok: bool,
    messages: seq<string>,
    services: map<ServiceKey, Service>,
    tokenService: Option<TokenService>)

  const InitStart := "Initializing services..."
  const NftVerified := "NFT access verified successfully"

  function InitError(message: string): string {
    "Initialization error: " + message
  }

  /**
   * What `initialize()` does once `Provider.getInstance` has answered
   * `provider`, from the services `services0` and token service `token0`: the
   * report holds the messages logged after "Initializing services...".
   */
  function AfterProviderSpec(c: Config, services0: map<ServiceKey, Service>, token0: Option<TokenService>,
                             provider: Result<P.RpcProvider, P.Error>, w: InitWorld): InitReport
  {
    if provider.Failure? then
      InitReport(false, [InitError(P.Message(provider.error))], services0, token0)
    else
      var token := Some(TokenService(c.wallet));
      if w.tokenInit.Fail? then
        InitReport(false, [InitError(w.tokenInit.error)], services0, token)
      else if w.walletInfo.Fail? then
        InitReport(false, [NftVerified, InitError(w.walletInfo.error)], services0, token)
      else
        var defs := ServiceDefinitions(c);
        var k := FirstFailure(defs, w.serviceFaults);
        var n := Attempted(defs, w.serviceFaults);
        var installed := Install(services0, defs[..n], c.wallet);
        var logged := [NftVerified] + ServiceLog(defs[..n], w.serviceFaults);
        if k < |defs| then
          InitReport(false, logged + [InitError(w.serviceFaults[defs[k].key])], installed, token)
        else
          InitReport(true, logged, installed, token)
  }

  /** `initialize()`: announce, ask the provider, then go on as `AfterProviderSpec` says. */
  function InitializeSpec(c: Config, services0: map<ServiceKey, Service>, token0: Option<TokenService>,
                          provider: Result<P.RpcProvider, P.Error>, w: InitWorld): InitReport
  {
    var r := AfterProviderSpec(c, services0, token0, provider, w);
    r.(messages := [InitStart] + r.messages)
  }

  /** `initialize` reports success exactly when every step and all four services succeed. */
  lemma InitializeSucceedsIff(c: Config, services0: map<ServiceKey, Service>, token0: Option<TokenService>,
                              provider: Result<P.RpcProvider, P.Error>, w: InitWorld)
    ensures InitializeSpec(c, services0, token0, provider, w).ok <==>
      && provider.Success?
      && w.tokenInit.Pass?
      && w.walletInfo.Pass?
      && RubicSwap !in w.serviceFaults && IzumiSwap !in w.serviceFaults
      && BeanSwap !in w.serviceFaults && MagmaStaking !in w.serviceFaults
  {
    var defs := ServiceDefinitions(c);
    var k := FirstFailure(defs, w.serviceFaults);
    if k == |defs| {
      assert defs[0].key == RubicSwap && defs[1].key == IzumiSwap;
      assert defs[2].key == BeanSwap && defs[3].key == MagmaStaking;
    }
  }

  /**
   * When the services phase is reached, the services before the first failing
   * one and that one itself are constructed, in order; no later service is
   * ever constructed.
   */
  lemma InitializeStopsAtFirstFailure(c: Config, services0: map<ServiceKey, Service>, token0: Option<TokenService>,
                                      provider: Result<P.RpcProvider, P.Error>, w: InitWorld)
    requires provider.Success? && w.tokenInit.Pass? && w.walletInfo.Pass?
    ensures var defs := ServiceDefinitions(c);
      var k := FirstFailure(defs, w.serviceFaults);
      var rep := InitializeSpec(c, services0, token0, provider, w);
      && (forall j :: 0 <= j < |defs| && j <= k ==>
            defs[j].key in rep.services && rep.services[defs[j].key] == Construct(defs[j], c.wallet))
      && (forall j :: k < j < |defs| ==>
            && (defs[j].key in rep.services <==> defs[j].key in services0)
            && (defs[j].key in services0 ==> rep.services[defs[j].key] == services0[defs[j].key]))
      && rep.tokenService == Some(TokenService(c.wallet))
  {
    var defs := ServiceDefinitions(c);
    var n := Attempted(defs, w.serviceFaults);
    assert DistinctKeys(defs);
    InstallPrefix(services0, defs, n, c.wallet);
    assert InitializeSpec(c, services0, token0, provider, w).services == Install(services0, defs[..n], c.wallet);
  }

  /** Only Magma staking is constructed with a contract address; the swaps get null. */
  lemma OnlyMagmaGetsAddress(c: Config, wallet: Option<WalletConfig>, j: nat)
    requires j < |ServiceDefinitions(c)|
    ensures var s := Construct(ServiceDefinitions(c)[j], wallet);
      s.contractAddress.Some? <==> (j == 3 && JsText.Truthy(c.magma))
  {
  }

  // ------------------------------------------------------------- the rounds

  /** Where the account stands: not started, looping, or parked for good. */
  datatype Phase = Created | Running | Parked

  /** What the cycle loop does, in order. */
  datatype Step =
    | Cycle(index: nat, count: int)        // runCycle() for loop index `index`, cycleCount already `count`
    | Pause                                // the randomized wait before the next cycle
    | Cooldown(count: int, duration: int)  // the cooldown wait, begun with cycleCount == count
    | Reset                                // cycleCount = 0 after the cooldown
    | Fatal(message: string)               // the catch: log and park forever

  /**
   * The loop of `start` after initialization, from loop index `i` with
   * `cycleCount == count`, `n` cycles run so far and `roundsLeft` rounds still
   * to observe; `failing` maps the ordinals of `runCycle` calls that throw to
   * their messages. A throw parks the account: nothing follows `Fatal`.
   */
  function Loop(cy: Cycles, roundsLeft: nat, i: nat, count: int, n: nat, failing: map<nat, string>): seq<Step>
    decreases roundsLeft, if i < cy.perRound then cy.perRound - i else 0
  {
    if roundsLeft == 0 then []
    else if i < cy.perRound then
      if n in failing then [Cycle(i, count + 1), Fatal(failing[n])]
      else [Cycle(i, count + 1)] + (if i < cy.perRound - 1 then [Pause] else [])
           + Loop(cy, roundsLeft, i + 1, count + 1, n + 1, failing)
    else
      [Cooldown(count, cy.cooldownTime), Reset] + Loop(cy, roundsLeft - 1, 0, 0, n, failing)
  }

  /** The message of the trailing `Fatal` step, if the trace ends parked. */
  function Fatality(t: seq<Step>): Option<string> {
    if |t| > 0 && t[|t| - 1].Fatal? then Some(t[|t| - 1].message) else None
  }

  /** A trace ends parked exactly when its last part does. */
  lemma FatalityAppend(done: seq<Step>, part: seq<Step>)
    ensures Fatality(done + part) == if part == [] then Fatality(done) else Fatality(part)
  {
    if part == [] {
      assert done + part == done;
    } else {
      assert (done + part)[|done + part| - 1] == part[|part| - 1];
    }
  }

  /** The number of cycles one round runs: `cycles.default`, or none when it is not positive. */
  function CyclesPerRound(cy: Cycles): nat {
    if cy.perRound > 0 then cy.perRound else 0
  }

  /** The cycles and pauses of a round of `d` cycles begun with `cycleCount == c0`. */
  function CyclePart(d: nat, c0: int): seq<Step> {
    seq(if d == 0 then 0 else 2 * d - 1,
        k requires 0 <= k => if k % 2 == 0 then Cycle(k / 2, c0 + k / 2 + 1) else Pause)
  }

  lemma CyclePartAt(d: nat, c0: int, i: nat)
    requires i < d
    ensures CyclePart(d, c0)[2 * i] == Cycle(i, c0 + i + 1)
    ensures i < d - 1 ==> CyclePart(d, c0)[2 * i + 1] == Pause
  {
  }

  /**
   * One round without failures, begun with `cycleCount == c0`, in closed form:
   * cycle i at position 2i with count c0 + i + 1, a pause between consecutive
   * cycles, then the cooldown and the reset.
   */
  function RoundFrom(cy: Cycles, c0: int): seq<Step> {
    CyclePart(CyclesPerRound(cy), c0) + [Cooldown(c0 + CyclesPerRound(cy), cy.cooldownTime), Reset]
  }

  /** Where loop index `i` starts inside `RoundFrom`. */
  function RoundPos(d: nat, i: nat): nat
    requires i <= d
  {
    if i < d then 2 * i else if d == 0 then 0 else 2 * d - 1
  }

  /** One unfolding of `Loop` at a cycle that does not throw. */
  lemma LoopCycle(cy: Cycles, roundsLeft: nat, i: nat, count: int, n: nat, failing: map<nat, string>)
    requires roundsLeft > 0 && i < cy.perRound && n !in failing
    ensures Loop(cy, roundsLeft, i, count, n, failing)
         == ([Cycle(i, count + 1)] + (if i < cy.perRound - 1 then [Pause] else []))
            + Loop(cy, roundsLeft, i + 1, count + 1, n + 1, failing)
  {
  }

  /** One unfolding of `Loop` at a cycle that throws: the account parks. */
  lemma LoopFatal(cy: Cycles, roundsLeft: nat, i: nat, count: int, n: nat, failing: map<nat, string>)
    requires roundsLeft > 0 && i < cy.perRound && n in failing
    ensures Loop(cy, roundsLeft, i, count, n, failing) == [Cycle(i, count + 1), Fatal(failing[n])]
  {
  }

  /** Regrouping a concatenation of three sequences. */
  lemma Assoc<T>(a: seq<T>, b: seq<T>, c: seq<T>)
    ensures (a + b) + c == a + (b + c)
  {
  }

  lemma Shift(t: seq<Step>, done: seq<Step>, whole: seq<Step>, s: seq<Step>, rest: seq<Step>)
    requires t == done + whole && whole == s + rest
    ensures t == (done + s) + rest
  {
  }

  /** One unfolding of `Loop` at the end of a round. */
  lemma LoopCooldown(cy: Cycles, roundsLeft: nat, i: nat, count: int, n: nat, failing: map<nat, string>)
    requires roundsLeft > 0 && i >= cy.perRound
    ensures Loop(cy, roundsLeft, i, count, n, failing)
         == [Cooldown(count, cy.cooldownTime), Reset] + Loop(cy, roundsLeft - 1, 0, 0, n, failing)
  {
  }

  /** Dropping the steps of loop index `i` from a round leaves the round from `i + 1`. */
  lemma RoundFromSlice(cy: Cycles, c0: int, i: nat)
    requires i < CyclesPerRound(cy)
    ensures var d := CyclesPerRound(cy);
      RoundFrom(cy, c0)[2 * i..]
      == ([Cycle(i, c0 + i + 1)] + (if i < d - 1 then [Pause] else [])) + RoundFrom(cy, c0)[RoundPos(d, i + 1)..]
  {
    var d := CyclesPerRound(cy);
    var t := RoundFrom(cy, c0);
    CyclePartAt(d, c0, i);
    assert t[2 * i] == Cycle(i, c0 + i + 1);
    assert t[2 * i..] == [t[2 * i]] + t[2 * i + 1..];
    if i < d - 1 {
      assert t[2 * i + 1] == Pause;
      assert t[2 * i + 1..] == [t[2 * i + 1]] + t[2 * i + 2..];
    }
  }

  lemma RoundEnd(cy: Cycles, r: nat, c0: int, n: nat, failing: map<nat, string>)
    ensures var d := CyclesPerRound(cy);
      Loop(cy, r + 1, d, c0 + d, n + d, failing)
      == RoundFrom(cy, c0)[RoundPos(d, d)..] + Loop(cy, r, 0, 0, n + d, failing)
  {
    var d := CyclesPerRound(cy);
    var t := RoundFrom(cy, c0);
    assert t[RoundPos(d, d)..] == [Cooldown(c0 + d, cy.cooldownTime), Reset];
    LoopCooldown(cy, r + 1, d, c0 + d, n + d, failing);
  }

  lemma RoundStep(cy: Cycles, r: nat, i: nat, c0: int, n: nat, failing: map<nat, string>)
    requires i < CyclesPerRound(cy) && n + i !in failing
    requires Loop(cy, r + 1, i + 1, c0 + i + 1, n + i + 1, failing)
          == RoundFrom(cy, c0)[RoundPos(CyclesPerRound(cy), i + 1)..] + Loop(cy, r, 0, 0, n + CyclesPerRound(cy), failing)
    ensures Loop(cy, r + 1, i, c0 + i, n + i, failing)
         == RoundFrom(cy, c0)[RoundPos(CyclesPerRound(cy), i)..] + Loop(cy, r, 0, 0, n + CyclesPerRound(cy), failing)
  {
    var d := CyclesPerRound(cy);
    var head := [Cycle(i, c0 + i + 1)] + (if i < d - 1 then [Pause] else []);
    LoopCycle(cy, r + 1, i, c0 + i, n + i, failing);
    RoundFromSlice(cy, c0, i);
    Regroup(Loop(cy, r + 1, i, c0 + i, n + i, failing), head, Loop(cy, r + 1, i + 1, c0 + i + 1, n + i + 1, failing),
            RoundFrom(cy, c0)[RoundPos(d, i + 1)..], Loop(cy, r, 0, 0, n + d, failing), RoundFrom(cy, c0)[RoundPos(d, i)..]);
  }

  lemma Regroup(whole: seq<Step>, head: seq<Step>, rest: seq<Step>, mid: seq<Step>, after: seq<Step>, front: seq<Step>)
    requires whole == head + rest && rest == mid + after && front == head + mid
    ensures whole == front + after
  {
  }

  lemma {:induction false} RoundTail(cy: Cycles, r: nat, i: nat, c0: int, n: nat, failing: map<nat, string>)
    requires i <= CyclesPerRound(cy)
    requires forall k :: n + i <= k < n + CyclesPerRound(cy) ==> k !in failing
    ensures Loop(cy, r + 1, i, c0 + i, n + i, failing)
         == RoundFrom(cy, c0)[RoundPos(CyclesPerRound(cy), i)..] + Loop(cy, r, 0, 0, n + CyclesPerRound(cy), failing)
    decreases CyclesPerRound(cy) - i
  {
    if i == CyclesPerRound(cy) {
      RoundEnd(cy, r, c0, n, failing);
    } else {
      RoundTail(cy, r, i + 1, c0, n, failing);
      RoundStep(cy, r, i, c0, n, failing);
    }
  }

  /**
   * A round with no failing cycle is exactly `RoundFrom`, and the next round
   * starts over from `cycleCount == 0`.
   */
  lemma RoundThenRest(cy: Cycles, r: nat, c0: int, n: nat, failing: map<nat, string>)
    requires forall k :: n <= k < n + CyclesPerRound(cy) ==> k !in failing
    ensures Loop(cy, r + 1, 0, c0, n, failing)
         == RoundFrom(cy, c0) + Loop(cy, r, 0, 0, n + CyclesPerRound(cy), failing)
  {
    RoundTail(cy, r, 0, c0, n, failing);
    assert RoundFrom(cy, c0)[RoundPos(CyclesPerRound(cy), 0)..] == RoundFrom(cy, c0);
  }

  /** `rounds` copies of `t`. */
  function Repeat(t: seq<Step>, rounds: nat): seq<Step> {
    if rounds == 0 then [] else t + Repeat(t, rounds - 1)
  }

  /**
   * Without failures every round is the same: each one starts with
   * `cycleCount == 0` (the constructor's value and the reset's), so the loop
   * is the first round repeated.
   */
  lemma {:induction false} EveryRoundAlike(cy: Cycles, rounds: nat, n: nat)
    ensures Loop(cy, rounds, 0, 0, n, map[]) == Repeat(RoundFrom(cy, 0), rounds)
  {
    if rounds > 0 {
      RoundThenRest(cy, rounds - 1, 0, n, map[]);
      EveryRoundAlike(cy, rounds - 1, n + CyclesPerRound(cy));
    }
  }

  predicate IsCycle(s: Step) { s.Cycle? }
  predicate IsPause(s: Step) { s.Pause? }
  predicate IsCooldown(s: Step) { s.Cooldown? }

  /** How many steps of `t` satisfy `p`. */
  function Occurrences(t: seq<Step>, p: Step -> bool): nat {
    if t == [] then 0 else Occurrences(t[..|t| - 1], p) + (if p(t[|t| - 1]) then 1 else 0)
  }

  lemma {:induction false} OccurrencesAppend(a: seq<Step>, b: seq<Step>, p: Step -> bool)
    ensures Occurrences(a + b, p) == Occurrences(a, p) + Occurrences(b, p)
    decreases |b|
  {
    if b == [] {
      assert a + b == a;
    } else {
      OccurrencesAppend(a, b[..|b| - 1], p);
      assert (a + b)[..|a + b| - 1] == a + b[..|b| - 1];
      assert (a + b)[|a + b| - 1] == b[|b| - 1];
    }
  }

  lemma OccurrencesPair(x: Step, y: Step, p: Step -> bool)
    ensures Occurrences([x, y], p) == (if p(x) then 1 else 0) + (if p(y) then 1 else 0)
  {
    assert [x, y][..1] == [x];
    assert [x][..0] == [];
    assert Occurrences([x], p) == (if p(x) then 1 else 0);
  }

  lemma {:induction false} CyclePrefixCounts(d: nat, c0: int, j: nat)
    requires j < d
    ensures Occurrences(CyclePart(d, c0)[..2 * j + 1], IsCycle) == j + 1
    ensures Occurrences(CyclePart(d, c0)[..2 * j + 1], IsPause) == j
  {
    var t := CyclePart(d, c0);
    CyclePartAt(d, c0, j);
    if j > 0 {
      CyclePrefixCounts(d, c0, j - 1);
      CyclePartAt(d, c0, j - 1);
      assert t[..2 * j + 1] == t[..2 * j - 1] + [t[2 * j - 1], t[2 * j]];
      OccurrencesAppend(t[..2 * j - 1], [t[2 * j - 1], t[2 * j]], IsCycle);
      OccurrencesAppend(t[..2 * j - 1], [t[2 * j - 1], t[2 * j]], IsPause);
      OccurrencesPair(t[2 * j - 1], t[2 * j], IsCycle);
      OccurrencesPair(t[2 * j - 1], t[2 * j], IsPause);
    } else {
      assert t[..1] == [] + [t[0]];
      assert t[..1][..0] == [];
    }
  }

  lemma {:induction false} CooldownFree(t: seq<Step>)
    requires forall k :: 0 <= k < |t| ==> !t[k].Cooldown?
    ensures Occurrences(t, IsCooldown) == 0
  {
    if t != [] {
      CooldownFree(t[..|t| - 1]);
    }
  }

  /**
   * A round runs `cycles.default` cycles (none when it is not positive), one
   * pause fewer than cycles, and exactly one cooldown.
   */
  lemma RoundCounts(cy: Cycles, c0: int)
    ensures var d := CyclesPerRound(cy);
      && Occurrences(RoundFrom(cy, c0), IsCycle) == d
      && Occurrences(RoundFrom(cy, c0), IsPause) == (if d > 0 then d - 1 else 0)
      && Occurrences(RoundFrom(cy, c0), IsCooldown) == 1
  {
    var d := CyclesPerRound(cy);
    var part := CyclePart(d, c0);
    var tail := [Cooldown(c0 + d, cy.cooldownTime), Reset];
    assert RoundFrom(cy, c0) == part + tail;
    OccurrencesAppend(part, tail, IsCycle);
    OccurrencesAppend(part, tail, IsPause);
    OccurrencesAppend(part, tail, IsCooldown);
    OccurrencesPair(tail[0], tail[1], IsCycle);
    OccurrencesPair(tail[0], tail[1], IsPause);
    OccurrencesPair(tail[0], tail[1], IsCooldown);
    CooldownFree(part);
    if d > 0 {
      CyclePrefixCounts(d, c0, d - 1);
      assert part[..2 * (d - 1) + 1] == part;
    } else {
      assert part == [];
    }
  }

  /** Parking is terminal: a `Fatal` step can only be the last step of the loop. */
  lemma {:induction false} FatalIsLast(cy: Cycles, roundsLeft: nat, i: nat, count: int, n: nat, failing: map<nat, string>)
    ensures var t := Loop(cy, roundsLeft, i, count, n, failing);
      forall k :: 0 <= k < |t| - 1 ==> !t[k].Fatal?
    decreases roundsLeft, if i < cy.perRound then cy.perRound - i else 0
  {
    var t := Loop(cy, roundsLeft, i, count, n, failing);
    if roundsLeft > 0 {
      if i < cy.perRound {
        if n !in failing {
          var rest := Loop(cy, roundsLeft, i + 1, count + 1, n + 1, failing);
          FatalIsLast(cy, roundsLeft, i + 1, count + 1, n + 1, failing);
          LoopCycle(cy, roundsLeft, i, count, n, failing);
          var head := [Cycle(i, count + 1)] + (if i < cy.perRound - 1 then [Pause] else []);
          assert t == head + rest;
          forall k | 0 <= k < |t| - 1 ensures !t[k].Fatal? {
            if k >= |head| {
              assert t[k] == rest[k - |head|];
            }
          }
        }
      } else {
        var rest := Loop(cy, roundsLeft - 1, 0, 0, n, failing);
        FatalIsLast(cy, roundsLeft - 1, 0, 0, n, failing);
        LoopCooldown(cy, roundsLeft, i, count, n, failing);
        forall k | 0 <= k < |t| - 1 ensures !t[k].Fatal? {
          if k >= 2 {
            assert t[k] == rest[k - 2];
          }
        }
      }
    }
  }

  // ---------------------------------------------------------- the account

  /** The key `initialize` hands to the provider: `this.config.wallet?.privateKey`. */
  function WalletKey(c: Config): Option<string> {
    if c.wallet.Some? then c.wallet.value.privateKey else None
  }

  const InitFailed := "Failed to initialize services"

  class Application {
    var config: Config
    var services: map<ServiceKey, Service>
    var cycleCount: int
    var tokenService: Option<TokenService>
    var logPrefix: string
    /** The messages `log` has been called with, in order. */
    var logged: seq<string>
    /** What `start` has done, in order. */
    var steps: seq<Step>
    var phase: Phase

    /** `new Application(customConfig)`: `customConfig || defaultConfig`. */
    constructor (customConfig: Option<Config>, defaultConfig: Config)
      ensures config == (if customConfig.Some? then customConfig.value else defaultConfig)
      ensures logPrefix == LogPrefixOf(config)
      ensures cycleCount == 0 && services == map[] && tokenService == None
      ensures logged == [] && steps == [] && phase == Created
    {
      var c := if customConfig.Some? then customConfig.value else defaultConfig;
      config := c;
      services := map[];
      cycleCount := 0;
      tokenService := None;
      logPrefix := LogPrefixOf(c);
      logged := [];
      steps := [];
      phase := Created;
    }

    /** The lines `log` has emitted, in order: each message behind the account's prefix. */
    function LogLines(): seq<string>
      reads this
    {
      PrefixAll(logPrefix, logged)
    }

    method Log(message: string)
      modifies this`logged
      ensures logged == old(logged) + [message]
      ensures LogLines() == old(LogLines()) + [Prefixed(logPrefix, message)]
    {
      PrefixAllAppend(logPrefix, logged, [message]);
      logged := logged + [message];
    }

    method HandleUnhandledRejection(message: string)
      modifies this`logged
      ensures logged == old(logged) + ["Unhandled error: " + message]
    {
      Log("Unhandled error: " + message);
    }

    method Initialize(providers: P.ProviderSingleton, world: InitWorld) returns (ok: bool)
      modifies this, providers, providers.instance
      ensures var pr := P.GetInstanceSpec(old(providers.Snapshot()), WalletKey(config), world.env);
        var rep := InitializeSpec(config, old(services), old(tokenService), pr.1, world);
        && providers.Snapshot() == Some(pr.0)
        && ok == rep.ok
        && services == rep.services
        && tokenService == rep.tokenService
        && logged == old(logged) + rep.messages
      ensures config == old(config) && logPrefix == old(logPrefix) && cycleCount == old(cycleCount)
      ensures steps == old(steps) && phase == old(phase)
      ensures providers.instance != null
      ensures old(providers.instance) != null ==> providers.instance == old(providers.instance)
      ensures old(providers.instance) == null ==> fresh(providers.instance)
    {
      Log(InitStart);
      var pr := providers.GetInstance(WalletKey(config), world.env);
      ok := InitializeWithProvider(pr, world);
      ghost var rep := AfterProviderSpec(config, old(services), old(tokenService), pr, world);
      Assoc(old(logged), [InitStart], rep.messages);
    }

    /**
     * The rest of the `try` block of `initialize`, once `Provider.getInstance`
     * has answered `provider`; a failure there goes straight to the catch.
     */
    method InitializeWithProvider(provider: Result<P.RpcProvider, P.Error>, world: InitWorld) returns (ok: bool)
      modifies this`services, this`tokenService, this`logged
      ensures var rep := AfterProviderSpec(config, old(services), old(tokenService), provider, world);
        && ok == rep.ok
        && services == rep.services
        && tokenService == rep.tokenService
        && logged == old(logged) + rep.messages
    {
      if provider.Failure? {
        Log(InitError(P.Message(provider.error)));
        return false;
      }
      tokenService := Some(TokenService(config.wallet));
      if world.tokenInit.Fail? {
        Log(InitError(world.tokenInit.error));
        return false;
      }
      Log(NftVerified);
      if world.walletInfo.Fail? {
        Log(InitError(world.walletInfo.error));
        Assoc(old(logged), [NftVerified], [InitError(world.walletInfo.error)]);
        return false;
      }
      var defs := ServiceDefinitions(config);
      ghost var logged1 := logged;
      var k := InitializeServices(defs, world.serviceFaults);
      ghost var entries := ServiceLog(defs[..Attempted(defs, world.serviceFaults)], world.serviceFaults);
      Assoc(old(logged), [NftVerified], entries);
      if k < |defs| {
        Log(InitError(world.serviceFaults[defs[k].key]));
        Assoc(old(logged), [NftVerified] + entries, [InitError(world.serviceFaults[defs[k].key])]);
        return false;
      }
      ok := true;
    }

    /**
     * The `for` loop of `initialize` over `serviceDefinitions`: construct and
     * initialize each service in turn, stopping at the first one that throws.
     * Answers the index of that one, or `|defs|` when none throws.
     */
    method InitializeServices(defs: seq<ServiceDef>, faults: map<ServiceKey, string>) returns (k: nat)
      modifies this`services, this`logged
      ensures k == FirstFailure(defs, faults)
      ensures services == Install(old(services), defs[..Attempted(defs, faults)], config.wallet)
      ensures logged == old(logged) + ServiceLog(defs[..Attempted(defs, faults)], faults)
    {
      var i := 0;
      while i < |defs|
        invariant 0 <= i <= |defs|
        invariant forall j :: 0 <= j < i ==> defs[j].key !in faults
        invariant services == Install(old(services), defs[..i], config.wallet)
        invariant logged == old(logged) + ServiceLog(defs[..i], faults)
      {
        var d := defs[i];
        InstallStep(old(services), defs, i, config.wallet);
        ServiceLogStep(defs, i, faults);
        Assoc(old(logged), ServiceLog(defs[..i], faults), EntryLog(d, faults));
        ghost var before := logged;
        Log("Initializing " + d.name + "...");
        services := services[d.key := Construct(d, config.wallet)];
        if d.key in faults {
          Log("Failed to initialize " + d.name + ": " + faults[d.key]);
          Assoc(before, ["Initializing " + d.name + "..."], ["Failed to initialize " + d.name + ": " + faults[d.key]]);
          assert FirstFailure(defs, faults) == i;
          return i;
        }
        Log(d.name + " initialized successfully");
        Assoc(before, ["Initializing " + d.name + "..."], [d.name + " initialized successfully"]);
        i := i + 1;
      }
      assert FirstFailure(defs, faults) == |defs|;
      assert defs[..|defs|] == defs;
      k := |defs|;
    }

    /**
     * One pass of the body of `while (true)`: the `for` loop over the round's
     * cycles, then the cooldown and the reset, unless a `runCycle` throws.
     * `roundsLeft` and `n0` place the round within `Loop`.
     */
    method RunRound(ghost roundsLeft: nat, n0: nat, failing: map<nat, string>)
      returns (n: nat, failed: Option<string>, ghost round: seq<Step>)
      requires roundsLeft > 0
      modifies this`steps, this`cycleCount
      ensures steps == old(steps) + round
      ensures failed.Some? ==>
        Loop(config.cycles, roundsLeft, 0, old(cycleCount), n0, failing) == round && Fatality(round) == failed
      ensures failed.None? ==>
        && Loop(config.cycles, roundsLeft, 0, old(cycleCount), n0, failing)
           == round + Loop(config.cycles, roundsLeft - 1, 0, 0, n, failing)
        && Fatality(round).None?
        && cycleCount == 0
    {
      var cy := config.cycles;
      ghost var t := Loop(cy, roundsLeft, 0, cycleCount, n0, failing);
      round := [];
      n := n0;
      var i: nat := 0;
      while i < cy.perRound
        invariant steps == old(steps) + round
        invariant t == round + Loop(cy, roundsLeft, i, cycleCount, n, failing)
        invariant Fatality(round).None?
      {
        ghost var before := cycleCount;
        cycleCount := cycleCount + 1;
        if n in failing {
          LoopFatal(cy, roundsLeft, i, before, n, failing);
          var s := [Cycle(i, cycleCount), Fatal(failing[n])];
          Assoc(old(steps), round, s);
          steps := steps + s;
          round := round + s;
          failed := Some(failing[n]);
          return;
        }
        var s := [Cycle(i, cycleCount)] + (if i < cy.perRound - 1 then [Pause] else []);
        LoopCycle(cy, roundsLeft, i, before, n, failing);
        Shift(t, round, Loop(cy, roundsLeft, i, before, n, failing), s, Loop(cy, roundsLeft, i + 1, cycleCount, n + 1, failing));
        Assoc(old(steps), round, s);
        steps := steps + s;
        round := round + s;
        i := i + 1;
        n := n + 1;
      }
      var s := [Cooldown(cycleCount, cy.cooldownTime), Reset];
      LoopCooldown(cy, roundsLeft, i, cycleCount, n, failing);
      Shift(t, round, Loop(cy, roundsLeft, i, cycleCount, n, failing), s, Loop(cy, roundsLeft - 1, 0, 0, n, failing));
      Assoc(old(steps), round, s);
      steps := steps + s;
      round := round + s;
      cycleCount := 0;
      failed := None;
    }

    /**
     * The `while (true)` loop of `start`, observed for `rounds` rounds. It
     * leaves the loop only when a `runCycle` throws, answering that message.
     */
    method RunLoop(rounds: nat, failing: map<nat, string>) returns (failed: Option<string>)
      modifies this`steps, this`cycleCount
      ensures steps == old(steps) + Loop(config.cycles, rounds, 0, old(cycleCount), 0, failing)
      ensures failed == Fatality(Loop(config.cycles, rounds, 0, old(cycleCount), 0, failing))
      ensures failed.None? && rounds > 0 ==> cycleCount == 0
      ensures rounds == 0 ==> cycleCount == old(cycleCount)
    {
      var cy := config.cycles;
      ghost var t := Loop(cy, rounds, 0, cycleCount, 0, failing);
      ghost var done: seq<Step> := [];
      var r: nat := 0;
      var n: nat := 0;
      while r < rounds
        invariant r <= rounds
        invariant steps == old(steps) + done
        invariant t == done + Loop(cy, rounds - r, 0, cycleCount, n, failing)
        invariant Fatality(done).None?
        invariant r > 0 ==> cycleCount == 0
        invariant r == 0 ==> cycleCount == old(cycleCount)
      {
        ghost var round;
        ghost var rest := Loop(cy, rounds - r, 0, cycleCount, n, failing);
        n, failed, round := RunRound(rounds - r, n, failing);
        Assoc(old(steps), done, round);
        if failed.Some? {
          FatalityAppend(done, round);
          return;
        }
        Shift(t, done, rest, round, Loop(cy, rounds - r - 1, 0, 0, n, failing));
        FatalityAppend(done, round);
        done := done + round;
        r := r + 1;
      }
      assert t == done;
      failed := None;
    }

    /**
     * `start()`: initialize, then loop. A failed initialization, or a
     * `runCycle` that throws, lands in the catch: the error is logged and the
     * account is parked for good.
     */
    method Start(providers: P.ProviderSingleton, world: InitWorld, rounds: nat, failing: map<nat, string>)
      returns (initialized: bool)
      modifies this, providers, providers.instance
      ensures var pr := P.GetInstanceSpec(old(providers.Snapshot()), WalletKey(config), world.env);
        var rep := InitializeSpec(config, old(services), old(tokenService), pr.1, world);
        && providers.Snapshot() == Some(pr.0)
        && initialized == rep.ok
        && services == rep.services
        && tokenService == rep.tokenService
        && (!initialized ==>
              && logged == old(logged) + rep.messages + ["Fatal error: " + InitFailed]
              && steps == old(steps) + [Fatal(InitFailed)]
              && phase == Parked
              && cycleCount == old(cycleCount))
        && (initialized ==>
              var t := Loop(config.cycles, rounds, 0, old(cycleCount), 0, failing);
              && logged == old(logged) + rep.messages + ["All services initialized. Starting cycles..."]
                   + (if Fatality(t).Some? then ["Fatal error: " + Fatality(t).value] else [])
              && steps == old(steps) + t
              && phase == (if Fatality(t).Some? then Parked else Running)
              && (Fatality(t).None? && rounds > 0 ==> cycleCount == 0)
              && (rounds == 0 ==> cycleCount == old(cycleCount)))
      ensures config == old(config) && logPrefix == old(logPrefix)
      ensures providers.instance != null
      ensures old(providers.instance) != null ==> providers.instance == old(providers.instance)
      ensures old(providers.instance) == null ==> fresh(providers.instance)
    {
      initialized := Initialize(providers, world);
      var failure: Option<string>;
      if !initialized {
        failure := Some(InitFailed);
        steps := steps + [Fatal(InitFailed)];
      } else {
        Log("All services initialized. Starting cycles...");
        phase := Running;
        failure := RunLoop(rounds, failing);
      }
      if failure.Some? {
        Log("Fatal error: " + failure.value);
        phase := Parked;
      }
    }
  }
}
