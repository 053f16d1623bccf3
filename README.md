# monadbot multi-account core, modelled in Dafny

This project models the part of monadbot that runs several bot accounts in one
process. It covers:

- **`Application`** (src/app.js): the per-account worker.
  - `log` puts the account's prefix in front of each message.
  - `initialize` asks the shared provider for a connection and initialises the
    token service. It then builds and initialises four services, always in the
    same order, and stops at the first one that throws.
  - `start` initialises and then loops forever over rounds. A round runs
    `cycles.default` cycles with a pause between consecutive cycles, then a
    cooldown, then resets `cycleCount` to 0. A failed initialisation or a
    throwing cycle logs a fatal error and parks the account for good.
- **`MultiAccountManager`** (src/core/MultiAccountManager.js).
  - It rejects an empty account list.
  - It derives one config per account entry: name, wallet, cycles, log prefix
    and UI port.
  - It keeps an ordered registry of accounts with an `active` flag.
  - `startAll` marks every account active.
  - `getStatus` projects the registry into status records that carry no key.
- **multi-main.js**, the entry script.
  - It chooses the accounts file from `--accounts`/`-a`.
  - When the file is missing, it writes a two-record template and exits with
    code 1.
  - It prints a summary of the accounts without their keys.
- **The `Provider` singleton** (src/core/Provider.js): a lazily created, shared
  instance that holds one JSON-RPC provider and one wallet.

## How the model is built

Each entity whose fields the code updates in place is a Dafny `class`:
`Application`, `MultiAccountManager`, `Provider`, and `ProviderSingleton`
(which stands for the static `Provider.instance`).

Each method's postcondition ties the new state to a pure function of the old
state:

- `GetInstanceSpec` for the provider singleton;
- `InitializeSpec` for `initialize`;
- `Loop` for the round loop of `start`;
- `Registered` for the manager's registry.

Lemmas about those functions state what the code guarantees.

Outside effects are inputs:

- what ethers, the key file and the environment answer (`Env`);
- the outcomes of the token service and of each service's `initialize`
  (`InitWorld`);
- which `runCycle` calls throw (`failing`, keyed by the call's ordinal);
- the contents of the accounts file (`AccountsFile`).

Timed waits appear as `Pause` and `Cooldown` steps in the account's trace
(`steps`).

Modules:

- `Wrappers`: `Option`, `Result`, `Outcome`.
- `JsText`: JavaScript truthiness of strings, `String.prototype.trim`, and
  decimal rendering of numbers.
- `ProviderCore`, `App`, `Manager`, `MultiMain`.

Three behaviours of the round loop in src/app.js are easy to miss:

- `cycles.default` is not validated, so with `cycles.default <= 0` a round is
  only a cooldown and a reset.
- `cycleCount` is reset after the cooldown delay, so at cooldown start it still
  equals the number of cycles run.
- `cycleCount++` comes before `runCycle`, and a throw from `runCycle` reaches
  the catch of `start`, which parks the account.

## Model

| member | source | states |
|---|---|---|
| JsText.Trim | src/core/Provider.js:56-58 | The trimmed key is a contiguous slice of the input; every character removed before and after it is white space, and neither of its ends is |
| JsText.TrimIdempotent | src/core/Provider.js:56-58 | Trimming an already trimmed key changes nothing |
| JsText.TrimBlank | src/core/Provider.js:56-61 | A key made only of white space trims to the empty string, so it is falsy and no wallet is built from it |
| JsText.NatToString | src/core/MultiAccountManager.js:42 | `${n}` is a non-empty string of decimal digits, with a leading zero only for 0 |
| JsText.NatToStringRoundTrip | src/core/MultiAccountManager.js:42 | Reading the rendered digits back gives the number again |
| JsText.NatToStringInjective | src/core/MultiAccountManager.js:42 | Different numbers render to different strings |
| ProviderCore.DefaultKey | src/core/Provider.js:51-59 | Defines the default key: the trimmed contents of private.key when that file exists, else the trimmed PRIVATE_KEY when it is truthy, else none |
| ProviderCore.SetupProviderSpec | src/core/Provider.js:34-46 | A throwing provider constructor leaves the state unchanged and fails; otherwise the provider is the one for the configured URL; a wallet that is already set is kept |
| ProviderCore.Provider.constructor | src/core/Provider.js:7-10 | A new instance has a null provider and a null wallet |
| ProviderCore.Provider.SetupWallet | src/core/Provider.js:69-77 | The new fields and the outcome are those of `SetupWalletSpec`: replace the wallet only for a truthy key when a provider exists, and wrap a Wallet error in the "with provided key" message |
| ProviderCore.Provider.SetupDefaultWallet | src/core/Provider.js:48-67 | The new fields and the outcome are those of `SetupDefaultWalletSpec`: fail on an unreadable key file, otherwise build a wallet from the key file, else from PRIVATE_KEY, and wrap errors |
| ProviderCore.Provider.SetupProvider | src/core/Provider.js:34-46 | The new fields and the outcome are those of `SetupProviderSpec` |
| ProviderCore.Provider.GetProvider | src/core/Provider.js:27-32 | Sets the provider up on first use only, and returns it or the setup error, as `GetProviderSpec` says |
| ProviderCore.ProviderSingleton.constructor | src/core/Provider.js:12 | The static instance starts out null |
| ProviderCore.ProviderSingleton.GetInstance | src/core/Provider.js:14-25 | The instance is created only when it is null, and afterwards it is always the same object; its fields and the result follow `GetInstanceSpec` |
| ProviderCore.GetInstanceReturnsProvider | src/core/Provider.js:24-32 | A successful `getInstance` returns exactly the provider now held by the instance |
| ProviderCore.ProviderBuiltOnce | src/core/Provider.js:27-32 | Once a provider exists, `getInstance` never replaces it and returns that same provider |
| ProviderCore.ProviderSticks | src/core/Provider.js:14-32 | Once a provider exists, `getInstance` fails if and only if it was given a truthy key that the Wallet constructor rejects |
| ProviderCore.SetupWalletNoop | src/core/Provider.js:69-73 | `setupWallet` changes nothing and succeeds when the key is falsy or no provider exists yet |
| ProviderCore.SetupProviderKeepsWallet | src/core/Provider.js:39-42 | `setupProvider` keeps a wallet that is already set; the default wallet is installed only when none is |
| ProviderCore.FirstCallIgnoresKey | src/core/Provider.js:14-24 | On the first `getInstance` call the key is ignored: any wallet is built from the default key, and when that key is usable the wallet is exactly the default one |
| ProviderCore.KeyFileTakesPrecedence | src/core/Provider.js:54-59 | When the key file exists, its trimmed contents are the default key, whatever PRIVATE_KEY holds |
| ProviderCore.UnreadableKeyFile | src/core/Provider.js:34-46 | A key file that exists but cannot be read fails the first `getProvider` with "Failed to setup provider: Failed to setup wallet: …", yet leaves the new provider set, so the next call returns it |
| ProviderCore.NoDefaultKeyNoWallet | src/core/Provider.js:54-63 | With no key file and no truthy PRIVATE_KEY, `setupDefaultWallet` leaves the state alone |
| ProviderCore.LaterKeyReplacesWallet | src/core/Provider.js:20-22 | Once a provider exists, a call with an accepted key replaces the single wallet with one for that key and keeps the provider |
| ProviderCore.SharedWalletAcrossAccounts | src/core/Provider.js:14-25 | Two accounts in one process: the first call creates the provider and ignores the first key; after the second call the one shared wallet holds the second key |
| App.LogPrefixOf | src/app.js:25 | Defines the account's prefix: `config.logPrefix` when it is a non-empty string, else "" |
| App.Prefixed | src/app.js:32 | Defines the logged line: `[prefix] message` for a non-empty prefix, the message alone otherwise |
| App.PrefixedShape | src/app.js:31-32 | A log line is the message behind `[prefix] ` when the prefix is non-empty, and the message alone otherwise |
| App.UnprefixedPrefixed | src/app.js:32 | Prefixing can be undone: a log line determines its message |
| App.ServiceDefinitions | src/app.js:82-91 | Defines the four service definitions in `Object.entries` order: Rubic Swap, Izumi Swap, Bean Swap, then Magma Staking with `contracts.magma` |
| App.Construct | src/app.js:99-101 | Defines the constructed service: its class, the definition's address when truthy else null, and the wallet config |
| App.FirstFailure | src/app.js:93-111 | The index of the first service whose `initialize` throws: every earlier one succeeds, and the one at the index fails |
| App.InstallContents | src/app.js:93-101 | Walking distinct definitions sets each key to the service constructed from its definition and the wallet config, and leaves every other key alone |
| App.InstallPrefix | src/app.js:93-111 | The first `n` definitions are constructed; for each later definition, its key is present exactly when it was before, with the same value |
| App.ServiceLogOrder | src/app.js:93-107 | Each attempted service logs two lines in definition order, its announcement first |
| App.InitializeSucceedsIff | src/app.js:56-126 | `initialize` returns true if and only if the provider, the token service, the wallet info and all four services succeed |
| App.InitializeStopsAtFirstFailure | src/app.js:93-111 | Services up to and including the first failing one are constructed; the entry of every later service is exactly what it was before `initialize` (absent, or the same value); the token service was created |
| App.OnlyMagmaGetsAddress | src/app.js:82-101 | Only Magma Staking is constructed with a contract address, and only when that address is truthy; the swap services get null |
| App.Loop | src/app.js:146-172 | Defines the loop's trace from a position: each cycle is recorded with `cycleCount` already incremented, a pause follows every cycle but the last of the round, a round ends with the cooldown and the reset, and a throwing cycle is followed only by the fatal step |
| App.RoundFrom | src/app.js:147-163 | Defines a round without failures in closed form: cycle i at `cycleCount` c0+i+1, pauses between cycles, the cooldown at c0+D, then the reset |
| App.RoundTail | src/app.js:146-166 | From cycle index `i` of a round with no failing cycle, the loop runs the rest of that round as laid out by `RoundFrom` and then starts the next round with `cycleCount` 0 |
| App.RoundThenRest | src/app.js:146-166 | A round with no failing cycle is exactly `RoundFrom`: cycle i sees `cycleCount` c0+i+1, pauses come between cycles, then the cooldown at c0+D, then the reset |
| App.EveryRoundAlike | src/app.js:21 | Starting from the constructor's `cycleCount` of 0 with no failing cycle, every round is the same round repeated |
| App.CyclePrefixCounts | src/app.js:147-157 | Up to and including cycle j, a round has run j+1 cycles and j pauses |
| App.RoundCounts | src/app.js:147-163 | A round runs `max(D, 0)` cycles, one pause fewer than that (none when D <= 0), and exactly one cooldown |
| App.FatalIsLast | src/app.js:167-172 | A fatal step can only be the last step of the loop: a parked account does nothing more |
| App.Application.constructor | src/app.js:14-28 | The config is the custom one or else the default; the prefix is `logPrefix` or ""; `cycleCount` is 0; no services, token service or log |
| App.Application.Log | src/app.js:31-35 | Appends the message to the account's log; the emitted line is the message with the account's prefix |
| App.Application.HandleUnhandledRejection | src/app.js:37-40 | Logs "Unhandled error: " followed by the error message |
| App.Application.Initialize | src/app.js:56-127 | The result, the services, the token service and the logged messages are those of `InitializeSpec`; the provider singleton is left as `getInstance` says, on the same instance object or a new one when it was null; cycles, config and phase are untouched |
| App.Application.InitializeWithProvider | src/app.js:68-126 | After the provider answers, the result, services, token service and messages are those of `AfterProviderSpec`, each failure going to the catch |
| App.Application.InitializeServices | src/app.js:93-114 | The service loop stops at `FirstFailure`, installs exactly the attempted services, and logs their lines in order |
| App.Application.RunRound | src/app.js:147-165 | One round appends its steps to the trace as `Loop` lays them out; a throwing cycle ends the round with its fatal step; otherwise `cycleCount` is back to 0 |
| App.Application.RunLoop | src/app.js:146-166 | The trace grows by `Loop` from the current `cycleCount`, and the result is the message of the cycle that threw, if any |
| App.Application.Start | src/app.js:134-173 | A failed initialisation logs the fatal error, runs no cycle and parks. Otherwise the account logs the start message, runs the loop, and parks with a logged fatal error exactly when a cycle throws; without a throw `cycleCount` ends at 0 after a round. The provider instance is the same object, or a new one when it was null |
| Manager.DefaultName | src/core/MultiAccountManager.js:42 | Defines the default name of entry i: "Account " followed by i+1 in decimal |
| Manager.AccountName | src/core/MultiAccountManager.js:42 | Defines an account's name: the entry's name when it is a non-empty string, else the default name |
| Manager.DeriveConfig | src/core/MultiAccountManager.js:46-56 | Defines the per-account config: the global one with wallet {key, address}, the entry's cycles or the global ones, the name as log prefix and port 3000+i |
| Manager.DeriveConfigShape | src/core/MultiAccountManager.js:46-56 | The derived config has a wallet with exactly the entry's key and address, the entry's cycles or else the global ones, the account's name as log prefix, port 3000+i, and global values otherwise |
| Manager.AccountNameNonEmpty | src/core/MultiAccountManager.js:42 | Every account name is non-empty |
| Manager.AppPrefixIsName | src/core/MultiAccountManager.js:42-59 | The account's `Application` logs behind the account's name |
| Manager.DefaultNamesDistinct | src/core/MultiAccountManager.js:42 | Default names of different positions differ |
| Manager.PortsDistinct | src/core/MultiAccountManager.js:55 | Accounts at different positions get different UI ports |
| Manager.Statuses | src/core/MultiAccountManager.js:117-123 | One status per account, in registry order: name, active flag and wallet address |
| Manager.StatusIgnoresKeys | src/core/MultiAccountManager.js:117-123 | Replacing every account's private key leaves the status records unchanged |
| Manager.Registered | src/core/MultiAccountManager.js:40-65 | Defines a registration: from position `from` on, the registry holds one inactive account per entry, in order, with its derived config and name |
| Manager.StatusAfterRegistration | src/core/MultiAccountManager.js:40-65 | Right after registration, each new account's status is its name, inactive, and the address from its entry |
| Manager.SecondInitializeDuplicates | src/core/MultiAccountManager.js:9 | The registry is never cleared: registering the same list twice repeats every name and derived config, one list length further on |
| Manager.RegisterNext | src/core/MultiAccountManager.js:40-65 | Appending the next entry's derived, inactive account extends the registration by one entry |
| Manager.MultiAccountManager.constructor | src/core/MultiAccountManager.js:8-11 | The registry starts empty and the list is the one given |
| Manager.MultiAccountManager.LoadAccountsFromFile | src/core/MultiAccountManager.js:14-30 | Succeeds exactly when the file exists and parses, and then replaces the list; otherwise the list is kept |
| Manager.MultiAccountManager.Initialize | src/core/MultiAccountManager.js:32-76 | Fails, appending nothing, exactly when the list is empty. Otherwise it keeps the old registry and appends one new, inactive account per entry in order, each with a fresh `Application` on its derived config and name |
| Manager.MultiAccountManager.StartAll | src/core/MultiAccountManager.js:78-115 | Throws "Failed to initialize accounts" exactly when the list is empty, activating nothing. Otherwise it registers the entries and marks every account active, old ones included |
| Manager.MultiAccountManager.GetStatus | src/core/MultiAccountManager.js:117-123 | One record per account in registry order, with its name and active flag |
| MultiMain.FindFlag | multi-main.js:12 | The index of the first `--accounts` or `-a`, or -1 when there is none |
| MultiMain.AccountsPath | multi-main.js:9-15 | Defines the accounts path: the argument after the first flag when one follows it, else accounts.json beside the script |
| MultiMain.NoFlagDefaultPath | multi-main.js:9-15 | With no flag, the path is accounts.json beside the script |
| MultiMain.PathAfterFirstFlag | multi-main.js:12-15 | The argument right after the first flag is the path, whatever follows it |
| MultiMain.TrailingFlagKeepsDefault | multi-main.js:13 | A flag in last position leaves the default path |
| MultiMain.Template | multi-main.js:31-50 | Defines the template: two records with names, placeholder key and address, and cycles |
| MultiMain.TemplateShape | multi-main.js:31-50 | The template has exactly two records, "Account 1" and "Account 2", with placeholder key and address, and cycles 10 with 12 hours' rest and 8 with 11 hours' rest |
| MultiMain.SummaryLines | multi-main.js:74-77 | One header line, then one line per account |
| MultiMain.SummaryIgnoresKeys | multi-main.js:68-77 | Neither the summary nor the printed lines depend on any private key |
| MultiMain.MainEnding | multi-main.js:26-86 | Defines how `main` ends for the file it finds: exit 1 for a missing or unreadable file or an empty list, otherwise serving forever |
| MultiMain.MainExitsOnlyWithOne | multi-main.js:26-86 | `main` only ever stops with exit code 1, and it runs forever exactly when the file parses to a non-empty list |
| MultiMain.RunMain | multi-main.js:8-88 | A missing file writes the template at the chosen path and exits 1 with no manager. Otherwise the script loads the file, prints the key-free summary and starts every account, exiting 1 on a load or start failure |

## Left out

- Dashboard rendering, `Utils.logger` and console output other than the summary lines are not modelled; `log` records its messages in the account's log.
- The "Waiting … seconds" and "Starting cooldown period" log lines of `start` are not modelled; the trace records the pauses and cooldowns they announce.
- `initializeDashboard` exiting the process when the dashboard cannot be built is not modelled.
- Delays and the random inter-cycle delay are not modelled; they are `Pause` and `Cooldown` steps.
- `runCycle` is not defined in src/app.js; it is an opaque step whose throws are given by `failing`.
- `TokenService` (NFT gate, wallet info) and the four services' own `initialize` are outcomes given in `InitWorld`.
- ethers objects are plain values, and the JSON-RPC connection and wallet signing are not modelled.
- File system access and `JSON.parse` are not modelled; the accounts file arrives as `Missing`, `Unreadable` or `Parsed`. A parse that yields something other than a list of entries is not modelled.
- `path.resolve` and `path.join` normalisation are not modelled; the default path is the script directory followed by `/accounts.json`.
- `process.exit` is not modelled; it is the `Exit` ending. Writing the template is the `written` result, and a failure of that write is not modelled.
- Concurrency is not modelled: `startAll` does not launch `app.start()`, and the async `map`, `Promise.all` and the never-resolving promise are the `Serving` outcome. The `unhandledRejection` registration is not modelled; its handler is.
- Cycle settings are integers. `cycles.default` and `cooldownTime` are JSON numbers, so a fractional `cycles.default` such as 2.5 (3 cycles, 2 pauses, cooldown at `cycleCount` 3) is outside the model. The loop, `RoundFrom` and `RoundCounts` speak of integer counts only.
- `config.contracts.magma` is an optional field; a config without `contracts` is not modelled.
- App.Application.RunLoop: the endless `while (true)` is observed over a bound of `rounds` rounds.
- App.Application.Start: the endless loop is observed over `rounds` rounds, as in `RunLoop`.
- Manager.MultiAccountManager.StartAll: does not start the accounts' applications, so it states nothing about their runs.
- Manager.MultiAccountManager.GetStatus: its contract gives name and active flag; the address is stated by `Manager.Statuses` and `Manager.StatusAfterRegistration`.
