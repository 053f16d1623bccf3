// The multi-account manager of src/core/MultiAccountManager.js: one
// `Application` per account definition, kept in an ordered registry with an
// `active` flag, and the status records projected from it.

module Manager {
  import opened Wrappers
  import JsText
  import App

  /** One entry of the accounts file, as `JSON.parse` hands it over. */
  datatype AccountConfig = AccountConfig(
    name: Option<string>,
    privateKey: Option<string>,
    address: Option<string>,
    cycles: Option<App.Cycles>)

  /** What reading the accounts file yields: absent, unreadable or unparsable, or a list. */
  datatype AccountsFile = Missing | Unreadable(message: string) | Parsed(configs: seq<AccountConfig>)

  /** One registry entry: `{ config, app, name, active }`. */
  datatype Account = Account(config: App.Config, app: App.Application, name: string, active: bool)

  /** One record of `getStatus()`. */
  datatype AccountStatus = AccountStatus(name: string, active: bool, address: Option<string>)

  /** What `startAll()` comes to: a thrown error, or serving for good. */
  datatype StartOutcome = Threw(message: string) | Serving

  const NoAccounts := "No account configurations provided"
  const InitFailed := "Failed to initialize accounts"

  /** The name an account gets when its entry has none: `Account ${i+1}`. */
  function DefaultName(i: nat): string {
    "Account " + JsText.NatToString(i + 1)
  }

  /** `accountConfig.name || \`Account ${i+1}\``. */
  function AccountName(ac: AccountConfig, i: nat): string {
    if JsText.Truthy(ac.name) then ac.name.value else DefaultName(i)
  }

  /** The per-account config `initialize` builds for entry `i` on top of the global `base`. */
  function DeriveConfig(base: App.Config, ac: AccountConfig, i: nat): App.Config {
    base.(wallet := Some(App.WalletConfig(ac.privateKey, ac.address)),
          cycles := if ac.cycles.Some? then ac.cycles.value else base.cycles,
          logPrefix := Some(AccountName(ac, i)),
          uiPort := Some(3000 + i))
  }

  /**
   * The derived config carries exactly the entry's key and address as its
   * wallet, the entry's cycles or else the global ones, the account's name as
   * log prefix and port `3000 + i`; everything else is the global config.
   */
  lemma DeriveConfigShape(base: App.Config, ac: AccountConfig, i: nat)
    ensures var c := DeriveConfig(base, ac, i);
      && c.wallet == Some(App.WalletConfig(ac.privateKey, ac.address))
      && (ac.cycles.Some? ==> c.cycles == ac.cycles.value)
      && (ac.cycles.None? ==> c.cycles == base.cycles)
      && c.logPrefix == Some(AccountName(ac, i))
      && c.uiPort == Some(3000 + i)
      && c.magma == base.magma
  {
  }

  /** Every account has a non-empty name. */
  lemma AccountNameNonEmpty(ac: AccountConfig, i: nat)
    ensures AccountName(ac, i) != ""
  {
  }

  /** The account's `Application` logs behind the account's name. */
  lemma AppPrefixIsName(base: App.Config, ac: AccountConfig, i: nat)
    ensures App.LogPrefixOf(DeriveConfig(base, ac, i)) == AccountName(ac, i)
  {
    AccountNameNonEmpty(ac, i);
  }

  /** Default names of different entries differ. */
  lemma DefaultNamesDistinct(i: nat, j: nat)
    requires i != j
    ensures DefaultName(i) != DefaultName(j)
  {
    if DefaultName(i) == DefaultName(j) {
      var p := "Account ";
      assert DefaultName(i)[|p|..] == JsText.NatToString(i + 1);
      assert DefaultName(j)[|p|..] == JsText.NatToString(j + 1);
      JsText.NatToStringInjective(i + 1, j + 1);
    }
  }

  /** Entries at different positions get different UI ports. */
  lemma PortsDistinct(base: App.Config, a: AccountConfig, b: AccountConfig, i: nat, j: nat)
    requires i != j
    ensures DeriveConfig(base, a, i).uiPort != DeriveConfig(base, b, j).uiPort
  {
  }

  /** The status record of one account: name, flag and wallet address, no key. */
  function StatusOf(a: Account): AccountStatus {
    AccountStatus(a.name, a.active, if a.config.wallet.Some? then a.config.wallet.value.address else None)
  }

  /** `accounts.map(...)` of `getStatus()`. */
  function Statuses(accounts: seq<Account>): (r: seq<AccountStatus>)
    ensures |r| == |accounts|
    ensures forall j :: 0 <= j < |accounts| ==> r[j] == StatusOf(accounts[j])
  {
    if accounts == [] then [] else Statuses(accounts[..|accounts| - 1]) + [StatusOf(accounts[|accounts| - 1])]
  }

  /** An account whose wallet carries the key `key` instead. */
  function WithKey(a: Account, key: Option<string>): Account {
    if a.config.wallet.Some? then a.(config := a.config.(wallet := Some(a.config.wallet.value.(privateKey := key))))
    else a
  }

  /** The status never depends on a private key: swapping every key leaves it unchanged. */
  lemma {:induction false} StatusIgnoresKeys(accounts: seq<Account>, keys: seq<Option<string>>)
    requires |keys| == |accounts|
    ensures Statuses(seq(|accounts|, j requires 0 <= j < |accounts| => WithKey(accounts[j], keys[j])))
         == Statuses(accounts)
  {
    var swapped := seq(|accounts|, j requires 0 <= j < |accounts| => WithKey(accounts[j], keys[j]));
    var l := Statuses(swapped);
    var r := Statuses(accounts);
    forall j | 0 <= j < |accounts| ensures l[j] == r[j] {
      assert StatusOf(swapped[j]) == StatusOf(accounts[j]);
    }
  }

  /** The accounts from position `from` on are the entries of `configs` in order, each derived and inactive. */
  predicate Registered(accounts: seq<Account>, from: nat, base: App.Config, configs: seq<AccountConfig>)
  {
    && |accounts| == from + |configs|
    && forall k :: from <= k < |accounts| ==>
         && accounts[k].config == DeriveConfig(base, configs[k - from], k - from)
         && accounts[k].name == AccountName(configs[k - from], k - from)
         && !accounts[k].active
  }

  /**
   * Right after registration, the status of each new account is its name,
   * inactive, and the address from its entry in the accounts file.
   */
  lemma StatusAfterRegistration(accounts: seq<Account>, from: nat, base: App.Config, configs: seq<AccountConfig>)
    requires Registered(accounts, from, base, configs)
    ensures forall k :: from <= k < |accounts| ==>
      Statuses(accounts)[k] == AccountStatus(AccountName(configs[k - from], k - from), false, configs[k - from].address)
  {
  }

  /**
   * Registering the same list twice, the second copy repeats the first: the
   * same names and the same derived configs again, one list length further on.
   */
  lemma SecondInitializeDuplicates(accounts: seq<Account>, base: App.Config, configs: seq<AccountConfig>)
    requires |accounts| >= |configs|
    requires Registered(accounts[..|configs|], 0, base, configs)
    requires Registered(accounts, |configs|, base, configs)
    ensures |accounts| == 2 * |configs|
    ensures forall k :: 0 <= k < |configs| ==>
      accounts[k].name == accounts[k + |configs|].name && accounts[k].config == accounts[k + |configs|].config
  {
    forall k | 0 <= k < |configs|
      ensures accounts[k].name == accounts[k + |configs|].name
      ensures accounts[k].config == accounts[k + |configs|].config
    {
      assert accounts[..|configs|][k] == accounts[k];
    }
  }

  /** Registering the next entry of `configs` extends the registry by one. */
  lemma RegisterNext(accounts: seq<Account>, from: nat, base: App.Config, configs: seq<AccountConfig>, i: nat, app: App.Application)
    requires i < |configs| && Registered(accounts, from, base, configs[..i])
    ensures Registered(accounts + [Account(DeriveConfig(base, configs[i], i), app, AccountName(configs[i], i), false)],
                       from, base, configs[..i + 1])
  {
    var next := accounts + [Account(DeriveConfig(base, configs[i], i), app, AccountName(configs[i], i), false)];
    forall k | from <= k < |next|
      ensures next[k].config == DeriveConfig(base, configs[..i + 1][k - from], k - from)
      ensures next[k].name == AccountName(configs[..i + 1][k - from], k - from)
      ensures !next[k].active
    {
      if k < |accounts| {
        assert configs[..i + 1][k - from] == configs[..i][k - from];
      }
    }
  }

  class MultiAccountManager {
    var accounts: seq<Account>
    var accountConfigs: seq<AccountConfig>

    /** `new MultiAccountManager(accountConfigs = [])`. */
    constructor (accountConfigs: seq<AccountConfig>)
      ensures accounts == [] && this.accountConfigs == accountConfigs
    {
      accounts := [];
      this.accountConfigs := accountConfigs;
    }

    /**
     * `loadAccountsFromFile(filePath)`: a missing or unreadable file answers
     * false and keeps the current list; a parsed list replaces it.
     */
    method LoadAccountsFromFile(file: AccountsFile) returns (ok: bool)
      modifies this`accountConfigs
      ensures ok == file.Parsed?
      ensures accountConfigs == if file.Parsed? then file.configs else old(accountConfigs)
    {
      match file
      case Missing =>
        ok := false;
      case Unreadable(_) =>
        ok := false;
      case Parsed(configs) =>
        accountConfigs := configs;
        ok := true;
    }

    /**
     * `initialize()`: reject an empty list; otherwise append one inactive
     * account, with a new `Application` on its derived config, per entry in
     * order. Earlier accounts stay, so a second call appends the list again.
     */
    method Initialize(base: App.Config) returns (ok: bool)
      modifies this`accounts
      ensures ok == (|accountConfigs| > 0)
      ensures !ok ==> accounts == old(accounts)
      ensures ok ==> Registered(accounts, |old(accounts)|, base, accountConfigs)
      ensures ok ==> accounts[..|old(accounts)|] == old(accounts)
      ensures ok ==> forall j :: |old(accounts)| <= j < |accounts| ==>
        && fresh(accounts[j].app)
        && accounts[j].app.config == accounts[j].config
        && accounts[j].app.logPrefix == accounts[j].name
        && accounts[j].app.phase == App.Created
    {
      if |accountConfigs| == 0 {
        return false;
      }
      var i := 0;
      while i < |accountConfigs|
        invariant 0 <= i <= |accountConfigs|
        invariant Registered(accounts, |old(accounts)|, base, accountConfigs[..i])
        invariant accounts[..|old(accounts)|] == old(accounts)
        invariant forall j :: |old(accounts)| <= j < |accounts| ==>
          && fresh(accounts[j].app)
          && accounts[j].app.config == accounts[j].config
          && accounts[j].app.logPrefix == accounts[j].name
          && accounts[j].app.phase == App.Created
      {
        var ac := accountConfigs[i];
        var name := AccountName(ac, i);
        var appConfig := DeriveConfig(base, ac, i);
        AppPrefixIsName(base, ac, i);
        var app := new App.Application(Some(appConfig), base);
        RegisterNext(accounts, |old(accounts)|, base, accountConfigs, i, app);
        accounts := accounts + [Account(appConfig, app, name, false)];
        i := i + 1;
      }
      assert accountConfigs[..i] == accountConfigs;
      ok := true;
    }

    /**
     * `startAll()`: initialize, throwing when that fails; otherwise launch
     * every account and mark each one active, then wait forever.
     */
    method StartAll(base: App.Config) returns (r: StartOutcome)
      modifies this`accounts
      ensures r.Threw? <==> |accountConfigs| == 0
      ensures r.Threw? ==> r.message == InitFailed && accounts == old(accounts)
      ensures r.Serving? ==>
        && |accounts| == |old(accounts)| + |accountConfigs|
        && (forall j :: 0 <= j < |accounts| ==> accounts[j].active)
        && (forall j :: 0 <= j < |old(accounts)| ==>
              accounts[j] == old(accounts)[j].(active := true))
        && (forall j :: 0 <= j < |accountConfigs| ==>
              var a := accounts[|old(accounts)| + j];
              a.config == DeriveConfig(base, accountConfigs[j], j) && a.name == AccountName(accountConfigs[j], j))
    {
      var initialized := Initialize(base);
      if !initialized {
        return Threw(InitFailed);
      }
      ghost var registered := accounts;
      var i := 0;
      while i < |accounts|
        invariant 0 <= i <= |accounts| == |registered|
        invariant forall j :: 0 <= j < i ==> accounts[j] == registered[j].(active := true)
        invariant forall j :: i <= j < |accounts| ==> accounts[j] == registered[j]
      {
        accounts := accounts[i := accounts[i].(active := true)];
        i := i + 1;
      }
      r := Serving;
      assert forall j :: 0 <= j < |old(accounts)| ==> registered[j] == old(accounts)[j];
    }

    /** `getStatus()`. */
    function GetStatus(): (r: seq<AccountStatus>)
      reads this
      ensures |r| == |accounts|
      ensures forall j :: 0 <= j < |accounts| ==>
        r[j].name == accounts[j].name && r[j].active == accounts[j].active
    {
      Statuses(accounts)
    }
  }
}
