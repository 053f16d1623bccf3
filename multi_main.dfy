// The entry script multi-main.js: which accounts file to read, the template
// written when it is missing, the key-free summary printed after loading, and
// how the run ends.

module MultiMain {
  import opened Wrappers
  import JsText
  import App
  import Manager

  // ------------------------------------------------------ choosing the file

  /** The two spellings of the accounts option. */
  predicate IsFlag(arg: string) {
    arg == "--accounts" || arg == "-a"
  }

  /** `args.findIndex(arg => arg === '--accounts' || arg === '-a')`: the first flag, or -1. */
  function FindFlag(args: seq<string>): (k: int)
    ensures -1 <= k < |args|
    ensures k >= 0 ==> IsFlag(args[k])
    ensures forall j :: 0 <= j < |args| && (k == -1 || j < k) ==> !IsFlag(args[j])
  {
    if args == [] then -1
    else if IsFlag(args[0]) then 0
    else
      var k := FindFlag(args[1..]);
      if k == -1 then -1 else k + 1
  }

  /** `path.join(__dirname, 'accounts.json')`, without path normalisation. */
  function DefaultPath(scriptDir: string): string {
    scriptDir + "/accounts.json"
  }

  /** The accounts path: the argument after the first flag when there is one, else the default. */
  function AccountsPath(args: seq<string>, scriptDir: string): string {
    var k := FindFlag(args);
    if k != -1 && |args| > k + 1 then args[k + 1] else DefaultPath(scriptDir)
  }

  /** With no flag among the arguments, the default path is used. */
  lemma NoFlagDefaultPath(args: seq<string>, scriptDir: string)
    requires forall j :: 0 <= j < |args| ==> !IsFlag(args[j])
    ensures AccountsPath(args, scriptDir) == DefaultPath(scriptDir)
  {
  }

  /**
   * The argument right after the first flag is the path, whatever follows it,
   * later flags included.
   */
  lemma PathAfterFirstFlag(before: seq<string>, flag: string, path: string, after: seq<string>, scriptDir: string)
    requires IsFlag(flag)
    requires forall j :: 0 <= j < |before| ==> !IsFlag(before[j])
    ensures AccountsPath(before + [flag, path] + after, scriptDir) == path
  {
    var args := before + [flag, path] + after;
    assert args[|before|] == flag;
    assert forall j :: 0 <= j < |before| ==> args[j] == before[j];
    assert FindFlag(args) == |before|;
  }

  /** A flag in last position, with no earlier flag, leaves the default path. */
  lemma TrailingFlagKeepsDefault(before: seq<string>, flag: string, scriptDir: string)
    requires IsFlag(flag)
    requires forall j :: 0 <= j < |before| ==> !IsFlag(before[j])
    ensures AccountsPath(before + [flag], scriptDir) == DefaultPath(scriptDir)
  {
    var args := before + [flag];
    assert args[|before|] == flag;
    assert forall j :: 0 <= j < |before| ==> args[j] == before[j];
    assert FindFlag(args) == |before|;
  }

  // ------------------------------------------------------------ the template

  const PlaceholderKey := "your_private_key_here"
  const PlaceholderAddress := "your_wallet_address_here"

  /** The example accounts file written when none exists. */
  const Template: seq<Manager.AccountConfig> := [
    Manager.AccountConfig(Some("Account 1"), Some(PlaceholderKey), Some(PlaceholderAddress),
                          Some(App.Cycles(10, 43200000))),
    Manager.AccountConfig(Some("Account 2"), Some(PlaceholderKey), Some(PlaceholderAddress),
                          Some(App.Cycles(8, 39600000)))
  ]

  /**
   * The template holds two records whose names are the ones the manager would
   * give those positions anyway, 10 cycles then 12 hours' rest and 8 cycles
   * then 11 hours' rest, and only placeholder keys.
   */
  lemma TemplateShape()
    ensures |Template| == 2
    ensures forall i :: 0 <= i < |Template| ==>
      && Template[i].name == Some(Manager.DefaultName(i))
      && Template[i].privateKey == Some(PlaceholderKey)
      && Template[i].address == Some(PlaceholderAddress)
    ensures Template[0].cycles == Some(App.Cycles(10, 12 * 60 * 60 * 1000))
    ensures Template[1].cycles == Some(App.Cycles(8, 11 * 60 * 60 * 1000))
  {
    assert JsText.NatToString(1) == "1";
    assert JsText.NatToString(2) == "2";
    assert Manager.DefaultName(0) == "Account 1";
    assert Manager.DefaultName(1) == "Account 2";
  }

  // ------------------------------------------------------------- the summary

  /** `{ name, address, cycles }`: an entry with its private key dropped. */
  datatype AccountSummary = AccountSummary(name: Option<string>, address: Option<string>, cycles: Option<App.Cycles>)

  /** `manager.accountConfigs.map(acc => ({ name, address, cycles }))`. */
  function Summarize(configs: seq<Manager.AccountConfig>): seq<AccountSummary> {
    seq(|configs|, i requires 0 <= i < |configs| => AccountSummary(configs[i].name, configs[i].address, configs[i].cycles))
  }

  /** Template-literal rendering of a possibly absent string field. */
  function Shown(s: Option<string>): string {
    if s.Some? then s.value else "undefined"
  }

  /** The console lines: a count, then `${i+1}. ${name} (${address})` per account. */
  function SummaryLines(accounts: seq<AccountSummary>): (lines: seq<string>)
    ensures |lines| == |accounts| + 1
  {
    ["Loaded " + JsText.NatToString(|accounts|) + " accounts:"]
      + seq(|accounts|, i requires 0 <= i < |accounts| =>
              JsText.NatToString(i + 1) + ". " + Shown(accounts[i].name) + " (" + Shown(accounts[i].address) + ")")
  }

  /** `configs` with every private key replaced by the matching one of `keys`. */
  function Rekeyed(configs: seq<Manager.AccountConfig>, keys: seq<Option<string>>): seq<Manager.AccountConfig>
    requires |keys| == |configs|
  {
    seq(|configs|, i requires 0 <= i < |configs| => configs[i].(privateKey := keys[i]))
  }

  /** The summary, and so what is printed, never depends on a private key. */
  lemma SummaryIgnoresKeys(configs: seq<Manager.AccountConfig>, keys: seq<Option<string>>)
    requires |keys| == |configs|
    ensures Summarize(Rekeyed(configs, keys)) == Summarize(configs)
    ensures SummaryLines(Summarize(Rekeyed(configs, keys))) == SummaryLines(Summarize(configs))
  {
    var l := Summarize(Rekeyed(configs, keys));
    var r := Summarize(configs);
    assert forall i :: 0 <= i < |configs| ==> l[i] == r[i];
  }

  // ---------------------------------------------------------------- the run

  /** How `main` ends: `process.exit(code)`, or never, while the accounts run. */
  datatype Ending = Exit(code: int) | Forever

  /** What the file system holds at a path: a path not in `files` does not exist. */
  function FileAt(files: map<string, Manager.AccountsFile>, path: string): Manager.AccountsFile {
    if path in files then files[path] else Manager.Missing
  }

  /** The ending `main` comes to for the file it finds. */
  function MainEnding(file: Manager.AccountsFile): Ending {
    match file
    case Missing => Exit(1)
    case Unreadable(_) => Exit(1)
    case Parsed(configs) => if configs == [] then Exit(1) else Forever
  }

  /** `main` only ever stops with exit code 1; it serves forever exactly when the file lists accounts. */
  lemma MainExitsOnlyWithOne(file: Manager.AccountsFile)
    ensures MainEnding(file) == Forever || MainEnding(file) == Exit(1)
    ensures MainEnding(file) == Forever <==> file.Parsed? && file.configs != []
  {
  }

  /**
   * `main()`: pick the path; when nothing is there, write the template there
   * and exit 1 without creating a manager; otherwise load, print the summary
   * and start every account, exiting 1 when loading or starting throws.
   */
  method RunMain(args: seq<string>, scriptDir: string, files: map<string, Manager.AccountsFile>, base: App.Config)
    returns (ending: Ending, written: Option<(string, seq<Manager.AccountConfig>)>, printed: seq<string>,
             manager: Manager.MultiAccountManager?)
    ensures var path := AccountsPath(args, scriptDir);
      var file := FileAt(files, path);
      && ending == MainEnding(file)
      && (file.Missing? <==> manager == null)
      && written == (if file.Missing? then Some((path, Template)) else None)
      && printed == (if file.Parsed? then SummaryLines(Summarize(file.configs)) else [])
      && (manager != null ==>
            && fresh(manager)
            && manager.accountConfigs == (if file.Parsed? then file.configs else [])
            && |manager.accounts| == |manager.accountConfigs|
            && (ending == Forever ==> forall j :: 0 <= j < |manager.accounts| ==> manager.accounts[j].active))
  {
    var path := AccountsPath(args, scriptDir);
    var file := FileAt(files, path);
    printed := [];
    manager := null;
    if file.Missing? {
      return Exit(1), Some((path, Template)), printed, manager;
    }
    written := None;
    manager := new Manager.MultiAccountManager([]);
    var loaded := manager.LoadAccountsFromFile(file);
    if !loaded {
      return Exit(1), written, printed, manager;
    }
    printed := SummaryLines(Summarize(manager.accountConfigs));
    var started := manager.StartAll(base);
    ending := if started.Threw? then Exit(1) else Forever;
  }
}
