/**
 * The process-wide provider singleton of src/core/Provider.js: a lazily created
 * instance holding one JSON-RPC provider and one wallet, both nullable and
 * both set or overwritten in place.
 *
 * ethers, the file system and the environment are outside the model: what
 * they answer is the `Env` value every operation receives.
 */
module ProviderCore {
  import opened Wrappers
  import JsText

  /** The `ethers.JsonRpcProvider` built from the configured RPC URL. */
  datatype RpcProvider = JsonRpcProvider(url: string)

  /** An `ethers.Wallet`: a signing key, bound to a provider when one was given. */
  datatype Wallet = Wallet(privateKey: string, provider: Option<RpcProvider>)

  /** The file private.key: absent, readable with these contents, or present but failing to read. */
  datatype KeyFile = Absent | Contents(text: string) | ReadFault(message: string)

  /** What the world outside the module answers. */
  datatype Env = Env(
    rpcUrl: string,                     // config.rpcUrl
    rpcFault: Option<string>,           // Some(m): the JsonRpcProvider constructor throws m
    keyFile: KeyFile,                   // private.key
    envKey: Option<string>,             // process.env.PRIVATE_KEY
    rejectedKeys: map<string, string>)  // keys the Wallet constructor throws on, with its message

  /** The errors the module throws; each wrapper adds the source's message prefix. */
  datatype Error =
    | Foreign(message: string)
    | ProviderSetup(cause: Error)
    | DefaultWalletSetup(cause: Error)
    | KeyWalletSetup(cause: Error)

  /** The `message` of a thrown error. */
  function Message(e: Error): string {
    match e
    case Foreign(m) => m
    case ProviderSetup(c) => "Failed to setup provider: " + Message(c)
    case DefaultWalletSetup(c) => "Failed to setup wallet: " + Message(c)
    case KeyWalletSetup(c) => "Failed to setup wallet with provided key: " + Message(c)
  }

  /** The two fields of a `Provider` instance. */
  datatype ProviderState = ProviderState(provider: Option<RpcProvider>, wallet: Option<Wallet>)

  /** What the constructor leaves: both fields null. */
  const Fresh := ProviderState(None, None)

  /** `new ethers.Wallet(key, provider)`. */
  function NewWallet(key: string, p: Option<RpcProvider>, env: Env): Result<Wallet, Error> {
    if key in env.rejectedKeys then Failure(Foreign(env.rejectedKeys[key]))
    else Success(Wallet(key, p))
  }

  /**
   * The key `setupDefaultWallet` reads: the trimmed key file when it exists,
   * else the trimmed variable. An unreadable key file yields none here; the
   * read error is raised before the key is used.
   */
  function DefaultKey(env: Env): Option<string> {
    if env.keyFile.Contents? then Some(JsText.Trim(env.keyFile.text))
    else if env.keyFile.ReadFault? then None
    else if JsText.Truthy(env.envKey) then Some(JsText.Trim(env.envKey.value))
    else None
  }

  /** `setupWallet(key)`: replaces the wallet only when the key is truthy and a provider exists. */
  function SetupWalletSpec(s: ProviderState, key: Option<string>, env: Env): (ProviderState, Outcome<Error>) {
    if JsText.Truthy(key) && s.provider.Some? then
      match NewWallet(key.value, s.provider, env)
      case Success(w) => (s.(wallet := Some(w)), Pass)
      case Failure(e) => (s, Fail(KeyWalletSetup(e)))
    else
      (s, Pass)
  }

  /**
   * `setupDefaultWallet()`: builds a wallet from the default key when there is
   * one; a key file that cannot be read fails the call.
   */
  function SetupDefaultWalletSpec(s: ProviderState, env: Env): (ProviderState, Outcome<Error>) {
    var key := DefaultKey(env);
    if env.keyFile.ReadFault? then
      (s, Fail(DefaultWalletSetup(Foreign(env.keyFile.message))))
    else if JsText.Truthy(key) then
      match NewWallet(key.value, s.provider, env)
      case Success(w) => (s.(wallet := Some(w)), Pass)
      case Failure(e) => (s, Fail(DefaultWalletSetup(e)))
    else
      (s, Pass)
  }

  /**
   * `setupProvider()`: builds the provider, then the default wallet if no wallet
   * is set yet. A failing default wallet leaves the new provider in place.
   */
  function SetupProviderSpec(s: ProviderState, env: Env): (r: (ProviderState, Outcome<Error>))
    ensures env.rpcFault.Some? ==> r.0 == s && r.1.Fail?
    ensures env.rpcFault.None? ==> r.0.provider == Some(JsonRpcProvider(env.rpcUrl))
    ensures s.wallet.Some? ==> r.0.wallet == s.wallet
  {
    match env.rpcFault
    case Some(m) => (s, Fail(ProviderSetup(Foreign(m))))
    case None =>
      var s1 := s.(provider := Some(JsonRpcProvider(env.rpcUrl)));
      if s1.wallet.None? then
        var (s2, o) := SetupDefaultWalletSpec(s1, env);
        (s2, if o.Fail? then Fail(ProviderSetup(o.error)) else Pass)
      else
        (s1, Pass)
  }

  /** `getProvider()`: sets the provider up on first use and returns it. */
  function GetProviderSpec(s: ProviderState, env: Env): (ProviderState, Result<RpcProvider, Error>) {
    if s.provider.None? then
      var (s1, o) := SetupProviderSpec(s, env);
      match o
      case Fail(e) => (s1, Failure(e))
      case Pass => (s1, Success(s1.provider.value))
    else
      (s, Success(s.provider.value))
  }

  /**
   * `Provider.getInstance(key)` on the static instance `inst` (None while it is
   * still null): creates the instance if needed, hands a truthy key to
   * `setupWallet`, then returns `getProvider()`.
   */
  function GetInstanceSpec(inst: Option<ProviderState>, key: Option<string>, env: Env): (ProviderState, Result<RpcProvider, Error>) {
    var s := if inst.None? then Fresh else inst.value;
    if JsText.Truthy(key) then
      var (s1, o) := SetupWalletSpec(s, key, env);
      if o.Fail? then (s1, Failure(o.error)) else GetProviderSpec(s1, env)
    else
      GetProviderSpec(s, env)
  }

  /** A `Provider` instance: its two nullable fields, updated in place. */
  class Provider {
    var provider: Option<RpcProvider>
    var wallet: Option<Wallet>

    function State(): ProviderState
      reads this
    {
      ProviderState(provider, wallet)
    }

    constructor ()
      ensures State() == Fresh
    {
      provider := None;
      wallet := None;
    }

    method SetupWallet(key: Option<string>, env: Env) returns (o: Outcome<Error>)
      modifies this
      ensures (State(), o) == SetupWalletSpec(old(State()), key, env)
    {
      o := Pass;
      if JsText.Truthy(key) && provider.Some? {
        var w := NewWallet(key.value, provider, env);
        if w.Success? {
          wallet := Some(w.value);
        } else {
          o := Fail(KeyWalletSetup(w.error));
        }
      }
    }

    method SetupDefaultWallet(env: Env) returns (o: Outcome<Error>)
      modifies this
      ensures (State(), o) == SetupDefaultWalletSpec(old(State()), env)
    {
      if env.keyFile.ReadFault? {
        return Fail(DefaultWalletSetup(Foreign(env.keyFile.message)));
      }
      o := Pass;
      var key := DefaultKey(env);
      if JsText.Truthy(key) {
        var w := NewWallet(key.value, provider, env);
        if w.Success? {
          wallet := Some(w.value);
        } else {
          o := Fail(DefaultWalletSetup(w.error));
        }
      }
    }

    method SetupProvider(env: Env) returns (o: Outcome<Error>)
      modifies this
      ensures (State(), o) == SetupProviderSpec(old(State()), env)
    {
      if env.rpcFault.Some? {
        return Fail(ProviderSetup(Foreign(env.rpcFault.value)));
      }
      provider := Some(JsonRpcProvider(env.rpcUrl));
      o := Pass;
      if wallet.None? {
        var d := SetupDefaultWallet(env);
        if d.Fail? {
          o := Fail(ProviderSetup(d.error));
        }
      }
    }

    method GetProvider(env: Env) returns (r: Result<RpcProvider, Error>)
      modifies this
      ensures (State(), r) == GetProviderSpec(old(State()), env)
    {
      if provider.None? {
        var o := SetupProvider(env);
        if o.Fail? {
          return Failure(o.error);
        }
      }
      r := Success(provider.value);
    }
  }

  /** The class object itself: it holds the static `Provider.instance`. */
  class ProviderSingleton {
    var instance: Provider?

    /** The static instance's fields, or None while it is null. */
    ghost function Snapshot(): Option<ProviderState>
      reads this, instance
    {
      if instance == null then None else Some(instance.State())
    }

    constructor ()
      ensures instance == null
    {
      instance := null;
    }

    method GetInstance(key: Option<string>, env: Env) returns (r: Result<RpcProvider, Error>)
      modifies this, instance
      ensures instance != null
      ensures old(instance) != null ==> instance == old(instance)
      ensures old(instance) == null ==> fresh(instance)
      ensures (instance.State(), r) == GetInstanceSpec(old(Snapshot()), key, env)
    {
      if instance == null {
        instance := new Provider();
      }
      if JsText.Truthy(key) {
        var o := instance.SetupWallet(key, env);
        if o.Fail? {
          return Failure(o.error);
        }
      }
      r := instance.GetProvider(env);
    }
  }

  // Properties of the lazy initialisation.

  /** A successful `getInstance` returns the instance's provider, which is then set. */
  lemma GetInstanceReturnsProvider(inst: Option<ProviderState>, key: Option<string>, env: Env)
    ensures var (s, r) := GetInstanceSpec(inst, key, env);
      r.Success? ==> s.provider == Some(r.value)
  {
  }

  /** `getInstance` never rebuilds a provider that exists: it is constructed at most once. */
  lemma ProviderBuiltOnce(inst: Option<ProviderState>, key: Option<string>, env: Env)
    requires inst.Some? && inst.value.provider.Some?
    ensures var (s, r) := GetInstanceSpec(inst, key, env);
      s.provider == inst.value.provider && (r.Success? ==> r.value == inst.value.provider.value)
  {
  }

  /** Once a provider exists, every `getInstance` call succeeds or fails only on the key. */
  lemma ProviderSticks(inst: Option<ProviderState>, key: Option<string>, env: Env)
    requires inst.Some? && inst.value.provider.Some?
    ensures var (s, r) := GetInstanceSpec(inst, key, env);
      r.Failure? <==> (JsText.Truthy(key) && key.value in env.rejectedKeys)
  {
  }

  /** `setupWallet` changes nothing when the key is falsy or no provider exists yet. */
  lemma SetupWalletNoop(s: ProviderState, key: Option<string>, env: Env)
    requires !JsText.Truthy(key) || s.provider.None?
    ensures SetupWalletSpec(s, key, env) == (s, Pass)
  {
  }

  /** `setupProvider` installs the default wallet only when no wallet is set yet. */
  lemma SetupProviderKeepsWallet(s: ProviderState, env: Env)
    requires s.wallet.Some?
    ensures SetupProviderSpec(s, env).0.wallet == s.wallet
  {
  }

  /**
   * The key handed to the very first `getInstance` call is ignored: the wallet
   * it leaves is the default one (or none), never one built from that key
   * unless the default key happens to be the same string.
   */
  lemma FirstCallIgnoresKey(key: Option<string>, env: Env)
    ensures var (s, r) := GetInstanceSpec(None, key, env);
      && (s.wallet.Some? ==> DefaultKey(env).Some? && s.wallet.value.privateKey == DefaultKey(env).value)
      && (r.Success? && DefaultKey(env).Some? && JsText.Truthy(DefaultKey(env))
            && DefaultKey(env).value !in env.rejectedKeys
          ==> s.wallet == Some(Wallet(DefaultKey(env).value, Some(r.value))))
  {
    SetupWalletNoop(Fresh, key, env);
    assert GetInstanceSpec(None, key, env) == GetProviderSpec(Fresh, env);
  }

  /** The key file wins over PRIVATE_KEY, even when it holds only white space. */
  lemma KeyFileTakesPrecedence(env: Env)
    requires env.keyFile.Contents?
    ensures DefaultKey(env) == Some(JsText.Trim(env.keyFile.text))
  {
  }

  /**
   * A key file that exists but cannot be read fails the provider's setup with
   * both wrappers' messages, yet leaves the new provider in place: the next
   * `getProvider` returns it without trying the key file again.
   */
  lemma UnreadableKeyFile(s: ProviderState, env: Env)
    requires s.provider.None? && s.wallet.None? && env.rpcFault.None? && env.keyFile.ReadFault?
    ensures var (s1, r) := GetProviderSpec(s, env);
      && r.Failure?
      && Message(r.error) == "Failed to setup provider: Failed to setup wallet: " + env.keyFile.message
      && s1 == ProviderState(Some(JsonRpcProvider(env.rpcUrl)), None)
      && GetProviderSpec(s1, env) == (s1, Success(JsonRpcProvider(env.rpcUrl)))
  {
    var m := env.keyFile.message;
    assert Message(DefaultWalletSetup(Foreign(m))) == "Failed to setup wallet: " + m;
  }

  /** With neither a key file nor a truthy PRIVATE_KEY the default wallet stays null. */
  lemma NoDefaultKeyNoWallet(s: ProviderState, env: Env)
    requires env.keyFile.Absent? && !JsText.Truthy(env.envKey)
    ensures SetupDefaultWalletSpec(s, env) == (s, Pass)
  {
  }

  /**
   * Once the provider exists, a later call with an accepted key replaces the one
   * shared wallet: whoever asked earlier now sees the later key.
   */
  lemma LaterKeyReplacesWallet(inst: Option<ProviderState>, key: Option<string>, env: Env)
    requires inst.Some? && inst.value.provider.Some?
    requires JsText.Truthy(key) && key.value !in env.rejectedKeys
    ensures GetInstanceSpec(inst, key, env)
         == (inst.value.(wallet := Some(Wallet(key.value, inst.value.provider))),
             Success(inst.value.provider.value))
  {
  }

  /**
   * Two accounts in one process: the first account's call creates the provider
   * and ignores its key; after the second account's call the single wallet
   * holds the second key, so the first account signs with it too.
   */
  lemma SharedWalletAcrossAccounts(key1: Option<string>, key2: Option<string>, env: Env)
    requires env.rpcFault.None? && !env.keyFile.ReadFault? && DefaultKey(env).None?
    requires JsText.Truthy(key2) && key2.value !in env.rejectedKeys
    ensures var (s1, r1) := GetInstanceSpec(None, key1, env);
      && r1 == Success(JsonRpcProvider(env.rpcUrl))
      && s1.wallet.None?
      && GetInstanceSpec(Some(s1), key2, env).0.wallet
         == Some(Wallet(key2.value, Some(JsonRpcProvider(env.rpcUrl))))
  {
  }
}
