/**
 * `JSONAPI::Authorization::Configuration` and the module-level singleton
 * that holds it.
 *
 * The configuration is a mutable object with two settings: the authorizer
 * class processors instantiate, and how the principal is taken from a
 * request context.  One instance is created when the library loads and
 * `configure` hands out that same instance, so every assignment persists.
 */
module Configuration {
  import opened Outcomes
  import opened Pundit

  /** `config.authorizer`: the class processors instantiate. */
  datatype AuthorizerClass = DefaultPunditAuthorizerClass | CustomAuthorizerClass(name: string)

  /** `config.pundit_user`: a Symbol naming a context key, or a callable given the whole context. */
  datatype PunditUser = Key(name: string) | Callable(call: Context -> Value)

  /** One assignment made through the accessors, e.g. inside a `configure` block. */
  datatype Setting = SetAuthorizer(authorizer: AuthorizerClass) | SetPunditUser(punditUser: PunditUser)

  /** Both settings, as a value. */
  datatype Settings = Settings(authorizer: AuthorizerClass, punditUser: PunditUser)

  const Defaults: Settings := Settings(DefaultPunditAuthorizerClass, Key("user"))

  /** The settings after one assignment. */
  function Assign(current: Settings, s: Setting): Settings
  {
    match s
    case SetAuthorizer(a) => current.(authorizer := a)
    case SetPunditUser(u) => current.(punditUser := u)
  }

  /** The settings after a sequence of assignments, in order. */
  function AssignAll(current: Settings, settings: seq<Setting>): Settings
    decreases |settings|
  {
    if settings == [] then current else AssignAll(Assign(current, settings[0]), settings[1..])
  }

  /** The principal the rule extracts from a context. */
  function UserOf(punditUser: PunditUser, context: Context): Value
  {
    match punditUser
    case Key(name) => Lookup(context, name)
    case Callable(call) => call(context)
  }

  class Config {
    var authorizer: AuthorizerClass
    var punditUser: PunditUser

    function Current(): Settings
      reads this
    {
      Settings(authorizer, punditUser)
    }

    /** `Configuration.new`: the default authorizer and the `:user` key. */
    constructor ()
      ensures Current() == Defaults
      ensures authorizer == DefaultPunditAuthorizerClass && punditUser == Key("user")
    {
      authorizer := DefaultPunditAuthorizerClass;
      punditUser := Key("user");
    }

    /**
     * `user_context(context)`: the context's entry under the configured key
     * (nil when absent), or what the configured callable answers.
     */
    function UserContext(context: Context): (user: Value)
      reads this
      ensures punditUser.Key? ==> user == (if punditUser.name in context then context[punditUser.name] else Nil)
      ensures punditUser.Callable? ==> user == punditUser.call(context)
    {
      UserOf(punditUser, context)
    }

    /** `authorizer=` / `pundit_user=` */
    method Set(s: Setting)
      modifies this
      ensures Current() == Assign(old(Current()), s)
    {
      match s {
        case SetAuthorizer(a) => authorizer := a;
        case SetPunditUser(u) => punditUser := u;
      }
    }
  }

  /** `JSONAPI::Authorization` itself, as the holder of the singleton. */
  class Registry {
    var configuration: Config?

    constructor ()
      ensures configuration == null
    {
      configuration := null;
    }

    /** `@configuration ||= Configuration.new`: created once, then kept. */
    method Load()
      modifies this
      ensures old(configuration) != null ==> configuration == old(configuration)
      ensures old(configuration) == null ==> configuration != null && fresh(configuration) && configuration.Current() == Defaults
    {
      if configuration == null {
        configuration := new Config();
      }
    }

    /** `configure { |config| ... }`: the block's assignments, applied in order to the one configuration object. */
    method Configure(settings: seq<Setting>)
      requires configuration != null
      modifies configuration
      ensures configuration == old(configuration)
      ensures configuration.Current() == AssignAll(old(configuration.Current()), settings)
    {
      var config := configuration;
      var i := 0;
      while i < |settings|
        invariant 0 <= i <= |settings|
        invariant AssignAll(old(config.Current()), settings) == AssignAll(config.Current(), settings[i..])
      {
        assert settings[i..][1..] == settings[i + 1..];
        config.Set(settings[i]);
        i := i + 1;
      }
    }
  }

  // ---------------------------------------------------------------------
  // Properties
  // ---------------------------------------------------------------------

  /** Assignments that never touch the principal rule leave it as it was. */
  lemma {:induction false} UntouchedPunditUser(current: Settings, settings: seq<Setting>)
    requires forall k :: 0 <= k < |settings| ==> !settings[k].SetPunditUser?
    ensures AssignAll(current, settings).punditUser == current.punditUser
    decreases |settings|
  {
    if settings != [] {
      UntouchedPunditUser(Assign(current, settings[0]), settings[1..]);
    }
  }

  /** Assignments that never touch the authorizer class leave it as it was. */
  lemma {:induction false} UntouchedAuthorizer(current: Settings, settings: seq<Setting>)
    requires forall k :: 0 <= k < |settings| ==> !settings[k].SetAuthorizer?
    ensures AssignAll(current, settings).authorizer == current.authorizer
    decreases |settings|
  {
    if settings != [] {
      UntouchedAuthorizer(Assign(current, settings[0]), settings[1..]);
    }
  }

  /** The principal rule assigned last is the one in force, whatever came before. */
  lemma LastPunditUserWins(current: Settings, before: seq<Setting>, u: PunditUser, after: seq<Setting>)
    requires forall k :: 0 <= k < |after| ==> !after[k].SetPunditUser?
    ensures AssignAll(current, before + [SetPunditUser(u)] + after).punditUser == u
  {
    ConfigureComposes(current, before + [SetPunditUser(u)], after);
    ConfigureComposes(current, before, [SetPunditUser(u)]);
    UntouchedPunditUser(AssignAll(current, before + [SetPunditUser(u)]), after);
  }

  /** The authorizer class assigned last is the one in force, whatever came before. */
  lemma LastAuthorizerWins(current: Settings, before: seq<Setting>, a: AuthorizerClass, after: seq<Setting>)
    requires forall k :: 0 <= k < |after| ==> !after[k].SetAuthorizer?
    ensures AssignAll(current, before + [SetAuthorizer(a)] + after).authorizer == a
  {
    ConfigureComposes(current, before + [SetAuthorizer(a)], after);
    ConfigureComposes(current, before, [SetAuthorizer(a)]);
    UntouchedAuthorizer(AssignAll(current, before + [SetAuthorizer(a)]), after);
  }

  /** The `pundit_user` a sequence of assignments sets last, if it sets one. */
  function LastPunditUser(settings: seq<Setting>): (u: Option<PunditUser>)
    ensures u.None? <==> forall k :: 0 <= k < |settings| ==> !settings[k].SetPunditUser?
    ensures u.Some? ==>
      exists i :: 0 <= i < |settings| && settings[i] == SetPunditUser(u.value)
        && forall j :: i < j < |settings| ==> !settings[j].SetPunditUser?
    decreases |settings|
  {
    if settings == [] then None
    else if settings[|settings| - 1].SetPunditUser? then Some(settings[|settings| - 1].punditUser)
    else LastPunditUser(settings[..|settings| - 1])
  }

  /** After a sequence of assignments, `pundit_user` is the one set last, or the one before them when none sets it. */
  lemma AssignAllPunditUser(current: Settings, settings: seq<Setting>)
    ensures LastPunditUser(settings).None? ==> AssignAll(current, settings).punditUser == current.punditUser
    ensures LastPunditUser(settings).Some? ==> AssignAll(current, settings).punditUser == LastPunditUser(settings).value
  {
    var last := LastPunditUser(settings);
    if last.None? {
      UntouchedPunditUser(current, settings);
    } else {
      var i :| 0 <= i < |settings| && settings[i] == SetPunditUser(last.value)
        && forall j :: i < j < |settings| ==> !settings[j].SetPunditUser?;
      var after := settings[i + 1..];
      assert forall k :: 0 <= k < |after| ==> after[k] == settings[i + 1 + k];
      assert settings == settings[..i] + [SetPunditUser(last.value)] + after;
      LastPunditUserWins(current, settings[..i], last.value, after);
    }
  }

  /** Two `configure` blocks in a row act as one block with both assignments. */
  lemma {:induction false} ConfigureComposes(current: Settings, first: seq<Setting>, second: seq<Setting>)
    ensures AssignAll(AssignAll(current, first), second) == AssignAll(current, first + second)
    decreases |first|
  {
    if first != [] {
      var next := Assign(current, first[0]);
      ConfigureComposes(next, first[1..], second);
      assert (first + second)[0] == first[0];
      assert (first + second)[1..] == first[1..] + second;
      assert AssignAll(current, first + second) == AssignAll(next, first[1..] + second);
      assert AssignAll(current, first) == AssignAll(next, first[1..]);
    } else {
      assert first + second == second;
    }
  }

  /**
   * Loading twice keeps the object the first load made or found, settings
   * included: the second load creates nothing.
   */
  method LoadIsIdempotent(r: Registry) returns (first: Config, second: Config)
    modifies r
    ensures first == second && r.configuration == first
    ensures old(r.configuration) != null ==> first == old(r.configuration) && first.Current() == old(r.configuration.Current())
    ensures old(r.configuration) == null ==> fresh(first) && first.Current() == Defaults
  {
    r.Load();
    first := r.configuration;
    r.Load();
    second := r.configuration;
  }

  /**
   * The library loaded, then configured: `user_context` on the one
   * configuration object reads the context key, or calls the callable, that
   * the block assigned to `pundit_user` last; when the block assigns none it
   * reads the context's `user` entry.
   */
  method UserContextAfterConfigure(settings: seq<Setting>, context: Context) returns (user: Value)
    ensures LastPunditUser(settings).None? ==> user == Lookup(context, "user")
    ensures LastPunditUser(settings).Some? && LastPunditUser(settings).value.Key? ==>
      user == Lookup(context, LastPunditUser(settings).value.name)
    ensures LastPunditUser(settings).Some? && LastPunditUser(settings).value.Callable? ==>
      user == LastPunditUser(settings).value.call(context)
  {
    var registry := new Registry();
    registry.Load();
    registry.Configure(settings);
    AssignAllPunditUser(Defaults, settings);
    user := registry.configuration.UserContext(context);
  }
}
