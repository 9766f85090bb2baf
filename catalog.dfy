/** The built-in settings catalog that environment.rb registers into the process-wide
    settings registry when it is loaded, and the registry itself seen as the ordered list
    of registered settings. */
module Catalog {

  /** The declared type of a setting (the class given to Setting.new, or the setting's own
      subclass). */
  datatype SettingType = StringType | BooleanType | NumericType | ArrayType | ExistingFilePathType

  /** A setting value as the settings layer holds it; `Nil` is Ruby's nil. */
  datatype Value = Nil | Str(s: string) | Bool(b: bool) | Num(n: int) | List(items: seq<string>)

  datatype Setting = Setting(name: string, kind: SettingType, default: Value, strict: bool)

  /** Ruby's truthiness: everything but nil and false. */
  predicate Truthy(v: Value)
  {
    v != Nil && v != Bool(false)
  }

  /** Whether a value is of a declared type. */
  predicate Conforms(v: Value, kind: SettingType)
  {
    match kind
    case StringType => v.Str?
    case BooleanType => v.Bool?
    case NumericType => v.Num?
    case ArrayType => v.List?
    case ExistingFilePathType => v.Str?
  }

  /** `Setting.new(name, klass, default = nil, strict = true)`. */
  function NewSetting(name: string, kind: SettingType, default: Value := Nil, strict: bool := true): Setting
  {
    Setting(name, kind, default, strict)
  }

  /** `BooleanSetting.new(name, default, strict = true)`. */
  function NewBooleanSetting(name: string, default: bool, strict: bool := true): Setting
  {
    Setting(name, BooleanType, Bool(default), strict)
  }

  /** `ExistingFilePathSetting.new(name, default, strict = true)`. */
  function NewExistingFilePathSetting(name: string, default: Value, strict: bool := true): Setting
  {
    Setting(name, ExistingFilePathType, default, strict)
  }

  /** The names registered as lenient (strictness flag false). */
  const LenientNames: set<string> := {"config.path", "config.string", "ruby_shell", "log.path"}

  /** The catalog, in registration order. The host name and the CPU core count are the
      two defaults computed from the host when the file is loaded. */
  function Catalog(hostname: string, cpuCores: int): (c: seq<Setting>)
  {
    [
      NewSetting("node.name", StringType, Str(hostname)),
      NewBooleanSetting("config.allow_env", false),
      NewExistingFilePathSetting("config.path", Nil, false),
      NewSetting("config.string", StringType, Nil, false),
      NewBooleanSetting("config.test", false),
      NewBooleanSetting("config.auto_reload", false),
      NewSetting("config.reload_interval", NumericType, Num(3)),
      NewBooleanSetting("metric.collect", false),
      NewSetting("pipeline.id", StringType, Str("main")),
      NewSetting("pipeline.workers", NumericType, Num(cpuCores)),
      NewSetting("pipeline.output.workers", NumericType, Num(1)),
      NewSetting("pipeline.batch.size", NumericType, Num(125)),
      NewSetting("pipeline.batch.delay", NumericType, Num(5)),
      NewBooleanSetting("pipeline.unsafe_shutdown", false),
      NewSetting("plugin.paths", ArrayType, List([])),
      NewSetting("ruby_shell", StringType, Nil, false),
      NewBooleanSetting("debug", false),
      NewBooleanSetting("debug.config", false),
      NewBooleanSetting("verbose", false),
      NewBooleanSetting("quiet", false),
      NewBooleanSetting("version", false),
      NewBooleanSetting("help", false),
      NewSetting("log.path", StringType, Nil, false),
      NewSetting("web_api.http.host", StringType, Str("127.0.0.1")),
      NewSetting("web_api.http.port", NumericType, Num(9600))
    ]
  }

  lemma CatalogSize(hostname: string, cpuCores: int)
    ensures |Catalog(hostname, cpuCores)| == 25
  {
  }

  /** Every boolean setting of the catalog defaults to false. */
  lemma BooleansDefaultFalse(hostname: string, cpuCores: int)
    ensures var c := Catalog(hostname, cpuCores);
      forall i :: 0 <= i < |c| ==> (c[i].kind == BooleanType ==> c[i].default == Bool(false))
  {
  }

  /** A setting is lenient exactly when it has no default, and exactly when it is one of
      the four lenient names. */
  lemma LenientExactlyWithoutDefault(hostname: string, cpuCores: int)
    ensures var c := Catalog(hostname, cpuCores);
      forall i :: 0 <= i < |c| ==> (!c[i].strict <==> c[i].default == Nil)
    ensures var c := Catalog(hostname, cpuCores);
      forall i :: 0 <= i < |c| ==> (!c[i].strict <==> c[i].name in LenientNames)
  {
  }

  /** Every default that is present is of its setting's declared type. */
  lemma DefaultsConform(hostname: string, cpuCores: int)
    ensures var c := Catalog(hostname, cpuCores);
      forall i :: 0 <= i < |c| ==> (c[i].default != Nil ==> Conforms(c[i].default, c[i].kind))
  {
  }

  predicate NamesDistinct(c: seq<Setting>)
  {
    forall i, j :: 0 <= i < j < |c| ==> c[i].name != c[j].name
  }

  lemma DistinctAppend(c: seq<Setting>, s: Setting)
    requires NamesDistinct(c)
    requires forall i :: 0 <= i < |c| ==> c[i].name != s.name
    ensures NamesDistinct(c + [s])
  {
    forall i, j | 0 <= i < j < |c| + 1
      ensures (c + [s])[i].name != (c + [s])[j].name
    {
      if j == |c| {
        assert (c + [s])[i] == c[i];
      }
    }
  }

  /** The name registered at position `k` differs from every name registered before it,
      in four ranges of `k` so that each proof stays small. */
  lemma NameFreshLow(hostname: string, cpuCores: int, k: int)
    requires 0 <= k < 12
    ensures var c := Catalog(hostname, cpuCores);
      forall i :: 0 <= i < k ==> c[i].name != c[k].name
  {
  }

  lemma NameFreshMid(hostname: string, cpuCores: int, k: int)
    requires 12 <= k < 18
    ensures var c := Catalog(hostname, cpuCores);
      forall i :: 0 <= i < k ==> c[i].name != c[k].name
  {
  }

  lemma NameFreshHigh(hostname: string, cpuCores: int, k: int)
    requires 18 <= k < 22
    ensures var c := Catalog(hostname, cpuCores);
      forall i :: 0 <= i < k ==> c[i].name != c[k].name
  {
  }

  lemma NameFreshTop(hostname: string, cpuCores: int, k: int)
    requires 22 <= k < 25
    ensures var c := Catalog(hostname, cpuCores);
      forall i :: 0 <= i < k ==> c[i].name != c[k].name
  {
  }

  /** No name is registered twice. */
  lemma CatalogNamesDistinct(hostname: string, cpuCores: int)
    ensures NamesDistinct(Catalog(hostname, cpuCores))
  {
    var c := Catalog(hostname, cpuCores);
    var k := 0;
    while k < |c|
      invariant 0 <= k <= |c|
      invariant NamesDistinct(c[..k])
    {
      if k < 12 {
        NameFreshLow(hostname, cpuCores, k);
      } else if k < 18 {
        NameFreshMid(hostname, cpuCores, k);
      } else if k < 22 {
        NameFreshHigh(hostname, cpuCores, k);
      } else {
        NameFreshTop(hostname, cpuCores, k);
      }
      DistinctAppend(c[..k], c[k]);
      assert c[..k + 1] == c[..k] + [c[k]];
      k := k + 1;
    }
    assert c[..k] == c;
  }

  /** `get_default` for every registered name: the defaults keyed by name. */
  function Defaults(c: seq<Setting>): map<string, Value>
  {
    if c == [] then map[]
    else Defaults(c[..|c| - 1])[c[|c| - 1].name := c[|c| - 1].default]
  }

  /** The names with a default are exactly the registered names. */
  lemma {:induction false} DefaultsDomain(c: seq<Setting>)
    ensures forall name :: name in Defaults(c) <==> exists i :: 0 <= i < |c| && c[i].name == name
  {
    if c != [] {
      var init := c[..|c| - 1];
      DefaultsDomain(init);
      forall name | name in Defaults(c)
        ensures exists i :: 0 <= i < |c| && c[i].name == name
      {
        if name != c[|c| - 1].name {
          assert name in Defaults(init);
          var i :| 0 <= i < |init| && init[i].name == name;
          assert c[i] == init[i];
        }
      }
      forall i | 0 <= i < |c|
        ensures c[i].name in Defaults(c)
      {
        if i < |c| - 1 {
          assert init[i] == c[i];
        }
      }
    }
  }

  /** The default found under a setting's name is that setting's own, when no later
      setting has the same name (in particular when all names are distinct). */
  lemma {:induction false} DefaultAt(c: seq<Setting>, i: int)
    requires 0 <= i < |c|
    requires forall j :: i < j < |c| ==> c[j].name != c[i].name
    ensures c[i].name in Defaults(c) && Defaults(c)[c[i].name] == c[i].default
  {
    if i < |c| - 1 {
      var init := c[..|c| - 1];
      assert init[i] == c[i];
      DefaultAt(init, i);
    }
  }

  /** Each registered setting's default is the one found under its name. */
  lemma CatalogDefault(hostname: string, cpuCores: int, i: int)
    requires 0 <= i < 25
    ensures var c := Catalog(hostname, cpuCores);
      c[i].name in Defaults(c) && Defaults(c)[c[i].name] == c[i].default
  {
    CatalogNamesDistinct(hostname, cpuCores);
    DefaultAt(Catalog(hostname, cpuCores), i);
  }

  /** The concrete defaults of the pipeline identity and worker settings. */
  lemma PipelineDefaults(hostname: string, cpuCores: int)
    ensures var d := Defaults(Catalog(hostname, cpuCores));
      && "pipeline.id" in d && d["pipeline.id"] == Str("main")
      && "pipeline.workers" in d && d["pipeline.workers"] == Num(cpuCores)
      && "pipeline.output.workers" in d && d["pipeline.output.workers"] == Num(1)
  {
    CatalogDefault(hostname, cpuCores, 8);
    CatalogDefault(hostname, cpuCores, 9);
    CatalogDefault(hostname, cpuCores, 10);
  }

  /** The concrete defaults of the batch settings. */
  lemma BatchDefaults(hostname: string, cpuCores: int)
    ensures var d := Defaults(Catalog(hostname, cpuCores));
      && "pipeline.batch.size" in d && d["pipeline.batch.size"] == Num(125)
      && "pipeline.batch.delay" in d && d["pipeline.batch.delay"] == Num(5)
  {
    CatalogDefault(hostname, cpuCores, 11);
    CatalogDefault(hostname, cpuCores, 12);
  }

  /** The concrete defaults of the node, reload, plugin and web API settings. */
  lemma ServiceDefaults(hostname: string, cpuCores: int)
    ensures var d := Defaults(Catalog(hostname, cpuCores));
      && "node.name" in d && d["node.name"] == Str(hostname)
      && "config.reload_interval" in d && d["config.reload_interval"] == Num(3)
      && "plugin.paths" in d && d["plugin.paths"] == List([])
      && "web_api.http.host" in d && d["web_api.http.host"] == Str("127.0.0.1")
      && "web_api.http.port" in d && d["web_api.http.port"] == Num(9600)
  {
    CatalogDefault(hostname, cpuCores, 0);
    CatalogDefault(hostname, cpuCores, 6);
    CatalogDefault(hostname, cpuCores, 14);
    CatalogDefault(hostname, cpuCores, 23);
    CatalogDefault(hostname, cpuCores, 24);
  }

  /** `config.path`, `config.string`, `ruby_shell` and `log.path` are registered, lenient,
      and without a default. */
  lemma LenientSettingsHaveNoDefault(hostname: string, cpuCores: int)
    ensures var c := Catalog(hostname, cpuCores);
      forall name :: name in LenientNames ==>
        exists i :: 0 <= i < |c| && c[i].name == name && !c[i].strict && c[i].default == Nil
  {
    var c := Catalog(hostname, cpuCores);
    assert c[2].name == "config.path" && c[3].name == "config.string";
    assert c[15].name == "ruby_shell" && c[22].name == "log.path";
  }

  /** The process-wide settings registry, as the settings it holds in registration order. */
  class Registry {
    var entries: seq<Setting>

    ghost predicate Valid()
      reads this
    {
      NamesDistinct(entries)
    }

    constructor ()
      ensures Valid() && entries == []
    {
      entries := [];
    }

    /** `register`: add one setting. A name may be registered once only; what the
        registry does with a second registration is not part of this model. */
    method Register(s: Setting)
      requires Valid()
      requires forall i :: 0 <= i < |entries| ==> entries[i].name != s.name
      modifies this
      ensures Valid()
      ensures entries == old(entries) + [s]
    {
      DistinctAppend(entries, s);
      entries := entries + [s];
    }
  }

  /** The `each { |setting| SETTINGS.register(setting) }` loop: register a list in order. */
  method RegisterAll(registry: Registry, settings: seq<Setting>)
    requires registry.Valid()
    requires NamesDistinct(registry.entries + settings)
    modifies registry
    ensures registry.Valid()
    ensures registry.entries == old(registry.entries) + settings
  {
    var k := 0;
    while k < |settings|
      invariant 0 <= k <= |settings|
      invariant registry.Valid()
      invariant registry.entries == old(registry.entries) + settings[..k]
    {
      ghost var all := old(registry.entries) + settings;
      assert forall i :: 0 <= i < |registry.entries| ==> registry.entries[i] == all[i];
      assert settings[k] == all[|old(registry.entries)| + k];
      registry.Register(settings[k]);
      assert settings[..k + 1] == settings[..k] + [settings[k]];
      k := k + 1;
    }
    assert settings[..k] == settings;
  }

  /** Loading environment.rb: the empty global registry receives the whole catalog. */
  method RegisterCatalog(registry: Registry, hostname: string, cpuCores: int)
    requires registry.Valid() && registry.entries == []
    modifies registry
    ensures registry.Valid()
    ensures registry.entries == Catalog(hostname, cpuCores)
  {
    CatalogNamesDistinct(hostname, cpuCores);
    assert [] + Catalog(hostname, cpuCores) == Catalog(hostname, cpuCores);
    RegisterAll(registry, Catalog(hostname, cpuCores));
  }
}
