/**
 * The Babel configuration builder of the core package.
 *
 * A zero-argument builder returns one transform configuration per build
 * target. Every configuration lists four presets and eight plugins in a fixed
 * order and asks for compact output; the targets differ only in the options of
 * the preset-env entry, whose `targets` come from a fixed table and whose
 * polyfill options are switched on for the legacy-browser target alone.
 * Babel and its presets and plugins are external: their names and options are
 * kept as opaque strings and values.
 */
module BabelConfig {
  import opened Wrappers

  /** The three build targets. */
  datatype Target = Module | Es5 | Server

  /** The name a target goes by, which is also its key in the builder's result. */
  function Name(t: Target): (s: string)
    ensures s == "module" <==> t == Module
    ensures s == "es5" <==> t == Es5
    ensures s == "server" <==> t == Server
  {
    match t
    case Module => "module"
    case Es5 => "es5"
    case Server => "server"
  }

  /** A preset-env `targets` value: one shape per row of the table. */
  datatype EnvTargets =
    | EsModules(esmodules: bool)
    | Browsers(browsers: seq<string>)
    | Node(node: string)

  /** The browsers-list queries for the legacy-browser target, in order. */
  const Es5Browsers: seq<string> := [
    "and_chr >= 67",
    "and_ff >= 18",
    "and_uc >= 11.8",
    "android >= 67",
    "not android <= 4.4.4",
    "chrome >= 49",
    "edge >= 12",
    "firefox >= 18",
    "ios_saf >= 10",
    "not op_mini all",
    "op_mob >= 46",
    "opera >= 36",
    "safari >= 10",
    "samsung >= 5"
  ]

  /** The module-level `targets` table, looked up by target. */
  function TargetsTable(t: Target): (r: EnvTargets)
    ensures r.EsModules? <==> t == Module
    ensures r.Browsers? <==> t == Es5
    ensures r.Node? <==> t == Server
    ensures r.EsModules? ==> r.esmodules
    ensures r.Browsers? ==> r.browsers == Es5Browsers && |r.browsers| == 14
    ensures r.Node? ==> r.node == "8.10"
  {
    match t
    case Module => EsModules(true)
    case Es5 => Browsers(Es5Browsers)
    case Server => Node("8.10")
  }

  /** The value of a JavaScript expression `c && "s"`: `false` when `c` is
      false, otherwise the string itself. */
  datatype Flag = Off | Str(s: string)

  function AndString(c: bool, s: string): (r: Flag)
    ensures r.Str? <==> c
    ensures r.Str? ==> r.s == s
  {
    if c then Str(s) else Off
  }

  /** The options objects that appear in the configuration. */
  datatype Options =
    | EnvOptions(targets: EnvTargets, useBuiltIns: Flag, corejs: Flag, modules: bool)
    | ReactOptions(runtime: string)
    | InlineEnvOptions(variables: seq<string>)  // the `include` option

  /** A preset or plugin entry: a bare name, or a `[name, options]` pair. */
  datatype Entry = Entry(name: string, options: Option<Options>)

  /** The part of Babel's `TransformOptions` the builder fills in. */
  datatype TransformOptions = TransformOptions(compact: bool, presets: seq<Entry>, plugins: seq<Entry>)

  const PresetNames: seq<string> := [
    "@babel/preset-typescript",
    "@babel/preset-env",
    "@babel/preset-react",
    "@emotion/babel-preset-css-prop"
  ]

  const PluginNames: seq<string> := [
    "babel-plugin-frontity",
    "babel-plugin-macros",
    "@babel/plugin-syntax-dynamic-import",
    "@loadable/babel-plugin",
    "@babel/plugin-proposal-object-rest-spread",
    "@babel/plugin-proposal-class-properties",
    "babel-plugin-lodash",
    "babel-plugin-transform-inline-environment-variables"
  ]

  /** The options of the preset-env entry for target `t`. */
  function EnvOptionsFor(t: Target): (o: Options)
    ensures o.EnvOptions?
    ensures o.targets == TargetsTable(t)
    ensures o.useBuiltIns.Str? <==> t == Es5
    ensures o.corejs.Str? <==> t == Es5
    ensures t == Es5 ==> o.useBuiltIns == Str("entry") && o.corejs == Str("3")
    ensures t != Es5 ==> o.useBuiltIns == Off && o.corejs == Off
    ensures !o.modules
  {
    EnvOptions(TargetsTable(t), AndString(t == Es5, "entry"), AndString(t == Es5, "3"), false)
  }

  /** The inner `getConfig(target)`. */
  function GetConfig(t: Target): (r: TransformOptions)
    ensures r.compact
    ensures |r.presets| == 4 && forall i :: 0 <= i < 4 ==> r.presets[i].name == PresetNames[i]
    ensures r.presets[0].options == None
    ensures r.presets[1].options == Some(EnvOptionsFor(t))
    ensures r.presets[2].options == Some(ReactOptions("automatic"))
    ensures r.presets[3].options == None
    ensures |r.plugins| == 8 && forall i :: 0 <= i < 8 ==> r.plugins[i].name == PluginNames[i]
    ensures forall i :: 0 <= i < 7 ==> r.plugins[i].options == None
    ensures r.plugins[7].options == Some(InlineEnvOptions(["CWD"]))
  {
    var presets := [
      Entry("@babel/preset-typescript", None),
      Entry("@babel/preset-env", Some(EnvOptionsFor(t))),
      Entry("@babel/preset-react", Some(ReactOptions("automatic"))),
      Entry("@emotion/babel-preset-css-prop", None)
    ];
    var plugins := [
      Entry("babel-plugin-frontity", None),
      Entry("babel-plugin-macros", None),
      Entry("@babel/plugin-syntax-dynamic-import", None),
      Entry("@loadable/babel-plugin", None),
      Entry("@babel/plugin-proposal-object-rest-spread", None),
      Entry("@babel/plugin-proposal-class-properties", None),
      Entry("babel-plugin-lodash", None),
      Entry("babel-plugin-transform-inline-environment-variables",
            Some(InlineEnvOptions(["CWD"])))
    ];
    TransformOptions(true, presets, plugins)
  }

  /** The default-exported builder: one configuration per target, keyed by the
      target's name. */
  function Build(): (r: map<string, TransformOptions>)
    ensures r.Keys == {"module", "es5", "server"}
    ensures forall t :: Name(t) in r && r[Name(t)] == GetConfig(t)
  {
    map["module" := GetConfig(Module), "es5" := GetConfig(Es5), "server" := GetConfig(Server)]
  }

  /** Any two targets' configurations agree on everything but the options of
      the preset-env entry; and those options, hence the configurations, differ
      whenever the targets do. */
  lemma {:induction false} ConfigsDifferOnlyInEnvOptions(t1: Target, t2: Target)
    ensures GetConfig(t1).compact == GetConfig(t2).compact
    ensures GetConfig(t1).plugins == GetConfig(t2).plugins
    ensures |GetConfig(t1).presets| == |GetConfig(t2).presets| == 4
    ensures forall i :: 0 <= i < 4 && i != 1 ==> GetConfig(t1).presets[i] == GetConfig(t2).presets[i]
    ensures GetConfig(t1).presets[1].name == GetConfig(t2).presets[1].name
    ensures GetConfig(t1) == GetConfig(t2) <==> t1 == t2
  {
  }
}
