/**
 * The Vite configuration helpers for plugins (dist/utils/vite-config.js):
 * the base configuration with the `@core` aliases, and the merge of a
 * plugin's own configuration over it. Configurations are JavaScript values;
 * `path.resolve` is an input (the resolved SDK contracts directory, which
 * carries no trailing separator) and `defineConfig` is the identity.
 */
module ViteConfig {
  import opened Common
  import opened Js

  /** `path.join(dir, name)` for a resolved directory and a plain name */
  function Join(dir: string, name: string): string {
    dir + "/" + name
  }

  /** The alias table of the base configuration */
  function CoreAliases(sdkPath: string): (m: map<string, Value>)
    ensures m.Keys == {"@core", "@core/frontend", "@core/backend"}
    ensures m["@core"] == Str(sdkPath)
    ensures m["@core/frontend"] == Str(Join(sdkPath, "frontend")) && m["@core/backend"] == Str(Join(sdkPath, "backend"))
  {
    map["@core" := Str(sdkPath), "@core/frontend" := Str(Join(sdkPath, "frontend")), "@core/backend" := Str(Join(sdkPath, "backend"))]
  }

  /** `getPluginViteConfig(pluginDir)`, given the resolved `sdkPath` */
  function GetPluginViteConfig(sdkPath: string): (v: Value)
    ensures v.Obj? && v.fields.Keys == {"resolve"}
    ensures Get(v, "resolve") == Obj(map["alias" := Obj(CoreAliases(sdkPath))])
  {
    Obj(map["resolve" := Obj(map["alias" := Obj(CoreAliases(sdkPath))])])
  }

  /** The two-level merge of `createPluginViteConfig`, for any base and custom configuration */
  function MergeConfig(base: Value, custom: Value): (r: Value)
    ensures r.Obj? && "resolve" in r.fields
    ensures r.fields.Keys == Spread(base).Keys + Spread(custom).Keys + {"resolve"}
    ensures forall k :: k in Spread(custom) && k != "resolve" ==> r.fields[k] == Spread(custom)[k]
    ensures forall k :: k in Spread(base) && k !in Spread(custom) && k != "resolve" ==> r.fields[k] == Spread(base)[k]
  {
    var alias := Spread(Get(Get(base, "resolve"), "alias")) + Spread(Get(Get(custom, "resolve"), "alias"));
    var resolve := (Spread(Get(base, "resolve")) + Spread(Get(custom, "resolve")))["alias" := Obj(alias)];
    Obj((Spread(base) + Spread(custom))["resolve" := Obj(resolve)])
  }

  /** Inside `resolve`, custom keys win except `alias`, which is the union of both alias tables with custom entries winning */
  lemma MergeResolve(base: Value, custom: Value)
    ensures var resolve := Get(MergeConfig(base, custom), "resolve");
      resolve.Obj?
      && resolve.fields.Keys == Spread(Get(base, "resolve")).Keys + Spread(Get(custom, "resolve")).Keys + {"alias"}
      && (forall k :: k in Spread(Get(custom, "resolve")) && k != "alias" ==> resolve.fields[k] == Spread(Get(custom, "resolve"))[k])
      && (forall k :: k in Spread(Get(base, "resolve")) && k !in Spread(Get(custom, "resolve")) && k != "alias" ==>
            resolve.fields[k] == Spread(Get(base, "resolve"))[k])
  {
  }

  /** The merged alias table */
  lemma MergeAlias(base: Value, custom: Value)
    ensures var ba := Spread(Get(Get(base, "resolve"), "alias"));
      var ca := Spread(Get(Get(custom, "resolve"), "alias"));
      var alias := Get(Get(MergeConfig(base, custom), "resolve"), "alias");
      alias.Obj? && alias.fields.Keys == ba.Keys + ca.Keys
      && (forall k :: k in ca ==> alias.fields[k] == ca[k])
      && (forall k :: k in ba && k !in ca ==> alias.fields[k] == ba[k])
  {
  }

  /** `createPluginViteConfig(pluginDir, customConfig = {})`; None where reading `customConfig.resolve` throws (a `null` config) */
  function CreatePluginViteConfig(sdkPath: string, customConfig: Value): (r: Option<Value>)
    ensures r.None? <==> customConfig.Null?
    ensures r.Some? ==> r.value == MergeConfig(GetPluginViteConfig(sdkPath), if customConfig.Undefined? then Obj(map[]) else customConfig)
  {
    if customConfig.Null? then None
    else Some(MergeConfig(GetPluginViteConfig(sdkPath), if customConfig.Undefined? then Obj(map[]) else customConfig))
  }

  /** Without a custom configuration the result is the base configuration */
  lemma NoCustomConfigIsBase(sdkPath: string)
    ensures CreatePluginViteConfig(sdkPath, Undefined) == Some(GetPluginViteConfig(sdkPath))
  {
    var base := GetPluginViteConfig(sdkPath);
    var r := MergeConfig(base, Obj(map[]));
    var aliases := CoreAliases(sdkPath);
    var empty: map<string, Value> := map[];
    assert Spread(Get(Get(Obj(empty), "resolve"), "alias")) == empty;
    assert aliases + empty == aliases;
    assert map["alias" := Obj(aliases)] + empty == map["alias" := Obj(aliases)];
    assert Get(r, "resolve") == Get(base, "resolve");
    assert r.fields == base.fields;
  }

  /** A plugin may add aliases or redirect one of the `@core` aliases; the others stay */
  lemma CoreAliasesSurvive(sdkPath: string, custom: Value, name: string)
    requires !custom.Null? && name in CoreAliases(sdkPath)
    requires !(name in Spread(Get(Get(custom, "resolve"), "alias")))
    ensures Get(Get(Get(CreatePluginViteConfig(sdkPath, custom).value, "resolve"), "alias"), name) == CoreAliases(sdkPath)[name]
  {
    var c := if custom.Undefined? then Obj(map[]) else custom;
    MergeAlias(GetPluginViteConfig(sdkPath), c);
  }
}
