/** Plugin dispatch: a plugin claims a call either by the class the called function belongs to or by
    a prefix of the function's name, and the first plugin in registration order that claims it wins. */
module Plugin {
  import opened Wrappers

  /** What `select_plugin` asks of a plugin: its class names and its function-name prefix, each of
      which may be absent. */
  datatype PluginSpec = PluginSpec(name: string, classNames: Option<seq<string>>, functionNamePrefix: Option<string>)

  /** The curl plugin claims every function whose name starts with `curl_`. */
  const CURL_PLUGIN: PluginSpec := PluginSpec("curl", None, Some("curl_"))

  /** `PLUGINS`: the registered plugins, in order. */
  const PLUGINS: seq<PluginSpec> := [CURL_PLUGIN]

  /** The class test: there is a class name and it is in the plugin's list. */
  predicate ClassMatches(plugin: PluginSpec, className: Option<string>) {
    className.Some? && plugin.classNames.Some? && className.value in plugin.classNames.value
  }

  /** The prefix test, which does not look at the class. */
  predicate PrefixMatches(plugin: PluginSpec, functionName: string) {
    plugin.functionNamePrefix.Some? && plugin.functionNamePrefix.value <= functionName
  }

  predicate Matches(plugin: PluginSpec, className: Option<string>, functionName: string) {
    ClassMatches(plugin, className) || PrefixMatches(plugin, functionName)
  }

  /** `select_plugin`: the position of the first plugin that claims the call, or `None` when none
      does. */
  method SelectPlugin(plugins: seq<PluginSpec>, className: Option<string>, functionName: string)
    returns (selected: Option<nat>)
    ensures selected.Some? ==> selected.value < |plugins| && Matches(plugins[selected.value], className, functionName)
    ensures selected.Some? ==> forall j :: 0 <= j < selected.value ==> !Matches(plugins[j], className, functionName)
    ensures selected.None? <==> forall j :: 0 <= j < |plugins| ==> !Matches(plugins[j], className, functionName)
  {
    selected := None;
    for i := 0 to |plugins|
      invariant forall j :: 0 <= j < i ==> !Matches(plugins[j], className, functionName)
    {
      var plugin := plugins[i];
      if className.Some? {
        if plugin.classNames.Some? {
          if className.value in plugin.classNames.value {
            selected := Some(i);
            break;
          }
        }
      }
      if plugin.functionNamePrefix.Some? {
        if plugin.functionNamePrefix.value <= functionName {
          selected := Some(i);
          break;
        }
      }
    }
  }

  /** With the registered plugins, a call is claimed exactly when the function name starts with
      `curl_`, whatever its class. */
  method SelectRegistered(className: Option<string>, functionName: string) returns (selected: Option<PluginSpec>)
    ensures selected.Some? <==> "curl_" <= functionName
    ensures selected.Some? ==> selected.value == CURL_PLUGIN
  {
    var index := SelectPlugin(PLUGINS, className, functionName);
    assert Matches(PLUGINS[0], className, functionName) <==> "curl_" <= functionName;
    match index
    case None => selected := None;
    case Some(i) => selected := Some(PLUGINS[i]);
  }
}
