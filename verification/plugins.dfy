/**
 The plugin list of the server control page and its on/off buttons.
 */
module Plugins {

  datatype Plugin = Plugin(name: string, version: string, enabled: bool, description: string)

  const InitialPlugins: seq<Plugin> := [
    Plugin("EssentialsX", "2.20.1", true, "Основные команды и функции"),
    Plugin("WorldEdit", "7.2.15", true, "Редактор мира"),
    Plugin("LuckPerms", "5.4.102", true, "Система прав")
  ]

  /** `togglePlugin(name)`: inverts the `enabled` flag of every plugin called
      `name`; every other field, every other plugin, and the order stay. */
  function TogglePlugin(plugins: seq<Plugin>, name: string): (r: seq<Plugin>)
    ensures |r| == |plugins|
    ensures forall i :: 0 <= i < |r| ==>
      && r[i].name == plugins[i].name
      && r[i].version == plugins[i].version
      && r[i].description == plugins[i].description
      && (r[i].enabled <==> (if plugins[i].name == name then !plugins[i].enabled
                                                          else plugins[i].enabled))
  {
    if plugins == [] then []
    else
      var p := plugins[0];
      [if p.name == name then p.(enabled := !p.enabled) else p] + TogglePlugin(plugins[1..], name)
  }

  predicate HasPlugin(plugins: seq<Plugin>, name: string) {
    exists i :: 0 <= i < |plugins| && plugins[i].name == name
  }

  /** The page's three plugins have distinct names, as the enabled-count lemma
      below requires. */
  lemma InitialPluginsDistinct()
    ensures forall i, j :: 0 <= i < j < |InitialPlugins| ==> InitialPlugins[i].name != InitialPlugins[j].name
  {
  }

  /** Toggling a name that no plugin has changes nothing, and a toggle that
      changes nothing means no plugin had that name. */
  lemma ToggleUnchangedIffAbsent(plugins: seq<Plugin>, name: string)
    ensures TogglePlugin(plugins, name) == plugins <==> !HasPlugin(plugins, name)
  {
  }

  /** Two clicks on the same plugin's button restore the list. */
  lemma ToggleTwiceIsIdentity(plugins: seq<Plugin>, name: string)
    ensures TogglePlugin(TogglePlugin(plugins, name), name) == plugins
  {
  }

  /** Toggles of different plugins do not interfere: their order is irrelevant. */
  lemma TogglesCommute(plugins: seq<Plugin>, a: string, b: string)
    ensures TogglePlugin(TogglePlugin(plugins, a), b) == TogglePlugin(TogglePlugin(plugins, b), a)
  {
  }

  /** How many plugins are enabled. */
  function EnabledCount(plugins: seq<Plugin>): nat {
    if plugins == [] then 0
    else (if plugins[0].enabled then 1 else 0) + EnabledCount(plugins[1..])
  }

  /** On a list whose names are distinct (as on the page), one toggle changes
      the number of enabled plugins by exactly one when the name is present. */
  lemma {:induction false} ToggleChangesEnabledCountByOne(plugins: seq<Plugin>, name: string, k: nat)
    requires k < |plugins| && plugins[k].name == name
    requires forall i :: 0 <= i < |plugins| && i != k ==> plugins[i].name != name
    ensures var r := TogglePlugin(plugins, name);
            EnabledCount(r) == if plugins[k].enabled then EnabledCount(plugins) - 1
                               else EnabledCount(plugins) + 1
  {
    var r := TogglePlugin(plugins, name);
    assert r[1..] == TogglePlugin(plugins[1..], name);
    if k == 0 {
      ToggleUnchangedIffAbsent(plugins[1..], name);
      assert !HasPlugin(plugins[1..], name) by {
        forall i | 0 <= i < |plugins[1..]|
          ensures plugins[1..][i].name != name
        {
          assert plugins[1..][i] == plugins[i + 1];
        }
      }
    } else {
      ToggleChangesEnabledCountByOne(plugins[1..], name, k - 1);
    }
  }
}
