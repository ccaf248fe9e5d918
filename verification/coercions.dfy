/**
 * The option reads in setup_bot and get_storage_plugin that are not covered by
 * the normaliser: `getattr(config, NAME, default)` plus, for the two directory
 * and index options, promotion of a bare string to a one-element sequence
 * (errbot/bootstrap.py:184-191 and 261-262).
 */
module Coercions {
  import opened Values
  import opened Config

  /** The plugin index used when BOT_PLUGIN_INDEXES is not configured. */
  const PluginDefaultIndex: string := "https://errbot.io/repos.json"

  /** The storage plugin used when STORAGE is not configured. */
  const DefaultStorage: string := "Shelf"

  /** `getattr(config, k, default)`. */
  function GetAttr(c: Config, k: Key, default: Value): Value
  {
    if k in c then c[k] else default
  }

  /** `(v,)` when `v` is a `str`, `v` itself otherwise. */
  function PromoteToTuple(v: Value): Value
  {
    if v.VStr? then VTuple([v]) else v
  }

  /** `[v]` when `v` is a `str`, `v` itself otherwise. */
  function PromoteToList(v: Value): Value
  {
    if v.VStr? then VList([v]) else v
  }

  /** The plugin indexes handed to the repo manager (lines 184-186). */
  function PluginIndexes(c: Config): (r: Value)
    // never a bare string
    ensures !r.VStr?
    // absent: the single default index
    ensures BotPluginIndexes !in c ==> r == VTuple([VStr(PluginDefaultIndex)])
    // a bare string s: the one-element tuple (s,)
    ensures BotPluginIndexes in c && c[BotPluginIndexes].VStr? ==>
      r.VTuple? && r.items == [c[BotPluginIndexes]]
    // anything else passes through
    ensures BotPluginIndexes in c && !c[BotPluginIndexes].VStr? ==> r == c[BotPluginIndexes]
  {
    PromoteToTuple(GetAttr(c, BotPluginIndexes, VTuple([VStr(PluginDefaultIndex)])))
  }

  /** The extra backend directories handed to the backend plugin manager (lines 189-191). */
  function ExtraBackendDirs(c: Config): (r: Value)
    ensures !r.VStr?
    ensures BotExtraBackendDir !in c ==> r == VList([])
    ensures BotExtraBackendDir in c && c[BotExtraBackendDir].VStr? ==>
      r.VList? && r.elems == [c[BotExtraBackendDir]]
    ensures BotExtraBackendDir in c && !c[BotExtraBackendDir].VStr? ==> r == c[BotExtraBackendDir]
  {
    PromoteToList(GetAttr(c, BotExtraBackendDir, VList([])))
  }

  /** Coercing an already coerced option changes nothing: the shape is canonical. */
  lemma CoercionsIdempotent(c: Config)
    ensures PluginIndexes(c[BotPluginIndexes := PluginIndexes(c)]) == PluginIndexes(c)
    ensures ExtraBackendDirs(c[BotExtraBackendDir := ExtraBackendDirs(c)]) == ExtraBackendDirs(c)
  {
  }

  /** The storage plugin name (line 261). */
  function StorageName(c: Config): (r: Value)
    ensures Storage !in c ==> r == VStr(DefaultStorage)
    ensures Storage in c ==> r == c[Storage]
  {
    GetAttr(c, Storage, VStr(DefaultStorage))
  }

  /** The extra storage plugin directory (line 262): no promotion, `None` when absent. */
  function ExtraStoragePluginsDir(c: Config): (r: Value)
    ensures BotExtraStoragePluginsDir !in c ==> r == VNone
    ensures BotExtraStoragePluginsDir in c ==> r == c[BotExtraStoragePluginsDir]
  {
    GetAttr(c, BotExtraStoragePluginsDir, VNone)
  }

  /** The fixed core plugin list handed to the plugin manager (line 211): `None` when absent. */
  function CorePluginList(c: Config): (r: Value)
    ensures CorePlugins !in c ==> r == VNone
    ensures CorePlugins in c ==> r == c[CorePlugins]
  {
    GetAttr(c, CorePlugins, VNone)
  }

  /** The plugin callback order (line 213): `(None,)` when absent. */
  function CallbackOrder(c: Config): (r: Value)
    ensures PluginsCallbackOrder !in c ==> r == VTuple([VNone])
    ensures PluginsCallbackOrder in c ==> r == c[PluginsCallbackOrder]
  {
    GetAttr(c, PluginsCallbackOrder, VTuple([VNone]))
  }
}
