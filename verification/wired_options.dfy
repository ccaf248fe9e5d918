/**
 * How the options a bot is wired with relate to the configuration as the
 * user wrote it, before `bot_config_defaults` filled in the defaults.
 */
module WiredOptions {
  import opened Values
  import opened Config
  import opened Coercions
  import opened Bootstrap

  /** `c` and `d` both lack option `k`, or both hold the same value for it. */
  predicate AgreeOn(c: Config, d: Config, k: Key)
  {
    (k in c <==> k in d) && (k in c ==> c[k] == d[k])
  }

  /** `c` and `d` agree on every option a coercion reads. */
  predicate CoercedAgree(c: Config, d: Config)
  {
    && AgreeOn(c, d, BotPluginIndexes) && AgreeOn(c, d, BotExtraBackendDir)
    && AgreeOn(c, d, Storage) && AgreeOn(c, d, BotExtraStoragePluginsDir)
    && AgreeOn(c, d, CorePlugins) && AgreeOn(c, d, PluginsCallbackOrder)
  }

  /** Every coercion reads its own option and nothing else, so configurations that agree on it coerce alike. */
  lemma CoercionsAgree(c: Config, d: Config)
    ensures AgreeOn(c, d, BotPluginIndexes) ==> PluginIndexes(c) == PluginIndexes(d)
    ensures AgreeOn(c, d, BotExtraBackendDir) ==> ExtraBackendDirs(c) == ExtraBackendDirs(d)
    ensures AgreeOn(c, d, Storage) ==> StorageName(c) == StorageName(d)
    ensures AgreeOn(c, d, BotExtraStoragePluginsDir) ==> ExtraStoragePluginsDir(c) == ExtraStoragePluginsDir(d)
    ensures AgreeOn(c, d, CorePlugins) ==> CorePluginList(c) == CorePluginList(d)
    ensures AgreeOn(c, d, PluginsCallbackOrder) ==> CallbackOrder(c) == CallbackOrder(d)
  {
  }

  /**
   * `c` holds what `d` says for every option the wiring of a bot reads, and
   * AUTOINSTALL_DEPS defaults to true where `d` leaves it out.
   */
  predicate WiringAgrees(c: Config, d: Config)
  {
    && CoercedAgree(c, d)
    && AgreeOn(c, d, BotDataDir) && AgreeOn(c, d, BotExtraPluginDir)
    && AutoinstallAgrees(c, d)
  }

  /** `c` holds `d`'s AUTOINSTALL_DEPS, or true where `d` leaves it out. */
  predicate AutoinstallAgrees(c: Config, d: Config)
  {
    && Defaulted(AutoinstallDeps) in c
    && c[Defaulted(AutoinstallDeps)]
       == if Defaulted(AutoinstallDeps) in d then d[Defaulted(AutoinstallDeps)] else VBool(true)
  }

  /** Normalisation leaves an option that has no default as the user wrote it, or absent. */
  lemma NormaliseAgreesOn(config: Config, k: Key)
    requires BotAdmins in config && !k.Defaulted? && k != BotAdminsNotifications
    ensures AgreeOn(Normalise(config).config, config, k)
  {
    NormalisePassesThrough(config, k);
  }

  /** Normalisation keeps every option a coercion reads as the user wrote it. */
  lemma NormaliseKeepsCoercedOptions(config: Config)
    requires BotAdmins in config
    ensures CoercedAgree(Normalise(config).config, config)
  {
    NormaliseAgreesOn(config, BotPluginIndexes);
    NormaliseAgreesOn(config, BotExtraBackendDir);
    NormaliseAgreesOn(config, Storage);
    NormaliseAgreesOn(config, BotExtraStoragePluginsDir);
    NormaliseAgreesOn(config, CorePlugins);
    NormaliseAgreesOn(config, PluginsCallbackOrder);
  }

  /** Normalisation keeps every option the wiring reads as the user wrote it. */
  lemma NormaliseKeepsWiring(config: Config)
    requires BotAdmins in config
    ensures WiringAgrees(Normalise(config).config, config)
  {
    NormaliseKeepsCoercedOptions(config);
    NormaliseAgreesOn(config, BotDataDir);
    NormaliseAgreesOn(config, BotExtraPluginDir);
    NormaliseKeepsAutoinstall(config);
  }

  /** Normalisation turns an absent AUTOINSTALL_DEPS into true and keeps a given one. */
  lemma NormaliseKeepsAutoinstall(config: Config)
    requires BotAdmins in config
    ensures AutoinstallAgrees(Normalise(config).config, config)
  {
    assert AutoinstallDeps.Literal() == VBool(true);
    NormaliseDefaultAt(config, AutoinstallDeps);
  }

  /** Wiring from the normalised configuration reads the user's own values, or the defaults. */
  lemma WireBotAfterNormalise(b: string, config: Config, w: World)
    requires BotAdmins in config && BotDataDir in config && BotExtraPluginDir in config
    ensures var bot := WireBot(b, Normalise(config).config, w);
      && bot.extraBackendDirs == ExtraBackendDirs(config)
      && bot.storage == StoragePlugin(StorageName(config), ExtraStoragePluginsDir(config))
      && bot.repoManager == RepoManager(bot.storage, config[BotDataDir], PluginIndexes(config))
      && bot.pluginManager == PluginManager(
           bot.storage, config[BotExtraPluginDir],
           if Defaulted(AutoinstallDeps) in config then config[Defaulted(AutoinstallDeps)] else VBool(true),
           CorePluginList(config), CallbackOrder(config))
  {
    NormaliseKeepsWiring(config);
    WireBotSameReads(b, Normalise(config).config, config, w);
  }

  /** Two configurations that agree on every option the wiring reads wire the same bot. */
  lemma WireBotSameReads(b: string, c: Config, config: Config, w: World)
    requires WiringAgrees(c, config) && BotDataDir in config && BotExtraPluginDir in config
    ensures var bot := WireBot(b, c, w);
      && bot.extraBackendDirs == ExtraBackendDirs(config)
      && bot.storage == StoragePlugin(StorageName(config), ExtraStoragePluginsDir(config))
      && bot.repoManager == RepoManager(bot.storage, config[BotDataDir], PluginIndexes(config))
      && bot.pluginManager == PluginManager(
           bot.storage, config[BotExtraPluginDir],
           if Defaulted(AutoinstallDeps) in config then config[Defaulted(AutoinstallDeps)] else VBool(true),
           CorePluginList(config), CallbackOrder(config))
  {
    CoercionsAgree(c, config);
  }
}
