/**
 * The configuration record of errbot and its normaliser `bot_config_defaults`
 * (errbot/bootstrap.py:23-83).
 *
 * A configuration is modelled as a finite map from option name to value: an
 * option is "set" exactly when the Python module has that attribute
 * (`hasattr(config, NAME)`).
 */
module Config {
  import opened Values

  /** The options `bot_config_defaults` assigns a literal default to (lines 24-77 and 80-81). */
  datatype DefaultedOption =
    | AccessControlsDefault | AccessControls | AccessControlsUseSlackUserid
    | HideRestrictedCommands | HideRestrictedAccess | BotPrefixOptionalOnChat
    | BotPrefix | BotAltPrefixes | BotAltPrefixSeparators | BotAltPrefixCaseinsensitive
    | BotLogLogstashPort | BotLogLogstashHost | BotLogLogstashApp | BotLogLogstashEnv
    | DivertToPrivate | DivertToThread | MessageSizeLimit | GroupchatNickPrefixed
    | AutoinstallDeps | SuppressCmdNotFound | BotAsync | BotAsyncPoolsize
    | ChatroomPresence | ChatroomRelay | ReverseChatroomRelay | ChatroomFn | TextDemoMode
    | TextColorTheme
  {
    /** The attribute name as written in `config.py`. */
    function Name(): string
    {
      match this
      case AccessControlsDefault => "ACCESS_CONTROLS_DEFAULT"
      case AccessControls => "ACCESS_CONTROLS"
      case AccessControlsUseSlackUserid => "ACCESS_CONTROLS_USE_SLACK_USERID"
      case HideRestrictedCommands => "HIDE_RESTRICTED_COMMANDS"
      case HideRestrictedAccess => "HIDE_RESTRICTED_ACCESS"
      case BotPrefixOptionalOnChat => "BOT_PREFIX_OPTIONAL_ON_CHAT"
      case BotPrefix => "BOT_PREFIX"
      case BotAltPrefixes => "BOT_ALT_PREFIXES"
      case BotAltPrefixSeparators => "BOT_ALT_PREFIX_SEPARATORS"
      case BotAltPrefixCaseinsensitive => "BOT_ALT_PREFIX_CASEINSENSITIVE"
      case BotLogLogstashPort => "BOT_LOG_LOGSTASH_PORT"
      case BotLogLogstashHost => "BOT_LOG_LOGSTASH_HOST"
      case BotLogLogstashApp => "BOT_LOG_LOGSTASH_APP"
      case BotLogLogstashEnv => "BOT_LOG_LOGSTASH_ENV"
      case DivertToPrivate => "DIVERT_TO_PRIVATE"
      case DivertToThread => "DIVERT_TO_THREAD"
      case MessageSizeLimit => "MESSAGE_SIZE_LIMIT"
      case GroupchatNickPrefixed => "GROUPCHAT_NICK_PREFIXED"
      case AutoinstallDeps => "AUTOINSTALL_DEPS"
      case SuppressCmdNotFound => "SUPPRESS_CMD_NOT_FOUND"
      case BotAsync => "BOT_ASYNC"
      case BotAsyncPoolsize => "BOT_ASYNC_POOLSIZE"
      case ChatroomPresence => "CHATROOM_PRESENCE"
      case ChatroomRelay => "CHATROOM_RELAY"
      case ReverseChatroomRelay => "REVERSE_CHATROOM_RELAY"
      case ChatroomFn => "CHATROOM_FN"
      case TextDemoMode => "TEXT_DEMO_MODE"
      case TextColorTheme => "TEXT_COLOR_THEME"
    }

    /** The literal the normaliser assigns when the option is absent. */
    function Literal(): Value
    {
      match this
      case AccessControlsDefault => VDict([])
      case AccessControls => VDict([])
      case AccessControlsUseSlackUserid => VBool(false)
      case HideRestrictedCommands => VBool(false)
      case HideRestrictedAccess => VBool(false)
      case BotPrefixOptionalOnChat => VBool(false)
      case BotPrefix => VStr("!")
      case BotAltPrefixes => VTuple([])
      case BotAltPrefixSeparators => VTuple([])
      case BotAltPrefixCaseinsensitive => VBool(false)
      case BotLogLogstashPort => VInt(5050)
      case BotLogLogstashHost => VStr("127.0.0.1")
      case BotLogLogstashApp => VStr("errbot")
      case BotLogLogstashEnv => VStr("development")
      case DivertToPrivate => VTuple([])
      case DivertToThread => VTuple([])
      case MessageSizeLimit => VInt(10000)
      case GroupchatNickPrefixed => VBool(false)
      case AutoinstallDeps => VBool(true)
      case SuppressCmdNotFound => VBool(false)
      case BotAsync => VBool(true)
      case BotAsyncPoolsize => VInt(10)
      case ChatroomPresence => VTuple([])
      case ChatroomRelay => VTuple([])
      case ReverseChatroomRelay => VTuple([])
      case ChatroomFn => VStr("Errbot")
      case TextDemoMode => VBool(true)
      case TextColorTheme => VStr("light")
    }

  }

  /**
   * An attribute of the configuration module: one of the options errbot/bootstrap.py
   * reads, or `Custom(name)` for any other attribute a user puts in `config.py`.
   * By convention a `Custom` name never spells one of the names below, so no
   * attribute of the module has two keys.
   */
  datatype Key =
    | Defaulted(option: DefaultedOption)
    // required by the normaliser (line 78), and derived from it (line 82)
    | BotAdmins | BotAdminsNotifications
    // read by setup_bot and get_storage_plugin, never defaulted by the normaliser
    | BotLogFormatter | BotLogFile | BotLogLogstash | BotLogSentry | BotLogSentryFlask
    | SentryTransport | SentryLoglevel | SentryEventlevel | SentryDsn
    | BotLogLevel | BotDataDir | BotPluginIndexes | BotExtraBackendDir | BotExtraPluginDir
    | CorePlugins | PluginsCallbackOrder | Storage | BotExtraStoragePluginsDir
    | Custom(name: string)
  {
    /** The attribute name as written in `config.py`. */
    function Name(): string
    {
      match this
      case Defaulted(o) => o.Name()
      case BotAdmins => "BOT_ADMINS"
      case BotAdminsNotifications => "BOT_ADMINS_NOTIFICATIONS"
      case BotLogFormatter => "BOT_LOG_FORMATTER"
      case BotLogFile => "BOT_LOG_FILE"
      case BotLogLogstash => "BOT_LOG_LOGSTASH"
      case BotLogSentry => "BOT_LOG_SENTRY"
      case BotLogSentryFlask => "BOT_LOG_SENTRY_FLASK"
      case SentryTransport => "SENTRY_TRANSPORT"
      case SentryLoglevel => "SENTRY_LOGLEVEL"
      case SentryEventlevel => "SENTRY_EVENTLEVEL"
      case SentryDsn => "SENTRY_DSN"
      case BotLogLevel => "BOT_LOG_LEVEL"
      case BotDataDir => "BOT_DATA_DIR"
      case BotPluginIndexes => "BOT_PLUGIN_INDEXES"
      case BotExtraBackendDir => "BOT_EXTRA_BACKEND_DIR"
      case BotExtraPluginDir => "BOT_EXTRA_PLUGIN_DIR"
      case CorePlugins => "CORE_PLUGINS"
      case PluginsCallbackOrder => "PLUGINS_CALLBACK_ORDER"
      case Storage => "STORAGE"
      case BotExtraStoragePluginsDir => "BOT_EXTRA_STORAGE_PLUGINS_DIR"
      case Custom(name) => name
    }
  }

  /** The configuration module: attribute name to value. */
  type Config = map<Key, Value>

  /** `hasattr(config, k) and config.k`: the option is set to a truthy value. */
  predicate Enabled(c: Config, k: Key)
  {
    k in c && Truthy(c[k])
  }

  /** The defaulted options assigned before `BOT_ADMINS` is checked, in source order (lines 24-77). */
  const EarlyOptions: seq<DefaultedOption> := [
    AccessControlsDefault, AccessControls, AccessControlsUseSlackUserid,
    HideRestrictedCommands, HideRestrictedAccess, BotPrefixOptionalOnChat,
    BotPrefix, BotAltPrefixes, BotAltPrefixSeparators, BotAltPrefixCaseinsensitive,
    BotLogLogstashPort, BotLogLogstashHost, BotLogLogstashApp, BotLogLogstashEnv,
    DivertToPrivate, DivertToThread, MessageSizeLimit, GroupchatNickPrefixed,
    AutoinstallDeps, SuppressCmdNotFound, BotAsync, BotAsyncPoolsize,
    ChatroomPresence, ChatroomRelay, ReverseChatroomRelay, ChatroomFn, TextDemoMode
  ]

  /** The option is one of those defaulted before the BOT_ADMINS check. */
  predicate IsEarly(k: Key)
  {
    k.Defaulted? && k.option != TextColorTheme
  }

  /** `EarlyOptions` lists every defaulted option except TEXT_COLOR_THEME. */
  lemma EarlyOptionsExact()
    ensures forall o :: o in EarlyOptions <==> o != TextColorTheme
  {
  }

  /** The keys of a list of defaulted options. */
  function KeysOf(os: seq<DefaultedOption>): (ks: set<Key>)
    ensures forall k :: k in ks <==> k.Defaulted? && k.option in os
  {
    set o | o in os :: Defaulted(o)
  }

  /** The keys defaulted before the BOT_ADMINS check. */
  function EarlyKeys(): (ks: set<Key>)
    ensures forall k :: k in ks <==> IsEarly(k)
  {
    EarlyOptionsExact();
    KeysOf(EarlyOptions)
  }

  /** `config` with every key of `ks` that it lacks set to that option's literal default. */
  function WithDefaults(c: Config, ks: set<Key>): (r: Config)
    requires forall k :: k in ks ==> k.Defaulted?
    ensures forall k :: k in r <==> k in c || k in ks
    ensures forall k :: k in c ==> r[k] == c[k]
    ensures forall k :: k in r && k !in c ==> r[k] == k.option.Literal()
  {
    map k | k in c.Keys + ks :: if k in c then c[k] else k.option.Literal()
  }

  /** Outcome of `bot_config_defaults`: the completed configuration, or the ValueError
      for a missing BOT_ADMINS together with what the in-place mutation had already written. */
  datatype Normalised = Complete(config: Config) | MissingAdmins(partial: Config)

  const AdminsMissingMessage: string := "BOT_ADMINS missing from config.py."

  /**
   * What `bot_config_defaults` leaves behind, stated declaratively: the options
   * before the BOT_ADMINS check are filled in whatever happens, the rest only
   * when BOT_ADMINS is present.
   */
  function Normalise(c: Config): (r: Normalised)
    // it fails exactly when BOT_ADMINS is absent
    ensures r.Complete? <==> BotAdmins in c
    // success: options already set are untouched ...
    ensures r.Complete? ==> forall k :: k in c ==> k in r.config && r.config[k] == c[k]
    // ... the option set is the old one plus every defaulted option and the notification list ...
    ensures r.Complete? ==> forall k :: k in r.config <==>
      k in c || k.Defaulted? || k == BotAdminsNotifications
    // ... each newly added option holds its literal default ...
    ensures r.Complete? ==> forall k :: k in r.config && k !in c && k != BotAdminsNotifications ==>
      k.Defaulted? && r.config[k] == k.option.Literal()
    // ... and an absent notification list becomes the admin list
    ensures r.Complete? && BotAdminsNotifications !in c ==>
      r.config[BotAdminsNotifications] == c[BotAdmins]
    // failure: the early defaults are already written, nothing after line 78 is
    ensures r.MissingAdmins? ==>
      && (forall k :: k in r.partial <==> k in c || IsEarly(k))
      && (forall k :: k in c ==> r.partial[k] == c[k])
      && (forall k :: k in r.partial && k !in c ==> k.Defaulted? && r.partial[k] == k.option.Literal())
      && (Defaulted(TextColorTheme) in r.partial <==> Defaulted(TextColorTheme) in c)
      && (BotAdminsNotifications in r.partial <==> BotAdminsNotifications in c)
  {
    var early := WithDefaults(c, EarlyKeys());
    if BotAdmins !in early then
      MissingAdmins(early)
    else
      var themed := WithDefaults(early, {Defaulted(TextColorTheme)});
      if BotAdminsNotifications in themed then Complete(themed)
      else Complete(themed[BotAdminsNotifications := themed[BotAdmins]])
  }

  /** One guarded assignment `if not hasattr(config, K): config.K = <default>`. */
  function SetDefault(c: Config, o: DefaultedOption): (r: Config)
    ensures r == WithDefaults(c, {Defaulted(o)})
  {
    if Defaulted(o) in c then c else c[Defaulted(o) := o.Literal()]
  }

  /** Filling the defaults of a prefix of `os` and then the next one fills the longer prefix. */
  lemma PrefixStep(c: Config, os: seq<DefaultedOption>, i: nat)
    requires i < |os|
    ensures SetDefault(WithDefaults(c, KeysOf(os[..i])), os[i]) == WithDefaults(c, KeysOf(os[..i + 1]))
  {
    assert os[..i + 1] == os[..i] + [os[i]];
    var a := SetDefault(WithDefaults(c, KeysOf(os[..i])), os[i]);
    var b := WithDefaults(c, KeysOf(os[..i + 1]));
    assert forall k :: k in a <==> k in b;
  }

  /**
   * `bot_config_defaults(config)` statement by statement: one guarded assignment
   * per defaulted option in source order, the BOT_ADMINS check after the last
   * early option, then TEXT_COLOR_THEME and the notification list.
   */
  method BotConfigDefaults(c: Config) returns (r: Normalised)
    ensures r == Normalise(c)
  {
    var config := c;
    var i := 0;
    while i < |EarlyOptions|
      invariant 0 <= i <= |EarlyOptions|
      invariant config == WithDefaults(c, KeysOf(EarlyOptions[..i]))
    {
      PrefixStep(c, EarlyOptions, i);
      config := SetDefault(config, EarlyOptions[i]);
      i := i + 1;
    }
    assert EarlyOptions[..i] == EarlyOptions;
    if BotAdmins !in config {
      return MissingAdmins(config);
    }
    config := SetDefault(config, TextColorTheme);
    if BotAdminsNotifications !in config {
      config := config[BotAdminsNotifications := config[BotAdmins]];
    }
    r := Complete(config);
  }

  /** Defaulting keys that are all present changes nothing. */
  lemma WithDefaultsPresent(c: Config, ks: set<Key>)
    requires forall k :: k in ks ==> k.Defaulted? && k in c
    ensures WithDefaults(c, ks) == c
  {
    assert WithDefaults(c, ks).Keys == c.Keys;
  }

  /** Normalisation is idempotent: a completed configuration is its own normal form. */
  lemma NormaliseIdempotent(c: Config)
    requires BotAdmins in c
    ensures Normalise(Normalise(c).config) == Normalise(c)
  {
    var d := Normalise(c).config;
    assert forall k: Key :: k.Defaulted? ==> k in d;
    WithDefaultsPresent(d, EarlyKeys());
    WithDefaultsPresent(d, {Defaulted(TextColorTheme)});
    assert BotAdmins in d && BotAdminsNotifications in d;
  }

  /** Options the normaliser has no default for pass through it untouched. */
  lemma NormalisePassesThrough(c: Config, k: Key)
    requires BotAdmins in c && !k.Defaulted? && k != BotAdminsNotifications
    ensures k in Normalise(c).config <==> k in c
    ensures k in c ==> Normalise(c).config[k] == c[k]
  {
  }

  /** After normalisation every defaulted option holds the user's value or its literal default. */
  lemma NormaliseDefaultAt(c: Config, o: DefaultedOption)
    requires BotAdmins in c
    ensures Defaulted(o) in Normalise(c).config
    ensures Normalise(c).config[Defaulted(o)] == if Defaulted(o) in c then c[Defaulted(o)] else o.Literal()
  {
  }
}
