/**
 * Settings resolution: `useConfig` reads the caller's configuration object and
 * `useApiConfig` the environment. Both overwrite the session's static fields one
 * at a time, checking host, port, password and lifetime in that order and
 * stopping at the first missing one; the fields written before the failing
 * check stay written.
 */
module Config {
  import opened Wrappers
  import opened Php
  import opened Exceptions

  /** PHP's `Redis::SERIALIZER_PHP`. */
  const SerializerPhp := 1

  /** Where settings come from: the configuration object when one is set, else the environment. */
  datatype Source =
    | ConfigObject(props: map<string, Value>)
    | Environment(vars: map<string, Value>)

  /** `initialize` uses the configuration object whenever `$config != null`. */
  function SourceOf(config: Option<map<string, Value>>, env: map<string, Value>): (src: Source)
    ensures src.ConfigObject? <==> config.Some?
  {
    if config.Some? then ConfigObject(config.value) else Environment(env)
  }

  /** Reads a setting, falling back to `default` when it is absent. */
  function Read(src: Source, key: string, default: Value): (v: Value)
    ensures src.ConfigObject? && key in src.props ==> v == src.props[key]
    ensures src.Environment? && key in src.vars ==> v == src.vars[key]
    ensures (src.ConfigObject? && key !in src.props) || (src.Environment? && key !in src.vars) ==> v == default
  {
    match src
    case ConfigObject(props) => if key in props then props[key] else default
    case Environment(vars) => if key in vars then vars[key] else default
  }

  /**
   * The static fields of the session other than the connection handle.
   * `db` is `_db`, which starts as null; `port` starts as null in the source and
   * as 0 here, and it is never read before resolution writes it.
   */
  datatype Settings = Settings(
    host: Value,
    port: int,
    password: Value,
    lifetime: int,
    serializer: Value,
    db: Option<int>,
    persistent: Value,
    prefix: Value)

  /** The fields' initial values. */
  const Initial := Settings(Null, 0, Null, 0, Null, None, Bool(true), Null)

  // The names of the settings, both as configuration properties and as environment variables.
  const HostKey := "REDIS_HOST"
  const PortKey := "REDIS_PORT"
  const PasswordKey := "REDIS_PASSWORD"
  const LifetimeKey := "REDIS_LIFETIME"
  const DbKey := "REDIS_DB"
  const PersistentKey := "REDIS_PERSISTENT"
  const PrefixKey := "REDIS_PREFIX"

  /** The setting names are pairwise distinct. */
  lemma KeysDistinct()
    ensures HostKey != PortKey && HostKey != PasswordKey && HostKey != LifetimeKey && HostKey != DbKey
    ensures HostKey != PersistentKey && HostKey != PrefixKey
    ensures PortKey != PasswordKey && PortKey != LifetimeKey && PortKey != DbKey && PortKey != PersistentKey && PortKey != PrefixKey
    ensures PasswordKey != LifetimeKey && PasswordKey != DbKey && PasswordKey != PersistentKey && PasswordKey != PrefixKey
    ensures LifetimeKey != DbKey && LifetimeKey != PersistentKey && LifetimeKey != PrefixKey
    ensures DbKey != PersistentKey && DbKey != PrefixKey && PersistentKey != PrefixKey
  {
    assert HostKey[6] == 'H' && PortKey[6] == 'P' && PasswordKey[6] == 'P' && LifetimeKey[6] == 'L';
    assert DbKey[6] == 'D' && PersistentKey[6] == 'P' && PrefixKey[6] == 'P';
    assert PortKey[7] == 'O' && PasswordKey[7] == 'A' && PersistentKey[7] == 'E' && PrefixKey[7] == 'R';
  }

  // What each field is read as. The defaults follow the two readers: the
  // configuration object's helpers return null or 0 for an absent property,
  // while the environment falls back to the field's current value for the
  // lifetime, the persistence flag and the prefix.

  function HostOf(src: Source): Value { Read(src, HostKey, Null) }

  function PortOf(src: Source): int {
    ToInt(Read(src, PortKey, if src.ConfigObject? then Int(0) else Null))
  }

  function PasswordOf(src: Source): Value { Read(src, PasswordKey, Null) }

  function LifetimeOf(src: Source, cur: Settings): int {
    ToInt(Read(src, LifetimeKey, if src.ConfigObject? then Int(0) else Int(cur.lifetime)))
  }

  function DbOf(src: Source): int { ToInt(Read(src, DbKey, Int(0))) }

  function PersistentOf(src: Source, cur: Settings): Value {
    Read(src, PersistentKey, cur.persistent)
  }

  function PrefixOf(src: Source, cur: Settings): Value {
    Read(src, PrefixKey, if src.ConfigObject? then Null else cur.prefix)
  }

  /** The four validated settings, in the order they are checked. */
  datatype Field = Host | Port | Password | Lifetime

  function Rank(f: Field): nat {
    match f
    case Host => 0
    case Port => 1
    case Password => 2
    case Lifetime => 3
  }

  /** The check a field fails: null-like host or password, zero port or lifetime. */
  predicate Missing(src: Source, cur: Settings, f: Field) {
    match f
    case Host => LooseNull(HostOf(src))
    case Port => PortOf(src) == 0
    case Password => LooseNull(PasswordOf(src))
    case Lifetime => LifetimeOf(src, cur) == 0
  }

  function MissingMessage(f: Field): string {
    match f
    case Host => "The Redis host settings not found"
    case Port => "The Redis port settings not found"
    case Password => "The Redis password settings not found"
    case Lifetime => "The Redis lifetime settings must and must not be 0"
  }

  /** Each field has its own message, so the exception says which check failed. */
  lemma MissingMessagesDistinct()
    ensures forall f, g :: MissingMessage(f) == MissingMessage(g) ==> f == g
  {
    var h, p, w, l := MissingMessage(Host), MissingMessage(Port), MissingMessage(Password), MissingMessage(Lifetime);
    assert h[10] == 'h' && p[10] == 'p' && w[10] == 'p' && l[10] == 'l';
    assert p[11] == 'o' && w[11] == 'a';
    assert h != p && h != w && h != l && p != w && p != l && w != l;
  }

  /** `f` is missing and every field checked before it is present. */
  predicate FirstMissing(src: Source, cur: Settings, f: Field) {
    Missing(src, cur, f) && forall g :: Rank(g) < Rank(f) ==> !Missing(src, cur, g)
  }

  lemma FirstMissingCases(src: Source, cur: Settings)
    ensures FirstMissing(src, cur, Host) <==> Missing(src, cur, Host)
    ensures FirstMissing(src, cur, Port) <==> !Missing(src, cur, Host) && Missing(src, cur, Port)
    ensures FirstMissing(src, cur, Password) <==>
      !Missing(src, cur, Host) && !Missing(src, cur, Port) && Missing(src, cur, Password)
    ensures FirstMissing(src, cur, Lifetime) <==>
      !Missing(src, cur, Host) && !Missing(src, cur, Port) && !Missing(src, cur, Password) && Missing(src, cur, Lifetime)
  {
    assert Rank(Host) < Rank(Port) < Rank(Password) < Rank(Lifetime);
  }

  /** The fields after a resolution attempt, and the exception it raised if any. */
  datatype Resolution = Resolution(settings: Settings, failure: Option<Error>)

  /**
   * `useConfig` (for a configuration object) or `useApiConfig` (for the
   * environment) applied to the current fields `cur`.
   */
  function Resolve(src: Source, cur: Settings): (r: Resolution)
    // A resolved session has a usable host, port, password and lifetime, and the configured database.
    ensures r.failure.None? ==>
      && !LooseNull(r.settings.host) && r.settings.port != 0
      && !LooseNull(r.settings.password) && r.settings.lifetime != 0
      && r.settings.db == Some(DbOf(src))
    // The host is always overwritten; nothing past the failing check is.
    ensures r.settings.host == HostOf(src)
    ensures r.failure.Some? ==> r.settings.db == cur.db && r.settings.prefix == cur.prefix
                                && r.settings.persistent == cur.persistent
  {
    var s1 := cur.(host := HostOf(src));
    if LooseNull(s1.host) then Resolution(s1, Some(InvalidArgument(MissingMessage(Host)))) else
    var s2 := s1.(port := PortOf(src));
    if s2.port == 0 then Resolution(s2, Some(InvalidArgument(MissingMessage(Port)))) else
    var s3 := s2.(password := PasswordOf(src));
    if LooseNull(s3.password) then Resolution(s3, Some(InvalidArgument(MissingMessage(Password)))) else
    var s4 := s3.(lifetime := LifetimeOf(src, cur));
    if s4.lifetime == 0 then Resolution(s4, Some(InvalidArgument(MissingMessage(Lifetime)))) else
    Resolution(s4.(serializer := Int(SerializerPhp), db := Some(DbOf(src)),
                   persistent := PersistentOf(src, cur), prefix := PrefixOf(src, cur)),
               None)
  }

  /** A resolved session holds every setting as read from the source. */
  lemma ResolvedSettings(src: Source, cur: Settings)
    requires Resolve(src, cur).failure.None?
    ensures Resolve(src, cur).settings == Settings(HostOf(src), PortOf(src), PasswordOf(src), LifetimeOf(src, cur),
                                                   Int(SerializerPhp), Some(DbOf(src)), PersistentOf(src, cur), PrefixOf(src, cur))
  {
  }

  /** Resolution fails exactly with the message of the first missing field, in check order. */
  lemma ResolveFailsAtFirstMissing(src: Source, cur: Settings)
    ensures forall f :: Resolve(src, cur).failure == Some(InvalidArgument(MissingMessage(f))) <==> FirstMissing(src, cur, f)
    ensures Resolve(src, cur).failure.None? <==> forall f :: !Missing(src, cur, f)
  {
    MissingMessagesDistinct();
    FirstMissingCases(src, cur);
  }

  /**
   * A failed resolution keeps what it wrote: every field checked up to and
   * including the failing one holds the value read from the source, and every
   * other field keeps its current value.
   */
  lemma FailedResolutionWrites(src: Source, cur: Settings)
    ensures FirstMissing(src, cur, Host) ==> Resolve(src, cur).settings == cur.(host := HostOf(src))
    ensures FirstMissing(src, cur, Port) ==>
      Resolve(src, cur).settings == cur.(host := HostOf(src), port := PortOf(src))
    ensures FirstMissing(src, cur, Password) ==>
      Resolve(src, cur).settings == cur.(host := HostOf(src), port := PortOf(src), password := PasswordOf(src))
    ensures FirstMissing(src, cur, Lifetime) ==>
      Resolve(src, cur).settings ==
        cur.(host := HostOf(src), port := PortOf(src), password := PasswordOf(src), lifetime := LifetimeOf(src, cur))
  {
    FirstMissingCases(src, cur);
  }

  /** `initialize`: refuses when the redis extension is not loaded, then resolves. */
  function Initialize(extensionLoaded: bool, src: Source, cur: Settings): (r: Resolution)
    ensures !extensionLoaded ==> r == Resolution(cur, Some(Unexpected("The Redis extension can not loaded.")))
    ensures extensionLoaded ==> r == Resolve(src, cur)
  {
    if !extensionLoaded then Resolution(cur, Some(Unexpected("The Redis extension can not loaded.")))
    else Resolve(src, cur)
  }

  /** The source with one setting replaced. */
  function With(src: Source, key: string, v: Value): (r: Source)
    ensures r.ConfigObject? <==> src.ConfigObject?
  {
    match src
    case ConfigObject(props) => ConfigObject(props[key := v])
    case Environment(vars) => Environment(vars[key := v])
  }

  /** REDIS_DB, REDIS_PERSISTENT and REDIS_PREFIX are never validated: no value of theirs makes resolution fail. */
  lemma UnvalidatedSettings(src: Source, cur: Settings, key: string, v: Value)
    requires key == DbKey || key == PersistentKey || key == PrefixKey
    ensures Resolve(With(src, key, v), cur).failure == Resolve(src, cur).failure
  {
    var src' := With(src, key, v);
    KeysDistinct();
    assert HostOf(src') == HostOf(src) && PortOf(src') == PortOf(src);
    assert PasswordOf(src') == PasswordOf(src) && LifetimeOf(src', cur) == LifetimeOf(src, cur);
  }

  /**
   * Whatever database an operation stored in `_db` before resolving, a
   * successful resolution replaces it with the configured REDIS_DB.
   */
  lemma ResolutionOverwritesDb(src: Source, cur: Settings, db: Option<int>)
    requires Resolve(src, cur).failure.None?
    ensures Resolve(src, cur.(db := db)) == Resolve(src, cur)
    ensures Resolve(src, cur.(db := db)).settings.db == Some(DbOf(src))
  {
  }

  /** The configuration object the tests install (config/redis.php, entry 'sync'). */
  const SampleConfig: map<string, Value> := map[
    DbKey := Int(0),
    HostKey := Str("127.0.0.1"),
    PasswordKey := Str("mintos"),
    PortKey := Int(6379),
    LifetimeKey := Int(120),
    PersistentKey := Bool(true),
    PrefixKey := Str("")]

  /** The sample configuration resolves: port 6379, lifetime 120, database 0, persistent, empty prefix. */
  lemma SampleConfigResolves(cur: Settings)
    ensures Resolve(ConfigObject(SampleConfig), cur) == Resolution(
      Settings(Str("127.0.0.1"), 6379, Str("mintos"), 120, Int(SerializerPhp), Some(0), Bool(true), Str("")),
      None)
  {
    KeysDistinct();
  }

  /**
   * A configuration object that has every setting, with integers for the port,
   * lifetime and database, resolves to exactly those values.
   */
  lemma ConfigRoundTrip(cur: Settings, host: Value, port: int, password: Value, lifetime: int,
                        db: int, persistent: Value, prefix: Value)
    requires !LooseNull(host) && port != 0 && !LooseNull(password) && lifetime != 0
    ensures var props := map[HostKey := host, PortKey := Int(port), PasswordKey := password,
                             LifetimeKey := Int(lifetime), DbKey := Int(db),
                             PersistentKey := persistent, PrefixKey := prefix];
      Resolve(ConfigObject(props), cur) ==
        Resolution(Settings(host, port, password, lifetime, Int(SerializerPhp), Some(db), persistent, prefix), None)
  {
    KeysDistinct();
  }

  /** A setting given as the decimal text of an integer is cast back to that integer. */
  lemma NumberFromText(src: Source, key: string, i: int, default: Value)
    requires src.Environment? && key in src.vars && src.vars[key] == Str(IntToString(i))
    ensures ToInt(Read(src, key, default)) == i
  {
    IntRoundTrip(i);
  }

  /** Resolution succeeds as soon as the four validated settings are present. */
  lemma ResolvesWhenPresent(src: Source, cur: Settings)
    requires !LooseNull(HostOf(src)) && PortOf(src) != 0 && !LooseNull(PasswordOf(src)) && LifetimeOf(src, cur) != 0
    ensures Resolve(src, cur).failure.None?
  {
  }

  /**
   * Environment variables are text: REDIS_PORT, REDIS_LIFETIME and REDIS_DB given
   * as decimal strings resolve to the numbers they spell.
   */
  lemma EnvironmentNumbers(cur: Settings, vars: map<string, Value>, host: string, port: int,
                           password: string, lifetime: int, db: int)
    requires HostKey in vars && vars[HostKey] == Str(host) && host != ""
    requires PasswordKey in vars && vars[PasswordKey] == Str(password) && password != ""
    requires PortKey in vars && vars[PortKey] == Str(IntToString(port)) && port != 0
    requires LifetimeKey in vars && vars[LifetimeKey] == Str(IntToString(lifetime)) && lifetime != 0
    requires DbKey in vars && vars[DbKey] == Str(IntToString(db))
    ensures var r := Resolve(Environment(vars), cur);
      r.failure.None? && r.settings.port == port && r.settings.lifetime == lifetime && r.settings.db == Some(db)
  {
    var src := Environment(vars);
    NumberFromText(src, PortKey, port, Null);
    NumberFromText(src, LifetimeKey, lifetime, Int(cur.lifetime));
    NumberFromText(src, DbKey, db, Int(0));
    ResolvesWhenPresent(src, cur);
    ResolvedSettings(src, cur);
  }

  /**
   * Without REDIS_LIFETIME the environment keeps the lifetime already in the
   * field, so after one successful resolution the lifetime check passes again;
   * a configuration object without it always fails that check.
   */
  lemma AbsentLifetime(src: Source, cur: Settings)
    requires src.ConfigObject? ==> LifetimeKey !in src.props
    requires src.Environment? ==> LifetimeKey !in src.vars
    ensures src.Environment? ==> LifetimeOf(src, cur) == cur.lifetime
    ensures src.ConfigObject? ==> Resolve(src, cur).failure.Some?
  {
  }
}
