/**
 * The session manager itself: the static fields of `RedisSync`, the connect
 * sequence and the cache operations, each stated against the functional model
 * of its preamble (Connection) and of the server's behaviour (RedisServer).
 *
 * PHP's static fields are the fields of one object; the environment the
 * settings are read from, whether the redis extension is loaded, and the
 * server the extension talks to are fixed when the object is built.
 * Every exception is returned as a `Failure`.
 */
module Client {
  import opened Wrappers
  import opened Php
  import opened Exceptions
  import opened Config
  import opened RedisServer
  import opened Connection
  import opened Operations

  /**
   * The TypeError PHP 8 raises when `getMembers` would return something that is
   * not an array; the only such reply of SMEMBERS here is false.
   */
  const MembersNotArray := ReturnType("Client\\RedisSync::getMembers(): Return value must be of type array, bool returned")

  class RedisSync {
    const server: Server
    /** The variables `env()` reads. */
    const env: map<string, Value>
    /** `extension_loaded('redis')`. */
    const extensionLoaded: bool

    var db: Option<int>
    var redis: Option<Handle>
    var host: Value
    var port: int
    var password: Value
    var lifetime: int
    var persistent: Value
    var serializer: Value
    var prefix: Value
    /** The custom configuration object; when null, settings come from the environment. */
    var config: Option<map<string, Value>>

    constructor (server: Server, env: map<string, Value>, extensionLoaded: bool)
      ensures this.server == server && this.env == env && this.extensionLoaded == extensionLoaded
      ensures Fields() == Initial && redis == None && config == None
    {
      this.server := server;
      this.env := env;
      this.extensionLoaded := extensionLoaded;
      db, redis := None, None;
      host, port, password, lifetime := Null, 0, Null, 0;
      persistent, serializer, prefix := Bool(true), Null, Null;
      config := None;
    }

    ghost function Fields(): Settings
      reads this
    {
      Settings(host, port, password, lifetime, serializer, db, persistent, prefix)
    }

    ghost function Current(): Session
      reads this
    {
      Session(Fields(), redis)
    }

    ghost function Src(): Source
      reads this
    {
      SourceOf(config, env)
    }

    /** The preamble of get, set, scan and deleteAll from the present state. */
    ghost function ReconnectingStep(db: Option<int>): Step
      reads this
    {
      PrepareReconnecting(Current(), db, Src(), extensionLoaded, server.endpoint)
    }

    /** The preamble of every other operation from the present state. */
    ghost function LazyStep(db: int): Step
      reads this
    {
      PrepareLazy(Current(), db, Src(), extensionLoaded, server.endpoint)
    }

    /**
     * After an operation whose preamble is `st`: the session is the preamble's,
     * and when it produced a handle, the command `c` went to that handle's
     * database with its prefix, and that database changed as the server runs it.
     */
    twostate predicate Performed(st: Step, c: Command)
      reads this, server
    {
      && Current() == st.session && config == old(config)
      && (st.error.Some? ==> server.log == old(server.log) + st.calls && server.spaces == old(server.spaces))
      && (st.error.None? ==>
            && st.session.redis.Some?
            && var h := st.session.redis.value;
               var w := Prefixed(h.prefix, c);
               && server.log == old(server.log) + st.calls + [Cmd(h.db, w)]
               && server.spaces == old(server.spaces)[h.db := Run(old(server.Space(h.db)), server.endpoint.subscribers, w).space])
    }

    /** The server's reply to `c` on the handle the preamble produced. */
    twostate function Reply(st: Step, c: Command): Value
      requires st.session.redis.Some?
      reads server
    {
      var h := st.session.redis.value;
      Run(old(server.Space(h.db)), server.endpoint.subscribers, Prefixed(h.prefix, c)).reply
    }

    /** `useConfig`: the fields from the configuration object, in check order. */
    method UseConfig() returns (failure: Option<Error>)
      requires config.Some?
      modifies this
      ensures var r := Resolve(ConfigObject(old(config.value)), old(Fields()));
        Fields() == r.settings && failure == r.failure
      ensures redis == old(redis) && config == old(config)
    {
      var src := ConfigObject(config.value);
      host := Read(src, HostKey, Null);
      if LooseNull(host) {
        return Some(InvalidArgument(MissingMessage(Host)));
      }
      port := ToInt(Read(src, PortKey, Int(0)));
      if port == 0 {
        return Some(InvalidArgument(MissingMessage(Port)));
      }
      password := Read(src, PasswordKey, Null);
      if LooseNull(password) {
        return Some(InvalidArgument(MissingMessage(Password)));
      }
      lifetime := ToInt(Read(src, LifetimeKey, Int(0)));
      if lifetime == 0 {
        return Some(InvalidArgument(MissingMessage(Lifetime)));
      }
      serializer := Int(SerializerPhp);
      db := Some(ToInt(Read(src, DbKey, Int(0))));
      persistent := Read(src, PersistentKey, persistent);
      prefix := Read(src, PrefixKey, Null);
      failure := None;
    }

    /** `useApiConfig`: the fields from the environment, in check order. */
    method UseApiConfig() returns (failure: Option<Error>)
      modifies this
      ensures var r := Resolve(Environment(env), old(Fields()));
        Fields() == r.settings && failure == r.failure
      ensures redis == old(redis) && config == old(config)
    {
      var src := Environment(env);
      host := Read(src, HostKey, Null);
      if LooseNull(host) {
        return Some(InvalidArgument(MissingMessage(Host)));
      }
      port := ToInt(Read(src, PortKey, Null));
      if port == 0 {
        return Some(InvalidArgument(MissingMessage(Port)));
      }
      password := Read(src, PasswordKey, Null);
      if LooseNull(password) {
        return Some(InvalidArgument(MissingMessage(Password)));
      }
      lifetime := ToInt(Read(src, LifetimeKey, Int(lifetime)));
      if lifetime == 0 {
        return Some(InvalidArgument(MissingMessage(Lifetime)));
      }
      serializer := Int(SerializerPhp);
      db := Some(ToInt(Read(src, DbKey, Int(0))));
      persistent := Read(src, PersistentKey, persistent);
      prefix := Read(src, PrefixKey, prefix);
      failure := None;
    }

    /** `initialize`. */
    method Initialize() returns (failure: Option<Error>)
      modifies this
      ensures var r := Config.Initialize(extensionLoaded, old(Src()), old(Fields()));
        Fields() == r.settings && failure == r.failure
      ensures redis == old(redis) && config == old(config)
    {
      if !extensionLoaded {
        return Some(Unexpected("The Redis extension can not loaded."));
      }
      if config.Some? {
        failure := UseConfig();
      } else {
        failure := UseApiConfig();
      }
    }

    /** `_connect`: initialize, then the handshake; the handle is installed last. */
    method Connect() returns (failure: Option<Error>)
      modifies this, server
      ensures var st := ConnectStep(old(Current()), old(Src()), extensionLoaded, server.endpoint);
        Current() == st.session && failure == st.error && server.log == old(server.log) + st.calls
      ensures server.spaces == old(server.spaces) && config == old(config)
    {
      ghost var ses, src := Current(), Src();
      failure := Initialize();
      if failure.Some? {
        return;
      }
      ConnectStepResolved(ses, src, extensionLoaded, server.endpoint);
      var outcome := OpenHandle();
      if outcome.Failure? {
        return Some(outcome.error);
      }
      redis := Some(outcome.value);
    }

    /** The handshake part of `_connect` on the resolved fields, one call at a time. */
    method OpenHandle() returns (outcome: Result<Handle, Error>)
      requires db.Some?
      modifies server
      ensures var a := Handshake(Fields(), server.endpoint);
        outcome == a.outcome && server.log == old(server.log) + a.calls && server.spaces == old(server.spaces)
    {
      ghost var s, e, log0 := Fields(), server.endpoint, server.log;
      var failure := Open();
      if failure.Some? {
        return Failure(failure.value);
      }
      outcome := SetPrefixOption();
      ghost var rest := HandshakeFrom(s, e, 1);
      assert HandshakeFrom(s, e, 0) == Progress([HandshakeCall(s, 0)] + rest.calls, rest.refused);
      assert log0 + [HandshakeCall(s, 0)] + rest.calls == log0 + ([HandshakeCall(s, 0)] + rest.calls);
    }

    /** The first handshake step: a persistent or a plain connection to host:port. */
    method Open() returns (failure: Option<Error>)
      requires db.Some?
      modifies server
      ensures var c := HandshakeCall(Fields(), 0);
        && server.log == old(server.log) + [c] && server.spaces == old(server.spaces)
        && failure == (if Accepts(server.endpoint, c) then None else Some(StepError(Fields(), 0)))
    {
      if Truthy(persistent) {
        failure := Require(PConnect(host, port),
                           Unconnected("Could not pconnect to the Redis server " + ToStr(host) + ":" + IntToString(port)));
      } else {
        failure := Require(Call.Connect(host, port),
                           Unconnected("Could not connect to the Redis server " + ToStr(host) + ":" + IntToString(port)));
      }
    }

    /** Handshake step 1: the key prefix option. */
    method SetPrefixOption() returns (outcome: Result<Handle, Error>)
      requires db.Some?
      modifies server
      ensures var p := HandshakeFrom(Fields(), server.endpoint, 1);
        outcome == Outcome(Fields(), p) && server.log == old(server.log) + p.calls && server.spaces == old(server.spaces)
    {
      ghost var s, e, log0 := Fields(), server.endpoint, server.log;
      var failure := Require(SetOption(OptPrefix, prefix),
                             InvalidArgument("Name: Redis::OPT_PREFIXValue: " + ToStr(prefix)));
      if failure.Some? {
        return Failure(failure.value);
      }
      outcome := SetSerializerOption();
      ghost var rest := HandshakeFrom(s, e, 2);
      assert HandshakeFrom(s, e, 1) == Progress([HandshakeCall(s, 1)] + rest.calls, rest.refused);
      assert log0 + [HandshakeCall(s, 1)] + rest.calls == log0 + ([HandshakeCall(s, 1)] + rest.calls);
    }

    /** Handshake step 2: the PHP serializer option. */
    method SetSerializerOption() returns (outcome: Result<Handle, Error>)
      requires db.Some?
      modifies server
      ensures var p := HandshakeFrom(Fields(), server.endpoint, 2);
        outcome == Outcome(Fields(), p) && server.log == old(server.log) + p.calls && server.spaces == old(server.spaces)
    {
      ghost var s, e, log0 := Fields(), server.endpoint, server.log;
      var failure := Require(SetOption(OptSerializer, serializer),
                             InvalidArgument("Name: Redis::OPT_SERIALIZERValue: " + ToStr(serializer)));
      if failure.Some? {
        return Failure(failure.value);
      }
      outcome := SetScanOption();
      ghost var rest := HandshakeFrom(s, e, 3);
      assert HandshakeFrom(s, e, 2) == Progress([HandshakeCall(s, 2)] + rest.calls, rest.refused);
      assert log0 + [HandshakeCall(s, 2)] + rest.calls == log0 + ([HandshakeCall(s, 2)] + rest.calls);
    }

    /** Handshake step 3: the scan-retry option; its exception reports the serializer field. */
    method SetScanOption() returns (outcome: Result<Handle, Error>)
      requires db.Some?
      modifies server
      ensures var p := HandshakeFrom(Fields(), server.endpoint, 3);
        outcome == Outcome(Fields(), p) && server.log == old(server.log) + p.calls && server.spaces == old(server.spaces)
    {
      ghost var s, e, log0 := Fields(), server.endpoint, server.log;
      var failure := Require(SetOption(OptScan, ScanRetry),
                             InvalidArgument("Name: Redis::SCAN_RETRYValue: " + ToStr(serializer)));
      if failure.Some? {
        return Failure(failure.value);
      }
      outcome := Authenticate();
      ghost var rest := HandshakeFrom(s, e, 4);
      assert HandshakeFrom(s, e, 3) == Progress([HandshakeCall(s, 3)] + rest.calls, rest.refused);
      assert log0 + [HandshakeCall(s, 3)] + rest.calls == log0 + ([HandshakeCall(s, 3)] + rest.calls);
    }

    /** Handshake step 4: authenticate with the configured password. */
    method Authenticate() returns (outcome: Result<Handle, Error>)
      requires db.Some?
      modifies server
      ensures var p := HandshakeFrom(Fields(), server.endpoint, 4);
        outcome == Outcome(Fields(), p) && server.log == old(server.log) + p.calls && server.spaces == old(server.spaces)
    {
      ghost var s, e, log0 := Fields(), server.endpoint, server.log;
      var failure := Require(Auth(password),
                             Authorization("With the Redis server"));
      if failure.Some? {
        return Failure(failure.value);
      }
      outcome := SelectDatabase();
      ghost var rest := HandshakeFrom(s, e, 5);
      assert HandshakeFrom(s, e, 4) == Progress([HandshakeCall(s, 4)] + rest.calls, rest.refused);
      assert log0 + [HandshakeCall(s, 4)] + rest.calls == log0 + ([HandshakeCall(s, 4)] + rest.calls);
    }

    /** Handshake step 5: select the configured database; the handle is ready. */
    method SelectDatabase() returns (outcome: Result<Handle, Error>)
      requires db.Some?
      modifies server
      ensures var p := HandshakeFrom(Fields(), server.endpoint, 5);
        outcome == Outcome(Fields(), p) && server.log == old(server.log) + p.calls && server.spaces == old(server.spaces)
    {
      var failure := Require(Select(db.value),
                             UnSelected("Redis server selected database failed, the db name: " + IntToString(db.value)));
      if failure.Some? {
        return Failure(failure.value);
      }
      outcome := Success(Handle(db.value, ToStr(prefix), Truthy(persistent)));
    }

    /** `$success = $redis->...; if (!$success) throw ...`: one handshake call and the exception for its refusal. */
    method Require(c: Call, error: Error) returns (failure: Option<Error>)
      modifies server
      ensures server.log == old(server.log) + [c] && server.spaces == old(server.spaces)
      ensures failure == if Accepts(server.endpoint, c) then None else Some(error)
    {
      var ok := server.Send(c);
      failure := if ok then None else Some(error);
    }

    /** The preamble of get, set, scan and deleteAll. */
    method EnsureConnected(db: Option<int>) returns (failure: Option<Error>)
      modifies this, server
      ensures var st := old(ReconnectingStep(db));
        Current() == st.session && failure == st.error && server.log == old(server.log) + st.calls
      ensures server.spaces == old(server.spaces) && config == old(config)
    {
      PrepareReconnectingCases(Current(), db, Src(), extensionLoaded, server.endpoint);
      failure := None;
      if TriggersReconnect(db) {
        this.db := db;
        failure := Connect();
        if failure.Some? {
          return;
        }
      }
      if redis.None? {
        failure := Connect();
      }
    }

    /** The preamble of ttl, save, getMembers, expire, setNx, getSet, delete, exists and publish. */
    method EnsureHandle(db: int) returns (failure: Option<Error>)
      modifies this, server
      ensures var st := old(LazyStep(db));
        Current() == st.session && failure == st.error && server.log == old(server.log) + st.calls
      ensures server.spaces == old(server.spaces) && config == old(config)
    {
      this.db := Some(db);
      failure := None;
      if redis.None? {
        failure := Connect();
      }
    }

    /** Runs `c` on the live handle and returns the reply. */
    method Issue(c: Command) returns (reply: Value)
      requires redis.Some?
      modifies server
      ensures var h := redis.value; var w := Prefixed(h.prefix, c);
        var e := Run(old(server.Space(h.db)), server.endpoint.subscribers, w);
        reply == e.reply && server.spaces == old(server.spaces)[h.db := e.space]
        && server.log == old(server.log) + [Cmd(h.db, w)]
    {
      reply := server.Execute(redis.value, c);
    }

    /** `get`. */
    method Get(key: string, db: Option<int>) returns (r: Result<Value, Error>)
      modifies this, server
      ensures var st := old(ReconnectingStep(db)); var c := Command.Get(key);
        && Performed(st, c)
        && (st.error.Some? ==> r == Failure(st.error.value))
        && (st.error.None? ==> r == Success(Reply(st, c)))
    {
      var failure := EnsureConnected(db);
      if failure.Some? {
        return Failure(failure.value);
      }
      var reply := Issue(Command.Get(key));
      r := Success(reply);
    }

    /** `set`: with the effective lifetime as expiry, or without expiry when `neverExpire`. */
    method Set(key: string, content: Value, lifetime: int, db: Option<int>, neverExpire: bool)
      returns (r: Result<Value, Error>)
      modifies this, server
      ensures var st := old(ReconnectingStep(db));
        var c := SetCommand(key, content, lifetime, st.session.settings.lifetime, neverExpire);
        && Performed(st, c)
        && (st.error.Some? ==> r == Failure(st.error.value))
        && (st.error.None? ==> r == Success(Reply(st, c)))
    {
      var failure := EnsureConnected(db);
      if failure.Some? {
        return Failure(failure.value);
      }
      var ttl := lifetime;
      if ttl == 0 {
        ttl := this.lifetime;
      }
      var reply;
      if !neverExpire {
        reply := Issue(SetEx(key, content, ttl));
      } else {
        reply := Issue(Command.Set(key, content));
      }
      r := Success(reply);
    }

    /** `ttl`. */
    method Ttl(key: string, db: int) returns (r: Result<Value, Error>)
      modifies this, server
      ensures var st := old(LazyStep(db)); var c := Command.Ttl(key);
        && Performed(st, c)
        && (st.error.Some? ==> r == Failure(st.error.value))
        && (st.error.None? ==> r == Success(Reply(st, c)))
    {
      var failure := EnsureHandle(db);
      if failure.Some? {
        return Failure(failure.value);
      }
      var reply := Issue(Command.Ttl(key));
      r := Success(reply);
    }

    /** `save`: a bulk add for an array or object, a single add otherwise. */
    method Save(key: string, content: Value, db: int) returns (r: Result<Value, Error>)
      modifies this, server
      ensures var st := old(LazyStep(db)); var c := SaveCommand(key, content);
        && Performed(st, c)
        && (st.error.Some? ==> r == Failure(st.error.value))
        && (st.error.None? ==> r == Success(Reply(st, c)))
    {
      var failure := EnsureHandle(db);
      if failure.Some? {
        return Failure(failure.value);
      }
      var reply;
      if content.Arr? || content.Obj? {
        reply := Issue(SAddArray(key, content));
      } else {
        reply := Issue(SAdd(key, content));
      }
      r := Success(reply);
    }

    /** `getMembers`: the members of a set; a reply that is not an array breaks the declared return type. */
    method GetMembers(key: string, db: int) returns (r: Result<seq<Value>, Error>)
      modifies this, server
      ensures var st := old(LazyStep(db)); var c := SMembers(key);
        && Performed(st, c)
        && (st.error.Some? ==> r == Failure(st.error.value))
        && (st.error.None? ==> r == (if Reply(st, c).Arr? then Success(Reply(st, c).items) else Failure(MembersNotArray)))
    {
      var failure := EnsureHandle(db);
      if failure.Some? {
        return Failure(failure.value);
      }
      var reply := Issue(SMembers(key));
      if reply.Arr? {
        r := Success(reply.items);
      } else {
        r := Failure(MembersNotArray);
      }
    }

    /** `expire`. */
    method Expire(key: string, lifetime: int, db: int) returns (r: Result<Value, Error>)
      modifies this, server
      ensures var st := old(LazyStep(db)); var c := Command.Expire(key, lifetime);
        && Performed(st, c)
        && (st.error.Some? ==> r == Failure(st.error.value))
        && (st.error.None? ==> r == Success(Reply(st, c)))
    {
      var failure := EnsureHandle(db);
      if failure.Some? {
        return Failure(failure.value);
      }
      var reply := Issue(Command.Expire(key, lifetime));
      r := Success(reply);
    }

    /** `setNx`: set only an absent key, expiring after the effective lifetime. */
    method SetNx(key: string, content: Value, lifetime: int, db: int) returns (r: Result<Value, Error>)
      modifies this, server
      ensures var st := old(LazyStep(db)); var c := SetNxCommand(key, content, lifetime, st.session.settings.lifetime);
        && Performed(st, c)
        && (st.error.Some? ==> r == Failure(st.error.value))
        && (st.error.None? ==> r == Success(Reply(st, c)))
    {
      var failure := EnsureHandle(db);
      if failure.Some? {
        return Failure(failure.value);
      }
      var ttl := lifetime;
      if ttl == 0 {
        ttl := this.lifetime;
      }
      var reply := Issue(SetNxEx(key, content, ttl));
      r := Success(reply);
    }

    /** `getSet`. */
    method GetSet(key: string, content: Value, db: int) returns (r: Result<Value, Error>)
      modifies this, server
      ensures var st := old(LazyStep(db)); var c := Command.GetSet(key, content);
        && Performed(st, c)
        && (st.error.Some? ==> r == Failure(st.error.value))
        && (st.error.None? ==> r == Success(Reply(st, c)))
    {
      var failure := EnsureHandle(db);
      if failure.Some? {
        return Failure(failure.value);
      }
      var reply := Issue(Command.GetSet(key, content));
      r := Success(reply);
    }

    /** `delete`: removes one key. */
    method Delete(key: string, db: int) returns (r: Result<Value, Error>)
      modifies this, server
      ensures var st := old(LazyStep(db)); var c := Del([key]);
        && Performed(st, c)
        && (st.error.Some? ==> r == Failure(st.error.value))
        && (st.error.None? ==> r == Success(Reply(st, c)))
    {
      var failure := EnsureHandle(db);
      if failure.Some? {
        return Failure(failure.value);
      }
      var reply := Issue(Del([key]));
      r := Success(reply);
    }

    /** `exists`. */
    method Exists(key: string, db: int) returns (r: Result<Value, Error>)
      modifies this, server
      ensures var st := old(LazyStep(db)); var c := Command.Exists(key);
        && Performed(st, c)
        && (st.error.Some? ==> r == Failure(st.error.value))
        && (st.error.None? ==> r == Success(Reply(st, c)))
    {
      var failure := EnsureHandle(db);
      if failure.Some? {
        return Failure(failure.value);
      }
      var reply := Issue(Command.Exists(key));
      r := Success(reply);
    }

    /** `publish`: the reply is the channel's number of subscribers. */
    method Publish(channel: string, content: string, db: int) returns (r: Result<Value, Error>)
      modifies this, server
      ensures var st := old(LazyStep(db)); var c := Command.Publish(channel, content);
        && Performed(st, c)
        && (st.error.Some? ==> r == Failure(st.error.value))
        && (st.error.None? ==> r == Success(Reply(st, c)))
    {
      var failure := EnsureHandle(db);
      if failure.Some? {
        return Failure(failure.value);
      }
      var reply := Issue(Command.Publish(channel, content));
      r := Success(reply);
    }

    /**
     * `scan`: every key of the cursor's pages, in order, up to the first empty
     * page, with the field prefix and the argument prefix joined into the pattern.
     */
    method Scan(prefix: string, count: int, db: int) returns (r: Result<seq<string>, Error>)
      modifies this, server
      ensures var st := old(ReconnectingStep(Some(db)));
        && Current() == st.session && config == old(config) && server.spaces == old(server.spaces)
        && (st.error.Some? ==> r == Failure(st.error.value) && server.log == old(server.log) + st.calls)
        && (st.error.None? ==>
              && r == Success(Accumulate(server.scanPages))
              && st.session.redis.Some?
              && var pattern := ToStr(st.session.settings.prefix) + prefix + "*";
                 server.log == old(server.log) + st.calls
                               + ScanLog(st.session.redis.value.db, pattern, count, ScanCalls(server.scanPages)))
    {
      var failure := EnsureConnected(Some(db));
      if failure.Some? {
        return Failure(failure.value);
      }
      var pattern := ToStr(this.prefix) + prefix + "*";
      var keys := Collect(redis.value, pattern, count);
      r := Success(keys);
    }

    /** The loop of `scan`: pages are fetched until one is empty or the cursor is finished. */
    method Collect(h: Handle, pattern: string, count: int) returns (total: seq<string>)
      modifies server
      ensures total == Accumulate(server.scanPages) && server.spaces == old(server.spaces)
      ensures server.log == old(server.log) + ScanLog(h.db, pattern, count, ScanCalls(server.scanPages))
    {
      ghost var pages, base := server.scanPages, server.log;
      total := [];
      var keys, it := server.ScanPage(h, Start, pattern, count);
      ScanStart(pages);
      ghost var n := 1;
      while keys.Some? && keys.value != []
        invariant server.ValidCursor(it) && server.spaces == old(server.spaces) && !it.Start?
        invariant server.log == base + ScanLog(h.db, pattern, count, n)
        invariant it.At? ==> it.index == n
        invariant ScanProgress(pages, total, keys, it, n)
        modifies server
        decreases server.Remaining(it), if keys.Some? then 1 else 0
      {
        ScanStep(pages, total, keys, it, n);
        total := total + keys.value;
        ghost var issued := !it.Done?;
        keys, it := server.ScanPage(h, it, pattern, count);
        if issued {
          assert base + ScanLog(h.db, pattern, count, n) + [ScanCall(h.db, n, pattern, count)]
              == base + ScanLog(h.db, pattern, count, n + 1);
          n := n + 1;
        }
      }
    }

    /** `deleteAll`: true exactly when the server reports as many deletions as there are keys. */
    method DeleteAll(keys: seq<string>, db: int) returns (r: Result<bool, Error>)
      modifies this, server
      ensures var st := old(ReconnectingStep(Some(db))); var c := Del(keys);
        && Performed(st, c)
        && (st.error.Some? ==> r == Failure(st.error.value))
        && (st.error.None? ==> r == Success(Reply(st, c) == Int(|keys|)))
    {
      var failure := EnsureConnected(Some(db));
      if failure.Some? {
        return Failure(failure.value);
      }
      var counts := |keys|;
      var remove := Issue(Del(keys));
      r := Success(remove == Int(counts));
    }
  }
}
