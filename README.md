# RedisSync session manager, modelled in Dafny

This project models `Client\RedisSync`, a PHP session manager for a Redis
cache. The class keeps process-wide static state:

- the resolved connection settings;
- the selected database `_db`;
- the live handle `_redis`.

Every public operation first makes sure that state is usable, then issues one
call to the server (or, for `scan`, a sequence of calls).

The project is organised as follows.

- `wrappers.dfy`: `Option` and `Result`.
- `exceptions.dfy`: the six exception classes the session raises, each with
  its message.
- `php.dfy`: the PHP value semantics the code depends on:
  - loose `== null`;
  - truthiness;
  - the `(int)` cast of strings;
  - string conversion by `.`.
- `config.dfy`: `initialize`, `useConfig` and `useApiConfig` as one pure
  resolution over the settings source and the current fields. It records
  which field is checked first and which message each failure carries.
- `server.dfy`: an abstract Redis server. It has:
  - one keyspace per database index;
  - a log of every call the client issues;
  - an endpoint oracle that decides whether connect, each client option,
    `auth` and `select` succeed;
  - the fixed pages its scan cursor hands out.
- `connection.dfy`: the six-step handshake of `_connect`, the step before
  each operation that connects or reconnects, and the laws of both.
- `operations.dfy`: the decisions the operations make themselves:
  - lifetime defaulting in `set` and `setNx`;
  - the shape dispatch of `save`;
  - page accumulation in `scan`;
  - the count comparison of `deleteAll`.
- `client.dfy`: the class `RedisSync`. The static fields are object fields,
  and each operation is a method proved against the functions above.
  - The settings readers write the fields one check at a time.
  - `_connect` issues its calls step by step and installs the handle last.
  - `scan` is a `while` loop that threads the cursor and appends to the
    result.

Every exception the PHP code throws becomes a `Failure` carrying the same
exception class and message. The one exception: a setting that holds an
object is turned into the text `Object` where PHP raises an `Error` (see
"Left out").

Four behaviours of the code are easy to miss:

- **The connected database.** After any successful connect, the selected
  database is the configured `REDIS_DB`, not the `db` the caller passed.
  `_connect` calls `initialize`, and a successful resolution overwrites `_db`
  (`src/RedisSync.php:90`, `:131`) before `select` (`:194`). See
  `Connection.ConnectStepInstalls`, `Connection.ReconnectSelectsConfiguredDb`
  and `Connection.LazyConnectSelectsConfiguredDb`.
- **Resolution on every connect.** Settings are resolved again on every
  connect, not once.
- **Lazy operations never reconnect.** `ttl`, `save`, `getMembers`, `expire`,
  `setNx`, `getSet`, `delete`, `exists` and `publish` only store `db`. They
  never reconnect a live handle, whatever `db` is.
- **Failed resolution keeps its writes.** A resolution that fails leaves
  written every field checked up to the failure
  (`Config.FailedResolutionWrites`).

## Model

| member | source | states |
|---|---|---|
| Config.SourceOf | src/RedisSync.php:50-55 | settings come from the configuration object exactly when one is set, otherwise from the environment |
| Config.Resolve | src/RedisSync.php:61-137 | after a successful resolution, host, port, password and lifetime are usable and `_db` is the configured REDIS_DB; the host is always overwritten; a failed resolution leaves `_db`, the prefix and the persistence flag untouched |
| Config.ResolveFailsAtFirstMissing | src/RedisSync.php:64-84 | resolution fails with the message of field f exactly when f is the first missing field in the order host, port, password, lifetime; it succeeds exactly when none is missing |
| Config.FailedResolutionWrites | src/RedisSync.php:61-137 | a resolution failing at a field has written every field checked up to and including it, from the source, and left every later field as it was |
| Config.MissingMessagesDistinct | src/RedisSync.php:66-83 | each validated field has its own message, so the message identifies the check that failed |
| Config.FirstMissingCases | src/RedisSync.php:64-84 | the first-missing relation spelled out per field: a field fails only when every earlier field passed |
| Config.ResolvedSettings | src/RedisSync.php:87-95 | a resolved session holds every setting as read from its source, with the PHP serializer |
| Config.Initialize | src/RedisSync.php:44-56 | without the redis extension, initialize fails with UnexpectedException and changes nothing; otherwise it is the resolution from the selected source |
| Config.UnvalidatedSettings | src/RedisSync.php:89-95 | no value of REDIS_DB, REDIS_PERSISTENT or REDIS_PREFIX can make resolution fail |
| Config.ResolutionOverwritesDb | src/RedisSync.php:90 | whatever `_db` held before, a successful resolution gives the same result and sets `_db` to the configured REDIS_DB |
| Config.SampleConfigResolves | config/redis.php:13-22 | the shipped 'sync' configuration resolves to port 6379, lifetime 120, database 0, persistent, empty prefix |
| Config.ConfigRoundTrip | src/RedisSync.php:101-137 | a configuration object holding every setting, with integer numbers, resolves to exactly those values |
| Config.EnvironmentNumbers | src/RedisSync.php:70-90 | port, lifetime and database given as decimal text in the environment resolve to the integers they spell |
| Config.NumberFromText | src/RedisSync.php:70 | a setting given as the decimal text of an integer is cast back to that integer |
| Config.ResolvesWhenPresent | src/RedisSync.php:64-84 | resolution succeeds as soon as the four validated settings are present |
| Config.AbsentLifetime | src/RedisSync.php:81 | without REDIS_LIFETIME, the environment keeps the current lifetime, while a configuration object always fails the lifetime check |
| Php.LooseNull | src/RedisSync.php:65 | the loose comparison `== null`: null, false, 0, the empty string and the empty array are null-like; an object never is |
| Php.Truthy | src/RedisSync.php:155 | PHP truthiness: null, false, 0, the empty string, "0" and the empty array are false; everything else, objects included, is true |
| Php.ToInt | src/RedisSync.php:70 | the `(int)` cast: null gives 0, booleans 0 or 1, objects 1, strings their leading signed decimal digits after white space (0 when there are none), arrays 0 when empty and 1 otherwise |
| Php.ToStr | src/RedisSync.php:158 | conversion by `.`: null and false give the empty string, true gives "1", integers their decimal text, arrays "Array" |
| Php.IntRoundTrip | src/RedisSync.php:70 | `(int)` applied to the decimal text of an integer gives back that integer |
| Php.LooseNullIsFalsy | src/RedisSync.php:65 | a loosely null value is falsy; the string "0" is neither null-like nor truthy |
| Php.DigitsOfNat | src/RedisSync.php:158 | the decimal text of a number spells that number |
| Connection.StepErrorKinds | src/RedisSync.php:155-197 | each handshake step fails with its own exception class: Unconnected for step 0, InvalidArgument for steps 1-3, Authorization for step 4, UnSelected for step 5 |
| Connection.HandshakeFrom | src/RedisSync.php:155-197 | the calls from step k on are taken strictly in order; issuing stops right after the refused step or runs through step 5 |
| Connection.HandshakeFromAccepted | src/RedisSync.php:155-197 | every call issued before the last one was accepted, and the refused step was refused |
| Connection.HandshakeFromVerdict | src/RedisSync.php:155-197 | no step from k on is refused exactly when the server accepts every one of them |
| Connection.Outcome | src/RedisSync.php:194-199 | the handshake yields a handle exactly when no step was refused |
| Connection.Handshake | src/RedisSync.php:152-199 | the calls are pconnect (or connect when not persistent), prefix, serializer, scan option, auth, select, in that order, cut at the first refusal; the handshake succeeds exactly when all six are accepted, and then the handle is on `_db` with the prefix; a failure carries the refused step's own exception |
| Connection.ConnectStep | src/RedisSync.php:148-200 | a failure anywhere leaves `_redis` as it was, and a success leaves a handle; the fields are those `initialize` produced |
| Connection.ConnectStepResolved | src/RedisSync.php:151-199 | once the settings resolve, `_connect` is the handshake on them |
| Connection.ConnectStepInstalls | src/RedisSync.php:151-199 | a successful `_connect` installs a handle on the configured REDIS_DB, with the configured prefix and persistence, whatever `_db` held before |
| Connection.ConnectStepIssues | src/RedisSync.php:151-152 | `_connect` issues calls to the server exactly when the extension is loaded and the settings resolve |
| Connection.TriggersReconnect | src/RedisSync.php:218 | `$db != null` on an int parameter: a reconnect is triggered exactly when a db is given and it is not 0 |
| Connection.PrepareReconnecting | src/RedisSync.php:218-228 | after the preamble of get, set, scan and deleteAll there is a handle unless it failed, and a failure leaves `_redis` as it was |
| Connection.PrepareReconnectingCases | src/RedisSync.php:218-228 | a db that is neither null nor 0 reconnects even with a live handle; otherwise a live handle is reused without a call and `_db` is left alone, and without one the session connects |
| Connection.ReconnectSelectsConfiguredDb | src/RedisSync.php:219-220 | whenever this preamble connects, the handle is on the configured database, not on the requested one |
| Connection.PrepareLazy | src/RedisSync.php:288-296 | the preamble of the other operations stores db in `_db` and never replaces a live handle |
| Connection.LazyConnectSelectsConfiguredDb | src/RedisSync.php:291-296 | without a handle, the lazy preamble connects, and the handle is on the configured database |
| Operations.EffectiveLifetime | src/RedisSync.php:264-266 | a lifetime of 0 is replaced by the configured lifetime; any other lifetime is kept; with a valid configured lifetime the result is never 0 |
| Operations.SetCommand | src/RedisSync.php:264-273 | set sends a call without expiry exactly when neverExpire holds, and otherwise one with the effective lifetime |
| Operations.SetNxCommand | src/RedisSync.php:407-411 | setNx always sends NX, with EX equal to the given lifetime, or to the configured one when the given lifetime is 0 |
| Operations.SetWithLifetime | src/RedisSync.php:268-269 | set with a positive effective lifetime stores the content with that time to live and returns true |
| Operations.SetDefaultLifetime | tests/RedisSyncTest.php:42-46 | set with the default arguments stores the content with the configured lifetime and returns true |
| Operations.SetNeverExpire | src/RedisSync.php:271-272 | neverExpire stores the content without a time to live, whatever lifetime was asked for |
| Operations.SetNxOnlyWhenAbsent | src/RedisSync.php:411 | setNx succeeds exactly when the key is absent and the effective lifetime is positive, and only then changes the keyspace |
| Operations.SaveCommand | src/RedisSync.php:324-328 | save issues one bulk add for an array or object, and one single add carrying the content otherwise |
| Operations.SaveThenMembers | src/RedisSync.php:324-353 | saving to a fresh key and reading its members back gives the one scalar, or the items of an array without repeats and with exactly the same members, in no promised order |
| RedisServer.AddMembersDistinct | src/RedisSync.php:325 | a bulk add never gives a set a repeated member |
| Operations.Accumulate | src/RedisSync.php:559-563 | every key scan returns comes from some page, and there are no more keys than on all pages |
| Operations.ScanCalls | src/RedisSync.php:559 | scan makes at least one call, and at most one more than there are pages |
| Operations.ScanLog | src/RedisSync.php:559 | the scan calls are made at cursor positions 0, 1, 2, …, with the same pattern and count |
| Operations.ScanStart | src/RedisSync.php:556-559 | the first scan call, from the null cursor, starts the loop in a state that accounts for the whole result |
| Operations.ScanStep | src/RedisSync.php:559-563 | appending the page in hand and making one more call keeps the loop's result and call count on track |
| Operations.ScanCallsAll | src/RedisSync.php:559 | with no empty page, scan makes one call per page |
| Operations.AccumulateAll | src/RedisSync.php:559-563 | with no empty page, scan returns every key of every page, in order |
| Operations.AccumulateStops | src/RedisSync.php:559-563 | scan returns exactly the keys of the pages before the first empty one |
| Operations.ScanThreePages | src/RedisSync.php:559-563 | scan adds no deduplication or filtering of its own: three one-key pages give three keys, and a repeated key is kept |
| Operations.KeySetSize | src/RedisSync.php:596-599 | a key list has as many different keys as entries exactly when it has no repeats |
| Operations.IntersectionSize | src/RedisSync.php:597-599 | the number of listed keys that exist equals the number listed exactly when all of them exist |
| Operations.PrefixedDistinct | src/RedisSync.php:597 | prefixing keys keeps them distinct exactly when they were distinct |
| Operations.PrefixedPresent | src/RedisSync.php:597 | every prefixed key is stored exactly when every listed key, prefixed, is in the keyspace |
| Operations.DeleteAllVerdict | src/RedisSync.php:596-599 | deleteAll's count equals the number of keys exactly when the list is non-empty, has no repeats and every key exists |
| Operations.DeleteScannedKeys | tests/RedisSyncTest.php:73-83 | stripping the prefix from distinct, stored, scanned keys and deleting them makes deleteAll report true |
| RedisServer.Prefixed | src/RedisSync.php:170 | the key-prefix option prepends the prefix to every key of a deletion, keeping the list's length |
| RedisServer.AddMembersContents | src/RedisSync.php:325 | a bulk add keeps the existing members in front, and the members afterwards are the old ones and the items |
| RedisServer.Server.ScanPage | src/RedisSync.php:559 | a finished cursor returns false without a call; otherwise one call returns the page at the cursor and advances it |
| Client.RedisSync.constructor | src/RedisSync.php:26-36 | every static field starts as in the class body: no database, no handle, no host, password or serializer, port 0 (null in the class body, never read before resolution writes it), lifetime 0, persistent, no prefix and no configuration object |
| Client.RedisSync.Initialize | src/RedisSync.php:44-56 | the fields and the raised exception are those of `Config.Initialize` on the current fields and source |
| Client.RedisSync.UseConfig | src/RedisSync.php:101-137 | writes the fields as resolution from the configuration object does, stopping at the first failing check; the handle is untouched |
| Client.RedisSync.UseApiConfig | src/RedisSync.php:61-96 | writes the fields as resolution from the environment does, stopping at the first failing check; the handle is untouched |
| Client.RedisSync.Connect | src/RedisSync.php:148-200 | session, exception and issued calls are those of `Connection.ConnectStep`, and no keyspace changes |
| Client.RedisSync.OpenHandle | src/RedisSync.php:152-197 | issues exactly the calls of `Connection.Handshake`, with its outcome |
| Client.RedisSync.Open | src/RedisSync.php:155-167 | one pconnect (when persistent) or connect call, and its UnconnectedException naming host and port when refused |
| Client.RedisSync.SetPrefixOption | src/RedisSync.php:170-173 | from the prefix option on, the calls and outcome of `Connection.HandshakeFrom` from step 1 |
| Client.RedisSync.SetSerializerOption | src/RedisSync.php:176-179 | from the serializer option on, the calls and outcome of the handshake from step 2 |
| Client.RedisSync.SetScanOption | src/RedisSync.php:182-185 | from the scan option on, the calls and outcome of the handshake from step 3; its exception reports the serializer |
| Client.RedisSync.Authenticate | src/RedisSync.php:188-191 | from auth on, the calls and outcome of the handshake from step 4 |
| Client.RedisSync.SelectDatabase | src/RedisSync.php:194-199 | select on `_db`; either UnSelectedException naming the database, or the handle |
| Client.RedisSync.EnsureConnected | src/RedisSync.php:218-228 | session, exception and calls follow `Connection.PrepareReconnecting` |
| Client.RedisSync.EnsureHandle | src/RedisSync.php:288-296 | session, exception and calls follow `Connection.PrepareLazy` |
| Client.RedisSync.Get | src/RedisSync.php:214-231 | after the reconnecting preamble, one GET of the key on the handle's database with its prefix; the reply is returned, or the preamble's exception |
| Client.RedisSync.Set | src/RedisSync.php:248-274 | after the reconnecting preamble, the `Operations.SetCommand` call with the configured lifetime; the reply, or the preamble's exception |
| Client.RedisSync.Ttl | src/RedisSync.php:288-299 | after the lazy preamble, one TTL call; the reply, or the preamble's exception |
| Client.RedisSync.Save | src/RedisSync.php:314-329 | after the lazy preamble, the one call of `Operations.SaveCommand`; the reply, or the preamble's exception |
| Client.RedisSync.GetMembers | src/RedisSync.php:343-354 | after the lazy preamble, one SMEMBERS call; its items, or a TypeError when the reply is not an array, or the preamble's exception |
| Client.RedisSync.Expire | src/RedisSync.php:369-380 | after the lazy preamble, one EXPIRE call with the lifetime as given; the reply, or the preamble's exception |
| Client.RedisSync.SetNx | src/RedisSync.php:396-412 | after the lazy preamble, the `Operations.SetNxCommand` call with the configured lifetime; the reply, or the preamble's exception |
| Client.RedisSync.GetSet | src/RedisSync.php:427-439 | after the lazy preamble, one GETSET call; the reply, or the preamble's exception |
| Client.RedisSync.Delete | src/RedisSync.php:453-465 | after the lazy preamble, one DEL of the single key; the reply, or the preamble's exception |
| Client.RedisSync.Exists | src/RedisSync.php:488-499 | after the lazy preamble, one EXISTS call; the reply, or the preamble's exception |
| Client.RedisSync.Publish | src/RedisSync.php:514-525 | after the lazy preamble, one PUBLISH on the channel; the reply is the channel's subscriber count, or the preamble's exception |
| Client.RedisSync.Scan | src/RedisSync.php:540-566 | after the reconnecting preamble, the keys of all pages before the first empty one, in order; the calls are the scan calls from position 0 with pattern prefix + argument + `*`; no keyspace changes |
| Client.RedisSync.Collect | src/RedisSync.php:556-565 | the loop returns the accumulated pages and issues exactly the scan calls from position 0 on |
| Client.RedisSync.DeleteAll | src/RedisSync.php:580-600 | after the reconnecting preamble, one DEL of the list; true exactly when the reply is the integer count of the list, or the preamble's exception |
| Client.RedisSync.Require | src/RedisSync.php:156-158 | one handshake call, with the given exception exactly when the server refuses it |

## Left out

- The phpredis extension and the Redis wire protocol are left out. The server
  is abstract:
  - one keyspace per database;
  - replies as `RedisServer.Run` describes them;
  - a fixed endpoint oracle decides whether connect, each client option, `auth`
    and `select` succeed.
- Serialization is left out. Values are stored and returned as the PHP values
  themselves, with no serializer run.
- Times to live are numbers stored with the key. They never count down, since
  there is no clock.
- `publish` returns the subscriber-count oracle for the channel. Messages are
  not delivered.
- The scan cursor's pages are a fixed oracle. They are not derived from the
  keyspace or the match pattern.
- The `OPT_SCAN` retry semantics are left out. The scan option is one more
  call that may be refused.
- Concurrency on the shared static state is left out, since the model is
  sequential.
- `extension_loaded`, `env()` and the `Common\Property` helpers are not part of
  this model:
  - `extension_loaded` is a boolean fixed when the object is built;
  - `env()` and the helpers are map lookups with the defaults they are called
    with.
- Php.ToInt: a string converts to its leading signed decimal digits, so a
  string in exponent notation such as `"1e3"` or `"1.5e3"` converts to 1, where
  PHP 7.1 and later convert the whole number (1000 and 1500). Floats, decimal
  fractions and 64-bit overflow are not covered either; objects convert to 1.
  This affects REDIS_PORT, REDIS_LIFETIME and REDIS_DB given in those forms.
- Config.SourceOf: the configuration object is either set (a map of settings)
  or null. A `$config` holding false, `[]` or `""`, which the loose
  `$config != null` would also treat as unset, is not representable; the class
  documents the field as a configuration object or null.
- PHP's argument coercion is not modelled. The `db` parameters are integers,
  and `get`'s and `set`'s nullable `db` is an `Option<int>`.
- Php.ToStr: an object converts to the text `Object`. PHP raises an `Error`
  instead, because an object without `__toString` cannot be converted. A
  configuration object whose REDIS_HOST, REDIS_PASSWORD or REDIS_PREFIX is an
  object resolves, and the model then builds exception messages, the handle's
  prefix and `scan`'s pattern from `Object` where the code raises that `Error`.
  Objects passed into extension calls are not type-checked either.
- RedisServer.AddMembersContents: its first clause, that a bulk add keeps the existing
  members in front, is about the model's server, which keeps set members in
  insertion order. Redis returns a set's members in no fixed order, and no
  operation's contract here depends on that order.
- `queryKeys` is not modelled, because it is an empty stub.
- The extension's own behaviour is an assumption, not something the code
  shows:
  - a set with a non-positive expiry fails and returns false;
  - a deletion with an empty key list returns false.
- `src/WebSocket.php`, `src/HttpClientAsync.php` and `src/HttpClientSync.php`
  are not part of this model. They are I/O plumbing over extensions.
