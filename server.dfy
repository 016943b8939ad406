/**
 * An abstract Redis server as the session manager sees it through the client
 * extension: one keyspace per database index, the calls the client has issued
 * (in order), and fixed oracles for everything the model does not compute —
 * whether the connect step and each client option are accepted, which password
 * and how many databases the server has, how many subscribers a channel has,
 * and the pages its key-scan cursor hands out.
 */
module RedisServer {
  import opened Wrappers
  import opened Php

  /** A connected client: the database it selected, its key prefix option and whether it is persistent. */
  datatype Handle = Handle(db: int, prefix: string, persistent: bool)

  /** A data command, with the keys of the call as written by the caller. */
  datatype Command =
    | Get(key: string)
    | Set(key: string, value: Value)
    | SetEx(key: string, value: Value, ttl: int)
    | SetNxEx(key: string, value: Value, ttl: int)
    | Ttl(key: string)
    | Expire(key: string, ttl: int)
    | GetSet(key: string, value: Value)
    | Del(keys: seq<string>)
    | Exists(key: string)
    | Publish(channel: string, message: string)
    | SAdd(key: string, member: Value)
    | SAddArray(key: string, members: Value)
    | SMembers(key: string)

  /** The client-side key prefix is prepended to every key (and channel) of a command. */
  function Prefixed(prefix: string, c: Command): (r: Command)
    ensures r.Del? <==> c.Del?
    ensures r.Del? ==> |r.keys| == |c.keys| && forall i :: 0 <= i < |c.keys| ==> r.keys[i] == prefix + c.keys[i]
  {
    match c
    case Get(k) => Get(prefix + k)
    case Set(k, v) => Set(prefix + k, v)
    case SetEx(k, v, t) => SetEx(prefix + k, v, t)
    case SetNxEx(k, v, t) => SetNxEx(prefix + k, v, t)
    case Ttl(k) => Ttl(prefix + k)
    case Expire(k, t) => Expire(prefix + k, t)
    case GetSet(k, v) => GetSet(prefix + k, v)
    case Del(ks) => Del(seq(|ks|, i requires 0 <= i < |ks| => prefix + ks[i]))
    case Exists(k) => Exists(prefix + k)
    case Publish(ch, m) => Publish(prefix + ch, m)
    case SAdd(k, m) => SAdd(prefix + k, m)
    case SAddArray(k, ms) => SAddArray(prefix + k, ms)
    case SMembers(k) => SMembers(prefix + k)
  }

  datatype ClientOption = OptPrefix | OptSerializer | OptScan

  /** One call the client issues, as recorded in the server's log. */
  datatype Call =
    | PConnect(host: Value, port: int)
    | Connect(host: Value, port: int)
    | SetOption(option: ClientOption, optionValue: Value)
    | Auth(password: Value)
    | Select(index: int)
    | Cmd(db: int, command: Command)
    | ScanCall(db: int, cursor: nat, pattern: string, count: int)

  /** The server's fixed behaviour towards connection set-up, and its channels' subscriber counts. */
  datatype Endpoint = Endpoint(
    reachable: bool,
    acceptsPrefix: bool,
    acceptsSerializer: bool,
    acceptsScanOption: bool,
    requirePass: string,
    databases: int,
    subscribers: map<string, nat>)

  /** Whether the server accepts a call: the connect and option oracles, the password, the index range. */
  predicate Accepts(e: Endpoint, c: Call) {
    match c
    case PConnect(_, _) => e.reachable
    case Connect(_, _) => e.reachable
    case SetOption(opt, _) =>
      (match opt
       case OptPrefix => e.acceptsPrefix
       case OptSerializer => e.acceptsSerializer
       case OptScan => e.acceptsScanOption)
    case Auth(p) => ToStr(p) == e.requirePass
    case Select(i) => 0 <= i < e.databases
    case Cmd(_, _) => true
    case ScanCall(_, _, _, _) => true
  }

  /** A stored value: a string value or a set (members in insertion order, without repeats). */
  datatype Data = Plain(v: Value) | Members(members: seq<Value>)

  /** A key's value and its time to live in seconds, if it expires. */
  datatype Entry = Entry(data: Data, ttl: Option<int>)

  type Keyspace = map<string, Entry>

  /** A command's effect: the new keyspace and the reply the client returns. */
  datatype Effect = Effect(space: Keyspace, reply: Value)

  function KeySet(keys: seq<string>): set<string> {
    set k | k in keys
  }

  /** The members of a set-valued key, or none when the key is absent. */
  function MembersOf(ks: Keyspace, k: string): seq<Value>
    requires k in ks ==> ks[k].data.Members?
  {
    if k in ks then ks[k].data.members else []
  }

  predicate Distinct<T(==)>(s: seq<T>) {
    forall i, j :: 0 <= i < j < |s| ==> s[i] != s[j]
  }

  /** Adds each item not yet present, in order. */
  function AddMembers(ms: seq<Value>, items: seq<Value>): seq<Value>
    decreases |items|
  {
    if items == [] then ms
    else AddMembers(if items[0] in ms then ms else ms + [items[0]], items[1..])
  }

  /** A bulk add keeps the existing members in front, and ends with the old members and the items. */
  lemma {:induction false} AddMembersContents(ms: seq<Value>, items: seq<Value>)
    ensures var r := AddMembers(ms, items);
      && |r| >= |ms| && r[..|ms|] == ms
      && forall x :: x in r <==> x in ms || x in items
    decreases |items|
  {
    if items != [] {
      var next := if items[0] in ms then ms else ms + [items[0]];
      AddMembersContents(next, items[1..]);
      var r := AddMembers(ms, items);
      assert r[..|next|] == next;
      assert r[..|ms|] == r[..|next|][..|ms|];
      assert items == [items[0]] + items[1..];
    }
  }

  /** A bulk add never introduces a repeated member. */
  lemma {:induction false} AddMembersDistinct(ms: seq<Value>, items: seq<Value>)
    requires Distinct(ms)
    ensures Distinct(AddMembers(ms, items))
    decreases |items|
  {
    if items != [] {
      var next := if items[0] in ms then ms else ms + [items[0]];
      forall i, j | 0 <= i < j < |next| ensures next[i] != next[j] {
        if j == |ms| {
          assert next[i] == ms[i];
        }
      }
      AddMembersDistinct(next, items[1..]);
    }
  }

  /**
   * What the server does with a command and what the client gets back. A
   * string operation on a set (or the reverse), an invalid expire time and an
   * empty key list are errors, which the client returns as false.
   */
  function Run(ks: Keyspace, subscribers: map<string, nat>, c: Command): Effect {
    match c
    case Get(k) =>
      Effect(ks, if k in ks && ks[k].data.Plain? then ks[k].data.v else Bool(false))
    case Set(k, v) =>
      Effect(ks[k := Entry(Plain(v), None)], Bool(true))
    case SetEx(k, v, t) =>
      if t <= 0 then Effect(ks, Bool(false))
      else Effect(ks[k := Entry(Plain(v), Some(t))], Bool(true))
    case SetNxEx(k, v, t) =>
      if t <= 0 || k in ks then Effect(ks, Bool(false))
      else Effect(ks[k := Entry(Plain(v), Some(t))], Bool(true))
    case Ttl(k) =>
      Effect(ks, if k !in ks then Int(-2) else if ks[k].ttl.None? then Int(-1) else Int(ks[k].ttl.value))
    case Expire(k, t) =>
      if k !in ks then Effect(ks, Bool(false))
      else if t <= 0 then Effect(ks - {k}, Bool(true))
      else Effect(ks[k := ks[k].(ttl := Some(t))], Bool(true))
    case GetSet(k, v) =>
      if k in ks && ks[k].data.Members? then Effect(ks, Bool(false))
      else Effect(ks[k := Entry(Plain(v), None)], if k in ks then ks[k].data.v else Bool(false))
    case Del(keys) =>
      if keys == [] then Effect(ks, Bool(false))
      else Effect(ks - KeySet(keys), Int(|KeySet(keys) * ks.Keys|))
    case Exists(k) =>
      Effect(ks, Int(if k in ks then 1 else 0))
    case Publish(ch, _) =>
      Effect(ks, Int(if ch in subscribers then subscribers[ch] else 0))
    case SAdd(k, m) =>
      if k in ks && ks[k].data.Plain? then Effect(ks, Bool(false))
      else if m in MembersOf(ks, k) then Effect(ks, Int(0))
      else Effect(ks[k := Entry(Members(MembersOf(ks, k) + [m]), if k in ks then ks[k].ttl else None)], Int(1))
    case SAddArray(k, items) =>
      if !items.Arr? || items.items == [] || (k in ks && ks[k].data.Plain?) then Effect(ks, Bool(false))
      else
        var ms := AddMembers(MembersOf(ks, k), items.items);
        Effect(ks[k := Entry(Members(ms), if k in ks then ks[k].ttl else None)], Int(|ms| - |MembersOf(ks, k)|))
    case SMembers(k) =>
      if k !in ks then Effect(ks, Arr([]))
      else if ks[k].data.Plain? then Effect(ks, Bool(false))
      else Effect(ks, Arr(ks[k].data.members))
  }

  /** A key-scan cursor: before the first call, inside the page sequence, or finished. */
  datatype Cursor = Start | At(index: nat) | Done

  function CursorIndex(it: Cursor): nat {
    if it.At? then it.index else 0
  }

  /** The page a scan call at cursor `it` returns: none once the cursor is finished. */
  function PageAt(pages: seq<seq<string>>, it: Cursor): Option<seq<string>> {
    if it.Done? then None
    else Some(if CursorIndex(it) < |pages| then pages[CursorIndex(it)] else [])
  }

  /** The cursor after a scan call at `it`: the next page, or finished after the last one. */
  function NextCursor(pages: seq<seq<string>>, it: Cursor): Cursor {
    if !it.Done? && CursorIndex(it) + 1 < |pages| then At(CursorIndex(it) + 1) else Done
  }

  class Server {
    const endpoint: Endpoint
    /** The pages the server's scan cursor hands out, in order, for any pattern. */
    const scanPages: seq<seq<string>>
    var spaces: map<int, Keyspace>
    var log: seq<Call>

    constructor (endpoint: Endpoint, scanPages: seq<seq<string>>, spaces: map<int, Keyspace>)
      ensures this.endpoint == endpoint && this.scanPages == scanPages
      ensures this.spaces == spaces && log == []
    {
      this.endpoint := endpoint;
      this.scanPages := scanPages;
      this.spaces := spaces;
      log := [];
    }

    /** The keyspace of a database; one never written is empty. */
    function Space(db: int): Keyspace
      reads this
    {
      if db in spaces then spaces[db] else map[]
    }

    predicate ValidCursor(it: Cursor) {
      it.At? ==> it.index < |scanPages|
    }

    /** How many scan replies a cursor can still produce. */
    function Remaining(it: Cursor): nat {
      match it
      case Start => |scanPages| + 1
      case At(i) => if i < |scanPages| then |scanPages| - i else 0
      case Done => 0
    }

    /** A connection set-up call: recorded, and answered by the endpoint. */
    method Send(c: Call) returns (ok: bool)
      modifies this
      ensures ok == Accepts(endpoint, c)
      ensures log == old(log) + [c] && spaces == old(spaces)
    {
      log := log + [c];
      ok := Accepts(endpoint, c);
    }

    /** A data command on database `h.db`, with the handle's key prefix applied. */
    method Execute(h: Handle, c: Command) returns (reply: Value)
      modifies this
      ensures var e := Run(old(Space(h.db)), endpoint.subscribers, Prefixed(h.prefix, c));
        reply == e.reply && spaces == old(spaces)[h.db := e.space]
      ensures log == old(log) + [Cmd(h.db, Prefixed(h.prefix, c))]
    {
      var e := Run(Space(h.db), endpoint.subscribers, Prefixed(h.prefix, c));
      log := log + [Cmd(h.db, Prefixed(h.prefix, c))];
      spaces := spaces[h.db := e.space];
      reply := e.reply;
    }

    /**
     * `$redis->scan($it, $pattern, $count)`: a finished cursor returns false
     * without a call; otherwise the page at the cursor is returned and the
     * cursor advances, finishing after the last page.
     */
    method ScanPage(h: Handle, it: Cursor, pattern: string, count: int) returns (page: Option<seq<string>>, next: Cursor)
      requires ValidCursor(it)
      modifies this
      ensures page == PageAt(scanPages, it) && next == NextCursor(scanPages, it)
      ensures ValidCursor(next) && spaces == old(spaces)
      ensures log == old(log) + (if it.Done? then [] else [ScanCall(h.db, CursorIndex(it), pattern, count)])
      ensures !it.Done? ==> Remaining(next) < Remaining(it)
    {
      if it.Done? {
        page, next := None, Done;
      } else {
        var i := CursorIndex(it);
        log := log + [ScanCall(h.db, i, pattern, count)];
        page := Some(if i < |scanPages| then scanPages[i] else []);
        next := if i + 1 < |scanPages| then At(i + 1) else Done;
      }
    }
  }
}
