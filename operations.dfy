/**
 * The decisions the cache operations make beyond forwarding a call: lifetime
 * defaulting in set and setNx, the shape dispatch of save, the page
 * accumulation of scan and the count comparison of deleteAll, with what they
 * mean for the server's keyspace.
 */
module Operations {
  import opened Wrappers
  import opened Php
  import opened RedisServer

  /** A lifetime of 0 stands for the configured lifetime; any other lifetime is used as given. */
  function EffectiveLifetime(lifetime: int, configured: int): (r: int)
    ensures r == lifetime || (lifetime == 0 && r == configured)
    // With a valid configured lifetime, a zero lifetime never reaches the server.
    ensures configured != 0 ==> r != 0
  {
    if lifetime == 0 then configured else lifetime
  }

  /** The wire call of `set`: without expiry when `neverExpire`, else with the effective lifetime. */
  function SetCommand(key: string, content: Value, lifetime: int, configured: int, neverExpire: bool): (c: Command)
    ensures c.Set? <==> neverExpire
    ensures c.SetEx? <==> !neverExpire
    ensures c.key == key && c.value == content
    ensures c.SetEx? ==> c.ttl == EffectiveLifetime(lifetime, configured)
  {
    if !neverExpire then SetEx(key, content, EffectiveLifetime(lifetime, configured)) else Set(key, content)
  }

  /** The wire call of `setNx`: always NX, with EX the effective lifetime. */
  function SetNxCommand(key: string, content: Value, lifetime: int, configured: int): (c: Command)
    ensures c.SetNxEx? && c.key == key && c.value == content
    ensures lifetime != 0 ==> c.ttl == lifetime
    ensures lifetime == 0 ==> c.ttl == configured
  {
    SetNxEx(key, content, EffectiveLifetime(lifetime, configured))
  }

  /** `is_array($content) || is_object($content)` */
  predicate IsComposite(v: Value) {
    v.Arr? || v.Obj?
  }

  /** The one wire call of `save`: a bulk add for an array or object, a single add otherwise. */
  function SaveCommand(key: string, content: Value): (c: Command)
    ensures c.SAddArray? <==> IsComposite(content)
    ensures c.SAdd? <==> !IsComposite(content)
    ensures c.key == key
    ensures c.SAdd? ==> c.member == content
    ensures c.SAddArray? ==> c.members == content
  {
    if IsComposite(content) then SAddArray(key, content) else SAdd(key, content)
  }

  lemma SetWithLifetime(ks: Keyspace, subs: map<string, nat>, key: string, content: Value, lifetime: int, configured: int)
    requires EffectiveLifetime(lifetime, configured) > 0
    ensures Run(ks, subs, SetCommand(key, content, lifetime, configured, false)) ==
      Effect(ks[key := Entry(Plain(content), Some(EffectiveLifetime(lifetime, configured)))], Bool(true))
  {
  }

  /** `set($key, $content)` with the defaults stores the key with the configured lifetime and returns true. */
  lemma SetDefaultLifetime(ks: Keyspace, subs: map<string, nat>, key: string, content: Value, configured: int)
    requires configured > 0
    ensures Run(ks, subs, SetCommand(key, content, 0, configured, false)) ==
      Effect(ks[key := Entry(Plain(content), Some(configured))], Bool(true))
  {
  }

  /** `neverExpire` stores the key without a time to live, whatever lifetime was asked for. */
  lemma SetNeverExpire(ks: Keyspace, subs: map<string, nat>, key: string, content: Value, lifetime: int, configured: int)
    ensures Run(ks, subs, SetCommand(key, content, lifetime, configured, true)) ==
      Effect(ks[key := Entry(Plain(content), None)], Bool(true))
  {
  }

  /** setNx stores only an absent key, with the effective lifetime, and reports whether it did. */
  lemma SetNxOnlyWhenAbsent(ks: Keyspace, subs: map<string, nat>, key: string, content: Value, lifetime: int, configured: int)
    ensures var e := Run(ks, subs, SetNxCommand(key, content, lifetime, configured));
      var t := EffectiveLifetime(lifetime, configured);
      && (e.reply == Bool(true) <==> key !in ks && t > 0)
      && (e.reply == Bool(true) ==> e.space == ks[key := Entry(Plain(content), Some(t))])
      && (e.reply != Bool(true) ==> e.space == ks)
  {
  }

  /**
   * Saving to a fresh key and reading its members back: a scalar gives a set of
   * that one member; an array gives its items without repeats, in an order the
   * server chooses.
   */
  lemma SaveThenMembers(ks: Keyspace, subs: map<string, nat>, key: string, content: Value)
    requires key !in ks
    requires !content.Obj?
    requires content.Arr? ==> content.items != []
    ensures var e := Run(ks, subs, SaveCommand(key, content));
      var reply := Run(e.space, subs, SMembers(key)).reply;
      if content.Arr? then
        reply.Arr? && Distinct(reply.items) && forall x :: x in reply.items <==> x in content.items
      else reply == Arr([content])
  {
    if content.Arr? {
      AddMembersContents([], content.items);
      AddMembersDistinct([], content.items);
      assert Run(ks, subs, SAddArray(key, content)).space == ks[key := Entry(Members(AddMembers([], content.items)), None)];
    } else {
      assert MembersOf(ks, key) + [content] == [content];
      assert Run(ks, subs, SAdd(key, content)).space == ks[key := Entry(Members([content]), None)];
    }
  }

  /** The pages a cursor has not handed out yet. */
  function PagesAfter(pages: seq<seq<string>>, it: Cursor): seq<seq<string>>
    requires it.At? ==> it.index <= |pages|
  {
    match it
    case Start => pages
    case At(k) => pages[k..]
    case Done => []
  }

  /** All keys of the pages, in order. */
  function Flatten(pages: seq<seq<string>>): seq<string> {
    if pages == [] then [] else pages[0] + Flatten(pages[1..])
  }

  /**
   * What scan returns: the keys of every page up to the first empty one, in
   * order and with any repeats.
   */
  function Accumulate(pages: seq<seq<string>>): (r: seq<string>)
    ensures forall x :: x in r ==> exists i :: 0 <= i < |pages| && x in pages[i]
    ensures |r| <= |Flatten(pages)|
  {
    if pages == [] || pages[0] == [] then []
    else
      var rest := Accumulate(pages[1..]);
      assert forall x :: x in rest ==> exists i :: 1 <= i < |pages| && x in pages[i] by {
        forall x | x in rest ensures exists i :: 1 <= i < |pages| && x in pages[i] {
          var j :| 0 <= j < |pages[1..]| && x in pages[1..][j];
          assert pages[j + 1] == pages[1..][j];
        }
      }
      pages[0] + rest
  }

  /**
   * How many scan calls reach the server: one per page up to and including the
   * first empty one, and at least one even when there are no pages.
   */
  function ScanCalls(pages: seq<seq<string>>): (n: nat)
    ensures 1 <= n <= |pages| + 1
  {
    if |pages| <= 1 || pages[0] == [] then 1 else 1 + ScanCalls(pages[1..])
  }

  /** The first `n` calls of a scan on database `db`: cursor positions 0 to n - 1, with the same pattern and count. */
  function ScanLog(db: int, pattern: string, count: int, n: nat): (r: seq<Call>)
    ensures |r| == n
    ensures forall j :: 0 <= j < n ==> r[j] == ScanCall(db, j, pattern, count)
  {
    if n == 0 then [] else ScanLog(db, pattern, count, n - 1) + [ScanCall(db, n - 1, pattern, count)]
  }

  /** The scan calls still to come from a cursor. */
  function CallsAfter(pages: seq<seq<string>>, it: Cursor): nat
    requires it.At? ==> it.index < |pages|
  {
    match it
    case Start => ScanCalls(pages)
    case At(k) => ScanCalls(pages[k..])
    case Done => 0
  }

  /**
   * Where the scan loop stands: with a non-empty page in hand, the result is the
   * keys so far, that page and what the cursor still yields; after the last
   * call, the keys so far. `n` counts the calls made.
   */
  predicate ScanProgress(pages: seq<seq<string>>, total: seq<string>, page: Option<seq<string>>, it: Cursor, n: nat)
    requires it.At? ==> it.index < |pages|
  {
    if page.Some? && page.value != [] then
      Accumulate(pages) == total + page.value + Accumulate(PagesAfter(pages, it)) && n + CallsAfter(pages, it) == ScanCalls(pages)
    else
      Accumulate(pages) == total && n == ScanCalls(pages)
  }

  /** The first scan call starts the loop in a state that tracks the whole result. */
  lemma ScanStart(pages: seq<seq<string>>)
    ensures ScanProgress(pages, [], PageAt(pages, Start), NextCursor(pages, Start), 1)
  {
    if pages != [] {
      assert pages[1..] == PagesAfter(pages, NextCursor(pages, Start));
    }
  }

  /** One more scan call, taking in the page in hand, keeps the loop's result on track. */
  lemma ScanStep(pages: seq<seq<string>>, total: seq<string>, page: Option<seq<string>>, it: Cursor, n: nat)
    requires !it.Start? && (it.At? ==> it.index < |pages|)
    requires page.Some? && page.value != [] && ScanProgress(pages, total, page, it, n)
    ensures ScanProgress(pages, total + page.value, PageAt(pages, it), NextCursor(pages, it),
                         if it.Done? then n else n + 1)
  {
    if it.At? {
      var k := it.index;
      var rest := pages[k..];
      assert rest[0] == pages[k];
      if k + 1 < |pages| {
        assert rest[1..] == pages[k + 1..];
      }
      var after := Accumulate(PagesAfter(pages, NextCursor(pages, it)));
      if pages[k] != [] {
        assert total + page.value + (pages[k] + after) == total + page.value + pages[k] + after;
      }
    }
  }

  /** With no empty page, scan costs one call per page. */
  lemma {:induction false} ScanCallsAll(pages: seq<seq<string>>)
    requires pages != [] && forall i :: 0 <= i < |pages| ==> pages[i] != []
    ensures ScanCalls(pages) == |pages|
  {
    if |pages| > 1 {
      ScanCallsAll(pages[1..]);
    }
  }

  /** When no page is empty, scan returns every key of every page. */
  lemma {:induction false} AccumulateAll(pages: seq<seq<string>>)
    requires forall i :: 0 <= i < |pages| ==> pages[i] != []
    ensures Accumulate(pages) == Flatten(pages)
  {
    if pages != [] {
      AccumulateAll(pages[1..]);
    }
  }

  /** Scan stops at the first empty page: what follows it is never returned. */
  lemma {:induction false} AccumulateStops(pages: seq<seq<string>>, k: nat)
    requires k < |pages| && pages[k] == []
    requires forall i :: 0 <= i < k ==> pages[i] != []
    ensures Accumulate(pages) == Flatten(pages[..k])
  {
    if k > 0 {
      AccumulateStops(pages[1..], k - 1);
      assert pages[1..][..k - 1] == pages[..k][1..];
    }
  }

  /** Three one-key pages give all three keys: scanning performs no deduplication or filtering of its own. */
  lemma ScanThreePages()
    ensures Accumulate([["cache_a"], ["cache_b"], ["cache_c"]]) == ["cache_a", "cache_b", "cache_c"]
    ensures Accumulate([["cache_a"], ["cache_a"]]) == ["cache_a", "cache_a"]
  {
  }

  lemma {:induction false} KeySetSize(s: seq<string>)
    ensures |KeySet(s)| <= |s|
    ensures |KeySet(s)| == |s| <==> Distinct(s)
  {
    if s != [] {
      var rest := s[1..];
      KeySetSize(rest);
      assert KeySet(s) == {s[0]} + KeySet(rest);
      assert Distinct(s) <==> Distinct(rest) && s[0] !in rest by {
        if Distinct(s) {
          forall i, j | 0 <= i < j < |rest| ensures rest[i] != rest[j] {
            assert rest[i] == s[i + 1] && rest[j] == s[j + 1];
          }
        }
        if Distinct(rest) && s[0] !in rest {
          forall i, j | 0 <= i < j < |s| ensures s[i] != s[j] {
            if i == 0 {
              assert s[j] == rest[j - 1];
            } else {
              assert s[i] == rest[i - 1] && s[j] == rest[j - 1];
            }
          }
        }
      }
    }
  }

  lemma IntersectionSize(a: set<string>, b: set<string>)
    ensures |a * b| <= |a|
    ensures |a * b| == |a| <==> a <= b
  {
    assert a == (a * b) + (a - b);
    assert (a * b) * (a - b) == {};
    assert |a| == |a * b| + |a - b|;
    if !(a <= b) {
      var x :| x in a && x !in b;
      assert x in a - b;
    }
  }

  lemma PrefixedDistinct(prefix: string, keys: seq<string>, wire: seq<string>)
    requires |wire| == |keys| && forall i :: 0 <= i < |keys| ==> wire[i] == prefix + keys[i]
    ensures Distinct(wire) <==> Distinct(keys)
  {
    forall i, j | 0 <= i < j < |keys| && wire[i] == wire[j] ensures keys[i] == keys[j] {
      assert keys[i] == wire[i][|prefix|..];
      assert keys[j] == wire[j][|prefix|..];
    }
  }

  /** Every prefixed key is stored exactly when every key of the list, prefixed, is in the keyspace. */
  lemma PrefixedPresent(ks: Keyspace, prefix: string, keys: seq<string>, wire: seq<string>)
    requires |wire| == |keys| && forall i :: 0 <= i < |keys| ==> wire[i] == prefix + keys[i]
    ensures (KeySet(wire) <= ks.Keys) <==> forall k :: k in keys ==> prefix + k in ks
  {
    forall k | k in keys && KeySet(wire) <= ks.Keys ensures prefix + k in ks {
      var i :| 0 <= i < |keys| && keys[i] == k;
      assert wire[i] in KeySet(wire);
    }
    forall w | w in KeySet(wire) && (forall k :: k in keys ==> prefix + k in ks) ensures w in ks {
      var i :| 0 <= i < |wire| && wire[i] == w;
      assert keys[i] in keys;
    }
  }

  /**
   * deleteAll's verdict: the server reports exactly `count(keys)` deletions
   * iff the list is non-empty, has no repeats and every key exists. A missing
   * key, a repeated key and an empty list all yield false.
   */
  lemma DeleteAllVerdict(ks: Keyspace, subs: map<string, nat>, prefix: string, keys: seq<string>)
    ensures Run(ks, subs, Prefixed(prefix, Del(keys))).reply == Int(|keys|) <==>
      keys != [] && Distinct(keys) && forall k :: k in keys ==> prefix + k in ks
  {
    var wire := Prefixed(prefix, Del(keys)).keys;
    PrefixedDistinct(prefix, keys, wire);
    KeySetSize(wire);
    IntersectionSize(KeySet(wire), ks.Keys);
    PrefixedPresent(ks, prefix, keys, wire);
  }

  /**
   * Stripping the key prefix from scanned keys and deleting them, as the tests
   * do: when the scanned keys are distinct, carry the prefix and are all
   * stored, deleteAll reports true.
   */
  lemma DeleteScannedKeys(ks: Keyspace, subs: map<string, nat>, prefix: string, scanned: seq<string>)
    requires scanned != [] && Distinct(scanned)
    requires forall i :: 0 <= i < |scanned| ==>
      |prefix| <= |scanned[i]| && scanned[i][..|prefix|] == prefix && scanned[i] in ks
    ensures var keys := seq(|scanned|, i requires 0 <= i < |scanned| => scanned[i][|prefix|..]);
      Run(ks, subs, Prefixed(prefix, Del(keys))).reply == Int(|keys|)
  {
    var keys := seq(|scanned|, i requires 0 <= i < |scanned| => scanned[i][|prefix|..]);
    forall i | 0 <= i < |keys| ensures prefix + keys[i] == scanned[i] {
      assert scanned[i] == scanned[i][..|prefix|] + scanned[i][|prefix|..];
    }
    PrefixedDistinct(prefix, keys, scanned);
    forall k | k in keys ensures prefix + k in ks {
      var i :| 0 <= i < |keys| && keys[i] == k;
    }
    DeleteAllVerdict(ks, subs, prefix, keys);
  }
}
