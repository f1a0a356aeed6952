/** The shared Redis cache as the loaders of graphql-gateway/src/dataloaders.js
    see it: entities, the JSON values stored under cache keys, the key scheme
    `dl:<service>:<method>:<id>`, and the two invalidation operations.

    JSON parsing and serialisation are the identity on `Value`: a stored string
    is the serialisation of a value, the empty string (the only present string
    JavaScript treats as false), or text `JSON.parse` rejects. */
module Store {
  import opened Base
  import opened Text
  import opened Glob

  /** A decoded protobuf message: its string-valued fields. */
  datatype Entity = Entity(fields: map<string, string>)

  /** What a loader hands back for one key. */
  datatype Value = Null | Record(entity: Entity) | List(items: seq<Entity>)

  /** A Redis string value. */
  datatype Stored = Blank | Json(value: Value) | Garbled

  type Redis = map<string, Stored>

  /** `item[field]` for a string-valued field, `undefined` when absent. */
  function Field(e: Entity, field: string): Option<string> {
    if field in e.fields then Some(e.fields[field]) else None
  }

  /** `getCacheKey(service, methodName, id)`. */
  function CacheKey(service: string, methodName: string, id: string): (key: string)
    ensures StartsWith(key, "dl:")
    ensures |key| == 5 + |service| + |methodName| + |id|
  {
    "dl:" + service + ":" + methodName + ":" + id
  }

  /** A key built from colon-free parts splits at its colons back into the
      `dl` prefix, the service, the method and the id. */
  lemma CacheKeyReadsBack(service: string, methodName: string, id: string)
    requires ':' !in service && ':' !in methodName && ':' !in id
    ensures Split(CacheKey(service, methodName, id), ':') == ["dl", service, methodName, id]
  {
    var tail := methodName + [':'] + id;
    var rest := service + [':'] + tail;
    assert CacheKey(service, methodName, id) == "dl" + [':'] + rest;
    SplitTwo(methodName, id, ':');
    SplitFirst(service, tail, ':');
    SplitFirst("dl", rest, ':');
  }

  /** `clearCache`: delete exactly one key. */
  function ClearCache(redis: Redis, service: string, methodName: string, id: string): (r: Redis)
    ensures CacheKey(service, methodName, id) !in r
    ensures forall k :: k in r <==> k in redis && k != CacheKey(service, methodName, id)
    ensures forall k :: k in r ==> r[k] == redis[k]
  {
    redis - {CacheKey(service, methodName, id)}
  }

  /** The three patterns `clearEntityCache(entityType, id)` scans for. */
  function EntityPatterns(entityType: string, id: string): seq<string> {
    [ "dl:*:*" + entityType + "*:" + id,
      "dl:*:*:" + id + ":*",
      "dl:" + entityType + ":*:" + id ]
  }

  predicate MatchesAny(patterns: seq<string>, key: string) {
    exists k :: 0 <= k < |patterns| && Match(patterns[k], key)
  }

  /** `clearEntityCache`: delete every key one of the three patterns matches. */
  function ClearEntityCache(redis: Redis, entityType: string, id: string): (r: Redis)
    ensures forall k :: k in r <==> k in redis && !MatchesAny(EntityPatterns(entityType, id), k)
    ensures forall k :: k in r ==> r[k] == redis[k]
  {
    map k | k in redis && !MatchesAny(EntityPatterns(entityType, id), k) :: redis[k]
  }

  // ------------------------------------------------ which keys are reached

  predicate ColonFree(s: string) {
    forall k :: 0 <= k < |s| ==> s[k] != ':'
  }

  lemma LiteralConcat(a: string, b: string)
    requires Literal(a) && Literal(b)
    ensures Literal(a + b)
  {
    assert forall k :: 0 <= k < |a + b| ==> (a + b)[k] == if k < |a| then a[k] else b[k - |a|];
  }

  lemma ColonFreeCount(s: string)
    requires ColonFree(s)
    ensures Count(':', s) == 0
  {
    assert ':' !in s;
  }

  /** In a cache key built from colon-free parts, the only colons after the
      `dl:` prefix are the two separators. */
  lemma KeyColons(s: string, m: string, i: string, p: int)
    requires ColonFree(s) && ColonFree(m) && ColonFree(i)
    requires 0 <= p < |s + ":" + m + ":" + i| && (s + ":" + m + ":" + i)[p] == ':'
    ensures p == |s| || p == |s| + 1 + |m|
  {
  }

  /** A colon-free `e` followed by a colon at the front of `s:m:i` is `s`. */
  lemma FirstSeparator(s: string, m: string, i: string, e: string)
    requires ColonFree(s) && ColonFree(m) && ColonFree(i) && ColonFree(e)
    requires |e| < |s + ":" + m + ":" + i|
    requires (s + ":" + m + ":" + i)[..|e|] == e && (s + ":" + m + ":" + i)[|e|] == ':'
    ensures e == s
  {
    var t := s + ":" + m + ":" + i;
    assert forall k :: 0 <= k < |e| ==> t[k] == e[k];
    assert forall k :: 0 <= k < |e| ==> t[k] != ':';
    assert t[|s|] == ':';
    KeyColons(s, m, i, |e|);
    assert e == t[..|s|] == s;
  }

  /** A colon followed by a colon-free `id` at the end of `s:m:i` means `i` is `id`. */
  lemma LastSeparator(s: string, m: string, i: string, id: string)
    requires ColonFree(s) && ColonFree(m) && ColonFree(i) && ColonFree(id)
    requires |id| < |s + ":" + m + ":" + i|
    requires (s + ":" + m + ":" + i)[|s + ":" + m + ":" + i| - |id| - 1..] == ":" + id
    ensures i == id
  {
    var t := s + ":" + m + ":" + i;
    var p := |t| - |id| - 1;
    assert t[p] == (":" + id)[0];
    assert forall k :: 0 <= k < |id| ==> t[p + 1 + k] == id[k];
    assert forall q :: p < q < |t| ==> t[q] != ':' by {
      forall q | p < q < |t| ensures t[q] != ':' {
        assert t[q] == id[q - p - 1];
      }
    }
    assert t[|s| + 1 + |m|] == ':';
    KeyColons(s, m, i, p);
    assert i == t[p + 1..] == id;
  }

  lemma KeyShape(s: string, m: string, i: string)
    ensures CacheKey(s, m, i) == "dl:" + (s + ":" + m + ":" + i)
    ensures CacheKey(s, m, i)[3..] == s + ":" + m + ":" + i
  {
  }

  /** Whatever the id, the second pattern needs four colons and never matches
      a key built from colon-free parts, which has three. */
  lemma SecondPatternNeverMatches(s: string, m: string, i: string, id: string)
    requires ColonFree(s) && ColonFree(m) && ColonFree(i)
    ensures !Match("dl:*:*:" + id + ":*", CacheKey(s, m, i))
  {
    var p := "dl:*:*:" + id + ":*";
    var key := CacheKey(s, m, i);
    assert multiset(p) == multiset("dl:*:*:") + multiset(id) + multiset(":*");
    assert multiset("dl:*:*:")[':'] == 3 && multiset(":*")[':'] == 1;
    assert multiset(key) == multiset("dl:") + multiset(s) + multiset(":") + multiset(m) + multiset(":") + multiset(i);
    ColonFreeCount(s);
    ColonFreeCount(m);
    ColonFreeCount(i);
    assert Count(':', key) == 3;
    assert Count(':', p) >= 4;
    if Match(p, key) {
      MatchCountsLiterals(':', p, key);
    }
  }

  lemma ThirdPatternShape(e: string, id: string)
    requires Literal(e) && Literal(id)
    ensures "dl:" + e + ":*:" + id == ("dl:" + e + ":") + ([Star] + (":" + id))
    ensures Literal("dl:" + e + ":") && Literal(":" + id)
  {
    LiteralConcat("dl:", e);
    LiteralConcat("dl:" + e, ":");
    LiteralConcat(":", id);
  }

  /** The third pattern `dl:<entityType>:*:<id>` reaches the keys of that
      service with that id, under any method. */
  lemma ThirdPatternReaches(m: string, e: string, id: string)
    requires Literal(e) && Literal(id)
    ensures Match("dl:" + e + ":*:" + id, CacheKey(e, m, id))
  {
    var key := CacheKey(e, m, id);
    var l1 := "dl:" + e + ":";
    var l2 := ":" + id;
    ThirdPatternShape(e, id);
    MatchLiteralPrefix(l1, [Star] + l2, key);
    assert key[..|l1|] == l1;
    assert key[|l1|..] == m + l2;
    MatchStarLiteral(l2, key[|l1|..]);
  }

  /** What a match of the third pattern tells about the key: its prefix and suffix. */
  lemma ThirdPatternMatch(e: string, id: string, key: string)
    requires Literal(e) && Literal(id)
    requires Match("dl:" + e + ":*:" + id, key)
    ensures |"dl:" + e + ":"| + |":" + id| <= |key|
    ensures key[..|"dl:" + e + ":"|] == "dl:" + e + ":"
    ensures key[|key| - |":" + id|..] == ":" + id
  {
    ThirdPatternShape(e, id);
    LiteralStarLiteral("dl:" + e + ":", ":" + id, key);
  }

  /** ... and only those, when no part contains a colon. */
  lemma ThirdPatternOnly(s: string, m: string, i: string, e: string, id: string)
    requires ColonFree(s) && ColonFree(m) && ColonFree(i)
    requires ColonFree(e) && Literal(e) && ColonFree(id) && Literal(id)
    requires Match("dl:" + e + ":*:" + id, CacheKey(s, m, i))
    ensures s == e && i == id
  {
    var key := CacheKey(s, m, i);
    ThirdPatternMatch(e, id, key);
    KeyShape(s, m, i);
    var t := s + ":" + m + ":" + i;
    KeyEnds(t, e, id, key);
    FirstSeparator(s, m, i, e);
    LastSeparator(s, m, i, id);
  }

  /** The ends a match of the third pattern fixes, read off the key without its `dl:`. */
  lemma KeyEnds(t: string, e: string, id: string, key: string)
    requires key == "dl:" + t
    requires |"dl:" + e + ":"| + |":" + id| <= |key|
    requires key[..|"dl:" + e + ":"|] == "dl:" + e + ":"
    requires key[|key| - |":" + id|..] == ":" + id
    ensures |e| < |t| && t[..|e|] == e && t[|e|] == ':'
    ensures |id| < |t| && t[|t| - |id| - 1..] == ":" + id
  {
    assert t[..|e| + 1] == key[3..|e| + 4] == e + ":";
    assert t[|t| - |id| - 1..] == key[|key| - |id| - 1..];
  }

  lemma FirstPatternShape(e: string, id: string)
    requires Literal(id)
    ensures "dl:*:*" + e + "*:" + id == "dl:" + ([Star] + (":" + ([Star] + (e + ([Star] + (":" + id))))))
    ensures Literal(":" + id)
  {
    LiteralConcat(":", id);
  }

  /** What a match of the first pattern tells about the key: after `dl:` there
      is a colon at `c`, then the entity type at `j`, then `:<id>` at the end. */
  lemma FirstPatternMatch(e: string, id: string, key: string) returns (c: int, j: int)
    requires Literal(e) && Literal(id)
    requires Match("dl:*:*" + e + "*:" + id, key)
    ensures 3 <= c < j && j + |e| + 1 + |id| <= |key|
    ensures key[c] == ':'
    ensures key[j..j + |e|] == e
    ensures key[|key| - |id| - 1..] == ":" + id
  {
    FirstPatternShape(e, id);
    var l := ":" + id;
    var q3 := e + ([Star] + l);
    var q1 := ":" + ([Star] + q3);
    var k1 := PeelLiteralStar("dl:", q1, key);
    var s1 := key[k1..];
    var k2 := PeelLiteralStar(":", q3, s1);
    var s2 := s1[k2..];
    var k3 := PeelLiteralStar(e, l, s2);
    var s3 := s2[k3..];
    MatchLiteral(l, s3);
    c := k1;
    j := k1 + k2;
    assert s2 == key[j..];
    assert s3 == key[j + k3..];
  }

  lemma KeyTails(s: string, m: string, id: string, q: int)
    requires 0 <= q <= |m|
    ensures CacheKey(s, m, id)[..3] == "dl:"
    ensures CacheKey(s, m, id)[3 + |s|..] == ":" + (m + (":" + id))
    ensures (":" + (m + (":" + id)))[..1] == ":"
    ensures (":" + (m + (":" + id)))[1 + q..] == m[q..] + (":" + id)
  {
  }

  /** The end of the first pattern, `<entityType>*:<id>`, matches from any
      occurrence of the entity type in the method name. */
  lemma FirstPatternTail(m: string, e: string, id: string, q: int)
    requires Literal(e) && Literal(":" + id)
    requires OccursAt(e, m, q)
    ensures Match(e + ([Star] + (":" + id)), m[q..] + (":" + id))
  {
    var l := ":" + id;
    var s2 := m[q..] + l;
    assert s2[|m| - q..] == l;
    MatchLiteral(l, s2[|m| - q..]);
    assert s2[..|e|] == m[q..q + |e|];
    BuildLiteralStar(e, l, s2, |m| - q);
  }

  /** The first pattern `dl:*:*<entityType>*:<id>` reaches every key with that
      id whose method name contains the entity type. */
  lemma FirstPatternReaches(s: string, m: string, e: string, id: string, q: int)
    requires Literal(e) && Literal(id)
    requires OccursAt(e, m, q)
    ensures Match("dl:*:*" + e + "*:" + id, CacheKey(s, m, id))
  {
    FirstPatternShape(e, id);
    var key := CacheKey(s, m, id);
    var q3 := e + ([Star] + (":" + id));
    var q1 := ":" + ([Star] + q3);
    KeyTails(s, m, id, q);
    FirstPatternTail(m, e, id, q);
    BuildLiteralStar(":", q3, ":" + (m + (":" + id)), 1 + q);
    BuildLiteralStar("dl:", q1, key, 3 + |s|);
  }

  /** ... and only those, when no part contains a colon. */
  lemma FirstPatternOnly(s: string, m: string, i: string, e: string, id: string)
    requires ColonFree(s) && ColonFree(m) && ColonFree(i)
    requires ColonFree(e) && Literal(e) && ColonFree(id) && Literal(id)
    requires Match("dl:*:*" + e + "*:" + id, CacheKey(s, m, i))
    ensures i == id && IsSubstring(e, m)
  {
    var key := CacheKey(s, m, i);
    var c, j := FirstPatternMatch(e, id, key);
    KeyShape(s, m, i);
    var t := s + ":" + m + ":" + i;
    assert key == "dl:" + t;
    assert t[|t| - |id| - 1..] == key[|key| - |id| - 1..];
    LastSeparator(s, m, i, id);
    assert t[c - 3] == ':';
    KeyColons(s, m, i, c - 3);
    // the entity type sits strictly between the two separators
    assert forall k :: 0 <= k < |e| ==> t[j - 3 + k] == e[k];
    assert forall k :: j - 3 <= k < j - 3 + |e| ==> t[k] != ':' by {
      forall k | j - 3 <= k < j - 3 + |e| ensures t[k] != ':' {
        assert t[k] == e[k - (j - 3)];
      }
    }
    assert t[|s|] == ':' && t[|s| + 1 + |m|] == ':';
    assert t[j - 3..j - 3 + |e|] == key[j..j + |e|];
    InsideMethod(s, m, i, e, j - 3);
  }

  /** A piece of `s:m:i` lying between the two separators is a piece of `m`. */
  lemma InsideMethod(s: string, m: string, i: string, e: string, p: int)
    requires |s| + 1 <= p && p + |e| <= |s| + 1 + |m|
    requires (s + ":" + m + ":" + i)[p..p + |e|] == e
    ensures OccursAt(e, m, p - |s| - 1)
  {
    var t := s + ":" + m + ":" + i;
    var q := p - |s| - 1;
    assert forall k :: q <= k < q + |e| ==> m[k] == t[k + |s| + 1];
    assert m[q..q + |e|] == e;
  }

  /** Which cache keys `clearEntityCache(entityType, id)` deletes, for keys,
      entity types and ids without colons or wildcards: exactly the keys with
      that id whose service is the entity type or whose method name contains
      it. With the real method names (`getContactsByIds`, ...) a lower-case
      entity type such as `contact` never occurs in the method name, so only
      keys whose service segment equals the entity type are reached. */
  lemma EntityEvictionReach(s: string, m: string, i: string, e: string, id: string)
    requires ColonFree(s) && ColonFree(m) && ColonFree(i)
    requires ColonFree(e) && Literal(e) && ColonFree(id) && Literal(id)
    ensures MatchesAny(EntityPatterns(e, id), CacheKey(s, m, i)) <==> i == id && (s == e || IsSubstring(e, m))
  {
    var ps := EntityPatterns(e, id);
    var key := CacheKey(s, m, i);
    SecondPatternNeverMatches(s, m, i, id);
    if Match(ps[0], key) {
      FirstPatternOnly(s, m, i, e, id);
    }
    if Match(ps[2], key) {
      ThirdPatternOnly(s, m, i, e, id);
    }
    if i == id && s == e {
      ThirdPatternReaches(m, e, id);
      assert Match(ps[2], key);
    }
    if i == id && IsSubstring(e, m) {
      var q :| 0 <= q <= |m| && OccursAt(e, m, q);
      FirstPatternReaches(s, m, e, id, q);
      assert Match(ps[0], key);
    }
  }
}
