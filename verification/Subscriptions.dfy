/** Topic filters: validation (section 4.7.1) and matching (section 4.7.2 of MQTT Version 5.0). */
module Subscriptions {
  import opened Bytes

  const SLASH: byte := 0x2F
  const PLUS: byte := 0x2B
  const HASH: byte := 0x23
  const DOLLAR: byte := 0x24

  type QoS = q: nat | q <= 2

  const AT_MOST_ONCE: QoS := 0
  const AT_LEAST_ONCE: QoS := 1
  const EXACTLY_ONCE: QoS := 2

  // ---------- Levels ----------

  /** `text.split("/")` */
  function Split(text: Text): (parts: seq<Text>)
    ensures |parts| > 0
  {
    if text == [] then [[]]
    else
      var tail := Split(text[1..]);
      if text[0] == SLASH then [[]] + tail else [[text[0]] + tail[0]] + tail[1..]
  }

  /** `"/".join(parts)` */
  function Join(parts: seq<Text>): Text
    requires |parts| > 0
  {
    if |parts| == 1 then parts[0] else parts[0] + [SLASH] + Join(parts[1..])
  }

  lemma {:induction false} SplitWhole(part: Text)
    requires SLASH !in part
    ensures Split(part) == [part]
  {
    if part != [] {
      SplitWhole(part[1..]);
      assert [part[0]] + part[1..] == part;
    }
  }

  lemma {:induction false} SplitCons(part: Text, rest: Text)
    requires SLASH !in part
    ensures Split(part + [SLASH] + rest) == [part] + Split(rest)
  {
    var text := part + [SLASH] + rest;
    if part == [] {
      assert text[1..] == rest;
    } else {
      SplitCons(part[1..], rest);
      assert text[1..] == part[1..] + [SLASH] + rest;
      assert [part[0]] + part[1..] == part;
    }
  }

  /** The text before the first slash and the text after it. */
  lemma {:induction false} FirstSlash(text: Text) returns (part: Text, rest: Text)
    requires SLASH in text
    ensures text == part + [SLASH] + rest && SLASH !in part
  {
    if text[0] == SLASH {
      part, rest := [], text[1..];
    } else {
      part, rest := FirstSlash(text[1..]);
      part := [text[0]] + part;
    }
  }

  lemma {:induction false} JoinSplit(text: Text)
    ensures Join(Split(text)) == text
    ensures forall part :: part in Split(text) ==> SLASH !in part
    decreases |text|
  {
    if SLASH !in text {
      SplitWhole(text);
    } else {
      var part, rest := FirstSlash(text);
      SplitCons(part, rest);
      JoinSplit(rest);
      assert Split(text)[1..] == Split(rest);
    }
  }

  lemma {:induction false} SplitJoin(parts: seq<Text>)
    requires |parts| > 0
    requires forall part :: part in parts ==> SLASH !in part
    ensures Split(Join(parts)) == parts
  {
    assert parts[0] in parts;
    if |parts| == 1 {
      SplitWhole(parts[0]);
    } else {
      SplitCons(parts[0], Join(parts[1..]));
      SplitJoin(parts[1..]);
    }
  }

  // ---------- Validation ----------

  /** What the constructor of a subscription accepts of one level of its filter. */
  predicate LevelOk(part: Text, isLast: bool) {
    if PLUS in part && |part| != 1 then false
    else HASH in part ==> |part| == 1 && isLast
  }

  predicate LevelsOk(parts: seq<Text>) {
    forall i :: 0 <= i < |parts| ==> LevelOk(parts[i], i == |parts| - 1)
  }

  predicate ValidFilter(pattern: Text) {
    LevelsOk(Split(pattern))
  }

  ghost predicate CharacterOk(text: Text, k: nat)
    requires k < |text|
  {
    && (text[k] == PLUS ==> (k == 0 || text[k - 1] == SLASH) && (k == |text| - 1 || text[k + 1] == SLASH))
    && (text[k] == HASH ==> k == |text| - 1 && (k == 0 || text[k - 1] == SLASH))
  }

  /** The same by characters: every '+' stands between slashes or the ends of the text, every
      '#' is the last character and first or after a slash. */
  ghost predicate CharacterRule(text: Text) {
    forall k :: 0 <= k < |text| ==> CharacterOk(text, k)
  }

  lemma LevelsOkCons(part: Text, parts: seq<Text>)
    requires |parts| > 0
    ensures LevelsOk([part] + parts) <==> LevelOk(part, false) && LevelsOk(parts)
  {
    var all := [part] + parts;
    assert all[0] == part && forall i :: 0 <= i < |parts| ==> all[i + 1] == parts[i];
    if LevelOk(part, false) && LevelsOk(parts) {
      forall i | 0 <= i < |all| ensures LevelOk(all[i], i == |all| - 1) {
        if i > 0 {
          assert all[i] == parts[i - 1];
        }
      }
    }
  }

  lemma RuleWhole(part: Text)
    requires SLASH !in part
    ensures CharacterRule(part) <==> LevelOk(part, true)
  {
    if CharacterRule(part) {
      forall k | 0 <= k < |part| && (part[k] == PLUS || part[k] == HASH) ensures |part| == 1 {
        assert CharacterOk(part, k);
        assert forall j :: 0 <= j < |part| ==> part[j] != SLASH;
      }
    }
    if LevelOk(part, true) {
      forall k | 0 <= k < |part| ensures CharacterOk(part, k) {
        assert part[k] in part;
      }
    }
  }

  lemma RuleCons(part: Text, rest: Text)
    requires SLASH !in part
    ensures CharacterRule(part + [SLASH] + rest) <==> LevelOk(part, false) && CharacterRule(rest)
  {
    var text, n := part + [SLASH] + rest, |part| + 1;
    forall k | 0 <= k < |rest| ensures CharacterOk(text, n + k) <==> CharacterOk(rest, k) {
      assert text[n + k] == rest[k];
    }
    forall k | 0 <= k < |part| ensures CharacterOk(text, k) <==> CharacterOk(part, k) && part[k] != HASH {
      assert text[k] == part[k];
    }
    assert CharacterOk(text, |part|);
    RuleWhole(part);
    if CharacterRule(text) {
      assert forall k :: 0 <= k < |part| ==> CharacterOk(text, k);
      forall k | 0 <= k < |rest| ensures CharacterOk(rest, k) {
        assert CharacterOk(text, n + k);
      }
    }
    if LevelOk(part, false) && CharacterRule(rest) {
      forall k | 0 <= k < |text| ensures CharacterOk(text, k) {
        if k < |part| {
          assert part[k] in part && CharacterOk(part, k);
        } else if k >= n {
          assert CharacterOk(rest, k - n);
        }
      }
    }
  }

  /** The split-and-scan check accepts exactly the texts that obey the rule by characters. */
  lemma {:induction false} FilterRule(pattern: Text)
    ensures ValidFilter(pattern) <==> CharacterRule(pattern)
    decreases |pattern|
  {
    if SLASH !in pattern {
      SplitWhole(pattern);
      RuleWhole(pattern);
      assert LevelsOk([pattern]) <==> LevelOk(pattern, true) by {
        assert [pattern][0] == pattern;
      }
    } else {
      var part, rest := FirstSlash(pattern);
      SplitCons(part, rest);
      LevelsOkCons(part, Split(rest));
      RuleCons(part, rest);
      FilterRule(rest);
    }
  }

  /** The scan of `__attrs_post_init__`; `None` is acceptance. */
  method CheckPattern(pattern: Text) returns (error: Option<Error>)
    ensures error == None <==> CharacterRule(pattern)
    ensures error.Some? ==> error.value == InvalidPattern
  {
    FilterRule(pattern);
    var parts := Split(pattern);
    for i := 0 to |parts|
      invariant forall j :: 0 <= j < i ==> LevelOk(parts[j], j == |parts| - 1)
    {
      var part := parts[i];
      if PLUS in part && |part| != 1 {
        return Some(InvalidPattern);
      } else if HASH in part {
        if |part| != 1 {
          return Some(InvalidPattern);
        } else if i != |parts| - 1 {
          return Some(InvalidPattern);
        }
      }
    }
    return None;
  }

  // ---------- Subscriptions and matching ----------

  type RetainHandling = h: nat | h <= 2

  datatype Subscription = Subscription(
    pattern: Text,
    maxQos: QoS,
    noLocal: bool,
    retainAsPublished: bool,
    retainHandling: RetainHandling)

  /** Subscriptions by their patterns, and how often each pattern is subscribed to. */
  type Subs = map<Text, Subscription>
  type Counts = map<Text, int>

  predicate Leading(text: Text, b: byte) {
    text != [] && text[0] == b
  }

  /** Level `i` of a filter takes level `i` of a topic. */
  ghost predicate LevelMatches(filter: Text, level: Text) {
    filter == [PLUS] || filter == level
  }

  ghost predicate LevelsMatch(filter: seq<Text>, topic: seq<Text>, n: nat)
    requires n <= |filter| && n <= |topic|
  {
    forall i :: 0 <= i < n ==> LevelMatches(filter[i], topic[i])
  }

  /** The meaning of a topic filter: its levels agree with the topic's one by one, a final '#'
      stands for any number of further levels, and no leading wildcard takes a '$' topic. */
  ghost predicate FilterMatches(filter: seq<Text>, topic: seq<Text>)
    requires |filter| > 0 && |topic| > 0
  {
    && (Leading(topic[0], DOLLAR) ==> filter[0] != [PLUS] && filter[0] != [HASH])
    && (if filter[|filter| - 1] == [HASH]
        then |filter| - 1 <= |topic| && LevelsMatch(filter, topic, |filter| - 1)
        else |filter| == |topic| && LevelsMatch(filter, topic, |filter|))
  }

  ghost predicate MatchesTopic(sub: Subscription, qos: QoS, topic: Text) {
    qos <= sub.maxQos && FilterMatches(Split(sub.pattern), Split(topic))
  }

  /** `list(zip_longest(a, b))[i]` for one of the lists. */
  function Padded(parts: seq<Text>, i: nat): Option<Text> {
    if i < |parts| then Some(parts[i]) else None
  }

  /** `Subscription.matches`, its loop over the zipped levels. */
  method Matches(sub: Subscription, qos: QoS, topic: Text) returns (result: bool)
    requires ValidFilter(sub.pattern)
    ensures result <==> MatchesTopic(sub, qos, topic)
  {
    if qos > sub.maxQos {
      return false;
    }
    var parts, topicParts := Split(sub.pattern), Split(topic);
    var length := if |parts| < |topicParts| then |topicParts| else |parts|;
    for i := 0 to length
      invariant i <= |parts| && i <= |topicParts| && LevelsMatch(parts, topicParts, i)
      invariant forall j :: 0 <= j < i && j < |parts| ==> parts[j] != [HASH]
      invariant i > 0 && Leading(topicParts[0], DOLLAR) ==> parts[0] != [PLUS]
    {
      var patternPart, topicPart := Padded(parts, i), Padded(topicParts, i);
      if i < |parts| {
        assert LevelOk(parts[i], i == |parts| - 1);
      }
      if i > 0 || !Leading(topicPart.value, DOLLAR) {
        if patternPart == Some([HASH]) {
          return true;
        } else if patternPart == Some([PLUS]) && topicPart != None {
          continue;
        }
      }
      if topicPart != patternPart {
        return false;
      }
    }
    return true;
  }
}
