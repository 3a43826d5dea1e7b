/** What a topic filter takes, read off character by character. */
module Matching {
  import opened Bytes
  import opened Subscriptions

  /** What is left of a text behind its first level: nothing, or a slash and more. */
  function BehindLevel(text: Text): Text {
    if text == [] || text[0] == 0x2F then text else BehindLevel(text[1..])
  }

  /** A filter read along a topic: '#' takes all that is left, '+' the rest of a level, another
      character itself. At the end of the topic, "/#" takes nothing. */
  predicate FilterTakes(filter: Text, topic: Text) {
    if filter == [] then topic == []
    else if filter[0] == 0x23 then true
    else if filter[0] == 0x2B then FilterTakes(filter[1..], BehindLevel(topic))
    else if topic == [] then filter == [0x2F, 0x23]
    else filter[0] == topic[0] && FilterTakes(filter[1..], topic[1..])
  }

  /** A leading wildcard takes no topic that begins with '$'. */
  predicate Hidden(filter: Text, topic: Text) {
    topic != [] && topic[0] == 0x24 && filter != [] && (filter[0] == 0x2B || filter[0] == 0x23)
  }

  // ---------- One level ----------

  predicate Plain(part: Text) {
    forall i :: 0 <= i < |part| ==> part[i] != 0x2F && part[i] != 0x2B && part[i] != 0x23
  }

  /** A level of a valid filter is a wildcard or has none. */
  lemma LevelKinds(part: Text, isLast: bool)
    requires LevelOk(part, isLast) && SLASH !in part
    ensures part == [PLUS] || (part == [HASH] && isLast) || Plain(part)
  {
    if !Plain(part) {
      var i :| 0 <= i < |part| && (part[i] == PLUS || part[i] == HASH);
      assert part[i] in part;
    }
  }

  lemma {:induction false} BehindWhole(level: Text)
    requires SLASH !in level
    ensures BehindLevel(level) == []
  {
    if level != [] {
      BehindWhole(level[1..]);
    }
  }

  lemma {:induction false} BehindFirst(level: Text, rest: Text)
    requires SLASH !in level
    ensures BehindLevel(level + [SLASH] + rest) == [SLASH] + rest
  {
    var text := level + [SLASH] + rest;
    if level != [] {
      BehindFirst(level[1..], rest);
      assert text[1..] == level[1..] + [SLASH] + rest;
    }
  }

  /** The last level of a filter, without wildcards. */
  lemma {:induction false} PlainLast(part: Text, topic: Text)
    requires Plain(part)
    ensures FilterTakes(part, topic) <==> part == topic
  {
    if part != [] && topic != [] {
      PlainLast(part[1..], topic[1..]);
      assert part == [part[0]] + part[1..] && topic == [topic[0]] + topic[1..];
    }
  }

  /** A level without wildcards, against the last level of a topic. */
  lemma {:induction false} PlainEnds(part: Text, rest: Text, level: Text)
    requires Plain(part) && SLASH !in level
    ensures FilterTakes(part + [SLASH] + rest, level) <==> part == level && rest == [HASH]
  {
    var filter := part + [SLASH] + rest;
    if part != [] && level != [] {
      PlainEnds(part[1..], rest, level[1..]);
      assert filter[1..] == part[1..] + [SLASH] + rest;
      assert part == [part[0]] + part[1..] && level == [level[0]] + level[1..];
    } else if part != [] {
      assert filter[0] == part[0] && filter != [SLASH, HASH];
    } else {
      assert filter == [SLASH] + rest && (filter == [SLASH, HASH] <==> rest == [HASH]) by {
        assert filter[1..] == rest;
      }
    }
  }

  /** A level without wildcards, against one with more behind it. */
  lemma {:induction false} PlainGoesOn(part: Text, rest: Text, level: Text, more: Text)
    requires Plain(part) && SLASH !in level
    ensures FilterTakes(part + [SLASH] + rest, level + [SLASH] + more) <==> part == level && FilterTakes(rest, more)
  {
    var filter, topic := part + [SLASH] + rest, level + [SLASH] + more;
    if part != [] && level != [] {
      PlainGoesOn(part[1..], rest, level[1..], more);
      assert filter[1..] == part[1..] + [SLASH] + rest && topic[1..] == level[1..] + [SLASH] + more;
      assert part == [part[0]] + part[1..] && level == [level[0]] + level[1..];
    } else if part == [] && level == [] {
      assert filter[1..] == rest && topic[1..] == more;
    } else if part == [] {
      assert level[0] in level && topic[0] == level[0] && filter[0] == SLASH;
    } else {
      assert filter[0] == part[0] && topic[0] == SLASH;
    }
  }

  /** A wildcard level with more behind it. */
  lemma PlusGoesOn(rest: Text, level: Text, more: Text)
    requires SLASH !in level
    ensures FilterTakes([PLUS] + [SLASH] + rest, level + [SLASH] + more) <==> FilterTakes(rest, more)
    ensures FilterTakes([PLUS] + [SLASH] + rest, level) <==> rest == [HASH]
  {
    var filter := [PLUS] + [SLASH] + rest;
    assert filter[1..] == [SLASH] + rest;
    BehindFirst(level, more);
    BehindWhole(level);
    assert ([SLASH] + rest)[1..] == rest && ([SLASH] + more)[1..] == more;
    assert [SLASH] + rest == [SLASH, HASH] <==> rest == [HASH] by {
      assert ([SLASH] + rest)[1..] == rest && [SLASH, HASH][1..] == [HASH];
    }
  }

  // ---------- All levels ----------

  /** The same by levels, without regard to '$'. */
  ghost predicate LevelsTake(filter: seq<Text>, topic: seq<Text>)
    requires |filter| > 0 && |topic| > 0
  {
    if filter[|filter| - 1] == [HASH]
    then |filter| - 1 <= |topic| && LevelsMatch(filter, topic, |filter| - 1)
    else |filter| == |topic| && LevelsMatch(filter, topic, |filter|)
  }

  lemma OneLevel(part: Text, topic: seq<Text>)
    requires |topic| > 0
    ensures LevelsTake([part], topic) <==> part == [HASH] || (|topic| == 1 && LevelMatches(part, topic[0]))
  {
    assert [part][0] == part;
  }

  /** The first level decides, and the others. */
  lemma FirstLevel(part: Text, filter: seq<Text>, topic: seq<Text>)
    requires |filter| > 0 && |topic| > 0
    ensures LevelsTake([part] + filter, topic)
       <==> LevelMatches(part, topic[0]) && if |topic| == 1 then filter == [[HASH]] else LevelsTake(filter, topic[1..])
  {
    var all, n := [part] + filter, |filter|;
    assert all[n] == filter[n - 1];
    if filter[n - 1] == [HASH] && n <= |topic| {
      LevelsFirst(part, filter, topic, n - 1);
      assert n == 1 ==> filter == [[HASH]];
    } else if filter[n - 1] != [HASH] && n + 1 == |topic| {
      LevelsFirst(part, filter, topic, n);
    }
  }

  lemma LevelsFirst(part: Text, filter: seq<Text>, topic: seq<Text>, n: nat)
    requires n <= |filter| && n + 1 <= |topic|
    ensures LevelsMatch([part] + filter, topic, n + 1)
       <==> LevelMatches(part, topic[0]) && LevelsMatch(filter, topic[1..], n)
  {
    var all := [part] + filter;
    if LevelsMatch(all, topic, n + 1) {
      assert LevelMatches(all[0], topic[0]);
      forall i | 0 <= i < n ensures LevelMatches(filter[i], topic[1..][i]) {
        assert LevelMatches(all[i + 1], topic[i + 1]);
      }
    }
    if LevelMatches(part, topic[0]) && LevelsMatch(filter, topic[1..], n) {
      forall i | 0 <= i < n + 1 ensures LevelMatches(all[i], topic[i]) {
        if i > 0 {
          assert LevelMatches(filter[i - 1], topic[1..][i - 1]);
        }
      }
    }
  }

  lemma {:induction false} TakesByLevels(filter: Text, topic: Text)
    requires ValidFilter(filter)
    ensures FilterTakes(filter, topic) <==> LevelsTake(Split(filter), Split(topic))
    decreases |filter|
  {
    if SLASH !in filter {
      SplitWhole(filter);
      assert LevelOk([filter][0], true);
      LastLevel(filter, topic);
    } else {
      var part, rest := FirstSlash(filter);
      SplitCons(part, rest);
      LevelsOkCons(part, Split(rest));
      LevelKinds(part, false);
      FirstLevel(part, Split(rest), Split(topic));
      assert ([part] + Split(rest))[1..] == Split(rest);
      if SLASH !in topic {
        SplitWhole(topic);
        HashAlone(rest);
        LevelAtEnd(part, rest, topic);
      } else {
        var level, more := FirstSlash(topic);
        SplitCons(level, more);
        assert ([level] + Split(more))[1..] == Split(more);
        LevelBefore(part, rest, level, more);
        TakesByLevels(rest, more);
      }
    }
  }

  lemma LastLevel(part: Text, topic: Text)
    requires SLASH !in part && LevelOk(part, true)
    ensures FilterTakes(part, topic) <==> LevelsTake([part], Split(topic))
  {
    LevelKinds(part, true);
    OneLevel(part, Split(topic));
    if SLASH !in topic {
      SplitWhole(topic);
      BehindWhole(topic);
    } else {
      var level, more := FirstSlash(topic);
      SplitCons(level, more);
      BehindFirst(level, more);
    }
    if Plain(part) {
      PlainLast(part, topic);
    } else if part == [PLUS] {
      assert part[1..] == [];
    }
  }

  lemma HashAlone(rest: Text)
    ensures Split(rest) == [[HASH]] <==> rest == [HASH]
  {
    JoinSplit(rest);
    SplitWhole([HASH]);
  }

  lemma LevelAtEnd(part: Text, rest: Text, level: Text)
    requires SLASH !in level && (part == [PLUS] || Plain(part))
    ensures FilterTakes(part + [SLASH] + rest, level) <==> LevelMatches(part, level) && rest == [HASH]
  {
    if part == [PLUS] {
      PlusGoesOn(rest, level, []);
    } else {
      PlainEnds(part, rest, level);
    }
  }

  lemma LevelBefore(part: Text, rest: Text, level: Text, more: Text)
    requires SLASH !in level && (part == [PLUS] || Plain(part))
    ensures FilterTakes(part + [SLASH] + rest, level + [SLASH] + more)
       <==> LevelMatches(part, level) && FilterTakes(rest, more)
  {
    if part == [PLUS] {
      PlusGoesOn(rest, level, more);
    } else {
      PlainGoesOn(part, rest, level, more);
    }
  }

  lemma LeadingLevel(text: Text, b: byte)
    requires b != SLASH
    ensures Leading(Split(text)[0], b) <==> Leading(text, b)
  {
    if SLASH !in text {
      SplitWhole(text);
    } else {
      var part, rest := FirstSlash(text);
      SplitCons(part, rest);
    }
  }

  /** In a valid filter a wildcard is a level of its own. */
  lemma LeadingWildcard(filter: Text)
    requires ValidFilter(filter)
    ensures Split(filter)[0] == [PLUS] <==> Leading(filter, PLUS)
    ensures Split(filter)[0] == [HASH] <==> Leading(filter, HASH)
  {
    LeadingLevel(filter, PLUS);
    LeadingLevel(filter, HASH);
    JoinSplit(filter);
    var first := Split(filter)[0];
    assert LevelOk(first, 0 == |Split(filter)| - 1);
    assert first in Split(filter);
    LevelKinds(first, 0 == |Split(filter)| - 1);
  }

  /** The levels and the characters say the same: a subscription with a valid filter takes the topic
      of a message of some QoS if and only if the QoS is not above its own, and its filter takes the
      topic character by character without hiding it. */
  lemma MatchesByCharacters(sub: Subscription, qos: QoS, topic: Text)
    requires ValidFilter(sub.pattern)
    ensures MatchesTopic(sub, qos, topic)
       <==> qos <= sub.maxQos && FilterTakes(sub.pattern, topic) && !Hidden(sub.pattern, topic)
  {
    TakesByLevels(sub.pattern, topic);
    LeadingWildcard(sub.pattern);
    LeadingLevel(topic, DOLLAR);
  }
}
