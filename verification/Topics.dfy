/** Topic names, node ids and the subscription filters over them. */
module Topics {

  import opened Options

  const SEP := '/'
  const ROOT := "helix/edge"
  const DISPATCH := "dispatch"
  const STATUS := "status"
  const MAX_NODE_ID := 128
  const MAX_TOPIC := 65535

  // ---------------------------------------------------------------------------
  // Splitting and joining at the separator
  // ---------------------------------------------------------------------------

  function Split(s: string): (parts: seq<string>)
    ensures |parts| > 0
    ensures forall i :: 0 <= i < |parts| ==> SEP !in parts[i]
  {
    if s == [] then [[]]
    else
      var rest := Split(s[1..]);
      if s[0] == SEP then [[]] + rest else [[s[0]] + rest[0]] + rest[1..]
  }

  function Join(parts: seq<string>): string
  {
    if parts == [] then []
    else if |parts| == 1 then parts[0]
    else parts[0] + [SEP] + Join(parts[1..])
  }

  lemma {:induction false} JoinSplit(s: string)
    ensures Join(Split(s)) == s
  {
    if s != [] {
      JoinSplit(s[1..]);
      var rest := Split(s[1..]);
      assert ([[]] + rest)[1..] == rest;
      assert ([[s[0]] + rest[0]] + rest[1..])[1..] == rest[1..];
    }
  }

  lemma {:induction false} SplitOne(part: string)
    requires SEP !in part
    ensures Split(part) == [part]
  {
    if part != [] {
      SplitOne(part[1..]);
      assert part == [part[0]] + part[1..];
    }
  }

  lemma {:induction false} SplitFirst(part: string, rest: string)
    requires SEP !in part
    ensures Split(part + [SEP] + rest) == [part] + Split(rest)
  {
    var s := part + [SEP] + rest;
    if part == [] {
      assert s[1..] == rest;
    } else {
      SplitFirst(part[1..], rest);
      assert s[1..] == part[1..] + [SEP] + rest;
      assert ([part[1..]] + Split(rest))[1..] == Split(rest);
      assert part == [part[0]] + part[1..];
    }
  }

  /** Joining is undone by splitting when no part holds the separator. */
  lemma {:induction false} SplitJoin(parts: seq<string>)
    requires |parts| > 0 && forall i :: 0 <= i < |parts| ==> SEP !in parts[i]
    ensures Split(Join(parts)) == parts
  {
    if |parts| == 1 {
      SplitOne(parts[0]);
    } else {
      SplitJoin(parts[1..]);
      SplitFirst(parts[0], Join(parts[1..]));
    }
  }

  // ---------------------------------------------------------------------------
  // Topics of a node
  // ---------------------------------------------------------------------------

  function NodeTopic(nodeId: string, segment: string): string
  {
    Join([ROOT, nodeId, segment])
  }

  function DispatchTopic(nodeId: string): string
  {
    NodeTopic(nodeId, DISPATCH)
  }

  function StatusTopic(nodeId: string): string
  {
    NodeTopic(nodeId, STATUS)
  }

  lemma RootText()
    ensures ROOT == "helix" + [SEP] + "edge"
  {
  }

  lemma Regroup(a: string, b: string, c: string)
    ensures a + [SEP] + (b + [SEP] + c) == a + [SEP] + b + [SEP] + c
  {
  }

  lemma NodeTopicText(nodeId: string, segment: string)
    ensures NodeTopic(nodeId, segment) == ROOT + [SEP] + nodeId + [SEP] + segment
    ensures NodeTopic(nodeId, segment) == "helix" + [SEP] + ("edge" + [SEP] + (nodeId + [SEP] + segment))
  {
    assert [ROOT, nodeId, segment][1..] == [nodeId, segment] && [nodeId, segment][1..] == [segment];
    assert Join([nodeId, segment]) == nodeId + [SEP] + segment;
    RootText();
    Regroup(ROOT, nodeId, segment);
    Regroup("helix", "edge", nodeId + [SEP] + segment);
  }

  lemma NodeTopicLevels(nodeId: string, segment: string)
    requires SEP !in nodeId && SEP !in segment
    ensures Split(NodeTopic(nodeId, segment)) == ["helix", "edge", nodeId, segment]
  {
    NodeTopicText(nodeId, segment);
    SplitOne(segment);
    SplitFirst(nodeId, segment);
    SplitFirst("edge", nodeId + [SEP] + segment);
    SplitFirst("helix", "edge" + [SEP] + (nodeId + [SEP] + segment));
  }

  function NodeIdFromTopic(topic: string): Option<string>
  {
    var parts := Split(topic);
    if |parts| != 4 || parts[0] != "helix" || parts[1] != "edge" then None
    else if parts[3] != DISPATCH && parts[3] != STATUS then None
    else if parts[2] == "" || parts[2] == "+" || parts[2] == "#" then None
    else Some(parts[2])
  }

  /** One level of a topic that names something and is not a wildcard. */
  predicate ConcreteLevel(s: string)
  {
    s != "" && SEP !in s && s != "+" && s != "#"
  }

  lemma FourLevels(topic: string)
    requires |Split(topic)| == 4 && Split(topic)[0] == "helix" && Split(topic)[1] == "edge"
    ensures topic == NodeTopic(Split(topic)[2], Split(topic)[3])
  {
    var p := Split(topic);
    JoinSplit(topic);
    assert p == ["helix", "edge", p[2], p[3]];
    assert p[1..] == ["edge", p[2], p[3]] && p[1..][1..] == [p[2], p[3]] && p[1..][1..][1..] == [p[3]];
    NodeTopicText(p[2], p[3]);
  }

  /** Extraction succeeds with `id` exactly on the two topics of `id`, for a concrete level. */
  lemma NodeIdExactly(topic: string, id: string)
    ensures NodeIdFromTopic(topic) == Some(id) <==>
            ConcreteLevel(id) && (topic == DispatchTopic(id) || topic == StatusTopic(id))
  {
    if NodeIdFromTopic(topic) == Some(id) {
      FourLevels(topic);
    }
    if ConcreteLevel(id) {
      NodeTopicLevels(id, DISPATCH);
      NodeTopicLevels(id, STATUS);
    }
  }

  // ---------------------------------------------------------------------------
  // Node ids
  // ---------------------------------------------------------------------------

  predicate ValidNodeIdChar(c: char)
  {
    'a' <= c <= 'z' || 'A' <= c <= 'Z' || '0' <= c <= '9' || c == '-' || c == '_' || c == '.'
  }

  predicate ValidNodeId(id: string)
  {
    id != "" && |id| <= MAX_NODE_ID && forall i :: 0 <= i < |id| ==> ValidNodeIdChar(id[i])
  }

  /** The valid ids: one to 128 letters, digits, dashes, underscores and dots. */
  lemma ValidNodeIdsExactly(id: string)
    ensures ValidNodeId(id) <==>
              1 <= |id| <= 128 &&
              forall c :: c in id ==>
                'a' <= c <= 'z' || 'A' <= c <= 'Z' || '0' <= c <= '9' || c == '-' || c == '_' || c == '.'
  {
    if ValidNodeId(id) {
      forall c | c in id ensures ValidNodeIdChar(c) {
        var i :| 0 <= i < |id| && id[i] == c;
      }
    }
    assert forall i :: 0 <= i < |id| ==> id[i] in id;
  }

  lemma ValidIsConcrete(id: string)
    requires ValidNodeId(id)
    ensures ConcreteLevel(id) && '+' !in id && '#' !in id
  {
    assert ValidNodeIdChar(id[0]);
  }

  /** For a valid id extraction inverts both constructors. */
  lemma ValidIdRoundTrips(id: string)
    requires ValidNodeId(id)
    ensures NodeIdFromTopic(DispatchTopic(id)) == Some(id)
    ensures NodeIdFromTopic(StatusTopic(id)) == Some(id)
  {
    ValidIsConcrete(id);
    NodeIdExactly(DispatchTopic(id), id);
    NodeIdExactly(StatusTopic(id), id);
  }

  /** Topics of different ids, and of different segments, are different, for any ids at all. */
  lemma TopicsDistinct(a: string, b: string)
    ensures DispatchTopic(a) == DispatchTopic(b) ==> a == b
    ensures StatusTopic(a) == StatusTopic(b) ==> a == b
    ensures DispatchTopic(a) != StatusTopic(b)
  {
    NodeTopicText(a, DISPATCH);
    NodeTopicText(b, DISPATCH);
    NodeTopicText(a, STATUS);
    NodeTopicText(b, STATUS);
    var head := ROOT + [SEP];
    assert DispatchTopic(a)[|head|..|DispatchTopic(a)| - 9] == a;
    assert DispatchTopic(b)[|head|..|DispatchTopic(b)| - 9] == b;
    assert StatusTopic(a)[|head|..|StatusTopic(a)| - 7] == a;
    assert StatusTopic(b)[|head|..|StatusTopic(b)| - 7] == b;
    assert DispatchTopic(a)[|DispatchTopic(a)| - 1] == 'h' && StatusTopic(b)[|StatusTopic(b)| - 1] == 's';
  }

  /** The topics of a valid id hold no wildcard. */
  lemma TopicsWildcardFree(id: string, segment: string)
    requires ValidNodeId(id) && segment in {DISPATCH, STATUS}
    ensures '+' !in NodeTopic(id, segment) && '#' !in NodeTopic(id, segment)
  {
    ValidIsConcrete(id);
    NodeTopicText(id, segment);
    assert '+' !in ROOT && '#' !in ROOT && '+' !in segment && '#' !in segment;
  }

  // ---------------------------------------------------------------------------
  // Subscription filters (section 4.7 of MQTT 3.1.1)
  // ---------------------------------------------------------------------------

  predicate LevelsMatch(filter: seq<string>, topic: seq<string>)
  {
    if filter == [] then topic == []
    else if filter == ["#"] then true
    else topic != [] && (filter[0] == "+" || filter[0] == topic[0]) && LevelsMatch(filter[1..], topic[1..])
  }

  /** A filter that starts with a wildcard does not match a topic that starts with `$`. */
  predicate Matches(filter: string, topic: string)
  {
    LevelsMatch(Split(filter), Split(topic)) &&
    !(filter != "" && topic != "" && filter[0] in {'+', '#'} && topic[0] == '$')
  }

  function AllStatusTopic(): string
  {
    NodeTopic("+", STATUS)
  }

  function AllDispatchTopic(): string
  {
    NodeTopic("+", DISPATCH)
  }

  lemma MatchLevel(head: string, rest: seq<string>, topic: seq<string>)
    requires head != "#"
    ensures LevelsMatch([head] + rest, topic) <==>
            topic != [] && (head == "+" || head == topic[0]) && LevelsMatch(rest, topic[1..])
  {
    assert ([head] + rest)[1..] == rest && ([head] + rest)[0] == head && ["#"][0] == "#";
  }

  /** A filter that begins with the two root levels. */
  lemma MatchRoot(rest: seq<string>, topic: seq<string>)
    ensures LevelsMatch(["helix", "edge"] + rest, topic) <==>
            |topic| >= 2 && topic[0] == "helix" && topic[1] == "edge" && LevelsMatch(rest, topic[2..])
  {
    assert ["helix", "edge"] + rest == ["helix"] + (["edge"] + rest);
    MatchLevel("helix", ["edge"] + rest, topic);
    if topic != [] {
      MatchLevel("edge", rest, topic[1..]);
      assert |topic| >= 2 ==> topic[1..][1..] == topic[2..];
    }
  }

  lemma AllNodesMatches(segment: string, topic: string)
    requires segment in {DISPATCH, STATUS}
    ensures Matches(NodeTopic("+", segment), topic) <==>
            var p := Split(topic); |p| == 4 && p[0] == "helix" && p[1] == "edge" && p[3] == segment
  {
    NodeTopicLevels("+", segment);
    NodeTopicText("+", segment);
    var levels := Split(topic);
    assert ["helix", "edge", "+", segment] == ["helix", "edge"] + ["+", segment];
    MatchRoot(["+", segment], levels);
    if |levels| >= 2 {
      assert ["+", segment] == ["+"] + ([segment] + []);
      MatchLevel("+", [segment] + [], levels[2..]);
      if |levels| >= 3 {
        MatchLevel(segment, [], levels[2..][1..]);
      }
    }
  }

  /** The all-nodes filters match exactly the topics with one level in the place of the node id,
      so every node's topic and never one of the other kind. */
  lemma AllNodesFilters(topic: string)
    ensures Matches(AllStatusTopic(), topic) <==> exists id :: SEP !in id && topic == StatusTopic(id)
    ensures Matches(AllDispatchTopic(), topic) <==> exists id :: SEP !in id && topic == DispatchTopic(id)
  {
    AllNodesFilter(STATUS, topic);
    AllNodesFilter(DISPATCH, topic);
  }

  lemma AllNodesFilter(segment: string, topic: string)
    requires segment in {DISPATCH, STATUS}
    ensures Matches(NodeTopic("+", segment), topic) <==> exists id :: SEP !in id && topic == NodeTopic(id, segment)
  {
    AllNodesMatches(segment, topic);
    if Matches(NodeTopic("+", segment), topic) {
      FourLevels(topic);
      var id := Split(topic)[2];
      assert SEP !in id && topic == NodeTopic(id, segment);
    }
    if id :| SEP !in id && topic == NodeTopic(id, segment) {
      NodeTopicLevels(id, segment);
    }
  }

  lemma UnderRoot(topic: string)
    ensures topic == ROOT || ROOT + [SEP] <= topic <==>
            |Split(topic)| >= 2 && Split(topic)[0] == "helix" && Split(topic)[1] == "edge"
  {
    var levels := Split(topic);
    if topic == ROOT {
      RootText();
      SplitOne("edge");
      SplitFirst("helix", "edge");
    } else if ROOT + [SEP] <= topic {
      RootLevels(topic[|ROOT| + 1..]);
      assert topic == ROOT + [SEP] + topic[|ROOT| + 1..];
    }
    if |levels| >= 2 && levels[0] == "helix" && levels[1] == "edge" {
      JoinSplit(topic);
      RootFirst(levels);
    }
  }

  lemma RootFirst(levels: seq<string>)
    requires |levels| >= 2 && levels[0] == "helix" && levels[1] == "edge"
    ensures Join(levels) == ROOT || ROOT + [SEP] <= Join(levels)
  {
    var tail := levels[2..];
    assert levels == ["helix"] + (["edge"] + tail);
    if tail == [] {
      RootText();
      JoinAll(["edge"], "helix");
      assert levels == ["helix"] + ["edge"];
    } else {
      RootJoin(tail);
    }
  }

  /** The filters that are not accepted: a multi-level wildcard after the root would match the root
      and everything under it, and one alone everything but topics that start with `$`. */
  lemma HashMatches(topic: string)
    ensures Matches("helix/edge/#", topic) <==> topic == "helix/edge" || "helix/edge/" <= topic
    ensures Matches("#", topic) <==> topic == "" || topic[0] != '$'
  {
    hide Split, LevelsMatch;
    SplitOne("#");
    assert "helix/edge/" == ROOT + [SEP] && "helix/edge/#" == ROOT + [SEP] + "#";
    RootLevels("#");
    MatchRoot(["#"], Split(topic));
    UnderRoot(topic);
    if |Split(topic)| >= 2 {
      HashLevel(Split(topic)[2..]);
    }
    HashLevel(Split(topic));
  }

  lemma HashLevel(levels: seq<string>)
    ensures LevelsMatch(["#"], levels)
  {
  }

  predicate ValidSubscribeTopic(topic: string)
  {
    topic != "" && |topic| <= MAX_TOPIC && '#' !in topic && ROOT + [SEP] <= topic
  }

  /** The all-nodes filters and both topics of every valid id are accepted subscriptions; anything
      outside the root, with a multi-level wildcard or too long is not. */
  lemma AcceptedSubscriptions(topic: string, id: string)
    ensures ValidSubscribeTopic(AllStatusTopic()) && ValidSubscribeTopic(AllDispatchTopic())
    ensures ValidNodeId(id) ==> ValidSubscribeTopic(StatusTopic(id)) && ValidSubscribeTopic(DispatchTopic(id))
    ensures ValidSubscribeTopic(topic) <==> "helix/edge/" <= topic && '#' !in topic && |topic| <= 65535
  {
    TopicTexts("+");
    TopicTexts(id);
    assert "helix/edge/" == ROOT + [SEP];
    if ValidNodeId(id) {
      ValidIsConcrete(id);
      assert '#' !in StatusTopic(id) && '#' !in DispatchTopic(id);
    }
    assert '#' !in AllStatusTopic() && '#' !in AllDispatchTopic();
  }

  /** The topics as the broker sees them. */
  lemma TopicTexts(id: string)
    ensures DispatchTopic(id) == "helix/edge/" + id + "/dispatch"
    ensures StatusTopic(id) == "helix/edge/" + id + "/status"
  {
    NodeTopicText(id, DISPATCH);
    NodeTopicText(id, STATUS);
    assert "helix/edge/" == ROOT + [SEP] && "/dispatch" == [SEP] + DISPATCH && "/status" == [SEP] + STATUS;
    assert ROOT + [SEP] + id + [SEP] + DISPATCH == ROOT + [SEP] + id + ([SEP] + DISPATCH);
    assert ROOT + [SEP] + id + [SEP] + STATUS == ROOT + [SEP] + id + ([SEP] + STATUS);
  }

  lemma RootLevels(rest: string)
    ensures Split(ROOT + [SEP] + rest) == ["helix", "edge"] + Split(rest)
  {
    SplitFirst("edge", rest);
    SplitFirst("helix", "edge" + [SEP] + rest);
    Regroup("helix", "edge", rest);
    RootText();
  }

  lemma {:induction false} JoinAll(parts: seq<string>, head: string)
    requires |parts| > 0
    ensures Join([head] + parts) == head + [SEP] + Join(parts)
  {
    assert ([head] + parts)[1..] == parts;
  }

  lemma RootJoin(tail: seq<string>)
    requires |tail| > 0
    ensures Join(["helix"] + (["edge"] + tail)) == ROOT + [SEP] + Join(tail)
  {
    JoinAll(tail, "edge");
    JoinAll(["edge"] + tail, "helix");
    Regroup("helix", "edge", Join(tail));
    RootText();
  }

  /** Whatever an accepted subscription matches lies under the root. */
  lemma SubscriptionsStayUnderRoot(filter: string, topic: string)
    requires ValidSubscribeTopic(filter) && Matches(filter, topic)
    ensures ROOT + [SEP] <= topic
  {
    var rest := filter[|ROOT| + 1..];
    assert filter == ROOT + [SEP] + rest;
    RootLevels(rest);
    var t := Split(topic);
    MatchRoot(Split(rest), t);
    NoHashLevel(rest);
    assert '#' !in Split(rest)[0];
    JoinSplit(topic);
    var tail := t[2..];
    assert t == ["helix"] + (["edge"] + tail);
    RootJoin(tail);
  }

  lemma {:induction false} NoHashLevel(s: string)
    requires '#' !in s
    ensures forall i :: 0 <= i < |Split(s)| ==> '#' !in Split(s)[i]
  {
    if s != [] {
      NoHashLevel(s[1..]);
    }
  }

  // ---------------------------------------------------------------------------
  // The gateway's own extraction
  // ---------------------------------------------------------------------------

  /** The gateway's version returns "" when there is no node id to take. */
  function GatewayNode(topic: string): string
  {
    var head := ROOT + [SEP];
    if !(head <= topic) then ""
    else
      var parts := Split(topic[|head|..]);
      if |parts| < 2 then "" else parts[0]
  }

  lemma FirstLevelAfter(head: string, topic: string, id: string)
    requires head <= topic
    ensures |Split(topic[|head|..])| >= 2 && Split(topic[|head|..])[0] == id <==>
            SEP !in id && head + id + [SEP] <= topic
  {
    var rest := topic[|head|..];
    assert topic == head + rest;
    if |Split(rest)| >= 2 && Split(rest)[0] == id {
      JoinSplit(rest);
      assert topic == head + id + [SEP] + Join(Split(rest)[1..]);
    }
    if SEP !in id && head + id + [SEP] <= topic {
      var tail := topic[|head| + |id| + 1..];
      assert topic == head + id + [SEP] + tail;
      assert rest == id + [SEP] + tail;
      SplitFirst(id, tail);
    }
  }

  /** The gateway takes whatever stands between the root and the next separator. */
  lemma GatewayNodeExactly(topic: string, id: string)
    requires id != ""
    ensures GatewayNode(topic) == id <==> SEP !in id && ROOT + [SEP] + id + [SEP] <= topic
  {
    var head := ROOT + [SEP];
    if head <= topic {
      FirstLevelAfter(head, topic, id);
    } else {
      assert head + id + [SEP] == head + (id + [SEP]);
      LongerPrefix(head, id + [SEP], topic);
    }
  }

  lemma LongerPrefix(a: string, b: string, s: string)
    ensures a + b <= s ==> a <= s
  {
    assert a <= a + b;
  }

  /** Both extractions agree wherever the stricter one succeeds. */
  lemma ExtractionsAgree(topic: string)
    requires NodeIdFromTopic(topic).Some?
    ensures GatewayNode(topic) == NodeIdFromTopic(topic).value
  {
    var id := NodeIdFromTopic(topic).value;
    NodeIdExactly(topic, id);
    NodeTopicText(id, DISPATCH);
    NodeTopicText(id, STATUS);
    GatewayNodeExactly(topic, id);
  }
}
