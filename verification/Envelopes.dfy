/** The gateway's message model: what is well formed and where a message goes. */
module Envelopes {
  import opened Options
  import opened Topics

  datatype Kind = Dispatch | Status | OtherKind(name: string)

  datatype Envelope = Envelope(
    id: string,
    kind: Kind,
    source: string,
    dest: string,
    topic: string,
    payload: string,
    issuedAt: int)

  predicate WellFormed(e: Envelope)
  {
    e.id != "" && !e.kind.OtherKind? && (e.kind.Dispatch? ==> e.dest != "" || e.topic != "")
  }

  /** With an id and one of the two kinds, only a dispatch that names neither a node nor a topic is
      malformed: one addressed by topic alone is well formed, and so is every status. */
  lemma WellFormedExactly(e: Envelope)
    ensures e.id == "" || e.kind.OtherKind? ==> !WellFormed(e)
    ensures e.id != "" && e.kind == Status ==> WellFormed(e)
    ensures e.id != "" && e.kind == Dispatch ==> (WellFormed(e) <==> e.dest != "" || e.topic != "")
  {
  }

  function RouteTopic(e: Envelope): string
  {
    if e.topic != "" then e.topic
    else if e.kind.Status? then StatusTopic(e.dest)
    else DispatchTopic(e.dest)
  }

  /** The node a message is for, or "" when it names none. */
  function Destination(e: Envelope): string
  {
    if e.dest != "" then e.dest else GatewayNode(RouteTopic(e))
  }

  /** The topic has `id` as the level after the root, with a separator behind it. */
  predicate NamesNode(topic: string, id: string)
  {
    id != "" && '/' !in id && "helix/edge/" + id + "/" <= topic
  }

  /** The destination is the explicit one, else the node the topic names, else none. */
  lemma DestinationExactly(e: Envelope)
    ensures e.dest != "" ==> Destination(e) == e.dest
    ensures e.dest == "" ==> forall id :: NamesNode(e.topic, id) ==> Destination(e) == id
    ensures e.dest == "" && (forall id :: !NamesNode(e.topic, id)) ==> Destination(e) == ""
  {
    hide GatewayNode;
    assert "helix/edge/" == ROOT + [SEP] && "/" == [SEP];
    if e.dest == "" && e.topic == "" {
      UnaddressedHasNoNode(e);
    } else if e.dest == "" {
      forall id | id != "" ensures GatewayNode(e.topic) == id <==> NamesNode(e.topic, id) {
        GatewayNodeExactly(e.topic, id);
      }
      assert GatewayNode(e.topic) != "" ==> NamesNode(e.topic, GatewayNode(e.topic));
    }
  }

  /** A message that carries neither a destination nor a topic resolves to no node. */
  lemma UnaddressedHasNoNode(e: Envelope)
    requires e.dest == "" && e.topic == ""
    ensures Destination(e) == ""
  {
    NodeTopicText("", STATUS);
    NodeTopicText("", DISPATCH);
    if Destination(e) != "" {
      GatewayNodeExactly(RouteTopic(e), Destination(e));
    }
  }

  /** Addressing by topic and addressing by id reach the same node, and an id wins over a topic. */
  lemma DestinationOfTopic(e: Envelope, id: string)
    requires ConcreteLevel(id) && (e.topic == DispatchTopic(id) || e.topic == StatusTopic(id))
    ensures Destination(e) == if e.dest == "" then id else e.dest
  {
    NodeIdExactly(e.topic, id);
    ExtractionsAgree(e.topic);
    NodeTopicText(id, DISPATCH);
    NodeTopicText(id, STATUS);
  }

  /** A topic derived from the destination names that node and tells the two kinds apart. */
  lemma DerivedTopic(e: Envelope)
    requires e.topic == "" && ConcreteLevel(e.dest)
    ensures NodeIdFromTopic(RouteTopic(e)) == Some(e.dest) && GatewayNode(RouteTopic(e)) == e.dest
    ensures Matches(AllStatusTopic(), RouteTopic(e)) <==> e.kind.Status?
    ensures Matches(AllDispatchTopic(), RouteTopic(e)) <==> !e.kind.Status?
  {
    hide GatewayNode, NodeIdFromTopic, Matches, AllStatusTopic, AllDispatchTopic, DispatchTopic, StatusTopic;
    NodeIdExactly(RouteTopic(e), e.dest);
    ExtractionsAgree(RouteTopic(e));
    AllNodesFilters(RouteTopic(e));
    forall id ensures DispatchTopic(e.dest) != StatusTopic(id) && DispatchTopic(id) != StatusTopic(e.dest) {
      TopicsDistinct(e.dest, id);
      TopicsDistinct(id, e.dest);
    }
  }
}
