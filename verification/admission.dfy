/**
 * Whether the worker takes a job: a call is accepted for Santa when the room
 * metadata names the Santa agent type or agent, or the room name mentions Santa.
 */
module Admission {
  import opened Wrappers
  import opened Text

  datatype Decision = Accept | Reject

  /** The room metadata as read by the handler: an empty or undecodable string counts as `{}`. */
  function MetadataOrEmpty(decoded: Option<map<string, string>>): map<string, string> {
    decoded.GetOr(map[])
  }

  /** `metadata.get(key, "")`. */
  function Get(meta: map<string, string>, key: string): string {
    if key in meta then meta[key] else ""
  }

  /**
   * The handler's decision for a room named `roomName` whose metadata decodes to
   * `roomMetadata` (`None` when it is empty or not valid JSON).
   */
  function DecideJob(roomMetadata: Option<map<string, string>>, roomName: string): (d: Decision)
    ensures d == Accept <==>
      || (roomMetadata.Some? && "agent_type" in roomMetadata.value
          && Lower(roomMetadata.value["agent_type"]) == "santa")
      || (roomMetadata.Some? && "agent_name" in roomMetadata.value
          && roomMetadata.value["agent_name"] == "call-santa")
      || Contains(Lower(roomName), "santa")
  {
    var metadata := MetadataOrEmpty(roomMetadata);
    var agentType := Lower(Get(metadata, "agent_type"));
    var agentName := Get(metadata, "agent_name");
    if agentType == "santa" || agentName == "call-santa" || Contains(Lower(roomName), "santa")
    then Accept
    else Reject
  }

  /** Metadata that cannot be read leaves the decision to the room name alone. */
  lemma UnreadableMetadataUsesRoomName(roomName: string)
    ensures DecideJob(None, roomName) == DecideJob(Some(map[]), roomName)
    ensures DecideJob(None, roomName) == Accept <==> Contains(Lower(roomName), "santa")
  {
  }

  /** The room-name test ignores letter case. */
  lemma RoomNameCaseInsensitive(roomMetadata: Option<map<string, string>>, roomName: string)
    ensures DecideJob(roomMetadata, Lower(roomName)) == DecideJob(roomMetadata, roomName)
  {
    LowerIdempotent(roomName);
  }

  /** The agent name is compared exactly: a name differing from "call-santa" only in case is not enough. */
  lemma AgentNameIsCaseSensitive(name: string, roomName: string)
    requires name != "call-santa" && Lower(name) == "call-santa"
    requires !Contains(Lower(roomName), "santa")
    ensures DecideJob(Some(map["agent_name" := name]), roomName) == Reject
  {
  }

  /** The agent type is compared after lowering: any casing of "santa" is accepted, whatever else the job carries. */
  lemma AgentTypeIsCaseInsensitive(meta: map<string, string>, roomName: string)
    requires "agent_type" in meta && Lower(meta["agent_type"]) == "santa"
    ensures DecideJob(Some(meta), roomName) == Accept
  {
  }
}
