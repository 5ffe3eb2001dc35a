/**
 * The contract's request and response types, and the JSON shape `cw_serde`
 * gives them: enums are externally tagged with the snake_case variant name,
 * structs are objects with exactly their declared fields (unknown and
 * repeated fields are refused), a `u64` is a JSON number in range.
 */
module Msg {
  import opened Wrappers
  import opened Json
  import opened CosmWasmStd

  /** Instantiation takes no parameters. */
  datatype InstantiateMsg = InstantiateMsg

  /** The only execute message: store (or replace) the sender's capsule. */
  datatype ExecuteMsg = StoreMessage(message: string, unlock_time: u64)

  /** The only query: the capsule of `owner`, answered by a `MessageResponse`. */
  datatype QueryMsg = GetMessage(owner: string)

  datatype MessageResponse = MessageResponse(message: string, owner: string, unlock_time: u64, is_unlocked: bool)

  const STORE_MESSAGE_TAG: string := "store_message"
  const GET_MESSAGE_TAG: string := "get_message"

  // Encoding

  function InstantiateMsgToJson(m: InstantiateMsg): Json
  {
    JObject([])
  }

  function ExecuteMsgToJson(m: ExecuteMsg): Json
  {
    JObject([(STORE_MESSAGE_TAG, JObject([("message", JString(m.message)), ("unlock_time", JNumber(m.unlock_time))]))])
  }

  function QueryMsgToJson(m: QueryMsg): Json
  {
    JObject([(GET_MESSAGE_TAG, JObject([("owner", JString(m.owner))]))])
  }

  function MessageResponseToJson(r: MessageResponse): Json
  {
    JObject([
      ("message", JString(r.message)),
      ("owner", JString(r.owner)),
      ("unlock_time", JNumber(r.unlock_time)),
      ("is_unlocked", JBool(r.is_unlocked))
    ])
  }

  // Decoding

  /** The members of a struct body: an object whose member names are distinct and declared. */
  function StructMembers(j: Json, fields: set<string>): (r: Option<seq<(string, Json)>>)
    ensures r.Some? <==> j.JObject? && DistinctKeys(j.members) && KnownKeys(j.members, fields)
    ensures r.Some? ==> r.value == j.members
  {
    if j.JObject? && DistinctKeys(j.members) && KnownKeys(j.members, fields) then Some(j.members) else None
  }

  /** The single `(tag, body)` member of an externally tagged enum value. */
  function Variant(j: Json): (r: Option<(string, Json)>)
    ensures r.Some? <==> j.JObject? && |j.members| == 1
    ensures r.Some? ==> r.value == j.members[0]
  {
    if j.JObject? && |j.members| == 1 then Some(j.members[0]) else None
  }

  function StringField(members: seq<(string, Json)>, key: string): (r: Option<string>)
    ensures r.Some? <==> Get(members, key).Some? && Get(members, key).value.JString?
    ensures r.Some? ==> Get(members, key) == Some(JString(r.value))
  {
    match Get(members, key)
    case Some(JString(s)) => Some(s)
    case _ => None
  }

  function U64Field(members: seq<(string, Json)>, key: string): (r: Option<u64>)
    ensures r.Some? <==> Get(members, key).Some? && Get(members, key).value.JNumber?
                         && 0 <= Get(members, key).value.n < U64_LIMIT
    ensures r.Some? ==> Get(members, key) == Some(JNumber(r.value))
  {
    match Get(members, key)
    case Some(JNumber(n)) => if 0 <= n < U64_LIMIT then Some(n) else None
    case _ => None
  }

  function BoolField(members: seq<(string, Json)>, key: string): (r: Option<bool>)
    ensures r.Some? <==> Get(members, key).Some? && Get(members, key).value.JBool?
    ensures r.Some? ==> Get(members, key) == Some(JBool(r.value))
  {
    match Get(members, key)
    case Some(JBool(b)) => Some(b)
    case _ => None
  }

  function ParseInstantiateMsg(j: Json): (r: Option<InstantiateMsg>)
    ensures r.Some? <==> j == JObject([])
  {
    var members := StructMembers(j, {});
    assert members.Some? && members.value != [] ==> members.value[0].0 in {};
    if members.Some? then Some(InstantiateMsg) else None
  }

  /** Decodes an execute message; the tag must be `store_message`, so dispatch on it is total. */
  function ParseExecuteMsg(j: Json): (r: Option<ExecuteMsg>)
    ensures r.Some? ==> Variant(j).Some? && Variant(j).value.0 == STORE_MESSAGE_TAG
    ensures r.Some? ==> var body := Variant(j).value.1;
                        body.JObject?
                        && Get(body.members, "message") == Some(JString(r.value.message))
                        && Get(body.members, "unlock_time") == Some(JNumber(r.value.unlock_time))
    ensures r.Some? ==> var body := Variant(j).value.1;
                        DistinctKeys(body.members) && KnownKeys(body.members, {"message", "unlock_time"})
  {
    if Variant(j).None? || Variant(j).value.0 != STORE_MESSAGE_TAG then None
    else
      var members := StructMembers(Variant(j).value.1, {"message", "unlock_time"});
      if members.None? then None
      else
        var message, t := StringField(members.value, "message"), U64Field(members.value, "unlock_time");
        if message.Some? && t.Some? then Some(StoreMessage(message.value, t.value)) else None
  }

  /** Decodes a query message; the tag must be `get_message`. */
  function ParseQueryMsg(j: Json): (r: Option<QueryMsg>)
    ensures r.Some? ==> Variant(j).Some? && Variant(j).value.0 == GET_MESSAGE_TAG
    ensures r.Some? ==> var body := Variant(j).value.1;
                        body.JObject? && Get(body.members, "owner") == Some(JString(r.value.owner))
    ensures r.Some? ==> var body := Variant(j).value.1;
                        DistinctKeys(body.members) && KnownKeys(body.members, {"owner"})
  {
    if Variant(j).None? || Variant(j).value.0 != GET_MESSAGE_TAG then None
    else
      var members := StructMembers(Variant(j).value.1, {"owner"});
      if members.None? then None
      else
        var owner := StringField(members.value, "owner");
        if owner.Some? then Some(GetMessage(owner.value)) else None
  }

  /** Decodes a query answer, as the client reads `result.message`, `result.is_unlocked` and `result.unlock_time`. */
  function ParseMessageResponse(j: Json): (r: Option<MessageResponse>)
    ensures r.Some? ==> j.JObject?
                        && Get(j.members, "message") == Some(JString(r.value.message))
                        && Get(j.members, "owner") == Some(JString(r.value.owner))
                        && Get(j.members, "unlock_time") == Some(JNumber(r.value.unlock_time))
                        && Get(j.members, "is_unlocked") == Some(JBool(r.value.is_unlocked))
    ensures r.Some? ==> DistinctKeys(j.members) && KnownKeys(j.members, {"message", "owner", "unlock_time", "is_unlocked"})
  {
    var members := StructMembers(j, {"message", "owner", "unlock_time", "is_unlocked"});
    if members.None? then None
    else
      var ms := members.value;
      var message, owner := StringField(ms, "message"), StringField(ms, "owner");
      var t, unlocked := U64Field(ms, "unlock_time"), BoolField(ms, "is_unlocked");
      if message.Some? && owner.Some? && t.Some? && unlocked.Some?
      then Some(MessageResponse(message.value, owner.value, t.value, unlocked.value))
      else None
  }

  // Round trips: what the contract writes, it and the client read back unchanged.

  lemma InstantiateMsgRoundTrip(m: InstantiateMsg)
    ensures ParseInstantiateMsg(InstantiateMsgToJson(m)) == Some(m)
  {
  }

  lemma ExecuteMsgRoundTrip(m: ExecuteMsg)
    ensures ParseExecuteMsg(ExecuteMsgToJson(m)) == Some(m)
  {
    var ms := [("message", JString(m.message)), ("unlock_time", JNumber(m.unlock_time))];
    assert DistinctKeys(ms) && KnownKeys(ms, {"message", "unlock_time"});
    assert Get(ms, "message") == Some(JString(m.message));
    assert ms[1..] == [("unlock_time", JNumber(m.unlock_time))];
    assert Get(ms, "unlock_time") == Some(JNumber(m.unlock_time));
  }

  lemma QueryMsgRoundTrip(m: QueryMsg)
    ensures ParseQueryMsg(QueryMsgToJson(m)) == Some(m)
  {
  }

  lemma MessageResponseRoundTrip(r: MessageResponse)
    ensures ParseMessageResponse(MessageResponseToJson(r)) == Some(r)
  {
    var ms := MessageResponseToJson(r).members;
    ResponseMembersWellFormed(r);
    ResponseMembersLookup(r);
    assert StringField(ms, "message") == Some(r.message);
    assert StringField(ms, "owner") == Some(r.owner);
    assert U64Field(ms, "unlock_time") == Some(r.unlock_time);
    assert BoolField(ms, "is_unlocked") == Some(r.is_unlocked);
  }

  lemma ResponseMembersWellFormed(r: MessageResponse)
    ensures DistinctKeys(MessageResponseToJson(r).members)
    ensures KnownKeys(MessageResponseToJson(r).members, {"message", "owner", "unlock_time", "is_unlocked"})
  {
  }

  lemma ResponseMembersLookup(r: MessageResponse)
    ensures Get(MessageResponseToJson(r).members, "message") == Some(JString(r.message))
    ensures Get(MessageResponseToJson(r).members, "owner") == Some(JString(r.owner))
    ensures Get(MessageResponseToJson(r).members, "unlock_time") == Some(JNumber(r.unlock_time))
    ensures Get(MessageResponseToJson(r).members, "is_unlocked") == Some(JBool(r.is_unlocked))
  {
    var ms := MessageResponseToJson(r).members;
    assert ms[1..][1..] == ms[2..] && ms[2..][1..] == ms[3..];
    assert Get(ms[3..], "is_unlocked") == Some(JBool(r.is_unlocked));
    assert Get(ms[2..], "unlock_time") == Some(JNumber(r.unlock_time));
    assert Get(ms[2..], "is_unlocked") == Some(JBool(r.is_unlocked));
  }

  /** A `store_message` body whose `unlock_time` is not a number in range is refused. */
  lemma StoreMessageNeedsU64(message: string, t: Json)
    requires !(t.JNumber? && 0 <= t.n < U64_LIMIT)
    ensures ParseExecuteMsg(JObject([(STORE_MESSAGE_TAG, JObject([("message", JString(message)), ("unlock_time", t)]))])) == None
  {
  }
}
