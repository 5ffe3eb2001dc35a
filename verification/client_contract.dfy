/**
 * How the two client components and the contract fit together: the JSON
 * the client builds is exactly what the contract decodes, the contract's
 * answer reaches the retriever unchanged, and a capsule stored through the
 * form is what the retriever later shows.
 */
module ClientContract {
  import opened Wrappers
  import opened Json
  import opened JsNumber
  import opened CosmWasmStd
  import opened State
  import opened Msg
  import Contract
  import MessageRetriever
  import MessageStore

  /** The store request built from a timestamp the date handler wrote is the contract's `store_message`. */
  lemma StorePayloadIsExecuteMsg(message: string, t: int)
    requires 0 <= t < U64_LIMIT
    ensures MessageStore.StorePayload(message, ToString(Finite(t))) == ExecuteMsgToJson(StoreMessage(message, t))
    ensures ParseExecuteMsg(MessageStore.StorePayload(message, ToString(Finite(t)))) == Some(StoreMessage(message, t))
  {
    ParseIntOfToString(t);
    ExecuteMsgRoundTrip(StoreMessage(message, t));
  }

  /** A date before 1970 gives a negative timestamp, which the contract's `u64` refuses. */
  lemma NegativeTimestampRefused(message: string, t: int)
    requires t < 0
    ensures ParseExecuteMsg(MessageStore.StorePayload(message, ToString(Finite(t)))) == None
  {
    ParseIntOfToString(t);
    StoreMessageNeedsU64(message, JNumber(t));
  }

  /** The retriever's query is the contract's `get_message` for the connected address. */
  lemma GetMessageRequestIsQueryMsg(address: string)
    ensures MessageRetriever.GetMessageRequest(address) == QueryMsgToJson(GetMessage(address))
    ensures ParseQueryMsg(MessageRetriever.GetMessageRequest(address)) == Some(GetMessage(address))
  {
    QueryMsgRoundTrip(GetMessage(address));
  }

  /**
   * What `queryContractSmart` hands the retriever for a contract answer: an
   * error is thrown, a falsy value is reported as such, anything else is
   * read as a response.
   */
  function ClientAnswer(answer: Result<Json, StdError>): (r: MessageRetriever.QueryAnswer)
    ensures answer.Err? ==> r.QueryThrew?
    ensures answer.Ok? && !Truthy(answer.value) ==> r.ReturnedFalsy?
    ensures r.Returned? ==> ParseMessageResponse(answer.value) == Some(r.response)
  {
    if answer.Err? then MessageRetriever.QueryThrew
    else if !Truthy(answer.value) then MessageRetriever.ReturnedFalsy
    else
      var response := ParseMessageResponse(answer.value);
      if response.None? then MessageRetriever.QueryThrew else MessageRetriever.Returned(response.value)
  }

  /** Whatever the contract answers, the retriever receives that very response, or an error. */
  lemma ContractAnswerReachesClient(capsules: Capsules, env: Env, owner: string, addrValid: string -> bool)
    ensures var direct := Contract.QueryGetMessage(capsules, env, owner, addrValid);
            var received := ClientAnswer(Contract.Query(capsules, env, GetMessage(owner), addrValid));
            && (direct.Ok? ==> received == MessageRetriever.Returned(direct.value))
            && (direct.Err? ==> received == MessageRetriever.QueryThrew)
  {
    var direct := Contract.QueryGetMessage(capsules, env, owner, addrValid);
    if direct.Ok? {
      assert Truthy(MessageResponseToJson(direct.value));
    }
  }

  /**
   * The client's whole round trip. A form submitted with text `message` and
   * a timestamp `t` written by the date handler is executed by the contract
   * for the form's address with no funds; a later query for that address
   * delivers to the retriever the locked placeholder before second `t` and
   * the text from second `t` on.
   */
  lemma StoreThenRetrieve(capsules: Capsules, address: Addr, message: string, t: int,
                          env: Env, addrValid: string -> bool)
    requires 0 <= t < U64_LIMIT && addrValid(address)
    ensures var stored := Contract.StoreCapsule(capsules, address, message, t);
            var unlocked := env.blockTime.Seconds() >= t;
            && ParseExecuteMsg(MessageStore.StorePayload(message, ToString(Finite(t)))) == Some(StoreMessage(message, t))
            && ClientAnswer(Contract.Query(stored, env, GetMessage(address), addrValid))
               == MessageRetriever.Returned(MessageResponse(if unlocked then message else Contract.LOCKED_MESSAGE,
                                                            address, t, unlocked))
  {
    StorePayloadIsExecuteMsg(message, t);
    var stored := Contract.StoreCapsule(capsules, address, message, t);
    Contract.StoreThenQuery(capsules, address, message, t, env, addrValid);
    ContractAnswerReachesClient(stored, env, address, addrValid);
  }

  /**
   * The retriever's text never leaks a locked capsule: after `getMessage`
   * receives the contract's answer for a capsule still locked at that
   * block, the stored text is the placeholder and the rendered body is not
   * message text.
   */
  method RetrieveLocked(r: MessageRetriever.Retriever, capsules: Capsules, env: Env, address: Addr,
                        addrValid: string -> bool)
    requires address != "" && addrValid(address)
    requires address in capsules && env.blockTime.Seconds() < capsules[address].unlock_time
    modifies r
    ensures r.storedMessage == Contract.LOCKED_MESSAGE && !r.isUnlocked && r.hasMessage
    ensures !r.Render(address).body.MessageText?
  {
    ContractAnswerReachesClient(capsules, env, address, addrValid);
    var answer := ClientAnswer(Contract.Query(capsules, env, GetMessage(address), addrValid));
    var request, toast := r.GetMessage(address, answer);
  }

  /**
   * As written, clearing the date input reaches the chain: `getTime()` of
   * the empty value is NaN, the field becomes "NaN", which passes the
   * "set an unlock time" check; `parseInt` gives NaN again, `JSON.stringify`
   * sends `null`, and the contract refuses the message, after the wallet's
   * `enable` and the signing client's `execute` were already called.
   */
  lemma ClearedDateReachesChain(message: string)
    ensures ToString(FloorDiv(NaN, 1000)) == "NaN" != ""
    ensures MessageStore.StorePayload(message, "NaN").members[0].1.members[1].1 == JNull
    ensures ParseExecuteMsg(MessageStore.StorePayload(message, "NaN")) == None
  {
    ParseIntOfNaN();
    assert MessageStore.StorePayload(message, "NaN")
        == JObject([(STORE_MESSAGE_TAG, JObject([("message", JString(message)), ("unlock_time", JNull)]))]);
    StoreMessageNeedsU64(message, JNull);
  }

  /**
   * With the checked date handler, whatever passes the form's checks is a
   * number the contract can read, unless it lies before 1970 or past the
   * `u64` range; an invalid date is stopped by the form itself.
   */
  lemma CheckedDateNeverSendsNull(message: string, unlockTime: string)
    requires MessageStore.UnlockTimeWellFormed(unlockTime) && unlockTime != ""
    ensures var t := ParseInt(unlockTime).value;
            0 <= t < U64_LIMIT ==> ParseExecuteMsg(MessageStore.StorePayload(message, unlockTime)) == Some(StoreMessage(message, t))
  {
    var t := ParseInt(unlockTime).value;
    if 0 <= t < U64_LIMIT {
      assert MessageStore.StorePayload(message, unlockTime) == ExecuteMsgToJson(StoreMessage(message, t));
      ExecuteMsgRoundTrip(StoreMessage(message, t));
    }
  }
}
