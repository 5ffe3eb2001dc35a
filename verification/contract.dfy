/**
 * The time-capsule contract's entry points. `instantiate` records the
 * contract version; `execute` stores the sender's capsule, replacing any
 * earlier one, with no check on the unlock time; `query` reads a capsule
 * at the current block time and hides its text while it is still locked.
 */
module Contract {
  import opened Wrappers
  import opened Json
  import opened CosmWasmStd
  import opened State
  import opened Msg

  const CONTRACT_NAME: string := "crates.io:time_capsule"

  /** What a query returns in place of the text of a capsule that is still locked. */
  const LOCKED_MESSAGE: string := "This message is still locked."

  /** The `cw2` contract-version record written at instantiation. */
  datatype ContractVersion = ContractVersion(contract: string, version: string)

  /** The capsule map after `sender` stores `message` to unlock at `unlock_time`. */
  function StoreCapsule(capsules: Capsules, sender: Addr, message: string, unlock_time: u64): (r: Capsules)
    ensures sender in r && r[sender] == Capsule(sender, message, unlock_time)
    ensures r.Keys == capsules.Keys + {sender}
    ensures forall a :: a in capsules && a != sender ==> r[a] == capsules[a]
  {
    capsules[sender := Capsule(sender, message, unlock_time)]
  }

  /**
   * The `GetMessage` query over a read-only view of storage. `addrValid` is
   * the chain's address check (`addr_validate`), which accepts an address
   * as it is or fails.
   */
  function QueryGetMessage(capsules: Capsules, env: Env, owner: string, addrValid: string -> bool)
    : (r: Result<MessageResponse, StdError>)
    ensures !addrValid(owner) ==> r == Err(InvalidAddress(owner))
    ensures addrValid(owner) && owner !in capsules ==> r == Err(NotFound)
    ensures r.Ok? <==> addrValid(owner) && owner in capsules
    ensures r.Ok? ==> r.value.owner == owner && r.value.unlock_time == capsules[owner].unlock_time
    ensures r.Ok? ==> (r.value.is_unlocked <==> env.blockTime.Seconds() >= r.value.unlock_time)
    ensures r.Ok? && r.value.is_unlocked ==> r.value.message == capsules[owner].message
    ensures r.Ok? && !r.value.is_unlocked ==> r.value.message == LOCKED_MESSAGE
  {
    if !addrValid(owner) then Err(InvalidAddress(owner))
    else if owner !in capsules then Err(NotFound)
    else
      var capsule := capsules[owner];
      var isUnlocked := env.blockTime.Seconds() >= capsule.unlock_time;
      var message := if isUnlocked then capsule.message else LOCKED_MESSAGE;
      Ok(MessageResponse(message, owner, capsule.unlock_time, isUnlocked))
  }

  /** The `query` entry point: dispatch on the query message and answer in JSON. */
  function Query(capsules: Capsules, env: Env, msg: QueryMsg, addrValid: string -> bool): (r: Result<Json, StdError>)
    ensures r.Err? <==> QueryGetMessage(capsules, env, msg.owner, addrValid).Err?
    ensures r.Err? ==> r.error == QueryGetMessage(capsules, env, msg.owner, addrValid).error
    ensures r.Ok? ==> ParseMessageResponse(r.value) == Some(QueryGetMessage(capsules, env, msg.owner, addrValid).value)
  {
    match msg
    case GetMessage(owner) =>
      var answer := QueryGetMessage(capsules, env, owner, addrValid);
      if answer.Err? then Err(answer.error)
      else
        MessageResponseRoundTrip(answer.value);
        Ok(MessageResponseToJson(answer.value))
  }

  /** The contract's storage: the capsule map and the contract-version record. */
  class TimeCapsule {
    var capsules: Capsules
    var version: Option<ContractVersion>

    ghost predicate Valid()
      reads this
    {
      OwnersMatchKeys(capsules)
    }

    /** Fresh storage, before `instantiate`. */
    constructor ()
      ensures Valid()
      ensures capsules == map[] && version == None
    {
      capsules := map[];
      version := None;
    }

    /** `instantiate`: records the contract name and the package version; stores no capsule. */
    method Instantiate(env: Env, info: MessageInfo, msg: InstantiateMsg, packageVersion: string) returns (res: Response)
      modifies this`version
      ensures version == Some(ContractVersion(CONTRACT_NAME, packageVersion))
      ensures res == Response([Attribute("method", "instantiate")])
    {
      version := Some(ContractVersion(CONTRACT_NAME, packageVersion));
      res := Response([Attribute("method", "instantiate")]);
    }

    /** `execute`: the one execute message is always dispatched to the store handler. */
    method Execute(env: Env, info: MessageInfo, msg: ExecuteMsg) returns (res: Response)
      requires Valid()
      modifies this`capsules
      ensures Valid()
      ensures capsules == StoreCapsule(old(capsules), info.sender, msg.message, msg.unlock_time)
      ensures res == Response([Attribute("action", "store_message"), Attribute("owner", info.sender)])
    {
      match msg
      case StoreMessage(message, unlock_time) =>
        res := ExecuteStoreMessage(env, info, message, unlock_time);
    }

    /**
     * Saves `Capsule{owner: sender, message, unlock_time}` under the sender's
     * address. The block time is not consulted: any unlock time, past ones
     * included, is accepted. Funds sent along are ignored.
     */
    method ExecuteStoreMessage(env: Env, info: MessageInfo, message: string, unlock_time: u64) returns (res: Response)
      requires Valid()
      modifies this`capsules
      ensures Valid()
      ensures capsules == StoreCapsule(old(capsules), info.sender, message, unlock_time)
      ensures res == Response([Attribute("action", "store_message"), Attribute("owner", info.sender)])
    {
      var capsule := Capsule(info.sender, message, unlock_time);
      capsules := capsules[info.sender := capsule];
      res := Response([Attribute("action", "store_message"), Attribute("owner", info.sender)]);
    }
  }

  // Properties of the query and the store.

  /**
   * Unlocking is monotone in block time: a capsule that a query shows
   * unlocked stays unlocked, with the same text, at every later block.
   */
  lemma UnlockIsMonotone(capsules: Capsules, earlier: Env, later: Env, owner: string, addrValid: string -> bool)
    requires earlier.blockTime.nanos <= later.blockTime.nanos
    requires QueryGetMessage(capsules, earlier, owner, addrValid).Ok?
    requires QueryGetMessage(capsules, earlier, owner, addrValid).value.is_unlocked
    ensures QueryGetMessage(capsules, later, owner, addrValid) == QueryGetMessage(capsules, earlier, owner, addrValid)
  {
    SecondsMonotone(earlier.blockTime, later.blockTime);
  }

  /**
   * A query never reveals a capsule's text before its unlock second: if the
   * answer carries the stored text, the capsule is unlocked, or the text
   * happens to be the locked placeholder itself.
   */
  lemma LockedNeverLeaks(capsules: Capsules, env: Env, owner: string, addrValid: string -> bool)
    requires owner in capsules && env.blockTime.Seconds() < capsules[owner].unlock_time
    ensures QueryGetMessage(capsules, env, owner, addrValid).Ok? ==>
              var r := QueryGetMessage(capsules, env, owner, addrValid).value;
              !r.is_unlocked && r.message == LOCKED_MESSAGE
  {
  }

  /** Storing touches only the sender's entry: every other owner's query answer is unchanged. */
  lemma StoreOnlyAffectsSender(capsules: Capsules, sender: Addr, message: string, unlock_time: u64,
                               env: Env, owner: string, addrValid: string -> bool)
    requires owner != sender
    ensures QueryGetMessage(StoreCapsule(capsules, sender, message, unlock_time), env, owner, addrValid)
         == QueryGetMessage(capsules, env, owner, addrValid)
  {
  }

  /** A second store by the same sender replaces the first entirely. */
  lemma StoreOverwrites(capsules: Capsules, sender: Addr, m1: string, t1: u64, m2: string, t2: u64)
    ensures StoreCapsule(StoreCapsule(capsules, sender, m1, t1), sender, m2, t2) == StoreCapsule(capsules, sender, m2, t2)
  {
  }

  /** Stores by different senders do not interfere: their order does not matter. */
  lemma StoresCommute(capsules: Capsules, a: Addr, ma: string, ta: u64, b: Addr, mb: string, tb: u64)
    requires a != b
    ensures StoreCapsule(StoreCapsule(capsules, a, ma, ta), b, mb, tb)
         == StoreCapsule(StoreCapsule(capsules, b, mb, tb), a, ma, ta)
  {
  }

  /** Store then query by the sender: locked placeholder before the unlock second, the text from it on. */
  lemma StoreThenQuery(capsules: Capsules, sender: Addr, message: string, unlock_time: u64,
                       env: Env, addrValid: string -> bool)
    requires addrValid(sender)
    ensures var now := env.blockTime.Seconds();
            QueryGetMessage(StoreCapsule(capsules, sender, message, unlock_time), env, sender, addrValid)
            == Ok(MessageResponse(if now >= unlock_time then message else LOCKED_MESSAGE,
                                  sender, unlock_time, now >= unlock_time))
  {
  }

  /**
   * The unit test's scenario: a capsule stored to unlock one day after the
   * current block is locked at that block and readable 100000 seconds later.
   */
  lemma StoreAndRetrieveScenario(capsules: Capsules, now: Timestamp, sender: Addr, message: string, addrValid: string -> bool)
    requires addrValid(sender)
    requires now.Seconds() + 86400 < U64_LIMIT
    requires now.nanos + 100000 * NANOS_PER_SECOND < U64_LIMIT
    ensures var stored := StoreCapsule(capsules, sender, message, now.Seconds() + 86400);
            var later := Timestamp(now.nanos + 100000 * NANOS_PER_SECOND);
            && QueryGetMessage(stored, Env(now), sender, addrValid)
               == Ok(MessageResponse(LOCKED_MESSAGE, sender, now.Seconds() + 86400, false))
            && QueryGetMessage(stored, Env(later), sender, addrValid)
               == Ok(MessageResponse(message, sender, now.Seconds() + 86400, true))
  {
    var later := Timestamp(now.nanos + 100000 * NANOS_PER_SECOND);
    assert later.Seconds() == now.Seconds() + 100000;
  }

  /**
   * The multi-contract test's scenario: a capsule that unlocks 100000
   * seconds ahead is locked at once and readable after the block moves
   * 150000 seconds on.
   */
  lemma IntegrationScenario(capsules: Capsules, now: Timestamp, sender: Addr, message: string, addrValid: string -> bool)
    requires addrValid(sender)
    requires now.Seconds() + 100000 < U64_LIMIT
    requires now.nanos + 150000 * NANOS_PER_SECOND < U64_LIMIT
    ensures var stored := StoreCapsule(capsules, sender, message, now.Seconds() + 100000);
            var later := Timestamp(now.nanos + 150000 * NANOS_PER_SECOND);
            && QueryGetMessage(stored, Env(now), sender, addrValid)
               == Ok(MessageResponse(LOCKED_MESSAGE, sender, now.Seconds() + 100000, false))
            && QueryGetMessage(stored, Env(later), sender, addrValid)
               == Ok(MessageResponse(message, sender, now.Seconds() + 100000, true))
  {
    var later := Timestamp(now.nanos + 150000 * NANOS_PER_SECOND);
    assert later.Seconds() == now.Seconds() + 150000;
  }

  /** The store keeps every capsule filed under its owner's address. */
  lemma StoreKeepsOwnersMatchKeys(capsules: Capsules, sender: Addr, message: string, unlock_time: u64)
    requires OwnersMatchKeys(capsules)
    ensures OwnersMatchKeys(StoreCapsule(capsules, sender, message, unlock_time))
  {
  }

  /** In well-formed storage, a successful query's capsule belongs to the queried owner. */
  lemma QueryAnswersOwnersCapsule(capsules: Capsules, env: Env, owner: string, addrValid: string -> bool)
    requires OwnersMatchKeys(capsules)
    requires QueryGetMessage(capsules, env, owner, addrValid).Ok?
    ensures capsules[owner].owner == owner
  {
  }
}
