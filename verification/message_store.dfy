/**
 * The capsule creation component of the web client: the date input handler
 * that turns the chosen instant into a decimal string of Unix seconds, and
 * `storeMessage`, which checks its inputs, builds the `store_message`
 * request, asks the wallet to sign and submit it, and clears the form only
 * on success.
 */
module MessageStore {
  import opened Wrappers
  import opened Json
  import opened JsNumber
  import opened CosmWasmStd

  const NO_WALLET_ALERT: string := "Please connect your wallet first"
  const NO_MESSAGE_ALERT: string := "Please enter a message"
  const NO_UNLOCK_TIME_ALERT: string := "Please set an unlock time"
  const STORED_ALERT: string := "Message stored successfully!"
  const FAILURE_PREFIX: string := "Failed to store message: "
  const LEAP_MISSING: string := "Leap wallet not available"
  const FEE_MODE: string := "auto"
  const MEMO: string := "Store time capsule message"

  /** How one wallet or chain call ends. */
  datatype Step = Succeeds | Throws(reason: string)

  /**
   * The answers of the wallet extension and the chain, in call order:
   * whether the extension is injected at all, then `enable`,
   * `getOfflineSigner`, connecting the signing client, and `execute`.
   */
  datatype WalletAnswers = WalletAnswers(leapInjected: bool, enable: Step, signer: Step, connect: Step, execute: Step)

  /** The arguments of the signing client's `execute`. */
  datatype ExecuteRequest = ExecuteRequest(sender: string, contract: string, msg: Json, fee: string, memo: string, funds: seq<Coin>)

  /** A call made to the wallet extension or the chain, as it is issued. */
  datatype WalletCall =
    | Enable(chainId: string)
    | GetOfflineSigner(chainId: string)
    | ConnectWithSigner(endpoint: string)
    | Execute(request: ExecuteRequest)

  /** The execute message: `{store_message: {message, unlock_time: parseInt(unlockTime)}}`. */
  function StorePayload(message: string, unlockTime: string): Json
  {
    JObject([("store_message", JObject([("message", JString(message)), ("unlock_time", ToJson(ParseInt(unlockTime)))]))])
  }

  /** Every call a submission would make if none of them threw. */
  function AllCalls(chainId: string, endpoint: string, request: ExecuteRequest): seq<WalletCall>
  {
    [Enable(chainId), GetOfflineSigner(chainId), ConnectWithSigner(endpoint), Execute(request)]
  }

  /** How many of those calls are issued: each is issued only if every earlier one succeeded. */
  function CallsIssued(wallet: WalletAnswers): (n: nat)
    ensures n <= 4
    ensures n == 4 <==> wallet.leapInjected && wallet.enable.Succeeds? && wallet.signer.Succeeds? && wallet.connect.Succeeds?
  {
    if !wallet.leapInjected then 0
    else if wallet.enable.Throws? then 1
    else if wallet.signer.Throws? then 2
    else if wallet.connect.Throws? then 3
    else 4
  }

  /** The first failure of a submission, or None when every call succeeds. */
  function FirstFailure(wallet: WalletAnswers): (r: Option<string>)
    ensures r.None? <==> wallet.leapInjected && wallet.enable.Succeeds? && wallet.signer.Succeeds?
                         && wallet.connect.Succeeds? && wallet.execute.Succeeds?
    ensures !wallet.leapInjected ==> r == Some(LEAP_MISSING)
  {
    if !wallet.leapInjected then Some(LEAP_MISSING)
    else if wallet.enable.Throws? then Some(wallet.enable.reason)
    else if wallet.signer.Throws? then Some(wallet.signer.reason)
    else if wallet.connect.Throws? then Some(wallet.connect.reason)
    else if wallet.execute.Throws? then Some(wallet.execute.reason)
    else None
  }

  /** An unlock-time field that is empty or holds a number `parseInt` can read. */
  predicate UnlockTimeWellFormed(unlockTime: string)
  {
    unlockTime == "" || ParseInt(unlockTime).Finite?
  }

  /**
   * The wallet and chain part of `storeMessage`, in source order: check
   * that the extension is injected, `enable`, `getOfflineSigner`, connect
   * the signing client, `execute`. It stops at the first call that throws
   * and returns the calls it issued and the failure, if any.
   */
  method Submit(request: ExecuteRequest, chainId: string, endpoint: string, wallet: WalletAnswers)
    returns (calls: seq<WalletCall>, failure: Option<string>)
    ensures calls == AllCalls(chainId, endpoint, request)[..CallsIssued(wallet)]
    ensures failure == FirstFailure(wallet)
  {
    var all := AllCalls(chainId, endpoint, request);
    calls := [];
    failure := None;
    if !wallet.leapInjected {
      failure := Some(LEAP_MISSING);
      return;
    }
    calls := calls + [Enable(chainId)];
    if wallet.enable.Throws? {
      failure := Some(wallet.enable.reason);
      assert calls == all[..1];
      return;
    }
    calls := calls + [GetOfflineSigner(chainId)];
    if wallet.signer.Throws? {
      failure := Some(wallet.signer.reason);
      assert calls == all[..2];
      return;
    }
    calls := calls + [ConnectWithSigner(endpoint)];
    if wallet.connect.Throws? {
      failure := Some(wallet.connect.reason);
      assert calls == all[..3];
      return;
    }
    calls := calls + [Execute(request)];
    assert calls == all[..4];
    if wallet.execute.Throws? {
      failure := Some(wallet.execute.reason);
    }
  }

  class StoreForm {
    var message: string
    var unlockTime: string
    /** The loading flag shared with the parent page. */
    var isLoading: bool

    /** The form as first mounted: both fields empty. */
    constructor (isLoading: bool)
      ensures message == "" && unlockTime == "" && this.isLoading == isLoading
      ensures UnlockTimeWellFormed(unlockTime)
    {
      message := "";
      unlockTime := "";
      this.isLoading := isLoading;
    }

    /** The text area's change handler. */
    method SetMessage(text: string)
      modifies this`message
      ensures message == text
    {
      message := text;
    }

    /**
     * `handleDateChange`: `time` is what `new Date(value).getTime()` gave
     * for the input's value (NaN for an empty or incomplete value). The
     * field becomes the decimal string of the whole seconds, which
     * `parseInt` reads back as that number; NaN becomes the string "NaN".
     */
    method HandleDateChange(time: Number)
      modifies this`unlockTime
      ensures unlockTime == ToString(FloorDiv(time, 1000))
      ensures time.Finite? ==> ParseInt(unlockTime) == FloorDiv(time, 1000)
      ensures time.NaN? ==> unlockTime == "NaN"
    {
      var timestamp := FloorDiv(time, 1000);
      unlockTime := ToString(timestamp);
      if timestamp.Finite? {
        ParseIntOfToString(timestamp.value);
      }
    }

    /**
     * The date handler with an invalid date mapped to an empty field, so
     * that `storeMessage`'s "set an unlock time" check catches it.
     */
    method HandleDateChangeChecked(time: Number)
      modifies this`unlockTime
      ensures time.NaN? ==> unlockTime == ""
      ensures time.Finite? ==> unlockTime == ToString(FloorDiv(time, 1000))
      ensures time.Finite? ==> ParseInt(unlockTime) == FloorDiv(time, 1000)
      ensures UnlockTimeWellFormed(unlockTime)
    {
      var timestamp := FloorDiv(time, 1000);
      if timestamp.NaN? {
        unlockTime := "";
      } else {
        unlockTime := ToString(timestamp);
        ParseIntOfToString(timestamp.value);
      }
    }

    /**
     * `storeMessage()`. The three input checks come first, in order, and
     * end the call with an alert and no other effect. Past them the loading
     * flag is raised, the wallet and chain calls are issued in order until
     * one throws, and the flag is lowered again. Only a submission in which
     * every call succeeded clears the form.
     */
    method StoreMessage(address: string, contractAddress: string, chainId: string, endpoint: string,
                        wallet: WalletAnswers)
      returns (calls: seq<WalletCall>, alert: string)
      modifies this
      ensures address == "" ==> calls == [] && alert == NO_WALLET_ALERT && unchanged(this)
      ensures address != "" && old(message) == "" ==> calls == [] && alert == NO_MESSAGE_ALERT && unchanged(this)
      ensures address != "" && old(message) != "" && old(unlockTime) == "" ==>
                calls == [] && alert == NO_UNLOCK_TIME_ALERT && unchanged(this)
      ensures address != "" && old(message) != "" && old(unlockTime) != "" ==>
                var request := ExecuteRequest(address, contractAddress, StorePayload(old(message), old(unlockTime)),
                                              FEE_MODE, MEMO, []);
                && !isLoading
                && calls == AllCalls(chainId, endpoint, request)[..CallsIssued(wallet)]
                && (alert == STORED_ALERT <==> FirstFailure(wallet).None?)
                && (FirstFailure(wallet).None? ==> alert == STORED_ALERT && message == "" && unlockTime == "")
                && (FirstFailure(wallet).Some? ==>
                      alert == FAILURE_PREFIX + FirstFailure(wallet).value
                      && message == old(message) && unlockTime == old(unlockTime))
    {
      if address == "" {
        return [], NO_WALLET_ALERT;
      }
      if message == "" {
        return [], NO_MESSAGE_ALERT;
      }
      if unlockTime == "" {
        return [], NO_UNLOCK_TIME_ALERT;
      }
      isLoading := true;
      var request := ExecuteRequest(address, contractAddress, StorePayload(message, unlockTime), FEE_MODE, MEMO, []);
      var failure;
      calls, failure := Submit(request, chainId, endpoint, wallet);
      if failure.None? {
        alert := STORED_ALERT;
        message := "";
        unlockTime := "";
      } else {
        alert := FAILURE_PREFIX + failure.value;
        AlertsDistinct(failure.value);
      }
      // finally
      isLoading := false;
    }
  }

  /** Success and failure alerts can never be confused. */
  lemma AlertsDistinct(reason: string)
    ensures FAILURE_PREFIX + reason != STORED_ALERT
  {
    assert (FAILURE_PREFIX + reason)[0] == 'F';
  }
}
