/**
 * The capsule retrieval component of the web client: the countdown text
 * (`calculateTimeRemaining`, with the clock passed in), the reader's view of
 * a capsule fetched from the chain (`getMessage`), the one-second countdown
 * tick, and the rule for what is rendered.
 */
module MessageRetriever {
  import opened Wrappers
  import opened Json
  import opened JsNumber
  import Msg

  const UNLOCKED_NOW: string := "Unlocked now"
  const LOCKED_NOTICE: string := "This message is locked until the specified time."

  const SECONDS_PER_DAY: nat := 86400
  const SECONDS_PER_HOUR: nat := 3600
  const SECONDS_PER_MINUTE: nat := 60

  // The countdown

  /** A duration split into days, hours, minutes and seconds. */
  datatype Breakdown = Breakdown(days: nat, hours: nat, minutes: nat, seconds: nat)

  function TotalSeconds(b: Breakdown): nat
  {
    b.days * SECONDS_PER_DAY + b.hours * SECONDS_PER_HOUR + b.minutes * SECONDS_PER_MINUTE + b.seconds
  }

  /** Hours below a day, minutes and seconds below sixty. */
  predicate Normalized(b: Breakdown)
  {
    b.hours < 24 && b.minutes < 60 && b.seconds < 60
  }

  /** The split `calculateTimeRemaining` makes with `Math.floor` and `%` (all operands positive). */
  function Split(remaining: nat): (b: Breakdown)
    ensures TotalSeconds(b) == remaining && Normalized(b)
  {
    var b := Breakdown(remaining / SECONDS_PER_DAY, (remaining % SECONDS_PER_DAY) / SECONDS_PER_HOUR,
                       (remaining % SECONDS_PER_HOUR) / SECONDS_PER_MINUTE, remaining % SECONDS_PER_MINUTE);
    assert remaining % SECONDS_PER_DAY == b.hours * SECONDS_PER_HOUR + remaining % SECONDS_PER_HOUR;
    assert remaining % SECONDS_PER_HOUR == b.minutes * SECONDS_PER_MINUTE + b.seconds;
    b
  }

  /** Whole days and the rest are the only split of a duration with the rest under a day. */
  lemma DaysUnique(r: nat, q: nat, k: nat)
    requires k < SECONDS_PER_DAY && r == q * SECONDS_PER_DAY + k
    ensures r / SECONDS_PER_DAY == q && r % SECONDS_PER_DAY == k
  {
  }

  /** The same for whole hours. */
  lemma HoursUnique(r: nat, q: nat, k: nat)
    requires k < SECONDS_PER_HOUR && r == q * SECONDS_PER_HOUR + k
    ensures r / SECONDS_PER_HOUR == q && r % SECONDS_PER_HOUR == k
  {
  }

  /** The same for whole minutes. */
  lemma MinutesUnique(r: nat, q: nat, k: nat)
    requires k < SECONDS_PER_MINUTE && r == q * SECONDS_PER_MINUTE + k
    ensures r / SECONDS_PER_MINUTE == q && r % SECONDS_PER_MINUTE == k
  {
  }

  /** The split is the only normalized breakdown of a duration. */
  lemma SplitUnique(b: Breakdown)
    requires Normalized(b)
    ensures Split(TotalSeconds(b)) == b
  {
    var r := TotalSeconds(b);
    var least := b.minutes * SECONDS_PER_MINUTE + b.seconds;
    var lower := b.hours * SECONDS_PER_HOUR + least;
    DaysUnique(r, b.days, lower);
    HoursUnique(lower, b.hours, least);
    HoursUnique(r, b.days * 24 + b.hours, least);
    MinutesUnique(least, b.minutes, b.seconds);
    MinutesUnique(r, (b.days * 24 + b.hours) * 60 + b.minutes, b.seconds);
  }

  /** One `<number><unit>` piece of the countdown, as a template literal writes it. */
  function Piece(n: nat, unit: char): string
  {
    NatToString(n) + [unit]
  }

  /** `piece` followed by a space and the rest of the text. */
  function Then(piece: string, rest: string): string
  {
    piece + " " + rest
  }

  /** The countdown text: every unit from the largest non-zero one down to seconds. */
  function Format(b: Breakdown): string
  {
    if b.days > 0 then
      Then(Piece(b.days, 'd'), Then(Piece(b.hours, 'h'), Then(Piece(b.minutes, 'm'), Piece(b.seconds, 's'))))
    else if b.hours > 0 then
      Then(Piece(b.hours, 'h'), Then(Piece(b.minutes, 'm'), Piece(b.seconds, 's')))
    else if b.minutes > 0 then
      Then(Piece(b.minutes, 'm'), Piece(b.seconds, 's'))
    else
      Piece(b.seconds, 's')
  }

  /**
   * `calculateTimeRemaining()` at wall-clock time `nowMs` (milliseconds):
   * null while no unlock time is known, "Unlocked now" once the unlock
   * second is reached, otherwise the countdown text.
   */
  function CalculateTimeRemaining(unlockTimestamp: int, nowMs: int): (r: Option<string>)
    ensures r.None? <==> unlockTimestamp == 0
    ensures r.Some? ==> (r.value == UNLOCKED_NOW <==> unlockTimestamp - nowMs / 1000 <= 0)
    ensures unlockTimestamp != 0 && unlockTimestamp - nowMs / 1000 > 0 ==>
              r == Some(Format(Split(unlockTimestamp - nowMs / 1000)))
  {
    if unlockTimestamp == 0 then None
    else
      var now := nowMs / 1000;
      var remaining := unlockTimestamp - now;
      if remaining <= 0 then Some(UNLOCKED_NOW)
      else
        var text := Format(Split(remaining));
        assert text[|text| - 1] == 's';
        Some(text)
  }

  // Reading a countdown back

  /** A countdown piece read back: a number and its unit letter. */
  datatype Token = Token(value: nat, unit: char)

  predicate IsUnit(c: char)
  {
    c == 'd' || c == 'h' || c == 'm' || c == 's'
  }

  function UnitSeconds(c: char): nat
  {
    match c
    case 'd' => SECONDS_PER_DAY
    case 'h' => SECONDS_PER_HOUR
    case 'm' => SECONDS_PER_MINUTE
    case _ => 1
  }

  /** Splits a string of `<digits><unit>` pieces separated by single spaces. */
  function ReadTokens(s: string): Option<seq<Token>>
    decreases |s|
  {
    var digits := DigitPrefix(s);
    if digits == [] || |digits| == |s| || !IsUnit(s[|digits|]) then None
    else
      var token := Token(DigitsValue(digits), s[|digits|]);
      var rest := s[|digits| + 1..];
      if rest == [] then Some([token])
      else if rest[0] != ' ' then None
      else
        var more := ReadTokens(rest[1..]);
        if more.None? then None else Some([token] + more.value)
  }

  function TokensSeconds(ts: seq<Token>): nat
  {
    if ts == [] then 0 else ts[0].value * UnitSeconds(ts[0].unit) + TokensSeconds(ts[1..])
  }

  function Units(ts: seq<Token>): string
  {
    if ts == [] then [] else [ts[0].unit] + Units(ts[1..])
  }

  lemma ReadLastPiece(n: nat, unit: char)
    requires IsUnit(unit)
    ensures ReadTokens(Piece(n, unit)) == Some([Token(n, unit)])
  {
    var s := Piece(n, unit);
    DigitPrefixOfDigits(NatToString(n), [unit]);
    DigitsValueOfNatToString(n);
    assert s[|NatToString(n)| + 1..] == [];
  }

  lemma ReadPieceThen(n: nat, unit: char, rest: string)
    requires IsUnit(unit)
    ensures ReadTokens(Then(Piece(n, unit), rest))
         == if ReadTokens(rest).None? then None else Some([Token(n, unit)] + ReadTokens(rest).value)
  {
    var digits := NatToString(n);
    var s := Then(Piece(n, unit), rest);
    assert s == digits + ([unit] + " " + rest);
    DigitPrefixOfDigits(digits, [unit] + " " + rest);
    DigitsValueOfNatToString(n);
    assert s[|digits|] == unit;
    assert s[|digits| + 1..] == " " + rest;
    assert (" " + rest)[1..] == rest;
  }

  /** The pieces read back from a countdown that starts at the given unit. */
  function CountdownTokens(b: Breakdown, first: char): seq<Token>
  {
    var tS := [Token(b.seconds, 's')];
    var tM := [Token(b.minutes, 'm')] + tS;
    var tH := [Token(b.hours, 'h')] + tM;
    match first
    case 'd' => [Token(b.days, 'd')] + tH
    case 'h' => tH
    case 'm' => tM
    case _ => tS
  }

  /** The unit letter the countdown text starts with. */
  function LeadingUnit(b: Breakdown): char
  {
    if b.days > 0 then 'd' else if b.hours > 0 then 'h' else if b.minutes > 0 then 'm' else 's'
  }

  lemma ReadFormat(b: Breakdown)
    ensures ReadTokens(Format(b)) == Some(CountdownTokens(b, LeadingUnit(b)))
  {
    var S := Piece(b.seconds, 's');
    var M := Then(Piece(b.minutes, 'm'), S);
    var H := Then(Piece(b.hours, 'h'), M);
    ReadLastPiece(b.seconds, 's');
    if b.days > 0 || b.hours > 0 || b.minutes > 0 {
      ReadPieceThen(b.minutes, 'm', S);
      assert ReadTokens(M) == Some(CountdownTokens(b, 'm'));
      if b.days > 0 || b.hours > 0 {
        ReadPieceThen(b.hours, 'h', M);
        assert ReadTokens(H) == Some(CountdownTokens(b, 'h'));
        if b.days > 0 {
          ReadPieceThen(b.days, 'd', H);
          assert Format(b) == Then(Piece(b.days, 'd'), H);
        } else {
          assert Format(b) == H;
        }
      } else {
        assert Format(b) == M;
      }
    } else {
      assert Format(b) == S;
    }
  }

  /** The seconds counted by the units from `first` down to seconds. */
  function SecondsFrom(b: Breakdown, first: char): nat
  {
    match first
    case 'd' => TotalSeconds(b)
    case 'h' => b.hours * SECONDS_PER_HOUR + b.minutes * SECONDS_PER_MINUTE + b.seconds
    case 'm' => b.minutes * SECONDS_PER_MINUTE + b.seconds
    case _ => b.seconds
  }

  /** The unit letters from `first` down to seconds. */
  function UnitsFrom(first: char): string
  {
    match first
    case 'd' => "dhms"
    case 'h' => "hms"
    case 'm' => "ms"
    case _ => "s"
  }

  lemma {:induction false} CountdownTokensMeaning(b: Breakdown, first: char)
    requires IsUnit(first)
    ensures TokensSeconds(CountdownTokens(b, first)) == SecondsFrom(b, first)
    ensures Units(CountdownTokens(b, first)) == UnitsFrom(first)
    decreases |UnitsFrom(first)|
  {
    var ts := CountdownTokens(b, first);
    match first
    case 's' =>
      assert ts[1..] == [];
    case 'm' =>
      assert ts[1..] == CountdownTokens(b, 's');
      CountdownTokensMeaning(b, 's');
    case 'h' =>
      assert ts[1..] == CountdownTokens(b, 'm');
      CountdownTokensMeaning(b, 'm');
    case 'd' =>
      assert ts[1..] == CountdownTokens(b, 'h');
      CountdownTokensMeaning(b, 'h');
  }

  /**
   * Reading the countdown text back recovers the unit letters, from the
   * largest non-zero unit down to seconds, and exactly the duration.
   */
  lemma FormatReadsBack(b: Breakdown)
    ensures ReadTokens(Format(b)).Some?
    ensures var ts := ReadTokens(Format(b)).value;
            && TokensSeconds(ts) == TotalSeconds(b)
            && Units(ts) == (if b.days > 0 then "dhms" else if b.hours > 0 then "hms" else if b.minutes > 0 then "ms" else "s")
  {
    ReadFormat(b);
    CountdownTokensMeaning(b, LeadingUnit(b));
  }

  /** A countdown for a positive duration never starts with a zero piece. */
  lemma FormatLeadsWithNonZero(b: Breakdown)
    requires TotalSeconds(b) > 0
    ensures Format(b)[0] != '0'
  {
    var lead := if b.days > 0 then b.days else if b.hours > 0 then b.hours else if b.minutes > 0 then b.minutes else b.seconds;
    NatToStringLeadingDigit(lead);
    assert Format(b)[0] == NatToString(lead)[0];
  }

  /**
   * For a positive remaining time the countdown text reads back as exactly
   * that many seconds, and its leading piece is not zero: it starts at the
   * largest non-zero unit.
   */
  lemma CountdownMeaning(unlockTimestamp: int, nowMs: int)
    requires unlockTimestamp != 0 && unlockTimestamp - nowMs / 1000 > 0
    ensures var r := CalculateTimeRemaining(unlockTimestamp, nowMs);
            var remaining := unlockTimestamp - nowMs / 1000;
            && r.Some? && r.value != UNLOCKED_NOW
            && ReadTokens(r.value).Some?
            && TokensSeconds(ReadTokens(r.value).value) == remaining
            && r.value[0] != '0'
  {
    var remaining := unlockTimestamp - nowMs / 1000;
    var b := Split(remaining);
    FormatReadsBack(b);
    FormatLeadsWithNonZero(b);
  }

  // The component's state

  const WALLET_NOT_CONNECTED: string := "Wallet not connected"
  const MESSAGE_RETRIEVED: string := "Message retrieved"
  const RETRIEVE_FAILED: string := "Failed to retrieve message"
  const UNLOCKED_DESCRIPTION: string := "Your time capsule has been unlocked!"
  const LOCKED_DESCRIPTION: string := "Your time capsule is still locked"

  /**
   * What the chain query came back with: it threw (network or contract
   * error), it returned a falsy value, or it returned a response.
   */
  datatype QueryAnswer = QueryThrew | ReturnedFalsy | Returned(response: Msg.MessageResponse)

  /** The notification shown when `getMessage` ends. */
  datatype Toast = ToastError(title: string) | ToastSuccess(title: string, description: string)

  /** The query the client sends: `{get_message: {owner: address}}`. */
  function GetMessageRequest(address: string): Json
  {
    JObject([("get_message", JObject([("owner", JString(address))]))])
  }

  datatype Status = NoCapsule | Locked | Unlocked

  /** What the expandable message area shows. */
  datatype Body = Collapsed | LockedNotice | MessageText(text: string)

  /** The parts of the rendered component that depend on its state. */
  datatype View = View(status: Status, canRetrieve: bool, badge: Option<string>, body: Body)

  class Retriever {
    var storedMessage: string
    var isUnlocked: bool
    var unlockTimestamp: int
    var hasMessage: bool
    var isRetrieving: bool
    var timeRemaining: Option<string>
    var expanded: bool
    /** The loading flag shared with the parent page. */
    var isLoading: bool

    /** The component as first mounted. */
    constructor (isLoading: bool)
      ensures storedMessage == "" && !isUnlocked && unlockTimestamp == 0 && !hasMessage
      ensures !isRetrieving && timeRemaining == None && !expanded && this.isLoading == isLoading
    {
      storedMessage := "";
      isUnlocked := false;
      unlockTimestamp := 0;
      hasMessage := false;
      isRetrieving := false;
      timeRemaining := None;
      expanded := false;
      this.isLoading := isLoading;
    }

    /**
     * `getMessage()`. Without an address no query is built and nothing
     * changes. Otherwise `request` is the query the client builds (when the
     * connection itself fails it is never sent); a response replaces the
     * capsule fields and marks the capsule present; a throw or a falsy
     * result marks it absent and keeps the old fields. Either way both
     * loading flags end false.
     */
    method GetMessage(address: string, answer: QueryAnswer) returns (request: Option<Json>, toast: Toast)
      modifies this
      ensures address == "" ==> request == None && toast == ToastError(WALLET_NOT_CONNECTED) && unchanged(this)
      ensures address != "" ==> request == Some(GetMessageRequest(address))
      ensures address != "" ==> !isLoading && !isRetrieving && timeRemaining == old(timeRemaining)
      ensures address != "" && answer.Returned? ==>
                && storedMessage == answer.response.message
                && isUnlocked == answer.response.is_unlocked
                && unlockTimestamp == answer.response.unlock_time
                && hasMessage && expanded
                && toast == ToastSuccess(MESSAGE_RETRIEVED,
                                         if answer.response.is_unlocked then UNLOCKED_DESCRIPTION else LOCKED_DESCRIPTION)
      ensures address != "" && !answer.Returned? ==>
                && storedMessage == old(storedMessage) && isUnlocked == old(isUnlocked)
                && unlockTimestamp == old(unlockTimestamp) && expanded == old(expanded)
                && !hasMessage && toast == ToastError(RETRIEVE_FAILED)
    {
      if address == "" {
        return None, ToastError(WALLET_NOT_CONNECTED);
      }
      isRetrieving := true;
      isLoading := true;
      request := Some(GetMessageRequest(address));
      if answer.Returned? {
        var result := answer.response;
        storedMessage := result.message;
        isUnlocked := result.is_unlocked;
        unlockTimestamp := result.unlock_time;
        hasMessage := true;
        expanded := true;
        toast := ToastSuccess(MESSAGE_RETRIEVED, if result.is_unlocked then UNLOCKED_DESCRIPTION else LOCKED_DESCRIPTION);
      } else {
        toast := ToastError(RETRIEVE_FAILED);
        hasMessage := false;
      }
      // finally
      isLoading := false;
      isRetrieving := false;
    }

    /** The one-second interval exists only while an unlock time is known and the capsule is locked. */
    predicate CountdownRunning()
      reads this
    {
      unlockTimestamp != 0 && !isUnlocked
    }

    /**
     * One tick of the interval at wall-clock time `nowMs`: it recomputes the
     * countdown and nothing else. It never marks the capsule unlocked; only
     * a fresh query can.
     */
    method Tick(nowMs: int)
      modifies this`timeRemaining
      ensures timeRemaining == if old(CountdownRunning()) then CalculateTimeRemaining(unlockTimestamp, nowMs) else old(timeRemaining)
      ensures isUnlocked == old(isUnlocked) && storedMessage == old(storedMessage) && hasMessage == old(hasMessage)
    {
      if CountdownRunning() {
        timeRemaining := CalculateTimeRemaining(unlockTimestamp, nowMs);
      }
    }

    /** The effect that runs when `unlockTimestamp` changes: show the countdown at once. */
    method UnlockTimestampChanged(nowMs: int)
      modifies this`timeRemaining
      ensures unlockTimestamp != 0 ==> timeRemaining == CalculateTimeRemaining(unlockTimestamp, nowMs)
      ensures unlockTimestamp != 0 ==> timeRemaining.Some?
      ensures unlockTimestamp == 0 ==> timeRemaining == old(timeRemaining)
    {
      if unlockTimestamp != 0 {
        timeRemaining := CalculateTimeRemaining(unlockTimestamp, nowMs);
      }
    }

    /** Clicking the header flips the expanded state. */
    method ToggleExpanded()
      modifies this`expanded
      ensures expanded == !old(expanded)
    {
      expanded := !expanded;
    }

    /**
     * The rendering rule. The stored text appears only when the capsule is
     * present, expanded and unlocked; the countdown badge only while it is
     * locked. The retrieve button is disabled while loading, without an
     * address or while retrieving; once a capsule is shown, the refresh
     * button only while retrieving.
     */
    function Render(address: string): (v: View)
      reads this
      ensures v.body.MessageText? <==> hasMessage && expanded && isUnlocked
      ensures v.body.MessageText? ==> v.body.text == storedMessage
      ensures v.body.LockedNotice? <==> hasMessage && expanded && !isUnlocked
      ensures v.badge.Some? <==> hasMessage && !isUnlocked && timeRemaining.Some? && timeRemaining.value != ""
      ensures v.badge.Some? ==> v.badge == timeRemaining
      ensures v.status == NoCapsule <==> !hasMessage
      ensures v.status == Unlocked <==> hasMessage && isUnlocked
      ensures !hasMessage ==> (v.canRetrieve <==> !isLoading && address != "" && !isRetrieving)
      ensures hasMessage ==> (v.canRetrieve <==> !isRetrieving)
    {
      if !hasMessage then
        View(NoCapsule, !(isLoading || address == "" || isRetrieving), None, Collapsed)
      else
        var badge := if !isUnlocked && timeRemaining.Some? && timeRemaining.value != "" then timeRemaining else None;
        var body := if !expanded then Collapsed else if isUnlocked then MessageText(storedMessage) else LockedNotice;
        View(if isUnlocked then Unlocked else Locked, !isRetrieving, badge, body)
    }
  }
}
