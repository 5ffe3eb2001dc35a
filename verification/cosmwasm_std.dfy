/**
 * The CosmWasm framework types the contract uses: the 64-bit unsigned
 * integer, addresses, block time, the message sender, coins, the response
 * with its attributes, and the two standard errors a query can end with.
 */
module CosmWasmStd {

  const U64_LIMIT: int := 0x1_0000_0000_0000_0000

  /** Rust's `u64`. */
  type u64 = x: int | 0 <= x < U64_LIMIT

  /** A validated bech32 address, compared and stored as its string. */
  type Addr = string

  const NANOS_PER_SECOND: int := 1_000_000_000

  /** A block timestamp, kept in nanoseconds since the Unix epoch. */
  datatype Timestamp = Timestamp(nanos: u64) {

    /** Whole seconds since the epoch, rounded down. */
    function Seconds(): (s: u64)
      ensures s * NANOS_PER_SECOND <= nanos < s * NANOS_PER_SECOND + NANOS_PER_SECOND
    {
      nanos / NANOS_PER_SECOND
    }
  }

  /** The part of the execution environment the contract reads: the block time. */
  datatype Env = Env(blockTime: Timestamp)

  /** An amount of one denomination (a `Uint128` amount). */
  datatype Coin = Coin(denom: string, amount: nat)

  /** Who sent the message and the funds attached to it. */
  datatype MessageInfo = MessageInfo(sender: Addr, funds: seq<Coin>)

  datatype Attribute = Attribute(key: string, value: string)

  /** A successful execution's response; no entry point of this contract emits sub-messages or events. */
  datatype Response = Response(attributes: seq<Attribute>)

  /** The standard errors a query can produce: a malformed address, or nothing stored under the key. */
  datatype StdError = InvalidAddress(input: string) | NotFound

  /** Later block times never have fewer whole seconds. */
  lemma SecondsMonotone(a: Timestamp, b: Timestamp)
    requires a.nanos <= b.nanos
    ensures a.Seconds() <= b.Seconds()
  {
    var x, y := a.Seconds(), b.Seconds();
    assert x * NANOS_PER_SECOND < (y + 1) * NANOS_PER_SECOND;
  }
}
