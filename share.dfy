/**
 * The transaction-sharing options of the MEV-share client (src/share.rs):
 * the four disclosure hints, the builder that sets them one at a time,
 * and the records of the payload sent to a relay.
 *
 * Every builder takes the options by shared reference and returns a new
 * value, so each is a pure function on a datatype here: the receiver is an
 * immutable value that is still available, unchanged, after the call.
 */
module Share {
  import opened Wrappers

  /** 2^256: one more than the largest `U256`. */
  const U256_LIMIT: int := 0x1_0000_0000_0000_0000_0000_0000_0000_0000_0000_0000_0000_0000_0000_0000_0000_0000

  /** Ethereum's unsigned 256-bit integer, as used for block numbers. */
  type U256 = n: nat | n < U256_LIMIT

  /** The bound is 2^256, written out in decimal. */
  lemma U256LimitValue()
    ensures U256_LIMIT == 115792089237316195423570985008687907853269984665640564039457584007913129639936
  {
  }

  /** A raw signed transaction. */
  type Bytes = seq<bv8>

  /** Names the four disclosure flags of `FlashbotsHints`. */
  datatype Hint = Logs | Calldata | FunctionSelector | ContractAddress

  /** What the sender allows the relay's auction to see; all four flags are independent. */
  datatype FlashbotsHints = FlashbotsHints(
    logs: bool,
    calldata: bool,
    functionSelector: bool,
    contractAddress: bool)
  {
    /** Whether the flag named `h` is set. */
    function Get(h: Hint): bool {
      match h
      case Logs => logs
      case Calldata => calldata
      case FunctionSelector => functionSelector
      case ContractAddress => contractAddress
    }

    /** Every flag set here is also set in `other`. */
    predicate DisclosesNoMoreThan(other: FlashbotsHints) {
      forall h: Hint :: Get(h) ==> other.Get(h)
    }
  }

  datatype ShareTransactionOptions = ShareTransactionOptions(
    maxBlockNumber: Option<U256>,
    preferences: FlashbotsHints)
  {
    /** `other` has the same block bound and the same flags, except perhaps flag `h`. */
    predicate SameExcept(other: ShareTransactionOptions, h: Hint) {
      other.maxBlockNumber == maxBlockNumber &&
      forall k: Hint :: k != h ==> other.preferences.Get(k) == preferences.Get(k)
    }

    /**
     * `other` asks for at least what this asks for: every flag set here is
     * set there, and a block bound present here is present there.
     */
    predicate Below(other: ShareTransactionOptions) {
      (maxBlockNumber.Some? ==> other.maxBlockNumber.Some?) &&
      preferences.DisclosesNoMoreThan(other.preferences)
    }

    /** Stores both arguments as given. */
    static function New(maxBlockNumber: Option<U256>, preferences: FlashbotsHints): (r: ShareTransactionOptions)
      ensures r.maxBlockNumber == maxBlockNumber
      ensures r.preferences == preferences
    {
      ShareTransactionOptions(maxBlockNumber, preferences)
    }

    /** Sets the block bound to `n` and keeps the hints. */
    function WithMaxBlockNumber(n: U256): (r: ShareTransactionOptions)
      ensures r.maxBlockNumber == Some(n)
      ensures r.preferences == preferences
      ensures Below(r)
    {
      ShareTransactionOptions(Some(n), preferences)
    }

    /** Discloses the logs; nothing else changes. */
    function WithLogs(): (r: ShareTransactionOptions)
      ensures r.preferences.Get(Logs)
      ensures SameExcept(r, Logs)
      ensures Below(r)
    {
      ShareTransactionOptions(
        maxBlockNumber,
        FlashbotsHints(true, preferences.calldata, preferences.functionSelector, preferences.contractAddress))
    }

    /** Discloses the calldata; nothing else changes. */
    function WithCalldata(): (r: ShareTransactionOptions)
      ensures r.preferences.Get(Calldata)
      ensures SameExcept(r, Calldata)
      ensures Below(r)
    {
      ShareTransactionOptions(
        maxBlockNumber,
        FlashbotsHints(preferences.logs, true, preferences.functionSelector, preferences.contractAddress))
    }

    /** Discloses the function selector; nothing else changes. */
    function WithFunctionSelector(): (r: ShareTransactionOptions)
      ensures r.preferences.Get(FunctionSelector)
      ensures SameExcept(r, FunctionSelector)
      ensures Below(r)
    {
      ShareTransactionOptions(
        maxBlockNumber,
        FlashbotsHints(preferences.logs, preferences.calldata, true, preferences.contractAddress))
    }

    /** Discloses the destination address; nothing else changes. */
    function WithContractAddress(): (r: ShareTransactionOptions)
      ensures r.preferences.Get(ContractAddress)
      ensures SameExcept(r, ContractAddress)
      ensures Below(r)
    {
      ShareTransactionOptions(
        maxBlockNumber,
        FlashbotsHints(preferences.logs, preferences.calldata, preferences.functionSelector, true))
    }

    /** The flag setter for `h`: one of the four above. */
    function With(h: Hint): (r: ShareTransactionOptions)
      ensures r.preferences.Get(h)
      ensures SameExcept(r, h)
    {
      match h
      case Logs => WithLogs()
      case Calldata => WithCalldata()
      case FunctionSelector => WithFunctionSelector()
      case ContractAddress => WithContractAddress()
    }
  }

  /** Two option values with the same block bound and the same flags are equal. */
  lemma SameFieldsEqual(a: ShareTransactionOptions, b: ShareTransactionOptions)
    requires a.maxBlockNumber == b.maxBlockNumber
    requires forall h: Hint :: a.preferences.Get(h) == b.preferences.Get(h)
    ensures a == b
  {
    assert a.preferences.Get(Logs) == b.preferences.Get(Logs);
    assert a.preferences.Get(Calldata) == b.preferences.Get(Calldata);
    assert a.preferences.Get(FunctionSelector) == b.preferences.Get(FunctionSelector);
    assert a.preferences.Get(ContractAddress) == b.preferences.Get(ContractAddress);
  }

  /** Any two flag setters commute: chaining them in either order gives equal options. */
  lemma WithCommutes(o: ShareTransactionOptions, h1: Hint, h2: Hint)
    ensures o.With(h1).With(h2) == o.With(h2).With(h1)
  {
  }

  /** Setting a flag twice is the same as setting it once. */
  lemma WithIdempotent(o: ShareTransactionOptions, h: Hint)
    ensures o.With(h).With(h) == o.With(h)
  {
  }

  /** The last block bound set wins; with `n1 == n2` this is idempotence. */
  lemma WithMaxBlockNumberLastWins(o: ShareTransactionOptions, n1: U256, n2: U256)
    ensures o.WithMaxBlockNumber(n1).WithMaxBlockNumber(n2) == o.WithMaxBlockNumber(n2)
  {
  }

  /** Setting the block bound commutes with every flag setter. */
  lemma WithMaxBlockNumberCommutes(o: ShareTransactionOptions, n: U256, h: Hint)
    ensures o.WithMaxBlockNumber(n).With(h) == o.With(h).WithMaxBlockNumber(n)
  {
  }

  /** One call of a builder method in a chain. */
  datatype Step = SetMaxBlockNumber(n: U256) | Enable(h: Hint)

  /** The options that one builder call returns. */
  function Apply(o: ShareTransactionOptions, s: Step): ShareTransactionOptions {
    match s
    case SetMaxBlockNumber(n) => o.WithMaxBlockNumber(n)
    case Enable(h) => o.With(h)
  }

  /** The options that a chain `o.step0().step1()...` returns; steps apply left to right. */
  function ApplyAll(o: ShareTransactionOptions, steps: seq<Step>): (r: ShareTransactionOptions)
    ensures o.Below(r)
    decreases |steps|
  {
    if steps == [] then o
    else Apply(ApplyAll(o, steps[..|steps| - 1]), steps[|steps| - 1])
  }

  /** The block bound of the last `SetMaxBlockNumber` in `steps`, if there is one. */
  function LastBound(steps: seq<Step>): (r: Option<U256>)
    ensures r.None? <==> forall i :: 0 <= i < |steps| ==> !steps[i].SetMaxBlockNumber?
    ensures r.Some? ==> SetMaxBlockNumber(r.value) in steps
    decreases |steps|
  {
    if steps == [] then None
    else match steps[|steps| - 1]
      case SetMaxBlockNumber(n) => Some(n)
      case Enable(_) =>
        var p := LastBound(steps[..|steps| - 1]);
        assert steps == steps[..|steps| - 1] + [steps[|steps| - 1]];
        p
  }

  /** A flag is set after a chain iff it was set before or some step of the chain sets it. */
  lemma {:induction false} ApplyAllFlag(o: ShareTransactionOptions, steps: seq<Step>, h: Hint)
    ensures ApplyAll(o, steps).preferences.Get(h) <==> o.preferences.Get(h) || Enable(h) in steps
    decreases |steps|
  {
    if steps != [] {
      var init, last := steps[..|steps| - 1], steps[|steps| - 1];
      ApplyAllFlag(o, init, h);
      assert steps == init + [last];
    }
  }

  /** After a chain the block bound is the last one the chain sets, or the original one if it sets none. */
  lemma {:induction false} ApplyAllBound(o: ShareTransactionOptions, steps: seq<Step>)
    ensures ApplyAll(o, steps).maxBlockNumber == if LastBound(steps).Some? then LastBound(steps) else o.maxBlockNumber
    decreases |steps|
  {
    if steps != [] {
      ApplyAllBound(o, steps[..|steps| - 1]);
    }
  }

  /**
   * Order does not matter: two chains made of the same calls, in any order,
   * that end with the same block bound give equal options. Chains of flag
   * setters alone always qualify.
   */
  lemma ApplyAllReorder(o: ShareTransactionOptions, s1: seq<Step>, s2: seq<Step>)
    requires multiset(s1) == multiset(s2)
    requires LastBound(s1) == LastBound(s2)
    ensures ApplyAll(o, s1) == ApplyAll(o, s2)
  {
    forall h: Hint ensures ApplyAll(o, s1).preferences.Get(h) == ApplyAll(o, s2).preferences.Get(h) {
      ApplyAllFlag(o, s1, h);
      ApplyAllFlag(o, s2, h);
      assert Enable(h) in s1 <==> Enable(h) in multiset(s1);
      assert Enable(h) in s2 <==> Enable(h) in multiset(s2);
    }
    ApplyAllBound(o, s1);
    ApplyAllBound(o, s2);
    SameFieldsEqual(ApplyAll(o, s1), ApplyAll(o, s2));
  }

  /** The auction part of a relay payload: whether the auction is on and which hints it sees. */
  datatype FlashbotsAuctionPreferences = FlashbotsAuctionPreferences(
    enable: bool,
    hint: Option<FlashbotsHints>)

  /** The preferences part of a relay payload. */
  datatype InternalFlashbotsPayloadPreferences = InternalFlashbotsPayloadPreferences(
    fast: bool,
    auction: Option<FlashbotsAuctionPreferences>)

  /** The payload submitted to a relay for one signed transaction. */
  datatype InternalFlashbotsPayload = InternalFlashbotsPayload(
    signedTx: Bytes,
    maxBlockNumber: Option<U256>,
    preferences: InternalFlashbotsPayloadPreferences)
}
