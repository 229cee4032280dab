# MEV-share client: sharing options and relay configuration

A Dafny model of the core of a client for submitting signed transactions
privately to a MEV-share relay. The model has two parts.

- `share.dfy` (module `Share`) models `src/share.rs`. This is the
  `ShareTransactionOptions` builder. It pairs an optional maximum block
  number (`U256`, modelled as a `nat` below 2^256) with `FlashbotsHints`,
  which holds four independent disclosure flags. Each builder method takes
  the options by shared reference and returns a new value, so here each one
  is a pure function on a datatype. The receiver is immutable and stays
  available and unchanged. Chains of builder calls are modelled as a
  sequence of `Step`s (`ApplyAll`). The chain lemmas state what any chain
  produces. The payload records (`InternalFlashbotsPayload` and its parts)
  are modelled as datatypes only.
- `middleware.dfy` (module `Middleware`) models `src/middleware.rs`.
  `MevShareMiddleware` is a class that holds the wrapped provider `inner`,
  a primary `relay` and a mutable `simulationRelay` slot. The slot starts
  empty, and `SetSimulationRelay` overwrites it. `inner` and `relay` are
  `const` fields, so only the constructor can write them, and no method or
  sequence of calls can change them. `SetSimulationRelay` may modify only
  the slot (`modifies this`simulationRelay`). The external relay client's
  constructor `Relay::new` is modelled as `MakeRelay(url, signer)`. Every
  contract about relays states only which arguments `MakeRelay` was called
  with. None of them depends on what `MakeRelay` builds.
- `wrappers.dfy` (module `Wrappers`) holds the `Option` datatype.

## Model

| member | source | states |
|---|---|---|
| `Share.U256LimitValue` | src/share.rs:6 | the bound of the `U256` type is exactly 2^256, the width of Rust's `U256` |
| `Share.ShareTransactionOptions.New` | src/share.rs:12-17 | the block bound and the hints are stored exactly as given |
| `Share.ShareTransactionOptions.WithMaxBlockNumber` | src/share.rs:19-24 | the result's block bound is `Some(n)`; its hints equal the receiver's; the result asks for at least what the receiver asked for (monotone) |
| `Share.ShareTransactionOptions.WithLogs` | src/share.rs:26-36 | the logs flag is set; the block bound and the three other flags are unchanged; no flag is cleared and no bound is dropped |
| `Share.ShareTransactionOptions.WithCalldata` | src/share.rs:38-48 | the calldata flag is set; the block bound and the three other flags are unchanged; monotone |
| `Share.ShareTransactionOptions.WithFunctionSelector` | src/share.rs:50-60 | the function-selector flag is set; the block bound and the three other flags are unchanged; monotone |
| `Share.ShareTransactionOptions.WithContractAddress` | src/share.rs:62-72 | the contract-address flag is set; the block bound and the three other flags are unchanged; monotone |
| `Share.WithCommutes` | src/share.rs:26-72 | any two flag setters chained in either order give structurally equal options |
| `Share.WithIdempotent` | src/share.rs:26-72 | applying a flag setter twice equals applying it once |
| `Share.WithMaxBlockNumberLastWins` | src/share.rs:19-24 | of two block bounds set in a row, the second wins; for equal bounds this is idempotence |
| `Share.WithMaxBlockNumberCommutes` | src/share.rs:19-72 | setting the block bound commutes with every flag setter |
| `Share.ApplyAll` | src/share.rs:19-72 | a whole chain of builder calls never clears a flag and never drops a block bound |
| `Share.ApplyAllFlag` | src/share.rs:26-72 | after a chain, a flag is set exactly when it was set before the chain or some call in the chain sets it (the flags are the OR of the chain) |
| `Share.ApplyAllBound` | src/share.rs:19-24 | after a chain, the block bound is the last one the chain sets, or the original one if the chain sets none |
| `Share.ApplyAllReorder` | src/share.rs:19-72 | two chains with the same calls in any order that end on the same block bound give equal options (chains of flag setters only always qualify) |
| `Share.LastBound` | src/share.rs:19-24 | a chain has a last block bound iff some call in it sets one, and that bound is one of the chain's arguments |
| `Middleware.MevShareMiddleware.constructor` | src/middleware.rs:16-22 | `inner` is stored; the primary relay is `MakeRelay(url, Some(signer))`, that is, it is always built with the signer; the simulation slot is empty |
| `Middleware.MevShareMiddleware.GetRelay` | src/middleware.rs:25-27 | returns the stored primary relay and changes nothing |
| `Middleware.MevShareMiddleware.GetSimulationRelay` | src/middleware.rs:31-33 | returns the stored simulation slot and changes nothing |
| `Middleware.MevShareMiddleware.SetSimulationRelay` | src/middleware.rs:39-41 | the slot becomes `Some(MakeRelay(url, None))`, that is, a relay built with no signer; only the slot may be written (`relay` and `inner` are `const`) |
| `Middleware.SetSimulationRelayTwice` | src/middleware.rs:39-41 | last write wins: after two settings the slot holds `MakeRelay(url2, None)`, a value built from the second URL alone |

## Left out

- `send_share_tx` (src/middleware.rs:43-45) has no behaviour to model, because its body is `todo!()`.
- The conversion from options to payload (the `fast` flag and the rule that turns `auction.enable` on) is not modelled, because no such function exists in `src/share.rs`. `InternalFlashbotsPayloadPreferences` and `FlashbotsAuctionPreferences` have private fields and no constructor. `InternalFlashbotsPayload` has public fields, but nothing in the file builds it. So all three appear only as datatypes.
- There is no default for the options or the hints in the model, because neither type derives or implements `Default` in `src/share.rs`.
- JSON serialization (`#[serde(flatten)]`, and leaving out `auction` rather than writing `null`) is not modelled. Library macros generate it.
- The relay client's internals are not modelled: HTTP and JSON-RPC transport, request signing and URL parsing. `MakeRelay` stands for `Relay::new`. Its body builds a record of the URL and the optional signer, but no contract relies on that body, so nothing is claimed about whether two relays built from different URLs can be told apart. URLs are strings.
- The wrapped provider `inner` is stored and never read or changed. Nothing else about it is modelled.
- Concurrent access to the simulation slot is not modelled. `set_simulation_relay` takes `&mut self`, so access to it is exclusive and the model is sequential.
- Rust's borrow semantics are not modelled, that is, getters that return references rather than copies. The getters here return the stored values.
