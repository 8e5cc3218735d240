# Ticket manager contract, modelled in Dafny

This project models the on-chain part of the live-ticket application: the `TicketManager`
Soroban contract. The contract sells tickets for one event. An organiser's `init` stores the
event configuration once and seeds three counters: tickets left, next ticket id and current
price. `buy_ticket` checks that the contract is initialised, that the sale is still open and that
stock remains. It then sells the next ticket id to the buyer at the current price and records the
ticket's owner and data. It decrements the stock and raises the price by 2%, rounded down and
capped at twice the base price. The getters read the counters and the owner map back, and a
counter that was never written reads as 0.

Files:

- `contract.dfy` (module `Contract`) has the data model (`Config`, `Ticket`, the instance
  `Storage`, and the `Error`s that stand for the contract's panics). It also has the read
  helpers and getters as functions over the storage, and the price rule. `InitStep` and
  `BuyStep` give the effect of one invocation on the storage. The class `TicketManager` holds the
  instance storage in mutable fields. Its methods `Init` and `BuyTicket` perform the contract's
  writes step by step, and each is proved equal to its step function.
- `properties.dfy` (module `ContractProperties`) has the storage invariant `Consistent`, which
  covers these facts:
  - sold plus left is the ticket count;
  - the ids sold are exactly `0 .. LastTicketId - 1`;
  - each stored ticket matches its owner entry;
  - the price lies within `[base, 2 * base]`;
  - ticket prices never decrease with the id.

  The module proves that every invocation, and every sequence of invocations from a freshly
  deployed contract, keeps this invariant.

Modelling choices:

- Every `panic!` is an `Err` result. The host rolls back a panicking invocation, so after an
  `Err` the storage is exactly what it was before the call. `BuyTicket` makes its first writes
  before it computes the new price. So when that computation overflows, the method restores the
  saved storage, which is the host's rollback.
- `u32` and `u64` are subset types of `int`. An arithmetic overflow aborts the invocation, as
  Rust's checked arithmetic does. The overflows can happen at `last_ticket_id + 1`,
  `price * 102` and `base_price * 2`, and each one is an `Overflow` error.
- `buyer.require_auth()` is the boolean parameter `authorized`. The ledger timestamp is the
  parameter `now`.
- The keys of `DataKey` are fields of the storage. The counters are `Option`s, because an absent
  key reads as 0. `TicketOwner(id)` and `TicketData(id)` are maps from ticket id.
- `init` asks for no authorisation in the contract, and the model does not add any.
- The doc comment on `get_ticket_left` speaks of tickets sold so far. The code returns tickets
  left, and the model follows the code.

## Model

| member | source | states |
|---|---|---|
| `Contract.EmptyStorage` | live-ticket-app/contracts/ticket-manager/src/lib.rs:172-185 | Before `init`, the remaining-ticket and price getters and the next ticket id read 0, `read_config` fails with "not initialized", and every owner lookup fails. |
| `Contract.ReadConfig` | live-ticket-app/contracts/ticket-manager/src/lib.rs:163-168 | Succeeds exactly when a configuration is stored and returns it. Otherwise it fails with `NotInitialized`. |
| `Contract.ReadTicketLeft` | live-ticket-app/contracts/ticket-manager/src/lib.rs:172-175 | Returns the stored TicketLeft counter, or 0 when the key is absent. |
| `Contract.ReadLastTicketId` | live-ticket-app/contracts/ticket-manager/src/lib.rs:177-180 | Returns the stored LastTicketId (the id the next sale receives), or 0 when the key is absent. |
| `Contract.ReadCurrentPrice` | live-ticket-app/contracts/ticket-manager/src/lib.rs:182-185 | Returns the stored CurrentPrice, or 0 when the key is absent. |
| `Contract.GetTicketLeft` | live-ticket-app/contracts/ticket-manager/src/lib.rs:145-147 | Returns the stored TicketLeft counter, or 0 when it was never set. |
| `Contract.GetLastCurrentPrice` | live-ticket-app/contracts/ticket-manager/src/lib.rs:150-152 | Returns the stored CurrentPrice, or 0 when it was never set. |
| `Contract.GetTicketOwner` | live-ticket-app/contracts/ticket-manager/src/lib.rs:155-160 | Succeeds exactly for ids with an owner entry and returns that owner. Otherwise it fails with `TicketNotFound`. |
| `Contract.NextPrice` | live-ticket-app/contracts/ticket-manager/src/lib.rs:126-133 | Fails with `Overflow` exactly when `price * 102` or `base_price * 2` exceeds u32. Otherwise the new price is exactly `min(price * 102 / 100, 2 * base_price)`: it is at most 102% of the old price and at most twice the base price, and below the cap it is 102% of the old price rounded down. It is never below an old price that was within the cap. |
| `Contract.InitStep` | live-ticket-app/contracts/ticket-manager/src/lib.rs:46-79 | Succeeds exactly when no Config is stored. A second `init` fails with `AlreadyInitialized` and leaves the storage unchanged. On success the stored Config equals the arguments, TicketLeft is the ticket count, LastTicketId is 0 and CurrentPrice is the base price. |
| `Contract.BuyFailure` | live-ticket-app/contracts/ticket-manager/src/lib.rs:83-128 | The guard chain of `buy_ticket`. It reports no failure exactly when the call is authorised, the contract is initialised, `now <= sale_end`, tickets remain, `last_ticket_id + 1`, `price * 102` and `base_price * 2` all fit in u32. Otherwise it names the first failing check in the contract's order: `Unauthorized`, `NotInitialized`, `SaleEnded`, `NoTicketsLeft`. When all four of those pass, any failure is one of the three overflows and is reported as `Overflow`. |
| `Contract.BuyStep` | live-ticket-app/contracts/ticket-manager/src/lib.rs:81-142 | The call fails, in the contract's order, if it is unauthorised, uninitialised, past `sale_end` (a purchase exactly at `sale_end` is allowed), out of stock or overflowing. A failed call leaves the storage unchanged. On success it returns the ticket with id LastTicketId, the buyer as owner, `now` as time, the pre-call price and the event name. LastTicketId goes up by 1 and TicketLeft down by 1. The price follows `NextPrice`. The owner and data of the new id are the buyer and the ticket, and the Config and the other entries are unchanged. |
| `Contract.TicketManager.Init` | live-ticket-app/contracts/ticket-manager/src/lib.rs:54-78 | The writes of `init`, one field at a time; the result and the new storage are those of `InitStep` on the old storage. |
| `Contract.TicketManager.BuyTicket` | live-ticket-app/contracts/ticket-manager/src/lib.rs:83-141 | The checks and writes of `buy_ticket` in the contract's order, with the local `ticket_left` and `new_price` updated in place. A late overflow rolls the storage back. The result and the new storage are those of `BuyStep` on the old storage. |
| `ContractProperties.NextPriceRisesIff` | live-ticket-app/contracts/ticket-manager/src/lib.rs:126-133 | From a price within `[base, 2 * base]`, the next price stays within that range and is never lower. It is strictly higher exactly when the price is at least 50 and below the cap. Below 50, the 2% raise rounds down to nothing. |
| `ContractProperties.HighBasePriceBlocksSales` | live-ticket-app/contracts/ticket-manager/src/lib.rs:126 | When `base_price * 102` exceeds u32, every purchase fails, so no ticket of that event can ever be sold. |
| `ContractProperties.SalesStallAbovePriceLimit` | live-ticket-app/contracts/ticket-manager/src/lib.rs:126 | Once the current price exceeds 42,107,522 (U32_MAX / 102), no sequence of later calls changes the storage. Every purchase overflows at `price * 102` and `init` is refused, so the remaining tickets can never be sold. This holds of every storage with a configuration. A base price of 30,000,000 has its cap of 60,000,000 above the limit: 18 sales go through, the price is then 42,847,378, and for a ticket count above 18 the remaining tickets stay unsold. |
| `ContractProperties.InitPreservesConsistent` | live-ticket-app/contracts/ticket-manager/src/lib.rs:57-77 | `init` keeps the storage invariant. A successful `init` starts from the empty storage with no tickets. |
| `ContractProperties.BuyPreservesConsistent` | live-ticket-app/contracts/ticket-manager/src/lib.rs:107-135 | A purchase keeps the storage invariant. The id it issues was never used, and every earlier ticket keeps its owner and data. |
| `ContractProperties.SoldPlusLeft` | live-ticket-app/contracts/ticket-manager/src/lib.rs:75-76 | In a consistent initialised storage, the number of stored tickets plus TicketLeft equals the configured ticket count, and there is one owner entry per ticket. |
| `ContractProperties.OwnerKnownIffSold` | live-ticket-app/contracts/ticket-manager/src/lib.rs:154-160 | In a consistent storage, `get_ticket_owner(id)` succeeds exactly for `id < LastTicketId` and returns the owner recorded in the ticket's data. Any id never sold fails with `TicketNotFound`. |
| `ContractProperties.RunPreservesConsistent` | live-ticket-app/contracts/ticket-manager/src/lib.rs:46-142 | Over any sequence of `init` and `buy_ticket` calls, the invariant holds. After `init`, the Config never changes, no sold ticket is overwritten, and CurrentPrice and LastTicketId never decrease. |
| `ContractProperties.Reachable` | live-ticket-app/contracts/ticket-manager/src/lib.rs:44-142 | Every storage reachable from a freshly deployed contract is consistent, and once initialised, tickets sold plus tickets left equals the ticket count. |

## Left out

- The React front end (the InitEvent and BuyTicket components, the Home page and the duplicate
  top-level InitEvent) is UI glue around a generated client binding. This covers its client-side
  future-date check, its field conversions, and the wallet connection and signing.
- The payment step: the contract only logs the price it would charge, and nothing is transferred.
- `log!` output, the instance storage's time-to-live, and the cryptography behind `require_auth`,
  which is only the boolean `authorized` here.
- Wrapping arithmetic: if the contract were built without overflow checks, the two
  multiplications (`price * 102`, `base_price * 2`) and the increment `last_ticket_id + 1` would
  wrap modulo 2^32 rather than abort. The decrement of the ticket count cannot wrap, because it is
  guarded by the out-of-stock check. This model covers only the aborting behaviour.
- The contract's `test` module is not part of this model.
- The getters do not change the storage because they are functions of it. The model has no
  separate statement of that.
