/** The ticket-manager smart contract: one event, a fixed stock of tickets, a price that rises by
    2% per sale up to twice the base price. The contract's instance storage is a key/value store
    with the keys Config, TicketLeft, LastTicketId, CurrentPrice, TicketOwner(id) and
    TicketData(id); here each key is one field (the two families of keys are maps from ticket id).

    Every `panic!` of the contract becomes an `Err` result. A panicking invocation is rolled back
    by the host, so on every `Err` the storage is exactly what it was before the call.
    Integer widths are the contract's: prices, counters and ids are `u32`, times are `u64`, and an
    arithmetic overflow aborts the invocation like any other panic. */
module Contract {

  const U32_MAX: int := 0xFFFF_FFFF
  const U64_MAX: int := 0xFFFF_FFFF_FFFF_FFFF

  type u32 = x: int | 0 <= x <= U32_MAX
  type u64 = x: int | 0 <= x <= U64_MAX

  /** A ledger account. Its structure is never inspected by the contract. */
  type Address(==)

  datatype Option<T> = None | Some(value: T) {
    function GetOr(default: T): T {
      match this
      case Some(v) => v
      case None => default
    }
  }

  /** The panics of the contract, plus the host's refusal of an unauthorised call. */
  datatype Error =
    | Unauthorized        // buyer.require_auth() fails
    | AlreadyInitialized  // "already initialized"
    | NotInitialized      // "not initialized"
    | SaleEnded           // "ticket sale ended"
    | NoTicketsLeft       // "no tickets left"
    | TicketNotFound      // "ticket not found"
    | Overflow            // u32 arithmetic overflow

  datatype Result<T> = Ok(value: T) | Err(error: Error)

  /** The event configuration written once by `init`. */
  datatype Config = Config(
    organizer: Address,
    basePrice: u32,
    saleEnd: u64,
    ticketCount: u32,
    eventName: string)

  /** A sold ticket, as stored under TicketData(id) and returned by `buy_ticket`. */
  datatype Ticket = Ticket(
    id: u32,
    owner: Address,
    purchaseTime: u64,
    purchasePrice: u32,
    eventName: string)

  /** The contract's instance storage. An absent key is `None` (for the counters) or a missing
      map entry (for TicketOwner and TicketData). */
  datatype Storage = Storage(
    config: Option<Config>,
    ticketLeft: Option<u32>,
    lastTicketId: Option<u32>,
    currentPrice: Option<u32>,
    ticketOwner: map<nat, Address>,
    ticketData: map<nat, Ticket>)

  /** The outcome of one invocation: what it returns and the storage it leaves behind. */
  datatype Step<T> = Step(result: Result<T>, storage: Storage)

  /** Storage of a freshly deployed contract: no key is set. */
  function EmptyStorage(): (s: Storage)
    ensures GetTicketLeft(s) == 0 && GetLastCurrentPrice(s) == 0 && ReadLastTicketId(s) == 0
    ensures ReadConfig(s) == Err(NotInitialized)
    ensures forall id: u32 :: GetTicketOwner(s, id) == Err(TicketNotFound)
  {
    Storage(None, None, None, None, map[], map[])
  }

  // ---------------------------------------------------------------------------------------------
  // Read helpers and getters: plain lookups, a missing counter reads as 0.

  /** read_config: the stored configuration, or the "not initialized" panic. */
  function ReadConfig(s: Storage): (r: Result<Config>)
    ensures r.Ok? <==> s.config.Some?
    ensures r.Err? ==> r.error == NotInitialized
    ensures r.Ok? ==> Some(r.value) == s.config
  {
    match s.config
    case Some(c) => Ok(c)
    case None => Err(NotInitialized)
  }

  /** read_ticket_left */
  function ReadTicketLeft(s: Storage): (n: u32)
    ensures s.ticketLeft.None? ==> n == 0
    ensures s.ticketLeft.Some? ==> n == s.ticketLeft.value
  {
    s.ticketLeft.GetOr(0)
  }

  /** read_last_ticket_id: the id the next sale will receive */
  function ReadLastTicketId(s: Storage): (id: u32)
    ensures s.lastTicketId.None? ==> id == 0
    ensures s.lastTicketId.Some? ==> id == s.lastTicketId.value
  {
    s.lastTicketId.GetOr(0)
  }

  /** read_last_current_price */
  function ReadCurrentPrice(s: Storage): (p: u32)
    ensures s.currentPrice.None? ==> p == 0
    ensures s.currentPrice.Some? ==> p == s.currentPrice.value
  {
    s.currentPrice.GetOr(0)
  }

  /** get_ticket_left: the number of tickets still for sale, 0 when never set. */
  function GetTicketLeft(s: Storage): (n: u32)
    ensures s.ticketLeft.None? ==> n == 0
    ensures s.ticketLeft.Some? ==> n == s.ticketLeft.value
  {
    ReadTicketLeft(s)
  }

  /** get_last_current_price: the price the next sale will charge, 0 when never set. */
  function GetLastCurrentPrice(s: Storage): (p: u32)
    ensures s.currentPrice.None? ==> p == 0
    ensures s.currentPrice.Some? ==> p == s.currentPrice.value
  {
    ReadCurrentPrice(s)
  }

  /** get_ticket_owner: the owner of a sold ticket, or the "ticket not found" panic. */
  function GetTicketOwner(s: Storage, ticketId: u32): (r: Result<Address>)
    ensures r.Ok? <==> ticketId in s.ticketOwner
    ensures r.Ok? ==> r.value == s.ticketOwner[ticketId]
    ensures r.Err? ==> r.error == TicketNotFound
  {
    if ticketId in s.ticketOwner then Ok(s.ticketOwner[ticketId]) else Err(TicketNotFound)
  }

  // ---------------------------------------------------------------------------------------------
  // The price rule.

  /** The price after a sale at `price`: 2% more, rounded down, capped at twice the base price.
      Either multiplication may overflow u32, which aborts the sale. */
  function NextPrice(price: u32, basePrice: u32): (r: Result<u32>)
    ensures r.Ok? <==> price * 102 <= U32_MAX && basePrice * 2 <= U32_MAX
    ensures r.Err? ==> r.error == Overflow
    ensures r.Ok? ==> r.value <= 2 * basePrice
    ensures r.Ok? ==> r.value * 100 <= price * 102
    ensures r.Ok? && price <= 2 * basePrice ==> price <= r.value
    // below the cap, the new price is 102% of the old one rounded down; together with the two
    // bounds above this makes it min(price * 102 / 100, 2 * basePrice)
    ensures r.Ok? && r.value < 2 * basePrice ==> r.value * 100 <= price * 102 < (r.value + 1) * 100
  {
    if price * 102 > U32_MAX then Err(Overflow)
    else if basePrice * 2 > U32_MAX then Err(Overflow)
    else
      var raised := price * 102 / 100;
      Ok(if raised > basePrice * 2 then basePrice * 2 else raised)
  }

  // ---------------------------------------------------------------------------------------------
  // The two state-changing entry points, as functions from the storage before the call.

  /** init: store the configuration once and seed the three counters. */
  function InitStep(s: Storage, organizer: Address, basePrice: u32, eventName: string,
                    saleEnd: u64, ticketCount: u32): (o: Step<()>)
    ensures o.result.Ok? <==> s.config.None?
    ensures o.result.Err? ==> o.result.error == AlreadyInitialized && o.storage == s
    ensures o.result.Ok? ==>
      && o.storage.config == Some(Config(organizer, basePrice, saleEnd, ticketCount, eventName))
      && GetTicketLeft(o.storage) == ticketCount
      && ReadLastTicketId(o.storage) == 0
      && GetLastCurrentPrice(o.storage) == basePrice
      && o.storage.ticketOwner == s.ticketOwner
      && o.storage.ticketData == s.ticketData
  {
    if s.config.Some? then Step(Err(AlreadyInitialized), s)
    else
      var config := Config(organizer, basePrice, saleEnd, ticketCount, eventName);
      Step(Ok(()), s.(config := Some(config), ticketLeft := Some(ticketCount),
                      lastTicketId := Some(0), currentPrice := Some(basePrice)))
  }

  /** The reason `buy_ticket` panics on this storage, in the order the contract checks, or None
      when the sale goes through. */
  function BuyFailure(s: Storage, authorized: bool, now: u64): (r: Option<Error>)
    ensures r.None? <==>
      && authorized && s.config.Some? && now <= s.config.value.saleEnd
      && ReadTicketLeft(s) > 0 && ReadLastTicketId(s) < U32_MAX
      && ReadCurrentPrice(s) * 102 <= U32_MAX && s.config.value.basePrice * 2 <= U32_MAX
    ensures !authorized ==> r == Some(Unauthorized)
    ensures authorized && s.config.None? ==> r == Some(NotInitialized)
    ensures authorized && s.config.Some? && now > s.config.value.saleEnd ==> r == Some(SaleEnded)
    ensures authorized && s.config.Some? && now <= s.config.value.saleEnd && ReadTicketLeft(s) == 0
            ==> r == Some(NoTicketsLeft)
    // once the four checks above pass, the only failures left are the three u32 overflows
    ensures (r.Some? && authorized && s.config.Some? && now <= s.config.value.saleEnd
             && ReadTicketLeft(s) > 0) ==> r == Some(Overflow)
    ensures r.Some? ==> r.value in {Unauthorized, NotInitialized, SaleEnded, NoTicketsLeft, Overflow}
  {
    if !authorized then Some(Unauthorized)
    else if s.config.None? then Some(NotInitialized)
    else if now > s.config.value.saleEnd then Some(SaleEnded)
    else if ReadTicketLeft(s) == 0 then Some(NoTicketsLeft)
    else if ReadLastTicketId(s) + 1 > U32_MAX then Some(Overflow)
    else if NextPrice(ReadCurrentPrice(s), s.config.value.basePrice).Err? then Some(Overflow)
    else None
  }

  /** buy_ticket: sell the next ticket to `buyer` at the current price, at ledger time `now`.
      `authorized` is whether the buyer's signature covers the call. */
  function BuyStep(s: Storage, buyer: Address, authorized: bool, now: u64): (o: Step<Ticket>)
    // the guards, in the contract's order; a failed call writes nothing
    ensures o.result.Err? <==> BuyFailure(s, authorized, now).Some?
    ensures o.result.Err? ==> Some(o.result.error) == BuyFailure(s, authorized, now) && o.storage == s
    ensures !authorized ==> o.result == Err(Unauthorized)
    ensures authorized && s.config.None? ==> o.result == Err(NotInitialized)
    ensures authorized && s.config.Some? && now > s.config.value.saleEnd ==> o.result == Err(SaleEnded)
    ensures authorized && s.config.Some? && now <= s.config.value.saleEnd && ReadTicketLeft(s) == 0
            ==> o.result == Err(NoTicketsLeft)
    // the ticket sold is built from the storage before the call
    ensures o.result.Ok? ==>
      var t := o.result.value;
      && s.config.Some?
      && t == Ticket(ReadLastTicketId(s), buyer, now, ReadCurrentPrice(s), s.config.value.eventName)
      && now <= s.config.value.saleEnd
    // and the storage after it
    ensures o.result.Ok? ==>
      var t := o.result.value;
      && o.storage.config == s.config
      && ReadLastTicketId(o.storage) == ReadLastTicketId(s) + 1
      && ReadTicketLeft(o.storage) == ReadTicketLeft(s) - 1
      && Ok(ReadCurrentPrice(o.storage)) == NextPrice(ReadCurrentPrice(s), s.config.value.basePrice)
      && GetTicketOwner(o.storage, t.id) == Ok(buyer)
      && t.id in o.storage.ticketData && o.storage.ticketData[t.id] == t
      && o.storage.ticketOwner == s.ticketOwner[t.id := buyer]
      && o.storage.ticketData == s.ticketData[t.id := t]
  {
    match BuyFailure(s, authorized, now)
    case Some(e) => Step(Err(e), s)
    case None =>
      var config := s.config.value;
      var id := ReadLastTicketId(s);
      var price := ReadCurrentPrice(s);
      var ticket := Ticket(id, buyer, now, price, config.eventName);
      Step(Ok(ticket), s.(lastTicketId := Some(id + 1),
                          ticketOwner := s.ticketOwner[id := buyer],
                          ticketData := s.ticketData[id := ticket],
                          currentPrice := Some(NextPrice(price, config.basePrice).value),
                          ticketLeft := Some(ReadTicketLeft(s) - 1)))
  }

  // ---------------------------------------------------------------------------------------------
  // The contract as an object over its instance storage.

  class TicketManager {
    var config: Option<Config>
    var ticketLeft: Option<u32>
    var lastTicketId: Option<u32>
    var currentPrice: Option<u32>
    var ticketOwner: map<nat, Address>
    var ticketData: map<nat, Ticket>

    /** The whole instance storage as a value. */
    function State(): Storage
      reads this
    {
      Storage(config, ticketLeft, lastTicketId, currentPrice, ticketOwner, ticketData)
    }

    /** A freshly deployed contract: its instance storage is empty. */
    constructor ()
      ensures State() == EmptyStorage()
    {
      config, ticketLeft, lastTicketId, currentPrice := None, None, None, None;
      ticketOwner, ticketData := map[], map[];
    }

    /** The host's rollback of a panicking invocation: every key goes back to `saved`. */
    method Restore(saved: Storage)
      modifies this
      ensures State() == saved
    {
      config, ticketLeft, lastTicketId, currentPrice := saved.config, saved.ticketLeft,
                                                       saved.lastTicketId, saved.currentPrice;
      ticketOwner, ticketData := saved.ticketOwner, saved.ticketData;
    }

    /** init */
    method Init(organizer: Address, basePrice: u32, eventName: string, saleEnd: u64, ticketCount: u32)
      returns (r: Result<()>)
      modifies this
      ensures Step(r, State()) == InitStep(old(State()), organizer, basePrice, eventName, saleEnd, ticketCount)
    {
      if config.Some? {
        return Err(AlreadyInitialized);
      }
      config := Some(Config(organizer, basePrice, saleEnd, ticketCount, eventName));
      ticketLeft := Some(ticketCount);
      lastTicketId := Some(0);
      currentPrice := Some(basePrice);
      r := Ok(());
    }

    /** buy_ticket: the checks, then the writes in the contract's order. The two overflows of the
        price computation happen after the first writes, so they restore the saved storage. */
    method BuyTicket(buyer: Address, authorized: bool, now: u64) returns (r: Result<Ticket>)
      modifies this
      ensures Step(r, State()) == BuyStep(old(State()), buyer, authorized, now)
    {
      var saved := State();
      if !authorized {
        return Err(Unauthorized);
      }
      var cfg := ReadConfig(State());
      if cfg.Err? {
        return Err(cfg.error);
      }
      var config := cfg.value;
      if now > config.saleEnd {
        return Err(SaleEnded);
      }
      var left := ReadTicketLeft(State());
      if left == 0 {
        return Err(NoTicketsLeft);
      }
      var price := ReadCurrentPrice(State());
      var id := ReadLastTicketId(State());
      if id + 1 > U32_MAX {
        return Err(Overflow);
      }
      lastTicketId := Some(id + 1);
      var ticket := Ticket(id, buyer, now, price, config.eventName);
      ticketOwner := ticketOwner[id := buyer];
      ticketData := ticketData[id := ticket];
      left := left - 1;
      if price * 102 > U32_MAX {
        Restore(saved);
        return Err(Overflow);
      }
      var newPrice := price * 102 / 100;
      if config.basePrice * 2 > U32_MAX {
        Restore(saved);
        return Err(Overflow);
      }
      var maxPrice := config.basePrice * 2;
      if newPrice > maxPrice {
        newPrice := maxPrice;
      }
      currentPrice := Some(newPrice);
      ticketLeft := Some(left);
      r := Ok(ticket);
    }
  }
}
