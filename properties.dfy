/** What the ticket-manager contract guarantees across calls: the storage invariant that `init`
    establishes and `buy_ticket` keeps, and its consequences for every sequence of invocations. */
module ContractProperties {
  import opened Contract

  /** A ticket stored under `id` is the one sold under that id: it carries its own id and its
      owner's address, the event's name, a price in the allowed range and a time within the sale. */
  ghost predicate WellIssued(s: Storage, c: Config, id: nat)
    requires id in s.ticketData && id in s.ticketOwner
  {
    var t := s.ticketData[id];
    && t.id == id
    && t.owner == s.ticketOwner[id]
    && t.eventName == c.eventName
    && c.basePrice <= t.purchasePrice <= ReadCurrentPrice(s)
    && t.purchaseTime <= c.saleEnd
  }

  /** The storage invariant. Before `init` nothing is stored. After it, sold plus left is the
      ticket count, the ids sold are exactly 0 .. LastTicketId - 1, the current price lies within
      [base price, 2 * base price], and ticket prices never decrease with the id. */
  ghost predicate Consistent(s: Storage) {
    match s.config
    case None => s == EmptyStorage()
    case Some(c) =>
      && s.ticketLeft.Some? && s.lastTicketId.Some? && s.currentPrice.Some?
      && ReadLastTicketId(s) + ReadTicketLeft(s) == c.ticketCount
      && c.basePrice <= ReadCurrentPrice(s) <= 2 * c.basePrice
      && (forall id: nat :: id in s.ticketOwner <==> id < ReadLastTicketId(s))
      && (forall id: nat :: id in s.ticketData <==> id < ReadLastTicketId(s))
      && (forall id: nat :: id in s.ticketData ==> WellIssued(s, c, id))
      && (forall i: nat, j: nat :: i in s.ticketData && j in s.ticketData && i <= j ==>
            s.ticketData[i].purchasePrice <= s.ticketData[j].purchasePrice)
  }

  // ---------------------------------------------------------------------------------------------
  // The price rule.

  /** Starting inside [base, 2 * base], a sale keeps the price inside that range and never lowers
      it; it strictly raises it exactly when the price is at least 50 (below that, 2% rounds down
      to nothing) and the cap has not been reached. */
  lemma NextPriceRisesIff(price: u32, basePrice: u32)
    requires basePrice <= price <= 2 * basePrice
    requires NextPrice(price, basePrice).Ok?
    ensures var p := NextPrice(price, basePrice).value;
      && basePrice <= price <= p <= 2 * basePrice
      && (price < p <==> 50 <= price && price < 2 * basePrice)
  {
  }

  /** A base price above U32_MAX / 102 (42,107,522) makes `price * 102` overflow on the first
      purchase, so no ticket of such an event can ever be sold. */
  lemma HighBasePriceBlocksSales(s: Storage, buyer: Address, authorized: bool, now: u64)
    requires Consistent(s) && s.config.Some?
    requires s.config.value.basePrice * 102 > U32_MAX
    ensures BuyStep(s, buyer, authorized, now).result.Err?
  {
  }

  // ---------------------------------------------------------------------------------------------
  // One call at a time.

  lemma EmptyConsistent()
    ensures Consistent(EmptyStorage())
  {
  }

  /** `init` on a consistent storage leaves a consistent storage: the first one seeds the
      counters of an empty store, a second one fails and changes nothing. */
  lemma InitPreservesConsistent(s: Storage, organizer: Address, basePrice: u32, eventName: string,
                                saleEnd: u64, ticketCount: u32)
    requires Consistent(s)
    ensures var o := InitStep(s, organizer, basePrice, eventName, saleEnd, ticketCount);
      && Consistent(o.storage)
      && (o.result.Ok? ==> s == EmptyStorage() && o.storage.ticketData == map[])
  {
  }

  /** A sale on a consistent storage leaves a consistent storage. The ticket sold gets an id that
      was never used, and every ticket sold before keeps its owner and its data. */
  lemma BuyPreservesConsistent(s: Storage, buyer: Address, authorized: bool, now: u64)
    requires Consistent(s)
    ensures var o := BuyStep(s, buyer, authorized, now);
      && Consistent(o.storage)
      && (o.result.Ok? ==> o.result.value.id !in s.ticketData && o.result.value.id !in s.ticketOwner)
      && (forall id :: id in s.ticketData ==> id in o.storage.ticketData && o.storage.ticketData[id] == s.ticketData[id])
      && (forall id :: id in s.ticketOwner ==> id in o.storage.ticketOwner && o.storage.ticketOwner[id] == s.ticketOwner[id])
  {
  }

  /** Selling out: in a consistent storage the tickets sold plus the tickets left make up the
      event's ticket count, and every sold ticket has exactly one owner entry. */
  lemma SoldPlusLeft(s: Storage)
    requires Consistent(s) && s.config.Some?
    ensures |s.ticketData| + GetTicketLeft(s) == s.config.value.ticketCount
    ensures |s.ticketOwner| == |s.ticketData|
  {
    DenseKeysCount(s.ticketData, ReadLastTicketId(s));
    DenseKeysCount(s.ticketOwner, ReadLastTicketId(s));
  }

  /** A map whose keys are exactly 0 .. n - 1 has n entries. */
  lemma {:induction false} DenseKeysCount<V>(m: map<nat, V>, n: nat)
    requires forall k: nat :: k in m <==> k < n
    ensures |m| == n
  {
    if n > 0 {
      var m' := m - {n - 1};
      assert forall k: nat :: k in m' <==> k < n - 1;
      DenseKeysCount(m', n - 1);
      assert m'.Keys + {n - 1} == m.Keys;
    } else {
      assert m.Keys == {};
    }
  }

  /** `get_ticket_owner` answers for exactly the ids sold so far; any other id fails. */
  lemma OwnerKnownIffSold(s: Storage, ticketId: u32)
    requires Consistent(s)
    ensures GetTicketOwner(s, ticketId).Ok? <==> ticketId < ReadLastTicketId(s)
    ensures ticketId >= ReadLastTicketId(s) ==> GetTicketOwner(s, ticketId) == Err(TicketNotFound)
    ensures GetTicketOwner(s, ticketId).Ok? ==>
      GetTicketOwner(s, ticketId).value == s.ticketData[ticketId].owner
  {
    if ticketId in s.ticketOwner {
      assert WellIssued(s, s.config.value, ticketId);
    }
  }

  // ---------------------------------------------------------------------------------------------
  // Sequences of invocations.

  /** One state-changing invocation of the contract. */
  datatype Call =
    | InitCall(organizer: Address, basePrice: u32, eventName: string, saleEnd: u64, ticketCount: u32)
    | BuyCall(buyer: Address, authorized: bool, now: u64)

  /** The storage after one invocation; a failed invocation leaves it as it was. */
  function Apply(s: Storage, call: Call): Storage {
    match call
    case InitCall(organizer, basePrice, eventName, saleEnd, ticketCount) =>
      InitStep(s, organizer, basePrice, eventName, saleEnd, ticketCount).storage
    case BuyCall(buyer, authorized, now) =>
      BuyStep(s, buyer, authorized, now).storage
  }

  /** The storage after a sequence of invocations, in order. */
  function Run(s: Storage, calls: seq<Call>): Storage
    decreases |calls|
  {
    if calls == [] then s else Run(Apply(s, calls[0]), calls[1..])
  }

  lemma ApplyPreservesConsistent(s: Storage, call: Call)
    requires Consistent(s)
    ensures Consistent(Apply(s, call))
    ensures forall id :: id in s.ticketData ==> id in Apply(s, call).ticketData && Apply(s, call).ticketData[id] == s.ticketData[id]
    ensures s.config.Some? ==> Apply(s, call).config == s.config
    ensures s.config.Some? ==> ReadCurrentPrice(s) <= ReadCurrentPrice(Apply(s, call))
    ensures s.config.Some? ==> ReadLastTicketId(s) <= ReadLastTicketId(Apply(s, call))
  {
    match call
    case InitCall(organizer, basePrice, eventName, saleEnd, ticketCount) =>
      InitPreservesConsistent(s, organizer, basePrice, eventName, saleEnd, ticketCount);
    case BuyCall(buyer, authorized, now) =>
      BuyPreservesConsistent(s, buyer, authorized, now);
  }

  /** Every sequence of invocations keeps the storage consistent. Once initialised, the
      configuration never changes, a sold ticket is never overwritten (ids are never reused), and
      neither the current price nor the next ticket id ever goes down. */
  lemma {:induction false} RunPreservesConsistent(s: Storage, calls: seq<Call>)
    requires Consistent(s)
    ensures Consistent(Run(s, calls))
    ensures forall id :: id in s.ticketData ==> id in Run(s, calls).ticketData && Run(s, calls).ticketData[id] == s.ticketData[id]
    ensures s.config.Some? ==> Run(s, calls).config == s.config
    ensures s.config.Some? ==> ReadCurrentPrice(s) <= ReadCurrentPrice(Run(s, calls))
    ensures s.config.Some? ==> ReadLastTicketId(s) <= ReadLastTicketId(Run(s, calls))
    decreases |calls|
  {
    if calls != [] {
      ApplyPreservesConsistent(s, calls[0]);
      RunPreservesConsistent(Apply(s, calls[0]), calls[1..]);
    }
  }

  /** Every storage a deployed contract can reach is consistent; in particular sold plus left is
      the ticket count in every reachable initialised state. */
  lemma Reachable(calls: seq<Call>)
    ensures Consistent(Run(EmptyStorage(), calls))
    ensures var s := Run(EmptyStorage(), calls);
      s.config.Some? ==> |s.ticketData| + GetTicketLeft(s) == s.config.value.ticketCount
  {
    EmptyConsistent();
    RunPreservesConsistent(EmptyStorage(), calls);
    var s := Run(EmptyStorage(), calls);
    if s.config.Some? {
      SoldPlusLeft(s);
    }
  }

  /** Once the current price exceeds U32_MAX / 102 (42,107,522), `price * 102` overflows on every
      purchase, the price can no longer change and `init` is refused, so no later sequence of
      invocations changes the storage: the remaining tickets can never be sold. With a base price
      of 30,000,000, for instance, the cap of 60,000,000 lies above that limit: 18 sales go through,
      after which the price is 42,847,378 and sales stop for any ticket count above 18. */
  lemma {:induction false} SalesStallAbovePriceLimit(s: Storage, calls: seq<Call>)
    requires s.config.Some?
    requires ReadCurrentPrice(s) * 102 > U32_MAX
    ensures Run(s, calls) == s
    decreases |calls|
  {
    if calls != [] {
      assert Apply(s, calls[0]) == s;
      SalesStallAbovePriceLimit(s, calls[1..]);
    }
  }
}
