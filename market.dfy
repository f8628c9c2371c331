/**
 * The bulletin-board market of core/market.py: a list of open sell offers
 * and a ledger of completed trades that only ever grows.
 *
 * The pure functions `Post` and `Execute` on a `MarketState` say what one
 * call does; the class `MarketWorld` keeps the two lists in fields and its
 * methods are proved to follow those functions.
 */
module Market {
  import opened Wrappers

  /** A wall-clock time as `datetime.now().isoformat()` prints it. */
  type Timestamp = string

  /** One open sell offer on the board. */
  datatype Offer = Offer(offerId: int, seller: string, item: string,
                         price: real, quantity: real, timestamp: Timestamp)

  /** One row of the transaction ledger. */
  datatype Trade = Trade(timestamp: Timestamp, seller: string, buyer: string,
                         item: string, price: real, quantity: real)

  /** The `{"status": ..., ...}` dictionary `execute_trade` returns. */
  datatype TradeResult = Success(data: Trade) | Error(message: string)

  const OfferNotFound: string := "Offer not found"

  /** The open offers and the ledger together. */
  datatype MarketState = MarketState(offers: seq<Offer>, ledger: seq<Trade>)

  const EmptyMarket: MarketState := MarketState([], [])

  // ---------------------------------------------------------- the board

  /** Where the first open offer carrying `id` sits, if any offer does. */
  function FirstOffer(offers: seq<Offer>, id: int): (r: Option<nat>)
    ensures r.Some? ==> r.value < |offers| && offers[r.value].offerId == id
    ensures r.Some? ==> forall k :: 0 <= k < r.value ==> offers[k].offerId != id
    ensures r.None? ==> forall k :: 0 <= k < |offers| ==> offers[k].offerId != id
  {
    if offers == [] then None
    else if offers[0].offerId == id then Some(0)
    else
      match FirstOffer(offers[1..], id)
      case None => None
      case Some(i) => Some(i + 1)
  }

  /** Python's `list.remove(x)`: drop the first element equal to `x`. */
  function RemoveFirst<T(==)>(s: seq<T>, x: T): (r: seq<T>)
    requires x in s
    ensures |r| == |s| - 1
  {
    if s[0] == x then s[1..] else [s[0]] + RemoveFirst(s[1..], x)
  }

  /** The offer `post_offer` builds: numbered one past the open-offer count. */
  function NewOffer(m: MarketState, seller: string, item: string, price: real,
                    quantity: real, now: Timestamp): Offer
  {
    Offer(|m.offers| + 1, seller, item, price, quantity, now)
  }

  /** What `post_offer` does to the market. */
  function Post(m: MarketState, seller: string, item: string, price: real,
                quantity: real, now: Timestamp): MarketState
  {
    MarketState(m.offers + [NewOffer(m, seller, item, price, quantity, now)], m.ledger)
  }

  /** The ledger row for `buyer` taking offer `o` at time `now`. */
  function TradeFor(o: Offer, buyer: string, now: Timestamp): Trade {
    Trade(now, o.seller, buyer, o.item, o.price, o.quantity)
  }

  /** What `execute_trade` does to the market, and what it answers. */
  function Execute(m: MarketState, buyer: string, id: int, now: Timestamp): (MarketState, TradeResult) {
    match FirstOffer(m.offers, id)
    case None => (m, Error(OfferNotFound))
    case Some(i) =>
      var t := TradeFor(m.offers[i], buyer, now);
      (MarketState(RemoveFirst(m.offers, m.offers[i]), m.ledger + [t]), Success(t))
  }

  // ---------------------------------------------------------- the object

  class MarketWorld {
    var activeOffers: seq<Offer>
    var ledger: seq<Trade>

    function State(): MarketState
      reads this
    {
      MarketState(activeOffers, ledger)
    }

    /** A market with no offers and an empty ledger. */
    constructor ()
      ensures State() == EmptyMarket
    {
      activeOffers := [];
      ledger := [];
    }

    /** List an offer; the answer is the id given to it. */
    method PostOffer(sellerName: string, item: string, price: real, quantity: real, now: Timestamp)
      returns (offerId: int)
      modifies this
      ensures State() == Post(old(State()), sellerName, item, price, quantity, now)
      ensures offerId == |old(activeOffers)| + 1 == activeOffers[|activeOffers| - 1].offerId
    {
      var offer := Offer(|activeOffers| + 1, sellerName, item, price, quantity, now);
      activeOffers := activeOffers + [offer];
      offerId := offer.offerId;
    }

    /** The generator scan: the index of the first open offer with this id. */
    method FindOffer(offerId: int) returns (found: Option<nat>)
      ensures found == FirstOffer(activeOffers, offerId)
    {
      var i := 0;
      while i < |activeOffers|
        invariant 0 <= i <= |activeOffers|
        invariant forall k :: 0 <= k < i ==> activeOffers[k].offerId != offerId
      {
        if activeOffers[i].offerId == offerId {
          return Some(i);
        }
        i := i + 1;
      }
      return None;
    }

    /** Sell offer `offerId` to `buyerName`, recording the trade in the ledger. */
    method ExecuteTrade(buyerName: string, offerId: int, now: Timestamp) returns (result: TradeResult)
      modifies this
      ensures (State(), result) == Execute(old(State()), buyerName, offerId, now)
    {
      var found := FindOffer(offerId);
      match found
      case None =>
        result := Error(OfferNotFound);
      case Some(i) =>
        var offer := activeOffers[i];
        var trade := Trade(now, offer.seller, buyerName, offer.item, offer.price, offer.quantity);
        ledger := ledger + [trade];
        activeOffers := RemoveFirst(activeOffers, offer);
        result := Success(trade);
    }

    /** The board as agents see it. */
    method GetMarketState() returns (offers: seq<Offer>)
      ensures offers == State().offers
    {
      offers := activeOffers;
    }
  }

  // ---------------------------------------------------------- properties

  /** `list.remove` of the element at `i`, when no earlier element equals it,
      cuts out exactly position `i`. */
  lemma {:induction false} RemoveFirstAt<T>(s: seq<T>, i: nat)
    requires i < |s|
    requires forall k :: 0 <= k < i ==> s[k] != s[i]
    ensures RemoveFirst(s, s[i]) == s[..i] + s[i + 1..]
  {
    if i > 0 {
      assert s[1..][i - 1] == s[i];
      RemoveFirstAt(s[1..], i - 1);
      assert s[1..][..i - 1] == s[1..i];
      assert s[1..][i..] == s[i + 1..];
      assert [s[0]] + s[1..i] == s[..i];
    }
  }

  /** Posting appends exactly one offer, numbered one past the previous count,
      copies every argument into it, and touches nothing else. */
  lemma PostAppends(m: MarketState, seller: string, item: string, price: real, quantity: real, now: Timestamp)
    ensures var m' := Post(m, seller, item, price, quantity, now);
            && |m'.offers| == |m.offers| + 1
            && m'.offers[..|m.offers|] == m.offers
            && m'.offers[|m.offers|] == Offer(|m.offers| + 1, seller, item, price, quantity, now)
            && m'.ledger == m.ledger
  {
    var m' := Post(m, seller, item, price, quantity, now);
    assert m'.offers[..|m.offers|] == m.offers;
  }

  /** An id no open offer carries is an error that changes nothing, and
      asking again gives the same answer. */
  lemma ExecuteNotFound(m: MarketState, buyer: string, id: int, now: Timestamp, later: Timestamp)
    requires forall k :: 0 <= k < |m.offers| ==> m.offers[k].offerId != id
    ensures Execute(m, buyer, id, now) == (m, Error(OfferNotFound))
    ensures Execute(Execute(m, buyer, id, now).0, buyer, id, later) == (m, Error(OfferNotFound))
  {
  }

  /** A trade succeeds exactly when some open offer carries the id. */
  lemma ExecuteSucceedsIff(m: MarketState, buyer: string, id: int, now: Timestamp)
    ensures Execute(m, buyer, id, now).1.Success?
            <==> exists k :: 0 <= k < |m.offers| && m.offers[k].offerId == id
  {
    if FirstOffer(m.offers, id).Some? {
      var i := FirstOffer(m.offers, id).value;
      assert m.offers[i].offerId == id;
    }
  }

  /** A successful trade on the first offer `i` carrying the id: the ledger
      gains one row copied from that offer with the given buyer, the answer
      carries that row, and the board loses offer `i` and nothing else. */
  lemma ExecuteSuccess(m: MarketState, buyer: string, id: int, now: Timestamp, i: nat)
    requires i < |m.offers| && m.offers[i].offerId == id
    requires forall k :: 0 <= k < i ==> m.offers[k].offerId != id
    ensures var o := m.offers[i];
            var t := Trade(now, o.seller, buyer, o.item, o.price, o.quantity);
            Execute(m, buyer, id, now)
              == (MarketState(m.offers[..i] + m.offers[i + 1..], m.ledger + [t]), Success(t))
  {
    assert FirstOffer(m.offers, id) == Some(i);
    forall k | 0 <= k < i ensures m.offers[k] != m.offers[i] {
      assert m.offers[k].offerId != m.offers[i].offerId;
    }
    RemoveFirstAt(m.offers, i);
  }

  /** A successful trade moves one offer off the board: the rest keep their
      order and the board shrinks by one. */
  lemma ExecuteRemovesOne(m: MarketState, buyer: string, id: int, now: Timestamp)
    requires Execute(m, buyer, id, now).1.Success?
    ensures var m' := Execute(m, buyer, id, now).0;
            var i := FirstOffer(m.offers, id).value;
            && |m'.offers| == |m.offers| - 1
            && m'.offers == m.offers[..i] + m.offers[i + 1..]
            && multiset(m'.offers) + multiset{m.offers[i]} == multiset(m.offers)
            && |m'.ledger| == |m.ledger| + 1
  {
    var i := FirstOffer(m.offers, id).value;
    ExecuteSuccess(m, buyer, id, now, i);
    SplitMultiset(m.offers, i);
  }

  lemma SplitMultiset<T>(s: seq<T>, i: nat)
    requires i < |s|
    ensures multiset(s[..i] + s[i + 1..]) + multiset{s[i]} == multiset(s)
  {
    assert s == s[..i] + [s[i]] + s[i + 1..];
  }

  /** Open offers numbered 1, 2, ..., n in order. */
  predicate IdsSequential(offers: seq<Offer>) {
    forall k :: 0 <= k < |offers| ==> offers[k].offerId == k + 1
  }

  /** Posting keeps the numbering 1..n, so from an empty board a run of posts
      with no trade in between always yields ids 1..n. */
  lemma PostKeepsIdsSequential(m: MarketState, seller: string, item: string, price: real, quantity: real, now: Timestamp)
    requires IdsSequential(m.offers)
    ensures IdsSequential(Post(m, seller, item, price, quantity, now).offers)
  {
  }

  /** Open offers carrying pairwise different ids. */
  predicate IdsDistinct(offers: seq<Offer>) {
    forall j, k :: 0 <= j < k < |offers| ==> offers[j].offerId != offers[k].offerId
  }

  /** When ids are distinct, a traded id is gone from the board afterwards. */
  lemma TradedIdGone(m: MarketState, buyer: string, id: int, now: Timestamp)
    requires IdsDistinct(m.offers)
    requires Execute(m, buyer, id, now).1.Success?
    ensures forall k :: 0 <= k < |Execute(m, buyer, id, now).0.offers| ==>
              Execute(m, buyer, id, now).0.offers[k].offerId != id
  {
    var i := FirstOffer(m.offers, id).value;
    ExecuteSuccess(m, buyer, id, now, i);
    var rest := m.offers[..i] + m.offers[i + 1..];
    forall k | 0 <= k < |rest| ensures rest[k].offerId != id {
      if k < i {
        assert rest[k] == m.offers[k];
      } else {
        assert rest[k] == m.offers[k + 1];
      }
    }
  }

  /** Ids are not unique in general: post two offers, sell offer 1, post a
      third, and offer id 2 is now carried twice; a later sale of id 2 takes
      the earlier of the two. */
  lemma IdReuse(a: string, b: string, c: string, t: Timestamp)
    ensures var m1 := Post(Post(EmptyMarket, a, "Wood", 1.0, 1.0, t), b, "Wood", 2.0, 1.0, t);
            var m2 := Post(Execute(m1, c, 1, t).0, c, "Wood", 3.0, 1.0, t);
            && |m2.offers| == 2
            && m2.offers[0].offerId == 2 && m2.offers[1].offerId == 2
            && Execute(m2, a, 2, t).1 == Success(Trade(t, b, a, "Wood", 2.0, 1.0))
  {
    var m1 := Post(Post(EmptyMarket, a, "Wood", 1.0, 1.0, t), b, "Wood", 2.0, 1.0, t);
    var o1 := Offer(1, a, "Wood", 1.0, 1.0, t);
    var o2 := Offer(2, b, "Wood", 2.0, 1.0, t);
    assert m1.offers == [o1, o2];
    ExecuteSuccess(m1, c, 1, t, 0);
    assert [o1, o2][1..] == [o2];
    var m2 := Post(Execute(m1, c, 1, t).0, c, "Wood", 3.0, 1.0, t);
    assert m2.offers == [o2, Offer(2, c, "Wood", 3.0, 1.0, t)];
    ExecuteSuccess(m2, a, 2, t, 0);
  }

  // ------------------------------------------------------ runs of calls

  /** One call on the market, with the time it happens at. */
  datatype Call =
    | PostCall(seller: string, item: string, price: real, quantity: real, at: Timestamp)
    | TradeCall(buyer: string, id: int, at: Timestamp)

  function Apply(m: MarketState, c: Call): MarketState {
    match c
    case PostCall(s, i, p, q, at) => Post(m, s, i, p, q, at)
    case TradeCall(b, id, at) => Execute(m, b, id, at).0
  }

  /** The market after a sequence of calls, first to last. */
  function Run(m: MarketState, calls: seq<Call>): MarketState
    decreases |calls|
  {
    if calls == [] then m else Run(Apply(m, calls[0]), calls[1..])
  }

  function CountPosts(calls: seq<Call>): nat {
    if calls == [] then 0 else (if calls[0].PostCall? then 1 else 0) + CountPosts(calls[1..])
  }

  /** Over any run of calls the ledger only grows at the end, and every offer
      ever posted is either still open or has become exactly one ledger row. */
  lemma {:induction false} RunLedgerAppendOnly(m: MarketState, calls: seq<Call>)
    ensures m.ledger <= Run(m, calls).ledger
    ensures |Run(m, calls).offers| + |Run(m, calls).ledger| == |m.offers| + |m.ledger| + CountPosts(calls)
    decreases |calls|
  {
    if calls != [] {
      var m1 := Apply(m, calls[0]);
      if calls[0].TradeCall? && Execute(m, calls[0].buyer, calls[0].id, calls[0].at).1.Success? {
        ExecuteRemovesOne(m, calls[0].buyer, calls[0].id, calls[0].at);
      }
      assert m.ledger <= m1.ledger;
      RunLedgerAppendOnly(m1, calls[1..]);
    }
  }

  /** Posts alone, with no trade among them, keep the board numbered 1..n. */
  lemma {:induction false} PostsKeepIdsSequential(m: MarketState, calls: seq<Call>)
    requires IdsSequential(m.offers)
    requires forall k :: 0 <= k < |calls| ==> calls[k].PostCall?
    ensures IdsSequential(Run(m, calls).offers)
    decreases |calls|
  {
    if calls != [] {
      var c := calls[0];
      PostKeepsIdsSequential(m, c.seller, c.item, c.price, c.quantity, c.at);
      assert forall k :: 0 <= k < |calls[1..]| ==> calls[1..][k] == calls[k + 1];
      PostsKeepIdsSequential(Apply(m, c), calls[1..]);
    }
  }
}
