/**
 * What one turn of a trading agent guarantees: which inputs are refused
 * without any change, what a purchase or a posting changes, how commands
 * are told apart, and two facts that hold for every turn (holdings never
 * go negative; units only move between the inventory and the board).
 */
module AgentProperties {
  import opened Wrappers
  import opened Text
  import opened Numerals
  import opened Coercion
  import opened Market
  import opened Memory
  import opened Agent

  // ------------------------------------------------------------------ buy

  /** `_handle_buy` leaves the whole world as it was exactly when it stops
      before calling the market; otherwise it always remembers something. */
  lemma BuyNoChangeIff(w: World, name: string, params: map<string, RawValue>, stamp: Stamp)
    ensures BuyTurn(w, name, params, stamp) == w <==> BuyRejected(params)
  {
    if !BuyRejected(params) {
      assert |BuyTurn(w, name, params, stamp).memory| == |w.memory| + 1;
    }
  }

  /** The requested quantity never changes what a purchase does, as long as
      it converts. */
  lemma BuyIgnoresQuantity(w: World, name: string, params: map<string, RawValue>,
                           q1: RawValue, q2: RawValue, stamp: Stamp)
    requires SafeInt(q1, "quantity").Ok? && SafeInt(q2, "quantity").Ok?
    ensures BuyTurn(w, name, params["quantity" := q1], stamp) == BuyTurn(w, name, params["quantity" := q2], stamp)
  {
    assert Param(params["quantity" := q1], "offer_id") == Param(params, "offer_id");
    assert Param(params["quantity" := q2], "offer_id") == Param(params, "offer_id");
    assert Param(params["quantity" := q1], "quantity") == q1;
    assert Param(params["quantity" := q2], "quantity") == q2;
    assert BuyTarget(params["quantity" := q1]) == BuyTarget(params["quantity" := q2]);
  }

  /** Buying offer `i`, the first open offer carrying the requested id, is
      the purchase bookkeeping for the trade the market reports, applied
      after that offer has left the board and the trade has entered the
      ledger. */
  lemma BuyTurnTrades(w: World, name: string, params: map<string, RawValue>, stamp: Stamp, i: nat)
    requires BuyTarget(params).Some? && FirstOffer(w.market.offers, BuyTarget(params).value) == Some(i)
    ensures var t := TradeFor(w.market.offers[i], name, stamp.iso);
            var m' := MarketState(w.market.offers[..i] + w.market.offers[i + 1..], w.market.ledger + [t]);
            BuyTurn(w, name, params, stamp) == Bought(w.(market := m'), t, stamp)
  {
    BuyByIdTrades(w, name, BuyTarget(params).value, stamp, i);
  }

  /** The same for a known offer id. */
  lemma BuyByIdTrades(w: World, name: string, id: int, stamp: Stamp, i: nat)
    requires FirstOffer(w.market.offers, id) == Some(i)
    ensures var t := TradeFor(w.market.offers[i], name, stamp.iso);
            var m' := MarketState(w.market.offers[..i] + w.market.offers[i + 1..], w.market.ledger + [t]);
            BuyById(w, name, id, stamp) == Bought(w.(market := m'), t, stamp)
  {
    ExecuteSuccess(w.market, name, id, stamp.iso, i);
  }

  /** Asking for an id no open offer carries only records the failure. */
  lemma BuyByIdFails(w: World, name: string, id: int, stamp: Stamp)
    requires FirstOffer(w.market.offers, id) == None
    ensures BuyById(w, name, id, stamp) == FailedBuy(w, id, OfferNotFound, stamp)
  {
    ExecuteNotFound(w.market, name, id, stamp.iso, stamp.iso);
  }

  /** Buying offer `i`: the budget drops by `price * int(quantity)` with no
      floor, the inventory gains `int(quantity)` units of the item, the offer
      leaves the board, the ledger gains the trade with this agent as buyer,
      and one memory of importance 7 naming the seller as partner is added. */
  lemma BuySuccess(w: World, name: string, params: map<string, RawValue>, stamp: Stamp, i: nat)
    requires BuyTarget(params).Some? && FirstOffer(w.market.offers, BuyTarget(params).value) == Some(i)
    ensures var o := w.market.offers[i];
            var t := TradeFor(o, name, stamp.iso);
            var w' := BuyTurn(w, name, params, stamp);
            && w'.budget == w.budget - PurchaseCost(t)
            && w'.inventory == AddUnits(w.inventory, o.item, TruncToInt(o.quantity))
            && w'.market.offers == w.market.offers[..i] + w.market.offers[i + 1..]
            && w'.market.ledger == w.market.ledger + [Trade(stamp.iso, o.seller, name, o.item, o.price, o.quantity)]
            && |w'.memory| == |w.memory| + 1 && w'.memory[..|w.memory|] == w.memory
            && w'.memory[|w.memory|].importance == 7
            && w'.memory[|w.memory|].metadata["partner"] == o.seller
  {
    var t := TradeFor(w.market.offers[i], name, stamp.iso);
    BuyTurnTrades(w, name, params, stamp, i);
    BoughtFacts(BuyTurn(w, name, params, stamp), w, MarketState(w.market.offers[..i] + w.market.offers[i + 1..], w.market.ledger + [t]), t, stamp);
  }

  /** The purchase bookkeeping on its own, for a world `w'` that is `w`
      after trade `t` with the market already at `m`: pay the trade's cost,
      receive `int(quantity)` units of its item, and remember one entry of
      importance 7 naming the seller. */
  lemma BoughtFacts(w': World, w: World, m: MarketState, t: Trade, stamp: Stamp)
    requires w' == Bought(w.(market := m), t, stamp)
    ensures && w'.budget == w.budget - PurchaseCost(t)
            && w'.inventory == AddUnits(w.inventory, t.item, TruncToInt(t.quantity))
            && w'.market == m
            && |w'.memory| == |w.memory| + 1 && w'.memory[..|w.memory|] == w.memory
            && w'.memory[|w.memory|].importance == 7
            && w'.memory[|w.memory|].metadata["partner"] == t.seller
  {
    assert w'.memory[..|w.memory|] == w.memory;
  }

  /** Asking for an id no open offer carries: budget, inventory and market
      stay as they were, and one memory of importance 4 records the failure. */
  lemma BuyFailure(w: World, name: string, params: map<string, RawValue>, stamp: Stamp)
    requires BuyTarget(params).Some?
    requires forall k :: 0 <= k < |w.market.offers| ==> w.market.offers[k].offerId != BuyTarget(params).value
    ensures var id := BuyTarget(params).value;
            var w' := BuyTurn(w, name, params, stamp);
            && w'.budget == w.budget && w'.inventory == w.inventory && w'.market == w.market
            && w'.memory == w.memory + [MemoryEntry(FailedBuyNote(id, OfferNotFound), 4, stamp.seconds, map[])]
  {
    ExecuteNotFound(w.market, name, BuyTarget(params).value, stamp.iso, stamp.iso);
  }

  /** No credit check: with 100.0 to spend, buying ten units at 15.0 leaves
      a budget of -50.0 and ten units in stock. */
  lemma OverspendScenario(t0: Timestamp, stamp: Stamp)
    ensures var w := World(100.0, map[], [], MarketState([Offer(1, "S", "Wood", 15.0, 10.0, t0)], []));
            var w' := BuyTurn(w, "Buyer", map["offer_id" := Int(1)], stamp);
            && w'.budget == -50.0
            && w'.inventory == map["Wood" := 10]
            && w'.market.offers == []
  {
    var w := World(100.0, map[], [], MarketState([Offer(1, "S", "Wood", 15.0, 10.0, t0)], []));
    var params := map["offer_id" := Int(1)];
    assert Param(params, "quantity") == Null;
    assert BuyTarget(params) == Some(1);
    var t := TradeFor(w.market.offers[0], "Buyer", stamp.iso);
    BuyTurnTrades(w, "Buyer", params, stamp, 0);
    BoughtFacts(BuyTurn(w, "Buyer", params, stamp), w, MarketState([], [t]), t, stamp);
    assert TruncToInt(10.0) == 10;
    assert PurchaseCost(t) == 150.0;
  }

  // ----------------------------------------------------------------- post

  /** `_handle_post` changes nothing exactly when one of its checks fails:
      a conversion error, an empty item, a price or quantity that is missing
      or not positive, an item not held, or more units than held. */
  lemma PostNoChangeIff(w: World, name: string, params: map<string, RawValue>, stamp: Stamp)
    ensures var item := SafeStr(Param(params, "item"));
            var price := SafeFloat(Param(params, "price"), "price");
            var qty := SafeInt(Param(params, "qty"), "qty");
            PostTurn(w, name, params, stamp) == w
            <==> || price.Err? || qty.Err?
                 || item.None? || item.value == ""
                 || price.value.None? || price.value.value <= 0.0
                 || qty.value.None? || qty.value.value <= 0
                 || item.value !in w.inventory
                 || qty.value.value > w.inventory[item.value]
  {
    match PostTarget(params)
    case None =>
    case Some(req) => PostHeldNoChangeIff(w, name, req, stamp);
  }

  /** Once the parameters are accepted, only the inventory can refuse. */
  lemma PostHeldNoChangeIff(w: World, name: string, req: PostRequest, stamp: Stamp)
    ensures PostHeld(w, name, req.item, req.price, req.qty, stamp) == w
            <==> req.item !in w.inventory || req.qty > w.inventory[req.item]
  {
    var w' := PostHeld(w, name, req.item, req.price, req.qty, stamp);
    if req.item in w.inventory && req.qty <= w.inventory[req.item] {
      assert |w'.memory| == |w.memory| + 1;
    }
  }

  /** An accepted posting puts exactly one offer at the end of the board with
      the converted price and quantity, takes the units out of the inventory
      (never below zero, no other item touched), keeps the budget, and adds
      one memory of importance 3. */
  lemma PostSuccess(w: World, name: string, params: map<string, RawValue>, stamp: Stamp,
                    it: string, p: real, q: int)
    requires PostTarget(params) == Some(PostRequest(it, p, q))
    requires it in w.inventory && q <= w.inventory[it]
    ensures var w' := PostTurn(w, name, params, stamp);
            && w'.inventory == w.inventory[it := w.inventory[it] - q]
            && w'.inventory[it] >= 0
            && w'.market.offers == w.market.offers + [Offer(|w.market.offers| + 1, name, it, p, q as real, stamp.iso)]
            && w'.market.ledger == w.market.ledger
            && w'.budget == w.budget
            && |w'.memory| == |w.memory| + 1 && w'.memory[..|w.memory|] == w.memory
            && w'.memory[|w.memory|].importance == 3
  {
    PostedFacts(PostTurn(w, name, params, stamp), w, name, it, p, q, stamp);
  }

  /** The posting on its own, for a world `w'` that `PostHeld` changed. */
  lemma PostedFacts(w': World, w: World, name: string, it: string, p: real, q: int, stamp: Stamp)
    requires it in w.inventory && q <= w.inventory[it] && w' == PostHeld(w, name, it, p, q, stamp)
    ensures && w'.inventory == w.inventory[it := w.inventory[it] - q]
            && w'.market.offers == w.market.offers + [Offer(|w.market.offers| + 1, name, it, p, q as real, stamp.iso)]
            && w'.market.ledger == w.market.ledger
            && w'.budget == w.budget
            && |w'.memory| == |w.memory| + 1 && w'.memory[..|w.memory|] == w.memory
            && w'.memory[|w.memory|].importance == 3
  {
    assert w'.memory[..|w.memory|] == w.memory;
  }

  /** Well-formed posting parameters are accepted as given: a trimmed item
      name, a positive float price and a positive int quantity. */
  lemma PostTargetOf(params: map<string, RawValue>, item: string, price: real, text: string, qty: int)
    requires Trimmed(item) && item != "" && item != "null" && price > 0.0 && qty > 0
    requires Param(params, "item") == Str(item) && Param(params, "price") == Real(price, text)
    requires Param(params, "qty") == Int(qty)
    ensures PostTarget(params) == Some(PostRequest(item, price, qty))
  {
    ItemRead(params, item);
    PriceRead(params, price, text);
    QtyRead(params, qty);
    PostTargetFrom(params, item, price, qty);
  }

  lemma ItemRead(params: map<string, RawValue>, item: string)
    requires Trimmed(item) && item != "" && item != "null" && Param(params, "item") == Str(item)
    ensures SafeStr(Param(params, "item")) == Some(item)
  {
    SafeStrTrimmedText(item);
  }

  lemma PriceRead(params: map<string, RawValue>, price: real, text: string)
    requires Param(params, "price") == Real(price, text)
    ensures SafeFloat(Param(params, "price"), "price") == Ok(Some(price))
  {
  }

  lemma QtyRead(params: map<string, RawValue>, qty: int)
    requires Param(params, "qty") == Int(qty)
    ensures SafeInt(Param(params, "qty"), "qty") == Ok(Some(qty))
  {
    RoundWhole(qty);
  }

  /** Parameters that convert to an item name, a positive price and a
      positive quantity are accepted with those values. */
  lemma PostTargetFrom(params: map<string, RawValue>, item: string, price: real, qty: int)
    requires item != "" && price > 0.0 && qty > 0
    requires SafeStr(Param(params, "item")) == Some(item)
    requires SafeFloat(Param(params, "price"), "price") == Ok(Some(price))
    requires SafeInt(Param(params, "qty"), "qty") == Ok(Some(qty))
    ensures PostTarget(params) == Some(PostRequest(item, price, qty))
  {
  }

  /** The unit test's posting of `qty` Wood at 5.0. */
  lemma WoodPosting(qty: int)
    requires qty > 0
    ensures PostTarget(map["item" := Str("Wood"), "price" := Real(5.0, "5.0"), "qty" := Int(qty)])
            == Some(PostRequest("Wood", 5.0, qty))
  {
    var params := map["item" := Str("Wood"), "price" := Real(5.0, "5.0"), "qty" := Int(qty)];
    assert Param(params, "item") == Str("Wood");
    assert Param(params, "price") == Real(5.0, "5.0");
    assert Param(params, "qty") == Int(qty);
    assert Trimmed("Wood");
    PostTargetOf(params, "Wood", 5.0, "5.0", qty);
  }

  /** Holding 50 Wood, posting 10 leaves 40; then posting 50 is refused and
      the 40 remain. */
  lemma InventoryDeductionExample(s1: Stamp, s2: Stamp, market: MarketState)
    ensures var w0 := World(100.0, map["Wood" := 50], [], market);
            var w1 := PostTurn(w0, "Seller", map["item" := Str("Wood"), "price" := Real(5.0, "5.0"), "qty" := Int(10)], s1);
            var w2 := PostTurn(w1, "Seller", map["item" := Str("Wood"), "price" := Real(5.0, "5.0"), "qty" := Int(50)], s2);
            w1.inventory["Wood"] == 40 && w2 == w1
  {
    var w0 := World(100.0, map["Wood" := 50], [], market);
    var p1 := map["item" := Str("Wood"), "price" := Real(5.0, "5.0"), "qty" := Int(10)];
    var p2 := map["item" := Str("Wood"), "price" := Real(5.0, "5.0"), "qty" := Int(50)];
    WoodPosting(10);
    WoodPosting(50);
    PostSuccess(w0, "Seller", p1, s1, "Wood", 5.0, 10);
    var w1 := PostTurn(w0, "Seller", p1, s1);
    assert w1.inventory["Wood"] == 40;
    PostHeldNoChangeIff(w1, "Seller", PostRequest("Wood", 5.0, 50), s2);
  }

  // ------------------------------------------------------------- dispatch

  /** "buy" anywhere in the command, in any letter case, means a purchase,
      even when "post" appears too. */
  lemma BuyAnywhere(a: string, t: string, b: string)
    requires Lower(t) == "buy"
    ensures Classify(a + t + b) == BuyCommand
  {
    LowerConcat(a + t, b);
    LowerConcat(a, t);
    ContainsMiddle(Lower(a), "buy", Lower(b));
  }

  /** Without "buy", "post" anywhere in the command means a posting. */
  lemma PostWithoutBuy(a: string, t: string, b: string)
    requires Lower(t) == "post" && !Contains(Lower(a + t + b), "buy")
    ensures Classify(a + t + b) == PostCommand
  {
    LowerConcat(a + t, b);
    LowerConcat(a, t);
    ContainsMiddle(Lower(a), "post", Lower(b));
  }

  /** Sample commands: upper-case "BUY" buys, "post" posts, "wait" and the
      empty command wait. */
  lemma ClassifyExamples()
    ensures Classify("BUY") == BuyCommand
    ensures Classify("post") == PostCommand
    ensures Classify("wait") == WaitCommand
    ensures Classify("") == WaitCommand
  {
    ClassifyBuy();
    ClassifyPost();
    ClassifyWait();
  }

  lemma ClassifyBuy()
    ensures Classify("BUY") == BuyCommand
  {
    BuyAnywhere("", "BUY", "");
    assert "" + "BUY" + "" == "BUY";
  }

  lemma ClassifyPost()
    ensures Classify("post") == PostCommand
  {
    assert Lower("post") == "post";
    assert !Contains("post", "buy");
  }

  lemma ClassifyWait()
    ensures Classify("wait") == WaitCommand
  {
    assert Lower("wait") == "wait";
    assert !Contains("wait", "buy") && !Contains("wait", "post");
  }

  /** Dispatch, in both directions: a command means buy exactly when its
      lower-cased text contains "buy", post exactly when it contains "post"
      but not "buy", and wait otherwise. */
  lemma ClassifyIff(c: string)
    ensures Classify(c) == BuyCommand <==> Contains(Lower(c), "buy")
    ensures Classify(c) == PostCommand <==> !Contains(Lower(c), "buy") && Contains(Lower(c), "post")
    ensures Classify(c) == WaitCommand <==> !Contains(Lower(c), "buy") && !Contains(Lower(c), "post")
  {
  }

  /** A buy command runs `_handle_buy` on the parameters. */
  lemma BuyDispatch(w: World, name: string, c: string, params: map<string, RawValue>, stamp: Stamp)
    requires Contains(Lower(c), "buy")
    ensures Turn(w, name, Some(Decision(Str(c), Some(params))), stamp) == BuyTurn(w, name, params, stamp)
  {
    ClassifyIff(c);
  }

  /** A post command without "buy" in it runs `_handle_post` on the parameters. */
  lemma PostDispatch(w: World, name: string, c: string, params: map<string, RawValue>, stamp: Stamp)
    requires !Contains(Lower(c), "buy") && Contains(Lower(c), "post")
    ensures Turn(w, name, Some(Decision(Str(c), Some(params))), stamp) == PostTurn(w, name, params, stamp)
  {
    ClassifyIff(c);
  }

  /** Any other command waits, whatever the parameters are (even when they
      are not an object): one memory of importance 1, nothing else changes. */
  lemma WaitsOtherwise(w: World, name: string, c: string, params: Option<map<string, RawValue>>, stamp: Stamp)
    requires !Contains(Lower(c), "buy") && !Contains(Lower(c), "post")
    ensures Turn(w, name, Some(Decision(Str(c), params)), stamp)
            == w.(memory := w.memory + [MemoryEntry(WaitNote, 1, stamp.seconds, map[])])
  {
    ClassifyIff(c);
  }

  /** When the model cannot be reached the agent waits: one memory of
      importance 1, nothing else changes. */
  lemma FallbackWaits(w: World, name: string, stamp: Stamp)
    ensures var w' := Turn(w, name, Some(WaitFallback), stamp);
            && w'.budget == w.budget && w'.inventory == w.inventory && w'.market == w.market
            && w'.memory == w.memory + [MemoryEntry(WaitNote, 1, stamp.seconds, map[])]
  {
    ClassifyWait();
  }

  // -------------------------------------------------------- any one turn

  /** What a turn may do to the world it starts from: remember at most one
      thing, change nothing at all if it remembers nothing, and only add to
      the ledger, at most one trade. */
  predicate Footprint(w: World, w': World) {
    && (w'.memory == w.memory ==> w' == w)
    && (w'.memory == w.memory || (|w'.memory| == |w.memory| + 1 && w'.memory[..|w.memory|] == w.memory))
    && w.market.ledger <= w'.market.ledger
    && |w'.market.ledger| <= |w.market.ledger| + 1
  }

  /** Every turn stays within that footprint. */
  lemma TurnFootprint(w: World, name: string, decision: Option<Decision>, stamp: Stamp)
    ensures Footprint(w, Turn(w, name, decision, stamp))
  {
    if decision.Some? && decision.value.command.Str? && decision.value.params.Some? {
      var params := decision.value.params.value;
      match Classify(decision.value.command.s)
      case BuyCommand => BuyFootprint(w, name, params, stamp);
      case PostCommand => PostFootprint(w, name, params, stamp);
      case WaitCommand => WaitFootprint(w, stamp);
    } else if decision.Some? && decision.value.command.Str? && Classify(decision.value.command.s) == WaitCommand {
      WaitFootprint(w, stamp);
    }
  }

  lemma WaitFootprint(w: World, stamp: Stamp)
    ensures Footprint(w, WaitTurn(w, stamp))
  {
    var w' := WaitTurn(w, stamp);
    assert w'.memory[..|w.memory|] == w.memory;
  }

  lemma BuyFootprint(w: World, name: string, params: map<string, RawValue>, stamp: Stamp)
    ensures Footprint(w, BuyTurn(w, name, params, stamp))
  {
    if BuyTarget(params).Some? {
      var id := BuyTarget(params).value;
      match FirstOffer(w.market.offers, id)
      case None =>
        BuyFailure(w, name, params, stamp);
        var w' := BuyTurn(w, name, params, stamp);
        assert w'.memory[..|w.memory|] == w.memory;
      case Some(i) =>
        BuySuccess(w, name, params, stamp, i);
    }
  }

  lemma PostFootprint(w: World, name: string, params: map<string, RawValue>, stamp: Stamp)
    ensures Footprint(w, PostTurn(w, name, params, stamp))
  {
    match PostTarget(params)
    case None =>
    case Some(PostRequest(it, p, q)) =>
      if it in w.inventory && q <= w.inventory[it] {
        PostSuccess(w, name, params, stamp, it, p, q);
      }
  }

  /** No negative holdings: every inventory count and every quantity on
      the board is at least zero. */
  predicate Healthy(w: World) {
    && (forall item :: item in w.inventory ==> w.inventory[item] >= 0)
    && (forall k :: 0 <= k < |w.market.offers| ==> w.market.offers[k].quantity >= 0.0)
  }

  /** Every turn keeps holdings non-negative. */
  lemma TurnKeepsHealthy(w: World, name: string, decision: Option<Decision>, stamp: Stamp)
    requires Healthy(w)
    ensures Healthy(Turn(w, name, decision, stamp))
  {
    if decision.Some? && decision.value.command.Str? && decision.value.params.Some? {
      var params := decision.value.params.value;
      match Classify(decision.value.command.s)
      case BuyCommand => BuyKeepsHealthy(w, name, params, stamp);
      case PostCommand => PostKeepsHealthy(w, name, params, stamp);
      case WaitCommand =>
    }
  }

  lemma PostKeepsHealthy(w: World, name: string, params: map<string, RawValue>, stamp: Stamp)
    requires Healthy(w)
    ensures Healthy(PostTurn(w, name, params, stamp))
  {
    match PostTarget(params)
    case None =>
    case Some(PostRequest(it, p, q)) => PostedKeepsHealthy(w, name, it, p, q, stamp);
  }

  /** Posting a positive quantity no larger than the holding keeps holdings
      non-negative. */
  lemma PostedKeepsHealthy(w: World, name: string, it: string, p: real, q: int, stamp: Stamp)
    requires Healthy(w) && q > 0
    ensures Healthy(PostHeld(w, name, it, p, q, stamp))
  {
    if it in w.inventory && q <= w.inventory[it] {
      var offers' := PostHeld(w, name, it, p, q, stamp).market.offers;
      forall k | 0 <= k < |offers'| ensures offers'[k].quantity >= 0.0 {
        if k < |w.market.offers| {
          assert offers'[k] == w.market.offers[k];
        }
      }
    }
  }

  lemma BuyKeepsHealthy(w: World, name: string, params: map<string, RawValue>, stamp: Stamp)
    requires Healthy(w)
    ensures Healthy(BuyTurn(w, name, params, stamp))
  {
    if BuyTarget(params).Some? {
      BuyByIdKeepsHealthy(w, name, BuyTarget(params).value, stamp);
    }
  }

  lemma BuyByIdKeepsHealthy(w: World, name: string, id: int, stamp: Stamp)
    requires Healthy(w)
    ensures Healthy(BuyById(w, name, id, stamp))
  {
    match FirstOffer(w.market.offers, id)
    case None =>
      BuyByIdFails(w, name, id, stamp);
    case Some(i) =>
      var s := w.market.offers;
      var t := TradeFor(s[i], name, stamp.iso);
      var m' := MarketState(s[..i] + s[i + 1..], w.market.ledger + [t]);
      BuyByIdTrades(w, name, id, stamp, i);
      forall k | 0 <= k < |m'.offers| ensures m'.offers[k].quantity >= 0.0 {
        if k < i { assert m'.offers[k] == s[k]; } else { assert m'.offers[k] == s[k + 1]; }
      }
      BoughtKeepsHealthy(w.(market := m'), t, stamp);
  }

  /** Receiving a non-negative quantity keeps holdings non-negative. */
  lemma BoughtKeepsHealthy(w: World, t: Trade, stamp: Stamp)
    requires Healthy(w) && t.quantity >= 0.0
    ensures Healthy(Bought(w, t, stamp))
  {
  }

  // ------------------------------------------------------------- stock

  /** Units of `item` on the board, as the offers state them. */
  function OnBoard(offers: seq<Offer>, item: string): real {
    if offers == [] then 0.0 else Units(offers[0], item) + OnBoard(offers[1..], item)
  }

  function Units(o: Offer, item: string): real {
    if o.item == item then o.quantity else 0.0
  }

  /** The part of offer `o` a buyer of `item` pays for nowhere and receives
      nowhere: the fraction `int(quantity)` drops. */
  function Lost(o: Offer, item: string): real {
    if o.item == item then o.quantity - TruncToInt(o.quantity) as real else 0.0
  }

  /** The agent's stock of `item`: what it holds plus what is on the board. */
  function Stock(w: World, item: string): real {
    Held(w.inventory, item) as real + OnBoard(w.market.offers, item)
  }

  /** Every quantity on the board is a whole number. */
  predicate WholeBoard(offers: seq<Offer>) {
    forall k :: 0 <= k < |offers| ==> Whole(offers[k].quantity)
  }

  lemma {:induction false} OnBoardConcat(a: seq<Offer>, b: seq<Offer>, item: string)
    ensures OnBoard(a + b, item) == OnBoard(a, item) + OnBoard(b, item)
  {
    if a != [] {
      assert (a + b)[1..] == a[1..] + b;
      OnBoardConcat(a[1..], b, item);
    } else {
      assert a + b == b;
    }
  }

  lemma OnBoardSingle(o: Offer, item: string)
    ensures OnBoard([o], item) == Units(o, item)
  {
    assert [o][1..] == [];
  }

  /** Taking offer `i` off the board removes exactly its units. */
  lemma OnBoardWithout(s: seq<Offer>, i: nat, item: string)
    requires i < |s|
    ensures OnBoard(s[..i] + s[i + 1..], item) + Units(s[i], item) == OnBoard(s, item)
  {
    assert s == s[..i] + [s[i]] + s[i + 1..];
    OnBoardConcat(s[..i] + [s[i]], s[i + 1..], item);
    OnBoardConcat(s[..i], [s[i]], item);
    OnBoardConcat(s[..i], s[i + 1..], item);
    OnBoardSingle(s[i], item);
  }

  /** A purchase adds the trade's `int(quantity)` units to the holdings and
      leaves the board alone. */
  lemma BoughtStock(w: World, t: Trade, stamp: Stamp, item: string)
    ensures Stock(Bought(w, t, stamp), item)
            == Stock(w, item) + (if t.item == item then TruncToInt(t.quantity) as real else 0.0)
  {
  }

  /** Buying a known offer id: nothing moves when no offer carries it;
      otherwise the units of the first offer carrying it move from the board
      to the inventory, except the fraction `int(quantity)` drops, which is
      gone. */
  lemma BuyByIdStock(w: World, name: string, id: int, stamp: Stamp, item: string)
    ensures FirstOffer(w.market.offers, id).None? ==> Stock(BuyById(w, name, id, stamp), item) == Stock(w, item)
    ensures FirstOffer(w.market.offers, id).Some? ==>
              Stock(BuyById(w, name, id, stamp), item)
              == Stock(w, item) - Lost(w.market.offers[FirstOffer(w.market.offers, id).value], item)
  {
    match FirstOffer(w.market.offers, id)
    case None =>
      BuyByIdFails(w, name, id, stamp);
    case Some(i) =>
      var s := w.market.offers;
      var t := TradeFor(s[i], name, stamp.iso);
      var m' := MarketState(s[..i] + s[i + 1..], w.market.ledger + [t]);
      BuyByIdTrades(w, name, id, stamp, i);
      OnBoardWithout(s, i, item);
      BoughtStock(w.(market := m'), t, stamp, item);
  }

  /** A whole quantity loses nothing to `int()`. */
  lemma LostWhole(o: Offer, item: string)
    requires Whole(o.quantity)
    ensures Lost(o, item) == 0.0
  {
    TruncWhole(o.quantity);
  }

  /** The fraction is really lost: buying the only offer, 10.7 Wood, leaves
      the agent with 10 Wood and 0.7 less Wood in stock than before. */
  lemma FractionLost(inventory: map<string, int>, t0: Timestamp, stamp: Stamp)
    requires "Wood" !in inventory
    ensures var w := World(100.0, inventory, [], MarketState([Offer(1, "S", "Wood", 1.0, 10.7, t0)], []));
            var w' := BuyById(w, "B", 1, stamp);
            && w'.inventory["Wood"] == 10 && w'.market.offers == []
            && Stock(w', "Wood") == Stock(w, "Wood") - 0.7
  {
    var w := World(100.0, inventory, [], MarketState([Offer(1, "S", "Wood", 1.0, 10.7, t0)], []));
    assert FirstOffer(w.market.offers, 1) == Some(0);
    assert TruncToInt(10.7) == 10;
    BuyByIdStock(w, "B", 1, stamp, "Wood");
    BuyByIdTrades(w, "B", 1, stamp, 0);
  }

  /** On a board of whole quantities a purchase creates and destroys no units. */
  lemma BuyByIdConservesStock(w: World, name: string, id: int, stamp: Stamp, item: string)
    requires WholeBoard(w.market.offers)
    ensures Stock(BuyById(w, name, id, stamp), item) == Stock(w, item)
  {
    BuyByIdStock(w, name, id, stamp, item);
    if FirstOffer(w.market.offers, id).Some? {
      LostWhole(w.market.offers[FirstOffer(w.market.offers, id).value], item);
    }
  }

  lemma BuyConservesStock(w: World, name: string, params: map<string, RawValue>, stamp: Stamp, item: string)
    requires WholeBoard(w.market.offers)
    ensures Stock(BuyTurn(w, name, params, stamp), item) == Stock(w, item)
  {
    if BuyTarget(params).Some? {
      BuyByIdConservesStock(w, name, BuyTarget(params).value, stamp, item);
    }
  }

  /** A posting moves its units from the inventory to the board. */
  lemma PostedStock(w: World, name: string, it: string, p: real, q: int, stamp: Stamp, item: string)
    ensures Stock(PostHeld(w, name, it, p, q, stamp), item) == Stock(w, item)
  {
    if it in w.inventory && q <= w.inventory[it] {
      var o := Offer(|w.market.offers| + 1, name, it, p, q as real, stamp.iso);
      OnBoardConcat(w.market.offers, [o], item);
      OnBoardSingle(o, item);
    }
  }

  lemma PostConservesStock(w: World, name: string, params: map<string, RawValue>, stamp: Stamp, item: string)
    ensures Stock(PostTurn(w, name, params, stamp), item) == Stock(w, item)
  {
    match PostTarget(params)
    case None =>
    case Some(PostRequest(it, p, q)) => PostedStock(w, name, it, p, q, stamp, item);
  }

  /** On a board of whole quantities no turn creates or destroys units:
      buying moves them from the board to the inventory, posting moves them
      back. */
  lemma TurnConservesStock(w: World, name: string, decision: Option<Decision>, stamp: Stamp, item: string)
    requires WholeBoard(w.market.offers)
    ensures Stock(Turn(w, name, decision, stamp), item) == Stock(w, item)
  {
    if decision.Some? && decision.value.command.Str? && decision.value.params.Some? {
      var params := decision.value.params.value;
      match Classify(decision.value.command.s)
      case BuyCommand => BuyConservesStock(w, name, params, stamp, item);
      case PostCommand => PostConservesStock(w, name, params, stamp, item);
      case WaitCommand =>
    }
  }

  /** The board stays whole: an agent only ever posts a whole number of
      units, and a purchase only removes an offer. */
  lemma TurnKeepsWholeBoard(w: World, name: string, decision: Option<Decision>, stamp: Stamp)
    requires WholeBoard(w.market.offers)
    ensures WholeBoard(Turn(w, name, decision, stamp).market.offers)
  {
    if decision.Some? && decision.value.command.Str? && decision.value.params.Some? {
      var params := decision.value.params.value;
      match Classify(decision.value.command.s)
      case BuyCommand =>
        if BuyTarget(params).Some? {
          BuyByIdKeepsWholeBoard(w, name, BuyTarget(params).value, stamp);
        }
      case PostCommand =>
        match PostTarget(params) {
          case None =>
          case Some(PostRequest(it, p, q)) => PostedKeepsWholeBoard(w, name, it, p, q, stamp);
        }
      case WaitCommand =>
    }
  }

  lemma BuyByIdKeepsWholeBoard(w: World, name: string, id: int, stamp: Stamp)
    requires WholeBoard(w.market.offers)
    ensures WholeBoard(BuyById(w, name, id, stamp).market.offers)
  {
    match FirstOffer(w.market.offers, id)
    case None =>
      BuyByIdFails(w, name, id, stamp);
    case Some(i) =>
      var s := w.market.offers;
      var rest := s[..i] + s[i + 1..];
      BuyByIdTrades(w, name, id, stamp, i);
      forall k | 0 <= k < |rest| ensures Whole(rest[k].quantity) {
        if k < i { assert rest[k] == s[k]; } else { assert rest[k] == s[k + 1]; }
      }
  }

  lemma PostedKeepsWholeBoard(w: World, name: string, it: string, p: real, q: int, stamp: Stamp)
    requires WholeBoard(w.market.offers)
    ensures WholeBoard(PostHeld(w, name, it, p, q, stamp).market.offers)
  {
    if it in w.inventory && q <= w.inventory[it] {
      var offers' := PostHeld(w, name, it, p, q, stamp).market.offers;
      forall k | 0 <= k < |offers'| ensures Whole(offers'[k].quantity) {
        if k < |w.market.offers| {
          assert offers'[k] == w.market.offers[k];
        } else {
          assert offers'[k].quantity == q as real;
        }
      }
    }
  }
}
