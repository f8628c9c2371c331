/**
 * The trading agent of agents/agent.py: one turn reads the decision the
 * language model produced, dispatches on its command, validates the
 * parameters, calls the market and only then updates the agent's budget,
 * inventory and memory.
 *
 * `World` is a snapshot of everything one agent's turn can touch; `Turn`
 * and the three handlers on it say what a turn does, and the class
 * `TradingAgent` is proved to follow them.
 */
module Agent {
  import opened Wrappers
  import opened Text
  import opened Numerals
  import opened Coercion
  import opened Market
  import opened Memory

  /** The clock readings of one turn: the ISO text the market stamps on an
      offer or trade, and the `time.time()` seconds a memory entry keeps. */
  datatype Stamp = Stamp(iso: Timestamp, seconds: real)

  /** The decision object decoded from the model's JSON reply: its
      `command` (the empty string when the key is missing) and its `params`
      (`None` when they are not a JSON object). */
  datatype Decision = Decision(command: RawValue, params: Option<map<string, RawValue>>)

  /** The decision substituted when the language-model call fails. */
  const WaitFallback: Decision := Decision(Str("wait"), Some(map[]))

  /** `params.get(key)`: a missing key reads as None. */
  function Param(params: map<string, RawValue>, key: string): RawValue {
    if key in params then params[key] else Null
  }

  /** `inventory.get(item, 0)`. */
  function Held(inventory: map<string, int>, item: string): int {
    if item in inventory then inventory[item] else 0
  }

  /** Everything one agent's turn can read or change. */
  datatype World = World(budget: real, inventory: map<string, int>,
                         memory: seq<MemoryEntry>, market: MarketState)

  // ---------------------------------------------------------- dispatch

  datatype Command = BuyCommand | PostCommand | WaitCommand

  /** The lower-cased command is searched for "buy" first, then "post";
      anything else means wait. */
  function Classify(command: string): Command {
    var c := Lower(command);
    if Contains(c, "buy") then BuyCommand
    else if Contains(c, "post") then PostCommand
    else WaitCommand
  }

  // ------------------------------------------------------- memory texts

  function BoughtNote(qty: int, item: string, seller: string, cost: real, budget: real): string {
    "Bought " + IntToString(qty) + " " + item + " from " + seller + " for $" + FormatFixed2(cost)
      + ". Budget is now $" + FormatFixed2(budget) + "."
  }

  function FailedBuyNote(offerId: int, message: string): string {
    "Attempted to buy offer " + IntToString(offerId) + " but failed: " + message
  }

  function PostedNote(qty: int, item: string, price: real): string {
    "Posted an offer to sell " + IntToString(qty) + " " + item + " for $" + FormatFixed2(price) + " each."
  }

  const WaitNote: string := "Decided to observe the market and wait."

  function TradeMetadata(seller: string): map<string, string> {
    map["partner" := seller, "type" := "trade_success"]
  }

  // ------------------------------------------------------------ handlers

  /** The buy parameters that stop `_handle_buy` before it calls the market:
      either id or quantity fails to convert, or no offer id is given. */
  predicate BuyRejected(params: map<string, RawValue>) {
    || SafeInt(Param(params, "offer_id"), "offer_id").Err?
    || SafeInt(Param(params, "quantity"), "quantity").Err?
    || SafeInt(Param(params, "offer_id"), "offer_id") == Ok(None)
  }

  /** The bookkeeping after a successful trade `t`: pay `price * int(quantity)`
      (with no floor on the budget), add the units to the inventory and
      remember the purchase with importance 7. */
  function Bought(w: World, t: Trade, stamp: Stamp): World {
    var qty := TruncToInt(t.quantity);
    var note := MemoryEntry(PurchaseNote(t, w.budget), 7, stamp.seconds, TradeMetadata(t.seller));
    World(w.budget - PurchaseCost(t), AddUnits(w.inventory, t.item, qty), w.memory + [note], w.market)
  }

  /** `inventory[item] = inventory.get(item, 0) + n`. */
  function AddUnits(inventory: map<string, int>, item: string, n: int): map<string, int> {
    inventory[item := Held(inventory, item) + n]
  }

  /** `price * int(quantity)` for a trade. */
  function PurchaseCost(t: Trade): real {
    t.price * TruncToInt(t.quantity) as real
  }

  /** The text remembered after trade `t`, given the budget before paying. */
  function PurchaseNote(t: Trade, budgetBefore: real): string {
    BoughtNote(TruncToInt(t.quantity), t.item, t.seller, PurchaseCost(t), budgetBefore - PurchaseCost(t))
  }

  /** The bookkeeping after a failed trade: remember it with importance 4. */
  function FailedBuy(w: World, offerId: int, message: string, stamp: Stamp): World {
    w.(memory := w.memory + [MemoryEntry(FailedBuyNote(offerId, message), 4, stamp.seconds, map[])])
  }

  /** The offer id `_handle_buy` goes on to buy, or None when it stops
      before calling the market. */
  function BuyTarget(params: map<string, RawValue>): (r: Option<int>)
    ensures r.None? <==> BuyRejected(params)
    ensures r.Some? ==> SafeInt(Param(params, "offer_id"), "offer_id") == Ok(Some(r.value))
  {
    if BuyRejected(params) then None
    else Some(SafeInt(Param(params, "offer_id"), "offer_id").value.value)
  }

  /** `_handle_buy(params)`. */
  function BuyTurn(w: World, name: string, params: map<string, RawValue>, stamp: Stamp): World {
    match BuyTarget(params)
    case None => w
    case Some(id) => BuyById(w, name, id, stamp)
  }

  /** The rest of `_handle_buy` once the offer id is known: ask the market
      for the trade, then do the bookkeeping for its outcome. */
  function BuyById(w: World, name: string, id: int, stamp: Stamp): World {
    var (market, result) := Execute(w.market, name, id, stamp.iso);
    match result
    case Success(t) => Bought(w.(market := market), t, stamp)
    case Error(message) => FailedBuy(w.(market := market), id, message, stamp)
  }

  /** The checks `_handle_post` makes of the converted parameters: an item
      name that is not empty, a positive price and a positive quantity. */
  predicate PostParamsValid(item: Option<string>, price: Option<real>, qty: Option<int>) {
    && item.Some? && item.value != ""
    && price.Some? && price.value > 0.0
    && qty.Some? && qty.value > 0
  }

  /** An offer `_handle_post` has accepted the parameters of. */
  datatype PostRequest = PostRequest(item: string, price: real, qty: int)

  /** The converted parameters of `_handle_post`, or None when a conversion
      fails or a check on the converted values does. */
  function PostTarget(params: map<string, RawValue>): (r: Option<PostRequest>)
    ensures var item := SafeStr(Param(params, "item"));
            var price := SafeFloat(Param(params, "price"), "price");
            var qty := SafeInt(Param(params, "qty"), "qty");
            && (r.Some? <==> price.Ok? && qty.Ok? && PostParamsValid(item, price.value, qty.value))
            && (r.Some? ==> item == Some(r.value.item) && price == Ok(Some(r.value.price))
                            && qty == Ok(Some(r.value.qty)))
    ensures r.Some? ==> r.value.item != "" && r.value.price > 0.0 && r.value.qty > 0
  {
    var item := SafeStr(Param(params, "item"));
    var price := SafeFloat(Param(params, "price"), "price");
    var qty := SafeInt(Param(params, "qty"), "qty");
    if price.Err? || qty.Err? then None
    else if !PostParamsValid(item, price.value, qty.value) then None
    else Some(PostRequest(item.value, price.value.value, qty.value.value))
  }

  /** `_handle_post(params)`. */
  function PostTurn(w: World, name: string, params: map<string, RawValue>, stamp: Stamp): World {
    match PostTarget(params)
    case None => w
    case Some(req) => PostHeld(w, name, req.item, req.price, req.qty, stamp)
  }

  /** The rest of `_handle_post` once the parameters are valid: refuse an
      item not held or more units than held, otherwise post the offer, take
      the units out of the inventory and remember it with importance 3. */
  function PostHeld(w: World, name: string, item: string, price: real, qty: int, stamp: Stamp): World {
    if item !in w.inventory then w
    else if qty > w.inventory[item] then w
    else
      var note := MemoryEntry(PostedNote(qty, item, price), 3, stamp.seconds, map[]);
      World(w.budget, AddUnits(w.inventory, item, -qty), w.memory + [note],
            Post(w.market, name, item, price, qty as real, stamp.iso))
  }

  /** The wait branch of `step`. */
  function WaitTurn(w: World, stamp: Stamp): World {
    w.(memory := w.memory + [MemoryEntry(WaitNote, 1, stamp.seconds, map[])])
  }

  /** `step()` after the decision has been produced: `None` stands for a
      reply that is not a JSON object; a command that is not a string, or
      buy/post parameters that are not an object, end the turn in the
      catch-all exception handler. */
  function Turn(w: World, name: string, decision: Option<Decision>, stamp: Stamp): World {
    match decision
    case None => w
    case Some(Decision(command, params)) =>
      if !command.Str? then w
      else
        match Classify(command.s)
        case BuyCommand => if params.None? then w else BuyTurn(w, name, params.value, stamp)
        case PostCommand => if params.None? then w else PostTurn(w, name, params.value, stamp)
        case WaitCommand => WaitTurn(w, stamp)
  }

  // ---------------------------------------------------------- the object

  class TradingAgent {
    const name: string
    const role: string
    var budget: real
    var inventory: map<string, int>
    const market: MarketWorld
    const memory: MemoryStream

    function Snapshot(): World
      reads this, market, memory
    {
      World(budget, inventory, memory.entries, market.State())
    }

    /** A new agent: empty inventory, empty memory fading at 0.99. */
    constructor (name: string, roleDescription: string, budget: real, market: MarketWorld)
      ensures this.name == name && role == roleDescription && this.market == market
      ensures this.budget == budget && inventory == map[]
      ensures fresh(memory) && memory.entries == [] && memory.decayFactor == 0.99
    {
      this.name := name;
      role := roleDescription;
      this.budget := budget;
      inventory := map[];
      this.market := market;
      memory := new MemoryStream(0.99);
    }

    /** What `perceive_and_act` gathers before asking the model: the open
        offers and the two best memories (no partner asked for). */
    method Perceive(recency: real -> real) returns (offers: seq<Offer>, recentMemories: seq<string>)
      ensures offers == market.State().offers
      ensures recentMemories == Retrieve(memory.entries, None, 2, recency)
    {
      offers := market.GetMarketState();
      recentMemories := memory.RetrieveRelevantMemories("current_market", None, 2, recency);
    }

    method HandleBuy(params: map<string, RawValue>, stamp: Stamp)
      modifies this, market, memory
      ensures Snapshot() == BuyTurn(old(Snapshot()), name, params, stamp)
    {
      var offerId := SafeInt(Param(params, "offer_id"), "offer_id");
      var quantity := SafeInt(Param(params, "quantity"), "quantity");
      if offerId.Err? || quantity.Err? {
        return;
      }
      if offerId.value.None? {
        return;
      }
      BuyOffer(offerId.value.value, stamp);
    }

    /** The market call of `_handle_buy` and the bookkeeping after it. */
    method BuyOffer(id: int, stamp: Stamp)
      modifies this, market, memory
      ensures Snapshot() == BuyById(old(Snapshot()), name, id, stamp)
    {
      var result := market.ExecuteTrade(name, id, stamp.iso);
      match result
      case Success(t) =>
        RecordPurchase(t, stamp);
      case Error(message) =>
        memory.AddMemory(FailedBuyNote(id, message), 4, None, stamp.seconds);
    }

    /** The success branch of `_handle_buy`. */
    method RecordPurchase(t: Trade, stamp: Stamp)
      modifies this, memory
      ensures Snapshot() == Bought(old(Snapshot()), t, stamp)
    {
      var qty := TruncToInt(t.quantity);
      var totalCost := PurchaseCost(t);
      var note := PurchaseNote(t, budget);
      budget := budget - totalCost;
      inventory := AddUnits(inventory, t.item, qty);
      memory.AddMemory(note, 7, Some(TradeMetadata(t.seller)), stamp.seconds);
    }

    method HandlePost(params: map<string, RawValue>, stamp: Stamp)
      modifies this, market, memory
      ensures Snapshot() == PostTurn(old(Snapshot()), name, params, stamp)
    {
      var item := SafeStr(Param(params, "item"));
      var price := SafeFloat(Param(params, "price"), "price");
      var qty := SafeInt(Param(params, "qty"), "qty");
      if price.Err? || qty.Err? {
        return;
      }
      if !PostParamsValid(item, price.value, qty.value) {
        return;
      }
      PostIfHeld(item.value, price.value.value, qty.value.value, stamp);
    }

    /** The inventory check of `_handle_post`, then the posting. */
    method PostIfHeld(it: string, p: real, q: int, stamp: Stamp)
      modifies this, market, memory
      ensures Snapshot() == PostHeld(old(Snapshot()), name, it, p, q, stamp)
    {
      if it !in inventory {
        return;
      }
      var available := Held(inventory, it);
      if q > available {
        return;
      }
      var offerId := market.PostOffer(name, it, p, q as real, stamp.iso);
      inventory := AddUnits(inventory, it, -q);
      memory.AddMemory(PostedNote(q, it, p), 3, None, stamp.seconds);
    }

    method Step(decision: Option<Decision>, stamp: Stamp)
      modifies this, market, memory
      ensures Snapshot() == Turn(old(Snapshot()), name, decision, stamp)
    {
      if decision.None? {
        return;
      }
      var d := decision.value;
      if !d.command.Str? {
        return;
      }
      var command := Lower(d.command.s);
      if Contains(command, "buy") {
        if d.params.Some? {
          HandleBuy(d.params.value, stamp);
        }
      } else if Contains(command, "post") {
        if d.params.Some? {
          HandlePost(d.params.value, stamp);
        }
      } else {
        memory.AddMemory(WaitNote, 1, None, stamp.seconds);
      }
    }
  }
}
