# Marketplace simulation: market board, trading agent and memory stream

This project models the core of a multi-agent marketplace simulation in
Dafny and proves properties of that model. In the simulation, language-model
agents trade goods on a shared bulletin board. It covers three pieces:

- **The market** (core/market.py). A list of open sell offers and a ledger of
  completed trades. `post_offer` appends an offer numbered one past the
  number of open offers. `execute_trade` takes the first open offer carrying
  the requested id, records a trade copied from it and removes it from the
  board. The pure functions `Market.Post` and `Market.Execute` on a
  `MarketState` say what one call does. The class `Market.MarketWorld` keeps
  the two lists in fields, and each of its methods is proved to follow those
  functions.
- **The trading agent** (agents/agent.py).
  - The coercion helpers `_safe_float`, `_safe_int` and `_safe_str` turn
    loosely typed parameters into "absent", a value, or a described failure.
    They are pure functions in module `Coercion`. Python's `float()` on text,
    `round()` (ties to even), `int()` on a float (truncation) and `:.2f`
    formatting are modelled in `Numerals`. `str.strip`, `str.lower`, substring
    search and `str(int)` are modelled in `Text`.
  - One turn of `step` dispatches on the lower-cased command. It then runs
    `_handle_buy`, `_handle_post` or the wait branch. The function
    `Agent.Turn` states this as a function on a `World` snapshot: the budget,
    the inventory, the memory entries and the market.
  - The class `Agent.TradingAgent` holds those fields. Its methods are proved
    to follow `Turn` and its parts.
- **The memory stream** (agents/memory.py).
  - Entries are appended as events happen.
  - Retrieval scores every entry as recency + importance / 10 + partner
    relevance. It stable-sorts the entries by descending score and returns
    the contents of the first `limit` entries.
  - `Memory.Retrieve` specifies retrieval. The class `Memory.MemoryStream`
    computes it with a loop and is proved to agree.

The properties proved include:

- Exact "what changes and what does not" statements for every market and
  agent operation.
- The error paths: an unknown offer id, parameters that fail to convert,
  invalid or unheld postings.
- Ledger append-only over any run of calls.
- Sequential ids from an empty board under posts alone, and a concrete case
  of id reuse.
- `_safe_int` as `_safe_float` followed by rounding to the nearest integer,
  ties to even.
- Coercion error messages naming the parameter, the raw value and its type.
- Two invariants of every agent turn: no negative holdings, and a board on
  which every offered quantity is a whole number. While the board is whole,
  no turn creates or destroys units: held plus offered stays the same for
  every item, counted as exact quantities. An offer with a fractional
  quantity, posted through the market directly, loses exactly its fraction
  when it is bought (`AgentProperties.BuyByIdStock`,
  `AgentProperties.FractionLost`).
- The memory ranking: its length, its order, that ties keep insertion order,
  and that nothing left out outranks anything returned.

Clock readings (`datetime.now()`, `time.time()`) are parameters: a `Stamp`
per turn and a `now` per memory entry. The recency weight
`decay_factor ** hours_passed` is a parameter `recency: real -> real`
applied to the entry's timestamp. The decision that the language model
returns is an input: `Option<Decision>`, where `None` stands for a reply
that is not a JSON object. That covers text that does not parse, and also
valid JSON that is not an object, such as `[]`, `null` or `"buy"`: there
`decision.get` raises, the catch-all handler takes it, and nothing changes.

Where the documentation or the unit tests and the code disagree, the model
follows the code:

- Offer ids are `len(active_offers) + 1`, not a counter. They can repeat once
  a trade has removed an earlier offer (`Market.IdReuse`).
- `post_offer` stores the quantity exactly as passed. The unit test in
  tests/test_type_safety.py:25-30 expects 10.7 to be stored as 11, but
  core/market.py:29 does no rounding (`Market.PostAppends`).
- `_handle_buy` converts the requested `quantity` but never uses it. The whole
  offer is bought (`AgentProperties.BuyIgnoresQuantity`).
- A purchase charges the buyer and does not pay the seller. There is no
  budget check, so the budget can go negative
  (`AgentProperties.OverspendScenario`).
- `get_market_state` hands out the board list itself, not a copy.

## Model

| member | source | states |
|---|---|---|
| Market.FirstOffer | core/market.py:38 | finds the first open offer with the id: that offer has the id, no earlier one does, and None means no offer at all has it |
| Market.RemoveFirst | core/market.py:58 | `list.remove` shortens the list by exactly one |
| Market.RemoveFirstAt | core/market.py:58 | removing the element at `i`, when no earlier element equals it, removes exactly position `i` |
| Market.NewOffer | core/market.py:24-31 | the offer `post_offer` builds, numbered open count + 1; described by `Market.PostAppends` |
| Market.Post | core/market.py:22-34 | what `post_offer` does to the market; described by `Market.PostAppends`, `Market.PostKeepsIdsSequential` and `Market.MarketWorld.PostOffer` |
| Market.TradeFor | core/market.py:44-51 | the ledger row copied from an offer; described by `Market.ExecuteSuccess` |
| Market.Execute | core/market.py:36-61 | what `execute_trade` does and answers; described by `Market.ExecuteNotFound`, `Market.ExecuteSucceedsIff`, `Market.ExecuteSuccess` and `Market.ExecuteRemovesOne` |
| Market.MarketWorld.constructor | core/market.py:7-20 | a new market has no offers and an empty ledger |
| Market.MarketWorld.PostOffer | core/market.py:22-34 | the new state is `Post` of the old one, and the returned id is the old open count + 1, which is the id of the last offer |
| Market.MarketWorld.FindOffer | core/market.py:38 | the loop returns exactly the first index whose offer carries the id, or None |
| Market.MarketWorld.ExecuteTrade | core/market.py:36-61 | the new state and the answer are `Execute` of the old state |
| Market.MarketWorld.GetMarketState | core/market.py:63-65 | returns the current open offers and changes nothing |
| Market.PostAppends | core/market.py:22-34 | posting appends exactly one offer, numbered old count + 1, that stores seller, item, price and quantity as passed; earlier offers and the ledger are unchanged |
| Market.ExecuteNotFound | core/market.py:38-41 | an id no open offer carries gives the "Offer not found" error, changes nothing, and a repeated call gives the same answer |
| Market.ExecuteSucceedsIff | core/market.py:38-41 | a trade succeeds if and only if some open offer carries the id |
| Market.ExecuteSuccess | core/market.py:44-61 | on the first offer `i` with the id: the ledger gains one row copying seller, item, price and quantity with the caller as buyer; the answer carries that row; the board loses offer `i` only |
| Market.ExecuteRemovesOne | core/market.py:38-58 | a successful trade shrinks the board by one, keeps the other offers in order (same multiset minus the traded offer) and grows the ledger by one |
| Market.SplitMultiset | core/market.py:58 | cutting out one position removes exactly that element from the multiset |
| Market.PostKeepsIdsSequential | core/market.py:25 | posting keeps the board numbered 1..n |
| Market.PostsKeepIdsSequential | core/market.py:25 | any run of posts with no trade keeps the board numbered 1..n |
| Market.TradedIdGone | core/market.py:38-58 | when open ids are distinct, a traded id is gone from the board |
| Market.IdReuse | core/market.py:25-58 | after post, post, sell 1, post, id 2 is carried by two open offers, and selling id 2 takes the earlier one |
| Market.RunLedgerAppendOnly | core/market.py:54 | over any run of posts and trades, the old ledger is a prefix of the new one, and open offers plus ledger rows grow by exactly the number of posts |
| Memory.MetadataOrEmpty | agents/memory.py:9 | missing metadata becomes the empty map; given metadata is kept (a bare conditional, stated as such; the entry it builds is described by `Memory.MemoryStream.AddMemory`) |
| Memory.Relevance | agents/memory.py:38-40 | 1.0 for an entry whose `partner` metadata is the non-empty partner asked for, else 0; described by `Memory.ScoreAll` and `Memory.RetrieveKeepsBest` |
| Memory.Score | agents/memory.py:29-43 | recency + importance / 10 + relevance; described by `Memory.ScoreAll`, `Memory.RetrieveOrdered` and `Memory.RetrieveKeepsBest` |
| Memory.ScoreAll | agents/memory.py:26-45 | one score per entry, in entry order, each recency + importance / 10 + relevance |
| Memory.InsertPos | agents/memory.py:47 | the insertion point follows every higher score and precedes every score not higher |
| Memory.InsertMultiset | agents/memory.py:47 | insertion adds exactly the inserted element |
| Memory.InsertNonIncreasing | agents/memory.py:47 | insertion keeps a descending list descending |
| Memory.InsertStrictlyRanked | agents/memory.py:47 | inserting an element with a smaller index than all others keeps a list strictly ranked (by score, ties by index) |
| Memory.SortDesc | agents/memory.py:47 | the sort result is a permutation of its input in non-increasing score order |
| Memory.SortDescStable | agents/memory.py:47 | the sort is stable: input in index order gives equal scores in index order |
| Memory.SliceLen | agents/memory.py:48 | `[:limit]` keeps `min(limit, n)` for a limit of 0 or more, and counts back from the end for a negative one (a case split as Python defines slicing; what the slice returns is stated by `Memory.RetrieveShape`) |
| Memory.TopIndices | agents/memory.py:47-48 | every returned position is a stored entry |
| Memory.RankingFacts | agents/memory.py:26-47 | the ranking lists every entry exactly once with its own score, strictly ranked |
| Memory.Retrieve | agents/memory.py:20-48 | what `retrieve_relevant_memories` returns; described by `Memory.RetrieveShape`, `Memory.RetrieveOrdered`, `Memory.RetrieveKeepsBest` and `Memory.MemoryStream.RetrieveRelevantMemories` |
| Memory.RetrieveShape | agents/memory.py:47-48 | retrieval returns `min(limit, n)` contents (Python slicing for negative limits), no entry twice, each the content of its entry |
| Memory.RetrieveOrdered | agents/memory.py:47 | returned entries come in non-increasing score order, and ties keep insertion order |
| Memory.RetrieveKeepsBest | agents/memory.py:47-48 | an entry left out scores no higher than any returned one, and on a tie it was added later |
| Memory.MemoryStream.constructor | agents/memory.py:12-14 | a new stream is empty with the given decay factor |
| Memory.MemoryStream.AddMemory | agents/memory.py:5-18 | `add_memory` (lines 16-18) appends exactly one `MemoryEntry` built as at lines 5-9 with the given content, importance and time, metadata defaulting to `{}`; existing entries are unchanged |
| Memory.MemoryStream.RetrieveRelevantMemories | agents/memory.py:20-48 | the scoring loop, sort and slice return exactly `Retrieve` of the entries, and no stored state changes |
| Text.IsSpace | agents/agent.py:89 | the characters Python's `str.strip()` removes; described by `Text.StripRemovesSpace` and `Text.StripIsTrimmed` |
| Text.Strip | agents/agent.py:89 | `str.strip()`; described by `Text.StripRemovesSpace`, `Text.StripIsTrimmed`, `Text.StripTrimmed`, `Text.StripEmptyIff` and `Text.StripIdempotent` |
| Text.Contains | agents/agent.py:165-167 | Python's `in` on strings; described by `Text.ContainsIff` and the `Text.Contains*` lemmas |
| Text.LeadingSpace | agents/agent.py:89 | counts exactly the whitespace run at the front |
| Text.TrailingSpace | agents/agent.py:89 | counts exactly the whitespace run at the back |
| Text.StripEnd | agents/agent.py:89 | the end of the stripped part is not before its start |
| Text.StripRemovesSpace | agents/agent.py:89 | `strip` removes only whitespace |
| Text.StripIsTrimmed | agents/agent.py:89 | the result of `strip` has no whitespace at either end |
| Text.StripTrimmed | agents/agent.py:89 | `strip` leaves text with no whitespace at either end unchanged |
| Text.StripEmptyIff | agents/agent.py:89 | `strip` yields "" if and only if the text is all whitespace |
| Text.StripIdempotent | agents/agent.py:89 | stripping twice equals stripping once |
| Text.Lower | agents/agent.py:158 | `lower` maps every character and keeps the length |
| Text.LowerConcat | agents/agent.py:158 | `lower` distributes over concatenation |
| Text.ContainsIff | agents/agent.py:165-167 | the substring test holds if and only if the text occurs at some position |
| Text.ContainsMiddle | agents/agent.py:165-167 | a text occurs inside any text it is the middle of |
| Text.ContainsStart | agents/agent.py:165-167 | a text occurs in any text it starts |
| Text.ContainsAfter | agents/agent.py:165-167 | an occurrence stays one when text is prepended |
| Text.ContainsPrefix | tests/test_type_safety.py:111 | containing `t + u` implies containing `t` |
| Text.DigitChar | agents/agent.py:218 | a digit value from 0 to 9 prints as a digit character |
| Text.NatToString | agents/agent.py:218 | `str(n)` is one or more digits with no leading zero |
| Text.IntToString | agents/agent.py:218 | `str(i)` is never empty and has no surrounding whitespace |
| Numerals.Pow10 | agents/agent.py:39 | powers of ten are positive |
| Numerals.Scale | agents/agent.py:39 | the decimal exponent scale is positive |
| Numerals.DigitRun | agents/agent.py:39 | counts exactly the leading digits |
| Numerals.Scan | agents/agent.py:39 | splits a numeral into sign, whole digits, fraction digits and the rest, whole and fraction all digits |
| Numerals.ScanRebuilds | agents/agent.py:39 | the scan loses nothing: its sign is the leading sign, and whole digits, point (when there is a fraction part), fraction digits and rest put back together give the unsigned text |
| Numerals.Magnitude | agents/agent.py:39 | the value of `whole.frac` times `10^e`; described by `Numerals.ParseFixedDigits` and `Numerals.ParseScanned` |
| Numerals.ParseNumeral | agents/agent.py:39 | a numeral with a digit before its exponent, read as its signed magnitude; described by `Numerals.ParseScanned`, `Numerals.ParseScannedWhole` and `Numerals.ParseSignedDigits` |
| Numerals.ParseFloat | agents/agent.py:39 | `float()` on text; described by `Numerals.ParseFloatTrimmed`, `Numerals.ParseFloatIntToString`, `Numerals.ParseWholeText` and `Numerals.ParseFixedAt` |
| Numerals.RoundHalfEven | agents/agent.py:65 | `round` lands within 0.5 of its argument, and a tie goes to the even integer |
| Numerals.RoundIsNearest | agents/agent.py:65 | no integer is closer than `round(x)` |
| Numerals.TruncToInt | agents/agent.py:211 | `int(x)` drops the fraction toward zero: magnitude at most `|x|` and within 1, with the sign kept |
| Numerals.TruncWhole | agents/agent.py:211 | `int(x)` of a whole float is that number |
| Numerals.NatToStringValue | agents/agent.py:39 | the digits of `str(n)` have value `n` |
| Numerals.ParseFloatIntToString | agents/agent.py:39 | `float(str(i)) == i` for every integer |
| Numerals.ParseSignedDigits | agents/agent.py:39 | an optionally signed run of digits is read as its value |
| Numerals.ParseWholeText | agents/agent.py:39 | text that is a signed run of digits is read as its value |
| Numerals.ParseScannedWhole | agents/agent.py:39 | a scanned whole number with nothing after it is read as its value |
| Numerals.ParseFloatTrimmed | agents/agent.py:39 | text with no surrounding whitespace is read as the bare numeral |
| Numerals.ParseFixedDigits | agents/agent.py:39 | `[-]w.f` is read as the signed magnitude of `w.f` |
| Numerals.ParseFixedAt | agents/agent.py:39 | text that spells `[-]w.f` is read as its signed value |
| Numerals.ParseScanned | agents/agent.py:39 | a scanned numeral with digits and nothing after them is read as its signed magnitude |
| Numerals.Cents | agents/agent.py:218-219 | `|x|` in cents, rounded half to even; described by `Numerals.CentsNear` |
| Numerals.FormatFixed2 | agents/agent.py:218-219 | the `:.2f` text; described by `Numerals.FormatFixed2Value` and `Numerals.FormatFixed2RoundTrip` |
| Numerals.ParseCents | agents/agent.py:218-219 | the two-decimal text of an amount of cents is read as that many hundredths |
| Numerals.FormatFixed2Value | agents/agent.py:218-219 | the amounts the purchase memory prints with `:.2f` spell exactly `x` rounded to cents, ties to even, with its sign |
| Numerals.FormatFixed2RoundTrip | agents/agent.py:218-219 | the amount a purchase memory prints with `:.2f` is a numeral within half a cent of the exact amount |
| Numerals.CentsDigits | agents/agent.py:218-219 | the two printed decimals are digits |
| Numerals.CentsValue | agents/agent.py:218-219 | whole part and two decimals together have value cents / 100 |
| Numerals.CentsNear | agents/agent.py:218-219 | the signed rounded amount is within half a cent of `x` |
| Coercion.TypeName | agents/agent.py:43 | `type(value).__name__`; described by `Coercion.FailureExplains` |
| Coercion.Display | agents/agent.py:42 | `str(value)`, as the f-string prints it; described by `Coercion.FailureExplains` and `Coercion.SafeStr` |
| Coercion.IsAbsent | agents/agent.py:35 | None, "" and "null"; described by `Coercion.SafeFloat`, `Coercion.SafeInt` and `Coercion.SafeStr` |
| Coercion.ToFloat | agents/agent.py:39 | `float(value)` or the text of its error; described by `Coercion.SafeFloat` and `Coercion.SafeErrorsExplain` |
| Coercion.Message | agents/agent.py:41-44 | the `ValueError` text; described by `Coercion.MessageMentions` |
| Coercion.Failure | agents/agent.py:41-44 | the `ValueError` both numeric helpers raise (also at lines 67-70); described by `Coercion.FailureExplains` and `Coercion.SafeErrorsExplain` |
| Coercion.MessageMentions | agents/agent.py:41-44 | the ValueError text contains the parameter name, the raw value, `type: <name>` and the reason |
| Coercion.FailureExplains | agents/agent.py:41-44 | a conversion failure's message names the parameter, shows the value and its type, and gives the reason |
| Coercion.SafeFloat | agents/agent.py:21-44 | None for None, "" and "null" only; a failure if and only if `float()` fails on a present value, with the error built from the parameter, value and reason; otherwise `float(value)` |
| Coercion.SafeInt | agents/agent.py:46-70 | None for None, "" and "null" only; a failure if and only if `float()` fails; otherwise an integer within 0.5 of `float(value)` |
| Coercion.SafeStr | agents/agent.py:72-89 | None if and only if the value is None, "null" or ""; otherwise a contiguous part of `str(value)`, with only whitespace cut from either end and none left at either end of the result |
| Coercion.SafeErrorsExplain | agents/agent.py:40-44 | every failure of `_safe_float` or `_safe_int` explains itself, names its target type and contains `float`'s reason |
| Coercion.SafeIntIsRoundedSafeFloat | agents/agent.py:65 | `_safe_int` equals `_safe_float` followed by `round`, with the same absent values and the same failures apart from the target type |
| Coercion.SafeIntNearest | agents/agent.py:65 | `_safe_int`'s integer is a nearest one to the float, and the even one on a tie |
| Coercion.IntToStringNotNull | agents/agent.py:35 | the text of an integer is never "" or "null" |
| Coercion.SafeParsed | agents/agent.py:35-39 | text that `float` reads as `x` gives `x` from `_safe_float` and `round(x)` from `_safe_int` |
| Coercion.RoundWhole | agents/agent.py:65 | `round` of a whole number is that number |
| Coercion.SafeIntegerText | agents/agent.py:39-65 | both numeric helpers read back the decimal text of any integer |
| Coercion.SafeStrBlank | agents/agent.py:86-89 | whitespace-only text gives "", not None |
| Coercion.SafeStrTrimmedText | agents/agent.py:89 | trimmed text comes back unchanged |
| Coercion.SafeStrIdempotent | agents/agent.py:72-89 | `_safe_str` applied to its own non-empty answer gives the same answer |
| Coercion.SafeIntExamples | tests/test_type_safety.py:54-61 | "5" gives 5, "5.7" gives 6, 5 gives 5, 5.3 gives 5, None and "" give None |
| Coercion.SafeIntNumbers | agents/agent.py:39-65 | an int is kept by `_safe_int` and widened by `_safe_float`; a float is rounded by `_safe_int` and kept by `_safe_float` |
| Coercion.SafeIntFive | tests/test_type_safety.py:55 | "5" gives 5 |
| Coercion.SafeIntFivePointSeven | tests/test_type_safety.py:56 | "5.7" gives 6 |
| Coercion.SafeIntFivePointThree | tests/test_type_safety.py:58 | 5.3 rounds to 5 |
| Coercion.FiveReads | tests/test_type_safety.py:79 | `float("5") == 5.0` |
| Coercion.FiveText | tests/test_type_safety.py:55 | `str(5) == "5"` |
| Coercion.FivePointSeven | tests/test_type_safety.py:56 | `float("5.7") == 5.7` |
| Coercion.FivePointZero | tests/test_type_safety.py:78 | `float("5.0") == 5.0` |
| Coercion.NotANumber | tests/test_type_safety.py:105 | `float("not_a_number")` fails |
| Coercion.SafeFloatExamples | tests/test_type_safety.py:77-82 | "5.0" and "5" give 5.0, 5 gives 5.0, 5.5 gives 5.5 |
| Coercion.SafeFloatFivePointZero | tests/test_type_safety.py:78 | "5.0" gives 5.0 |
| Coercion.SafeFloatFive | tests/test_type_safety.py:79 | "5" gives 5.0 |
| Coercion.SafeIntRejects | agents/agent.py:63-70 | present text that is not a numeral makes `_safe_int` fail with a message naming the parameter, the text and type `str` |
| Coercion.TypeLabel | tests/test_type_safety.py:111 | a message showing `type: <name>` shows `type:` |
| Coercion.SafeIntErrorExample | tests/test_type_safety.py:103-111 | `_safe_int("not_a_number", "test_param")` fails with a message containing "test_param", "not_a_number" and "type:" |
| Agent.Param | agents/agent.py:188-189 | `params.get(key)`, None for a missing key; described by `AgentProperties.BuyNoChangeIff`, `AgentProperties.PostNoChangeIff` and `AgentProperties.PostTargetFrom` |
| Agent.Held | agents/agent.py:264 | `inventory.get(item, 0)`; described by `AgentProperties.BuySuccess`, `AgentProperties.PostSuccess` and `AgentProperties.BuyByIdStock` |
| Agent.AddUnits | agents/agent.py:215 | `inventory[item] = inventory.get(item, 0) + n`, also the deduction at line 272; described by `AgentProperties.BuySuccess` and `AgentProperties.PostSuccess` |
| Agent.PurchaseCost | agents/agent.py:211-212 | the cost `price * int(quantity)`; described by `AgentProperties.BuySuccess` and `AgentProperties.OverspendScenario` |
| Agent.BoughtNote | agents/agent.py:218-219 | the purchase memory text; described by `AgentProperties.BuySuccess`, `Numerals.FormatFixed2Value` and `Numerals.FormatFixed2RoundTrip` |
| Agent.PurchaseNote | agents/agent.py:218-219 | that text for a trade, with the budget after payment; described by `AgentProperties.BuySuccess` |
| Agent.FailedBuyNote | agents/agent.py:226 | the failed-purchase memory text; described by `AgentProperties.BuyFailure` |
| Agent.PostedNote | agents/agent.py:275 | the posting memory text; described by `AgentProperties.PostSuccess` |
| Agent.TradeMetadata | agents/agent.py:221 | the purchase memory's metadata, with the seller as partner; described by `AgentProperties.BuySuccess` |
| Agent.Classify | agents/agent.py:158-174 | the lower-cased command's dispatch; described by `AgentProperties.ClassifyIff` |
| Agent.BuyRejected | agents/agent.py:186-200 | the buy parameters that stop `_handle_buy` before the market call; described by `Agent.BuyTarget` and `AgentProperties.BuyNoChangeIff` |
| Agent.PostParamsValid | agents/agent.py:244-256 | the checks on the converted post parameters; described by `Agent.PostTarget` and `AgentProperties.PostNoChangeIff` |
| Agent.BuyTurn | agents/agent.py:184-229 | `_handle_buy`; described by `AgentProperties.BuyNoChangeIff`, `AgentProperties.BuyTurnTrades`, `AgentProperties.BuySuccess` and `AgentProperties.BuyFailure` |
| Agent.BuyById | agents/agent.py:205-229 | the market call and its bookkeeping; described by `AgentProperties.BuyByIdTrades` and `AgentProperties.BuyByIdFails` |
| Agent.Bought | agents/agent.py:207-222 | the success bookkeeping; described by `AgentProperties.BoughtFacts` |
| Agent.FailedBuy | agents/agent.py:224-228 | the failure bookkeeping; described by `AgentProperties.BuyFailure` |
| Agent.PostTurn | agents/agent.py:231-278 | `_handle_post`; described by `AgentProperties.PostNoChangeIff` and `AgentProperties.PostSuccess` |
| Agent.PostHeld | agents/agent.py:258-277 | the inventory checks and the posting; described by `AgentProperties.PostHeldNoChangeIff` and `AgentProperties.PostedFacts` |
| Agent.WaitTurn | agents/agent.py:169-174 | the wait branch, remembering the constant `WaitNote` (line 172 text) with importance 1; described by `AgentProperties.WaitsOtherwise` and `AgentProperties.WaitFootprint` |
| Agent.Turn | agents/agent.py:150-182 | one turn of `step`; described by `AgentProperties.ClassifyIff`, `AgentProperties.BuyDispatch`, `AgentProperties.PostDispatch`, `AgentProperties.WaitsOtherwise`, `AgentProperties.TurnFootprint` and `AgentProperties.TurnKeepsHealthy` |
| Agent.BuyTarget | agents/agent.py:186-200 | no offer id is returned exactly when a conversion fails or the id is missing; otherwise it is the converted `offer_id` (this restates the body's conditional; what a rejected buy does is stated by `AgentProperties.BuyNoChangeIff`) |
| Agent.PostTarget | agents/agent.py:233-256 | a request is returned exactly when the conversions succeed and the item is not empty and price and quantity are positive; it then carries the converted values |
| Agent.TradingAgent.constructor | agents/agent.py:10-16 | a new agent has the given name, role, budget and market, an empty inventory and a fresh empty memory with decay 0.99 |
| Agent.TradingAgent.Perceive | agents/agent.py:93-98 | gathers the open offers and the two best memories with no partner asked for |
| Agent.TradingAgent.HandleBuy | agents/agent.py:184-229 | the new agent, market and memory state is `BuyTurn` of the old one |
| Agent.TradingAgent.BuyOffer | agents/agent.py:205-229 | after the market call the state is `BuyById` of the old one |
| Agent.TradingAgent.RecordPurchase | agents/agent.py:207-222 | the success bookkeeping gives `Bought` of the old state |
| Agent.TradingAgent.HandlePost | agents/agent.py:231-278 | the new state is `PostTurn` of the old one |
| Agent.TradingAgent.PostIfHeld | agents/agent.py:258-277 | the inventory check and the posting give `PostHeld` of the old state |
| Agent.TradingAgent.Step | agents/agent.py:150-182 | one turn gives `Turn` of the old state |
| AgentProperties.BuyNoChangeIff | agents/agent.py:186-205 | `_handle_buy` changes nothing if and only if it stops before the market call (a failed conversion or no offer id) |
| AgentProperties.BuyIgnoresQuantity | agents/agent.py:189-205 | any quantity that converts gives the same outcome |
| AgentProperties.BuyTurnTrades | agents/agent.py:205-222 | a buy of the first offer with the id is the purchase bookkeeping after the market's trade |
| AgentProperties.BuyByIdTrades | agents/agent.py:205-222 | the same for a known offer id |
| AgentProperties.BuyByIdFails | agents/agent.py:224-228 | an id no offer carries only records the failure |
| AgentProperties.BuySuccess | agents/agent.py:207-222 | a purchase lowers the budget by `price * int(quantity)` with no floor, adds `int(quantity)` units, removes the offer, logs the trade with this buyer, and adds one memory of importance 7 with the seller as partner |
| AgentProperties.BoughtFacts | agents/agent.py:209-222 | the purchase bookkeeping pays the cost, adds the units and appends one importance-7 memory |
| AgentProperties.BuyFailure | agents/agent.py:224-228 | an unknown id leaves budget, inventory and market unchanged and appends one memory of importance 4 |
| AgentProperties.OverspendScenario | agents/agent.py:212-215 | with 100.0, buying ten units at 15.0 leaves -50.0 and ten units |
| AgentProperties.PostNoChangeIff | agents/agent.py:233-268 | `_handle_post` changes nothing if and only if a conversion fails, the item is empty, the price or quantity is missing or not positive, the item is not held, or more is asked than held |
| AgentProperties.PostHeldNoChangeIff | agents/agent.py:258-268 | once the parameters are valid, only the inventory checks can refuse |
| AgentProperties.PostSuccess | agents/agent.py:270-277 | an accepted posting appends one offer with the converted values, lowers the held count by `qty` (never below 0, no other item touched), keeps budget and ledger, and adds one memory of importance 3 |
| AgentProperties.PostedFacts | agents/agent.py:270-277 | the posting step's effect on inventory, board, ledger, budget and memory |
| AgentProperties.PostTargetOf | agents/agent.py:235-256 | a trimmed item, a positive float price and a positive int quantity are accepted as given |
| AgentProperties.ItemRead | agents/agent.py:235 | a trimmed item name is read as itself |
| AgentProperties.PriceRead | agents/agent.py:236 | a float price is read as itself |
| AgentProperties.QtyRead | agents/agent.py:237 | an int quantity is read as itself |
| AgentProperties.PostTargetFrom | agents/agent.py:244-256 | parameters converting to valid values are accepted with those values |
| AgentProperties.WoodPosting | tests/test_type_safety.py:129 | the test's Wood posting is accepted |
| AgentProperties.InventoryDeductionExample | tests/test_type_safety.py:122-143 | holding 50 Wood, posting 10 leaves 40; then posting 50 is refused and nothing changes |
| AgentProperties.BuyAnywhere | agents/agent.py:158-166 | "buy" anywhere, in any case, means buy, even next to "post" |
| AgentProperties.PostWithoutBuy | agents/agent.py:165-168 | without "buy", "post" anywhere means post |
| AgentProperties.ClassifyExamples | agents/agent.py:158-170 | "BUY" buys, "post" posts, "wait" and the empty command wait |
| AgentProperties.ClassifyBuy | agents/agent.py:158-166 | "BUY" buys |
| AgentProperties.ClassifyPost | agents/agent.py:165-168 | "post" posts |
| AgentProperties.ClassifyWait | agents/agent.py:165-170 | "wait" waits |
| AgentProperties.ClassifyIff | agents/agent.py:158-174 | a command means buy if and only if its lower-cased text contains "buy", post if and only if it contains "post" but not "buy", and wait if and only if it contains neither (the three-way conditional in both directions; `AgentProperties.BuyAnywhere` and `AgentProperties.PostWithoutBuy` state what it means for mixed and upper-case commands) |
| AgentProperties.BuyDispatch | agents/agent.py:165-166 | a string command containing "buy" with object parameters runs `_handle_buy` on them |
| AgentProperties.PostDispatch | agents/agent.py:167-168 | a string command containing "post" but not "buy", with object parameters, runs `_handle_post` on them |
| AgentProperties.WaitsOtherwise | agents/agent.py:169-174 | any other string command, whatever its parameters (even not an object), adds one memory of importance 1 and changes nothing else |
| AgentProperties.FallbackWaits | agents/agent.py:141-148 | the fallback decision after a failed model call adds one memory of importance 1 and changes nothing else |
| AgentProperties.TurnFootprint | agents/agent.py:150-182 | every turn adds at most one memory, changes nothing when it adds none, and adds at most one trade at the end of the ledger |
| AgentProperties.WaitFootprint | agents/agent.py:169-174 | the wait branch stays within that footprint |
| AgentProperties.BuyFootprint | agents/agent.py:184-229 | `_handle_buy` stays within that footprint |
| AgentProperties.PostFootprint | agents/agent.py:231-278 | `_handle_post` stays within that footprint |
| AgentProperties.TurnKeepsHealthy | agents/agent.py:150-182 | every turn keeps every held count and every offered quantity at 0 or more |
| AgentProperties.PostKeepsHealthy | agents/agent.py:231-278 | `_handle_post` keeps holdings at 0 or more |
| AgentProperties.PostedKeepsHealthy | agents/agent.py:264-272 | posting a positive quantity no larger than the holding keeps holdings at 0 or more |
| AgentProperties.BuyKeepsHealthy | agents/agent.py:184-229 | `_handle_buy` keeps holdings at 0 or more |
| AgentProperties.BuyByIdKeepsHealthy | agents/agent.py:205-229 | the market call and its bookkeeping keep holdings at 0 or more |
| AgentProperties.BoughtKeepsHealthy | agents/agent.py:211-215 | receiving a quantity of 0 or more keeps holdings at 0 or more |
| AgentProperties.OnBoardConcat | agents/agent.py:211 | units on the board add up over concatenation |
| AgentProperties.OnBoardSingle | agents/agent.py:211 | a one-offer board holds that offer's quantity of its item |
| AgentProperties.OnBoardWithout | core/market.py:58 | removing an offer removes exactly its quantity from the board |
| AgentProperties.BoughtStock | agents/agent.py:211-215 | the bookkeeping adds the trade's `int(quantity)` units to the holdings and leaves the board alone |
| AgentProperties.BuyByIdStock | agents/agent.py:205-215 | an unknown id moves nothing; buying offer `i` moves its units from the board to the inventory except the fraction `int()` drops, by which the stock falls |
| AgentProperties.LostWhole | agents/agent.py:211 | a whole quantity loses nothing to `int()` |
| AgentProperties.FractionLost | agents/agent.py:211 | buying a lone 10.7-unit offer gives 10 units, empties the board and lowers the stock by 0.7 |
| AgentProperties.BuyByIdConservesStock | agents/agent.py:205-215 | on a whole board a purchase moves the units from the board to the inventory, creating and destroying none |
| AgentProperties.BuyConservesStock | agents/agent.py:184-229 | on a whole board `_handle_buy` creates and destroys no units |
| AgentProperties.PostedStock | agents/agent.py:270-272 | the posting step keeps held plus offered units the same, on any board |
| AgentProperties.PostConservesStock | agents/agent.py:231-278 | `_handle_post` moves units from the inventory to the board, on any board |
| AgentProperties.TurnConservesStock | agents/agent.py:150-182 | on a whole board no turn creates or destroys units: held plus offered stays the same for every item |
| AgentProperties.TurnKeepsWholeBoard | agents/agent.py:150-182 | every turn keeps every offered quantity whole |
| AgentProperties.BuyByIdKeepsWholeBoard | core/market.py:58 | a purchase only removes an offer, so the board stays whole |
| AgentProperties.PostedKeepsWholeBoard | agents/agent.py:237-271 | the agent posts an integer quantity, so the board stays whole |

## Left out

- The language-model call in `perceive_and_act` (agents/agent.py:101-148) is a network call. The prompt text is not modelled. The decision it returns is an input to `Step`, and the exception fallback is the constant `WaitFallback`.
- `json.loads` is not modelled. A reply that does not parse, or parses to something other than an object (where `decision.get` raises and agents/agent.py:179-182 catches it), is `None` and changes nothing. A command that is not a string reaches the catch-all `except` through `.lower()` and changes nothing. A `params` value that is not an object makes `_handle_buy` and `_handle_post` fail at `params.get` and change nothing, but the wait branch never reads `params` and still adds its memory (`AgentProperties.WaitsOtherwise`).
- File and console output are not modelled: `os.makedirs`, `_save_offers`, `ledger.to_csv` and every `print` and traceback. The pandas ledger is a sequence of `Trade` records.
- Clock readings are parameters instead of calls to `datetime.now()` and `time.time()`. The recency weight `decay_factor ** hours_passed` is the parameter `recency`, because it is real-exponent float arithmetic.
- Floats are modelled as exact reals, not IEEE doubles. Budget, prices and scores carry no rounding error. `f"{x:.2f}"` rounds the exact value half to even.
- Numerals.ParseFloat: covers Python's `float()` only for decimal numerals. These may have a sign, leading and trailing digits around a point, and an `e` exponent, all inside whitespace. Whitespace is every character `Text.IsSpace` lists, which are the ones Python's `str.isspace` accepts. The model does not read "inf", "nan", underscores or non-ASCII digits and treats them as failures.
- AgentProperties.TurnConservesStock: holds only on a board whose every quantity is whole. An agent only ever posts an integer quantity, and `AgentProperties.TurnKeepsWholeBoard` shows every turn keeps the board whole. An offer with a fractional quantity posted through `post_offer` directly loses its fraction to `int()` when it is bought, and the stock falls by exactly that fraction (`AgentProperties.BuyByIdStock`, `AgentProperties.FractionLost`).
- AgentProperties.BuyConservesStock: needs a whole board, for the same reason.
- AgentProperties.BuyByIdConservesStock: needs a whole board, for the same reason.
- The model does not raise `OverflowError` for an int too large for a float, or for `round(inf)`.
- Text.Lower: maps ASCII letters only. Other characters are left as they are.
- Coercion.Display: for a float, a list or a dict, the text `str()` prints is given with the value rather than computed.
- Coercion.ToFloat: the error for a list or a dict is built from its type name, as Python builds it. For a string, the reason puts the text between single quotes. Python uses `repr(s)` there, which differs when the text holds a quote, a backslash or a character that is not printable.
- The `param_name` argument of `_safe_str` is unused in the source and is dropped. `retrieve_relevant_memories`'s `current_query` takes no part in scoring. It is kept as an unused parameter of `Memory.MemoryStream.RetrieveRelevantMemories` and is absent from `Memory.Retrieve`.
- Default arguments are not modelled: `limit=3` and `partner_name=None` of `retrieve_relevant_memories`, `decay_factor=0.99` of `MemoryStream`, and `metadata=None` of `add_memory` and `MemoryEntry`. Every caller in the model passes these arguments. Where agents/agent.py relies on a default, the caller passes the default's value: the decay 0.99 at line 16, no partner at line 98, and no metadata for the wait, failed-buy and posting memories.
- The `role` text and the Groq client are kept or dropped only as fields. They play no part in any operation that is modelled.
- Aliasing is not modelled. `get_market_state` returns the live list, so a caller could change the board through it. In the model the method returns an immutable sequence.
- The model covers one agent and its market. Several agents taking turns over a shared market is orchestration in simulation.py, which is not part of this model, and neither are agents/roles.py, test_agent.py or visualization/.
