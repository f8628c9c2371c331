/**
 * The agent's memory list (agents/memory.py): entries are appended as events
 * happen, and retrieval scores every entry by recency, importance and
 * partner relevance, sorts by score from high to low keeping insertion order
 * among equal scores, and returns the contents of the first `limit` entries.
 */
module Memory {
  import opened Wrappers

  /** One remembered event. `timestamp` is the `time.time()` reading taken
      when the entry was made. */
  datatype MemoryEntry = MemoryEntry(content: string, importance: int, timestamp: real,
                                     metadata: map<string, string>)

  /** `metadata or {}`: a missing metadata dictionary becomes an empty one. */
  function MetadataOrEmpty(metadata: Option<map<string, string>>): (r: map<string, string>)
    ensures metadata.None? ==> r == map[]
    ensures metadata.Some? ==> r == metadata.value
  {
    match metadata
    case None => map[]
    case Some(m) => m
  }

  // ------------------------------------------------------------- scoring

  /** 1.0 when a (non-empty) partner name is asked for and the entry's
      `partner` metadata names that partner, 0 otherwise. */
  function Relevance(e: MemoryEntry, partnerName: Option<string>): real {
    if partnerName.Some? && partnerName.value != ""
       && "partner" in e.metadata && e.metadata["partner"] == partnerName.value
    then 1.0 else 0.0
  }

  /** The final score of an entry. `recency` gives, for the time an entry was
      made, the decayed weight `decay_factor ** hours_passed` at the moment
      of retrieval. */
  function Score(e: MemoryEntry, partnerName: Option<string>, recency: real -> real): real {
    recency(e.timestamp) + e.importance as real / 10.0 + Relevance(e, partnerName)
  }

  /** A score paired with the position of the entry it belongs to. */
  datatype Scored = Scored(score: real, index: nat)

  /** The `scored_memories` list built by the loop, in entry order. */
  function ScoreAll(entries: seq<MemoryEntry>, partnerName: Option<string>, recency: real -> real): (r: seq<Scored>)
    ensures |r| == |entries|
    ensures forall k :: 0 <= k < |r| ==> r[k] == Scored(Score(entries[k], partnerName, recency), k)
  {
    seq(|entries|, k requires 0 <= k < |entries| => Scored(Score(entries[k], partnerName, recency), k))
  }

  // ------------------------------------------------------------- sorting

  /** Scores from high to low. */
  predicate NonIncreasing(s: seq<Scored>) {
    forall i, j :: 0 <= i < j < |s| ==> s[i].score >= s[j].score
  }

  /** `a` comes before `b` in a stable sort on descending score of a list
      kept in index order. */
  predicate Precedes(a: Scored, b: Scored) {
    a.score > b.score || (a.score == b.score && a.index < b.index)
  }

  predicate StrictlyRanked(s: seq<Scored>) {
    forall i, j :: 0 <= i < j < |s| ==> Precedes(s[i], s[j])
  }

  predicate IndicesIncreasing(s: seq<Scored>) {
    forall i, j :: 0 <= i < j < |s| ==> s[i].index < s[j].index
  }

  /** Where `x` goes in a list sorted from high to low: after every higher
      score, before every score not higher. */
  function InsertPos(x: Scored, s: seq<Scored>): (k: nat)
    ensures k <= |s|
    ensures forall j :: 0 <= j < k ==> s[j].score > x.score
    ensures k < |s| ==> s[k].score <= x.score
  {
    if s == [] || s[0].score <= x.score then 0 else 1 + InsertPos(x, s[1..])
  }

  function Insert(x: Scored, s: seq<Scored>): seq<Scored> {
    var k := InsertPos(x, s);
    s[..k] + [x] + s[k..]
  }

  lemma InsertMultiset(x: Scored, s: seq<Scored>)
    ensures multiset(Insert(x, s)) == multiset(s) + multiset{x}
  {
    var k := InsertPos(x, s);
    assert s == s[..k] + s[k..];
  }

  lemma InsertNonIncreasing(x: Scored, s: seq<Scored>)
    requires NonIncreasing(s)
    ensures NonIncreasing(Insert(x, s))
  {
    var k := InsertPos(x, s);
    var r := Insert(x, s);
    forall i, j | 0 <= i < j < |r| ensures r[i].score >= r[j].score {
      if j < k {
        assert r[i] == s[i] && r[j] == s[j];
      } else if j == k {
        assert r[i] == s[i] && r[j] == x;
      } else if i < k {
        assert r[i] == s[i] && r[j] == s[j - 1];
      } else if i == k {
        assert r[i] == x && r[j] == s[j - 1];
      } else {
        assert r[i] == s[i - 1] && r[j] == s[j - 1];
      }
    }
  }

  /** Inserting an element whose index is below every index in a strictly
      ranked list keeps it strictly ranked: it goes after every higher score
      and before every equal one. */
  lemma InsertStrictlyRanked(x: Scored, s: seq<Scored>)
    requires StrictlyRanked(s)
    requires forall j :: 0 <= j < |s| ==> x.index < s[j].index
    ensures StrictlyRanked(Insert(x, s))
  {
    var k := InsertPos(x, s);
    var r := Insert(x, s);
    forall i, j | 0 <= i < j < |r| ensures Precedes(r[i], r[j]) {
      if j < k {
        assert r[i] == s[i] && r[j] == s[j];
      } else if j == k {
        assert r[i] == s[i] && r[j] == x;
      } else if i < k {
        assert r[i] == s[i] && r[j] == s[j - 1];
      } else if i == k {
        assert r[i] == x && r[j] == s[j - 1];
        assert j - 1 == k || Precedes(s[k], s[j - 1]);
      } else {
        assert r[i] == s[i - 1] && r[j] == s[j - 1];
      }
    }
  }

  /** Python's stable `sort(key=score, reverse=True)`. */
  function SortDesc(xs: seq<Scored>): (r: seq<Scored>)
    ensures |r| == |xs|
    ensures multiset(r) == multiset(xs)
    ensures NonIncreasing(r)
  {
    if xs == [] then []
    else
      var rest := SortDesc(xs[1..]);
      InsertMultiset(xs[0], rest);
      InsertNonIncreasing(xs[0], rest);
      assert xs == [xs[0]] + xs[1..];
      Insert(xs[0], rest)
  }

  /** The sort is stable: when the input is in index order, equal scores
      stay in index order, so the output is strictly ranked. */
  lemma {:induction false} SortDescStable(xs: seq<Scored>)
    requires IndicesIncreasing(xs)
    ensures StrictlyRanked(SortDesc(xs))
  {
    if xs != [] {
      var tail := xs[1..];
      var rest := SortDesc(tail);
      assert IndicesIncreasing(tail) by {
        assert forall j :: 0 <= j < |tail| ==> tail[j] == xs[j + 1];
      }
      SortDescStable(tail);
      forall j | 0 <= j < |rest| ensures xs[0].index < rest[j].index {
        assert rest[j] in multiset(tail);
        var p :| 0 <= p < |tail| && tail[p] == rest[j];
        assert tail[p] == xs[p + 1];
      }
      InsertStrictlyRanked(xs[0], rest);
    }
  }

  // ----------------------------------------------------------- retrieval

  /** How many elements Python's `items[:limit]` keeps of `n`: a negative
      limit counts back from the end. */
  function SliceLen(n: nat, limit: int): (len: nat)
    ensures len <= n
    ensures limit >= 0 ==> len == if limit < n then limit else n
    ensures limit < 0 ==> len == if n + limit > 0 then n + limit else 0
  {
    if limit >= 0 then (if limit < n then limit else n)
    else if n + limit > 0 then n + limit else 0
  }

  /** Some element of `r` belongs to entry `j`. */
  predicate Lists(r: seq<Scored>, j: nat) {
    exists p :: 0 <= p < |r| && r[p].index == j
  }

  /** All entries, best first. */
  function Ranking(entries: seq<MemoryEntry>, partnerName: Option<string>, recency: real -> real): seq<Scored> {
    SortDesc(ScoreAll(entries, partnerName, recency))
  }

  /** Positions of the entries retrieval returns, best first. */
  function TopIndices(entries: seq<MemoryEntry>, partnerName: Option<string>, limit: int,
                      recency: real -> real): (top: seq<nat>)
    ensures forall k :: 0 <= k < |top| ==> top[k] < |entries|
  {
    RankingFacts(entries, partnerName, recency);
    var ranked := Ranking(entries, partnerName, recency);
    var len := SliceLen(|ranked|, limit);
    seq(len, k requires 0 <= k < len => ranked[k].index)
  }

  /** What `retrieve_relevant_memories` returns. */
  function Retrieve(entries: seq<MemoryEntry>, partnerName: Option<string>, limit: int,
                    recency: real -> real): seq<string>
  {
    var top := TopIndices(entries, partnerName, limit, recency);
    seq(|top|, k requires 0 <= k < |top| => entries[top[k]].content)
  }

  /** The ranking lists every entry exactly once, each with its own score,
      strictly ranked. */
  lemma RankingFacts(entries: seq<MemoryEntry>, partnerName: Option<string>, recency: real -> real)
    ensures var r := Ranking(entries, partnerName, recency);
            && |r| == |entries|
            && StrictlyRanked(r)
            && (forall k :: 0 <= k < |r| ==>
                  r[k].index < |entries| && r[k].score == Score(entries[r[k].index], partnerName, recency))
            && (forall j: nat :: j < |entries| ==> Lists(r, j))
  {
    var xs := ScoreAll(entries, partnerName, recency);
    var r := SortDesc(xs);
    SortDescStable(xs);
    forall k | 0 <= k < |r|
      ensures r[k].index < |entries| && r[k].score == Score(entries[r[k].index], partnerName, recency)
    {
      assert r[k] in multiset(xs);
      var p :| 0 <= p < |xs| && xs[p] == r[k];
    }
    forall j: nat | j < |entries| ensures Lists(r, j) {
      assert xs[j] in multiset(r);
      var p :| 0 <= p < |r| && r[p] == xs[j];
    }
  }

  /** `limit` entries are returned (as Python slicing counts), each the
      content of a stored entry, no entry twice. */
  lemma RetrieveShape(entries: seq<MemoryEntry>, partnerName: Option<string>, limit: int, recency: real -> real)
    ensures var top := TopIndices(entries, partnerName, limit, recency);
            && |top| == SliceLen(|entries|, limit)
            && (limit >= 0 ==> |top| == if limit < |entries| then limit else |entries|)
            && (forall a, b :: 0 <= a < b < |top| ==> top[a] != top[b])
            && |Retrieve(entries, partnerName, limit, recency)| == |top|
            && (forall k :: 0 <= k < |top| ==> Retrieve(entries, partnerName, limit, recency)[k] == entries[top[k]].content)
  {
    RankingFacts(entries, partnerName, recency);
    var r := Ranking(entries, partnerName, recency);
    var top := TopIndices(entries, partnerName, limit, recency);
    forall a, b | 0 <= a < b < |top| ensures top[a] != top[b] {
      assert Precedes(r[a], r[b]);
    }
  }

  /** Returned entries come in non-increasing score order, and equal scores
      keep the order in which the entries were added. */
  lemma RetrieveOrdered(entries: seq<MemoryEntry>, partnerName: Option<string>, limit: int, recency: real -> real)
    ensures var top := TopIndices(entries, partnerName, limit, recency);
            forall a, b :: 0 <= a < b < |top| ==>
              var sa := Score(entries[top[a]], partnerName, recency);
              var sb := Score(entries[top[b]], partnerName, recency);
              sa >= sb && (sa == sb ==> top[a] < top[b])
  {
    RankingFacts(entries, partnerName, recency);
    var r := Ranking(entries, partnerName, recency);
    var top := TopIndices(entries, partnerName, limit, recency);
    forall a, b | 0 <= a < b < |top|
      ensures Precedes(Scored(Score(entries[top[a]], partnerName, recency), top[a]),
                       Scored(Score(entries[top[b]], partnerName, recency), top[b]))
    {
      assert Precedes(r[a], r[b]);
    }
  }

  /** Retrieval keeps the best entries: every entry left out scores no higher
      than any entry returned, and on a tie it was added later. */
  lemma RetrieveKeepsBest(entries: seq<MemoryEntry>, partnerName: Option<string>, limit: int, recency: real -> real,
                          j: nat)
    requires j < |entries|
    requires j !in TopIndices(entries, partnerName, limit, recency)
    ensures var top := TopIndices(entries, partnerName, limit, recency);
            forall a :: 0 <= a < |top| ==>
              var sa := Score(entries[top[a]], partnerName, recency);
              var sj := Score(entries[j], partnerName, recency);
              sj <= sa && (sj == sa ==> top[a] < j)
  {
    RankingFacts(entries, partnerName, recency);
    var r := Ranking(entries, partnerName, recency);
    var top := TopIndices(entries, partnerName, limit, recency);
    assert Lists(r, j);
    var p :| 0 <= p < |r| && r[p].index == j;
    assert forall q :: 0 <= q < |top| ==> top[q] == r[q].index && top[q] in top;
    assert p >= |top|;
    forall a | 0 <= a < |top|
      ensures Precedes(Scored(Score(entries[top[a]], partnerName, recency), top[a]), r[p])
    {
      assert Precedes(r[a], r[p]);
    }
  }

  // ---------------------------------------------------------- the object

  class MemoryStream {
    var entries: seq<MemoryEntry>
    /** How fast memories fade; retrieval's `recency` argument stands for
        `decayFactor ** hours_passed`. */
    const decayFactor: real

    constructor (decayFactor: real)
      ensures entries == [] && this.decayFactor == decayFactor
    {
      entries := [];
      this.decayFactor := decayFactor;
    }

    /** Append one entry made at time `now`. */
    method AddMemory(content: string, importance: int, metadata: Option<map<string, string>>, now: real)
      modifies this
      ensures entries == old(entries) + [MemoryEntry(content, importance, now, MetadataOrEmpty(metadata))]
    {
      entries := entries + [MemoryEntry(content, importance, now, MetadataOrEmpty(metadata))];
    }

    /** Score every entry, rank them and return the best `limit` contents.
        The query text takes no part in the scoring. */
    method RetrieveRelevantMemories(currentQuery: string, partnerName: Option<string>, limit: int,
                                    recency: real -> real)
      returns (contents: seq<string>)
      ensures contents == Retrieve(entries, partnerName, limit, recency)
    {
      var scored: seq<Scored> := [];
      for k := 0 to |entries|
        invariant scored == ScoreAll(entries[..k], partnerName, recency)
      {
        var e := entries[k];
        var relevance := 0.0;
        if partnerName.Some? && partnerName.value != "" && "partner" in e.metadata
           && e.metadata["partner"] == partnerName.value {
          relevance := 1.0;
        }
        var finalScore := recency(e.timestamp) + e.importance as real / 10.0 + relevance;
        scored := scored + [Scored(finalScore, k)];
      }
      assert entries[..|entries|] == entries;
      var ranked := SortDesc(scored);
      RankingFacts(entries, partnerName, recency);
      var len := SliceLen(|ranked|, limit);
      var es := entries;
      contents := seq(len, k requires 0 <= k < len => es[ranked[k].index].content);
    }
  }
}
