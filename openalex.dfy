/**
 * `parse_abstract` of the OpenAlex route: OpenAlex ships an abstract as an inverted index, a
 * dictionary from each word to the positions where it occurs. The route rebuilds a text from it
 * by sorting the words (the dictionary's keys, in insertion order) by their smallest position and
 * joining them with single spaces. Python's sort is stable, so words with the same smallest
 * position keep their dictionary order.
 */
module OpenAlex {
  import opened Wrappers
  import opened Seqs
  import opened Sorting
  import opened Text

  /**
   * A JSON object from words to position lists: `words` holds its keys in insertion order and
   * `positions` the list of each key.
   */
  datatype InvertedIndex = InvertedIndex(words: seq<string>, positions: map<string, seq<int>>)

  /**
   * The keys are listed once each and are exactly the keys of the map; every position list is
   * non-empty, since `min` of an empty list raises.
   */
  ghost predicate WellFormed(ix: InvertedIndex)
  {
    && Distinct(ix.words)
    && (forall w :: w in ix.positions <==> w in ix.words)
    && (forall w :: w in ix.positions ==> ix.positions[w] != [])
  }

  const NO_ABSTRACT := "No abstract available"

  /** `min(ps)`. */
  function MinPos(ps: seq<int>): (m: int)
    requires ps != []
    ensures m in ps
    ensures forall i :: 0 <= i < |ps| ==> m <= ps[i]
  {
    if |ps| == 1 then ps[0]
    else
      var rest := MinPos(ps[1..]);
      if ps[0] <= rest then ps[0] else rest
  }

  /** The smallest position of a word of the index. */
  function FirstPosition(ix: InvertedIndex, w: string): int
  {
    if w in ix.positions && ix.positions[w] != [] then MinPos(ix.positions[w]) else 0
  }

  /**
   * `key=lambda w: min(inv_index[w])` as a key for the descending sort: the negated smallest
   * position, so that the earliest word comes first.
   */
  function EarliestFirst(ix: InvertedIndex): string -> real
  {
    (w: string) => -(FirstPosition(ix, w) as real)
  }

  /** `sorted(inv_index, key=lambda w: min(inv_index[w]))`. */
  function SortedWords(ix: InvertedIndex): seq<string>
  {
    SortDesc(ix.words, EarliestFirst(ix))
  }

  /**
   * `parse_abstract`: a missing or empty index gives the placeholder; otherwise the text is the
   * sorted words joined by single spaces.
   */
  function ParseAbstract(inv: Option<InvertedIndex>): (r: string)
    requires inv.Some? ==> WellFormed(inv.value)
    ensures inv.None? || inv.value.words == [] ==> r == NO_ABSTRACT
  {
    if inv.None? || inv.value.words == [] then NO_ABSTRACT
    else Join(" ", SortedWords(inv.value))
  }

  /** The sorted words are the keys of the index, each exactly once however many positions it has. */
  lemma SortedWordsSpec(ix: InvertedIndex)
    requires WellFormed(ix)
    ensures var r := SortedWords(ix);
      && |r| == |ix.words|
      && multiset(r) == multiset(ix.words)
      && (forall w :: w in r <==> w in ix.positions)
      && Distinct(r)
  {
    SortDescSame(ix.words, EarliestFirst(ix));
    DistinctSub(ix.words, SortedWords(ix));
  }

  /** The sorted words come in ascending order of smallest position. */
  lemma SortedWordsAscending(ix: InvertedIndex)
    requires WellFormed(ix)
    ensures var r := SortedWords(ix);
      forall i, j :: 0 <= i < j < |r| ==>
        (r[i] in ix.positions && r[j] in ix.positions && MinPos(ix.positions[r[i]]) <= MinPos(ix.positions[r[j]]))
  {
    var r := SortedWords(ix);
    SortDescCorrect(ix.words, EarliestFirst(ix));
    SortDescMembers(ix.words, EarliestFirst(ix));
    forall i, j | 0 <= i < j < |r|
      ensures r[i] in ix.positions && r[j] in ix.positions && MinPos(ix.positions[r[i]]) <= MinPos(ix.positions[r[j]])
    {
      assert EarliestFirst(ix)(r[i]) >= EarliestFirst(ix)(r[j]);
    }
  }

  /** Words that share their smallest position keep the order they have in the index. */
  lemma SortedWordsStable(ix: InvertedIndex, p: int)
    requires WellFormed(ix)
    ensures WithKey(SortedWords(ix), EarliestFirst(ix), -(p as real)) == WithKey(ix.words, EarliestFirst(ix), -(p as real))
  {
    SortDescCorrect(ix.words, EarliestFirst(ix));
  }

  /**
   * For a non-empty index whose words contain no space, splitting the text at spaces gives back
   * the sorted words; in particular the text names every key of the index exactly once.
   */
  lemma ParseAbstractWords(ix: InvertedIndex)
    requires WellFormed(ix) && ix.words != []
    requires forall w :: w in ix.positions ==> ' ' !in w
    ensures Split(ParseAbstract(Some(ix)), ' ') == SortedWords(ix)
    ensures forall w :: w in Split(ParseAbstract(Some(ix)), ' ') <==> w in ix.positions
  {
    var r := SortedWords(ix);
    SortedWordsSpec(ix);
    assert forall i :: 0 <= i < |r| ==> ' ' !in r[i] by {
      forall i | 0 <= i < |r| ensures ' ' !in r[i] {
        assert r[i] in r;
      }
    }
    SplitJoin(r, ' ');
  }

  /** An index with one word gives that word alone. */
  lemma SingleWord(w: string, ps: seq<int>)
    requires ps != []
    ensures ParseAbstract(Some(InvertedIndex([w], map[w := ps]))) == w
  {
  }

  /** Two words come out in order of their smallest positions, whatever their dictionary order. */
  lemma TwoWords(a: string, b: string, pa: seq<int>, pb: seq<int>)
    requires a != b && pa != [] && pb != [] && MinPos(pb) < MinPos(pa)
    ensures ParseAbstract(Some(InvertedIndex([a, b], map[a := pa, b := pb]))) == b + " " + a
  {
    var ix := InvertedIndex([a, b], map[a := pa, b := pb]);
    var key := EarliestFirst(ix);
    assert key(b) > key(a);
    SortTwo(a, b, key);
    assert WellFormed(ix) by {
      assert forall w :: w in ix.positions <==> w == a || w == b;
    }
    assert ParseAbstract(Some(ix)) == Join(" ", [b, a]);
    assert [b, a][1..] == [a];
    assert Join(" ", [b, a]) == b + " " + Join(" ", [a]);
  }
}
