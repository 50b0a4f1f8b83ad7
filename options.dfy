/** The closed set of effect kinds and the fixed-length chain order
    (`DSP_OPTION`, `DSP_ORDER` and `DSP_POINTERS` of the processor header). */
module Options {

  /** One effect kind per processing stage; `EndOfList` is the sentinel whose
      ordinal is the number of real kinds. */
  datatype DspOption = Phase | Chorus | Overdrive | LadderFilter | GeneralFilter | EndOfList

  /** `static_cast<size_t>` of an enumerator: consecutive ordinals from 0. */
  function Ordinal(k: DspOption): (n: nat)
    ensures n <= 5
    ensures n == 5 <==> k == EndOfList
  {
    match k
    case Phase => 0
    case Chorus => 1
    case Overdrive => 2
    case LadderFilter => 3
    case GeneralFilter => 4
    case EndOfList => 5
  }

  /** Length of both fixed-size arrays: the ordinal of the sentinel (see
      `OrdinalsIndexTable`). */
  const ChainLength: nat := 5

  /** The enumerator with a given ordinal (inverse of `Ordinal`). */
  function KindOf(n: nat): (k: DspOption)
    requires n <= ChainLength
    ensures Ordinal(k) == n
  {
    if n == 0 then Phase
    else if n == 1 then Chorus
    else if n == 2 then Overdrive
    else if n == 3 then LadderFilter
    else if n == 4 then GeneralFilter
    else EndOfList
  }

  /** Distinct enumerators have distinct ordinals, and every real effect kind
      indexes a slot of an array of length `ChainLength`. */
  lemma OrdinalsIndexTable(j: DspOption, k: DspOption)
    ensures ChainLength == Ordinal(EndOfList)
    ensures Ordinal(j) == Ordinal(k) ==> j == k
    ensures KindOf(Ordinal(k)) == k
    ensures k != EndOfList <==> Ordinal(k) < ChainLength
  {
  }

  /** The order the processor starts with: every kind at its own ordinal. */
  function DefaultOrder(): (order: seq<DspOption>)
    ensures |order| == ChainLength
    ensures forall i :: 0 <= i < |order| ==> Ordinal(order[i]) == i
  {
    [Phase, Chorus, Overdrive, LadderFilter, GeneralFilter]
  }

  /** Number of positions of `order` whose kind converts to slot `index`. */
  function Occurrences(order: seq<DspOption>, index: nat): (n: nat)
    ensures n <= |order|
  {
    if order == [] then 0
    else Occurrences(order[..|order| - 1], index) + (if Ordinal(order[|order| - 1]) == index then 1 else 0)
  }

  /** The intended (but unenforced) shape of a chain order: every real kind
      exactly once. */
  ghost predicate IsPermutation(order: seq<DspOption>)
  {
    |order| == ChainLength &&
    forall k: DspOption :: k != EndOfList ==> multiset(order)[k] == 1
  }

  /** Counting slot positions is counting the kind itself. */
  lemma {:induction false} OccurrencesCountsKind(order: seq<DspOption>, k: DspOption)
    ensures Occurrences(order, Ordinal(k)) == multiset(order)[k]
    decreases |order|
  {
    if order != [] {
      var init, last := order[..|order| - 1], order[|order| - 1];
      assert order == init + [last];
      OccurrencesCountsKind(init, k);
      OrdinalsIndexTable(last, k);
    }
  }

  /** In a permutation the sentinel is absent and every real kind names its
      slot exactly once. */
  lemma PermutationOccurrences(order: seq<DspOption>, index: nat)
    requires IsPermutation(order)
    ensures Occurrences(order, index) == if index < ChainLength then 1 else 0
  {
    if index < ChainLength {
      OccurrencesCountsKind(order, KindOf(index));
    } else {
      OccurrencesCountsKind(order, EndOfList);
      var kinds := multiset{Phase, Chorus, Overdrive, LadderFilter, GeneralFilter};
      assert forall k :: k != EndOfList ==> multiset(order)[k] == kinds[k];
      assert |multiset(order)| == ChainLength;
      assert multiset(order)[EndOfList] == 0 by {
        if multiset(order)[EndOfList] > 0 {
          assert false;
        }
      }
      if index > ChainLength {
        NoOccurrencesPastSentinel(order, index);
      }
    }
  }

  /** No kind converts to an index beyond the sentinel's. */
  lemma {:induction false} NoOccurrencesPastSentinel(order: seq<DspOption>, index: nat)
    requires index > ChainLength
    ensures Occurrences(order, index) == 0
    decreases |order|
  {
    if order != [] {
      NoOccurrencesPastSentinel(order[..|order| - 1], index);
    }
  }

  /** The default order is a permutation of the five effect kinds. */
  lemma DefaultOrderIsPermutation()
    ensures IsPermutation(DefaultOrder())
  {
    var order := DefaultOrder();
    forall k: DspOption | k != EndOfList
      ensures multiset(order)[k] == 1
    {
      OccurrencesCountsKind(order, k);
    }
  }
}
