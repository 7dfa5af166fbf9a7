/** The dashboard's pet grid: which of its four shapes is on screen. */
module PetsListView {
  import opened PetsListHook

  /** Skeleton cards while the first page loads. */
  const FullSkeletonCount: nat := 6
  /** Skeleton cards under the grid while a further page loads. */
  const MoreSkeletonCount: nat := 3

  datatype PetsView =
    | LoadingSkeleton(count: nat)
    | EmptyList(state: EmptyStateView)
    | Grid(cards: seq<PetCard>, moreSkeletons: nat)

  /** `PetsList`: the full skeleton while loading with no cards, the empty
      state when empty and idle, otherwise one card per item in order,
      followed by the small skeleton while a load runs. */
  function SelectPetsView(items: seq<PetCard>, isLoading: bool, isEmpty: bool, emptyState: EmptyStateView): (v: PetsView)
    ensures isLoading && items == [] ==> v == LoadingSkeleton(FullSkeletonCount)
    ensures !(isLoading && items == []) && isEmpty && !isLoading ==> v == EmptyList(emptyState)
    ensures !(isLoading && items == []) && !(isEmpty && !isLoading) ==>
      v == Grid(items, if isLoading then MoreSkeletonCount else 0)
    ensures v.Grid? ==> v.cards == items && (v.moreSkeletons == MoreSkeletonCount <==> isLoading)
    ensures v.Grid? ==> (v.moreSkeletons == 0 <==> !isLoading)
  {
    if isLoading && |items| == 0 then LoadingSkeleton(FullSkeletonCount)
    else if isEmpty && !isLoading then EmptyList(emptyState)
    else Grid(items, if isLoading && |items| > 0 then MoreSkeletonCount else 0)
  }

  /** With `isEmpty` meaning "no items", as the dashboard passes it, the
      views split the states: the full skeleton exactly when loading with no
      items, the empty state exactly when idle with no items, the grid of
      every item whenever there are items, with the small skeleton exactly
      while loading. */
  lemma {:induction false} PetsViewPartition(items: seq<PetCard>, isLoading: bool, emptyState: EmptyStateView)
    ensures var v := SelectPetsView(items, isLoading, items == [], emptyState);
      && (v.LoadingSkeleton? <==> isLoading && items == [])
      && (v.EmptyList? <==> !isLoading && items == [])
      && (v.Grid? <==> items != [])
      && (v.Grid? ==> v.cards == items && (v.moreSkeletons > 0 <==> isLoading))
  {
  }
}
