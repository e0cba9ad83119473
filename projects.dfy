/**
  The project gallery (client/src/components/Projects/Projects.tsx): the selected
  project with its clamped previous/next navigation, and the schedule of the
  highlight sweep that runs once the grid scrolls into view.
 */
module Projects {
  import opened Wrappers

  // ---------------------------------------------------------------------------
  // Navigation over `selectedIndex: number | null`
  // ---------------------------------------------------------------------------

  /** The updater passed by `handlePrev`. */
  function Prev(i: Option<int>): Option<int> {
    if i.Some? && i.value > 0 then Some(i.value - 1) else i
  }

  /** The updater passed by `handleNext`, for `count` projects. */
  function Next(i: Option<int>, count: int): Option<int> {
    if i.Some? && i.value < count - 1 then Some(i.value + 1) else i
  }

  /** No selection, or the index of one of the `count` projects. */
  predicate InRange(i: Option<int>, count: int) {
    i.Some? ==> 0 <= i.value < count
  }

  /** The panel's `isFirst` prop. */
  predicate IsFirst(i: Option<int>) {
    i == Some(0)
  }

  /** The panel's `isLast` prop. */
  predicate IsLast(i: Option<int>, count: int) {
    i == Some(count - 1)
  }

  /** Previous and next never leave the range of projects, and never select anything
      when nothing is selected. */
  lemma NavigationStaysInRange(i: Option<int>, count: int)
    ensures InRange(i, count) ==> InRange(Prev(i), count) && InRange(Next(i, count), count)
    ensures i.None? ==> Prev(i).None? && Next(i, count).None?
  {
  }

  /** Each step moves by exactly one or not at all. */
  lemma NavigationMovesByOne(i: Option<int>, count: int)
    ensures Prev(i) == i || (i.Some? && Prev(i) == Some(i.value - 1))
    ensures Next(i, count) == i || (i.Some? && Next(i, count) == Some(i.value + 1))
  {
  }

  /** Next then previous returns to a project that is not the last; previous then
      next returns to a project that is not the first. */
  lemma NavigationRoundTrips(i: Option<int>, count: int)
    requires InRange(i, count)
    ensures !IsLast(i, count) ==> Prev(Next(i, count)) == i
    ensures !IsFirst(i) ==> Next(Prev(i), count) == i
  {
  }

  /** Within range, previous is stuck exactly on the first project and next exactly
      on the last, which is what `isFirst`/`isLast` tell the panel. */
  lemma StopsAtTheEnds(i: Option<int>, count: int)
    requires i.Some? && InRange(i, count)
    ensures Prev(i) == i <==> IsFirst(i)
    ensures Next(i, count) == i <==> IsLast(i, count)
  {
  }

  /** The gallery's selection state. */
  class Gallery {
    const count: nat
    var selectedIndex: Option<int>

    ghost predicate Valid()
      reads this
    {
      InRange(selectedIndex, count)
    }

    constructor (count: nat)
      ensures Valid() && this.count == count && selectedIndex == None
    {
      this.count := count;
      selectedIndex := None;
    }

    /** Clicking card `index`. */
    method SelectCard(index: nat)
      requires index < count
      modifies this
      ensures Valid() && selectedIndex == Some(index)
    {
      selectedIndex := Some(index);
    }

    /** The panel's close button. */
    method ClosePanel()
      modifies this
      ensures Valid() && selectedIndex == None
    {
      selectedIndex := None;
    }

    method HandlePrev()
      requires Valid()
      modifies this
      ensures Valid() && selectedIndex == Prev(old(selectedIndex))
    {
      NavigationStaysInRange(selectedIndex, count);
      selectedIndex := Prev(selectedIndex);
    }

    method HandleNext()
      requires Valid()
      modifies this
      ensures Valid() && selectedIndex == Next(old(selectedIndex), count)
    {
      NavigationStaysInRange(selectedIndex, count);
      selectedIndex := Next(selectedIndex, count);
    }
  }

  // ---------------------------------------------------------------------------
  // Highlight sweep
  // ---------------------------------------------------------------------------

  const HighlightDuration: int := 180
  const SequenceStart: int := 2400

  /** A `setTimeout` request: after `delay` milliseconds set the highlighted index
      to `highlight` (`None` clears it). */
  datatype Timer = Timer(delay: int, highlight: Option<nat>)

  /** When project `i` lights up. */
  function WindowStart(i: nat): int {
    SequenceStart + i * HighlightDuration
  }

  /** The `forEach` over the projects: for each one, a timer that highlights it at the
      start of its window and a timer that clears the highlight at its end.  The
      delays come out in nondecreasing order. */
  method ScheduleHighlights(count: nat) returns (timers: seq<Timer>)
    ensures |timers| == 2 * count
    ensures forall i :: 0 <= i < count ==>
              timers[2 * i] == Timer(WindowStart(i), Some(i)) &&
              timers[2 * i + 1] == Timer(WindowStart(i) + HighlightDuration, None)
    ensures forall j, k :: 0 <= j <= k < |timers| ==> timers[j].delay <= timers[k].delay
  {
    timers := [];
    var index := 0;
    while index < count
      invariant 0 <= index <= count
      invariant |timers| == 2 * index
      invariant forall i :: 0 <= i < index ==>
                  timers[2 * i] == Timer(WindowStart(i), Some(i)) &&
                  timers[2 * i + 1] == Timer(WindowStart(i) + HighlightDuration, None)
      invariant forall j, k :: 0 <= j <= k < |timers| ==> timers[j].delay <= timers[k].delay
      invariant forall j :: 0 <= j < |timers| ==> timers[j].delay <= WindowStart(index)
    {
      var start := SequenceStart + index * HighlightDuration;
      timers := timers + [Timer(start, Some(index))];
      timers := timers + [Timer(start + HighlightDuration, None)];
      index := index + 1;
    }
  }

  /** Each window ends where the next begins. */
  lemma WindowsAreContiguous(i: nat)
    ensures WindowStart(i) + HighlightDuration == WindowStart(i + 1)
  {
  }

  /** Windows are ordered by project index and no instant lies in two of them. */
  lemma WindowsAreDisjoint(i: nat, j: nat, t: int)
    requires WindowStart(i) <= t < WindowStart(i) + HighlightDuration
    requires WindowStart(j) <= t < WindowStart(j) + HighlightDuration
    ensures i == j
  {
  }

  lemma WindowsAreOrdered(i: nat, j: nat)
    requires i < j
    ensures WindowStart(i) + HighlightDuration <= WindowStart(j)
  {
  }
}
