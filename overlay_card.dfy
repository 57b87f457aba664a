/**
 * The bottom "overlay card" of the map screen: its three states, the events
 * that move it between them, its per-state geometry, the gate that lets only
 * one group of animators run at a time, and the search-result list it shows.
 */
module OverlayCard {
  import opened Wrappers

  /** The three positions of the card. */
  datatype CardState = Collapsed | Expanded | FullyExpanded

  /** Size order of the states, which is also their order in the tap cycle. */
  function Rank(s: CardState): nat {
    match s
    case Collapsed => 0
    case Expanded => 1
    case FullyExpanded => 2
  }

  /** The state a tap on the drag handle moves the card to. */
  function Tapped(s: CardState): (t: CardState)
    ensures t != s
    ensures Rank(t) == (Rank(s) + 1) % 3
  {
    match s
    case Collapsed => Expanded
    case Expanded => FullyExpanded
    case FullyExpanded => Collapsed
  }

  /** The state a tap on the map, or a touch moving over the map screen, leaves the card in. */
  function Demoted(s: CardState): (d: CardState)
    ensures d != FullyExpanded
    ensures Rank(d) <= Rank(s)
    ensures s != FullyExpanded ==> d == s
    ensures s == FullyExpanded ==> d == Expanded
  {
    if s == FullyExpanded then Expanded else s
  }

  /** The user events that decide the card state. */
  datatype CardEvent =
    | HandleTap           // tap on the drag handle
    | BeginSearchEditing  // the search bar asks whether it may begin editing
    | CancelSearch        // the search bar's cancel button
    | MapTap              // tap on the map
    | TouchMove           // a touch moving over the map screen
    | HandlePan           // pan on the drag handle

  /** The map-side events, which only ever push the card down. */
  predicate IsMapSide(e: CardEvent) {
    e == MapTap || e == TouchMove
  }

  /** The card state after one event; the controllers' methods are proved against it. */
  function NextState(s: CardState, e: CardEvent): (r: CardState)
    ensures IsMapSide(e) ==> r != FullyExpanded && Rank(r) <= Rank(s)
    ensures r == FullyExpanded <==>
      e == BeginSearchEditing || (e == HandleTap && s == Expanded) || (e == HandlePan && s == FullyExpanded)
  {
    match e
    case HandleTap => Tapped(s)
    case BeginSearchEditing => FullyExpanded
    case CancelSearch => Expanded
    case MapTap => Demoted(s)
    case TouchMove => Demoted(s)
    case HandlePan => s
  }

  /** The card state after a sequence of events, applied first to last. */
  function Run(s: CardState, events: seq<CardEvent>): CardState
    decreases |events|
  {
    if events == [] then s else Run(NextState(s, events[0]), events[1..])
  }

  /** `n` copies of one event. */
  function Repeat(e: CardEvent, n: nat): (es: seq<CardEvent>)
    ensures |es| == n
    ensures forall i :: 0 <= i < n ==> es[i] == e
  {
    if n == 0 then [] else [e] + Repeat(e, n - 1)
  }

  /** Running two event sequences one after the other is running their concatenation. */
  lemma {:induction false} RunConcat(s: CardState, a: seq<CardEvent>, b: seq<CardEvent>)
    ensures Run(s, a + b) == Run(Run(s, a), b)
    decreases |a|
  {
    if a == [] {
      assert a + b == b;
    } else {
      assert (a + b)[0] == a[0];
      assert (a + b)[1..] == a[1..] + b;
      RunConcat(NextState(s, a[0]), a[1..], b);
    }
  }

  /** Taps cycle the card with period three: three taps bring it back where it started. */
  lemma {:induction false} TapsHavePeriodThree(s: CardState, n: nat)
    ensures Run(s, Repeat(HandleTap, n)) == Run(s, Repeat(HandleTap, n % 3))
    ensures n % 3 == 0 ==> Run(s, Repeat(HandleTap, n)) == s
  {
    if n >= 3 {
      var three := Repeat(HandleTap, 3);
      var rest := Repeat(HandleTap, n - 3);
      assert Repeat(HandleTap, n) == three + rest;
      assert three == [HandleTap, HandleTap, HandleTap];
      assert Run(s, three) == s;
      RunConcat(s, three, rest);
      TapsHavePeriodThree(s, n - 3);
      assert (n - 3) % 3 == n % 3;
    } else if n == 0 {
      assert Repeat(HandleTap, n) == [];
    }
  }

  /** Map-side events never raise the card, and any non-empty run of them ends below fully expanded. */
  lemma {:induction false} MapSideEventsOnlyDemote(s: CardState, events: seq<CardEvent>)
    requires forall i :: 0 <= i < |events| ==> IsMapSide(events[i])
    ensures Rank(Run(s, events)) <= Rank(s)
    ensures events != [] ==> Run(s, events) != FullyExpanded
    decreases |events|
  {
    if events != [] {
      var next := NextState(s, events[0]);
      MapSideEventsOnlyDemote(next, events[1..]);
      if events[1..] == [] {
        assert Run(s, events) == next;
      }
    }
  }

  /** Whatever happened before, a map tap or touch-move as the last event leaves the card below fully expanded. */
  lemma {:induction false} MapSideEventLast(s: CardState, events: seq<CardEvent>)
    requires events != [] && IsMapSide(events[|events| - 1])
    ensures Run(s, events) != FullyExpanded
  {
    var prefix := events[..|events| - 1];
    var last := [events[|events| - 1]];
    assert events == prefix + last;
    RunConcat(s, prefix, last);
    assert Run(Run(s, prefix), last) == Demoted(Run(s, prefix));
  }

  /** Beginning a search and then cancelling it always leaves the card expanded. */
  lemma SearchThenCancel(s: CardState, before: seq<CardEvent>)
    ensures Run(s, before + [BeginSearchEditing, CancelSearch]) == Expanded
  {
    RunConcat(s, before, [BeginSearchEditing, CancelSearch]);
  }

  /** Heights of the card's sub-views and of the screen, as laid out. */
  datatype Layout = Layout(draggableHeight: real, collectionHeight: real, tableHeight: real, screenHeight: real)

  /** Laid-out views never have a negative height. */
  predicate WellFormed(l: Layout) {
    l.draggableHeight >= 0.0 && l.collectionHeight >= 0.0 && l.tableHeight >= 0.0
  }

  /** The card's top edge never rises above this y-origin. */
  const MIN_Y_ORIGIN: real := 40.0
  /** What the collapsed card shows beyond the drag handle. */
  const COLLAPSED_MARGIN: real := 20.0
  /** The card's corner radius is its height divided by this. */
  const CORNER_RADIUS_DIVISOR: real := 40.0

  /** Visible height of the card in each state: a sum of sub-view heights. */
  function Height(s: CardState, l: Layout): (h: real)
    ensures WellFormed(l) ==> h >= 0.0
    ensures WellFormed(l) && s == Collapsed ==> h >= COLLAPSED_MARGIN
  {
    match s
    case Collapsed => l.draggableHeight + COLLAPSED_MARGIN
    case Expanded => l.collectionHeight + l.draggableHeight
    case FullyExpanded => l.tableHeight + l.collectionHeight + l.draggableHeight
  }

  /** Fully expanded is never shorter than expanded; collapsed is not taller than expanded exactly when the collection view is at least the margin tall. */
  lemma HeightsOrdered(l: Layout)
    requires WellFormed(l)
    ensures Height(Expanded, l) <= Height(FullyExpanded, l)
    ensures Height(Collapsed, l) <= Height(Expanded, l) <==> l.collectionHeight >= COLLAPSED_MARGIN
  {
  }

  /** The y-origin of the card in a state: the screen height less the card height, clamped to the margin. */
  function YOrigin(s: CardState, l: Layout): (y: real)
    ensures y >= MIN_Y_ORIGIN
    ensures y >= l.screenHeight - Height(s, l)
    ensures y == MIN_Y_ORIGIN || y == l.screenHeight - Height(s, l)
    ensures y + Height(s, l) >= l.screenHeight
  {
    var newYOrigin := l.screenHeight - Height(s, l);
    if newYOrigin < MIN_Y_ORIGIN then MIN_Y_ORIGIN else newYOrigin
  }

  /** A taller state never puts the card's top edge lower on the screen. */
  lemma FullyExpandedSitsHigher(l: Layout)
    requires WellFormed(l)
    ensures YOrigin(FullyExpanded, l) <= YOrigin(Expanded, l)
  {
  }

  /** The corner radius the card animates to in a state. */
  function CornerRadius(s: CardState, l: Layout): real {
    Height(s, l) / CORNER_RADIUS_DIVISOR
  }

  /** Corner radii are ordered as the heights are, and never negative for a laid-out card. */
  lemma CornerRadiusFollowsHeight(a: CardState, b: CardState, l: Layout)
    ensures CornerRadius(a, l) <= CornerRadius(b, l) <==> Height(a, l) <= Height(b, l)
    ensures WellFormed(l) ==> CornerRadius(a, l) >= 0.0
  {
  }

  /** The three property animators started together for one target state. */
  datatype AnimatorKind = FrameAnimator | CornerRadiusAnimator | VisualEffectAnimator
  datatype Animator = Animator(kind: AnimatorKind, target: CardState)

  function AnimatorsFor(s: CardState): (group: seq<Animator>)
    ensures |group| == 3
    ensures forall i :: 0 <= i < |group| ==> group[i].target == s
    ensures forall i, j :: 0 <= i < j < |group| ==> group[i].kind != group[j].kind
  {
    [Animator(FrameAnimator, s), Animator(CornerRadiusAnimator, s), Animator(VisualEffectAnimator, s)]
  }

  /** A place returned by the local search: its name, its placemark's title and its phone number. */
  datatype MapItem = MapItem(name: Option<string>, placemarkTitle: Option<string>, phoneNumber: Option<string>)

  /** What one row of the result table shows. */
  datatype Cell = Cell(title: Option<string>, subtitle: Option<string>, number: Option<string>)

  function CellOf(item: MapItem): Cell {
    Cell(item.name, item.placemarkTitle, item.phoneNumber)
  }

  /** The rows of the result table, one per item and in the items' order. */
  function Cells(items: seq<MapItem>): (cells: seq<Cell>)
    ensures |cells| == |items|
    ensures forall i :: 0 <= i < |items| ==> cells[i] == CellOf(items[i])
  {
    if items == [] then [] else [CellOf(items[0])] + Cells(items[1..])
  }

  /** Phases a pan gesture reports; `OtherPhase` covers possible, cancelled and failed. */
  datatype GesturePhase = Began | Changed | Ended | OtherPhase

  /**
   * The overlay card's controller. The search bar's focus and cancel button,
   * the card view's y-origin and corner radius, and the blur behind it are
   * plain fields here.
   */
  class OverlayViewController {
    var currentCardState: CardState
    /** Whether the search bar is first responder. */
    var searchFocused: bool
    var showsCancelButton: bool
    var runningAnimators: seq<Animator>
    /** The card view's frame origin y. */
    var originY: real
    var cornerRadius: real
    /** Whether the blur effect behind the card is on. */
    var blurOn: bool
    var mapItems: seq<MapItem>
    /** The query of the most recently started local search. */
    var searchQuery: string
    var searchesStarted: nat
    const layout: Layout

    /** The animator list is empty or holds one group of three for one target. */
    ghost predicate Valid()
      reads this
    {
      runningAnimators == [] || runningAnimators == AnimatorsFor(runningAnimators[0].target)
    }

    constructor (layout: Layout, originY: real)
      ensures Valid()
      ensures this.layout == layout && this.originY == originY
      ensures currentCardState == Collapsed && !searchFocused && !showsCancelButton
      ensures runningAnimators == [] && cornerRadius == 0.0 && !blurOn
      ensures mapItems == [] && searchQuery == "" && searchesStarted == 0
    {
      this.layout := layout;
      this.originY := originY;
      currentCardState := Collapsed;
      searchFocused, showsCancelButton := false, false;
      runningAnimators := [];
      cornerRadius, blurOn := 0.0, false;
      mapItems, searchQuery, searchesStarted := [], "", 0;
    }

    /** What one assignment to the card state does: drop focus when leaving search, start animators if none run, store the state. */
    twostate predicate CardStateAssigned(newValue: CardState)
      reads this
    {
      && currentCardState == newValue
      && searchFocused == (old(searchFocused) && newValue == FullyExpanded)
      && showsCancelButton == (old(showsCancelButton) && !(old(searchFocused) && newValue != FullyExpanded))
      && runningAnimators == (if old(runningAnimators) == [] then AnimatorsFor(newValue) else old(runningAnimators))
    }

    /** An assignment to the card state, with its property observer. */
    method SetCardState(newValue: CardState)
      requires Valid()
      modifies this`currentCardState, this`searchFocused, this`showsCancelButton, this`runningAnimators
      ensures Valid() && CardStateAssigned(newValue)
      ensures newValue != FullyExpanded ==> !searchFocused && (old(searchFocused) ==> !showsCancelButton)
      ensures newValue == FullyExpanded ==> searchFocused == old(searchFocused) && showsCancelButton == old(showsCancelButton)
      ensures old(runningAnimators) != [] ==> runningAnimators == old(runningAnimators)
      ensures old(runningAnimators) == [] ==> |runningAnimators| == 3
    {
      if newValue != FullyExpanded {
        if searchFocused {
          showsCancelButton := false;
          searchFocused := false;
        }
      }
      StartAnimators(newValue);
      currentCardState := newValue;
    }

    /** Starts the three animators for a target, unless a group is still running. */
    method StartAnimators(state: CardState)
      requires Valid()
      modifies this`runningAnimators
      ensures Valid()
      ensures runningAnimators == if old(runningAnimators) == [] then AnimatorsFor(state) else old(runningAnimators)
    {
      if runningAnimators != [] {
        return;
      }
      runningAnimators := runningAnimators + AnimatorsFor(state);
    }

    /** The end of a running animator group: the card has reached its target's geometry and the list is cleared. */
    method AnimatorsCompleted()
      requires Valid()
      modifies this`runningAnimators, this`originY, this`cornerRadius, this`blurOn
      ensures Valid() && runningAnimators == []
      ensures old(runningAnimators) == [] ==>
        originY == old(originY) && cornerRadius == old(cornerRadius) && blurOn == old(blurOn)
      ensures old(runningAnimators) != [] ==>
        var target := old(runningAnimators)[0].target;
        && originY == YOrigin(target, layout) && originY >= MIN_Y_ORIGIN
        && cornerRadius == CornerRadius(target, layout)
        && blurOn == (target == FullyExpanded)
    {
      if runningAnimators == [] {
        return;
      }
      var target := runningAnimators[0].target;
      originY := YOrigin(target, layout);
      cornerRadius := CornerRadius(target, layout);
      blurOn := target == FullyExpanded;
      runningAnimators := [];
    }

    /** The search bar asks whether it may begin editing: the card goes fully expanded and the cancel button shows. */
    method SearchBarShouldBeginEditing() returns (shouldBegin: bool)
      requires Valid()
      modifies this`currentCardState, this`searchFocused, this`showsCancelButton, this`runningAnimators
      ensures Valid() && shouldBegin
      ensures currentCardState == FullyExpanded == NextState(old(currentCardState), BeginSearchEditing)
      ensures showsCancelButton && searchFocused == old(searchFocused)
      ensures runningAnimators ==
        if old(currentCardState) != FullyExpanded && old(runningAnimators) == [] then AnimatorsFor(FullyExpanded)
        else old(runningAnimators)
    {
      if currentCardState != FullyExpanded {
        SetCardState(FullyExpanded);
      }
      showsCancelButton := true;
      shouldBegin := true;
    }

    /** The search bar becomes first responder, as the framework does once editing may begin. */
    method SearchBarBecameFirstResponder()
      modifies this`searchFocused
      ensures searchFocused
    {
      searchFocused := true;
    }

    /** A change of search text starts a new local search for it. */
    method SearchTextDidChange(searchText: string)
      modifies this`searchQuery, this`searchesStarted
      ensures searchQuery == searchText && searchesStarted == old(searchesStarted) + 1
    {
      searchQuery := searchText;
      searchesStarted := searchesStarted + 1;
    }

    /** A local search's completion handler: an error changes nothing, a response replaces the items wholesale. */
    method SearchCompleted(response: Option<seq<MapItem>>, error: Option<string>)
      modifies this`mapItems
      ensures mapItems == if error.None? && response.Some? then response.value else old(mapItems)
      ensures error.None? && response.Some? ==>
        NumberOfRows() == |response.value| &&
        forall row :: 0 <= row < |response.value| ==> CellForRow(row) == CellOf(response.value[row])
    {
      if error.Some? {
        return;
      }
      if response.Some? {
        mapItems := response.value;
      }
    }

    /** The cancel button sends the card back to expanded, which also drops search focus. */
    method SearchBarCancelButtonClicked()
      requires Valid()
      modifies this`currentCardState, this`searchFocused, this`showsCancelButton, this`runningAnimators
      ensures Valid() && CardStateAssigned(Expanded)
      ensures currentCardState == NextState(old(currentCardState), CancelSearch)
      ensures !searchFocused && (old(searchFocused) ==> !showsCancelButton)
    {
      SetCardState(Expanded);
    }

    /** A tap on the drag handle advances the card one step in its cycle. */
    method HandleTapGesture()
      requires Valid()
      modifies this`currentCardState, this`searchFocused, this`showsCancelButton, this`runningAnimators
      ensures Valid() && CardStateAssigned(Tapped(old(currentCardState)))
      ensures currentCardState == NextState(old(currentCardState), HandleTap)
    {
      match currentCardState
      case Collapsed => SetCardState(Expanded);
      case Expanded => SetCardState(FullyExpanded);
      case FullyExpanded => SetCardState(Collapsed);
    }

    /** A pan on the drag handle only logs its phase; the card state is left alone. */
    method HandlePanGesture(phase: GesturePhase) returns (logged: Option<string>)
      ensures logged.Some? <==> phase != OtherPhase
    {
      match phase
      case Began => logged := Some("began");
      case Changed => logged := Some("changed");
      case Ended => logged := Some("ended");
      case OtherPhase => logged := None;
    }

    /** The result table has one row per item of the latest response. */
    function NumberOfRows(): (n: nat)
      reads this
      ensures n == |Cells(mapItems)|
    {
      |mapItems|
    }

    /** The contents of one row of the result table. */
    function CellForRow(row: nat): (c: Cell)
      reads this
      requires row < NumberOfRows()
      ensures c == Cells(mapItems)[row]
    {
      CellOf(mapItems[row])
    }
  }

  /**
   * Two taps in quick succession: the second changes the card state but starts
   * no animation, so when the first group completes the card shows the state
   * after one tap while its state is the one after two.
   */
  method TwoQuickTaps(card: OverlayViewController)
    requires card.Valid() && card.runningAnimators == []
    modifies card
    ensures card.Valid() && card.runningAnimators == []
    ensures card.currentCardState == Tapped(Tapped(old(card.currentCardState)))
    ensures card.originY == YOrigin(Tapped(old(card.currentCardState)), card.layout)
    ensures card.blurOn == (Tapped(old(card.currentCardState)) == FullyExpanded)
    ensures card.currentCardState != Tapped(old(card.currentCardState))
  {
    card.HandleTapGesture();
    card.HandleTapGesture();
    card.AnimatorsCompleted();
  }
}
