/** The app's root (Meeat/ContentView.swift): a two-step onboarding flow
    (location, then time window) and, once it completes, the main tabs for
    good. `userInRequest` is ContentView's @State; `onboardingStep` is the
    `step` @State of the OnboardingFlowView it shows, kept here as one object
    because that view lives exactly as long as `userInRequest` is false. */
module Onboarding {
  import opened Models
  import MapSearch
  import TimeSelector

  datatype Screen = MapSearchScreen | TimeSelectorScreen | EmptyScreen | MainTabs

  /** What ContentView shows: the main tabs once the user is in a request,
      otherwise the onboarding step's screen, and nothing for any step other
      than 0 or 1. */
  function CurrentScreen(userInRequest: bool, onboardingStep: int): (s: Screen)
    ensures s == MainTabs <==> userInRequest
    ensures s == MapSearchScreen <==> !userInRequest && onboardingStep == 0
    ensures s == TimeSelectorScreen <==> !userInRequest && onboardingStep == 1
    ensures s == EmptyScreen <==> !userInRequest && onboardingStep != 0 && onboardingStep != 1
  {
    if userInRequest then MainTabs
    else if onboardingStep == 0 then MapSearchScreen
    else if onboardingStep == 1 then TimeSelectorScreen
    else EmptyScreen
  }

  /** The window ContentView starts with, one hour long, passes the check
      that gates Start Matching. */
  lemma InitialWindowValid(now: Date)
    ensures TimeSelector.IsTimeValid(now, now + 3600)
    ensures TimeSelector.WindowGates(now, now + 3600).startEnabled
  {
  }

  /** The root's events, for reasoning about whole sessions. */
  datatype RootEvent =
    | PickLocation(coord: Coordinate, pinId: Uuid)
    | SetTime
    | PickStart(t: Date)
    | PickEnd(t: Date)
    | StartMatching

  /** The root's state as a value: (userInRequest, location, start, end, step). */
  datatype Root = Root(userInRequest: bool, selectedLocation: Option<LocationPin>, startTime: Date, endTime: Date, step: int)

  /** An event on a screen that does not show its control does nothing. */
  function RootNext(r: Root, e: RootEvent): (r': Root)
    ensures r.userInRequest ==> r' == r
    ensures r.selectedLocation != None ==> r'.selectedLocation != None
  {
    var screen := CurrentScreen(r.userInRequest, r.step);
    match e
    case PickLocation(coord, pinId) =>
      if screen == MapSearchScreen then r.(selectedLocation := Some(LocationPin(pinId, coord))) else r
    case SetTime =>
      if screen == MapSearchScreen && MapSearch.SetTimeEnabled(r.selectedLocation) then r.(step := 1) else r
    case PickStart(t) =>
      if screen == TimeSelectorScreen then r.(startTime := t) else r
    case PickEnd(t) =>
      if screen == TimeSelectorScreen then r.(endTime := t) else r
    case StartMatching =>
      if screen == TimeSelectorScreen && TimeSelector.IsTimeValid(r.startTime, r.endTime)
      then r.(userInRequest := true) else r
  }

  function RootRun(r: Root, events: seq<RootEvent>): Root
    decreases |events|
  {
    if events == [] then r else RootRun(RootNext(r, events[0]), events[1..])
  }

  /** The step is always 0 or 1 (so the empty screen never shows); the time
      step is only reached with a location chosen; and the main tabs are only
      reached with a location and a valid window, which nothing can edit
      once onboarding has gone. */
  predicate RootInv(r: Root)
  {
    (r.step == 0 || r.step == 1) &&
    (r.step == 1 ==> r.selectedLocation != None) &&
    (r.userInRequest ==> r.selectedLocation != None && TimeSelector.IsTimeValid(r.startTime, r.endTime))
  }

  function InitialRoot(now: Date): Root
  {
    Root(false, None, now, now + 3600, 0)
  }

  /** Every session keeps the invariant. */
  lemma {:induction false} RunKeepsRootInv(r: Root, events: seq<RootEvent>)
    requires RootInv(r)
    ensures RootInv(RootRun(r, events))
    decreases |events|
  {
    if events != [] {
      RootNextKeepsInv(r, events[0]);
      RunKeepsRootInv(RootNext(r, events[0]), events[1..]);
    }
  }

  lemma RootNextKeepsInv(r: Root, e: RootEvent)
    requires RootInv(r)
    ensures RootInv(RootNext(r, e))
  {
  }

  /** A session that starts on the initial screen shows the main tabs only
      after a location was chosen and a valid window set, and never shows the
      empty screen. */
  lemma SessionReachesTabsThroughGates(now: Date, events: seq<RootEvent>)
    ensures var r := RootRun(InitialRoot(now), events);
            CurrentScreen(r.userInRequest, r.step) != EmptyScreen &&
            (r.userInRequest ==> r.selectedLocation != None && r.endTime > r.startTime)
  {
    RunKeepsRootInv(InitialRoot(now), events);
  }

  /** The gates can be passed: choosing a location, tapping Set Time and then
      Start Matching on the initial one-hour window reaches the main tabs. */
  lemma TabsReachable(now: Date, coord: Coordinate, pinId: Uuid)
    ensures var r := RootRun(InitialRoot(now), [PickLocation(coord, pinId), SetTime, StartMatching]);
            CurrentScreen(r.userInRequest, r.step) == MainTabs &&
            r.selectedLocation == Some(LocationPin(pinId, coord))
  {
    var events := [PickLocation(coord, pinId), SetTime, StartMatching];
    var r1 := RootNext(InitialRoot(now), events[0]);
    var r2 := RootNext(r1, events[1]);
    var r3 := RootNext(r2, events[2]);
    assert events[1..][1..] == [StartMatching];
    assert RootRun(r2, [StartMatching]) == RootRun(r3, []);
    assert RootRun(InitialRoot(now), events) == r3;
  }

  /** Once the main tabs are shown they stay shown, with the state they were
      entered with; and a chosen location is never cleared. */
  lemma {:induction false} MainTabsAreFinal(r: Root, events: seq<RootEvent>)
    ensures r.userInRequest ==> RootRun(r, events) == r
    ensures r.selectedLocation != None ==> RootRun(r, events).selectedLocation != None
    decreases |events|
  {
    if events != [] {
      MainTabsAreFinal(RootNext(r, events[0]), events[1..]);
    }
  }

  class ContentView {
    var userInRequest: bool
    var selectedLocation: Option<LocationPin>
    var startTime: Date
    var endTime: Date
    var onboardingStep: int

    function State(): Root
      reads this
    {
      Root(userInRequest, selectedLocation, startTime, endTime, onboardingStep)
    }

    ghost predicate Valid()
      reads this
    {
      RootInv(State())
    }

    constructor (now: Date)
      ensures Valid()
      ensures !userInRequest && onboardingStep == 0 && selectedLocation == None
      ensures startTime == now && endTime == now + 3600
      ensures State() == InitialRoot(now)
      ensures CurrentScreen(userInRequest, onboardingStep) == MapSearchScreen
    {
      userInRequest := false;
      selectedLocation := None;
      startTime, endTime := now, now + 3600;
      onboardingStep := 0;
    }

    /** The map's `onCameraIdle` writing the selected-location binding. */
    method CameraIdle(coord: Coordinate, pinId: Uuid)
      requires Valid() && CurrentScreen(userInRequest, onboardingStep) == MapSearchScreen
      modifies this`selectedLocation
      ensures Valid() && State() == RootNext(old(State()), RootEvent.PickLocation(coord, pinId))
      ensures selectedLocation == Some(LocationPin(pinId, coord))
    {
      selectedLocation := Some(LocationPin(pinId, coord));
    }

    /** Set Time on step 0: its callback moves to step 1, and fires only
        when a location is selected. */
    method TapSetTime()
      requires Valid() && CurrentScreen(userInRequest, onboardingStep) == MapSearchScreen
      modifies this`onboardingStep
      ensures Valid() && State() == RootNext(old(State()), RootEvent.SetTime)
      ensures onboardingStep == if MapSearch.SetTimeEnabled(selectedLocation) then 1 else 0
      ensures CurrentScreen(userInRequest, onboardingStep) ==
              if selectedLocation != None then TimeSelectorScreen else MapSearchScreen
    {
      if MapSearch.SetTimeEnabled(selectedLocation) {
        onboardingStep := 1;
      }
    }

    /** The start-time picker on step 1. */
    method PickStartTime(t: Date)
      requires Valid() && CurrentScreen(userInRequest, onboardingStep) == TimeSelectorScreen
      modifies this`startTime
      ensures Valid() && State() == RootNext(old(State()), RootEvent.PickStart(t))
      ensures startTime == t
    {
      startTime := t;
    }

    /** The end-time picker on step 1. */
    method PickEndTime(t: Date)
      requires Valid() && CurrentScreen(userInRequest, onboardingStep) == TimeSelectorScreen
      modifies this`endTime
      ensures Valid() && State() == RootNext(old(State()), RootEvent.PickEnd(t))
      ensures endTime == t
    {
      endTime := t;
    }

    /** Start Matching on step 1: its callback calls `onComplete`, which sets
        `userInRequest`; the button only fires for a valid window. */
    method TapStartMatching()
      requires Valid() && CurrentScreen(userInRequest, onboardingStep) == TimeSelectorScreen
      modifies this`userInRequest
      ensures Valid() && State() == RootNext(old(State()), RootEvent.StartMatching)
      ensures userInRequest == TimeSelector.IsTimeValid(startTime, endTime)
      ensures CurrentScreen(userInRequest, onboardingStep) ==
              if endTime > startTime then MainTabs else TimeSelectorScreen
    {
      if TimeSelector.WindowGates(startTime, endTime).startEnabled {
        userInRequest := true;
      }
    }
  }
}
