/** The four-step match wizard (Meeat/MatchFlowView.swift): pick a location,
    pick a time window, browse candidates, wait to meet. The step is the
    screen's @State; each child screen's callback overwrites it. The child
    screens are not separate objects here: their events that write through
    bindings (a camera stop, a time picker) act directly on this state. */
module MatchFlow {
  import opened Models
  import Carousel
  import CandidateCard
  import MapSearch
  import TimeSelector

  datatype MatchFlowStep = LocationSelection | TimeSelection | Matching | MeetUpWait

  /** Position of a step in the wizard. */
  function Ordinal(s: MatchFlowStep): nat
  {
    match s
    case LocationSelection => 0
    case TimeSelection => 1
    case Matching => 2
    case MeetUpWait => 3
  }

  /** The step a forward callback moves to: location -> time on Set Time,
      time -> matching on Start Matching, matching -> wait on Send Match. */
  function Forward(s: MatchFlowStep): (t: MatchFlowStep)
    requires s != MeetUpWait
    ensures Ordinal(t) == Ordinal(s) + 1
  {
    match s
    case LocationSelection => TimeSelection
    case TimeSelection => Matching
    case Matching => MeetUpWait
  }

  /** The toolbar offers Back only on the two middle steps. */
  predicate BackOffered(s: MatchFlowStep): (offered: bool)
    ensures offered <==> 1 <= Ordinal(s) <= 2
  {
    s != LocationSelection && s != MeetUpWait
  }

  /** The Back button's switch, with every branch the source writes,
      including the one for `meetUpWait`. */
  function BackTarget(s: MatchFlowStep): (t: MatchFlowStep)
    ensures s != LocationSelection ==> Ordinal(t) + 1 == Ordinal(s)
    ensures s == LocationSelection ==> t == s
  {
    match s
    case TimeSelection => LocationSelection
    case Matching => TimeSelection
    case MeetUpWait => Matching
    case LocationSelection => s
  }

  /** Back undoes the forward move into a step where it is offered, and
      moving forward again returns to where Back was pressed. */
  lemma BackUndoesForward(s: MatchFlowStep)
    ensures s != MeetUpWait && BackOffered(Forward(s)) ==> BackTarget(Forward(s)) == s
    ensures BackOffered(s) ==> Forward(BackTarget(s)) == s
  {
  }

  /** The `meetUpWait` branch of the Back switch can never run, nor can its
      `default` branch: the button is only shown on the two middle steps, and
      there every press lands exactly one step earlier. */
  lemma BackOnlyFromMiddleSteps(s: MatchFlowStep)
    requires BackOffered(s)
    ensures s == TimeSelection || s == Matching
    ensures Ordinal(BackTarget(s)) + 1 == Ordinal(s)
  {
  }

  /** `StepIndicator.steps`: the "done" flag of each of the four stages. */
  function Indicator(s: MatchFlowStep): (flags: seq<bool>)
    ensures |flags| == 4
    ensures flags[0] <==> Ordinal(s) >= 1
    ensures flags[1] <==> Ordinal(s) >= 2
    ensures flags[2] <==> Ordinal(s) >= 2
    ensures flags[3] <==> Ordinal(s) >= 3
  {
    [ s != LocationSelection,
      s == Matching || s == MeetUpWait,
      s == Matching || s == MeetUpWait,
      s == MeetUpWait ]
  }

  /** The flags are prefix-closed (a finished stage implies every earlier
      one is finished) and the second and third always agree. */
  lemma IndicatorPrefixClosed(s: MatchFlowStep, a: nat, b: nat)
    requires a <= b < 4
    ensures Indicator(s)[b] ==> Indicator(s)[a]
    ensures Indicator(s)[1] == Indicator(s)[2]
  {
  }

  class MatchFlowView {
    var currentStep: MatchFlowStep
    var selectedLocation: Option<LocationPin>
    var startTime: Date
    var endTime: Date
    var candidates: seq<Candidate>
    var currentCandidateIndex: int
    var refreshCount: int
    var lastRefreshDate: Date

    /** The card's subscript is always in range, a step past the location
        screen always has a location, and the matching and wait steps were
        reached through a valid window that nobody can edit there. */
    ghost predicate Valid()
      reads this
    {
      0 <= currentCandidateIndex < |candidates| &&
      (currentStep != LocationSelection ==> selectedLocation != None) &&
      (Ordinal(currentStep) >= 2 ==> TimeSelector.IsTimeValid(startTime, endTime))
    }

    /** The view's initial state; `cs` is its fixed mock list (four entries)
        and `now` the current time, the window lasting one hour from it. */
    constructor (cs: seq<Candidate>, now: Date)
      requires |cs| > 0
      ensures Valid()
      ensures currentStep == LocationSelection && currentCandidateIndex == 0
      ensures candidates == cs && selectedLocation == None
      ensures startTime == now && endTime == now + 3600
      ensures refreshCount == 0 && lastRefreshDate == now
    {
      currentStep := LocationSelection;
      selectedLocation := None;
      startTime, endTime := now, now + 3600;
      candidates := cs;
      currentCandidateIndex := 0;
      refreshCount, lastRefreshDate := 0, now;
    }

    /** The map's `onCameraIdle` writing the selected-location binding. */
    method CameraIdle(coord: Coordinate, pinId: Uuid)
      requires Valid() && currentStep == LocationSelection
      modifies this`selectedLocation
      ensures Valid()
      ensures selectedLocation == Some(LocationPin(pinId, coord))
    {
      selectedLocation := Some(LocationPin(pinId, coord));
    }

    /** Set Time: `onSetTime` moves on to the time step, but only fires when
        the map screen's button is enabled. */
    method TapSetTime()
      requires Valid() && currentStep == LocationSelection
      modifies this`currentStep
      ensures Valid()
      ensures currentStep == if MapSearch.SetTimeEnabled(selectedLocation) then Forward(old(currentStep)) else old(currentStep)
    {
      if MapSearch.SetTimeEnabled(selectedLocation) {
        currentStep := TimeSelection;
      }
    }

    /** The start-time picker writing its binding. */
    method PickStartTime(t: Date)
      requires Valid() && currentStep == TimeSelection
      modifies this`startTime
      ensures Valid() && startTime == t
    {
      startTime := t;
    }

    /** The end-time picker writing its binding. */
    method PickEndTime(t: Date)
      requires Valid() && currentStep == TimeSelection
      modifies this`endTime
      ensures Valid() && endTime == t
    {
      endTime := t;
    }

    /** Start Matching: `onStartMatching` moves on to matching, but only fires
        when the window is valid. */
    method TapStartMatching()
      requires Valid() && currentStep == TimeSelection
      modifies this`currentStep
      ensures Valid()
      ensures currentStep == if TimeSelector.IsTimeValid(startTime, endTime) then Forward(old(currentStep)) else old(currentStep)
    {
      if TimeSelector.WindowGates(startTime, endTime).startEnabled {
        currentStep := Matching;
      }
    }

    /** Send Match: the card passes the candidate on screen to `onSendMatch`,
        which moves to the wait step; the candidate list is untouched. */
    method TapSendMatch() returns (sent: Candidate)
      requires Valid() && currentStep == Matching
      modifies this`currentStep
      ensures Valid()
      ensures currentStep == MeetUpWait
      ensures CandidateCard.Press(CandidateCard.SendMatchButton, candidates, currentCandidateIndex, false)
              == CandidateCard.OnSendMatch(sent)
    {
      sent := CandidateCard.DisplayedCandidate(candidates, currentCandidateIndex);
      currentStep := MeetUpWait;
    }

    /** Skip: `onSkip` advances the index when there is more than one candidate;
        the list itself is untouched. */
    method TapSkip()
      requires Valid() && currentStep == Matching
      modifies this`currentCandidateIndex
      ensures Valid()
      ensures currentCandidateIndex == Carousel.SkipIndex(old(currentCandidateIndex), |candidates|)
    {
      if |candidates| > 1 {
        currentCandidateIndex := Rem(currentCandidateIndex + 1, |candidates|);
      }
    }

    /** Back: only offered on the two middle steps. */
    method TapBack()
      requires Valid() && BackOffered(currentStep)
      modifies this`currentStep
      ensures Valid()
      ensures currentStep == BackTarget(old(currentStep))
      ensures Ordinal(currentStep) + 1 == Ordinal(old(currentStep))
    {
      currentStep := BackTarget(currentStep);
    }
  }
}
