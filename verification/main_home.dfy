/** The matching home screen (Meeat/MainHomeView.swift): the candidate card
    with Skip, Refresh and Send Match wired to closures that update the
    screen's @State in place, and the invitation list's status colouring. */
module MainHome {
  import opened Models
  import Carousel

  /** Colour of an invitation's status text: green once accepted, orange
      while waiting, grey for anything else (such as "Expired"). */
  function InviteStatusColor(status: string): (c: Color)
    ensures c == Green <==> status == "Accepted"
    ensures c == Orange <==> status == "Waiting for acceptance"
    ensures c == Gray <==> status != "Accepted" && status != "Waiting for acceptance"
  {
    if status == "Accepted" then Green
    else if status == "Waiting for acceptance" then Orange
    else Gray
  }

  class MainHomeView {
    var candidates: seq<Candidate>
    var currentCandidateIndex: int
    var refreshCount: int
    var lastRefreshDate: Date
    var showMeetUpWait: bool
    var inviteSent: bool

    /** The card's subscript is in range, and the wait screen only ever
        opens after an invitation went out. */
    ghost predicate Valid()
      reads this
    {
      0 <= currentCandidateIndex < |candidates| &&
      (showMeetUpWait ==> inviteSent)
    }

    /** The initial state; `cs` is the screen's fixed mock list (four entries). */
    constructor (cs: seq<Candidate>, now: Date)
      requires |cs| > 0
      ensures Valid()
      ensures candidates == cs && currentCandidateIndex == 0
      ensures refreshCount == 0 && lastRefreshDate == now
      ensures !showMeetUpWait && !inviteSent
    {
      candidates := cs;
      currentCandidateIndex := 0;
      refreshCount, lastRefreshDate := 0, now;
      showMeetUpWait, inviteSent := false, false;
    }

    /** `onSkip`: the next candidate when there is more than one; nothing
        else changes, the list least of all. */
    method Skip()
      requires Valid()
      modifies this`currentCandidateIndex
      ensures Valid()
      ensures currentCandidateIndex == Carousel.SkipIndex(old(currentCandidateIndex), |candidates|)
      ensures |candidates| <= 1 ==> currentCandidateIndex == old(currentCandidateIndex)
    {
      if |candidates| > 1 {
        currentCandidateIndex := Rem(currentCandidateIndex + 1, |candidates|);
      }
    }

    /** `onRefresh`: counts the refresh, stamps it with `now` and moves to the
        next candidate unconditionally. */
    method Refresh(now: Date)
      requires Valid()
      modifies this`refreshCount, this`lastRefreshDate, this`currentCandidateIndex
      ensures Valid()
      ensures refreshCount == old(refreshCount) + 1
      ensures lastRefreshDate == now
      ensures currentCandidateIndex == Carousel.RefreshIndex(old(currentCandidateIndex), |candidates|)
      ensures currentCandidateIndex == Carousel.SkipIndex(old(currentCandidateIndex), |candidates|)
    {
      refreshCount := refreshCount + 1;
      lastRefreshDate := now;
      currentCandidateIndex := Rem(currentCandidateIndex + 1, |candidates|);
      Carousel.SkipAgreesWithRefresh(old(currentCandidateIndex), |candidates|);
    }

    /** `onSendMatch`: marks the invitation as sent. The candidate passed in
        is not used by this closure. */
    method SendMatch(candidate: Candidate)
      requires Valid()
      modifies this`inviteSent
      ensures Valid() && inviteSent
    {
      inviteSent := true;
    }

    /** The delayed half of `onSendMatch`: two seconds later the wait screen
        opens. Its timer is only ever scheduled by a send. */
    method InviteAccepted()
      requires Valid() && inviteSent
      modifies this`showMeetUpWait
      ensures Valid() && showMeetUpWait
    {
      showMeetUpWait := true;
    }
  }
}
