/** The meeting screen (Meeat/MeetUpWaitView.swift, `MeetUpWaitView`): two
    arrival flags that only ever go from false to true, the status line derived
    from them, and the chat that unlocks once both parties are there. The
    matched user's arrival, scheduled by a two-second timer in the source, is
    the separate event `MatchedUserArrives`. */
module MeetUpWait {
  import opened Models

  /** `canUnlockChat`: chat unlocks in exactly the state the status line
      reports as "both parties have arrived". */
  predicate CanUnlockChat(userHasArrived: bool, matchedUserHasArrived: bool): (can: bool)
    ensures can <==> StatusMessage(userHasArrived, matchedUserHasArrived) == "Both parties have arrived"
    ensures can ==> userHasArrived
  {
    userHasArrived && matchedUserHasArrived
  }

  /** `statusMessage`: three cases; a matched user who arrived first does not
      change the message while the user has not arrived. */
  function StatusMessage(userHasArrived: bool, matchedUserHasArrived: bool): (m: string)
    ensures m == "Both parties have arrived" <==> userHasArrived && matchedUserHasArrived
    ensures m == "You have arrived" <==> userHasArrived && !matchedUserHasArrived
    ensures m == "You have not arrived yet" <==> !userHasArrived
  {
    if userHasArrived && matchedUserHasArrived then "Both parties have arrived"
    else if userHasArrived then "You have arrived"
    else "You have not arrived yet"
  }

  /** `statusIcon`: the SF Symbol beside the message. */
  function StatusIcon(userHasArrived: bool, matchedUserHasArrived: bool): (icon: string)
    ensures icon == "checkmark.circle.fill" <==> userHasArrived && matchedUserHasArrived
    ensures icon == "person.fill.checkmark" <==> userHasArrived && !matchedUserHasArrived
    ensures icon == "location.circle" <==> !userHasArrived
  {
    if userHasArrived && matchedUserHasArrived then "checkmark.circle.fill"
    else if userHasArrived then "person.fill.checkmark"
    else "location.circle"
  }

  /** `statusColor`. */
  function StatusColor(userHasArrived: bool, matchedUserHasArrived: bool): (c: Color)
    ensures c == Green <==> userHasArrived && matchedUserHasArrived
    ensures c == Blue <==> userHasArrived && !matchedUserHasArrived
    ensures c == Orange <==> !userHasArrived
  {
    if userHasArrived && matchedUserHasArrived then Green
    else if userHasArrived then Blue
    else Orange
  }

  /** Message, icon and colour split the four flag combinations the same way:
      two states show the same message exactly when they show the same icon,
      exactly when they show the same colour; and the green, "both arrived"
      case is exactly the one in which chat can be unlocked. */
  lemma StatusViewsAgree(u1: bool, m1: bool, u2: bool, m2: bool)
    ensures (StatusMessage(u1, m1) == StatusMessage(u2, m2)) == (StatusIcon(u1, m1) == StatusIcon(u2, m2))
    ensures (StatusIcon(u1, m1) == StatusIcon(u2, m2)) == (StatusColor(u1, m1) == StatusColor(u2, m2))
    ensures CanUnlockChat(u1, m1) <==> StatusColor(u1, m1) == Green
    ensures CanUnlockChat(u1, m1) <==> StatusMessage(u1, m1) == "Both parties have arrived"
  {
  }

  /** The screen's flags; `matchedArrivalPending` stands for the timer the
      arrival button schedules, and `showingChat` for the chat sheet's
      `isPresented` binding, which SwiftUI clears when the sheet is dismissed. */
  datatype Arrival = Arrival(
    userHasArrived: bool,
    matchedUserHasArrived: bool,
    matchedArrivalPending: bool,
    showingChat: bool)

  const InitialArrival := Arrival(false, false, false, false)

  datatype ArrivalEvent = TapArrived | MatchedUserArrives | TapUnlockChat | DismissChat

  /** Which events can happen: the arrival button is shown only while the
      user has not arrived, the matched user arrives only through the timer
      that button scheduled, Unlock Chat is shown only when it can unlock, and
      only a presented sheet can be dismissed. */
  predicate Enabled(a: Arrival, e: ArrivalEvent)
  {
    match e
    case TapArrived => !a.userHasArrived
    case MatchedUserArrives => a.matchedArrivalPending
    case TapUnlockChat => CanUnlockChat(a.userHasArrived, a.matchedUserHasArrived)
    case DismissChat => a.showingChat
  }

  /** No arrival flag is ever reset (the chat sheet may close and reopen). */
  predicate Grows(a: Arrival, b: Arrival)
  {
    (a.userHasArrived ==> b.userHasArrived) &&
    (a.matchedUserHasArrived ==> b.matchedUserHasArrived)
  }

  /** The matched user never arrives before the user (whose tap starts the
      timer), the timer is pending only between the two arrivals, and chat is
      only ever shown once both have arrived. */
  predicate ArrivalInv(a: Arrival)
  {
    (a.matchedUserHasArrived ==> a.userHasArrived) &&
    (a.matchedArrivalPending ==> a.userHasArrived && !a.matchedUserHasArrived) &&
    (a.showingChat ==> CanUnlockChat(a.userHasArrived, a.matchedUserHasArrived))
  }

  function Next(a: Arrival, e: ArrivalEvent): (b: Arrival)
    requires Enabled(a, e)
    ensures Grows(a, b)
    ensures ArrivalInv(a) ==> ArrivalInv(b)
  {
    match e
    case TapArrived => a.(userHasArrived := true, matchedArrivalPending := true)
    case MatchedUserArrives => a.(matchedUserHasArrived := true, matchedArrivalPending := false)
    case TapUnlockChat => a.(showingChat := true)
    case DismissChat => a.(showingChat := false)
  }

  /** The state after a sequence of events, or `None` if one of them was not
      available when it came. */
  function Run(a: Arrival, events: seq<ArrivalEvent>): Option<Arrival>
    decreases |events|
  {
    if events == [] then Some(a)
    else if !Enabled(a, events[0]) then None
    else Run(Next(a, events[0]), events[1..])
  }

  /** Over every sequence of taps, timer firings and sheet dismissals the
      invariant holds and no arrival flag is ever reset. */
  lemma {:induction false} RunKeepsInvariant(a: Arrival, events: seq<ArrivalEvent>)
    requires ArrivalInv(a) && Run(a, events).Some?
    ensures ArrivalInv(Run(a, events).value) && Grows(a, Run(a, events).value)
    decreases |events|
  {
    if events != [] {
      var b := Next(a, events[0]);
      RunKeepsInvariant(b, events[1..]);
    }
  }

  /** From the initial screen, chat can only have been opened after both
      parties arrived, and the user always arrived first. */
  lemma ChatOpensOnlyAfterBothArrive(events: seq<ArrivalEvent>)
    requires Run(InitialArrival, events).Some?
    ensures var a := Run(InitialArrival, events).value;
            (a.showingChat ==> a.userHasArrived && a.matchedUserHasArrived) &&
            (a.matchedUserHasArrived ==> a.userHasArrived)
  {
    RunKeepsInvariant(InitialArrival, events);
  }

  /** The gate can be passed: arriving, then the matched user's arrival, then
      Unlock Chat, opens the chat from the initial screen. */
  lemma ChatCanBeUnlocked()
    ensures var r := Run(InitialArrival, [TapArrived, MatchedUserArrives, TapUnlockChat]);
            r.Some? && r.value.showingChat && r.value.userHasArrived && r.value.matchedUserHasArrived
  {
    var a1 := Next(InitialArrival, TapArrived);
    var a2 := Next(a1, MatchedUserArrives);
    assert [TapArrived, MatchedUserArrives, TapUnlockChat][1..] == [MatchedUserArrives, TapUnlockChat];
    assert [MatchedUserArrives, TapUnlockChat][1..] == [TapUnlockChat];
    assert Run(a2, [TapUnlockChat]) == Run(Next(a2, TapUnlockChat), []);
  }

  class MeetUpWaitView {
    var userHasArrived: bool
    var matchedUserHasArrived: bool
    var matchedArrivalPending: bool
    var showingChat: bool

    function State(): Arrival
      reads this
    {
      Arrival(userHasArrived, matchedUserHasArrived, matchedArrivalPending, showingChat)
    }

    ghost predicate Valid()
      reads this
    {
      ArrivalInv(State())
    }

    constructor ()
      ensures Valid() && State() == InitialArrival
      ensures !userHasArrived && !matchedUserHasArrived && !showingChat
    {
      userHasArrived, matchedUserHasArrived := false, false;
      matchedArrivalPending, showingChat := false, false;
    }

    /** "I have arrived at the restaurant": sets the user's flag and starts
        the timer for the matched user. */
    method TapArrived()
      requires Valid() && !userHasArrived
      modifies this
      ensures Valid() && State() == Next(old(State()), ArrivalEvent.TapArrived)
      ensures userHasArrived && matchedUserHasArrived == old(matchedUserHasArrived)
    {
      userHasArrived := true;
      matchedArrivalPending := true;
    }

    /** The timer fires: the matched user arrives. */
    method MatchedUserArrives()
      requires Valid() && matchedArrivalPending
      modifies this
      ensures Valid() && State() == Next(old(State()), ArrivalEvent.MatchedUserArrives)
      ensures CanUnlockChat(userHasArrived, matchedUserHasArrived)
    {
      matchedUserHasArrived := true;
      matchedArrivalPending := false;
    }

    /** "Unlock Chat": shown only once both have arrived; opens the chat. */
    method TapUnlockChat()
      requires Valid() && CanUnlockChat(userHasArrived, matchedUserHasArrived)
      modifies this
      ensures Valid() && State() == Next(old(State()), ArrivalEvent.TapUnlockChat)
      ensures showingChat
    {
      showingChat := true;
    }

    /** The chat sheet is swiped away: SwiftUI writes false to `showingChat`.
        Unlock Chat then opens a new sheet, whose transcript starts afresh. */
    method DismissChat()
      requires Valid() && showingChat
      modifies this`showingChat
      ensures Valid() && State() == Next(old(State()), ArrivalEvent.DismissChat)
      ensures !showingChat && CanUnlockChat(userHasArrived, matchedUserHasArrived)
    {
      showingChat := false;
    }
  }
}
