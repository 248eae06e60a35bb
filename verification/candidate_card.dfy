/** The candidate card (Meeat/MatchCandidateView.swift): which candidate it
    shows, which optional sections it renders, and which callback each of its
    three buttons forwards to. The view owns no state of its own; everything
    here is a function of the bindings it is given. */
module CandidateCard {
  import opened Models

  /** The `candidate` computed property: a direct subscript, which traps unless
      the index is in range. */
  function DisplayedCandidate(candidates: seq<Candidate>, index: int): (c: Candidate)
    requires 0 <= index < |candidates|
    ensures c in candidates
  {
    candidates[index]
  }

  /** The quote line: the quote between two double quotes. */
  function Quoted(quote: string): (text: string)
    ensures |text| == |quote| + 2
    ensures text[0] == '"' && text[|text| - 1] == '"'
    ensures text[1..|text| - 1] == quote
  {
    "\"" + quote + "\""
  }

  /** What the card renders below the photo; `None` is a section that is not shown. */
  datatype Card = Card(
    name: string,
    age: int,
    mbti: Option<string>,
    jobTitle: Option<string>,
    quoteLine: Option<string>,
    interests: Option<seq<string>>,
    foodPreferences: Option<seq<string>>)

  /** Each optional section appears exactly when its field is non-empty. */
  function RenderCard(c: Candidate): (card: Card)
    ensures card.name == c.name && card.age == c.age
    ensures card.mbti.Some? <==> c.mbtiType != []
    ensures card.mbti.Some? ==> card.mbti.value == c.mbtiType
    ensures card.jobTitle.Some? <==> c.jobTitle != []
    ensures card.jobTitle.Some? ==> card.jobTitle.value == c.jobTitle
    ensures card.quoteLine.Some? <==> c.quote != []
    ensures card.quoteLine.Some? ==> card.quoteLine.value == Quoted(c.quote)
    ensures card.interests.Some? <==> c.interests != []
    ensures card.interests.Some? ==> card.interests.value == c.interests
    ensures card.foodPreferences.Some? <==> c.foodPreferences != []
    ensures card.foodPreferences.Some? ==> card.foodPreferences.value == c.foodPreferences
  {
    Card(
      c.name,
      c.age,
      if c.mbtiType != [] then Some(c.mbtiType) else None,
      if c.jobTitle != [] then Some(c.jobTitle) else None,
      if c.quote != [] then Some(Quoted(c.quote)) else None,
      if c.interests != [] then Some(c.interests) else None,
      if c.foodPreferences != [] then Some(c.foodPreferences) else None)
  }

  datatype Button = SkipButton | SendMatchButton | RefreshButton

  /** The callback a button press reaches. */
  datatype Callback = OnSkip | OnSendMatch(candidate: Candidate) | OnRefresh | NoCallback

  /** Pressing a button: Skip calls `onSkip`, Send Match calls `onSendMatch`
      with the candidate on screen, Refresh calls `onRefresh` when the parent
      supplied one (`onRefresh?()`) and nothing otherwise. The card is only
      drawn with the index in range, so every press happens with it in range. */
  function Press(b: Button, candidates: seq<Candidate>, index: int, hasOnRefresh: bool): (cb: Callback)
    requires 0 <= index < |candidates|
    ensures cb == OnSkip <==> b == SkipButton
    ensures cb.OnSendMatch? <==> b == SendMatchButton
    ensures cb.OnSendMatch? ==> cb.candidate == DisplayedCandidate(candidates, index)
    ensures cb == OnRefresh <==> b == RefreshButton && hasOnRefresh
    ensures cb == NoCallback <==> b == RefreshButton && !hasOnRefresh
  {
    match b
    case SkipButton => OnSkip
    case SendMatchButton => OnSendMatch(DisplayedCandidate(candidates, index))
    case RefreshButton => if hasOnRefresh then OnRefresh else NoCallback
  }
}
