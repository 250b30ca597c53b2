/** The click counter of the older desktop client (clients/python-client/src/main_page.py): three
    confirmed clicks (golf ball, club butt, club head) complete a round, after which it starts over.
    The scaled click coordinates are shown but never stored. */
module ClientMainPage {

  datatype ClickerState = ClickerState(foundGolfBall: bool, foundClubButt: bool, foundClubHead: bool, validClicks: int)

  const Initial := ClickerState(false, false, false, 0)

  /** `on_click`: the count says which mark the click is for; a confirmed click advances it, the
      club head's wrapping round to 0, and a cancelled one leaves it. */
  function OnClick(s: ClickerState, ok: bool): (t: ClickerState)
    ensures !ok ==> t == s
    ensures ok && s.validClicks == 0 ==> t == s.(validClicks := 1)
    ensures ok && s.validClicks == 1 ==> t == s.(validClicks := 2)
    ensures ok && s.validClicks == 2 ==> t == s.(validClicks := 0)
    ensures t.(validClicks := s.validClicks) == s
  {
    if !ok then s
    else if s.validClicks == 0 || s.validClicks == 1 then s.(validClicks := s.validClicks + 1)
    else if s.validClicks == 2 then s.(validClicks := 0)
    else s
  }

  /** Replies to the confirmation dialogs of a sequence of clicks. */
  function Run(s: ClickerState, oks: seq<bool>): ClickerState
    decreases |oks|
  {
    if |oks| == 0 then s else Run(OnClick(s, oks[0]), oks[1..])
  }

  function Accepted(oks: seq<bool>): (n: nat)
    ensures n <= |oks|
  {
    if |oks| == 0 then 0 else (if oks[0] then 1 else 0) + Accepted(oks[1..])
  }

  predicate InRange(s: ClickerState) {
    0 <= s.validClicks <= 2
  }

  /** The count is the number of confirmed clicks modulo 3; the three flags never change. */
  lemma {:induction false} CountIsAcceptedModThree(s: ClickerState, oks: seq<bool>)
    requires InRange(s)
    ensures InRange(Run(s, oks))
    ensures Run(s, oks).validClicks == (s.validClicks + Accepted(oks)) % 3
    ensures Run(s, oks).(validClicks := s.validClicks) == s
    decreases |oks|
  {
    if |oks| > 0 {
      CountIsAcceptedModThree(OnClick(s, oks[0]), oks[1..]);
    }
  }

  /** From the initial page: the count stays in {0, 1, 2} and no mark is ever recorded as found. */
  lemma InitialCount(oks: seq<bool>)
    ensures var t := Run(Initial, oks);
            && InRange(t) && t.validClicks == Accepted(oks) % 3
            && !t.foundGolfBall && !t.foundClubButt && !t.foundClubHead
  {
    CountIsAcceptedModThree(Initial, oks);
  }
}
