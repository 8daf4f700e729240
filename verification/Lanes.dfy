/** The results writer's lane controller: which of the two lanes gets the next turn. */
module Lanes {
  import opened Types

  datatype Lane = DispatchLane | CompletionLane

  const MAX_PREFERRED_TURNS: nat := 32

  function OtherLane(lane: Lane): (other: Lane)
    ensures other != lane
  {
    match lane
    case DispatchLane => CompletionLane
    case CompletionLane => DispatchLane
  }

  // ------------------------------------------------------- direction streaks

  datatype Streak = Streak(direction: int, samples: nat)

  function Confirm(s: Streak, direction: int): (Streak, bool) {
    if direction == 0 then (Streak(0, 0), false)
    else
      var samples := if s.direction == direction then s.samples + 1 else 1;
      if samples >= 3 then (Streak(direction, 0), true) else (Streak(direction, samples), false)
  }

  /** The streak after a history of samples. */
  function StreakAfter(history: seq<int>): Streak {
    if history == [] then Streak(0, 0)
    else Confirm(StreakAfter(history[..|history| - 1]), history[|history| - 1]).0
  }

  /** How many times the last sample has been repeated without a break; a zero breaks everything. */
  function TrailingRun(history: seq<int>): (n: nat)
    ensures n <= |history|
  {
    if history == [] || history[|history| - 1] == 0 then 0
    else if |history| >= 2 && history[|history| - 2] == history[|history| - 1] then
      TrailingRun(history[..|history| - 1]) + 1
    else 1
  }

  lemma {:induction false} StreakCountsTheRun(history: seq<int>)
    ensures var s := StreakAfter(history);
      && s.direction == (if history == [] then 0 else history[|history| - 1])
      && s.samples == TrailingRun(history) % 3
    decreases |history|
  {
    if history != [] {
      var init := history[..|history| - 1];
      StreakCountsTheRun(init);
      assert |init| > 0 ==> init[|init| - 1] == history[|history| - 2];
    }
  }

  lemma {:induction false} TrailingRunIsARun(history: seq<int>, k: nat)
    requires k < TrailingRun(history)
    ensures history[|history| - 1 - k] == history[|history| - 1] != 0
    decreases |history|
  {
    if k > 0 {
      var init := history[..|history| - 1];
      TrailingRunIsARun(init, k - 1);
    }
  }

  /** A direction is confirmed exactly on every third sample of an unbroken run. */
  lemma ConfirmsEveryThird(history: seq<int>, direction: int)
    ensures var n := TrailingRun(history + [direction]);
      && (Confirm(StreakAfter(history), direction).1 <==> n > 0 && n % 3 == 0)
      && (Confirm(StreakAfter(history), direction).1 ==>
            |history| >= 2 && history[|history| - 1] == history[|history| - 2] == direction != 0)
  {
    var all := history + [direction];
    assert all[..|all| - 1] == history;
    StreakCountsTheRun(history);
    StreakCountsTheRun(all);
    if Confirm(StreakAfter(history), direction).1 {
      TrailingRunIsARun(all, 1);
      TrailingRunIsARun(all, 2);
    }
  }

  // ---------------------------------------------------------------- selection

  datatype Control = Control(preferred: Option<Lane>, turns: nat, streak: Streak)

  /** What `select` sees: which lanes hold rows, and which of them is under more pressure. */
  datatype Input = Input(dispatch: bool, completion: bool, direction: int)

  predicate Active(input: Input, lane: Lane) {
    match lane
    case DispatchLane => input.dispatch
    case CompletionLane => input.completion
  }

  /** Preference and streak after weighing one pressure direction. */
  function Weigh(c: Control, direction: int): Control {
    var (streak, confirmed) := Confirm(c.streak, direction);
    var next := if !confirmed then c.preferred
                else if direction == 1 then Some(CompletionLane)
                else if direction == -1 then Some(DispatchLane)
                else c.preferred;
    Control(next, if next != c.preferred then 0 else c.turns, streak)
  }

  function Select(c: Control, input: Input): (Control, Option<Lane>) {
    if !input.dispatch && !input.completion then (c, None)
    else if !input.completion then (c.(turns := 0), Some(DispatchLane))
    else if !input.dispatch then (c.(turns := 0), Some(CompletionLane))
    else
      var w := Weigh(c, input.direction);
      match w.preferred
      case None => (w, Some(CompletionLane))
      case Some(lane) => (w, Some(if w.turns >= MAX_PREFERRED_TURNS then OtherLane(lane) else lane))
  }

  function RecordTurn(c: Control, lane: Lane): Control {
    c.(turns := if c.preferred == Some(lane) then c.turns + 1 else 0)
  }

  const INITIAL: Control := Control(None, 0, Streak(0, 0))

  /** One loop turn of the writer: select a lane, then record the turn it got. */
  function Turn(c: Control, input: Input): (Control, Option<Lane>) {
    var (w, lane) := Select(c, input);
    match lane
    case None => (w, None)
    case Some(l) => (RecordTurn(w, l), Some(l))
  }

  /** The lane objects of the writer, changed in place. */
  class DirectionStreak {
    var direction: int
    var samples: nat

    function Value(): Streak
      reads this
    {
      Streak(direction, samples)
    }

    constructor ()
      ensures Value() == Streak(0, 0)
    {
      direction, samples := 0, 0;
    }

    method ConfirmSample(sample: int) returns (confirmed: bool)
      modifies this
      ensures (Value(), confirmed) == Confirm(old(Value()), sample)
    {
      if sample == 0 {
        direction, samples := 0, 0;
        return false;
      }
      if direction == sample {
        samples := samples + 1;
      } else {
        direction, samples := sample, 1;
      }
      if samples >= 3 {
        samples := 0;
        return true;
      }
      return false;
    }
  }

  class ResultsLaneController {
    var preferred: Option<Lane>
    var preferredTurns: nat
    const streak: DirectionStreak

    function Value(): Control
      reads this, streak
    {
      Control(preferred, preferredTurns, streak.Value())
    }

    constructor ()
      ensures Value() == INITIAL && fresh(streak)
    {
      preferred, preferredTurns := None, 0;
      streak := new DirectionStreak();
    }

    method SelectLane(input: Input) returns (lane: Option<Lane>)
      modifies this, streak
      ensures (Value(), lane) == Select(old(Value()), input)
    {
      if !input.dispatch && !input.completion {
        return None;
      }
      if !input.completion {
        preferredTurns := 0;
        return Some(DispatchLane);
      }
      if !input.dispatch {
        preferredTurns := 0;
        return Some(CompletionLane);
      }
      var confirmed := streak.ConfirmSample(input.direction);
      if confirmed {
        var next := if input.direction == 1 then Some(CompletionLane)
                    else if input.direction == -1 then Some(DispatchLane)
                    else preferred;
        if next != preferred {
          preferred, preferredTurns := next, 0;
        }
      }
      match preferred
      case None => return Some(CompletionLane);
      case Some(p) => return Some(if preferredTurns >= MAX_PREFERRED_TURNS then OtherLane(p) else p);
    }

    method RecordLaneTurn(lane: Lane)
      modifies this
      ensures Value() == RecordTurn(old(Value()), lane)
    {
      if preferred == Some(lane) {
        preferredTurns := preferredTurns + 1;
      } else {
        preferredTurns := 0;
      }
    }
  }

  // ----------------------------------------------------------------- fairness

  /** The controller after a sequence of turns. */
  function AfterTurns(inputs: seq<Input>): Control {
    if inputs == [] then INITIAL
    else Turn(AfterTurns(inputs[..|inputs| - 1]), inputs[|inputs| - 1]).0
  }

  /** The pressure directions that were weighed: those of the turns with both lanes active. */
  function Weighed(inputs: seq<Input>): seq<int> {
    if inputs == [] then []
    else
      var last := inputs[|inputs| - 1];
      Weighed(inputs[..|inputs| - 1]) + if last.dispatch && last.completion then [last.direction] else []
  }

  /** Every one of these turns goes to the other lane although `lane` is active throughout. */
  ghost predicate PassedOver(c: Control, inputs: seq<Input>, lane: Lane)
    decreases |inputs|
  {
    inputs != [] ==>
      && Active(inputs[0], lane)
      && Turn(c, inputs[0]).1 == Some(OtherLane(lane))
      && PassedOver(Turn(c, inputs[0]).0, inputs[1..], lane)
  }

  /** How long `lane` can still be kept waiting. */
  function Patience(c: Control, lane: Lane): nat
    requires c.preferred.Some? && c.turns <= MAX_PREFERRED_TURNS
  {
    if c.preferred == Some(OtherLane(lane)) then MAX_PREFERRED_TURNS - c.turns
    else if c.turns == MAX_PREFERRED_TURNS then MAX_PREFERRED_TURNS + 1
    else MAX_PREFERRED_TURNS
  }

  predicate Settled(c: Control) {
    c.preferred.Some? && c.turns <= MAX_PREFERRED_TURNS
  }

  lemma TurnKeepsSettled(c: Control, input: Input)
    requires Settled(c)
    ensures Settled(Turn(c, input).0)
  {
    assert Weigh(c, input.direction).turns <= MAX_PREFERRED_TURNS;
  }

  /** Fairness: once a preference exists, an active lane is passed over for at most 33 turns in a row,
      whatever the pressure does. */
  lemma {:induction false} LaneIsServed(c: Control, inputs: seq<Input>, lane: Lane)
    requires Settled(c) && PassedOver(c, inputs, lane)
    ensures |inputs| <= Patience(c, lane) <= MAX_PREFERRED_TURNS + 1
    decreases |inputs|
  {
    if inputs != [] {
      TurnKeepsSettled(c, inputs[0]);
      LaneIsServed(Turn(c, inputs[0]).0, inputs[1..], lane);
    }
  }

  lemma WeighKeepsTurns(c: Control, input: Input)
    requires c.turns <= MAX_PREFERRED_TURNS && (c.preferred.None? ==> c.turns == 0)
    ensures var w := Turn(c, input).0;
      w.turns <= MAX_PREFERRED_TURNS && (w.preferred.None? ==> w.turns == 0)
  {
    var w := Weigh(c, input.direction);
    assert w.turns <= MAX_PREFERRED_TURNS && (w.preferred.None? ==> w.turns == 0);
  }

  /** Every controller the writer can reach has a turn count within the cap, and none without a preference. */
  lemma {:induction false} ReachableTurns(inputs: seq<Input>)
    ensures var c := AfterTurns(inputs);
      c.turns <= MAX_PREFERRED_TURNS && (c.preferred.None? ==> c.turns == 0)
    decreases |inputs|
  {
    if inputs != [] {
      var init := inputs[..|inputs| - 1];
      ReachableTurns(init);
      WeighKeepsTurns(AfterTurns(init), inputs[|inputs| - 1]);
    }
  }

  lemma TurnStreak(c: Control, input: Input)
    ensures Turn(c, input).0.streak
      == if input.dispatch && input.completion then Confirm(c.streak, input.direction).0 else c.streak
  {
  }

  lemma StreakOneMore(history: seq<int>, direction: int)
    ensures StreakAfter(history + [direction]) == Confirm(StreakAfter(history), direction).0
  {
    assert (history + [direction])[..|history|] == history;
  }

  /** … and the streak of the directions it has weighed. */
  lemma {:induction false} ReachableStreak(inputs: seq<Input>)
    ensures AfterTurns(inputs).streak == StreakAfter(Weighed(inputs))
    decreases |inputs|
  {
    if inputs != [] {
      var init, last := inputs[..|inputs| - 1], inputs[|inputs| - 1];
      ReachableStreak(init);
      TurnStreak(AfterTurns(init), last);
      StreakOneMore(Weighed(init), last.direction);
      assert Weighed(init) + [] == Weighed(init);
    }
  }

  /** … so in every run of the writer, from any point where a preference exists. */
  lemma LaneIsServedInEveryRun(past: seq<Input>, inputs: seq<Input>, lane: Lane)
    requires AfterTurns(past).preferred.Some? && PassedOver(AfterTurns(past), inputs, lane)
    ensures |inputs| <= 33
  {
    ReachableTurns(past);
    LaneIsServed(AfterTurns(past), inputs, lane);
  }

  /** Without a preference only a turn that gives dispatch the preference passes completion over. */
  lemma CompletionIsServed(c: Control, inputs: seq<Input>)
    requires c.preferred.None? && c.turns == 0 && PassedOver(c, inputs, CompletionLane)
    ensures |inputs| <= MAX_PREFERRED_TURNS
  {
    if inputs != [] {
      var next := Turn(c, inputs[0]).0;
      assert next.preferred == Some(DispatchLane) && next.turns == 1;
      LaneIsServed(next, inputs[1..], CompletionLane);
    }
  }

  function Level(n: nat): seq<Input> {
    if n == 0 then [] else [Input(true, true, 0)] + Level(n - 1)
  }

  /** Before any preference, equal pressure on two active lanes keeps dispatch waiting for ever. */
  lemma {:induction false} DispatchStarvesWithoutPreference(c: Control, n: nat)
    requires c.preferred.None?
    ensures |Level(n)| == n && PassedOver(c, Level(n), DispatchLane)
    decreases n
  {
    if n > 0 {
      var input := Input(true, true, 0);
      assert Turn(c, input).1 == Some(CompletionLane);
      DispatchStarvesWithoutPreference(Turn(c, input).0, n - 1);
      assert Level(n)[0] == input && Level(n)[1..] == Level(n - 1);
    }
  }

  /** The fairness bound, exactly: from any point of any run a lane that stays active is passed over at
      most 33 times in a row, if and only if there is a preference or the lane is completion. */
  lemma FairExactlyWithPreference(past: seq<Input>, lane: Lane)
    ensures (forall inputs :: PassedOver(AfterTurns(past), inputs, lane) ==> |inputs| <= 33)
      <==> AfterTurns(past).preferred.Some? || lane == CompletionLane
  {
    var c := AfterTurns(past);
    ReachableTurns(past);
    if c.preferred.Some? || lane == CompletionLane {
      forall inputs | PassedOver(c, inputs, lane) ensures |inputs| <= 33 {
        if c.preferred.Some? {
          LaneIsServed(c, inputs, lane);
        } else {
          CompletionIsServed(c, inputs);
        }
      }
    } else {
      DispatchStarvesWithoutPreference(c, 34);
    }
  }

  lemma PassedOverAtMost33(past: seq<Input>, inputs: seq<Input>, lane: Lane)
    requires AfterTurns(past).preferred.Some? || lane == CompletionLane
    requires PassedOver(AfterTurns(past), inputs, lane)
    ensures |inputs| <= 33
  {
    FairExactlyWithPreference(past, lane);
  }

  const DOWN: Input := Input(true, true, -1)
  const UP: Input := Input(true, true, 1)

  /** One more turn of the same kind. */
  lemma OneMoreTurn(inputs: seq<Input>, input: Input)
    ensures AfterTurns(inputs + [input]) == Turn(AfterTurns(inputs), input).0
  {
    assert (inputs + [input])[..|inputs|] == inputs;
  }

  lemma ThirdPressureDecides(one: seq<Input>, two: seq<Input>, three: seq<Input>)
    requires one == [DOWN] && two == one + [DOWN] && three == two + [DOWN]
    ensures AfterTurns(three) == Control(Some(DispatchLane), 1, Streak(-1, 0))
  {
    var none: seq<Input> := [];
    assert one == none + [DOWN];
    OneMoreTurn(none, DOWN);
    assert AfterTurns(one) == Control(None, 0, Streak(-1, 1));
    OneMoreTurn(one, DOWN);
    assert AfterTurns(two) == Control(None, 0, Streak(-1, 2));
    OneMoreTurn(two, DOWN);
  }

  lemma PreferredTurn(turns: nat, samples: nat)
    requires turns < MAX_PREFERRED_TURNS && samples < 3
    ensures Turn(Control(Some(DispatchLane), turns, Streak(-1, samples)), DOWN).0
      == Control(Some(DispatchLane), turns + 1, Streak(-1, (samples + 1) % 3))
  {
  }

  /** Three pressures towards dispatch give it the preference, and then every turn up to the cap. */
  lemma {:induction false} DispatchIsPreferred(downs: seq<Input>)
    requires 3 <= |downs| <= MAX_PREFERRED_TURNS + 1 && forall i :: 0 <= i < |downs| ==> downs[i] == DOWN
    ensures AfterTurns(downs) == Control(Some(DispatchLane), |downs| - 2, Streak(-1, |downs| % 3))
    decreases |downs|
  {
    var n := |downs|;
    var init := downs[..n - 1];
    assert downs == init + [DOWN];
    if n == 3 {
      ThirdPressureDecides(downs[..1], init, downs);
    } else {
      DispatchIsPreferred(init);
      OneMoreTurn(init, DOWN);
      PreferredTurn(n - 3, (n - 1) % 3);
    }
  }

  /** After dispatch has used up its turns, pressure towards completion … */
  lemma CapIsReached(downs: seq<Input>)
    requires |downs| == MAX_PREFERRED_TURNS + 1 && forall i :: 0 <= i < |downs| ==> downs[i] == DOWN
    ensures AfterTurns(downs + [UP]) == Control(Some(DispatchLane), MAX_PREFERRED_TURNS, Streak(1, 1))
  {
    DispatchIsPreferred(downs);
    OneMoreTurn(downs, UP);
  }

  /** … takes the override turn from dispatch, then the preference, and then every turn up to the cap. */
  lemma DispatchWaits(inputs: seq<Input>)
    requires |inputs| == MAX_PREFERRED_TURNS + 1 && forall i :: 0 <= i < |inputs| ==> inputs[i] == UP
    ensures PassedOver(Control(Some(DispatchLane), MAX_PREFERRED_TURNS, Streak(1, 1)), inputs, DispatchLane)
  {
    var c := Control(Some(DispatchLane), MAX_PREFERRED_TURNS, Streak(1, 1));
    var c1 := Control(Some(DispatchLane), 0, Streak(1, 2));
    var c2 := Control(Some(CompletionLane), 1, Streak(1, 0));
    assert Turn(c, UP) == (c1, Some(CompletionLane)) && Turn(c1, UP) == (c2, Some(CompletionLane));
    var rest := inputs[1..];
    assert rest[0] == UP && rest[1..] == inputs[2..];
    PreferredRun(c2, rest[1..]);
    assert PassedOver(c1, rest, DispatchLane);
  }

  /** The bound is tight: after some runs of the writer a lane loses its own starvation override, then
      the preference, then waits the full 32 turns. */
  lemma ThirtyThreeIsReached()
    ensures exists past: seq<Input>, inputs: seq<Input> ::
      AfterTurns(past).preferred.Some? && PassedOver(AfterTurns(past), inputs, DispatchLane) && |inputs| == 33
  {
    var downs := seq(MAX_PREFERRED_TURNS + 1, i => DOWN);
    var inputs := seq(MAX_PREFERRED_TURNS + 1, i => UP);
    CapIsReached(downs);
    DispatchWaits(inputs);
    assert AfterTurns(downs + [UP]).preferred.Some? && PassedOver(AfterTurns(downs + [UP]), inputs, DispatchLane);
  }

  lemma {:induction false} PreferredRun(c: Control, inputs: seq<Input>)
    requires c.preferred == Some(CompletionLane) && c.turns + |inputs| <= MAX_PREFERRED_TURNS && c.streak.direction == 1
    requires forall i :: 0 <= i < |inputs| ==> inputs[i] == Input(true, true, 1)
    ensures PassedOver(c, inputs, DispatchLane)
    decreases |inputs|
  {
    if inputs != [] {
      PreferredRun(Turn(c, inputs[0]).0, inputs[1..]);
    }
  }

  /** Over every run of the writer, the preference changes only when the last three directions weighed
      pointed the same way. */
  lemma PreferenceNeedsThreeSamples(inputs: seq<Input>, input: Input)
    requires Turn(AfterTurns(inputs), input).0.preferred != AfterTurns(inputs).preferred
    ensures input.dispatch && input.completion && (input.direction == 1 || input.direction == -1)
    ensures Turn(AfterTurns(inputs), input).0.preferred
      == Some(if input.direction == 1 then CompletionLane else DispatchLane)
    ensures var h := Weighed(inputs); |h| >= 2 && h[|h| - 1] == h[|h| - 2] == input.direction
  {
    ReachableStreak(inputs);
    ConfirmsEveryThird(Weighed(inputs), input.direction);
  }
}
