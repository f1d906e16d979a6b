/**
  A whole game session: the key events and timer ticks that reach the game,
  in the order the browser delivers them, and what holds of the game after
  any such sequence.
 */
module Session {
  import opened Simple

  /** Something that happens to the game: a key goes down or up, or the timer fires a tick. */
  datatype Event = KeyDown(code: int) | KeyUp(code: int) | Interval(geometry: Geometry)

  function Apply(s: GameState, e: Event): GameState {
    match e
    case KeyDown(code) => Pressed(s, code)
    case KeyUp(code) => Released(s, code)
    case Interval(geo) => Tick(s, geo)
  }

  /** The game after the events, first event first. */
  function Run(s: GameState, events: seq<Event>): GameState
    decreases |events|
  {
    if events == [] then s else Run(Apply(s, events[0]), events[1..])
  }

  /** How many timer ticks the events hold. */
  function Ticks(events: seq<Event>): nat
    decreases |events|
  {
    if events == [] then 0 else (if events[0].Interval? then 1 else 0) + Ticks(events[1..])
  }

  /** Whether any key goes down among the events. */
  predicate AnyKeyDown(events: seq<Event>) {
    exists i :: 0 <= i < |events| && events[i].KeyDown?
  }

  /** The order in which a game passes through its states. */
  function Rank(status: Status): nat {
    match status
    case Stopped => 0
    case Running => 1
    case GameOver => 2
  }

  /** The status never goes back: Stopped, then Running, then GameOver. */
  lemma {:induction false} RunNeverGoesBack(s: GameState, events: seq<Event>)
    ensures Rank(s.status) <= Rank(Run(s, events).status)
    ensures s.status == GameOver ==> Run(s, events).status == GameOver
    decreases |events|
  {
    if events != [] {
      RunNeverGoesBack(Apply(s, events[0]), events[1..]);
    }
  }

  /** A finished game is frozen: later events only change the held keys. */
  lemma {:induction false} RunAfterGameOver(s: GameState, events: seq<Event>)
    requires s.status == GameOver
    ensures Run(s, events).status == GameOver
    ensures Run(s, events).ball == s.ball && Run(s, events).score == s.score
    decreases |events|
  {
    if events != [] {
      RunAfterGameOver(Apply(s, events[0]), events[1..]);
    }
  }

  /** Until a key goes down a stopped game stays as it is, ticks included; only released keys leave the held set. */
  lemma {:induction false} RunWhileStopped(s: GameState, events: seq<Event>)
    requires s.status == Stopped && !AnyKeyDown(events)
    ensures Run(s, events).status == Stopped
    ensures Run(s, events).ball == s.ball && Run(s, events).score == s.score
    ensures Run(s, events).pressedKeys <= s.pressedKeys
    decreases |events|
  {
    if events != [] {
      assert !AnyKeyDown(events[1..]) by {
        forall i | 0 <= i < |events[1..]| ensures !events[1..][i].KeyDown? {
          assert events[1..][i] == events[i + 1];
        }
      }
      RunWhileStopped(Apply(s, events[0]), events[1..]);
    }
  }

  /** Each tick adds at most one point and nothing takes points away. */
  lemma {:induction false} RunScoreBounds(s: GameState, events: seq<Event>)
    ensures s.score <= Run(s, events).score <= s.score + Ticks(events)
    decreases |events|
  {
    if events != [] {
      RunScoreBounds(Apply(s, events[0]), events[1..]);
    }
  }

  /** From the initial game the score is never negative and never exceeds the number of ticks. */
  lemma ScoreFromStart(events: seq<Event>)
    ensures 0 <= Run(Initial, events).score <= Ticks(events)
  {
    RunScoreBounds(Initial, events);
  }

  /** Both directions stay in {-1, 1}: the speed is all a ball ever moves by. */
  lemma {:induction false} RunKeepsUnitDirections(s: GameState, events: seq<Event>)
    requires UnitDirections(s.ball)
    ensures UnitDirections(Run(s, events).ball)
    ensures Run(s, events).ball.speed == s.ball.speed
    decreases |events|
  {
    if events != [] {
      if events[0].Interval? {
        TickKeepsUnitDirections(s, events[0].geometry);
      }
      RunKeepsUnitDirections(Apply(s, events[0]), events[1..]);
    }
  }

  /** Whether every tick among the events sees a playground of the given size. */
  predicate PlaygroundIs(events: seq<Event>, width: int, height: int) {
    forall i :: 0 <= i < |events| && events[i].Interval? ==>
      events[i].geometry.playgroundWidth == width && events[i].geometry.playgroundHeight == height
  }

  /**
    On a playground of fixed size, at least two steps wide and high, a ball
    that starts inside it never leaves it, whatever the racket and the keys do.
   */
  lemma {:induction false} RunKeepsBallInPlayground(s: GameState, events: seq<Event>, width: int, height: int)
    requires UnitDirections(s.ball) && 0 <= s.ball.speed
    requires 2 * s.ball.speed <= width && 2 * s.ball.speed <= height
    requires InPlayground(s.ball, width, height)
    requires PlaygroundIs(events, width, height)
    ensures InPlayground(Run(s, events).ball, width, height)
    decreases |events|
  {
    if events != [] {
      var next := Apply(s, events[0]);
      if events[0].Interval? {
        assert events[0].geometry.playgroundWidth == width && events[0].geometry.playgroundHeight == height;
        TickKeepsBallInPlayground(s, events[0].geometry);
        TickKeepsUnitDirections(s, events[0].geometry);
      }
      assert PlaygroundIs(events[1..], width, height) by {
        forall i | 0 <= i < |events[1..]| && events[1..][i].Interval?
          ensures events[1..][i].geometry.playgroundWidth == width && events[1..][i].geometry.playgroundHeight == height
        {
          assert events[1..][i] == events[i + 1];
        }
      }
      RunKeepsBallInPlayground(next, events[1..], width, height);
    }
  }

  /** The initial ball starts inside a 300 by 200 playground, so it stays inside for the whole session. */
  lemma InitialBallStaysInPlayground(events: seq<Event>)
    requires PlaygroundIs(events, 300, 200)
    ensures InPlayground(Run(Initial, events).ball, 300, 200)
  {
    RunKeepsBallInPlayground(Initial, events, 300, 200);
  }

  /** A game that missed the ball stays over for all later events. */
  lemma MissedBallStaysOver(events: seq<Event>)
    ensures
      var s := GameState(Running, BallState(5, 20, 185, 1, 1), 3, {});
      var r := Run(s, [Interval(Geometry(300, 200, 100, 190, 70, 10, 10))] + events);
      r.status == GameOver && r.score == 3
  {
    var s := GameState(Running, BallState(5, 20, 185, 1, 1), 3, {});
    var geo := Geometry(300, 200, 100, 190, 70, 10, 10);
    MissedBallEndsGame();
    var evs := [Interval(geo)] + events;
    assert evs[0] == Interval(geo) && evs[1..] == events;
    RunAfterGameOver(Tick(s, geo), events);
  }
}
