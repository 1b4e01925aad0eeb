/** Runs of the game: any interleaving of key presses, key releases and
    animation frames, starting from any state that satisfies the invariant.
    The lemmas here are the facts that hold over whole runs. */
module Traces {
  import opened Probe
  import Physics
  import Camera

  /** A keydown or keyup with its key name, or an animation frame with the
      ray caster that answers its probes. */
  datatype Event = Press(key: string) | Release(key: string) | Frame(cast: Caster)

  function Apply(g: Physics.GameState, e: Event): (r: Physics.GameState)
    requires Physics.Inv(g)
    ensures Physics.Inv(r)
  {
    match e
    case Press(k) => Physics.KeyDown(g, k)
    case Release(k) => Physics.KeyUp(g, k)
    case Frame(cast) => Physics.Animate(g, cast)
  }

  /** The state after the events, in order. */
  function Run(g: Physics.GameState, es: seq<Event>): (r: Physics.GameState)
    requires Physics.Inv(g)
    ensures Physics.Inv(r)
    decreases |es|
  {
    if es == [] then g else Run(Apply(g, es[0]), es[1..])
  }

  predicate IsPress(e: Event, key: string) {
    e.Press? && e.key == key
  }

  /** How many times the key is pressed in the events. */
  function Presses(es: seq<Event>, key: string): nat {
    if es == [] then 0 else (if IsPress(es[0], key) then 1 else 0) + Presses(es[1..], key)
  }

  /** The game has started after a run exactly when it had started before or
      the space bar was pressed during the run: the first press always finds
      the player not jumping, and nothing clears the flag. */
  lemma {:induction false} StartedIffSpacePressed(g: Physics.GameState, es: seq<Event>)
    requires Physics.Inv(g)
    ensures Run(g, es).gameStarted <==>
            g.gameStarted || exists i :: 0 <= i < |es| && IsPress(es[i], Physics.SpaceBar)
    decreases |es|
  {
    if es != [] {
      var g' := Apply(g, es[0]);
      StartedIffSpacePressed(g', es[1..]);
      assert g'.gameStarted <==> g.gameStarted || IsPress(es[0], Physics.SpaceBar);
      if exists i :: 0 <= i < |es| && IsPress(es[i], Physics.SpaceBar) {
        var i :| 0 <= i < |es| && IsPress(es[i], Physics.SpaceBar);
        if i > 0 {
          assert IsPress(es[1..][i - 1], Physics.SpaceBar);
        }
      }
      if exists j :: 0 <= j < |es[1..]| && IsPress(es[1..][j], Physics.SpaceBar) {
        var j :| 0 <= j < |es[1..]| && IsPress(es[1..][j], Physics.SpaceBar);
        assert IsPress(es[j + 1], Physics.SpaceBar);
      }
    }
  }

  /** From the initial state, the game starts exactly when space is pressed. */
  lemma StartsOnFirstSpace(es: seq<Event>)
    ensures Physics.Inv(Physics.Initial())
    ensures Run(Physics.Initial(), es).gameStarted <==>
            exists i :: 0 <= i < |es| && IsPress(es[i], Physics.SpaceBar)
  {
    StartedIffSpacePressed(Physics.Initial(), es);
  }

  /** The heading after a run is the heading before, plus 90 degrees per 'v'
      press and minus 90 per 'c' press. */
  lemma {:induction false} HeadingCountsTurns(g: Physics.GameState, es: seq<Event>)
    requires Physics.Inv(g)
    ensures Run(g, es).cameraAngle == g.cameraAngle + Camera.QuarterTurn * (Presses(es, "v") - Presses(es, "c"))
    decreases |es|
  {
    if es != [] {
      HeadingCountsTurns(Apply(g, es[0]), es[1..]);
    }
  }

  /** The frame at position i of the run does not end in a fall. */
  predicate NoFallAt(g: Physics.GameState, es: seq<Event>, i: int)
    requires Physics.Inv(g) && 0 <= i < |es|
  {
    var s := Run(g, es[..i]);
    es[i].Frame? ==>
      !Physics.Fell(s.body, s.gameStarted, Physics.Held(s.keys, Physics.ArrowLeft),
                    Physics.Held(s.keys, Physics.ArrowRight), es[i].cast)
  }

  /** In a run without falls the player never moves towards +z, and does not
      move along z at all unless the game has started. */
  lemma {:induction false} NeverBackwards(g: Physics.GameState, es: seq<Event>)
    requires Physics.Inv(g)
    requires forall i :: 0 <= i < |es| ==> NoFallAt(g, es, i)
    ensures Run(g, es).body.pos.z <= g.body.pos.z
    ensures !Run(g, es).gameStarted ==> Run(g, es).body.pos.z == g.body.pos.z
    decreases |es|
  {
    if es != [] {
      var n := |es| - 1;
      var prefix := es[..n];
      forall i | 0 <= i < |prefix|
        ensures NoFallAt(g, prefix, i)
      {
        assert prefix[..i] == es[..i] && prefix[i] == es[i];
        assert NoFallAt(g, es, i);
      }
      NeverBackwards(g, prefix);
      RunSnoc(g, prefix, es[n]);
      assert prefix + [es[n]] == es;
      var s := Run(g, prefix);
      assert NoFallAt(g, es, n);
      if es[n].Frame? {
        Physics.ForwardMotion(s.body, s.gameStarted, Physics.Held(s.keys, Physics.ArrowLeft),
                              Physics.Held(s.keys, Physics.ArrowRight), es[n].cast);
      }
    }
  }

  /** Running one more event is applying it after the run. */
  lemma {:induction false} RunSnoc(g: Physics.GameState, es: seq<Event>, e: Event)
    requires Physics.Inv(g)
    ensures Run(g, es + [e]) == Apply(Run(g, es), e)
    decreases |es|
  {
    if es == [] {
      assert [] + [e] == [e];
    } else {
      assert (es + [e])[0] == es[0] && (es + [e])[1..] == es[1..] + [e];
      RunSnoc(Apply(g, es[0]), es[1..], e);
    }
  }
}
