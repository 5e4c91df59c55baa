/** src/model/dance_rigging.rs: the dance moves and choreographies the avatar knows, and which
  * choreography is playing. Keyframe body positions are not part of the model: the only keyframe
  * the source defines uses the default position. */
module DanceRigging {
  import opened Wrappers

  /** `MoveType`; its `Choreography` variant is called `ChoreographyMove` here, since
    * `Choreography` names the choreography record. */
  datatype MoveType = Point | Formation | Transition | FloorWork | Jump | Spin | Isolation | Wave
                    | ChoreographyMove

  datatype DanceDifficulty = Beginner | Intermediate | Advanced | Master

  datatype TransitionType = Smooth | Sharp | Flow | Beat

  /** `DanceKeyframe` without its body position; times and levels are modelled as reals. */
  datatype DanceKeyframe = DanceKeyframe(timestamp: real, expression: string, energy: real,
                                         interpolation: string)

  datatype DanceMove = DanceMove(name: string, moveType: MoveType, keyframes: seq<DanceKeyframe>,
                                 requiredParams: seq<string>, difficulty: DanceDifficulty, energyLevel: real)

  /** A stretch of a song, in seconds, and the moves danced in it. */
  datatype ChoreographySegment = ChoreographySegment(startTime: real, endTime: real, moves: seq<string>,
                                                     formationPosition: Option<(real, real)>,
                                                     transitionType: TransitionType)

  /** A choreography; `energyCurve` holds (timestamp, energy level) points. */
  datatype Choreography = Choreography(songName: string, artist: string, bpm: real,
                                       sequence: seq<ChoreographySegment>, difficulty: DanceDifficulty,
                                       energyCurve: seq<(real, real)>)

  datatype TransitionState = TransitionState(currentMove: Option<string>, nextMove: Option<string>,
                                             progress: real, blendFactor: real)

  /** The message `toggle_dance` fails with. */
  const NotFoundMessage: string := "Choreography not found"

  const HeartPoint: DanceMove :=
    DanceMove("Heart Point", Point, [], ["arms", "hands"], Beginner, 0.3)
  const WaveBodyRoll: DanceMove :=
    DanceMove("Wave Body Roll", Wave, [], ["spine", "shoulders"], Intermediate, 0.6)
  const TouchMainSequence: DanceMove :=
    DanceMove("Touch Main Sequence", ChoreographyMove, [DanceKeyframe(0.0, "focused", 0.8, "smooth")],
              ["full_body", "arms", "expression"], Advanced, 0.9)
  const TouchWave: DanceMove :=
    DanceMove("Touch Wave Sequence", Wave, [], ["body_wave"], Advanced, 0.85)

  /** `initialize_dance_moves`. */
  const InitialDanceMoves: map<string, DanceMove> :=
    map["heart_point" := HeartPoint, "wave_body_roll" := WaveBodyRoll,
        "touch_main_sequence" := TouchMainSequence, "touch_wave" := TouchWave]

  const Dynamite: Choreography :=
    Choreography("Dynamite", "BTS", 114.0, [], Intermediate, [(0.0, 0.5), (30.0, 0.8)])
  const HowYouLikeThat: Choreography :=
    Choreography("How You Like That", "BLACKPINK", 130.0, [], Advanced, [(0.0, 0.6), (45.0, 0.9)])
  const TouchSegments: seq<ChoreographySegment> := [
    ChoreographySegment(0.0, 15.0, ["touch_intro"], Some((0.0, 0.0)), Flow),
    ChoreographySegment(15.0, 30.0, ["touch_main_sequence"], Some((0.0, 0.0)), Sharp)
  ]
  const Touch: Choreography :=
    Choreography("Touch", "Katseye", 128.0, TouchSegments, Advanced,
                 [(0.0, 0.6), (15.0, 0.8), (30.0, 0.9), (45.0, 0.85)])

  /** `initialize_choreographies`. */
  const InitialChoreographies: map<string, Choreography> :=
    map["dynamite" := Dynamite, "how_you_like_that" := HowYouLikeThat, "touch" := Touch]

  /** The state `new` starts the transition in. */
  const IdleTransition: TransitionState := TransitionState(None, None, 0.0, 0.0)

  /** Four moves and three choreographies are known from the start. */
  lemma InitialCounts()
    ensures |InitialDanceMoves| == 4 && |InitialChoreographies| == 3
    ensures InitialChoreographies.Keys == {"dynamite", "how_you_like_that", "touch"}
  {
    assert InitialDanceMoves.Keys == {"heart_point", "wave_body_roll", "touch_main_sequence", "touch_wave"};
  }

  /** Segments that each take time and follow on without gaps or overlaps. */
  predicate Contiguous(segments: seq<ChoreographySegment>) {
    (forall i :: 0 <= i < |segments| ==> segments[i].startTime < segments[i].endTime)
    && forall i :: 0 <= i < |segments| - 1 ==> segments[i].endTime == segments[i + 1].startTime
  }

  /** Energy-curve points in strictly increasing time. */
  predicate IncreasingTimes(curve: seq<(real, real)>) {
    forall i, j :: 0 <= i < j < |curve| ==> curve[i].0 < curve[j].0
  }

  /** The "touch" choreography runs from 0 to 30 seconds in two contiguous segments, and every
    * choreography's energy curve moves forward in time. */
  lemma ChoreographiesWellFormed()
    ensures Contiguous(Touch.sequence) && Touch.sequence[0].startTime == 0.0
    ensures Touch.sequence[|Touch.sequence| - 1].endTime == 30.0
    ensures forall name :: name in InitialChoreographies ==> IncreasingTimes(InitialChoreographies[name].energyCurve)
  {
  }

  /** The move of the second "touch" segment is in the move table and needs three rig parameters;
    * the first segment's "touch_intro" is not a move the table knows. */
  lemma TouchMovesRigged()
    ensures TouchSegments[1].moves[0] in InitialDanceMoves
    ensures |InitialDanceMoves[TouchSegments[1].moves[0]].requiredParams| == 3
    ensures TouchSegments[0].moves[0] !in InitialDanceMoves
  {
  }

  class DanceRigSystem {
    var danceMoves: map<string, DanceMove>
    var choreographies: map<string, Choreography>
    var currentDance: Option<string>
    var transitionState: TransitionState

    /** The dance playing, if any, is a known choreography. */
    predicate Valid()
      reads this
    {
      currentDance.Some? ==> currentDance.value in choreographies
    }

    /** `new`: the initial moves and choreographies, nothing playing, an idle transition. */
    constructor ()
      ensures danceMoves == InitialDanceMoves && choreographies == InitialChoreographies
      ensures currentDance == None && transitionState == IdleTransition
      ensures Valid()
    {
      danceMoves := InitialDanceMoves;
      choreographies := InitialChoreographies;
      currentDance := None;
      transitionState := IdleTransition;
    }

    /** `toggle_dance`: a known choreography becomes the current dance; an unknown name is an
      * error and changes nothing. */
    method ToggleDance(choreoName: string) returns (r: Result<()>)
      modifies this`currentDance
      ensures r.Ok? <==> choreoName in choreographies
      ensures r.Ok? ==> currentDance == Some(choreoName)
      ensures r.Err? ==> r == Err(NotFoundMessage) && currentDance == old(currentDance)
      ensures old(Valid()) ==> Valid()
    {
      if choreoName in choreographies {
        currentDance := Some(choreoName);
        r := Ok(());
      } else {
        r := Err(NotFoundMessage);
      }
    }

    /** `update_dance`: whatever is playing and whatever the time, no parameters are produced
      * yet, and nothing changes. */
    method UpdateDance(timestamp: real) returns (params: seq<(string, real)>)
      ensures params == []
    {
      params := [];
      if currentDance.Some? && currentDance.value in choreographies {
        var choreo := choreographies[currentDance.value];
      }
    }
  }

  /** Starting "touch" on a new rig works, and an unknown song leaves it playing. */
  method ToggleScenario() returns (first: Result<()>, second: Result<()>, playing: Option<string>)
    ensures first.Ok? && second == Err(NotFoundMessage) && playing == Some("touch")
  {
    var rig := new DanceRigSystem();
    InitialCounts();
    first := rig.ToggleDance("touch");
    second := rig.ToggleDance("gangnam_style");
    playing := rig.currentDance;
  }
}
