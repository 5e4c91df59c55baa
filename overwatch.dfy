/** src/games/overwatch/trainer.rs: hero training tasks, match history and SR-based rank. */
module Overwatch {
  import opened Wrappers

  datatype Role = Tank | DPS | Support

  datatype Hero = Hero(name: string, role: Role, difficulty: nat, abilities: seq<string>,
                       counters: seq<string>, synergies: seq<string>)

  datatype SkillMetric = SkillMetric(aimAccuracy: real, positioning: real, ultimateEfficiency: real,
                                     survivalRate: real, teamCoordination: real)

  datatype GameResult = Win | Loss | Draw

  datatype MatchResult = MatchResult(timestamp: nat, hero: string, mapName: string, result: GameResult,
                                     performanceMetrics: SkillMetric)

  datatype TrainingTask = TrainingTask(focusArea: string, hero: string, completionCriteria: string,
                                       completed: bool)

  datatype Rank = Bronze | Silver | Gold | Platinum | Diamond | Master | Grandmaster | Top500

  /** The ranks in ascending order (the derived `PartialOrd` of `Rank`). */
  const Ranks: seq<Rank> := [Bronze, Silver, Gold, Platinum, Diamond, Master, Grandmaster, Top500]

  function RankIndex(r: Rank): (i: nat)
    ensures i < |Ranks| && Ranks[i] == r
  {
    match r
    case Bronze => 0
    case Silver => 1
    case Gold => 2
    case Platinum => 3
    case Diamond => 4
    case Master => 5
    case Grandmaster => 6
    case Top500 => 7
  }

  /** The rank band of an SR value. */
  function RankForSr(sr: nat): Rank {
    if sr <= 1499 then Bronze
    else if sr <= 1999 then Silver
    else if sr <= 2499 then Gold
    else if sr <= 2999 then Platinum
    else if sr <= 3499 then Diamond
    else if sr <= 3999 then Master
    else if sr <= 4499 then Grandmaster
    else Top500
  }

  /** The bands are 500 SR wide from 1500 up: the band number is `(sr - 1000) / 500`, capped at Top500. */
  lemma RankBands(sr: nat)
    ensures sr < 1500 ==> RankForSr(sr) == Bronze
    ensures sr >= 1500 ==> RankIndex(RankForSr(sr)) == if (sr - 1000) / 500 < 7 then (sr - 1000) / 500 else 7
  {
  }

  /** More SR never gives a lower rank. */
  lemma RankMonotone(a: nat, b: nat)
    requires a <= b
    ensures RankIndex(RankForSr(a)) <= RankIndex(RankForSr(b))
  {
  }

  /** The SR change of a match result. */
  function SrChange(result: GameResult): int {
    match result
    case Win => 25
    case Loss => -25
    case Draw => 0
  }

  /** The new SR: old SR plus the change, floored at 0. */
  function SrAfter(sr: nat, result: GameResult): (r: nat)
    ensures result == Win ==> r == sr + 25
    ensures result == Draw ==> r == sr
    ensures result == Loss ==> r == if sr >= 25 then sr - 25 else 0
  {
    if sr + SrChange(result) < 0 then 0 else sr + SrChange(result)
  }

  /** The role-specific task that `generate_training_tasks` adds second. */
  function RoleTask(hero: Hero): TrainingTask {
    match hero.role
    case Support => TrainingTask("Healing Priority", hero.name, "10k healing per 10 minutes", false)
    case DPS => TrainingTask("Aim Training", hero.name, "50% accuracy in practice range", false)
    case Tank => TrainingTask("Space Creation", hero.name, "Block 15k damage per 10 minutes", false)
  }

  /** The focus of the first task of every schedule. */
  const MovementFocus: string := "Movement and Positioning"

  function MovementTask(hero: Hero): TrainingTask {
    TrainingTask(MovementFocus, hero.name, "Stay alive for entire match", false)
  }

  const AdvancedAimTask: TrainingTask :=
    TrainingTask("Advanced Aim Techniques", "Any", "70% accuracy with critical hits", false)

  /** `retain(|task| !task.completed)`: the incomplete tasks, in their order. */
  function Incomplete(tasks: seq<TrainingTask>): (r: seq<TrainingTask>)
    ensures |r| <= |tasks|
    decreases |tasks|
  {
    if tasks == [] then []
    else if tasks[0].completed then Incomplete(tasks[1..])
    else [tasks[0]] + Incomplete(tasks[1..])
  }

  /** A task survives `retain` iff it was in the list and incomplete. */
  lemma {:induction false} IncompleteMembers(tasks: seq<TrainingTask>, t: TrainingTask)
    ensures t in Incomplete(tasks) <==> t in tasks && !t.completed
    decreases |tasks|
  {
    if tasks != [] {
      IncompleteMembers(tasks[1..], t);
      assert tasks == [tasks[0]] + tasks[1..];
    }
  }

  /** The schedule after `adjust_training_schedule`, given the new skill metrics. */
  function Adjusted(tasks: seq<TrainingTask>, skill: SkillMetric): seq<TrainingTask> {
    var kept := Incomplete(tasks);
    if kept == [] && skill.aimAccuracy > 0.5 then [AdvancedAimTask] else kept
  }

  /** After adjustment no completed task remains, and the advanced task appears only on an
    * otherwise empty schedule with aim accuracy above 0.5. */
  lemma AdjustedProperties(tasks: seq<TrainingTask>, skill: SkillMetric)
    ensures forall t :: t in Adjusted(tasks, skill) ==> !t.completed
    ensures Incomplete(tasks) != [] ==> Adjusted(tasks, skill) == Incomplete(tasks)
    ensures Incomplete(tasks) == [] ==>
              Adjusted(tasks, skill) == (if skill.aimAccuracy > 0.5 then [AdvancedAimTask] else [])
  {
    forall t | t in Adjusted(tasks, skill) ensures !t.completed {
      IncompleteMembers(tasks, t);
    }
  }

  /** The heroes `init_heroes` registers, keyed by lower-case id. */
  function InitialHeroes(): map<string, Hero> {
    map[
      "mercy" := Hero("Mercy", Support, 3, ["Healing Beam", "Damage Boost", "Guardian Angel", "Resurrect"],
                      ["Widowmaker", "Genji", "Tracer"], ["Pharah", "Ashe", "Echo"]),
      "ana" := Hero("Ana", Support, 7, ["Sleep Dart", "Biotic Grenade", "Nano Boost"],
                    ["Winston", "D.Va", "Genji"], ["Reinhardt", "Genji", "Soldier: 76"]),
      "reinhardt" := Hero("Reinhardt", Tank, 4, ["Barrier Field", "Charge", "Fire Strike", "Earthshatter"],
                          ["Reaper", "Bastion", "Junkrat"], ["Ana", "Lucio", "McCree"]),
      "tracer" := Hero("Tracer", DPS, 8, ["Blink", "Recall", "Pulse Bomb"],
                       ["McCree", "Brigitte", "Torbjorn"], ["Winston", "D.Va", "Zenyatta"])
    ]
  }

  class OverwatchTrainer {
    var heroes: map<string, Hero>
    var currentRole: Role
    var skillProgress: SkillMetric
    var matchHistory: seq<MatchResult>
    var trainingSchedule: seq<TrainingTask>
    var currentRank: Rank
    var sr: nat
    var peakSr: nat
    var gamesPlayed: nat

    /** The peak SR is never below the current SR. */
    predicate Valid()
      reads this
    {
      sr <= peakSr
    }

    /** `new`: Support role, zero metrics, SR and peak 1500, rank Bronze. */
    constructor ()
      ensures Valid()
      ensures heroes == InitialHeroes() && currentRole == Support
      ensures skillProgress == SkillMetric(0.0, 0.0, 0.0, 0.0, 0.0)
      ensures matchHistory == [] && trainingSchedule == []
      ensures currentRank == Bronze && sr == 1500 && peakSr == 1500 && gamesPlayed == 0
    {
      heroes := InitialHeroes();
      currentRole := Support;
      skillProgress := SkillMetric(0.0, 0.0, 0.0, 0.0, 0.0);
      matchHistory := [];
      trainingSchedule := [];
      currentRank := Bronze;
      sr := 1500;
      peakSr := 1500;
      gamesPlayed := 0;
    }

    /** `train_hero`: an unknown hero is an error with nothing changed; a known one gets a
      * fresh two-task schedule. */
    method TrainHero(hero: string) returns (r: Result<string>)
      requires Valid()
      modifies this
      ensures Valid()
      ensures hero !in old(heroes) ==> r == Err("Hero not found") && unchanged(this)
      ensures hero in old(heroes) ==>
                var h := old(heroes)[hero];
                trainingSchedule == [MovementTask(h), RoleTask(h)]
                && r == Ok("Starting training for " + h.name + "! Focus on: " + MovementFocus)
      ensures heroes == old(heroes) && matchHistory == old(matchHistory) && sr == old(sr)
      ensures peakSr == old(peakSr) && currentRank == old(currentRank) && gamesPlayed == old(gamesPlayed)
      ensures skillProgress == old(skillProgress) && currentRole == old(currentRole)
    {
      if hero !in heroes {
        return Err("Hero not found");
      }
      var h := heroes[hero];
      GenerateTrainingTasks(h);
      r := Ok("Starting training for " + h.name + "! Focus on: " + trainingSchedule[0].focusArea);
    }

    /** `generate_training_tasks`: clear the schedule, then the movement task and the role task. */
    method GenerateTrainingTasks(hero: Hero)
      modifies this`trainingSchedule
      ensures trainingSchedule == [MovementTask(hero), RoleTask(hero)]
      ensures forall t :: t in trainingSchedule ==> !t.completed
    {
      trainingSchedule := [];
      trainingSchedule := trainingSchedule + [MovementTask(hero)];
      trainingSchedule := trainingSchedule + [RoleTask(hero)];
    }

    /** `update_progress`: record the match, take its metrics, adjust the schedule, update rank. */
    method UpdateProgress(m: MatchResult)
      requires Valid()
      modifies this
      ensures Valid()
      ensures matchHistory == old(matchHistory) + [m]
      ensures skillProgress == m.performanceMetrics
      ensures trainingSchedule == Adjusted(old(trainingSchedule), m.performanceMetrics)
      ensures sr == SrAfter(old(sr), m.result) && gamesPlayed == old(gamesPlayed) + 1
      ensures peakSr == if sr > old(peakSr) then sr else old(peakSr)
      ensures currentRank == RankForSr(sr)
      ensures heroes == old(heroes) && currentRole == old(currentRole)
    {
      matchHistory := matchHistory + [m];
      skillProgress := m.performanceMetrics;
      AdjustTrainingSchedule();
      UpdateRank(m);
    }

    /** `update_rank`. */
    method UpdateRank(m: MatchResult)
      requires Valid()
      modifies this`sr, this`gamesPlayed, this`peakSr, this`currentRank
      ensures Valid()
      ensures sr == SrAfter(old(sr), m.result) && gamesPlayed == old(gamesPlayed) + 1
      ensures peakSr >= old(peakSr) && peakSr == if sr > old(peakSr) then sr else old(peakSr)
      ensures currentRank == RankForSr(sr)
    {
      sr := SrAfter(sr, m.result);
      gamesPlayed := gamesPlayed + 1;
      if sr > peakSr {
        peakSr := sr;
      }
      currentRank := RankForSr(sr);
    }

    /** `adjust_training_schedule` with `add_advanced_training_tasks`. */
    method AdjustTrainingSchedule()
      modifies this`trainingSchedule
      ensures trainingSchedule == Adjusted(old(trainingSchedule), skillProgress)
    {
      trainingSchedule := Incomplete(trainingSchedule);
      if trainingSchedule == [] && skillProgress.aimAccuracy > 0.5 {
        trainingSchedule := trainingSchedule + [AdvancedAimTask];
      }
    }
  }

  /** A fresh trainer's rank is Bronze although its 1500 SR falls in the Silver band. */
  method FreshTrainerRank() returns (rank: Rank, band: Rank)
    ensures rank == Bronze && band == Silver
  {
    var t := new OverwatchTrainer();
    rank := t.currentRank;
    band := RankForSr(t.sr);
  }
}
