/** src/games/minecraft/trainer.rs: recipes, skill experience and levels, and prioritised objectives. */
module Minecraft {
  import opened Wrappers
  import opened Strings
  import opened Collections

  datatype CraftingRecipe = CraftingRecipe(name: string, ingredients: seq<string>,
                                           pattern: Option<seq<string>>, result: string, quantity: nat)

  /** A skill; the `f32` experience is a real. */
  datatype Skill = Skill(name: string, level: nat, experience: real, milestones: seq<string>)

  datatype GameObjective = GameObjective(name: string, description: string, requirements: seq<string>,
                                         completed: bool, priority: nat)

  /** What `update_skill` reports: a level-up with the new level, or the experience gained.
    * The source formats both into a message; the `f32` text of the amount is not modelled. */
  datatype SkillReport = LevelUp(skill: string, level: nat) | Gained(amount: real, skill: string)

  function InitialRecipes(): map<string, CraftingRecipe> {
    map["crafting_table" := CraftingRecipe("Crafting Table", ["Wooden Planks"], Some(["XX", "XX"]),
                                           "Crafting Table", 1)]
  }

  function InitialSkills(): map<string, Skill> {
    map["building" := Skill("Building", 1, 0.0,
                            ["Build first house", "Create automated farm", "Build village trading hall"])]
  }

  const SurvivalObjectives: seq<GameObjective> := [
    GameObjective("Basic Shelter", "Build a safe shelter before night", ["Wood", "Crafting Table"], false, 1),
    GameObjective("Food Source", "Create a sustainable food source", ["Seeds", "Hoe", "Water"], false, 2)
  ]

  /** The skill after gaining `amount`: experience accumulates and is not reset, and the level
    * rises by one when experience reaches `level * 100`. */
  function Trained(s: Skill, amount: real): (t: Skill)
    ensures t.experience == s.experience + amount && t.name == s.name && t.milestones == s.milestones
    ensures t.level == if s.experience + amount >= (s.level * 100) as real then s.level + 1 else s.level
  {
    var e := s.experience + amount;
    if e >= (s.level * 100) as real then s.(experience := e, level := s.level + 1)
    else s.(experience := e)
  }

  /** One call raises the level by at most one, however much experience is gained. */
  lemma TrainedLevelStep(s: Skill, amount: real)
    ensures s.level <= Trained(s, amount).level <= s.level + 1
    ensures amount >= 0.0 && s.experience >= (s.level * 100) as real ==> Trained(s, amount).level == s.level + 1
  {
  }

  /** `filter(!completed).min_by_key(priority)`: the index of the first incomplete objective of
    * least priority. */
  function NextObjectiveIndex(objs: seq<GameObjective>): (r: Option<nat>)
    ensures r.None? <==> forall j :: 0 <= j < |objs| ==> objs[j].completed
    ensures r.Some? ==> r.value < |objs| && !objs[r.value].completed
    ensures r.Some? ==> forall j :: 0 <= j < |objs| && !objs[j].completed ==>
                          objs[r.value].priority <= objs[j].priority
                          && (j < r.value ==> objs[r.value].priority < objs[j].priority)
    decreases |objs|
  {
    if objs == [] then None
    else
      var rest := NextObjectiveIndex(objs[1..]);
      if objs[0].completed then
        (if rest.None? then None else Some(rest.value + 1))
      else if rest.None? || objs[0].priority <= objs[1..][rest.value].priority then Some(0)
      else Some(rest.value + 1)
  }

  function NextObjective(objs: seq<GameObjective>): Option<GameObjective> {
    match NextObjectiveIndex(objs)
    case None => None
    case Some(i) => Some(objs[i])
  }

  /** The name test that `complete_objective` searches with. */
  function NameIs(name: string): GameObjective -> bool {
    (o: GameObjective) => o.name == name
  }

  /** Survival mode yields two incomplete objectives, and the shelter (priority 1) comes next. */
  lemma SurvivalNext()
    ensures |SurvivalObjectives| == 2
    ensures forall j :: 0 <= j < 2 ==> !SurvivalObjectives[j].completed
    ensures SurvivalObjectives[0].priority == 1 && SurvivalObjectives[1].priority == 2
    ensures NextObjective(SurvivalObjectives) == Some(SurvivalObjectives[0])
  {
  }

  /** Completing the objective the trainer proposes next moves on to a different one, if any. */
  lemma CompletingNextAdvances(objs: seq<GameObjective>)
    requires NextObjectiveIndex(objs).Some?
    ensures var i := NextObjectiveIndex(objs).value;
            NextObjectiveIndex(objs[i := objs[i].(completed := true)]) != Some(i)
  {
  }

  class MinecraftTrainer {
    var craftingKnowledge: map<string, CraftingRecipe>
    var skills: map<string, Skill>
    var currentObjectives: seq<GameObjective>
    var completedAchievements: seq<string>

    /** `new`: the built-in recipe and skill, no objectives and no achievements. */
    constructor ()
      ensures craftingKnowledge == InitialRecipes() && skills == InitialSkills()
      ensures currentObjectives == [] && completedAchievements == []
    {
      craftingKnowledge := InitialRecipes();
      skills := InitialSkills();
      currentObjectives := [];
      completedAchievements := [];
    }

    /** `learn_recipe`: a known recipe's name and ingredients, or an error. Nothing changes. */
    method LearnRecipe(recipeName: string) returns (r: Result<string>)
      ensures recipeName !in craftingKnowledge ==> r == Err("Recipe not found")
      ensures recipeName in craftingKnowledge ==>
                var rc := craftingKnowledge[recipeName];
                r == Ok("Learned how to craft " + rc.name + "! You need: " + Join(rc.ingredients, ", "))
    {
      if recipeName !in craftingKnowledge {
        return Err("Recipe not found");
      }
      var rc := craftingKnowledge[recipeName];
      r := Ok("Learned how to craft " + rc.name + "! You need: " + Join(rc.ingredients, ", "));
    }

    /** `set_objectives`: clear, then the mode's objectives. Only the survival list is defined in
      * the file; `helperObjectives` stands for what the creative, hardcore and basic helpers add. */
    method SetObjectives(gameMode: string, helperObjectives: seq<GameObjective>)
      modifies this`currentObjectives
      ensures gameMode == "survival" ==> currentObjectives == SurvivalObjectives
      ensures gameMode != "survival" ==> currentObjectives == helperObjectives
    {
      currentObjectives := [];
      if gameMode == "survival" {
        currentObjectives := currentObjectives + SurvivalObjectives;
      } else {
        currentObjectives := currentObjectives + helperObjectives;
      }
    }

    /** `update_skill`: an unknown skill is an error; a known one is trained in place. */
    method UpdateSkill(skillName: string, experience: real) returns (r: Result<SkillReport>)
      modifies this`skills
      ensures skillName !in old(skills) ==> r == Err("Skill not found") && skills == old(skills)
      ensures skillName in old(skills) ==>
                var t := Trained(old(skills)[skillName], experience);
                skills == old(skills)[skillName := t]
                && r == Ok(if t.level > old(skills)[skillName].level then LevelUp(t.name, t.level)
                           else Gained(experience, t.name))
    {
      if skillName !in skills {
        return Err("Skill not found");
      }
      var skill := skills[skillName];
      skill := skill.(experience := skill.experience + experience);
      if skill.experience >= (skill.level * 100) as real {
        skill := skill.(level := skill.level + 1);
        skills := skills[skillName := skill];
        return Ok(LevelUp(skill.name, skill.level));
      }
      skills := skills[skillName := skill];
      r := Ok(Gained(experience, skill.name));
    }

    /** `get_next_objective`. */
    function GetNextObjective(): (r: Option<GameObjective>)
      reads this
      ensures r.None? <==> forall j :: 0 <= j < |currentObjectives| ==> currentObjectives[j].completed
      ensures r.Some? ==> !r.value.completed && r.value in currentObjectives
    {
      NextObjective(currentObjectives)
    }

    /** `complete_objective`: mark the first objective with that name complete. */
    method CompleteObjective(objectiveName: string) returns (r: Result<string>)
      modifies this`currentObjectives
      ensures Position(old(currentObjectives), NameIs(objectiveName)).None? ==>
                r == Err("Objective not found") && currentObjectives == old(currentObjectives)
      ensures Position(old(currentObjectives), NameIs(objectiveName)).Some? ==>
                var i := Position(old(currentObjectives), NameIs(objectiveName)).value;
                currentObjectives == old(currentObjectives)[i := old(currentObjectives)[i].(completed := true)]
                && r == Ok("Completed objective: " + objectiveName + "!")
    {
      var i := 0;
      while i < |currentObjectives|
        invariant 0 <= i <= |currentObjectives|
        invariant forall j :: 0 <= j < i ==> currentObjectives[j].name != objectiveName
      {
        if currentObjectives[i].name == objectiveName {
          currentObjectives := currentObjectives[i := currentObjectives[i].(completed := true)];
          return Ok("Completed objective: " + currentObjectives[i].name + "!");
        }
        i := i + 1;
      }
      r := Err("Objective not found");
    }
  }

  /** A fresh trainer has only the "building" skill: any other skill name is an error. */
  method FreshTrainerSkill(skillName: string) returns (r: Result<SkillReport>)
    requires skillName != "building"
    ensures r == Err("Skill not found")
  {
    var t := new MinecraftTrainer();
    r := t.UpdateSkill(skillName, 10.0);
  }
}
