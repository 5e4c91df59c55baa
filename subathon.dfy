/** src/events/subathon.rs: an affiliate-only subathon whose end time grows with every
  * subscription, and sub-count goals that complete once reached. */
module Subathon {
  import opened Wrappers

  datatype SubathonGoal = SubathonGoal(subsRequired: nat, rewardDescription: string, completed: bool)

  /** One goal after `check_goals` at `subs` subscriptions. */
  function CheckedGoal(g: SubathonGoal, subs: nat): (h: SubathonGoal)
    ensures h.subsRequired == g.subsRequired && h.rewardDescription == g.rewardDescription
    ensures h.completed <==> g.completed || subs >= g.subsRequired
  {
    if subs >= g.subsRequired && !g.completed then g.(completed := true) else g
  }

  /** All goals after `check_goals`: a goal is complete iff it already was or has been reached. */
  function CheckedGoals(goals: seq<SubathonGoal>, subs: nat): (r: seq<SubathonGoal>)
    ensures |r| == |goals|
    ensures forall j :: 0 <= j < |r| ==> r[j].subsRequired == goals[j].subsRequired
                                         && r[j].rewardDescription == goals[j].rewardDescription
    ensures forall j :: 0 <= j < |r| ==> (r[j].completed <==> goals[j].completed || subs >= goals[j].subsRequired)
  {
    seq(|goals|, j requires 0 <= j < |goals| => CheckedGoal(goals[j], subs))
  }

  /** Checking again at the same count changes nothing. */
  lemma CheckedGoalsIdempotent(goals: seq<SubathonGoal>, subs: nat)
    ensures CheckedGoals(CheckedGoals(goals, subs), subs) == CheckedGoals(goals, subs)
  {
    var once := CheckedGoals(goals, subs);
    var twice := CheckedGoals(once, subs);
    forall j | 0 <= j < |goals| ensures twice[j] == once[j] {
    }
  }

  /** Checking at a higher count completes at least what a lower count did. */
  lemma CheckedGoalsMonotone(goals: seq<SubathonGoal>, low: nat, high: nat, j: nat)
    requires low <= high && j < |goals|
    ensures CheckedGoals(goals, low)[j].completed ==> CheckedGoals(goals, high)[j].completed
  {
  }

  class SubathonManager {
    var isAffiliate: bool
    /** Durations and times are whole clock units. */
    var baseDuration: nat
    var timePerSub: nat
    var timePerBits: nat
    var goals: seq<SubathonGoal>
    var startTime: Option<nat>
    var endTime: Option<nat>
    var currentSubs: nat

    /** `new`: not started, no subscriptions. */
    constructor (isAffiliate: bool, baseDuration: nat, timePerSub: nat, timePerBits: nat, goals: seq<SubathonGoal>)
      ensures this.isAffiliate == isAffiliate && this.baseDuration == baseDuration
      ensures this.timePerSub == timePerSub && this.timePerBits == timePerBits && this.goals == goals
      ensures startTime == None && endTime == None && currentSubs == 0
    {
      this.isAffiliate := isAffiliate;
      this.baseDuration := baseDuration;
      this.timePerSub := timePerSub;
      this.timePerBits := timePerBits;
      this.goals := goals;
      startTime := None;
      endTime := None;
      currentSubs := 0;
    }

    /** `start_subathon` at the injected time `now`: refused for a non-affiliate; otherwise the
      * end is the start plus the base duration. */
    method StartSubathon(now: nat) returns (r: Result<()>)
      modifies this`startTime, this`endTime
      ensures !isAffiliate ==> r == Err("Cannot start subathon: Not a Twitch affiliate")
                               && startTime == old(startTime) && endTime == old(endTime)
      ensures isAffiliate ==> r == Ok(()) && startTime == Some(now) && endTime == Some(now + baseDuration)
    {
      if !isAffiliate {
        return Err("Cannot start subathon: Not a Twitch affiliate");
      }
      startTime := Some(now);
      endTime := Some(now + baseDuration);
      r := Ok(());
    }

    /** `add_subscription`: one more sub, more time if the subathon is running, goals checked. */
    method AddSubscription()
      modifies this`currentSubs, this`endTime, this`goals
      ensures currentSubs == old(currentSubs) + 1
      ensures old(endTime).None? ==> endTime == None
      ensures old(endTime).Some? ==> endTime == Some(old(endTime).value + timePerSub)
      ensures goals == CheckedGoals(old(goals), currentSubs)
    {
      currentSubs := currentSubs + 1;
      if endTime.Some? {
        endTime := Some(endTime.value + timePerSub);
      }
      CheckGoals();
    }

    /** `check_goals`: the loop over the goals, completing each one reached. */
    method CheckGoals()
      modifies this`goals
      ensures goals == CheckedGoals(old(goals), currentSubs)
    {
      var i := 0;
      while i < |goals|
        invariant 0 <= i <= |goals| == |old(goals)|
        invariant goals[..i] == CheckedGoals(old(goals), currentSubs)[..i]
        invariant goals[i..] == old(goals)[i..]
      {
        if currentSubs >= goals[i].subsRequired && !goals[i].completed {
          goals := goals[i := goals[i].(completed := true)];
        }
        assert goals[i] == CheckedGoal(old(goals)[i], currentSubs) by {
          assert old(goals)[i] == old(goals)[i..][0];
        }
        i := i + 1;
      }
    }
  }

  /** A subathon that is never started gains no time however many subs arrive, and a goal of
    * two subs completes on the second one. */
  method UnstartedSubathon(reward: string) returns (end: Option<nat>, reached: bool)
    ensures end == None && reached
  {
    var m := new SubathonManager(true, 100, 5, 1, [SubathonGoal(2, reward, false)]);
    m.AddSubscription();
    m.AddSubscription();
    end := m.endTime;
    reached := m.goals[0].completed;
  }

  /** A non-affiliate cannot start; an affiliate's end time grows by the per-sub time. */
  method AffiliateGate(now: nat) returns (refused: Result<()>, end: Option<nat>)
    ensures refused == Err("Cannot start subathon: Not a Twitch affiliate")
    ensures end == Some(now + 100 + 5)
  {
    var stranger := new SubathonManager(false, 100, 5, 1, []);
    refused := stranger.StartSubathon(now);
    var m := new SubathonManager(true, 100, 5, 1, []);
    var _ := m.StartSubathon(now);
    m.AddSubscription();
    end := m.endTime;
  }
}
