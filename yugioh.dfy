/** src/games/yugioh/trainer.rs: Master Duel gems, pack opening, duel record, win-rate rank,
  * the selected deck and matchup notes. */
module Yugioh {
  import opened Wrappers
  import opened Strings

  datatype DeckTier = Meta | RogueCompetitive | Rogue | Casual

  datatype PlayStyle = Combo | Control | Midrange | Aggro | StunLockdown

  datatype CardRarity = Normal | Rare | SuperRare | UltraRare

  datatype DeckArchetype = DeckArchetype(name: string, tier: DeckTier, playStyle: PlayStyle,
                                         coreCards: seq<string>, techChoices: seq<string>,
                                         counters: seq<string>, comboLines: seq<string>)

  const PackPrice: nat := 100
  const CardsPerPack: nat := 8
  const LossNote: string := "New counter strategy learned from loss"

  /** `generate_card`: the card a slot of the given rarity yields. */
  function CardName(rarity: CardRarity): string {
    match rarity
    case UltraRare => "Premium Meta Card"
    case SuperRare => "Strong Tech Card"
    case Rare => "Common Staple"
    case Normal => "Basic Card"
  }

  /** The rarity of each slot of one pack, in order. */
  const PackRarities: seq<CardRarity> := [UltraRare, SuperRare, Rare, Rare, Rare, Rare, Rare, Rare]

  function PackCards(): (cards: seq<string>)
    ensures |cards| == CardsPerPack
  {
    seq(|PackRarities|, k requires 0 <= k < |PackRarities| => CardName(PackRarities[k]))
  }

  /** A pack holds one UltraRare, one SuperRare and six Rare slots, the UltraRare first. */
  lemma PackDistribution()
    ensures |PackRarities| == CardsPerPack
    ensures multiset(PackRarities)[UltraRare] == 1 && multiset(PackRarities)[SuperRare] == 1
    ensures multiset(PackRarities)[Rare] == 6 && multiset(PackRarities)[Normal] == 0
    ensures PackRarities[0] == UltraRare && PackRarities[1] == SuperRare
  {
  }

  /** The cards of `n` packs opened one after the other. */
  function Packs(n: nat): (cards: seq<string>)
    ensures |cards| == CardsPerPack * n
  {
    if n == 0 then [] else Packs(n - 1) + PackCards()
  }

  /** Card `k` of `n` packs is the card of slot `k mod 8` of a single pack. */
  lemma {:induction false} PacksSlots(n: nat, k: nat)
    requires k < CardsPerPack * n
    ensures Packs(n)[k] == CardName(PackRarities[k % CardsPerPack])
  {
    if k < CardsPerPack * (n - 1) {
      PacksSlots(n - 1, k);
    } else {
      assert k - CardsPerPack * (n - 1) == k % CardsPerPack;
    }
  }

  /** `simulate_pack_opening`: the two guaranteed cards, then six Rare ones. */
  method SimulatePackOpening() returns (cards: seq<string>)
    ensures cards == PackCards()
  {
    cards := [];
    cards := cards + [CardName(UltraRare)];
    cards := cards + [CardName(SuperRare)];
    var i := 0;
    while i < 6
      invariant 0 <= i <= 6
      invariant cards == PackCards()[..2 + i]
    {
      cards := cards + [CardName(Rare)];
      i := i + 1;
    }
  }

  /** The rank label for a duel record; integer fractions stand for the `f32` win rate. */
  function RankFor(wins: nat, losses: nat): string {
    var total := wins + losses;
    if 100 * wins >= 65 * total && total >= 100 then "Diamond"
    else if 100 * wins >= 60 * total && total >= 50 then "Platinum"
    else if 100 * wins >= 55 * total && total >= 30 then "Gold"
    else if 100 * wins >= 50 * total && total >= 10 then "Silver"
    else "Bronze"
  }

  /** Each label is given exactly by its own guard and the failure of the higher ones. */
  lemma RankForCases(wins: nat, losses: nat)
    ensures var t := wins + losses;
            (RankFor(wins, losses) == "Diamond" <==> 100 * wins >= 65 * t && t >= 100)
            && (RankFor(wins, losses) == "Bronze" <==>
                  !(100 * wins >= 50 * t && t >= 10) && !(100 * wins >= 55 * t && t >= 30)
                  && !(100 * wins >= 60 * t && t >= 50) && !(100 * wins >= 65 * t && t >= 100))
    ensures RankFor(wins, losses) in {"Diamond", "Platinum", "Gold", "Silver", "Bronze"}
  {
  }

  /** Fewer than ten duels always rank Bronze, whatever the record. */
  lemma FewDuelsBronze(wins: nat, losses: nat)
    requires wins + losses < 10
    ensures RankFor(wins, losses) == "Bronze"
  {
  }

  function PlayStyleName(p: PlayStyle): string {
    match p
    case Combo => "Combo"
    case Control => "Control"
    case Midrange => "Midrange"
    case Aggro => "Aggro"
    case StunLockdown => "StunLockdown"
  }

  /** `init_meta_decks`. */
  function InitialDecks(): map<string, DeckArchetype> {
    map["dragonlink" := DeckArchetype("Dragon Link", Meta, Combo,
                                      ["Quick Launch", "Striker Dragon", "Chaos Space"],
                                      ["Called by the Grave", "Crossout Designator"],
                                      ["Nibiru", "Ash Blossom"],
                                      ["Normal Summon Rokket Tracer -> Link into Striker Dragon..."])]
  }

  /** Whether some line of `lines` contains `name`. */
  predicate AnyContains(lines: seq<string>, name: string) {
    exists k :: 0 <= k < |lines| && Contains(lines[k], name)
  }

  class YugiohTrainer {
    var decks: map<string, DeckArchetype>
    var currentDeck: Option<string>
    var wins: nat
    var losses: nat
    var rank: string
    var favoriteDeck: string
    var gemsEarned: nat
    var knownCombos: seq<string>
    var metaKnowledge: map<string, seq<string>>

    /** `new`: the meta decks, no deck selected, an empty "Rookie" record with no gems. */
    constructor ()
      ensures decks == InitialDecks() && currentDeck == None
      ensures wins == 0 && losses == 0 && rank == "Rookie" && favoriteDeck == "" && gemsEarned == 0
      ensures knownCombos == [] && metaKnowledge == map[]
    {
      decks := InitialDecks();
      currentDeck := None;
      wins := 0;
      losses := 0;
      rank := "Rookie";
      favoriteDeck := "";
      gemsEarned := 0;
      knownCombos := [];
      metaKnowledge := map[];
    }

    /** `purchase_packs`: 100 gems and eight cards per pack, or an error with nothing spent. */
    method PurchasePacks(packType: string, amount: nat) returns (r: Result<seq<string>>)
      modifies this`gemsEarned
      ensures old(gemsEarned) < PackPrice * amount ==>
                r == Err("Insufficient gems! Complete more duels to earn gems.") && gemsEarned == old(gemsEarned)
      ensures old(gemsEarned) >= PackPrice * amount ==>
                r == Ok(Packs(amount)) && gemsEarned == old(gemsEarned) - PackPrice * amount
    {
      if gemsEarned < amount * PackPrice {
        return Err("Insufficient gems! Complete more duels to earn gems.");
      }
      var cards := [];
      var i := 0;
      while i < amount
        invariant 0 <= i <= amount
        invariant gemsEarned == old(gemsEarned) - PackPrice * i
        invariant cards == Packs(i)
      {
        gemsEarned := gemsEarned - PackPrice;
        var pack := SimulatePackOpening();
        cards := cards + pack;
        i := i + 1;
      }
      r := Ok(cards);
    }

    /** `learn_deck`: select a known deck and take its combo lines. */
    method LearnDeck(deckName: string) returns (r: Result<string>)
      modifies this`currentDeck, this`knownCombos
      ensures deckName !in decks ==>
                r == Err("Deck not found in current meta") && currentDeck == old(currentDeck)
                && knownCombos == old(knownCombos)
      ensures deckName in decks ==>
                currentDeck == Some(deckName) && knownCombos == decks[deckName].comboLines
                && r == Ok("Learning " + decks[deckName].name + " deck. Playstyle: "
                           + PlayStyleName(decks[deckName].playStyle) + ". Starting with basic combos...")
    {
      if deckName !in decks {
        return Err("Deck not found in current meta");
      }
      var deck := decks[deckName];
      currentDeck := Some(deckName);
      knownCombos := deck.comboLines;
      r := Ok("Learning " + deck.name + " deck. Playstyle: " + PlayStyleName(deck.playStyle)
              + ". Starting with basic combos...");
    }

    /** `practice_combo`: Ok exactly when a deck is selected and one of its combo lines contains the name. */
    method PracticeCombo(comboName: string) returns (r: Result<()>)
      ensures r.Ok? <==> currentDeck.Some? && currentDeck.value in decks
                         && AnyContains(decks[currentDeck.value].comboLines, comboName)
      ensures r.Err? ==> r == Err("Combo not found or no deck selected")
    {
      if currentDeck.Some? && currentDeck.value in decks {
        var lines := decks[currentDeck.value].comboLines;
        var k := 0;
        while k < |lines|
          invariant 0 <= k <= |lines|
          invariant forall j :: 0 <= j < k ==> !Contains(lines[j], comboName)
        {
          if Contains(lines[k], comboName) {
            return Ok(());
          }
          k := k + 1;
        }
      }
      r := Err("Combo not found or no deck selected");
    }

    /** `record_duel_result`: one counter and the gems move, the rank follows the record, and a
      * loss with a deck selected adds a note under "<deck>_<opponent>". */
    method RecordDuelResult(won: bool, opponentDeck: string) returns (r: Result<()>)
      modifies this`wins, this`losses, this`gemsEarned, this`rank, this`metaKnowledge
      ensures r == Ok(())
      ensures won ==> wins == old(wins) + 1 && losses == old(losses) && gemsEarned == old(gemsEarned) + 50
      ensures !won ==> losses == old(losses) + 1 && wins == old(wins) && gemsEarned == old(gemsEarned) + 10
      ensures rank == RankFor(wins, losses)
      ensures currentDeck.None? ==> metaKnowledge == old(metaKnowledge)
      ensures currentDeck.Some? ==>
                var key := currentDeck.value + "_" + opponentDeck;
                var prior := if key in old(metaKnowledge) then old(metaKnowledge)[key] else [];
                metaKnowledge == old(metaKnowledge)[key := if won then prior else prior + [LossNote]]
    {
      if won {
        wins := wins + 1;
        gemsEarned := gemsEarned + 50;
      } else {
        losses := losses + 1;
        gemsEarned := gemsEarned + 10;
      }
      UpdateRank();
      if currentDeck.Some? {
        var key := currentDeck.value + "_" + opponentDeck;
        if key !in metaKnowledge {
          metaKnowledge := metaKnowledge[key := []];
        }
        if !won {
          metaKnowledge := metaKnowledge[key := metaKnowledge[key] + [LossNote]];
        }
      }
      r := Ok(());
    }

    /** `update_rank`: no duels leaves the label as it is. */
    method UpdateRank()
      modifies this`rank
      ensures wins + losses == 0 ==> rank == old(rank)
      ensures wins + losses > 0 ==> rank == RankFor(wins, losses)
    {
      if wins + losses == 0 {
        return;
      }
      rank := RankFor(wins, losses);
    }
  }

  /** A fresh trainer has no gems, so buying any pack fails. */
  method FreshTrainerCannotBuy(amount: nat) returns (r: Result<seq<string>>)
    requires amount > 0
    ensures r == Err("Insufficient gems! Complete more duels to earn gems.")
  {
    var t := new YugiohTrainer();
    r := t.PurchasePacks("any", amount);
  }
}
