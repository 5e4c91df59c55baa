/** src/security/defense_system.rs: attacks on the stream are logged, their source addresses
  * blocked, and each answered with a message, a countermeasure and a taunt. The random taunt
  * choice, the broadcast channel's subscribers and the voice channel's state are inputs. */
module DefenseSystem {
  import opened Wrappers

  datatype AttackType = DDoS | BruteForce | SQLInjection | XSS | BotAttack | PacketFlood

  /** An attack; `severity` is a byte and `timestamp` the injected clock. */
  datatype Attack = Attack(attackType: AttackType, sourceIp: string, timestamp: int, severity: nat, blocked: bool)

  datatype DefenseResponse = DefenseResponse(message: string, countermeasure: string, taunt: string)

  const Taunt1: string := "Ha! Get wrecked! Your attack is as weak as your coding skills! \U{F0}\U{178}\U{2019}\U{2026}"
  const Taunt2: string := "Nice try bestie, but I'm built different! \U{F0}\U{178}\U{2019}\U{E2}\U{20AC}\U{E2}\U{2122}\U{20AC}\U{EF}\U{B8}"
  const Taunt3: string := "Aww, that's cute. You thought you could hack me? *giggles in cybersecurity* \U{E2}\U{153}\U{A8}"
  const Taunt4: string := "Sorry not sorry! Your attack just got UwU blocked! \U{F0}\U{178}\U{203A}\U{A1}\U{EF}\U{B8}"
  const Taunt5: string := "Is that all you got? I've seen better attacks in tutorial mode! \U{F0}\U{178}\U{2DC}"
  const Taunt6: string := "Thanks for the free penetration test! But you failed bestie~ \U{F0}\U{178}\U{2019}\U{2022}"
  const Taunt7: string := "Imagine trying to DDoS in 2024! Couldn't be me! \U{F0}\U{178}\U{2019}\U{2026}\U{E2}\U{153}\U{A8}"
  const Taunt8: string := "Your attack was blocked faster than you can say 'UwU'! \U{F0}\U{178}\U{17D}\U{20AC}"

  /** The taunts `new` installs. */
  const Taunts: seq<string> := [Taunt1, Taunt2, Taunt3, Taunt4, Taunt5, Taunt6, Taunt7, Taunt8]

  /** The fixed message and countermeasure of each kind of attack. */
  function Countermeasure(t: AttackType): (string, string) {
    match t
    case DDoS => ("DDoS attack detected and blocked!", "Activating traffic filtering and rate limiting")
    case BruteForce => ("Brute force attack blocked!", "Implementing adaptive authentication delay")
    case SQLInjection => ("SQL Injection attempt detected and blocked!",
                          "Sanitizing inputs and strengthening query validation")
    case XSS => ("Cross-site scripting attempt blocked!", "Enforcing content security policy")
    case BotAttack => ("Bot attack detected and blocked!", "Implementing advanced CAPTCHA and rate limiting")
    case PacketFlood => ("Packet flood attack blocked!", "Activating packet filtering and traffic shaping")
  }

  /** Each kind of attack gets its own message. */
  lemma CountermeasuresDistinct(t1: AttackType, t2: AttackType)
    requires t1 != t2
    ensures Countermeasure(t1).0 != Countermeasure(t2).0
  {
    MessageLength(t1);
    MessageLength(t2);
  }

  /** The length of each kind's message. */
  lemma MessageLength(t: AttackType)
    ensures |Countermeasure(t).0| == match t
                                     case DDoS => 33 case BruteForce => 27 case SQLInjection => 43
                                     case XSS => 37 case BotAttack => 32 case PacketFlood => 28
  {
    match t
    case DDoS =>
    case BruteForce =>
    case SQLInjection =>
    case XSS =>
    case BotAttack =>
    case PacketFlood =>
  }

  /** `get_random_taunt`, with the random index given as `choice`. */
  function RandomTaunt(taunts: seq<string>, choice: nat): (t: string)
    requires |taunts| > 0
    ensures t in taunts
  {
    taunts[choice % |taunts|]
  }

  class SecurityDefenseSystem {
    var attackHistory: seq<Attack>
    var blockedIps: set<string>
    /** What has been sent on the attack broadcast channel, oldest first. */
    var broadcasts: seq<Attack>
    /** What has been sent to the voice channel, oldest first. */
    var spoken: seq<string>
    var taunts: seq<string>

    /** There is a taunt to pick, and every attack seen has its source blocked. */
    predicate Valid()
      reads this
    {
      |taunts| > 0 && forall i :: 0 <= i < |attackHistory| ==> attackHistory[i].sourceIp in blockedIps
    }

    /** `new`: nothing seen, nothing blocked, the eight taunts. */
    constructor ()
      ensures Valid()
      ensures attackHistory == [] && blockedIps == {} && broadcasts == [] && spoken == [] && taunts == Taunts
    {
      attackHistory := [];
      blockedIps := {};
      broadcasts := [];
      spoken := [];
      taunts := Taunts;
    }

    /** `generate_defense_response`, the taunt picked by `choice`. */
    function GenerateDefenseResponse(attack: Attack, choice: nat): (r: DefenseResponse)
      reads this
      requires Valid()
      ensures (r.message, r.countermeasure) == Countermeasure(attack.attackType)
      ensures r.taunt in taunts
    {
      var (message, countermeasure) := Countermeasure(attack.attackType);
      DefenseResponse(message, countermeasure, RandomTaunt(taunts, choice))
    }

    /** `handle_attack`: the attack is logged and its source blocked whatever follows. The
      * broadcast fails when the channel has no `subscribers`; then a taunt picked by `choice` is
      * spoken, which fails when the voice channel is closed (`voiceOpen` false). The
      * countermeasures only write to the console. */
    method HandleAttack(attack: Attack, subscribers: bool, voiceOpen: bool, choice: nat) returns (r: Result<()>)
      requires Valid()
      modifies this`attackHistory, this`blockedIps, this`broadcasts, this`spoken
      ensures Valid()
      ensures attackHistory == old(attackHistory) + [attack]
      ensures blockedIps == old(blockedIps) + {attack.sourceIp}
      ensures !subscribers ==> r.Err? && broadcasts == old(broadcasts) && spoken == old(spoken)
      ensures subscribers ==> broadcasts == old(broadcasts) + [attack]
      ensures subscribers && !voiceOpen ==> r.Err? && spoken == old(spoken)
      ensures subscribers && voiceOpen ==> r == Ok(()) && spoken == old(spoken) + [RandomTaunt(taunts, choice)]
    {
      attackHistory := attackHistory + [attack];
      blockedIps := blockedIps + {attack.sourceIp};
      var _ := GenerateDefenseResponse(attack, choice);
      if !subscribers {
        return Err("channel closed");
      }
      broadcasts := broadcasts + [attack];
      var taunt := RandomTaunt(taunts, choice);
      if !voiceOpen {
        return Err("channel closed");
      }
      spoken := spoken + [taunt];
      r := Ok(());
    }

    /** `is_ip_blocked`. */
    function IsIpBlocked(ip: string): (b: bool)
      reads this
      ensures b <==> ip in blockedIps
    {
      ip in blockedIps
    }
  }

  /** Once an attack is handled its source stays blocked, whatever later attacks do and
    * whether or not the notifications get through. */
  method BlockedStaysBlocked(a: Attack, b: Attack, s1: bool, v1: bool, s2: bool, v2: bool, c: nat)
    returns (blockedAfterFirst: bool, blockedAfterSecond: bool, history: seq<Attack>)
    ensures blockedAfterFirst && blockedAfterSecond && history == [a, b]
  {
    var d := new SecurityDefenseSystem();
    var _ := d.HandleAttack(a, s1, v1, c);
    blockedAfterFirst := d.IsIpBlocked(a.sourceIp);
    var _ := d.HandleAttack(b, s2, v2, c);
    blockedAfterSecond := d.IsIpBlocked(a.sourceIp);
    history := d.attackHistory;
  }
}
