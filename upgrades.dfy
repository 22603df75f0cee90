/** The upgrade bookkeeping (Assets/Game/UpgradeManager.cs): five bonus
    stats raised by name, a capped cooldown bonus, a reset to the defaults
    and a cheat switch that keeps an upgrade from ending the upgrade screen.
    The UI call and `GameManager.StartNextRound` (a member the code base does
    not define) are recorded in a ghost event log. */
module Upgrades {

  /** The five bonus fields, in declaration order. */
  datatype Stats = Stats(
    extraTimeOnKill: real,
    biteDmgBonus: real,
    chargeDmgBonus: real,
    chargeRadiusBonus: real,
    chargeCoolDownBonus: real)

  /** The field initialisers, which ResetUpgrades restores. */
  const Defaults := Stats(1.0, 0.0, 0.0, 0.0, 0.0)

  const MaxCoolDownReduction := 60.0

  /** The names the switch recognises. */
  const Names: set<string> := {"Time", "Bite", "Charge", "Range", "Cooldown"}

  /** The switch of ApplyUpgrade: one stat raised by a fixed step; the
      cooldown bonus only while it is below the cap; unknown names ignored. */
  function Upgraded(s: Stats, name: string): Stats {
    if name == "Time" then s.(extraTimeOnKill := s.extraTimeOnKill + 1.5)
    else if name == "Bite" then s.(biteDmgBonus := s.biteDmgBonus + 2.0)
    else if name == "Charge" then s.(chargeDmgBonus := s.chargeDmgBonus + 2.5)
    else if name == "Range" then s.(chargeRadiusBonus := s.chargeRadiusBonus + 0.5)
    else if name == "Cooldown" then
      if s.chargeCoolDownBonus < MaxCoolDownReduction then s.(chargeCoolDownBonus := s.chargeCoolDownBonus + 10.0)
      else s
    else s
  }

  /** The step by which an upgrade name raises its stat (0 for an unknown name). */
  function Step(name: string): (r: real)
    ensures r > 0.0 <==> name in Names
  {
    if name == "Time" then 1.5
    else if name == "Bite" then 2.0
    else if name == "Charge" then 2.5
    else if name == "Range" then 0.5
    else if name == "Cooldown" then 10.0
    else 0.0
  }

  /** How many of the five stats differ between `s` and `t`. */
  function Changed(s: Stats, t: Stats): nat {
    (if s.extraTimeOnKill != t.extraTimeOnKill then 1 else 0) +
    (if s.biteDmgBonus != t.biteDmgBonus then 1 else 0) +
    (if s.chargeDmgBonus != t.chargeDmgBonus then 1 else 0) +
    (if s.chargeRadiusBonus != t.chargeRadiusBonus then 1 else 0) +
    (if s.chargeCoolDownBonus != t.chargeCoolDownBonus then 1 else 0)
  }

  function Total(s: Stats): real {
    s.extraTimeOnKill + s.biteDmgBonus + s.chargeDmgBonus + s.chargeRadiusBonus + s.chargeCoolDownBonus
  }

  /** Whether the upgrade takes effect: every recognised name does, except
      the cooldown once the cap is reached. */
  predicate Effective(s: Stats, name: string) {
    name in Names && !(name == "Cooldown" && s.chargeCoolDownBonus >= MaxCoolDownReduction)
  }

  /** An effective upgrade changes exactly one stat and raises the total by
      the name's step; any other name changes nothing at all. */
  lemma OneStatPerUpgrade(s: Stats, name: string)
    ensures Effective(s, name) ==>
              Changed(s, Upgraded(s, name)) == 1 && Total(Upgraded(s, name)) == Total(s) + Step(name)
    ensures !Effective(s, name) ==> Upgraded(s, name) == s
  {
  }

  /** The stat each name raises. */
  lemma NamedStat(s: Stats, name: string)
    ensures name == "Time" ==> Upgraded(s, name).extraTimeOnKill == s.extraTimeOnKill + 1.5
    ensures name == "Bite" ==> Upgraded(s, name).biteDmgBonus == s.biteDmgBonus + 2.0
    ensures name == "Charge" ==> Upgraded(s, name).chargeDmgBonus == s.chargeDmgBonus + 2.5
    ensures name == "Range" ==> Upgraded(s, name).chargeRadiusBonus == s.chargeRadiusBonus + 0.5
    ensures name == "Cooldown" && s.chargeCoolDownBonus < MaxCoolDownReduction ==>
              Upgraded(s, name).chargeCoolDownBonus == s.chargeCoolDownBonus + 10.0
  {
  }

  predicate NoneLower(s: Stats, t: Stats) {
    s.extraTimeOnKill <= t.extraTimeOnKill && s.biteDmgBonus <= t.biteDmgBonus &&
    s.chargeDmgBonus <= t.chargeDmgBonus && s.chargeRadiusBonus <= t.chargeRadiusBonus &&
    s.chargeCoolDownBonus <= t.chargeCoolDownBonus
  }

  /** A run of upgrades, in the order they are chosen. */
  function UpgradedAll(s: Stats, names: seq<string>): Stats
    decreases |names|
  {
    if |names| == 0 then s else Upgraded(UpgradedAll(s, names[..|names| - 1]), names[|names| - 1])
  }

  /** No run of upgrades lowers any stat. */
  lemma {:induction false} NeverLower(s: Stats, names: seq<string>)
    ensures NoneLower(s, UpgradedAll(s, names))
    decreases |names|
  {
    if |names| > 0 {
      NeverLower(s, names[..|names| - 1]);
    }
  }

  /** The levels the cooldown bonus can take: a multiple of 10 from 0 to 60. */
  predicate CooldownLevel(c: real) {
    c == 0.0 || c == 10.0 || c == 20.0 || c == 30.0 || c == 40.0 || c == 50.0 || c == 60.0
  }

  /** From the reset value, any run of upgrades leaves the cooldown bonus at a
      multiple of 10 between 0 and 60: the cap is never overshot. */
  lemma {:induction false} CooldownCapped(names: seq<string>)
    ensures CooldownLevel(UpgradedAll(Defaults, names).chargeCoolDownBonus)
    ensures 0.0 <= UpgradedAll(Defaults, names).chargeCoolDownBonus <= MaxCoolDownReduction
    decreases |names|
  {
    if |names| > 0 {
      CooldownCapped(names[..|names| - 1]);
    }
  }

  /** `n` cooldown upgrades in a row from the reset value: the first six
      take effect, every later one finds the cap reached, and no other stat
      moves. */
  lemma {:induction false} CooldownSaturates(n: nat)
    ensures UpgradedAll(Defaults, seq(n, _ => "Cooldown")) ==
              Defaults.(chargeCoolDownBonus := if n < 6 then 10.0 * n as real else 60.0)
    decreases n
  {
    if n > 0 {
      var c := seq(n, _ => "Cooldown");
      assert c[..n - 1] == seq(n - 1, _ => "Cooldown");
      CooldownSaturates(n - 1);
    }
  }

  /** Calls ApplyUpgrade makes into other components. */
  datatype Event = HideWinScreen | StartNextRound

  /** The events of one ApplyUpgrade: the next round is requested exactly
      when cheat mode is off, whatever the name. */
  function AfterUpgrade(cheatMode: bool): (r: seq<Event>)
    ensures r != [] <==> !cheatMode
    ensures !cheatMode ==> r[|r| - 1] == StartNextRound
  {
    if cheatMode then [] else [HideWinScreen, StartNextRound]
  }

  class UpgradeManager {
    var extraTimeOnKill: real
    var biteDmgBonus: real
    var chargeDmgBonus: real
    var chargeRadiusBonus: real
    var chargeCoolDownBonus: real
    var cheatMode: bool
    ghost var log: seq<Event>

    function StatsOf(): Stats
      reads this
    {
      Stats(extraTimeOnKill, biteDmgBonus, chargeDmgBonus, chargeRadiusBonus, chargeCoolDownBonus)
    }

    constructor ()
      ensures StatsOf() == Defaults && !cheatMode && log == []
    {
      extraTimeOnKill, biteDmgBonus, chargeDmgBonus := 1.0, 0.0, 0.0;
      chargeRadiusBonus, chargeCoolDownBonus := 0.0, 0.0;
      cheatMode := false;
      log := [];
    }

    /** ApplyUpgrade: the stats move as Upgraded says; then, unless cheat
        mode is on, the win screen is hidden and the next round requested. */
    method ApplyUpgrade(upgradeType: string)
      modifies this
      ensures StatsOf() == Upgraded(old(StatsOf()), upgradeType)
      ensures cheatMode == old(cheatMode)
      ensures log == old(log) + AfterUpgrade(cheatMode)
    {
      if upgradeType == "Time" {
        extraTimeOnKill := extraTimeOnKill + 1.5;
      } else if upgradeType == "Bite" {
        biteDmgBonus := biteDmgBonus + 2.0;
      } else if upgradeType == "Charge" {
        chargeDmgBonus := chargeDmgBonus + 2.5;
      } else if upgradeType == "Range" {
        chargeRadiusBonus := chargeRadiusBonus + 0.5;
      } else if upgradeType == "Cooldown" {
        if chargeCoolDownBonus < MaxCoolDownReduction {
          chargeCoolDownBonus := chargeCoolDownBonus + 10.0;
        }
      }
      if !cheatMode {
        log := log + [HideWinScreen, StartNextRound];
      }
    }

    /** ResetUpgrades: the defaults again; cheat mode is left alone. */
    method ResetUpgrades()
      modifies this
      ensures StatsOf() == Defaults
      ensures cheatMode == old(cheatMode) && log == old(log)
    {
      extraTimeOnKill := 1.0;
      biteDmgBonus := 0.0;
      chargeDmgBonus := 0.0;
      chargeRadiusBonus := 0.0;
      chargeCoolDownBonus := 0.0;
    }

    /** ChangeCheat: flips cheat mode and nothing else, so two calls cancel out. */
    method ChangeCheat()
      modifies this`cheatMode
      ensures cheatMode == !old(cheatMode)
    {
      cheatMode := !cheatMode;
    }
  }
}
