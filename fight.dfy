/** The battle damage formula: attack power minus defence, scaled by the
    offline factor and the special (effective-weapon) multiplier.

    Every quantity the console front end reads is parsed with `float()`, so
    the model takes them as exact reals; only the attack type is an integer.
    The string "error" that the Python functions return for an unknown attack
    type is `None`. */
module Fight {
  import opened Wrappers

  /** Attack type 1: physical, uses strength (ATK) against defence (DF). */
  const Physical: int := 1
  /** Attack type 2: magical, uses magic (MGK) against resistance (MDF). */
  const Magical: int := 2

  predicate KnownType(kind: int) {
    kind == Physical || kind == Magical
  }

  /** Attack power. The weapon might (plus the critical modifier) is
      multiplied by the critical factor; level and weapon-triangle (sukumi)
      bonuses are added. */
  function AttackCompute(atk: real, mgk: real, weapon: real, critical: real, nCritical: real,
                         level: real, sukumi: real, kind: int): (r: Option<real>)
    ensures r.None? <==> !KnownType(kind)
  {
    if kind != Physical && kind != Magical then None
    else if kind == Physical then Some(atk + (weapon + nCritical) * critical + level + sukumi)
    else Some(mgk + (weapon + nCritical) * critical + level + sukumi)
  }

  /** Defence: the defender's DF (physical) or MDF (magical) plus terrain. */
  function DefenceCompute(df: real, mdf: real, terrain: real, kind: int): (r: Option<real>)
    ensures r.None? <==> !KnownType(kind)
  {
    if kind != Physical && kind != Magical then None
    else if kind == Physical then Some(df + terrain)
    else Some(mdf + terrain)
  }

  /** Damage: `(attack - defence) * offline * special`, or the error value
      when either part failed. Nothing is clamped. */
  function DamageCompute(atk: real, mgk: real, weapon: real, critical: real, nCritical: real,
                         level: real, sukumi: real, df: real, mdf: real, terrain: real,
                         offline: real, special: real, kind: int): (r: Option<real>)
    ensures r.None? <==> !KnownType(kind)
    ensures r.Some? ==>
      var off := AttackCompute(atk, mgk, weapon, critical, nCritical, level, sukumi, kind);
      var def := DefenceCompute(df, mdf, terrain, kind);
      off.Some? && def.Some? && r.value == Scaled(off.value - def.value, offline, special)
  {
    var off := AttackCompute(atk, mgk, weapon, critical, nCritical, level, sukumi, kind);
    var def := DefenceCompute(df, mdf, terrain, kind);
    if off.None? || def.None? then None
    else Some(Scaled(off.value - def.value, offline, special))
  }

  /** The difference between attack and defence, scaled by the offline
      factor and the special multiplier. */
  function Scaled(diff: real, offline: real, special: real): real {
    diff * offline * special
  }

  /** The part of the attack power that does not come from the attacker's
      own stat; it is the same for both attack types. */
  function WeaponPart(weapon: real, critical: real, nCritical: real, level: real, sukumi: real): real {
    (weapon + nCritical) * critical + level + sukumi
  }

  /** A physical attack adds the weapon part to ATK, a magical one to MGK. */
  lemma AttackUsesOneStat(atk: real, mgk: real, weapon: real, critical: real, nCritical: real,
                          level: real, sukumi: real)
    ensures AttackCompute(atk, mgk, weapon, critical, nCritical, level, sukumi, Physical)
         == Some(atk + WeaponPart(weapon, critical, nCritical, level, sukumi))
    ensures AttackCompute(atk, mgk, weapon, critical, nCritical, level, sukumi, Magical)
         == Some(mgk + WeaponPart(weapon, critical, nCritical, level, sukumi))
  {
  }

  /** Physical attack does not depend on MGK; magical attack does not depend on ATK. */
  lemma AttackIgnoresOtherStat(atk: real, mgk: real, atk': real, mgk': real, weapon: real,
                               critical: real, nCritical: real, level: real, sukumi: real)
    ensures AttackCompute(atk, mgk, weapon, critical, nCritical, level, sukumi, Physical)
         == AttackCompute(atk, mgk', weapon, critical, nCritical, level, sukumi, Physical)
    ensures AttackCompute(atk, mgk, weapon, critical, nCritical, level, sukumi, Magical)
         == AttackCompute(atk', mgk, weapon, critical, nCritical, level, sukumi, Magical)
  {
  }

  /** Physical defence is DF plus terrain, magical defence is MDF plus
      terrain, each independent of the other stat. */
  lemma DefenceUsesOneStat(df: real, mdf: real, df': real, mdf': real, terrain: real)
    ensures DefenceCompute(df, mdf, terrain, Physical) == Some(df + terrain)
    ensures DefenceCompute(df, mdf, terrain, Magical) == Some(mdf + terrain)
    ensures DefenceCompute(df, mdf, terrain, Physical) == DefenceCompute(df, mdf', terrain, Physical)
    ensures DefenceCompute(df, mdf, terrain, Magical) == DefenceCompute(df', mdf, terrain, Magical)
  {
  }

  /** The attack and defence calls always agree on whether they fail. */
  lemma SubcallsFailTogether(atk: real, mgk: real, weapon: real, critical: real, nCritical: real,
                             level: real, sukumi: real, df: real, mdf: real, terrain: real, kind: int)
    ensures AttackCompute(atk, mgk, weapon, critical, nCritical, level, sukumi, kind).None?
        <==> DefenceCompute(df, mdf, terrain, kind).None?
  {
  }

  /** The damage for a known type in terms of the raw stats: a physical hit
      uses ATK against DF, a magical hit MGK against MDF. */
  lemma DamageFormula(atk: real, mgk: real, weapon: real, critical: real, nCritical: real,
                      level: real, sukumi: real, df: real, mdf: real, terrain: real,
                      offline: real, special: real)
    ensures DamageCompute(atk, mgk, weapon, critical, nCritical, level, sukumi, df, mdf, terrain,
                          offline, special, Physical)
         == Some(Scaled(atk + WeaponPart(weapon, critical, nCritical, level, sukumi) - (df + terrain), offline, special))
    ensures DamageCompute(atk, mgk, weapon, critical, nCritical, level, sukumi, df, mdf, terrain,
                          offline, special, Magical)
         == Some(Scaled(mgk + WeaponPart(weapon, critical, nCritical, level, sukumi) - (mdf + terrain), offline, special))
  {
  }

  /** Physical damage is unaffected by MGK and MDF; magical damage by ATK and DF. */
  lemma DamageIgnoresOtherStats(atk: real, mgk: real, atk': real, mgk': real, weapon: real,
                                critical: real, nCritical: real, level: real, sukumi: real,
                                df: real, mdf: real, df': real, mdf': real, terrain: real,
                                offline: real, special: real)
    ensures DamageCompute(atk, mgk, weapon, critical, nCritical, level, sukumi, df, mdf, terrain,
                          offline, special, Physical)
         == DamageCompute(atk, mgk', weapon, critical, nCritical, level, sukumi, df, mdf', terrain,
                          offline, special, Physical)
    ensures DamageCompute(atk, mgk, weapon, critical, nCritical, level, sukumi, df, mdf, terrain,
                          offline, special, Magical)
         == DamageCompute(atk', mgk, weapon, critical, nCritical, level, sukumi, df', mdf, terrain,
                          offline, special, Magical)
  {
    DamageFormula(atk, mgk, weapon, critical, nCritical, level, sukumi, df, mdf, terrain, offline, special);
    DamageFormula(atk, mgk', weapon, critical, nCritical, level, sukumi, df, mdf', terrain, offline, special);
    DamageFormula(atk', mgk, weapon, critical, nCritical, level, sukumi, df', mdf, terrain, offline, special);
  }

  /** No clamping: a defence above the attack gives negative damage whenever
      the two multipliers have a positive product, an attack above the
      defence gives positive damage, and equal attack and defence give zero
      damage whatever the multipliers. */
  lemma DamageSign(atk: real, mgk: real, weapon: real, critical: real, nCritical: real,
                   level: real, sukumi: real, df: real, mdf: real, terrain: real,
                   offline: real, special: real, kind: int)
    requires KnownType(kind)
    ensures var off := AttackCompute(atk, mgk, weapon, critical, nCritical, level, sukumi, kind).value;
            var def := DefenceCompute(df, mdf, terrain, kind).value;
            var d := DamageCompute(atk, mgk, weapon, critical, nCritical, level, sukumi, df, mdf, terrain,
                                   offline, special, kind).value;
            (off < def && offline * special > 0.0 ==> d < 0.0)
            && (off > def && offline * special > 0.0 ==> d > 0.0)
            && (off == def ==> d == 0.0)
  {
  }

  /** The two multipliers scale the unmultiplied difference: halving
      `offline` halves the damage, and `special` multiplies it. */
  lemma DamageScales(atk: real, mgk: real, weapon: real, critical: real, nCritical: real,
                     level: real, sukumi: real, df: real, mdf: real, terrain: real,
                     offline: real, special: real, kind: int)
    requires KnownType(kind)
    ensures DamageCompute(atk, mgk, weapon, critical, nCritical, level, sukumi, df, mdf, terrain,
                          offline, special, kind).value
         == DamageCompute(atk, mgk, weapon, critical, nCritical, level, sukumi, df, mdf, terrain,
                          1.0, 1.0, kind).value * offline * special
  {
  }
}
