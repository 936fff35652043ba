# FE if calculators: damage formula and growth-rate composition

This project models the two pieces of logic in a pair of desktop helpers for a
turn-based strategy game, and proves properties about them in Dafny.

- **Battle damage** (`fight.dfy` models `fight.py`). Attack power is the
  attacker's strength (physical, type 1) or magic (magical, type 2). To it go
  the weapon might plus the critical modifier, times the critical factor, and
  the level and weapon-triangle bonuses. Defence is the defender's defence or
  resistance plus terrain. Damage is `(attack - defence) * offline * special`.
  An attack type other than 1 or 2 gives the string `"error"`, which the model
  returns as `None`. All quantities are exact `real`s.
- **Growth-rate composition** (`compute.dfy` models `compute.py`). When the
  chart is drawn, each of a character's stats gets a total growth rate. It is
  the sum of four parts:
  - the character's personal growth;
  - half of the selected parent's personal growth, rounded down;
  - the selected class's growth bonus;
  - for the avatar カムイ only, +15 on the chosen boon stat and -15 on the
    chosen bane stat (the boon wins if both are the same stat).

  Choosing "（なし）" or an unknown parent or class switches that part off. An
  unknown character yields no chart (`None`). The chart title shows the sum
  over all stats.
- **Loading the character table** (`Compute.LoadWithCategory`). This is the
  loop of `load_csv_with_category`, run over records that are already parsed.
  Each name maps to its growth row. Each category maps to its character names,
  in file order.

A Python dict keeps its keys in insertion order, and the chart follows that
order. So a growth-table row is a `GrowthRow`: the keys in column order plus a
map from stat name to rate. `wrappers.dfy` holds the `Option` type.

The wider tool also projects final stats from class bases, stat caps and
levelling intervals. That calculation is not in `compute.py` or `fight.py`, and
it is not part of this model. The parent bonus is sometimes described as
applying only to child-generation units. The code adds it for any character
once a known parent is selected, and the model follows the code.

## Model

| member | source | states |
|---|---|---|
| `Fight.AttackCompute` | fight.py:1-9 | the result is the error value exactly when the attack type is neither 1 nor 2 |
| `Fight.DefenceCompute` | fight.py:11-19 | the result is the error value exactly when the attack type is neither 1 nor 2 |
| `Fight.DamageCompute` | fight.py:20-28 | error exactly when the type is neither 1 nor 2; otherwise both sub-results exist and the damage is (attack − defence) × offline × special |
| `Fight.AttackUsesOneStat` | fight.py:5-8 | physical attack is ATK + (WEPON + Ncritical) × critical + level + sukumi; magical attack is the same with MGK in place of ATK |
| `Fight.AttackIgnoresOtherStat` | fight.py:5-8 | physical attack does not change with MGK, magical attack does not change with ATK |
| `Fight.DefenceUsesOneStat` | fight.py:15-18 | physical defence is DF + terrain and ignores MDF; magical defence is MDF + terrain and ignores DF |
| `Fight.SubcallsFailTogether` | fight.py:22-25 | the attack and defence computations fail for exactly the same attack types |
| `Fight.DamageFormula` | fight.py:20-28 | for each valid type, damage in terms of the raw stats: (stat + weapon part − (defence stat + terrain)) × offline × special |
| `Fight.DamageIgnoresOtherStats` | fight.py:20-28 | physical damage is unaffected by MGK and MDF, magical damage by ATK and DF |
| `Fight.DamageSign` | fight.py:27 | no clamping: defence above attack with offline × special > 0 gives negative damage, attack above defence gives positive damage, equal attack and defence gives zero |
| `Fight.DamageScales` | fight.py:27 | damage equals the unscaled (offline = special = 1) damage times offline × special |
| `Compute.TraitLookupsDefinedIff` | compute.py:120-124 | the boon/bane lookups are defined exactly when a boon or bane that matches one of the character's stats is one of the eight trait stats of line 46 |
| `Compute.ParentBonus` | compute.py:110-115 | one entry per stat; with a known, non-"（なし）" parent each entry is the floor of half the parent's growth for that stat (2r ≤ g < 2r + 2), otherwise every entry is 0 |
| `Compute.ClassBonus` | compute.py:111-118 | one entry per stat; with a known, non-"（なし）" class each entry is the class table's entry for that stat, otherwise every entry is 0 |
| `Compute.TraitBonus` | compute.py:112-124 | one entry per stat; for カムイ, +15 on the boon stat, −15 on the bane stat unless it is also the boon, 0 elsewhere; all zero for every other character |
| `Compute.Compose` | compute.py:101-126 | no chart exactly when the character is not in the table; otherwise the stats are the character's keys in order, the base is its personal growth, the three bonuses are the components above, and each total is the sum of its four components |
| `Compute.OverallTotalSplits` | compute.py:147 | the overall total in the title equals the summed personal growth plus the summed parent, class and trait bonuses |
| `Compute.SumPointwise` | compute.py:126 | summing a pointwise sum of four sequences gives the sum of their sums |
| `Compute.TraitBonusSum` | compute.py:120-124 | over distinct stats the avatar's trait adds +15 when the boon is present and −15 when a different bane is present, so a different boon and bane cancel out |
| `Compute.PlainGrowthIsPersonalGrowth` | compute.py:107-126 | for a character other than カムイ, with no parent and no class, each total equals the personal growth rate of that stat |
| `Compute.LoadWithCategory` | compute.py:25-29 | the name keys are exactly the records' names, each mapped to the growth row of the last record with that name; the category keys are exactly the categories that occur, each mapped to its records' names in record order |
| `Compute.LastRowStep` | compute.py:28 | storing one more record under its name keeps every name mapped to the growth row of the last record with that name |
| `Compute.GroupStep` | compute.py:29 | appending the record's name to its category's list, which is created empty when the category is new, keeps every list exactly the names of that category in record order |
| `Compute.AppendRecord` | compute.py:29 | reading one more record adds its name and category and appends its name to its own category's list only |
| `Compute.NamesInEmpty` | compute.py:29 | a category's list is empty exactly when no record has that category, so no loaded category has an empty list |
| `Compute.NamesInConcat` | compute.py:25-29 | grouping two runs of records in sequence puts the second run's names after the first run's, category by category |
| `Compute.EachRecordAppendedOnce` | compute.py:25-29 | each record's name appears exactly once, in its own category's list, between the names from earlier and later records; other categories' lists do not contain it |
| `Compute.NamesInMembership` | compute.py:29 | a name is in a category's list exactly when some record has both that name and that category |

## Left out

- The tkinter window and widgets, the dropdown callbacks and the event binding (compute.py:50-91, 157-162): user interface.
- The matplotlib chart: bars, labels, axis limits and the platform-dependent font choice (compute.py:7-17, 128-155). Only the overall total in the title (line 147) is modelled.
- Opening and reading the CSV files, `csv.DictReader`, and `int()` on each cell (compute.py:20-43): file I/O and library code. `LoadWithCategory` takes records that are already parsed. `load_csv` for the class table (compute.py:32-39) builds a name-to-row map with no further logic and is not modelled.
- `Compute.LoadWithCategory`: the key order of the `categories` dict is not modelled. It is first-occurrence order, and it sets the order of the category dropdown.
- `fight.py` `main` (lines 30-71): console input and output with `float()` parsing. Its prompts suggest value ranges, for example critical 1 to 3. The compute functions do not enforce those ranges, and neither does the model.
- A Python `KeyError` when an active parent or class row lacks one of the character's stats, or when a matching boon or bane is not one of the eight trait stats. This is a precondition (`Compute.Selectable`), not an error value.
- Floating-point rounding in `fight.py`: the model computes on exact reals.
- The numpy integer width of the growth arrays: the model uses unbounded integers. Growth rates are small percentages, so this does not change any result.
