/** The resource display (`format_unit`, main.py:124-139): which of the
    tiers M, k, plain and m an amount is shown in, and by what it is scaled.
    The two-decimal rendering itself is not modelled. */
module Formatter {
  import opened Dicts
  import opened GameData

  /** What the label shows: the literal "0.00 <unit>", a mantissa with a
      metric prefix and the unit, or the literal "negligible". */
  datatype Display =
    | Zero(unit: string)
    | Scaled(mantissa: real, prefix: Prefix, unit: string)
    | Negligible

  /** The metric prefixes a label may carry: M, k, none, m. */
  datatype Prefix = Mega | Kilo | NoPrefix | Milli

  /** The factor a prefix stands for. */
  function Factor(prefix: Prefix): (f: real)
    ensures f > 0.0
  {
    match prefix
    case Mega => 1000000.0
    case Kilo => 1000.0
    case NoPrefix => 1.0
    case Milli => 0.001
  }

  /** `format_unit` on an amount already looked up (main.py:128-139). */
  function Format(amount: real, unit: string): (d: Display)
    ensures d.Zero? <==> amount == 0.0
    ensures d.Negligible? <==> amount != 0.0 && amount < 0.0009
    ensures d.Zero? || d.Scaled? ==> d.unit == unit
  {
    if amount == 0.0 then Zero(unit)
    else if amount >= 900000.0 then Scaled(amount / 1000000.0, Mega, unit)
    else if amount >= 900.0 then Scaled(amount / 1000.0, Kilo, unit)
    else if amount >= 0.9 then Scaled(amount, NoPrefix, unit)
    else if amount >= 0.0009 then Scaled(amount * 1000.0, Milli, unit)
    else Negligible
  }

  /** The amount a display stands for, when it stands for one. */
  function Reading(d: Display): Option<real> {
    match d
    case Zero(_) => Some(0.0)
    case Scaled(mantissa, prefix, _) => Some(mantissa * Factor(prefix))
    case Negligible => None
  }

  /** Every amount that is shown as a number is shown exactly: the mantissa
      times the prefix's factor gives the amount back. */
  lemma FormatReadsBack(amount: real, unit: string)
    ensures Format(amount, unit).Negligible? || Reading(Format(amount, unit)) == Some(amount)
  {
    var d := Format(amount, unit);
    if d.Scaled? {
      assert d.mantissa * Factor(d.prefix) == amount by {
        if amount >= 900000.0 {
          assert d.mantissa == amount / 1000000.0 && Factor(d.prefix) == 1000000.0;
        } else if amount >= 900.0 {
          assert d.mantissa == amount / 1000.0 && Factor(d.prefix) == 1000.0;
        } else if amount >= 0.9 {
          assert d.mantissa == amount && Factor(d.prefix) == 1.0;
        } else {
          assert d.mantissa == amount * 1000.0 && Factor(d.prefix) == 0.001;
        }
      }
    }
  }

  /** The tier is the largest whose threshold the amount reaches, so the
      mantissa is at least 0.9 and, below the top tier, under 900. */
  lemma FormatPicksFittingPrefix(amount: real, unit: string)
    requires Format(amount, unit).Scaled?
    ensures var d := Format(amount, unit);
      && 0.9 <= d.mantissa
      && (d.prefix != Mega ==> d.mantissa < 900.0)
      && (d.prefix == Mega <==> amount >= 900000.0)
      && (d.prefix == Milli <==> amount < 0.9)
  {
  }

  /** The unit shown for a resource: its own, else "u" (main.py:126). */
  function UnitOf(resources: Dict<ResourceInfo>, r: string): (u: string)
    ensures !HasKey(resources, r) ==> u == "u"
  {
    match Lookup(resources, r)
    case None => "u"
    case Some(info) =>
      match info.unit
      case None => "u"
      case Some(unit) => unit
  }

  /** Sample labels from the comments of main.py:131-137. */
  lemma FormatExamples()
    ensures Format(1234567.0, "g") == Scaled(1.234567, Mega, "g")
    ensures Format(1234.0, "g") == Scaled(1.234, Kilo, "g")
    ensures Format(1.23, "g") == Scaled(1.23, NoPrefix, "g")
    ensures Format(0.00123, "g") == Scaled(1.23, Milli, "g")
    ensures Format(-5.0, "g") == Negligible
    ensures Format(0.0, "g") == Zero("g")
  {
  }
}
