/** The pieces of backend/verify_quant.py that do not touch the database: the clamp
    normaliser with its known-answer checks, the `check` accumulator and the final
    summary's exit decision. */
module QuantAudit {
  import opened Wrappers
  import opened RealArith

  /** `normalize(v, lo, hi)`: the position of `v` between `lo` and `hi` as a percentage,
      clamped to [0, 100]. With `hi == lo` the division raises `ZeroDivisionError`. */
  function Normalize(v: real, lo: real, hi: real): (r: Result<real, string>)
    ensures r.Err? <==> hi == lo
  {
    if hi == lo then Err("float division by zero")
    else Ok(Max(0.0, Min(100.0, (v - lo) / (hi - lo) * 100.0)))
  }

  /** The unclamped percentage. */
  function Scaled(v: real, lo: real, hi: real): real
    requires hi != lo
  {
    (v - lo) / (hi - lo) * 100.0
  }

  /** The result always lies in [0, 100]; it is the unclamped percentage whenever that
      percentage is itself in range. */
  lemma NormalizeRange(v: real, lo: real, hi: real)
    requires hi != lo
    ensures 0.0 <= Normalize(v, lo, hi).value <= 100.0
    ensures 0.0 <= Scaled(v, lo, hi) <= 100.0 ==> Normalize(v, lo, hi).value == Scaled(v, lo, hi)
  {
  }

  /** The end points map to 0 and 100 and the midpoint to 50. */
  lemma NormalizeEnds(lo: real, hi: real)
    requires hi > lo
    ensures Normalize(lo, lo, hi) == Ok(0.0)
    ensures Normalize(hi, lo, hi) == Ok(100.0)
    ensures Normalize((lo + hi) / 2.0, lo, hi) == Ok(50.0)
  {
    assert (hi - lo) / (hi - lo) == 1.0;
    assert ((lo + hi) / 2.0 - lo) / (hi - lo) == 0.5 by {
      assert (lo + hi) / 2.0 - lo == (hi - lo) / 2.0;
    }
  }

  /** Values at or above `hi` give 100 and values at or below `lo` give 0. */
  lemma NormalizeClamps(v: real, lo: real, hi: real)
    requires hi > lo
    ensures v >= hi ==> Normalize(v, lo, hi) == Ok(100.0)
    ensures v <= lo ==> Normalize(v, lo, hi) == Ok(0.0)
  {
    if v >= hi {
      QuotientAtLeastOne(v - lo, hi - lo);
    }
    if v <= lo {
      QuotientNonPositive(v - lo, hi - lo);
    }
  }

  lemma QuotientAtLeastOne(a: real, b: real)
    requires 0.0 < b <= a
    ensures a / b >= 1.0
  {
    assert a / b * b == a;
  }

  lemma QuotientNonPositive(a: real, b: real)
    requires a <= 0.0 < b
    ensures a / b <= 0.0
  {
    assert a / b * b == a;
  }

  /** With `hi > lo` a larger value never scores lower. */
  lemma NormalizeMonotone(v: real, w: real, lo: real, hi: real)
    requires hi > lo && v <= w
    ensures Normalize(v, lo, hi).value <= Normalize(w, lo, hi).value
  {
    QuotientMonotone(v - lo, w - lo, hi - lo);
  }

  lemma QuotientMonotone(a: real, c: real, b: real)
    requires a <= c && 0.0 < b
    ensures a / b <= c / b
  {
    assert a / b * b == a && c / b * b == c;
  }

  /** A row of the known-answer table: value, bounds, expected score and label. */
  datatype Case = Case(v: real, lo: real, hi: real, expected: real, name: string)

  /** The table of lines 54-63. */
  const Cases: seq<Case> := [
    Case(1.0, 0.5, 1.5, 50.0, "beta_mkt=1.0 \U{2192} 50"),
    Case(0.5, 0.5, 1.5, 0.0, "beta_mkt=0.5 \U{2192} 0"),
    Case(1.5, 0.5, 1.5, 100.0, "beta_mkt=1.5 \U{2192} 100"),
    Case(2.0, 0.5, 1.5, 100.0, "beta_mkt=2.0 clamp \U{2192} 100"),
    Case(0.0, -0.5, 0.5, 50.0, "beta_smb=0.0 \U{2192} 50"),
    Case(0.5, -0.5, 0.5, 100.0, "beta_smb=0.5 \U{2192} 100"),
    Case(-0.5, -0.5, 0.5, 0.0, "beta_smb=-0.5 \U{2192} 0"),
    Case(0.0, -0.05, 0.05, 50.0, "ann_alpha=0.0 \U{2192} 50")
  ]

  /** Every row of the table and the SPY spot check come out exactly as expected. */
  lemma KnownAnswers()
    ensures forall k :: 0 <= k < |Cases| ==>
      Normalize(Cases[k].v, Cases[k].lo, Cases[k].hi) == Ok(Cases[k].expected)
    ensures Normalize(1.03, 0.5, 1.5) == Ok(53.0)
  {
    NormalizeEnds(0.5, 1.5);
    NormalizeClamps(2.0, 0.5, 1.5);
    NormalizeEnds(-0.5, 0.5);
    NormalizeEnds(-0.05, 0.05);
  }

  /** `abs(x)`. */
  function Abs(x: real): real { if x < 0.0 then -x else x }

  /** The tolerance of the known-answer checks. */
  const Tolerance: real := 0.000000001

  /** The tag `check` prints. */
  function Tag(condition: bool, level: string): (tag: string)
    ensures condition <==> tag == "[PASS]"
    ensures !condition ==> (tag == "[WARN]" <==> level == "WARN")
    ensures tag == "[PASS]" || tag == "[WARN]" || tag == "[FAIL]"
  {
    if condition then "[PASS]" else if level == "WARN" then "[WARN]" else "[FAIL]"
  }

  /** How the final summary ends. */
  datatype Summary = HardErrors(count: nat) | OnlyWarnings(count: nat) | AllPassed

  /** The branch the final summary takes (lines 328-339). */
  function SummaryOf(errors: seq<string>, warnings: seq<string>): Summary {
    if errors != [] then HardErrors(|errors|)
    else if warnings != [] then OnlyWarnings(|warnings|)
    else AllPassed
  }

  /** The process exit status: `sys.exit(1)` on hard errors, 0 when the script ends normally. */
  function ExitCode(s: Summary): int {
    if s.HardErrors? then 1 else 0
  }

  /** The run fails exactly when there is a hard error; warnings alone never fail it. */
  lemma ExitDecision(errors: seq<string>, warnings: seq<string>)
    ensures ExitCode(SummaryOf(errors, warnings)) != 0 <==> errors != []
    ensures errors == [] ==> ExitCode(SummaryOf(errors, warnings)) == 0
    ensures SummaryOf(errors, warnings).HardErrors? ==> SummaryOf(errors, warnings).count == |errors|
    ensures SummaryOf(errors, warnings).OnlyWarnings? ==> errors == [] && SummaryOf(errors, warnings).count == |warnings|
  {
  }

  /** The module-level `errors` and `warnings` lists. */
  class Audit {
    var errors: seq<string>
    var warnings: seq<string>

    constructor()
      ensures errors == [] && warnings == []
    {
      errors := [];
      warnings := [];
    }

    /** `check`: a passing condition leaves both lists alone; a failing one appends
        `"label: msg"` to `warnings` at level WARN and to `errors` at any other level. */
    method Check(name: string, condition: bool, msg: string, level: string) returns (tag: string)
      modifies this
      ensures tag == Tag(condition, level)
      ensures condition ==> errors == old(errors) && warnings == old(warnings)
      ensures !condition && level == "WARN" ==>
        warnings == old(warnings) + [name + ": " + msg] && errors == old(errors)
      ensures !condition && level != "WARN" ==>
        errors == old(errors) + [name + ": " + msg] && warnings == old(warnings)
    {
      tag := Tag(condition, level);
      if !condition {
        if level == "WARN" {
          warnings := warnings + [name + ": " + msg];
        } else {
          errors := errors + [name + ": " + msg];
        }
      }
    }

    /** The exit status the final summary produces from the lists as they stand. */
    function Exit(): (code: int)
      reads this
      ensures code != 0 <==> errors != []
    {
      ExitCode(SummaryOf(errors, warnings))
    }
  }

  /** Section 1b: the SPY spot check, then every row of the table, each at level FAIL.
      `show` formats the value for the message. No check fails, so neither list grows. */
  method NormalizeChecks(audit: Audit, show: real -> string)
    modifies audit
    ensures audit.errors == old(audit.errors) && audit.warnings == old(audit.warnings)
  {
    KnownAnswers();
    var manual := Normalize(1.03, 0.5, 1.5).value;
    var _ := audit.Check("  normalize(1.03,0.5,1.5)==53.0", Abs(manual - 53.0) < Tolerance,
                         "got " + show(manual), "FAIL");
    for k := 0 to |Cases|
      invariant audit.errors == old(audit.errors) && audit.warnings == old(audit.warnings)
    {
      var c := Cases[k];
      var got := Normalize(c.v, c.lo, c.hi).value;
      var _ := audit.Check("  " + c.name, Abs(got - c.expected) < Tolerance, "got " + show(got), "FAIL");
    }
  }
}
