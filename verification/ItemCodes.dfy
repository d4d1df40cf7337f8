/** Server-side allocation of the per-project item codes R-001, O-001, ... */
module ItemCodes {
  import opened Protocol
  import Decimal

  function Prefix(kind: Kind): char {
    if kind.Risk? then 'R' else 'O'
  }

  function Lower(kind: Kind): char {
    if kind.Risk? then 'r' else 'o'
  }

  /** The number of a code of this kind: prefix in either case, a dash, digits only. */
  function NumberOf(kind: Kind, code: string): Option<nat> {
    if |code| > 2 && (code[0] == Prefix(kind) || code[0] == Lower(kind)) && code[1] == '-'
       && Decimal.AllDigits(code[2..])
    then Some(Decimal.Value(code[2..]))
    else None
  }

  function NumberedCode(kind: Kind, n: nat): string {
    [Prefix(kind), '-'] + Decimal.Padded(n, 3)
  }

  function UsedNumbers(kind: Kind, held: set<string>): (used: set<nat>)
    ensures forall c :: c in held && NumberOf(kind, c).Some? ==> NumberOf(kind, c).value in used
  {
    set c | c in held && NumberOf(kind, c).Some? :: NumberOf(kind, c).value
  }

  /** The least number from `n` upwards that is not used. */
  function FirstFree(used: set<nat>, n: nat): (free: nat)
    ensures free >= n && free !in used
    ensures forall m :: n <= m < free ==> m in used
    decreases |set m | m in used && m >= n|
  {
    if n !in used then n
    else
      assert (set m | m in used && m >= n) == (set m | m in used && m >= n + 1) + {n};
      FirstFree(used, n + 1)
  }

  /** Keep an available requested code, or allocate the first free number. */
  function Canonical(kind: Kind, held: set<string>, requested: Option<string>): (code: Option<string>)
    ensures requested.None? || requested.value == "" ==> code.None?
    ensures requested.Some? && requested.value != "" && requested.value !in held ==> code == requested
    ensures code.Some? ==> code.value !in held
    ensures code.None? ==> requested.None? || requested.value == ""
  {
    if requested.None? || requested.value == "" then None
    else if requested.value !in held then requested
    else
      var n := FirstFree(UsedNumbers(kind, held), 1);
      NumberedCodeParses(kind, n);
      Some(NumberedCode(kind, n))
  }

  lemma NumberedCodeParses(kind: Kind, n: nat)
    ensures NumberOf(kind, NumberedCode(kind, n)) == Some(n)
  {
    Decimal.PrintedValue(n, 3);
    assert NumberedCode(kind, n)[2..] == Decimal.Padded(n, 3);
  }

  lemma {:induction false} RangeWithin(used: set<nat>, n: nat)
    requires forall m :: 1 <= m < n + 1 ==> m in used
    ensures n <= |used|
    decreases n
  {
    if n > 0 {
      assert n in used;
      RangeWithin(used - {n}, n - 1);
    }
  }

  /** The counting loop: it stops within |used| + 1 and skips no free number. */
  method NextNumber(used: set<nat>) returns (number: nat)
    ensures number == FirstFree(used, 1)
    ensures 1 <= number <= |used| + 1 && number !in used
    ensures forall m :: 1 <= m < number ==> m in used
  {
    number := 1;
    RangeWithin(used, 0);
    while number in used
      invariant 1 <= number <= |used| + 1
      invariant FirstFree(used, number) == FirstFree(used, 1)
      invariant forall m :: 1 <= m < number ==> m in used
      decreases |used| + 1 - number
    {
      RangeWithin(used, number);
      number := number + 1;
    }
  }
}
