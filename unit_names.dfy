/** The names `FixedUnit{i}` the allocator mints, and the facts about them the
    allocator needs: distinct indices give distinct names, and a finite set of
    names cannot hold all of FixedUnit1 .. FixedUnit(k) when k exceeds its size. */
module UnitNames {
  import opened Values

  predicate IsDigit(c: char)
  {
    '0' <= c <= '9'
  }

  predicate AllDigits(s: string)
  {
    forall k :: 0 <= k < |s| ==> IsDigit(s[k])
  }

  function DigitChar(d: nat): char
    requires d < 10
  {
    ('0' as int + d) as char
  }

  function DigitValue(c: char): nat
    requires IsDigit(c)
  {
    c as int - '0' as int
  }

  /** The decimal numeral Python's f-string writes for `n`: no sign, no leading zeros. */
  function Decimal(n: nat): (r: string)
    ensures r != [] && AllDigits(r)
    ensures |r| > 1 ==> r[0] != '0'
    decreases n
  {
    if n < 10 then [DigitChar(n)] else Decimal(n / 10) + [DigitChar(n % 10)]
  }

  /** The number a string of digits denotes. */
  function DecimalValue(s: string): nat
    requires AllDigits(s)
    decreases |s|
  {
    if s == [] then 0 else DecimalValue(s[..|s| - 1]) * 10 + DigitValue(s[|s| - 1])
  }

  lemma {:induction false} DecimalRoundTrip(n: nat)
    ensures DecimalValue(Decimal(n)) == n
  {
    if n >= 10 {
      var s := Decimal(n);
      assert s[..|s| - 1] == Decimal(n / 10);
      DecimalRoundTrip(n / 10);
    }
  }

  const UnitPrefix := "FixedUnit"

  /** `f"FixedUnit{i}"`. */
  function FixedUnit(i: nat): string
  {
    UnitPrefix + Decimal(i)
  }

  /** Reads the index back out of a unit name; None for a name this program
      would not mint. */
  function UnitIndex(u: string): Option<nat>
  {
    if |u| > |UnitPrefix| && u[..|UnitPrefix|] == UnitPrefix && AllDigits(u[|UnitPrefix|..])
    then Some(DecimalValue(u[|UnitPrefix|..]))
    else None
  }

  lemma UnitIndexRoundTrip(i: nat)
    ensures UnitIndex(FixedUnit(i)) == Some(i)
  {
    var u := FixedUnit(i);
    assert u[..|UnitPrefix|] == UnitPrefix;
    assert u[|UnitPrefix|..] == Decimal(i);
    DecimalRoundTrip(i);
  }

  lemma FixedUnitInjective(i: nat, j: nat)
    ensures FixedUnit(i) == FixedUnit(j) ==> i == j
  {
    UnitIndexRoundTrip(i);
    UnitIndexRoundTrip(j);
  }

  /** { FixedUnit1, ..., FixedUnit(k) } */
  function UnitsUpTo(k: nat): set<string>
  {
    if k == 0 then {} else UnitsUpTo(k - 1) + {FixedUnit(k)}
  }

  /** FixedUnit(j) is among the first k names exactly when 1 <= j <= k. */
  lemma {:induction false} UnitsUpToMembers(k: nat)
    ensures forall j: nat :: FixedUnit(j) in UnitsUpTo(k) <==> 1 <= j <= k
  {
    if k > 0 {
      UnitsUpToMembers(k - 1);
      forall j: nat
        ensures FixedUnit(j) in UnitsUpTo(k) <==> 1 <= j <= k
      {
        FixedUnitInjective(j, k);
      }
    }
  }

  /** The first k names are k distinct strings. */
  lemma {:induction false} UnitsUpToSize(k: nat)
    ensures |UnitsUpTo(k)| == k
  {
    if k > 0 {
      UnitsUpToSize(k - 1);
      UnitsUpToMembers(k - 1);
      assert FixedUnit(k) !in UnitsUpTo(k - 1);
    }
  }

  /** The first k names are nothing but names FixedUnit(j) with 1 <= j <= k. */
  lemma {:induction false} UnitsUpToOnly(k: nat)
    ensures forall x :: x in UnitsUpTo(k) ==> exists j :: 1 <= j <= k && x == FixedUnit(j)
  {
    if k > 0 {
      UnitsUpToOnly(k - 1);
      forall x | x in UnitsUpTo(k)
        ensures exists j :: 1 <= j <= k && x == FixedUnit(j)
      {
        if x in UnitsUpTo(k - 1) {
          var j :| 1 <= j <= k - 1 && x == FixedUnit(j);
          assert 1 <= j <= k;
        } else {
          assert x == FixedUnit(k);
        }
      }
    }
  }

  /** Pigeonhole: if FixedUnit1 .. FixedUnit(k) are all in `used`, then `used`
      has at least k elements. This bounds the search for a free name. */
  lemma MintBound(used: set<string>, k: nat)
    requires forall j :: 1 <= j <= k ==> FixedUnit(j) in used
    ensures k <= |used|
  {
    UnitsUpToSize(k);
    UnitsUpToOnly(k);
    var minted := UnitsUpTo(k);
    assert minted <= used by {
      forall x | x in minted
        ensures x in used
      {
        var j :| 1 <= j <= k && x == FixedUnit(j);
      }
    }
    assert used == minted + (used - minted);
    assert |used| == |minted| + |used - minted|;
  }
}
