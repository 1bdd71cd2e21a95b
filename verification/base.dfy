/** Shared pieces of the Python runtime that the pipeline leans on: optional and
    fallible results, the exceptions the modelled code raises or catches, the
    decimal rendering of integers used to build identifiers, and the uuid4
    generator, modelled by the one property the pipeline relies on: it never
    hands out the same identifier twice. */
module Base {

  datatype Option<+T> = None | Some(value: T)

  datatype Result<+T, +E> = Success(value: T) | Failure(error: E)

  /** An embedding vector. Its numbers are never computed on, only carried. */
  type Vector = seq<real>

  /** The exceptions raised (and mostly caught) along the pipeline. */
  datatype Exc =
    | FileNotFoundError(fileId: string)
    | ValueError
    | IndexError
    | AttributeError
    | HttpException(status: int)
    | ServiceError(detail: string)

  function DigitChar(d: nat): (c: char)
    requires d < 10
    ensures '0' <= c <= '9'
  {
    (48 + d) as char
  }

  /** Python's str(n) for a non-negative integer. */
  function Decimal(n: nat): (s: string)
    ensures 1 <= |s|
    ensures |s| == 1 <==> n < 10
    ensures forall i :: 0 <= i < |s| ==> '0' <= s[i] <= '9'
    decreases n
  {
    if n < 10 then [DigitChar(n)] else Decimal(n / 10) + [DigitChar(n % 10)]
  }

  /** Distinct numbers render as distinct strings. */
  lemma {:induction false} DecimalInjective(a: nat, b: nat)
    requires Decimal(a) == Decimal(b)
    ensures a == b
    decreases a
  {
    var s := Decimal(a);
    if a < 10 || b < 10 {
      assert a < 10 && b < 10;
      assert s[0] == DigitChar(a) && s[0] == DigitChar(b);
    } else {
      assert s[..|s| - 1] == Decimal(a / 10) == Decimal(b / 10);
      assert s[|s| - 1] == DigitChar(a % 10) == DigitChar(b % 10);
      DecimalInjective(a / 10, b / 10);
    }
  }

  /** A common prefix followed by distinct numbers gives distinct strings. */
  lemma {:induction false} PrefixedDecimalInjective(prefix: string, a: nat, b: nat)
    requires prefix + Decimal(a) == prefix + Decimal(b)
    ensures a == b
  {
    assert (prefix + Decimal(a))[|prefix|..] == Decimal(a);
    assert (prefix + Decimal(b))[|prefix|..] == Decimal(b);
    DecimalInjective(a, b);
  }

  /** The uuid4 generator. Every identifier it has handed out is recorded in
      `drawn`; the identifiers are pairwise distinct. */
  class UuidSource {
    var drawn: seq<string>

    static function Token(n: nat): string {
      "uuid-" + Decimal(n)
    }

    ghost predicate Valid()
      reads this
    {
      forall i :: 0 <= i < |drawn| ==> drawn[i] == Token(i)
    }

    constructor ()
      ensures Valid() && drawn == []
    {
      drawn := [];
    }

    /** Every two identifiers drawn so far differ. */
    lemma {:induction false} Distinct()
      requires Valid()
      ensures forall i, j :: 0 <= i < j < |drawn| ==> drawn[i] != drawn[j]
    {
      forall i, j | 0 <= i < j < |drawn|
        ensures drawn[i] != drawn[j]
      {
        if drawn[i] == drawn[j] {
          PrefixedDecimalInjective("uuid-", i, j);
        }
      }
    }

    method Next() returns (u: string)
      requires Valid()
      modifies this
      ensures Valid()
      ensures drawn == old(drawn) + [u]
      ensures u !in old(drawn)
    {
      u := Token(|drawn|);
      forall i | 0 <= i < |drawn|
        ensures drawn[i] != u
      {
        if drawn[i] == u {
          PrefixedDecimalInjective("uuid-", i, |drawn|);
        }
      }
      drawn := drawn + [u];
    }
  }
}
