/** Decimal rendering and the identifiers built from it: task ids (`t7-write-index`) and rate-limit
    bucket names (`gemini/flash#2`). Both are only as good as their prefix or suffix being unambiguous. */
module Ids {

  function Digit(d: nat): char
    requires d < 10
  {
    "0123456789"[d]
  }

  function Decimal(n: nat): string {
    if n < 10 then [Digit(n)] else Decimal(n / 10) + [Digit(n % 10)]
  }

  function DigitValue(c: char): nat {
    if '0' <= c <= '9' then (c - '0') as nat else 0
  }

  function ParseDecimal(s: string): nat {
    if s == [] then 0 else 10 * ParseDecimal(s[..|s| - 1]) + DigitValue(s[|s| - 1])
  }

  lemma {:induction false} ParseDecimalInverse(n: nat)
    ensures ParseDecimal(Decimal(n)) == n
  {
    if n >= 10 {
      ParseDecimalInverse(n / 10);
      assert Decimal(n)[..|Decimal(n)| - 1] == Decimal(n / 10);
    }
  }

  lemma {:induction false} DecimalHasOnlyDigits(n: nat)
    ensures forall c :: c in Decimal(n) ==> '0' <= c <= '9'
  {
    if n >= 10 {
      DecimalHasOnlyDigits(n / 10);
    }
  }

  lemma DecimalInjective(m: nat, n: nat)
    requires Decimal(m) == Decimal(n)
    ensures m == n
  {
    ParseDecimalInverse(m);
    ParseDecimalInverse(n);
  }

  /** The part of a task id that does not depend on the objective's text. */
  function TaskIdPrefix(index: nat): string {
    "t" + Decimal(index) + "-"
  }

  function MakeTaskId(index: nat, slug: string): string {
    TaskIdPrefix(index) + slug
  }

  predicate IsTaskId(id: string, index: nat) {
    TaskIdPrefix(index) <= id
  }

  lemma MakeTaskIdHasIndex(index: nat, slug: string)
    ensures IsTaskId(MakeTaskId(index, slug), index)
  {
  }

  lemma SeparatorPosition(id: string, index: nat)
    requires IsTaskId(id, index)
    ensures var n := |Decimal(index)|;
      && n + 1 < |id| && id[n + 1] == '-' && id[1..n + 1] == Decimal(index)
      && forall k :: 1 <= k <= n ==> id[k] != '-'
  {
    DecimalHasOnlyDigits(index);
    var n, p := |Decimal(index)|, TaskIdPrefix(index);
    assert p <= id && p[n + 1] == '-';
    forall k | 1 <= k <= n ensures id[k] != '-' {
      assert p[k] == Decimal(index)[k - 1];
      assert id[k] == p[k];
      assert Decimal(index)[k - 1] in Decimal(index);
    }
  }

  /** An id determines the index it was made from, whatever the slugs say: the index cannot contain
      the `-` that ends it. */
  lemma TaskIdIndexUnique(id: string, i: nat, j: nat)
    requires IsTaskId(id, i) && IsTaskId(id, j)
    ensures i == j
  {
    SeparatorPosition(id, i);
    SeparatorPosition(id, j);
    DecimalInjective(i, j);
  }

  function BucketName(model: string, keyIndex: nat): string {
    model + "#" + Decimal(keyIndex)
  }

  lemma HashPosition(model: string, keyIndex: nat)
    ensures var b := BucketName(model, keyIndex);
      && |b| == |model| + 1 + |Decimal(keyIndex)| && b[|model|] == '#'
      && b[..|model|] == model && b[|model| + 1..] == Decimal(keyIndex)
      && forall k :: |model| < k < |b| ==> b[k] != '#'
  {
    DecimalHasOnlyDigits(keyIndex);
    var b := BucketName(model, keyIndex);
    forall k | |model| < k < |b| ensures b[k] != '#' {
      assert b[k] == Decimal(keyIndex)[k - |model| - 1];
    }
  }

  /** Distinct (model, key) pairs never share a bucket, even if a model name itself contains `#`. */
  lemma BucketNameInjective(m1: string, k1: nat, m2: string, k2: nat)
    requires BucketName(m1, k1) == BucketName(m2, k2)
    ensures m1 == m2 && k1 == k2
  {
    HashPosition(m1, k1);
    HashPosition(m2, k2);
    DecimalInjective(k1, k2);
  }
}
