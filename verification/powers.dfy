/** Exact scaling by powers of two with integer (possibly negative)
    exponents. Every use in the note model multiplies a quantity by 2^k
    (`f * 2 ** k` in the source), so the operation is x * 2^k rather than a
    bare power: that keeps all reasoning linear in x. */
module Powers {

  /** x * 2^k over the reals; negative exponents halve. */
  function TimesPow2(x: real, k: int): (r: real)
    ensures x > 0.0 ==> r > 0.0
    decreases if k < 0 then -k else k
  {
    if k == 0 then x
    else if k > 0 then 2.0 * TimesPow2(x, k - 1)
    else TimesPow2(x, k + 1) / 2.0
  }

  /** One more doubling, for every integer exponent. */
  lemma TimesPow2Succ(x: real, k: int)
    ensures TimesPow2(x, k + 1) == 2.0 * TimesPow2(x, k)
  {
    if k < -1 {
      assert TimesPow2(x, k) == TimesPow2(x, k + 1) / 2.0;
    } else if k == -1 {
      assert TimesPow2(x, -1) == TimesPow2(x, 0) / 2.0;
    }
  }

  /** Doubling the operand is one more doubling of the exponent. */
  lemma {:induction false} TimesPow2Double(x: real, k: int)
    ensures TimesPow2(2.0 * x, k) == TimesPow2(x, k + 1)
    decreases if k < 0 then -k else k
  {
    if k > 0 {
      TimesPow2Double(x, k - 1);
    } else if k < 0 {
      TimesPow2Double(x, k + 1);
      TimesPow2Succ(x, k);
    }
  }

  /** Scaling twice adds the exponents. */
  lemma {:induction false} TimesPow2Add(x: real, a: int, b: int)
    ensures TimesPow2(TimesPow2(x, a), b) == TimesPow2(x, a + b)
    decreases if b < 0 then -b else b
  {
    if b > 0 {
      TimesPow2Add(x, a, b - 1);
      TimesPow2Succ(x, a + (b - 1));
    } else if b < 0 {
      TimesPow2Add(x, a, b + 1);
      TimesPow2Succ(x, a + b);
    }
  }

  /** Scaling by 2^k and then by 2^-k gives the operand back. */
  lemma TimesPow2Cancel(x: real, k: int)
    ensures TimesPow2(TimesPow2(x, k), -k) == x
  {
    TimesPow2Add(x, k, -k);
  }

  /** Scaling by a power of two keeps the sign and the order of operands. */
  lemma {:induction false} TimesPow2Order(x: real, y: real, k: int)
    ensures x < y <==> TimesPow2(x, k) < TimesPow2(y, k)
    ensures x == y <==> TimesPow2(x, k) == TimesPow2(y, k)
    decreases if k < 0 then -k else k
  {
    if k > 0 {
      TimesPow2Order(x, y, k - 1);
    } else if k < 0 {
      TimesPow2Order(x, y, k + 1);
    }
  }

  /** For a positive operand, a larger exponent gives a strictly larger
      result, and only then. */
  lemma {:induction false} TimesPow2Monotone(x: real, j: int, k: int)
    requires x > 0.0
    ensures TimesPow2(x, j) < TimesPow2(x, k) <==> j < k
    decreases if j < k then k - j else j - k
  {
    if j < k {
      TimesPow2Monotone(x, j, k - 1);
      TimesPow2Succ(x, k - 1);
    } else if k < j {
      TimesPow2Monotone(x, k, j - 1);
      TimesPow2Succ(x, j - 1);
    }
  }
}
