/** The bit operations on unsigned integers that cJSON.c uses, and what they come to in its expressions. */
module Bits {
  function Shl(a: nat, k: nat): nat {
    if k == 0 then a else 2 * Shl(a, k - 1)
  }

  function Shr(a: nat, k: nat): nat {
    if k == 0 then a else Shr(a / 2, k - 1)
  }

  function And(a: nat, b: nat): nat {
    if a == 0 || b == 0 then 0 else 2 * And(a / 2, b / 2) + if a % 2 == 1 && b % 2 == 1 then 1 else 0
  }

  function Or(a: nat, b: nat): nat {
    if a == 0 then b
    else if b == 0 then a
    else 2 * Or(a / 2, b / 2) + if a % 2 == 1 || b % 2 == 1 then 1 else 0
  }

  lemma AndStep(a: nat, b: nat)
    ensures And(a, b) == 2 * And(a / 2, b / 2) + if a % 2 == 1 && b % 2 == 1 then 1 else 0
  {
  }

  lemma OrStep(a: nat, b: nat)
    ensures Or(a, b) == 2 * Or(a / 2, b / 2) + if a % 2 == 1 || b % 2 == 1 then 1 else 0
  {
  }

  lemma ShlStep(a: nat, k: nat)
    ensures Shl(a, k) == if k == 0 then a else 2 * Shl(a, k - 1)
  {
  }

  lemma Nothing(a: nat)
    ensures And(a, 0) == 0 && And(0, a) == 0 && Or(a, 0) == a && Or(0, a) == a
  {
  }

  /** The high and the low bits of two words are treated alone. */
  lemma {:induction false} SplitAnd(h: nat, l: nat, g: nat, m: nat, k: nat)
    requires l < Shl(1, k) && m < Shl(1, k)
    ensures And(Shl(h, k) + l, Shl(g, k) + m) == Shl(And(h, g), k) + And(l, m)
  {
    hide And, Shl;
    ShlStep(1, k);
    ShlStep(h, k);
    ShlStep(g, k);
    ShlStep(And(h, g), k);
    if k == 0 {
      Nothing(0);
    } else {
      SplitAnd(h, l / 2, g, m / 2, k - 1);
      AndStep(Shl(h, k) + l, Shl(g, k) + m);
      AndStep(l, m);
    }
  }

  lemma {:induction false} SplitOr(h: nat, l: nat, g: nat, m: nat, k: nat)
    requires l < Shl(1, k) && m < Shl(1, k)
    ensures Or(Shl(h, k) + l, Shl(g, k) + m) == Shl(Or(h, g), k) + Or(l, m)
  {
    hide Or, Shl;
    ShlStep(1, k);
    ShlStep(h, k);
    ShlStep(g, k);
    ShlStep(Or(h, g), k);
    if k == 0 {
      Nothing(0);
    } else {
      SplitOr(h, l / 2, g, m / 2, k - 1);
      OrStep(Shl(h, k) + l, Shl(g, k) + m);
      OrStep(l, m);
    }
  }

  /** A mask of k ones keeps the k low bits. */
  lemma {:induction false} Ones(l: nat, k: nat)
    requires l < Shl(1, k)
    ensures And(l, Shl(1, k) - 1) == l
  {
    hide And;
    if k == 0 {
      Nothing(0);
    } else {
      Ones(l / 2, k - 1);
      AndStep(l, Shl(1, k) - 1);
    }
  }

  lemma {:induction false} Absorbed(a: nat, b: nat)
    ensures And(Or(a, b), b) == b
    decreases b
  {
    hide And, Or;
    if b == 0 {
      Nothing(Or(a, b));
    } else {
      Absorbed(a / 2, b / 2);
      OrStep(a, b);
      AndStep(Or(a, b), b);
    }
  }

  lemma Masked(h: nat, l: nat, k: nat)
    requires l < Shl(1, k)
    ensures And(Shl(h, k) + l, Shl(1, k) - 1) == l
  {
    hide And;
    ShiftedNothing(k);
    SplitAnd(h, l, 0, Shl(1, k) - 1, k);
    Ones(l, k);
    Nothing(h);
  }

  lemma {:induction false} ShiftedNothing(k: nat)
    ensures Shl(0, k) == 0
  {
    if k > 0 { ShiftedNothing(k - 1); }
  }

  /** Words without a common bit are added. */
  lemma OrIsSum(h: nat, l: nat, k: nat)
    requires l < Shl(1, k)
    ensures Or(l, Shl(h, k)) == Shl(h, k) + l && Or(Shl(h, k), l) == Shl(h, k) + l
  {
    hide Or;
    ShiftedNothing(k);
    SplitOr(0, l, h, 0, k);
    SplitOr(h, 0, 0, l, k);
    Nothing(h);
    Nothing(l);
  }

  lemma Shifts(a: nat)
    ensures Shl(a, 3) == 8 * a && Shl(a, 4) == 16 * a && Shl(a, 5) == 32 * a && Shl(a, 6) == 64 * a && Shl(a, 10) == 1024 * a
    ensures Shr(a, 6) == a / 64
  {
    assert Shl(a, 0) == a && Shl(a, 1) == 2 * a;
    assert Shl(a, 2) == 4 * a && Shl(a, 3) == 8 * a;
    assert Shl(a, 4) == 16 * a && Shl(a, 5) == 32 * a;
    assert Shl(a, 6) == 64 * a && Shl(a, 7) == 128 * a;
    assert Shl(a, 8) == 256 * a && Shl(a, 9) == 512 * a;
    var b, c, d, e, f, g := a / 2, a / 4, a / 8, a / 16, a / 32, a / 64;
    assert Shr(g, 0) == g && Shr(f, 1) == Shr(g, 0) && Shr(e, 2) == Shr(f, 1);
    assert Shr(d, 3) == Shr(e, 2) && Shr(c, 4) == Shr(d, 3);
    assert Shr(b, 5) == Shr(c, 4) && Shr(a, 6) == Shr(b, 5);
  }

  /** The bytes behind the first: the low six bits, marked. */
  lemma ContinuationBits(u: nat)
    ensures And(Or(u, 0x80), 0xBF) == 0x80 + u % 0x40
    ensures Shr(u, 6) == u / 0x40
  {
    hide And, Or, Shl, Shr;
    var h, l := u / 64, u % 64;
    Shifts(u);
    Shifts(h);
    Shifts(1);
    Shifts(2);
    Shifts(Or(h, 2));
    SplitOr(h, l, 2, 0, 6);
    Nothing(l);
    SplitAnd(Or(h, 2), l, 2, 63, 6);
    Absorbed(h, 2);
    Ones(l, 6);
  }

  /** The first byte: what is left, under the mark for the length. */
  lemma LeadingBits(u: nat)
    ensures Or(u, 0) == u
    ensures u < 0x20 ==> Or(u, 0xC0) == 0xC0 + u
    ensures u < 0x10 ==> Or(u, 0xE0) == 0xE0 + u
    ensures u < 0x08 ==> Or(u, 0xF0) == 0xF0 + u
  {
    hide Or, Shl, Shr;
    Nothing(u);
    Shifts(1);
    Shifts(6);
    Shifts(14);
    Shifts(30);
    if u < 0x20 { OrIsSum(6, u, 5); }
    if u < 0x10 { OrIsSum(14, u, 4); }
    if u < 0x08 { OrIsSum(30, u, 3); }
  }

  /** The code point of a surrogate pair. */
  lemma SurrogateBits(high: nat, low: nat)
    requires 0xD800 <= high <= 0xDBFF && 0xDC00 <= low <= 0xDFFF
    ensures 0x10000 + Or(Shl(And(high, 0x3FF), 10), And(low, 0x3FF)) == 0x10000 + (high - 0xD800) * 0x400 + (low - 0xDC00)
  {
    hide And, Or, Shl, Shr;
    Shifts(1);
    Shifts(54);
    Shifts(55);
    Shifts(high - 0xD800);
    Masked(54, high - 0xD800, 10);
    Masked(55, low - 0xDC00, 10);
    OrIsSum(high - 0xD800, low - 0xDC00, 10);
  }
}
