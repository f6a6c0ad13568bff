/** Floor divisions that are exact. */
module Exact {
  import Grid

  lemma Quotient(r: nat, b: nat)
    requires r > 0
    ensures (r * b) / r == b && (r * b) % r == 0
  {
    var q, m := (r * b) / r, (r * b) % r;
    Grid.Unique(b, 0, q, m, r);
  }

  /** A block of `l` bytes, `bs` tokens of `q` bytes each, re-cut at a smaller block size. */
  lemma RecutBlock(l: nat, bs: nat, rbs: nat, q: nat)
    requires bs > 0 && rbs > 0 && bs % rbs == 0 && l == bs * q
    ensures bs / rbs > 0 && l % (bs / rbs) == 0 && l / (bs / rbs) == rbs * q
  {
    var r := bs / rbs;
    assert bs == r * rbs;
    Regroup(r, rbs, q);
    Quotient(r, rbs * q);
  }

  lemma Regroup(a: nat, b: nat, c: nat)
    ensures (a * b) * c == a * (b * c)
  {}

  lemma Doubled(a: nat, h: nat)
    ensures a * (2 * h) == 2 * (a * h)
  {}

  /** Halving the block before or after re-cutting gives the same part. */
  lemma RecutHalf(l: nat, bs: nat, rbs: nat, q: nat)
    requires bs > 0 && rbs > 0 && bs % rbs == 0 && l == bs * q && q % 2 == 0
    ensures bs / rbs > 0 && l % 2 == 0
    ensures (l / (bs / rbs)) % 2 == 0
    ensures (l / 2) / (bs / rbs) == (l / (bs / rbs)) / 2
  {
    var h := q / 2;
    Doubled(bs, h);
    Doubled(rbs, h);
    RecutBlock(l, bs, rbs, q);
    RecutBlock(l / 2, bs, rbs, h);
  }

  lemma Scaled(l: nat, r: nat, tp: nat)
    requires r > 0 && l % r == 0
    ensures (l * tp) / r == (l / r) * tp
  {
    var q := l / r;
    assert l * tp == r * (q * tp);
    Quotient(r, q * tp);
  }

  lemma QuotientOf(l: nat, d: nat, q: nat, m: nat)
    requires m < d && l == q * d + m
    ensures l / d == q
  {
    Grid.Unique(q, m, l / d, l % d, d);
  }

  lemma Nested(l: nat, a: nat, b: nat, d: nat, x: nat, y: nat, q: nat, m: nat)
    requires d == a * b && l == x * a + y && x == q * b + m && y < a && m < b
    ensures d > 0 && l / d == q
  {
    Regather(q, b, m, a, d);
    Grid.Below(m, y, b, a);
    QuotientOf(l, d, q, m * a + y);
  }

  lemma Regather(q: nat, b: nat, m: nat, a: nat, d: nat)
    requires d == a * b
    ensures (q * b + m) * a == q * d + m * a
  {}

  /** Dividing twice is dividing by the product. */
  lemma Twice(l: nat, a: nat, b: nat, d: nat)
    requires a > 0 && b > 0 && d == a * b
    ensures d > 0 && (l / a) / b == l / d
  {
    Nested(l, a, b, d, l / a, l % a, (l / a) / b, (l / a) % b);
  }

  /** A part of n units. */
  lemma Units(unit: nat, n: nat, part: nat)
    requires n > 0 && part == unit * n
    ensures part == n * unit && part / n == unit
  {
    Quotient(n, unit);
  }

  lemma HalfOf(part: nat, whole: nat)
    requires whole == 2 * part
    ensures whole % 2 == 0 && whole / 2 == part
  {}

  lemma HalfUnits(unit: nat, half: nat, n: nat, part: nat)
    requires unit == 2 * half && part == unit * n
    ensures part % 2 == 0 && part / 2 == half * n
  {
    Regroup(2, half, n);
    HalfOf(half * n, part);
  }

  /** n blocks, each cut into `ratio` pieces of `piece` bytes, are no longer than before. */
  lemma RecutFits(n: nat, ratio: nat, l: nat, piece: nat)
    requires ratio > 0 && piece == l / ratio
    ensures (n * ratio) * piece <= n * l
  {
    var used := ratio * piece;
    Regroup(n, ratio, piece);
    assert used <= l;
    Grid.LaterRow(used, l, n);
  }
}
