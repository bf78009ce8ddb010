/**
 * The two lookups of the animation helpers: the entrance animation of the
 * `index`-th element for a screen width, picked with JavaScript's `%` from
 * a band of the eight variants that grows with the width, and the hover
 * animation of an element kind, which falls back to the card's.
 */
module Animation {
  import opened Wrappers

  const Variants: seq<string> := ["slideUp", "slideLeft", "slideRight", "scale", "rotate", "flip", "bounce", "elastic"]

  /** JavaScript's `a % b` for `b > 0`: the remainder takes the sign of `a`. */
  function JsRem(a: int, b: int): (r: int)
    requires b > 0
    ensures a >= 0 ==> r == a % b
    ensures a < 0 ==> -b < r <= 0
  {
    if a >= 0 then a % b else -((-a) % b)
  }

  /** How many variants a screen width may use. */
  function BandSize(screenWidth: int): (n: nat)
    ensures n in {4, 6, 8} && n <= |Variants|
  {
    if screenWidth < 640 then 4 else if screenWidth < 1024 then 6 else |Variants|
  }

  /** `getEntranceVariant(index, screenWidth)`; `None` is `undefined`, read
      at a negative position. A negative multiple of the band reads
      position `-0`, which is position 0. */
  function GetEntranceVariant(index: int, screenWidth: int): Option<string> {
    var r := JsRem(index, BandSize(screenWidth));
    if r >= 0 then Some(Variants[r]) else None
  }

  /** For a non-negative index the variant is one of the first `BandSize`
      ones: 4 on a phone, 6 on a tablet, all 8 on a desktop. */
  lemma EntranceVariantInBand(index: int, screenWidth: int)
    requires index >= 0
    ensures GetEntranceVariant(index, screenWidth) == Some(Variants[index % BandSize(screenWidth)])
    ensures GetEntranceVariant(index, screenWidth).value in Variants[..BandSize(screenWidth)]
    ensures screenWidth < 640 ==> GetEntranceVariant(index, screenWidth) == Some(Variants[index % 4])
    ensures 640 <= screenWidth < 1024 ==> GetEntranceVariant(index, screenWidth) == Some(Variants[index % 6])
    ensures 1024 <= screenWidth ==> GetEntranceVariant(index, screenWidth) == Some(Variants[index % 8])
  {
  }

  /** Within a width band the variants repeat with the band's size. */
  lemma EntranceVariantPeriodic(index: int, screenWidth: int)
    requires index >= 0
    ensures GetEntranceVariant(index + BandSize(screenWidth), screenWidth) == GetEntranceVariant(index, screenWidth)
  {
    var n := BandSize(screenWidth);
    if n == 4 {
      assert (index + 4) % 4 == index % 4;
    } else if n == 6 {
      assert (index + 6) % 6 == index % 6;
    } else {
      assert (index + 8) % 8 == index % 8;
    }
  }

  /** For a negative dividend, JavaScript's remainder is zero exactly when
      the Euclidean one is: both say the dividend is a multiple of `n`. */
  lemma NegativeRemZero(a: int, n: int)
    requires a < 0 && n in {4, 6, 8}
    ensures JsRem(a, n) == 0 <==> a % n == 0
  {
    var r, s := (-a) % n, a % n;
    if n == 4 {
      RemainderPair(-a, a, (-a) / 4, r, a / 4, s, 4);
    } else if n == 6 {
      RemainderPair(-a, a, (-a) / 6, r, a / 6, s, 6);
    } else {
      RemainderPair(-a, a, (-a) / 8, r, a / 8, s, 8);
    }
  }

  /** Two remainders of opposite numbers: one is zero exactly when the other
      is, since they add up to a multiple of `m`. */
  lemma RemainderPair(b: int, a: int, q: int, r: int, k: int, s: int, m: int)
    requires b == -a && b == m * q + r && a == m * k + s
    requires 0 < m && 0 <= r < m && 0 <= s < m
    ensures r == 0 <==> s == 0
  {
    var t := q + k;
    assert r + s == -(m * t) by {
      assert m * q + m * k == m * t;
    }
    ScaledBounds(m, t);
  }

  lemma ScaledBounds(m: int, t: int)
    requires 0 < m
    ensures t > 0 ==> m * t >= m
    ensures t < -1 ==> m * t <= -2 * m
  {
    if t > 0 {
      assert m * t == m * (t - 1) + m;
    } else if t < -1 {
      assert m * t == m * (t + 2) - 2 * m;
    }
  }

  /** A negative index gives a variant exactly when it is a multiple of the
      band's size, and then the first one. */
  lemma NegativeIndex(index: int, screenWidth: int)
    requires index < 0
    ensures GetEntranceVariant(index, screenWidth).Some? <==> index % BandSize(screenWidth) == 0
    ensures GetEntranceVariant(index, screenWidth).Some? ==> GetEntranceVariant(index, screenWidth).value == "slideUp"
  {
    NegativeRemZero(index, BandSize(screenWidth));
  }

  datatype Tier = BaseTier | EnhancedTier

  const HoverKinds := {"card", "button", "icon", "text"}

  /** The entry `getHoverVariant` returns, as the tier and the key read:
      `variants[element] || variants.card`. */
  function GetHoverVariant(element: string, isHighPerformance: bool): (r: (Tier, string))
    ensures r.0 == (if isHighPerformance then EnhancedTier else BaseTier)
    ensures r.1 in HoverKinds
    ensures element in HoverKinds ==> r.1 == element
    ensures element !in HoverKinds ==> r.1 == "card"
  {
    var tier := if isHighPerformance then EnhancedTier else BaseTier;
    if element in HoverKinds then (tier, element) else (tier, "card")
  }
}
