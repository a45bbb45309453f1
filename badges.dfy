/** `components/ProductBadges.js`: which badges a product earns, in which
    order, and how many are shown. Texts, icons and colours are presentation
    and are not part of this model. */
module Badges {
  import opened Options
  import opened Sequences
  import Catalog

  datatype BadgeKind = Agotado | Oferta | Descuento | MasVendido | DelaCasa | Recomendado | Rating

  /** The `priority` of each badge: lower comes first. */
  function Priority(k: BadgeKind): int {
    match k
    case Agotado => 1
    case Oferta => 2
    case Descuento => 3
    case MasVendido => 4
    case DelaCasa => 5
    case Recomendado => 6
    case Rating => 7
  }

  /** The default `maxBadges`. */
  const DefaultMaxBadges := 3

  /** When `p` earns badge `k`: out of stock earns only `Agotado`; every other
      badge needs its flag and stock. */
  predicate Earns(p: Catalog.Product, k: BadgeKind) {
    match k
    case Agotado => p.agotado
    case Oferta => p.enOferta && !p.agotado
    case Descuento => p.descuento > 0.0 && !p.agotado
    case MasVendido => p.masVendido && !p.agotado
    case DelaCasa => p.delaCasa && !p.agotado
    case Recomendado => p.recomendado && !p.agotado
    case Rating => p.rating >= 4 && !p.agotado
  }

  /** The comparator `(a, b) => a.priority - b.priority`, as a "not after" test. */
  function ByPriority(): (BadgeKind, BadgeKind) -> bool {
    (a: BadgeKind, b: BadgeKind) => Priority(a) <= Priority(b)
  }

  lemma ByPriorityIsTotalPreorder()
    ensures TotalPreorder(ByPriority())
  {
  }

  /** Priorities strictly rise along `badges`. */
  predicate Ascending(badges: seq<BadgeKind>) {
    forall i, j :: 0 <= i < j < |badges| ==> Priority(badges[i]) < Priority(badges[j])
  }

  /** After the pushes up to priority `level`: exactly the earned badges of
      that priority or less, in ascending priority. */
  ghost predicate PushedUpTo(p: Catalog.Product, badges: seq<BadgeKind>, level: int) {
    && (forall k :: k in badges <==> Earns(p, k) && Priority(k) <= level)
    && Ascending(badges)
  }

  /** One guarded push extends the pushes below `k`'s priority to `k`'s. */
  lemma PushStep(p: Catalog.Product, badges: seq<BadgeKind>, k: BadgeKind)
    requires PushedUpTo(p, badges, Priority(k) - 1)
    ensures PushedUpTo(p, if Earns(p, k) then badges + [k] else badges, Priority(k))
  {
    if Earns(p, k) {
      var b := badges + [k];
      forall i | 0 <= i < |badges| ensures Priority(b[i]) < Priority(k) {
        assert b[i] == badges[i] && badges[i] in badges;
      }
    }
  }

  /** Before any push nothing is collected; after the last one every earned
      badge is. */
  lemma PushedBounds(p: Catalog.Product, badges: seq<BadgeKind>)
    ensures PushedUpTo(p, [], 0)
    ensures PushedUpTo(p, badges, 7) ==> forall k :: k in badges <==> Earns(p, k)
  {
    forall k ensures 1 <= Priority(k) <= 7 {
    }
  }

  /** Every badge, in ascending priority. */
  const AllBadges: seq<BadgeKind> := [Agotado, Oferta, Descuento, MasVendido, DelaCasa, Recomendado, Rating]

  /** The earned badges in ascending priority: what the sort leaves before the
      slice, defined independently of the pushes. */
  function EarnedInOrder(p: Catalog.Product): (r: seq<BadgeKind>)
    ensures forall k :: k in r <==> Earns(p, k)
    ensures Ascending(r)
  {
    var r := Filter(AllBadges, (k: BadgeKind) => Earns(p, k));
    AllBadgesComplete();
    SubsequenceAscending(r, AllBadges);
    r
  }

  /** Every badge is in the list, once, in ascending priority. */
  lemma AllBadgesComplete()
    ensures forall k :: k in AllBadges
    ensures Ascending(AllBadges)
  {
    forall k ensures k in AllBadges {
      match k
      case Agotado => assert AllBadges[0] == k;
      case Oferta => assert AllBadges[1] == k;
      case Descuento => assert AllBadges[2] == k;
      case MasVendido => assert AllBadges[3] == k;
      case DelaCasa => assert AllBadges[4] == k;
      case Recomendado => assert AllBadges[5] == k;
      case Rating => assert AllBadges[6] == k;
    }
  }

  /** A subsequence of an ascending list is ascending. */
  lemma {:induction false} SubsequenceAscending(r: seq<BadgeKind>, s: seq<BadgeKind>)
    requires IsSubsequence(r, s) && Ascending(s)
    ensures Ascending(r)
    decreases |s|
  {
    if r != [] {
      assert Ascending(s[1..]) by {
        forall i, j | 0 <= i < j < |s[1..]| ensures Priority(s[1..][i]) < Priority(s[1..][j]) {
          assert s[1..][i] == s[i + 1] && s[1..][j] == s[j + 1];
        }
      }
      if r[0] == s[0] && IsSubsequence(r[1..], s[1..]) {
        SubsequenceAscending(r[1..], s[1..]);
        SubsequenceElements(r[1..], s[1..]);
        forall i, j | 0 <= i < j < |r| ensures Priority(r[i]) < Priority(r[j]) {
          assert r[j] == r[1..][j - 1] && r[j] in s[1..];
          var m :| 0 <= m < |s[1..]| && s[1..][m] == r[j];
          assert r[j] == s[m + 1];
          if i > 0 {
            assert r[i] == r[1..][i - 1];
          }
        }
      } else {
        SubsequenceAscending(r, s[1..]);
      }
    }
  }

  /** The head of an ascending list comes before everything after it. */
  lemma AscendingTail(a: seq<BadgeKind>)
    requires Ascending(a) && a != []
    ensures Ascending(a[1..])
    ensures forall k :: k in a[1..] ==> Priority(a[0]) < Priority(k)
    ensures forall k :: k in a <==> k == a[0] || k in a[1..]
  {
    forall i, j | 0 <= i < j < |a[1..]| ensures Priority(a[1..][i]) < Priority(a[1..][j]) {
      assert a[1..][i] == a[i + 1] && a[1..][j] == a[j + 1];
    }
    forall k | k in a[1..] ensures Priority(a[0]) < Priority(k) {
      var i :| 0 <= i < |a[1..]| && a[1..][i] == k;
      assert a[i + 1] == k;
    }
    assert a == [a[0]] + a[1..];
  }

  /** Two ascending lists with the same badges are the same list. */
  lemma {:induction false} AscendingUnique(a: seq<BadgeKind>, b: seq<BadgeKind>)
    requires Ascending(a) && Ascending(b)
    requires forall k :: k in a <==> k in b
    ensures a == b
    decreases |a|
  {
    if a == [] {
      AscendingDistinct(b);
      DistinctSetSize(b);
      assert (set k | k in b) == {};
    } else {
      assert a[0] in b;
      AscendingTail(a);
      AscendingTail(b);
      assert a[0] == b[0] by {
        assert a[0] in b && b[0] in a;
      }
      assert forall k :: k in a[1..] <==> k in b[1..];
      AscendingUnique(a[1..], b[1..]);
    }
  }

  /** The earned badges have one ascending order. */
  lemma EarnedInOrderUnique(p: Catalog.Product, badges: seq<BadgeKind>)
    requires forall k :: k in badges <==> Earns(p, k)
    requires Ascending(badges)
    ensures badges == EarnedInOrder(p)
  {
    AscendingUnique(badges, EarnedInOrder(p));
  }

  /** Sorting the earned badges by priority leaves them as they are. */
  lemma SortingKeepsEarnedOrder(p: Catalog.Product, badges: seq<BadgeKind>, sorted: seq<BadgeKind>)
    requires badges == EarnedInOrder(p)
    requires multiset(sorted) == multiset(badges) && SortedBy(sorted, ByPriority())
    ensures sorted == badges
  {
    AscendingDistinct(badges);
    SortedEarnedAscending(p, badges, sorted);
    AscendingUnique(sorted, badges);
  }

  /** Ascending priorities leave no repetitions. */
  lemma AscendingDistinct(badges: seq<BadgeKind>)
    requires Ascending(badges)
    ensures Distinct(badges)
  {
  }

  /** The guarded `push` calls, in the order the component makes them. */
  method CollectBadges(p: Catalog.Product) returns (badges: seq<BadgeKind>)
    ensures forall k :: k in badges <==> Earns(p, k)
    ensures Ascending(badges) && Distinct(badges)
  {
    badges := [];
    PushedBounds(p, badges);
    PushStep(p, badges, Agotado);
    if p.agotado {
      badges := badges + [Agotado];
    }
    PushStep(p, badges, Oferta);
    if p.enOferta && !p.agotado {
      badges := badges + [Oferta];
    }
    PushStep(p, badges, Descuento);
    if p.descuento > 0.0 && !p.agotado {
      badges := badges + [Descuento];
    }
    PushStep(p, badges, MasVendido);
    if p.masVendido && !p.agotado {
      badges := badges + [MasVendido];
    }
    PushStep(p, badges, DelaCasa);
    if p.delaCasa && !p.agotado {
      badges := badges + [DelaCasa];
    }
    PushStep(p, badges, Recomendado);
    if p.recomendado && !p.agotado {
      badges := badges + [Recomendado];
    }
    PushStep(p, badges, Rating);
    if p.rating >= 4 && !p.agotado {
      badges := badges + [Rating];
    }
    PushedBounds(p, badges);
    AscendingDistinct(badges);
  }

  /** The component's badge list: `None` for a missing product or when no
      badge is left to show; otherwise earned badges only, in ascending
      priority, all of them when `showAll`, else at most the first
      `maxBadges` (with `slice`'s rules for a negative bound). */
  method BuildBadges(product: Option<Catalog.Product>, showAll: bool, maxBadges: int) returns (r: Option<seq<BadgeKind>>)
    ensures product.None? ==> r.None?
    ensures r.Some? ==> product.Some? && |r.value| > 0 && Distinct(r.value)
    ensures r.Some? ==> forall k :: k in r.value ==> Earns(product.value, k)
    ensures r.Some? ==> forall i, j :: 0 <= i < j < |r.value| ==> Priority(r.value[i]) < Priority(r.value[j])
    ensures product.Some? && showAll ==>
              (r.None? <==> forall k :: !Earns(product.value, k)) &&
              (r.Some? ==> forall k :: Earns(product.value, k) ==> k in r.value)
    ensures product.Some? && !showAll && 0 <= maxBadges && r.Some? ==> |r.value| <= maxBadges
    ensures product.Some? && product.value.agotado && r.Some? ==> r.value == [Agotado]
    ensures product.Some? ==>
              var earned := EarnedInOrder(product.value);
              var n := SliceEnd(|earned|, if showAll then |earned| else maxBadges);
              r == if n == 0 then None else Some(earned[..n])
  {
    if product.None? {
      return None;
    }
    var badges := CollectBadges(product.value);
    EarnedInOrderUnique(product.value, badges);
    ByPriorityIsTotalPreorder();
    var sorted := SortBy(badges, ByPriority());
    SortByIsSorted(badges, ByPriority());
    SortingKeepsEarnedOrder(product.value, badges, sorted);
    var n := SliceEnd(|sorted|, if showAll then |badges| else maxBadges);
    r := if n == 0 then None else Some(sorted[..n]);
    ShownFacts(product.value, showAll, maxBadges, sorted, r);
  }

  /** The component's result for an ordered earned list: earned badges only,
      distinct, in ascending priority; with `showAll` all of them, or `None`
      exactly when none is earned; otherwise no more than `maxBadges`; and
      only `agotado` for a product out of stock. */
  lemma ShownFacts(p: Catalog.Product, showAll: bool, maxBadges: int, earned: seq<BadgeKind>,
                   r: Option<seq<BadgeKind>>)
    requires forall k :: k in earned <==> Earns(p, k)
    requires Ascending(earned)
    requires var n := SliceEnd(|earned|, if showAll then |earned| else maxBadges);
             r == if n == 0 then None else Some(earned[..n])
    ensures r.Some? ==> |r.value| > 0 && Distinct(r.value)
    ensures r.Some? ==> forall k :: k in r.value ==> Earns(p, k)
    ensures r.Some? ==> forall i, j :: 0 <= i < j < |r.value| ==> Priority(r.value[i]) < Priority(r.value[j])
    ensures showAll ==>
              (r.None? <==> forall k :: !Earns(p, k)) &&
              (r.Some? ==> forall k :: Earns(p, k) ==> k in r.value)
    ensures !showAll && 0 <= maxBadges && r.Some? ==> |r.value| <= maxBadges
    ensures p.agotado && r.Some? ==> r.value == [Agotado]
  {
    var n := SliceEnd(|earned|, if showAll then |earned| else maxBadges);
    if n == 0 {
      assert showAll ==> earned == [];
    } else {
      ShownPrefix(p, earned, n);
      assert earned[..n][0] in earned[..n];
    }
  }

  /** Sorting distinct earned badges by priority makes priorities strictly
      rise and keeps the same badges. */
  lemma SortedEarnedAscending(p: Catalog.Product, badges: seq<BadgeKind>, sorted: seq<BadgeKind>)
    requires forall k :: k in badges <==> Earns(p, k)
    requires Distinct(badges)
    requires multiset(sorted) == multiset(badges) && SortedBy(sorted, ByPriority())
    ensures Ascending(sorted)
    ensures forall k :: k in sorted <==> Earns(p, k)
  {
    DistinctIffSingleOccurrences(badges);
    DistinctIffSingleOccurrences(sorted);
    assert Distinct(sorted);
    forall k ensures k in sorted <==> k in badges {
      assert k in sorted <==> k in multiset(sorted);
      assert k in badges <==> k in multiset(badges);
    }
    forall i, j | 0 <= i < j < |sorted| ensures Priority(sorted[i]) < Priority(sorted[j]) {
      assert ByPriority()(sorted[i], sorted[j]);
      assert sorted[i] != sorted[j];
    }
  }

  /** What `slice(0, n)` of the ordered earned badges shows: earned badges
      without repetition in ascending priority, all of them when nothing is
      cut, and only `agotado` for a product out of stock. */
  lemma ShownPrefix(p: Catalog.Product, earned: seq<BadgeKind>, n: nat)
    requires forall k :: k in earned <==> Earns(p, k)
    requires Ascending(earned) && n <= |earned|
    ensures var shown := earned[..n];
              && Distinct(shown)
              && (forall k :: k in shown ==> Earns(p, k))
              && (forall i, j :: 0 <= i < j < |shown| ==> Priority(shown[i]) < Priority(shown[j]))
    ensures n == |earned| ==> forall k :: Earns(p, k) ==> k in earned[..n]
    ensures p.agotado && n > 0 ==> earned[..n] == [Agotado]
  {
    var shown := earned[..n];
    forall i, j | 0 <= i < j < |shown| ensures Priority(shown[i]) < Priority(shown[j]) {
      assert shown[i] == earned[i] && shown[j] == earned[j];
    }
    AscendingDistinct(shown);
    assert forall k :: k in shown ==> k in earned;
    if n == |earned| {
      assert shown == earned;
    }
    if p.agotado {
      OutOfStockOnlyAgotado(p, earned);
    }
  }

  /** Out of stock, the ordered earned badges are `[agotado]` alone. */
  lemma OutOfStockOnlyAgotado(p: Catalog.Product, earned: seq<BadgeKind>)
    requires forall k :: k in earned <==> Earns(p, k)
    requires Ascending(earned) && p.agotado
    ensures earned == [Agotado]
  {
    assert forall k :: k in earned <==> k in [Agotado];
    AscendingUnique(earned, [Agotado]);
  }
}
