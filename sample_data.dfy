/**
 * The sample catalogue the store of src/services/productService.tsx starts
 * with, and the store built from it.
 */
module SampleData {
  import opened Wrappers
  import opened ProductService

  /** An Unsplash image address: the photo's id and its requested width. */
  function Unsplash(photo: string, width: string): string
  {
    "https://images.unsplash.com/photo-" + photo + "?q=80&w=" + width + "&auto=format&fit=crop"
  }

  /** The six sample products the store starts with, all created at `now`. */
  function SampleProducts(now: int): seq<Product>
  {
    [ Product("1", "Vestido Floral Verão", "Vestido leve e florido perfeito para o verão.",
              25990, None,
              Unsplash("1612336307429-8a898d10e223", "1974"),
              Vestidos, true, true, now),
      Product("2", "Blusa de Seda", "Blusa elegante de seda para ocasiões especiais.",
              18990, None,
              Unsplash("1559563458-527698bf5295", "1770"),
              Blusas, false, true, now),
      Product("3", "Saia Midi Plissada", "Saia midi plissada em tecido leve e confortável.",
              17990, None,
              Unsplash("1583496661160-fb5886a0aaaa", "1964"),
              Saias, true, true, now),
      Product("4", "Calça de Alfaiataria", "Calça de alfaiataria de alta qualidade para um visual elegante.",
              22990, None,
              Unsplash("1506629082955-511b1aa562c8", "1974"),
              Calcas, false, true, now),
      Product("5", "Colar Dourado", "Colar dourado com pedras delicadas para complementar seu look.",
              8990, None,
              Unsplash("1599643478518-a784e5dc4c8f", "1887"),
              Acessorios, true, true, now),
      Product("6", "Vestido de Festa", "Vestido elegante para festas e eventos especiais.",
              35990, Some(29990),
              Unsplash("1566174053879-31528523f8ae", "1908"),
              Vestidos, true, true, now) ]
  }

  /** The sample products carry the ids "1" to "6", so no two share one. */
  lemma SampleIdsDistinct(now: int)
    ensures |SampleProducts(now)| == 6
    ensures UniqueProductIds(SampleProducts(now))
  {
    var ps := SampleProducts(now);
    assert forall k :: 0 <= k < |ps| ==> ps[k].id == [('1' as int + k) as char];
  }

  /** Every sample product has a positive price, the given timestamp and an absent or valid discount. */
  lemma SampleFieldsWellFormed(now: int)
    ensures forall k :: 0 <= k < |SampleProducts(now)| ==>
      SampleProducts(now)[k].price > 0 && SampleProducts(now)[k].createdAt == now &&
      DiscountWellFormed(SampleProducts(now)[k])
  {
  }

  /**
   * The sample products have distinct ids, positive prices and discounts that
   * are absent or valid, so the store's price rule and the admin form's agree
   * on them from the start.
   */
  lemma SampleProductsWellFormed(now: int)
    ensures |SampleProducts(now)| == 6
    ensures UniqueProductIds(SampleProducts(now))
    ensures forall p :: p in SampleProducts(now) ==>
      p.price > 0 && p.createdAt == now && DiscountWellFormed(p) &&
      EffectivePrice(p) == ValidDiscountPrice(p)
  {
    SampleIdsDistinct(now);
    SampleFieldsWellFormed(now);
    var ps := SampleProducts(now);
    forall p | p in ps
      ensures p.price > 0 && p.createdAt == now && DiscountWellFormed(p)
      ensures EffectivePrice(p) == ValidDiscountPrice(p)
    {
      var k :| 0 <= k < |ps| && ps[k] == p;
      EffectivePriceAgreesWithValidDiscount(p);
    }
  }

  /** The store as the program creates it: the sample products and an empty cart. */
  method InitialStore(now: int) returns (s: Store)
    ensures fresh(s) && s.Valid()
    ensures s.products == SampleProducts(now) && s.cart == []
    ensures UniqueProductIds(s.products)
  {
    s := new Store(SampleProducts(now));
    SampleProductsWellFormed(now);
  }
}
