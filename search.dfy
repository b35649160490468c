/**
 * The case-insensitive product search that the catalogue page
 * (src/pages/Products.tsx) and the admin table (src/pages/Admin.tsx) both
 * apply: a product matches when its lowercased name, description or category
 * contains the lowercased term.
 *
 * Lowercasing is ASCII only: A-Z become a-z and every other character is kept.
 */
module Search {
  import opened ProductService

  function LowerChar(c: char): char
  {
    if 'A' <= c <= 'Z' then (c as int + 32) as char else c
  }

  /** `toLowerCase()`, restricted to ASCII letters. */
  function Lower(s: string): string
  {
    seq(|s|, i requires 0 <= i < |s| => LowerChar(s[i]))
  }

  /** Lowercasing keeps the length, leaves no upper-case ASCII letter and is idempotent. */
  lemma LowerProperties(s: string)
    ensures |Lower(s)| == |s|
    ensures forall i :: 0 <= i < |s| ==> !('A' <= Lower(s)[i] <= 'Z')
    ensures forall i :: 0 <= i < |s| && !('A' <= s[i] <= 'Z') ==> Lower(s)[i] == s[i]
    ensures Lower(Lower(s)) == Lower(s)
  {
  }

  /** `t` occurs in `s` at index `i`. */
  predicate OccursAt(s: string, t: string, i: int)
  {
    0 <= i && i + |t| <= |s| && s[i..i + |t|] == t
  }

  /** `s.includes(t)`: try each start position from left to right. */
  predicate Includes(s: string, t: string)
    decreases |s|
  {
    (|t| <= |s| && s[..|t|] == t) || (s != [] && Includes(s[1..], t))
  }

  /** Includes is exactly "occurs at some index". */
  lemma {:induction false} IncludesIff(s: string, t: string)
    ensures Includes(s, t) <==> exists i :: OccursAt(s, t, i)
    decreases |s|
  {
    if |t| <= |s| && s[..|t|] == t {
      assert OccursAt(s, t, 0);
    } else if s == [] {
      assert forall i :: !OccursAt(s, t, i);
    } else {
      IncludesIff(s[1..], t);
      if Includes(s[1..], t) {
        var i :| OccursAt(s[1..], t, i);
        assert s[1..][i..i + |t|] == s[i + 1..i + 1 + |t|];
        assert OccursAt(s, t, i + 1);
      } else {
        forall i | 0 < i && OccursAt(s, t, i) ensures OccursAt(s[1..], t, i - 1) {
          assert s[1..][i - 1..i - 1 + |t|] == s[i..i + |t|];
        }
      }
    }
  }

  /** The filter predicate of both pages. */
  predicate MatchesSearch(p: Product, term: string)
  {
    var t := Lower(term);
    Includes(Lower(p.name), t) || Includes(Lower(p.description), t) ||
    Includes(Lower(CategoryName(p.category)), t)
  }

  /** The products that match the term, in their original order. */
  function SearchFilter(ps: seq<Product>, term: string): (r: seq<Product>)
    ensures forall p :: p in r <==> p in ps && MatchesSearch(p, term)
    ensures multiset(r) <= multiset(ps)
  {
    if ps == [] then []
    else
      assert ps == [ps[0]] + ps[1..];
      (if MatchesSearch(ps[0], term) then [ps[0]] else []) + SearchFilter(ps[1..], term)
  }

  /** The search filter keeps relative order: it distributes over concatenation. */
  lemma {:induction false} SearchFilterAppend(a: seq<Product>, b: seq<Product>, term: string)
    ensures SearchFilter(a + b, term) == SearchFilter(a, term) + SearchFilter(b, term)
  {
    if a == [] {
      assert a + b == b;
    } else {
      var head := if MatchesSearch(a[0], term) then [a[0]] else [];
      TailOfAppend(a, b);
      SearchFilterAppend(a[1..], b, term);
      ConsAppend(head, SearchFilter(a[1..], term), SearchFilter(b, term),
                 SearchFilter(a, term), SearchFilter(a + b, term));
    }
  }

  /** Every product matches the empty term, so filtering by it changes nothing. */
  lemma {:induction false} SearchFilterEmptyTerm(ps: seq<Product>)
    ensures SearchFilter(ps, "") == ps
  {
    if ps != [] {
      assert Lower("") == "";
      assert MatchesSearch(ps[0], "");
      SearchFilterEmptyTerm(ps[1..]);
      assert ps == [ps[0]] + ps[1..];
    }
  }

  /** The search ignores the case of the term. */
  lemma {:induction false} SearchFilterIgnoresTermCase(ps: seq<Product>, term: string)
    ensures SearchFilter(ps, Lower(term)) == SearchFilter(ps, term)
  {
    LowerProperties(term);
    if ps != [] {
      assert MatchesSearch(ps[0], Lower(term)) == MatchesSearch(ps[0], term);
      SearchFilterIgnoresTermCase(ps[1..], term);
    }
  }
}
