/** An insertion-ordered set kept as a duplicate-free sequence: the JavaScript
    `Set`, whose iteration order is the order in which elements were first added
    and whose `add` of an element already present changes nothing. */
module OrderedSet {
  import Sequences


  /** No element occurs twice. */
  ghost predicate NoDup<T>(s: seq<T>) {
    forall i, j :: 0 <= i < j < |s| ==> s[i] != s[j]
  }

  /** Position of the first occurrence of `x` in `s`. */
  function FirstIndex<T(==)>(s: seq<T>, x: T): (k: nat)
    requires x in s
    ensures k < |s| && s[k] == x
    ensures forall j :: 0 <= j < k ==> s[j] != x
  {
    if s[0] == x then 0 else 1 + FirstIndex(s[1..], x)
  }

  /** The elements of `r` occur in the order of their first occurrence in `xs`. */
  ghost predicate FirstSeenOrder<T>(r: seq<T>, xs: seq<T>) {
    forall a, b :: 0 <= a < b < |r| && r[a] in xs && r[b] in xs ==>
      FirstIndex(xs, r[a]) < FirstIndex(xs, r[b])
  }

  /** `Set.prototype.add`: append `x` unless it is already present. */
  function Insert<T(==,!new)>(s: seq<T>, x: T): (r: seq<T>)
    ensures x in r
    ensures forall y :: y in r <==> y in s || y == x
    ensures NoDup(s) ==> NoDup(r)
    ensures x in s ==> r == s
    ensures x !in s ==> |r| == |s| + 1 && r[..|s|] == s
  {
    if x in s then s else s + [x]
  }

  /** The set obtained by adding the elements of `xs` in order to an empty set. */
  function FromSeq<T(==,!new)>(xs: seq<T>): (r: seq<T>)
  {
    if xs == [] then [] else Insert(FromSeq(xs[..|xs| - 1]), xs[|xs| - 1])
  }

  lemma FromSeqSnoc<T(!new)>(xs: seq<T>, x: T)
    ensures FromSeq(xs + [x]) == Insert(FromSeq(xs), x)
  {
    assert (xs + [x])[..|xs|] == xs;
  }

  /** What `FromSeq` produces: exactly the elements of `xs`, each once, in the
      order of their first occurrence in `xs`. */
  lemma FromSeqCharacterization<T(!new)>(xs: seq<T>)
    ensures NoDup(FromSeq(xs))
    ensures forall y :: y in FromSeq(xs) <==> y in xs
    ensures |FromSeq(xs)| <= |xs|
    ensures FirstSeenOrder(FromSeq(xs), xs)
  {
    FromSeqElements(xs);
    FromSeqOrder(xs);
  }

  lemma {:induction false} FromSeqElements<T(!new)>(xs: seq<T>)
    ensures NoDup(FromSeq(xs))
    ensures forall y :: y in FromSeq(xs) <==> y in xs
    ensures |FromSeq(xs)| <= |xs|
  {
    if xs != [] {
      var init := xs[..|xs| - 1];
      Sequences.SplitLast(xs);
      FromSeqElements(init);
    }
  }

  lemma {:induction false} FromSeqOrder<T(!new)>(xs: seq<T>)
    ensures FirstSeenOrder(FromSeq(xs), xs)
  {
    if xs != [] {
      var init, x := xs[..|xs| - 1], xs[|xs| - 1];
      Sequences.SplitLast(xs);
      FromSeqElements(init);
      FromSeqOrder(init);
      FromSeqSnoc(init, x);
      InsertKeepsOrder(init, FromSeq(init), x);
    }
  }

  /** Adding one more element to a set in first-seen order keeps that order. */
  lemma InsertKeepsOrder<T(!new)>(init: seq<T>, s: seq<T>, x: T)
    requires forall y :: y in s <==> y in init
    requires FirstSeenOrder(s, init)
    ensures FirstSeenOrder(Insert(s, x), init + [x])
  {
    var xs, r := init + [x], Insert(s, x);
    forall a, b | 0 <= a < b < |r| && r[a] in xs && r[b] in xs
      ensures FirstIndex(xs, r[a]) < FirstIndex(xs, r[b])
    {
      assert r[a] == s[a];
      FirstIndexPrefix(init, [x], r[a]);
      if b < |s| {
        assert r[b] == s[b];
        FirstIndexPrefix(init, [x], r[b]);
      } else {
        assert r[b] == x && x !in init;
        FirstIndexAfter(init, x);
      }
    }
  }

  lemma FirstIndexAfter<T>(init: seq<T>, x: T)
    requires x !in init
    ensures x in init + [x] && FirstIndex(init + [x], x) == |init|
  {
    var k := FirstIndex(init + [x], x);
    assert (init + [x])[k] == x;
  }

  lemma {:induction false} FirstIndexPrefix<T>(s: seq<T>, t: seq<T>, y: T)
    requires y in s
    ensures y in s + t && FirstIndex(s + t, y) == FirstIndex(s, y)
  {
    if s[0] != y {
      assert (s + t)[1..] == s[1..] + t;
      FirstIndexPrefix(s[1..], t, y);
    }
  }
}
