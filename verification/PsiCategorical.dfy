/** PSI of a categorical feature: a sum over the set of observed categories
    (services/trainer/app/promote.py). */
module PsiCategorical {
  import opened PsiTerms

  function Count(vals: seq<string>, c: string): nat {
    if vals == [] then 0 else Count(vals[1..], c) + (if vals[0] == c then 1 else 0)
  }

  function CountIn(vals: seq<string>, cats: set<string>): nat {
    if vals == [] then 0 else CountIn(vals[1..], cats) + (if vals[0] in cats then 1 else 0)
  }

  function Categories(train: seq<string>, val: seq<string>): set<string> {
    (set c | c in train) + (set c | c in val)
  }

  function Share(vals: seq<string>, cats: set<string>, c: string): (p: real)
    requires cats != {}
    ensures 0.0 < p
  {
    Smooth(Count(vals, c), |vals|, |cats|)
  }

  // ---------------------------------------------------------------- sums over sets

  ghost function Sum(s: set<string>, f: string -> real): real {
    if s == {} then 0.0
    else
      var x :| x in s;
      f(x) + Sum(s - {x}, f)
  }

  /** Any element may be taken out first. */
  lemma {:induction false} SumTakesAny(s: set<string>, f: string -> real, x: string)
    requires x in s
    ensures Sum(s, f) == f(x) + Sum(s - {x}, f)
  {
    var y :| y in s && Sum(s, f) == f(y) + Sum(s - {y}, f);
    if x != y {
      SumTakesAny(s - {y}, f, x);
      SumTakesAny(s - {x}, f, y);
      assert s - {x} - {y} == s - {y} - {x};
    }
  }

  lemma {:induction false} SumCongruence(s: set<string>, f: string -> real, g: string -> real)
    requires forall x | x in s :: f(x) == g(x)
    ensures Sum(s, f) == Sum(s, g)
  {
    if s != {} {
      var x :| x in s;
      SumTakesAny(s, f, x);
      SumTakesAny(s, g, x);
      SumCongruence(s - {x}, f, g);
    }
  }

  lemma {:induction false} SumOfNonNegatives(s: set<string>, f: string -> real)
    requires forall x | x in s :: 0.0 <= f(x)
    ensures 0.0 <= Sum(s, f)
    ensures Sum(s, f) == 0.0 <==> forall x | x in s :: f(x) == 0.0
  {
    if s != {} {
      var x :| x in s;
      SumTakesAny(s, f, x);
      SumOfNonNegatives(s - {x}, f);
    }
  }

  // ---------------------------------------------------------------- the index

  ghost function Psi(ln: real -> real, train: seq<string>, val: seq<string>): real {
    if train == [] || val == [] then 0.0
    else
      var cats := Categories(train, val);
      assert train[0] in cats;
      Sum(cats, TermOf(ln, train, val, cats))
  }

  function TermOf(ln: real -> real, train: seq<string>, val: seq<string>, cats: set<string>): string -> real
    requires cats != {}
  {
    (c: string) => Term(ln, Share(train, cats, c), Share(val, cats, c))
  }

  /** The smoothed proportions of a sample, from the counts, the sample size and the number of categories. */
  function Proportions(vals: seq<string>, cats: set<string>): string -> real
    requires cats != {}
  {
    (c: string) => (multiset(vals)[c] as real + 0.5) / (|vals| as real + 0.5 * |cats| as real)
  }

  /** The terms of the relative entropy of one distribution against another. */
  function EntropyOf(ln: real -> real, p: string -> real, q: string -> real): string -> real {
    (c: string) => if 0.0 < p(c) && 0.0 < q(c) then p(c) * ln(p(c) / q(c)) else 0.0
  }

  lemma {:induction false} SumAdds(s: set<string>, f: string -> real, g: string -> real, h: string -> real)
    requires forall x | x in s :: h(x) == f(x) + g(x)
    ensures Sum(s, h) == Sum(s, f) + Sum(s, g)
  {
    if s != {} {
      var x :| x in s;
      SumTakesAny(s, f, x);
      SumTakesAny(s, g, x);
      SumTakesAny(s, h, x);
      SumAdds(s - {x}, f, g, h);
    }
  }

  lemma TermParts(ln: real -> real, p: string -> real, q: string -> real, c: string)
    requires IsLog(ln) && 0.0 < p(c) && 0.0 < q(c)
    ensures Term(ln, p(c), q(c)) == EntropyOf(ln, q, p)(c) + EntropyOf(ln, p, q)(c)
  {
    var x, y := p(c), q(c);
    TermIsBothEntropies(ln, x, y);
    assert EntropyOf(ln, q, p)(c) == y * ln(y / x);
    assert EntropyOf(ln, p, q)(c) == x * ln(x / y);
  }

  lemma SumOfTerms(s: set<string>, ln: real -> real, p: string -> real, q: string -> real, h: string -> real)
    requires IsLog(ln) && forall c | c in s :: 0.0 < p(c) && 0.0 < q(c) && h(c) == Term(ln, p(c), q(c))
    ensures Sum(s, h) == Sum(s, EntropyOf(ln, q, p)) + Sum(s, EntropyOf(ln, p, q))
  {
    var f, g := EntropyOf(ln, q, p), EntropyOf(ln, p, q);
    forall c | c in s ensures h(c) == f(c) + g(c) {
      TermParts(ln, p, q, c);
    }
    SumAdds(s, f, g, h);
  }

  lemma ShareIsProportion(vals: seq<string>, cats: set<string>, c: string)
    requires cats != {}
    ensures Share(vals, cats, c) == Proportions(vals, cats)(c) && 0.0 < Proportions(vals, cats)(c)
  {
    CountIsMultiplicity(vals, c);
    SmoothSpelledOut(Count(vals, c), |vals|, |cats|);
  }

  /** The index is the sum of the two relative entropies between the smoothed samples. */
  lemma PsiIsBothEntropies(ln: real -> real, train: seq<string>, val: seq<string>)
    requires IsLog(ln) && train != [] && val != []
    ensures Categories(train, val) != {} && IsBothEntropies(ln, train, val, Psi(ln, train, val))
  {
    var cats := Categories(train, val);
    assert train[0] in cats;
    forall c | c in cats
      ensures TermOf(ln, train, val, cats)(c) == Term(ln, Share(train, cats, c), Share(val, cats, c))
      ensures Share(train, cats, c) == Proportions(train, cats)(c) && 0.0 < Proportions(train, cats)(c)
      ensures Share(val, cats, c) == Proportions(val, cats)(c) && 0.0 < Proportions(val, cats)(c)
    {
      ShareIsProportion(train, cats, c);
      ShareIsProportion(val, cats, c);
    }
    SumOfTerms(cats, ln, Proportions(train, cats), Proportions(val, cats), TermOf(ln, train, val, cats));
  }

  /** The relative entropy of the validation proportions against the training ones, and the other way round. */
  ghost predicate IsBothEntropies(ln: real -> real, train: seq<string>, val: seq<string>, psi: real)
    requires Categories(train, val) != {}
  {
    var cats := Categories(train, val);
    var p, q := Proportions(train, cats), Proportions(val, cats);
    psi == Sum(cats, EntropyOf(ln, q, p)) + Sum(cats, EntropyOf(ln, p, q))
  }

  /** The loop over the set of categories, in whatever order the set yields them: the result does not
      depend on it. */
  method ComputePsi(ln: real -> real, train: seq<string>, val: seq<string>) returns (psi: real)
    ensures psi == Psi(ln, train, val)
    ensures train == [] || val == [] ==> psi == 0.0
    ensures IsLog(ln) && train != [] && val != [] ==>
              Categories(train, val) != {} && IsBothEntropies(ln, train, val, psi)
  {
    if IsLog(ln) && train != [] && val != [] {
      PsiIsBothEntropies(ln, train, val);
    }
    if |train| < 1 || |val| < 1 {
      return 0.0;
    }
    var cats := (set c | c in train) + (set c | c in val);
    assert train[0] in cats;
    var todo := cats;
    psi := 0.0;
    ghost var f := TermOf(ln, train, val, cats);
    while todo != {}
      invariant todo <= cats
      invariant psi + Sum(todo, f) == Sum(cats, f)
      decreases todo
    {
      var cat :| cat in todo;
      SumTakesAny(todo, f, cat);
      var ep := Smooth(Count(train, cat), |train|, |cats|);
      var ap := Smooth(Count(val, cat), |val|, |cats|);
      psi := psi + Term(ln, ep, ap);
      todo := todo - {cat};
    }
  }

  // ---------------------------------------------------------------- the laws

  lemma {:induction false} CountInTakesOne(vals: seq<string>, cats: set<string>, c: string)
    requires c in cats
    ensures CountIn(vals, cats) == Count(vals, c) + CountIn(vals, cats - {c})
  {
    if vals != [] {
      CountInTakesOne(vals[1..], cats, c);
    }
  }

  lemma {:induction false} CountInAll(vals: seq<string>, cats: set<string>)
    requires forall v | v in vals :: v in cats
    ensures CountIn(vals, cats) == |vals|
  {
    if vals != [] {
      CountInAll(vals[1..], cats);
    }
  }

  lemma {:induction false} CountInNone(vals: seq<string>)
    ensures CountIn(vals, {}) == 0
  {
    if vals != [] {
      CountInNone(vals[1..]);
    }
  }

  function ShareOf(vals: seq<string>, cats: set<string>): string -> real
    requires cats != {}
  {
    (c: string) => Share(vals, cats, c)
  }

  lemma {:induction false} SharesOfSome(vals: seq<string>, cats: set<string>, some: set<string>)
    requires some != {} && cats != {}
    ensures Sum(some, ShareOf(vals, cats)) ==
        (CountIn(vals, some) as real + PSI_EPS * |some| as real) / Total(|vals|, |cats|)
    decreases some
  {
    var share, d := ShareOf(vals, cats), Total(|vals|, |cats|);
    var c :| c in some;
    var rest := some - {c};
    SumTakesAny(some, share, c);
    CountInTakesOne(vals, some, c);
    assert |some| == |rest| + 1;
    if rest == {} {
      CountInNone(vals);
    } else {
      SharesOfSome(vals, cats, rest);
      QuotientsAdd(Count(vals, c) as real + PSI_EPS, CountIn(vals, rest) as real + PSI_EPS * |rest| as real, d);
    }
  }

  /** The smoothed proportions of either side sum to one over the observed categories. */
  lemma SharesSumToOne(vals: seq<string>, cats: set<string>)
    requires cats != {} && forall v | v in vals :: v in cats
    ensures Sum(cats, ShareOf(vals, cats)) == 1.0
  {
    SharesOfSome(vals, cats, cats);
    CountInAll(vals, cats);
  }

  /** PSI is never negative, and zero exactly when every category has the same smoothed share on both
      sides. */
  lemma PsiIsNonNegative(ln: real -> real, train: seq<string>, val: seq<string>)
    requires IsLog(ln) && train != [] && val != []
    ensures 0.0 <= Psi(ln, train, val)
    ensures Categories(train, val) != {}
    ensures Psi(ln, train, val) == 0.0 <==>
            forall c | c in Categories(train, val) ::
              Share(train, Categories(train, val), c) == Share(val, Categories(train, val), c)
  {
    var cats := Categories(train, val);
    assert train[0] in cats;
    var f := TermOf(ln, train, val, cats);
    forall c | c in cats
      ensures 0.0 <= f(c) && (f(c) == 0.0 <==> Share(train, cats, c) == Share(val, cats, c))
    {
      TermIsNonNegative(ln, Share(train, cats, c), Share(val, cats, c));
    }
    SumOfNonNegatives(cats, f);
  }

  /** It does not matter which side is the reference. */
  lemma PsiIsSymmetric(ln: real -> real, train: seq<string>, val: seq<string>)
    requires IsLog(ln)
    ensures Psi(ln, train, val) == Psi(ln, val, train)
  {
    if train != [] && val != [] {
      var cats := Categories(train, val);
      assert train[0] in cats;
      assert cats == Categories(val, train);
      var f, g := TermOf(ln, train, val, cats), TermOf(ln, val, train, cats);
      forall c | c in cats ensures f(c) == g(c) {
        TermIsSymmetric(ln, Share(train, cats, c), Share(val, cats, c));
      }
      SumCongruence(cats, f, g);
    }
  }

  lemma {:induction false} CountIsMultiplicity(vals: seq<string>, c: string)
    ensures Count(vals, c) == multiset(vals)[c]
  {
    if vals != [] {
      CountIsMultiplicity(vals[1..], c);
      assert vals == [vals[0]] + vals[1..];
    }
  }

  /** The order of the rows does not matter either. */
  lemma PsiIgnoresRowOrder(ln: real -> real, train: seq<string>, val: seq<string>, train': seq<string>,
                           val': seq<string>)
    requires multiset(train) == multiset(train') && multiset(val) == multiset(val')
    ensures Psi(ln, train, val) == Psi(ln, train', val')
  {
    assert |train| == |multiset(train)| == |train'|;
    assert |val| == |multiset(val)| == |val'|;
    if train != [] && val != [] {
      var cats := Categories(train, val);
      assert train[0] in cats;
      forall c ensures c in cats <==> c in Categories(train', val') {
        assert c in train <==> c in multiset(train);
        assert c in train' <==> c in multiset(train');
        assert c in val <==> c in multiset(val);
        assert c in val' <==> c in multiset(val');
      }
      assert cats == Categories(train', val');
      var f, g := TermOf(ln, train, val, cats), TermOf(ln, train', val', cats);
      forall c | c in cats ensures f(c) == g(c) {
        CountIsMultiplicity(train, c);
        CountIsMultiplicity(train', c);
        CountIsMultiplicity(val, c);
        CountIsMultiplicity(val', c);
      }
      SumCongruence(cats, f, g);
    }
  }

  /** On samples of one size, PSI is zero exactly when they are the same sample up to the order of rows. */
  lemma ZeroIffSameSample(ln: real -> real, train: seq<string>, val: seq<string>)
    requires IsLog(ln) && |train| == |val|
    ensures Psi(ln, train, val) == 0.0 <==> multiset(train) == multiset(val)
  {
    if train != [] {
      PsiIsNonNegative(ln, train, val);
      var cats := Categories(train, val);
      forall c ensures Share(train, cats, c) == Share(val, cats, c) <==> multiset(train)[c] == multiset(val)[c] {
        SmoothIsInjective(Count(train, c), Count(val, c), |train|, |cats|);
        CountIsMultiplicity(train, c);
        CountIsMultiplicity(val, c);
      }
      forall c | c !in cats ensures multiset(train)[c] == 0 == multiset(val)[c] {
        assert c !in train && c !in val;
      }
    }
  }
}
