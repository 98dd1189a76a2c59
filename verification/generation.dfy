/*
 * Candidate labels: every string of a given length over the scanner's
 * alphabet, in the order `itertools.product(chars, repeat=length)` yields
 * them (the first character varies slowest).
 */
module Generation {

  /** `string.ascii_lowercase`. */
  const Lowercase: string := "abcdefghijklmnopqrstuvwxyz"

  /** `string.digits`. */
  const Digits: string := "0123456789"

  /** The scanner's alphabet: the lower-case letters followed by the digits. */
  const Chars: string := Lowercase + Digits

  function Pow(b: nat, n: nat): nat
  {
    if n == 0 then 1 else b * Pow(b, n - 1)
  }

  ghost predicate Distinct<T>(s: seq<T>)
  {
    forall i, j :: 0 <= i < j < |s| ==> s[i] != s[j]
  }

  /** Every string of `tails` with `c` put in front, in the order of `tails`. */
  function PrefixAll(c: char, tails: seq<string>): (r: seq<string>)
    ensures |r| == |tails|
    ensures forall i :: 0 <= i < |r| ==> r[i] == [c] + tails[i]
  {
    seq(|tails|, i requires 0 <= i < |tails| => [c] + tails[i])
  }

  /** One more product round: for each letter of `a` in turn, all of `tails` prefixed by it. */
  function Extend(a: seq<char>, tails: seq<string>): seq<string>
  {
    if a == [] then [] else PrefixAll(a[0], tails) + Extend(a[1..], tails)
  }

  /** `product(sigma, repeat=n)`, each tuple joined into a string. */
  function Product(sigma: seq<char>, n: nat): seq<string>
  {
    if n == 0 then [[]] else Extend(sigma, Product(sigma, n - 1))
  }

  /** `SubdomainScanner.generate_subdomains(length)`. */
  function GenerateSubdomains(length: nat): seq<string>
  {
    Product(Chars, length)
  }

  /** Position of the first occurrence of `c` in `sigma`. */
  function IndexOf(sigma: seq<char>, c: char): (k: nat)
    requires c in sigma
    ensures k < |sigma| && sigma[k] == c
    ensures forall j :: 0 <= j < k ==> sigma[j] != c
  {
    if sigma[0] == c then 0 else 1 + IndexOf(sigma[1..], c)
  }

  /**
   * Lexicographic order over the ordering of `sigma`: at the first position
   * where `s` and `t` differ, the letter of `s` comes earlier in `sigma`.
   */
  predicate Before(sigma: seq<char>, s: string, t: string)
  {
    if s == [] || t == [] then false
    else if s[0] != t[0] then s[0] in sigma && t[0] in sigma && IndexOf(sigma, s[0]) < IndexOf(sigma, t[0])
    else Before(sigma, s[1..], t[1..])
  }

  ghost predicate Sorted(sigma: seq<char>, ss: seq<string>)
  {
    forall i, j :: 0 <= i < j < |ss| ==> Before(sigma, ss[i], ss[j])
  }

  /** The letters of `a` are letters of `sigma`, in strictly increasing `sigma` position. */
  ghost predicate Increasing(sigma: seq<char>, a: seq<char>)
  {
    (forall i :: 0 <= i < |a| ==> a[i] in sigma) &&
    (forall i, j :: 0 <= i < j < |a| ==> IndexOf(sigma, a[i]) < IndexOf(sigma, a[j]))
  }

  ghost predicate Over(sigma: seq<char>, s: string)
  {
    forall i :: 0 <= i < |s| ==> s[i] in sigma
  }

  // ---------------------------------------------------------------------
  // Size: one string per choice of a letter for each position

  lemma {:induction false} ExtendLength(a: seq<char>, tails: seq<string>)
    ensures |Extend(a, tails)| == |a| * |tails|
    decreases |a|
  {
    if a != [] {
      ExtendLength(a[1..], tails);
      assert |a| * |tails| == |tails| + (|a| - 1) * |tails|;
    }
  }

  lemma {:induction false} ProductLength(sigma: seq<char>, n: nat)
    ensures |Product(sigma, n)| == Pow(|sigma|, n)
  {
    if n > 0 {
      ProductLength(sigma, n - 1);
      ExtendLength(sigma, Product(sigma, n - 1));
    }
  }

  // ---------------------------------------------------------------------
  // Membership: the product holds exactly the strings of length n over sigma

  lemma {:induction false} ExtendMembership(a: seq<char>, tails: seq<string>, s: string)
    ensures s in Extend(a, tails) <==> (s != [] && s[0] in a && s[1..] in tails)
    decreases |a|
  {
    if a != [] {
      ExtendMembership(a[1..], tails, s);
      var p := PrefixAll(a[0], tails);
      assert Extend(a, tails) == p + Extend(a[1..], tails);
      if s != [] && s[0] == a[0] && s[1..] in tails {
        var i :| 0 <= i < |tails| && tails[i] == s[1..];
        assert p[i] == s;
      }
      if s in p {
        var i :| 0 <= i < |p| && p[i] == s;
        assert s[1..] == tails[i];
      }
      assert s != [] && s[0] in a ==> s[0] == a[0] || s[0] in a[1..];
    }
  }

  lemma {:induction false} ProductMembership(sigma: seq<char>, n: nat)
    ensures forall s :: s in Product(sigma, n) <==> |s| == n && Over(sigma, s)
  {
    if n > 0 {
      ProductMembership(sigma, n - 1);
      forall s
        ensures s in Product(sigma, n) <==> |s| == n && Over(sigma, s)
      {
        ExtendMembership(sigma, Product(sigma, n - 1), s);
        if s != [] {
          assert Over(sigma, s) <==> s[0] in sigma && Over(sigma, s[1..]) by {
            if s[0] in sigma && Over(sigma, s[1..]) {
              forall i | 0 <= i < |s| ensures s[i] in sigma {
                if i > 0 { assert s[i] == s[1..][i - 1]; }
              }
            }
          }
        }
      }
    }
  }

  // ---------------------------------------------------------------------
  // Order: the product is strictly increasing in lexicographic order

  lemma {:induction false} BeforeIrreflexive(sigma: seq<char>, s: string)
    ensures !Before(sigma, s, s)
    decreases |s|
  {
    if s != [] { BeforeIrreflexive(sigma, s[1..]); }
  }

  lemma {:induction false} ExtendSorted(sigma: seq<char>, a: seq<char>, tails: seq<string>)
    requires Increasing(sigma, a)
    requires Sorted(sigma, tails)
    ensures Sorted(sigma, Extend(a, tails))
    decreases |a|
  {
    if a != [] {
      var p := PrefixAll(a[0], tails);
      var q := Extend(a[1..], tails);
      assert Increasing(sigma, a[1..]) by {
        forall i, j | 0 <= i < j < |a[1..]|
          ensures IndexOf(sigma, a[1..][i]) < IndexOf(sigma, a[1..][j])
        {
          assert a[1..][i] == a[i + 1] && a[1..][j] == a[j + 1];
        }
      }
      ExtendSorted(sigma, a[1..], tails);
      var r := p + q;
      assert Extend(a, tails) == r;
      forall i, j | 0 <= i < j < |r| ensures Before(sigma, r[i], r[j]) {
        if j < |p| {
          assert r[i] == [a[0]] + tails[i] && r[j] == [a[0]] + tails[j];
          assert r[i][1..] == tails[i] && r[j][1..] == tails[j];
        } else if i >= |p| {
          assert r[i] == q[i - |p|] && r[j] == q[j - |p|];
        } else {
          assert r[i] == [a[0]] + tails[i];
          var y := q[j - |p|];
          assert r[j] == y;
          ExtendMembership(a[1..], tails, y);
          var k :| 0 <= k < |a[1..]| && a[1..][k] == y[0];
          assert y[0] == a[k + 1];
          assert IndexOf(sigma, a[0]) < IndexOf(sigma, a[k + 1]);
        }
      }
    }
  }

  lemma IndexOfDistinct(sigma: seq<char>, i: nat)
    requires Distinct(sigma) && i < |sigma|
    ensures IndexOf(sigma, sigma[i]) == i
  {
  }

  /** With a repetition-free alphabet, the product is in strictly increasing lexicographic order. */
  lemma {:induction false} ProductSorted(sigma: seq<char>, n: nat)
    requires Distinct(sigma)
    ensures Sorted(sigma, Product(sigma, n))
  {
    if n > 0 {
      ProductSorted(sigma, n - 1);
      forall i, j | 0 <= i < j < |sigma|
        ensures IndexOf(sigma, sigma[i]) < IndexOf(sigma, sigma[j])
      {
        IndexOfDistinct(sigma, i);
        IndexOfDistinct(sigma, j);
      }
      ExtendSorted(sigma, sigma, Product(sigma, n - 1));
    }
  }

  /** ...and therefore has no repeated element. */
  lemma ProductDistinct(sigma: seq<char>, n: nat)
    requires Distinct(sigma)
    ensures Distinct(Product(sigma, n))
  {
    var r := Product(sigma, n);
    ProductSorted(sigma, n);
    forall i, j | 0 <= i < j < |r| ensures r[i] != r[j] {
      BeforeIrreflexive(sigma, r[i]);
    }
  }

  /** For length one the product is the alphabet itself, letter by letter. */
  lemma {:induction false} ExtendSingletons(a: seq<char>)
    ensures |Extend(a, [[]])| == |a|
    ensures forall i :: 0 <= i < |a| ==> Extend(a, [[]])[i] == [a[i]]
  {
    if a != [] {
      ExtendSingletons(a[1..]);
      var p := PrefixAll(a[0], [[]]);
      assert p[0] == [a[0]] + [] == [a[0]];
      assert Extend(a, [[]]) == p + Extend(a[1..], [[]]);
    }
  }

  // ---------------------------------------------------------------------
  // The scanner's own alphabet

  /** The position of an alphabet letter: `a` .. `z` are 0 .. 25, `0` .. `9` are 26 .. 35. */
  function Rank(c: char): int
  {
    if 'a' <= c <= 'z' then c as int - 'a' as int else c as int - '0' as int + 26
  }

  lemma LowercaseRanks()
    ensures |Lowercase| == 26 && forall i :: 0 <= i < 26 ==> Rank(Lowercase[i]) == i
  {
  }

  lemma DigitRanks()
    ensures |Digits| == 10 && forall i :: 0 <= i < 10 ==> Rank(Digits[i]) == i + 26
  {
  }

  /** The alphabet has 36 letters, no two alike, each at its rank. */
  lemma CharsDistinct()
    ensures |Chars| == 36 && Distinct(Chars)
    ensures forall i :: 0 <= i < 36 ==> Rank(Chars[i]) == i
  {
    LowercaseRanks();
    DigitRanks();
    assert forall i :: 0 <= i < 36 ==> Rank(Chars[i]) == i;
  }

  /** No letter of the alphabet is a dot, so a label over it has none. */
  lemma DotFree(l: string)
    requires Over(Chars, l)
    ensures '.' !in l
  {
  }

  /** Everything the candidate generator promises, for the scanner's alphabet. */
  lemma GeneratedCandidates(length: nat)
    ensures |GenerateSubdomains(length)| == Pow(36, length)
    ensures forall s :: s in GenerateSubdomains(length) <==> |s| == length && Over(Chars, s)
    ensures Distinct(GenerateSubdomains(length))
    ensures Sorted(Chars, GenerateSubdomains(length))
  {
    CharsDistinct();
    ProductLength(Chars, length);
    ProductMembership(Chars, length);
    ProductSorted(Chars, length);
    ProductDistinct(Chars, length);
  }

  /** Length 0 gives the single empty label; length 1 gives `a`, ..., `z`, `0`, ..., `9` in order. */
  lemma ShortCandidates()
    ensures GenerateSubdomains(0) == [""]
    ensures |GenerateSubdomains(1)| == 36
    ensures forall i :: 0 <= i < 36 ==> GenerateSubdomains(1)[i] == [Chars[i]]
    ensures GenerateSubdomains(1)[0] == "a" && GenerateSubdomains(1)[25] == "z"
    ensures GenerateSubdomains(1)[26] == "0" && GenerateSubdomains(1)[35] == "9"
  {
    CharsDistinct();
    ExtendSingletons(Chars);
    assert Product(Chars, 1) == Extend(Chars, [[]]);
  }
}
