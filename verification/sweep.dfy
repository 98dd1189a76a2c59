/*
 * Checking labels one after another against the scanner's seen set:
 * `check_subdomain` for one label, and the sequential reading of
 * `asyncio.gather` over a chunk (the check-and-insert of each task runs
 * before its first suspension, in task order) followed by dropping `None`.
 */
module Sweeps {
  import opened Generation
  import opened Probing

  /** A live candidate: the fully qualified name and the title of its page. */
  datatype Found = Found(fqc: string, title: string)

  /** `f"{subdomain}.{domain}"`, the unit of deduplication. */
  function FullDomain(subdomain: string, domain: string): string
  {
    subdomain + "." + domain
  }

  /** `f"http://{full_domain}"`. */
  function Url(fqc: string): string
  {
    "http://" + fqc
  }

  function FullDomains(labels: seq<string>, domain: string): set<string>
  {
    set l | l in labels :: FullDomain(l, domain)
  }

  /**
   * What checking some labels did: one outcome per label (`None` or
   * `(full_domain, title)`), the seen set afterwards, the names that were
   * newly marked seen and handed to the retry loop, in order, and the
   * requests and sleeps of those loops.
   */
  datatype Sweep = Sweep(outcomes: seq<Option<Found>>, seen: set<string>, dispatched: seq<string>, events: seq<Event>)

  /** `a` followed by `b`, where `b` started from the seen set `a` left behind. */
  function Then(a: Sweep, b: Sweep): Sweep
  {
    Sweep(a.outcomes + b.outcomes, b.seen, a.dispatched + b.dispatched, a.events + b.events)
  }

  /** `check_subdomain(label, domain)` against the seen set `seen`. */
  function Check(p: ProbeConfig, seen: set<string>, subdomain: string, domain: string): Sweep
  {
    var f := FullDomain(subdomain, domain);
    if f in seen then Sweep([None], seen, [], [])
    else
      var a := Retry(p, Url(f), 0);
      Sweep([if a.title.Some? then Some(Found(f, a.title.value)) else None], seen + {f}, [f], a.events)
  }

  /** The checks of `labels`, in order, each one seeing the names its predecessors marked. */
  function CheckAll(p: ProbeConfig, seen: set<string>, labels: seq<string>, domain: string): (w: Sweep)
    ensures |w.outcomes| == |labels|
  {
    if labels == [] then Sweep([], seen, [], [])
    else
      var w := CheckAll(p, seen, labels[..|labels| - 1], domain);
      Then(w, Check(p, w.seen, labels[|labels| - 1], domain))
  }

  /** Checking one more label extends the sweep by that label's check. */
  lemma CheckAllSnoc(p: ProbeConfig, seen: set<string>, labels: seq<string>, i: nat, domain: string)
    requires i < |labels|
    ensures var w := CheckAll(p, seen, labels[..i], domain);
      CheckAll(p, seen, labels[..i + 1], domain) == Then(w, Check(p, w.seen, labels[i], domain))
  {
    assert labels[..i + 1][..i] == labels[..i];
  }

  /** Checking marks exactly the labels' names as seen, and nothing else. */
  lemma {:induction false} CheckAllSeen(p: ProbeConfig, seen: set<string>, labels: seq<string>, domain: string)
    ensures CheckAll(p, seen, labels, domain).seen == seen + FullDomains(labels, domain)
    decreases |labels|
  {
    if labels != [] {
      var init := labels[..|labels| - 1];
      CheckAllSeen(p, seen, init, domain);
      assert FullDomains(labels, domain) == FullDomains(init, domain) + {FullDomain(labels[|labels| - 1], domain)} by {
        assert labels == init + [labels[|labels| - 1]];
      }
    }
  }

  /** `[r for r in results if r is not None]`. */
  function Present(outcomes: seq<Option<Found>>): (r: seq<Found>)
    ensures |r| <= |outcomes|
  {
    if outcomes == [] then []
    else (if outcomes[0].Some? then [outcomes[0].value] else []) + Present(outcomes[1..])
  }

  function Names(found: seq<Found>): seq<string>
  {
    seq(|found|, i requires 0 <= i < |found| => found[i].fqc)
  }

  /** `xs` is `ys` with some elements left out, the rest in the same order. */
  predicate Subsequence(xs: seq<string>, ys: seq<string>)
    decreases |ys|
  {
    if ys == [] then xs == []
    else (xs != [] && xs[0] == ys[0] && Subsequence(xs[1..], ys[1..])) || Subsequence(xs, ys[1..])
  }

  /** Label `labels[i]` names something not seen before the sweep nor earlier in the sweep. */
  predicate NewAt(seen: set<string>, labels: seq<string>, i: nat, domain: string)
    requires i < |labels|
  {
    FullDomain(labels[i], domain) !in seen && labels[i] !in labels[..i]
  }

  /** `d` lists the names of `s`, each exactly once (in the order they were added). */
  ghost predicate Enumerates(d: seq<string>, s: set<string>)
    decreases |d|
  {
    if d == [] then s == {}
    else d[|d| - 1] in s && Enumerates(d[..|d| - 1], s - {d[|d| - 1]})
  }

  // ---------------------------------------------------------------------

  lemma FullDomainInjective(l1: string, l2: string, domain: string)
    requires FullDomain(l1, domain) == FullDomain(l2, domain)
    ensures l1 == l2
  {
    var f := FullDomain(l1, domain);
    assert |l1| == |l2|;
    assert f[..|l1|] == l1 && f[..|l2|] == l2;
  }

  /** Splitting a list of labels into consecutive pieces does not change what checking it does. */
  lemma {:induction false} CheckAllAppend(p: ProbeConfig, seen: set<string>, a: seq<string>, b: seq<string>, domain: string)
    ensures var wa := CheckAll(p, seen, a, domain);
      CheckAll(p, seen, a + b, domain) == Then(wa, CheckAll(p, wa.seen, b, domain))
    decreases |b|
  {
    if b == [] {
      assert a + b == a;
    } else {
      var init, last := b[..|b| - 1], b[|b| - 1];
      var wa := CheckAll(p, seen, a, domain);
      var wi := CheckAll(p, wa.seen, init, domain);
      var c := Check(p, wi.seen, last, domain);
      calc {
        CheckAll(p, seen, a + b, domain);
        { assert (a + b)[..|a + b| - 1] == a + init && (a + b)[|a + b| - 1] == last; }
        Then(CheckAll(p, seen, a + init, domain), Check(p, CheckAll(p, seen, a + init, domain).seen, last, domain));
        { CheckAllAppend(p, seen, a, init, domain); }
        Then(Then(wa, wi), c);
        { assert wa.outcomes + wi.outcomes + c.outcomes == wa.outcomes + (wi.outcomes + c.outcomes);
          assert wa.dispatched + wi.dispatched + c.dispatched == wa.dispatched + (wi.dispatched + c.dispatched);
          assert wa.events + wi.events + c.events == wa.events + (wi.events + c.events); }
        Then(wa, Then(wi, c));
        Then(wa, CheckAll(p, wa.seen, b, domain));
      }
    }
  }

  /** The outcomes of checking a prefix of the labels are the prefix of the outcomes of checking them all. */
  lemma CheckAllPrefix(p: ProbeConfig, seen: set<string>, s: seq<string>, e: nat, domain: string)
    requires e <= |s|
    ensures CheckAll(p, seen, s[..e], domain).outcomes == CheckAll(p, seen, s, domain).outcomes[..e]
  {
    assert s[..e] + s[e..] == s;
    CheckAllAppend(p, seen, s[..e], s[e..], domain);
  }

  /**
   * Checking `s[..e]` is checking `s[..i]` and then `s[i..e]` from the seen
   * set the first part left, and the finds of the whole are those of the
   * first part then the second.
   */
  lemma SweepSlices(p: ProbeConfig, seen: set<string>, s: seq<string>, i: nat, e: nat, domain: string)
    requires i <= e <= |s|
    ensures var wa := CheckAll(p, seen, s[..i], domain);
      var wb := CheckAll(p, wa.seen, s[i..e], domain);
      var w := CheckAll(p, seen, s[..e], domain);
      && w == Then(wa, wb)
      && Present(w.outcomes) == Present(wa.outcomes) + Present(wb.outcomes)
  {
    var wa := CheckAll(p, seen, s[..i], domain);
    assert s[..i] + s[i..e] == s[..e];
    CheckAllAppend(p, seen, s[..i], s[i..e], domain);
    PresentAppend(wa.outcomes, CheckAll(p, wa.seen, s[i..e], domain).outcomes);
  }

  /**
   * Each outcome is determined by its own label: it is a find, for exactly
   * that label's name, when the name was not seen before (neither before the
   * sweep nor earlier in it) and its retry loop got a 200; otherwise `None`.
   */
  lemma {:induction false} CheckAllOutcomes(p: ProbeConfig, seen: set<string>, labels: seq<string>, domain: string)
    ensures var w := CheckAll(p, seen, labels, domain);
      forall i :: 0 <= i < |labels| ==>
        var f := FullDomain(labels[i], domain);
        var a := Retry(p, Url(f), 0);
        w.outcomes[i] == if NewAt(seen, labels, i, domain) && a.title.Some? then Some(Found(f, a.title.value)) else None
    decreases |labels|
  {
    if labels != [] {
      var n := |labels| - 1;
      var init := labels[..n];
      CheckAllOutcomes(p, seen, init, domain);
      var prev := CheckAll(p, seen, init, domain);
      var w := CheckAll(p, seen, labels, domain);
      forall i | 0 <= i < |labels|
        ensures var f := FullDomain(labels[i], domain);
          var a := Retry(p, Url(f), 0);
          w.outcomes[i] == if NewAt(seen, labels, i, domain) && a.title.Some? then Some(Found(f, a.title.value)) else None
      {
        if i < n {
          assert labels[i] == init[i] && labels[..i] == init[..i];
          assert w.outcomes[i] == prev.outcomes[i];
        } else {
          var f := FullDomain(labels[n], domain);
          assert labels[..n] == init;
          CheckAllSeen(p, seen, init, domain);
          if f in FullDomains(init, domain) {
            var l :| l in init && FullDomain(l, domain) == f;
            FullDomainInjective(l, labels[n], domain);
          }
          assert f in prev.seen <==> f in seen || labels[n] in init;
        }
      }
    }
  }

  /**
   * No name is handed to the retry loop twice, nor any name seen before;
   * the names handed over are exactly those the sweep added to the seen set.
   */
  lemma {:induction false} CheckAllDispatchesOnce(p: ProbeConfig, seen: set<string>, labels: seq<string>, domain: string)
    ensures var w := CheckAll(p, seen, labels, domain);
      && (forall i, j :: 0 <= i < j < |w.dispatched| ==> w.dispatched[i] != w.dispatched[j])
      && (forall f :: f in w.dispatched <==> f in w.seen && f !in seen)
    decreases |labels|
  {
    if labels != [] {
      CheckAllDispatchesOnce(p, seen, labels[..|labels| - 1], domain);
      CheckAllSeen(p, seen, labels[..|labels| - 1], domain);
    }
  }

  /** The finds of a sweep are the outcomes that are not `None`, in order. */
  lemma {:induction false} PresentAppend(a: seq<Option<Found>>, b: seq<Option<Found>>)
    ensures Present(a + b) == Present(a) + Present(b)
  {
    if a == [] {
      assert a + b == b;
    } else {
      var head := if a[0].Some? then [a[0].value] else [];
      calc {
        Present(a + b);
        { assert (a + b)[0] == a[0] && (a + b)[1..] == a[1..] + b; }
        head + Present(a[1..] + b);
        { PresentAppend(a[1..], b); }
        head + (Present(a[1..]) + Present(b));
        head + Present(a[1..]) + Present(b);
        Present(a) + Present(b);
      }
    }
  }

  lemma {:induction false} PresentMembership(outcomes: seq<Option<Found>>, x: Found)
    ensures x in Present(outcomes) <==> Some(x) in outcomes
  {
    if outcomes != [] {
      PresentMembership(outcomes[1..], x);
      assert outcomes == [outcomes[0]] + outcomes[1..];
    }
  }

  lemma {:induction false} PresentSubsequence(outcomes: seq<Option<Found>>, names: seq<string>)
    requires |outcomes| == |names|
    requires forall i :: 0 <= i < |outcomes| && outcomes[i].Some? ==> outcomes[i].value.fqc == names[i]
    ensures Subsequence(Names(Present(outcomes)), names)
  {
    if outcomes != [] {
      PresentSubsequence(outcomes[1..], names[1..]);
      var rest := Names(Present(outcomes[1..]));
      if outcomes[0].Some? {
        var xs := Names(Present(outcomes));
        assert Present(outcomes) == [outcomes[0].value] + Present(outcomes[1..]);
        assert xs[0] == names[0];
        assert xs[1..] == rest;
      } else {
        assert Present(outcomes) == Present(outcomes[1..]);
      }
    }
  }

  /**
   * The finds of a chunk are names of the chunk's own labels, in the order of
   * the chunk, each at most once.
   */
  lemma ChunkFindsInOrder(p: ProbeConfig, seen: set<string>, labels: seq<string>, domain: string)
    ensures var found := Present(CheckAll(p, seen, labels, domain).outcomes);
      && Subsequence(Names(found), seq(|labels|, i requires 0 <= i < |labels| => FullDomain(labels[i], domain)))
      && (forall x :: x in found ==> x.fqc !in seen && exists l :: l in labels && x.fqc == FullDomain(l, domain))
  {
    var w := CheckAll(p, seen, labels, domain);
    var names := seq(|labels|, i requires 0 <= i < |labels| => FullDomain(labels[i], domain));
    CheckAllOutcomes(p, seen, labels, domain);
    PresentSubsequence(w.outcomes, names);
    forall x | x in Present(w.outcomes)
      ensures x.fqc !in seen && exists l :: l in labels && x.fqc == FullDomain(l, domain)
    {
      PresentMembership(w.outcomes, x);
      var i :| 0 <= i < |w.outcomes| && w.outcomes[i] == Some(x);
      assert labels[i] in labels;
    }
  }

  /**
   * Names of labels without a dot under two different root domains never
   * coincide: the first dot ends the label, so the label and then the
   * domain are read back from the name.
   */
  lemma FullDomainsApart(l1: string, d1: string, l2: string, d2: string)
    requires '.' !in l1 && '.' !in l2 && d1 != d2
    ensures FullDomain(l1, d1) != FullDomain(l2, d2)
  {
    var f1, f2 := FullDomain(l1, d1), FullDomain(l2, d2);
    if |l1| < |l2| {
      assert f1[|l1|] == '.' && f2[|l1|] == l2[|l1|] && l2[|l1|] in l2;
    } else if |l2| < |l1| {
      assert f2[|l2|] == '.' && f1[|l2|] == l1[|l2|] && l1[|l2|] in l1;
    } else if l1 != l2 {
      assert f1[..|l1|] == l1 && f2[..|l2|] == l2;
    } else {
      assert f1[|l1| + 1..] == d1 && f2[|l2| + 1..] == d2;
    }
  }

  /**
   * One scanner serves many root domains with one seen set. Every name it
   * holds from the other domains is a label over the alphabet under a
   * different domain, so none of them is the name of a label checked now,
   * and the outcomes are those of a fresh scanner.
   */
  lemma SharedSeenHarmless(p: ProbeConfig, seen: set<string>, labels: seq<string>, domain: string)
    requires forall l :: l in labels ==> Over(Chars, l)
    requires forall x :: x in seen ==> exists l', d' :: d' != domain && Over(Chars, l') && x == FullDomain(l', d')
    ensures CheckAll(p, seen, labels, domain).outcomes == CheckAll(p, {}, labels, domain).outcomes
  {
    CheckAllOutcomes(p, seen, labels, domain);
    CheckAllOutcomes(p, {}, labels, domain);
    var a := CheckAll(p, seen, labels, domain).outcomes;
    var b := CheckAll(p, {}, labels, domain).outcomes;
    forall i | 0 <= i < |labels| ensures a[i] == b[i] {
      assert labels[i] in labels;
      forall x | x in seen
        ensures x != FullDomain(labels[i], domain)
      {
        var l', d' :| d' != domain && Over(Chars, l') && x == FullDomain(l', d');
        DotFree(l');
        DotFree(labels[i]);
        FullDomainsApart(l', d', labels[i], domain);
      }
    }
  }

  /**
   * Checking one label: a seen name changes nothing; a new one is marked
   * seen and handed to the retry loop, and with no attempts to spend it is
   * still marked seen, with no request and no find.
   */
  lemma CheckMarksSeen(p: ProbeConfig, seen: set<string>, subdomain: string, domain: string)
    ensures var f := FullDomain(subdomain, domain);
      var c := Check(p, seen, subdomain, domain);
      && (f in seen ==> c == Sweep([None], seen, [], []))
      && (f !in seen ==> c.seen == seen + {f} && c.dispatched == [f] && c.events == Retry(p, Url(f), 0).events)
      && (c.outcomes[0].Some? <==> f !in seen && Retry(p, Url(f), 0).title.Some?)
      && (f !in seen && p.maxRetries <= 0 ==> c == Sweep([None], seen + {f}, [f], []))
  {
  }

  lemma EnumeratesSnoc(d: seq<string>, s: set<string>, f: string)
    requires Enumerates(d, s) && f !in s
    ensures Enumerates(d + [f], s + {f})
  {
    assert (d + [f])[..|d|] == d;
    assert (s + {f}) - {f} == s;
  }

  /** Enumerating means: no name twice, and exactly the names of the set. */
  lemma {:induction false} EnumeratesMeans(d: seq<string>, s: set<string>)
    ensures Enumerates(d, s) <==>
      (forall i, j :: 0 <= i < j < |d| ==> d[i] != d[j]) && (forall f :: f in d <==> f in s)
    decreases |d|
  {
    if d != [] {
      var n := |d| - 1;
      var init, x := d[..n], d[n];
      EnumeratesMeans(init, s - {x});
      assert d == init + [x];
      if (forall i, j :: 0 <= i < j < |d| ==> d[i] != d[j]) && (forall f :: f in d <==> f in s) {
        forall i | 0 <= i < n ensures init[i] != x {
          assert init[i] == d[i];
        }
        assert x in d;
        forall f ensures f in init <==> f in s - {x} {
          assert f in d <==> f in init || f == x;
        }
      }
      if Enumerates(d, s) {
        forall i, j | 0 <= i < j < |d| ensures d[i] != d[j] {
          if j < n {
            assert d[i] == init[i] && d[j] == init[j];
          } else {
            assert d[i] in init;
          }
        }
      }
    }
  }

  /** A sweep keeps the handed-over names an enumeration of the seen set. */
  lemma {:induction false} CheckAllEnumerates(p: ProbeConfig, d: seq<string>, seen: set<string>, labels: seq<string>, domain: string)
    requires Enumerates(d, seen)
    ensures var w := CheckAll(p, seen, labels, domain); Enumerates(d + w.dispatched, w.seen)
    decreases |labels|
  {
    if labels != [] {
      var init := labels[..|labels| - 1];
      CheckAllEnumerates(p, d, seen, init, domain);
      var w := CheckAll(p, seen, init, domain);
      var f := FullDomain(labels[|labels| - 1], domain);
      if f !in w.seen {
        EnumeratesSnoc(d + w.dispatched, w.seen, f);
        assert d + w.dispatched + [f] == d + (w.dispatched + [f]);
      } else {
        assert w.dispatched + [] == w.dispatched;
      }
    } else {
      assert d + [] == d;
    }
  }
}
