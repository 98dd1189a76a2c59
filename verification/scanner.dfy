/*
 * `SubdomainScanner`: the seen set it owns, the deduplicating probe with
 * bounded retry, the chunk filter and the chunked scan over a range of
 * label lengths. Each method is proved against the pure model of the
 * Sweeps module; the session is the deterministic oracle of Probing.
 */
module Scanner {
  import opened Generation
  import opened Chunking
  import opened Probing
  import opened Sweeps

  /**
   * One progress line of `scan_domain`: the label length being scanned,
   * `i + len(chunk)`, `len(subdomains)` and `len(all_results)`.
   */
  datatype Progress = Progress(length: nat, processed: nat, total: nat, found: nat)

  /** What `scan_domain` returns, or the `ValueError` of `product(..., repeat=length)` for a negative length. */
  datatype ScanResult = Scanned(found: seq<Found>) | NegativeRepeat

  /** The candidates of lengths `lo..hi`, shortest first, each length in product order. */
  function Candidates(lo: nat, hi: int): seq<string>
    decreases hi - lo + 1
  {
    if hi < lo then [] else Candidates(lo, hi - 1) + GenerateSubdomains(hi)
  }

  /**
   * The progress lines of the chunks starting at `i`, `i + size`, ... of a
   * length whose candidates had the outcomes `outcomes`, after `before`
   * finds of earlier lengths: each reports where its chunk ends and how
   * many finds there are by then.
   */
  function ProgressLines(length: nat, outcomes: seq<Option<Found>>, before: nat, i: nat, size: nat): seq<Progress>
    requires size > 0
    decreases |outcomes| - i
  {
    if i >= |outcomes| then []
    else
      var e := Min(i + size, |outcomes|);
      [Progress(length, e, |outcomes|, before + |Present(outcomes[..e])|)] + ProgressLines(length, outcomes, before, i + size, size)
  }

  /** The `processed` values of some progress lines, in order. */
  function Processed(lines: seq<Progress>): seq<nat>
  {
    if lines == [] then [] else [lines[0].processed] + Processed(lines[1..])
  }

  /**
   * The progress lines of one length report, in order, the chunk ends of
   * its candidate list (the `i + len(chunk)` values that `ChunkProgress`
   * describes), each against that length and the list's size.
   */
  lemma {:induction false} ProgressLinesEnds(length: nat, outcomes: seq<Option<Found>>, before: nat, i: nat, size: nat)
    requires size > 0
    ensures var lines := ProgressLines(length, outcomes, before, i, size);
      && Processed(lines) == EndsFrom(i, |outcomes|, size)
      && forall k :: 0 <= k < |lines| ==> lines[k].length == length && lines[k].total == |outcomes|
    decreases |outcomes| - i
  {
    if i < |outcomes| {
      ProgressLinesEnds(length, outcomes, before, i + size, size);
      var lines := ProgressLines(length, outcomes, before, i, size);
      var rest := ProgressLines(length, outcomes, before, i + size, size);
      assert lines[1..] == rest;
      forall k | 0 < k < |lines| ensures lines[k].length == length && lines[k].total == |outcomes| {
        assert lines[k] == rest[k - 1];
      }
    }
  }

  /**
   * What a chunked scan did: the results list it ends with (`all_results`),
   * the sweep over its candidates and the progress lines it reported.
   */
  datatype Scan = Scan(found: seq<Found>, sweep: Sweep, progress: seq<Progress>)

  /**
   * The chunk loop of `scan_domain` for one label length, from offset `i`
   * of the candidates `s`: check the chunk `s[i:i + size]` from the seen set
   * `seen`, extend `found` by its finds, report one progress line, and go on
   * with the next chunk from the seen set the chunk left.
   */
  function ChunkWalk(p: ProbeConfig, seen: set<string>, domain: string, length: nat, s: seq<string>,
                     i: nat, size: nat, found: seq<Found>): Scan
    requires size > 0
    decreases |s| - i
  {
    if i >= |s| then Scan(found, Sweep([], seen, [], []), [])
    else
      var e := Min(i + size, |s|);
      var w := CheckAll(p, seen, s[i..e], domain);
      var found' := found + Present(w.outcomes);
      var rest := ChunkWalk(p, w.seen, domain, length, s, i + size, size, found');
      Scan(rest.found, Then(w, rest.sweep), [Progress(length, e, |s|, |found'|)] + rest.progress)
  }

  /**
   * The length loop of `scan_domain` over `lo..hi`, from the seen set
   * `seen`: that of `lo..hi - 1`, then the chunk loop over length `hi`'s
   * candidates from the state it left.
   */
  function ScanRange(p: ProbeConfig, seen: set<string>, domain: string, lo: nat, hi: int, size: nat): Scan
    requires size > 0
    decreases hi - lo + 1
  {
    if hi < lo then Scan([], Sweep([], seen, [], []), [])
    else
      var prev := ScanRange(p, seen, domain, lo, hi - 1, size);
      var walk := ChunkWalk(p, prev.sweep.seen, domain, hi, GenerateSubdomains(hi), 0, size, prev.found);
      Scan(walk.found, Then(prev.sweep, walk.sweep), prev.progress + walk.progress)
  }

  /**
   * The progress lines of `scan_domain` over the lengths `lo..hi`, read off
   * the one sweep over all their candidates: for each length, one line per
   * chunk of its candidates, after the finds of the shorter lengths.
   */
  function Reported(p: ProbeConfig, seen: set<string>, domain: string, lo: nat, hi: int, size: nat): seq<Progress>
    requires size > 0
    decreases hi - lo + 1
  {
    if hi < lo then []
    else
      var before := CheckAll(p, seen, Candidates(lo, hi - 1), domain);
      var here := CheckAll(p, before.seen, GenerateSubdomains(hi), domain);
      Reported(p, seen, domain, lo, hi - 1, size) + ProgressLines(hi, here.outcomes, |Present(before.outcomes)|, 0, size)
  }

  /**
   * The chunk ends of lengths `lo..hi`, shortest length first: length `L`
   * has `36^L` candidates, and its lines report their chunk ends.
   */
  function LengthEnds(lo: nat, hi: int, size: nat): seq<nat>
    requires size > 0
    decreases hi - lo + 1
  {
    if hi < lo then [] else LengthEnds(lo, hi - 1, size) + ChunkEnds(Pow(36, hi), size)
  }

  lemma {:induction false} ProcessedAppend(a: seq<Progress>, b: seq<Progress>)
    ensures Processed(a + b) == Processed(a) + Processed(b)
    decreases |a|
  {
    if a == [] {
      assert a + b == b;
    } else {
      assert (a + b)[0] == a[0] && (a + b)[1..] == a[1..] + b;
      ProcessedAppend(a[1..], b);
      Associative([a[0].processed], Processed(a[1..]), Processed(b));
    }
  }

  /**
   * The progress of a scan over lengths `lo..hi` reports, for each length
   * in turn, exactly the chunk ends of its `36^L` candidates.
   */
  lemma {:induction false} ReportedEnds(p: ProbeConfig, seen: set<string>, domain: string, lo: nat, hi: int, size: nat)
    requires size > 0
    ensures Processed(Reported(p, seen, domain, lo, hi, size)) == LengthEnds(lo, hi, size)
    decreases hi - lo + 1
  {
    if hi >= lo {
      ReportedEnds(p, seen, domain, lo, hi - 1, size);
      var before := CheckAll(p, seen, Candidates(lo, hi - 1), domain);
      var here := CheckAll(p, before.seen, GenerateSubdomains(hi), domain);
      ProgressLinesEnds(hi, here.outcomes, |Present(before.outcomes)|, 0, size);
      GeneratedCandidates(hi);
      ProcessedAppend(Reported(p, seen, domain, lo, hi - 1, size),
                      ProgressLines(hi, here.outcomes, |Present(before.outcomes)|, 0, size));
    }
  }

  lemma Associative<T>(a: seq<T>, b: seq<T>, c: seq<T>)
    ensures (a + b) + c == a + (b + c)
  {
  }

  /** Checking `s[i..]` is checking `s[i..e]`, then `s[e..]` from the seen set the first part left. */
  lemma CheckAllSplit(p: ProbeConfig, seen: set<string>, s: seq<string>, i: nat, e: nat, domain: string)
    requires i <= e <= |s|
    ensures var w := CheckAll(p, seen, s[i..e], domain);
      var tail := CheckAll(p, w.seen, s[e..], domain);
      var all := CheckAll(p, seen, s[i..], domain);
      && all == Then(w, tail)
      && Present(all.outcomes) == Present(w.outcomes) + Present(tail.outcomes)
  {
    var w := CheckAll(p, seen, s[i..e], domain);
    assert s[i..] == s[i..e] + s[e..];
    CheckAllAppend(p, seen, s[i..e], s[e..], domain);
    PresentAppend(w.outcomes, CheckAll(p, w.seen, s[e..], domain).outcomes);
  }

  /** The chunks `cs` checked one after another, each from the seen set the previous one left. */
  function CheckChunks(p: ProbeConfig, seen: set<string>, cs: seq<seq<string>>, domain: string): Sweep
    decreases |cs|
  {
    if cs == [] then Sweep([], seen, [], [])
    else
      var w := CheckAll(p, seen, cs[0], domain);
      Then(w, CheckChunks(p, w.seen, cs[1..], domain))
  }

  /** The chunk loop from offset `i` checks exactly the chunks `ChunksFrom(s, i, size)`, in order. */
  lemma {:induction false} ChunkWalkChecksChunks(p: ProbeConfig, seen: set<string>, domain: string, length: nat,
                                                 s: seq<string>, i: nat, size: nat, found: seq<Found>)
    requires size > 0
    ensures ChunkWalk(p, seen, domain, length, s, i, size, found).sweep == CheckChunks(p, seen, ChunksFrom(s, i, size), domain)
    decreases |s| - i
  {
    if i < |s| {
      var e := Min(i + size, |s|);
      var w := CheckAll(p, seen, s[i..e], domain);
      ChunkWalkChecksChunks(p, w.seen, domain, length, s, i + size, size, found + Present(w.outcomes));
      var cs := ChunksFrom(s, i, size);
      assert cs[0] == s[i..e] && cs[1..] == ChunksFrom(s, i + size, size);
    }
  }

  /** Checking chunks one after another is checking their concatenation in one run. */
  lemma {:induction false} CheckChunksFlatten(p: ProbeConfig, seen: set<string>, cs: seq<seq<string>>, domain: string)
    ensures CheckChunks(p, seen, cs, domain) == CheckAll(p, seen, Flatten(cs), domain)
    decreases |cs|
  {
    if cs != [] {
      var w := CheckAll(p, seen, cs[0], domain);
      CheckChunksFlatten(p, w.seen, cs[1..], domain);
      CheckAllAppend(p, seen, cs[0], Flatten(cs[1..]), domain);
    }
  }

  /**
   * Chunking does not change what is checked: the chunk loop from offset
   * `i` does exactly the sweep of `s[i..]` in one pass, and extends `found`
   * by exactly that sweep's finds.
   */
  lemma {:induction false} ChunkWalkSweep(p: ProbeConfig, seen: set<string>, domain: string, length: nat,
                                          s: seq<string>, i: nat, size: nat, found: seq<Found>)
    requires size > 0 && i <= |s|
    ensures var all := CheckAll(p, seen, s[i..], domain);
      var walk := ChunkWalk(p, seen, domain, length, s, i, size, found);
      walk.sweep == all && walk.found == found + Present(all.outcomes)
    decreases |s| - i
  {
    if i == |s| {
      assert s[i..] == [];
    } else {
      var e := Min(i + size, |s|);
      var w := CheckAll(p, seen, s[i..e], domain);
      var found' := found + Present(w.outcomes);
      if i + size <= |s| {
        ChunkWalkSweep(p, w.seen, domain, length, s, i + size, size, found');
      } else {
        assert s[e..] == [];
      }
      CheckAllSplit(p, seen, s, i, e, domain);
      Associative(found, Present(w.outcomes), Present(CheckAll(p, w.seen, s[e..], domain).outcomes));
    }
  }

  /**
   * The chunk loop's progress lines are those of the one sweep over all of
   * `s`: picked up at offset `i` (after checking `s[..i]`), it reports, for
   * each chunk, where the chunk ends and how many finds there are up to there.
   */
  lemma {:induction false} ChunkWalkProgress(p: ProbeConfig, seen: set<string>, domain: string, length: nat,
                                             s: seq<string>, i: nat, size: nat, before: seq<Found>)
    requires size > 0 && i <= |s|
    ensures var all := CheckAll(p, seen, s, domain);
      var pre := CheckAll(p, seen, s[..i], domain);
      ChunkWalk(p, pre.seen, domain, length, s, i, size, before + Present(all.outcomes[..i])).progress
        == ProgressLines(length, all.outcomes, |before|, i, size)
    decreases |s| - i
  {
    if i < |s| {
      var all := CheckAll(p, seen, s, domain);
      var pre := CheckAll(p, seen, s[..i], domain);
      var e := Min(i + size, |s|);
      var w := CheckAll(p, pre.seen, s[i..e], domain);
      var found := before + Present(all.outcomes[..i]);
      SweepSlices(p, seen, s, i, e, domain);
      CheckAllPrefix(p, seen, s, i, domain);
      CheckAllPrefix(p, seen, s, e, domain);
      Associative(before, Present(all.outcomes[..i]), Present(w.outcomes));
      assert found + Present(w.outcomes) == before + Present(all.outcomes[..e]);
      if i + size <= |s| {
        ChunkWalkProgress(p, seen, domain, length, s, i + size, size, before);
      }
    }
  }

  /**
   * The length loop does one sweep: the scan of lengths `lo..hi` checks
   * their candidates, shortest first, in one pass from `seen`, returns
   * exactly that pass's finds in order, and reports `Reported`.
   */
  lemma {:induction false} ScanRangeMeans(p: ProbeConfig, seen: set<string>, domain: string, lo: nat, hi: int, size: nat)
    requires size > 0
    ensures var all := CheckAll(p, seen, Candidates(lo, hi), domain);
      ScanRange(p, seen, domain, lo, hi, size) == Scan(Present(all.outcomes), all, Reported(p, seen, domain, lo, hi, size))
    decreases hi - lo + 1
  {
    if hi >= lo {
      ScanRangeMeans(p, seen, domain, lo, hi - 1, size);
      var before := CheckAll(p, seen, Candidates(lo, hi - 1), domain);
      var s := GenerateSubdomains(hi);
      var here := CheckAll(p, before.seen, s, domain);
      ChunkWalkSweep(p, before.seen, domain, hi, s, 0, size, Present(before.outcomes));
      assert s[0..] == s;
      ChunkWalkProgress(p, before.seen, domain, hi, s, 0, size, Present(before.outcomes));
      assert s[..0] == [] && here.outcomes[..0] == [];
      assert Present(before.outcomes) + Present(here.outcomes[..0]) == Present(before.outcomes);
      CheckAllAppend(p, seen, Candidates(lo, hi - 1), s, domain);
      PresentAppend(before.outcomes, here.outcomes);
    }
  }

  /**
   * One more chunk: the walk from `i` is the chunk's sweep and progress
   * line followed by the walk from `j = i + size`, so a state that had done
   * the walk up to `i` (`seen`, `found`, `d`, `l`, `lines`) and then the
   * chunk (`seen'`, `found'`, `d'`, `l'`, `lines'`) has done it up to `j`.
   */
  lemma WalkStep(p: ProbeConfig, domain: string, length: nat, s: seq<string>, size: nat, i: nat, e: nat, j: nat,
                 seen: set<string>, found: seq<Found>, d: seq<string>, l: seq<Event>, lines: seq<Progress>, w: Sweep,
                 found': seq<Found>, d': seq<string>, l': seq<Event>, line: Progress, lines': seq<Progress>)
    requires size > 0 && i < |s| && e == Min(i + size, |s|) && j == i + size
    requires w == CheckAll(p, seen, s[i..e], domain)
    requires found' == found + Present(w.outcomes) && d' == d + w.dispatched && l' == l + w.events
    requires line == Progress(length, e, |s|, |found'|) && lines' == lines + [line]
    ensures var rest := ChunkWalk(p, seen, domain, length, s, i, size, found);
      var next := ChunkWalk(p, w.seen, domain, length, s, j, size, found');
      && rest.found == next.found
      && rest.sweep.seen == next.sweep.seen
      && d + rest.sweep.dispatched == d' + next.sweep.dispatched
      && l + rest.sweep.events == l' + next.sweep.events
      && lines + rest.progress == lines' + next.progress
  {
    var next := ChunkWalk(p, w.seen, domain, length, s, j, size, found');
    Associative(d, w.dispatched, next.sweep.dispatched);
    Associative(l, w.events, next.sweep.events);
    Associative(lines, [line], next.progress);
  }

  /**
   * One more length: a state that had done the scan of `lo..hi - 1`
   * (`prev`) and then the chunk loop of length `hi` (`walk`) has done the
   * scan of `lo..hi`.
   */
  lemma ScanStep(p: ProbeConfig, seen: set<string>, domain: string, lo: nat, hi: nat, size: nat, prev: Scan, walk: Scan,
                 d0: seq<string>, l0: seq<Event>, seen': set<string>, found: seq<Found>, d: seq<string>, l: seq<Event>,
                 progress: seq<Progress>, r: Scan)
    requires size > 0 && lo <= hi
    requires prev == ScanRange(p, seen, domain, lo, hi - 1, size) && r == ScanRange(p, seen, domain, lo, hi, size)
    requires walk == ChunkWalk(p, prev.sweep.seen, domain, hi, GenerateSubdomains(hi), 0, size, prev.found)
    requires seen' == walk.sweep.seen && found == walk.found
    requires d == (d0 + prev.sweep.dispatched) + walk.sweep.dispatched
    requires l == (l0 + prev.sweep.events) + walk.sweep.events
    requires progress == prev.progress + walk.progress
    ensures && seen' == r.sweep.seen && found == r.found
      && d == d0 + r.sweep.dispatched && l == l0 + r.sweep.events
      && progress == r.progress
  {
    Associative(d0, prev.sweep.dispatched, walk.sweep.dispatched);
    Associative(l0, prev.sweep.events, walk.sweep.events);
  }

  class SubdomainScanner {
    const maxRetries: int
    const chunkSize: int
    /** The HTTP session, as the oracle of what each request yields. */
    const session: Oracle
    /** `seen_subdomains`. */
    var seen: set<string>
    /** The names handed to the retry loop, in order. */
    ghost var dispatched: seq<string>
    /** Every request and back-off sleep, in order. */
    ghost var log: seq<Event>

    /** A positive chunk size, and the names handed to the retry loop are the seen ones, each once (see `EnumeratesMeans`). */
    ghost predicate Valid()
      reads this
    {
      chunkSize > 0 && Enumerates(dispatched, seen)
    }

    function Config(): ProbeConfig
    {
      ProbeConfig(session, maxRetries)
    }

    /** The state is what it was (with `d0` dispatched and `l0` logged) followed by sweep `w`. */
    ghost predicate Follows(d0: seq<string>, l0: seq<Event>, w: Sweep)
      reads this
    {
      seen == w.seen && dispatched == d0 + w.dispatched && log == l0 + w.events
    }

    constructor (maxRetries: int, chunkSize: int, session: Oracle)
      requires chunkSize > 0
      ensures Valid()
      ensures this.maxRetries == maxRetries && this.chunkSize == chunkSize && this.session == session
      ensures seen == {} && dispatched == [] && log == []
    {
      this.maxRetries := maxRetries;
      this.chunkSize := chunkSize;
      this.session := session;
      seen := {};
      dispatched := [];
      log := [];
    }

    /**
     * `check_subdomain`: a name already seen is skipped with no request and
     * no change; otherwise it is marked seen before any request, and the
     * first 200 within `max_retries` attempts yields its title.
     */
    method CheckSubdomain(subdomain: string, domain: string) returns (r: Option<Found>)
      requires Valid()
      modifies this
      ensures Valid()
      ensures var w := Check(Config(), old(seen), subdomain, domain);
        [r] == w.outcomes && Follows(old(dispatched), old(log), w)
    {
      var fullDomain := FullDomain(subdomain, domain);
      if fullDomain in seen {
        return None;
      }
      ghost var p, s0, d0, l0 := Config(), seen, dispatched, log;
      EnumeratesSnoc(d0, s0, fullDomain);
      seen := seen + {fullDomain};
      dispatched := dispatched + [fullDomain];
      var url := Url(fullDomain);
      var attempt: nat := 0;
      while attempt < maxRetries
        invariant attempt == 0 || attempt <= maxRetries
        invariant forall j :: 0 <= j < attempt ==> !Succeeds(p, url, j)
        invariant log == l0 + Failures(p, url, attempt)
        invariant seen == s0 + {fullDomain} && dispatched == d0 + [fullDomain]
        decreases maxRetries - attempt
      {
        var response := session(url, attempt);
        log := log + [Attempted(url, attempt)];
        if response.Ok200? {
          RetrySplit(p, url, attempt);
          assert l0 + Failures(p, url, attempt) + [Attempted(url, attempt)]
            == l0 + (Failures(p, url, attempt) + [Attempted(url, attempt)]);
          return Some(Found(fullDomain, response.title));
        }
        if response.Error? {
          log := log + [Slept(Delay(attempt))];
        }
        assert l0 + Failures(p, url, attempt) + AttemptEvents(url, attempt, response)
          == l0 + Failures(p, url, attempt + 1);
        attempt := attempt + 1;
      }
      RetrySplit(p, url, attempt);
      assert Failures(p, url, attempt) + [] == Failures(p, url, attempt);
      return None;
    }

    /** `scan_subdomains_chunk`: check every label of the chunk in order and keep the finds. */
    method ScanSubdomainsChunk(domain: string, subdomains: seq<string>) returns (found: seq<Found>)
      requires Valid()
      modifies this
      ensures Valid()
      ensures var w := CheckAll(Config(), old(seen), subdomains, domain);
        found == Present(w.outcomes) && Follows(old(dispatched), old(log), w)
    {
      ghost var p, s0, d0, l0 := Config(), seen, dispatched, log;
      var results: seq<Option<Found>> := [];
      var i := 0;
      while i < |subdomains|
        invariant 0 <= i <= |subdomains|
        invariant Valid()
        invariant var w := CheckAll(p, s0, subdomains[..i], domain);
          results == w.outcomes && Follows(d0, l0, w)
      {
        var r := CheckSubdomain(subdomains[i], domain);
        ghost var w := CheckAll(p, s0, subdomains[..i], domain);
        ghost var c := Check(p, w.seen, subdomains[i], domain);
        CheckAllSnoc(p, s0, subdomains, i, domain);
        Associative(d0, w.dispatched, c.dispatched);
        Associative(l0, w.events, c.events);
        results := results + [r];
        i := i + 1;
      }
      assert subdomains[..i] == subdomains;
      found := Present(results);
    }

    /**
     * The inner loop of `scan_domain`, for the candidates of one label
     * length: walk them in chunks of `chunk_size`, add each chunk's finds to
     * `allResults` and report progress after each chunk.
     */
    method ScanChunks(domain: string, length: nat, subdomains: seq<string>, allResults: seq<Found>)
      returns (results: seq<Found>, lines: seq<Progress>)
      requires Valid()
      modifies this
      ensures Valid()
      ensures var walk := ChunkWalk(Config(), old(seen), domain, length, subdomains, 0, chunkSize, allResults);
        results == walk.found && Follows(old(dispatched), old(log), walk.sweep) && lines == walk.progress
    {
      ghost var p, d0, l0 := Config(), dispatched, log;
      ghost var total := ChunkWalk(p, seen, domain, length, subdomains, 0, chunkSize, allResults);
      results, lines := allResults, [];
      var i: nat := 0;
      assert lines + total.progress == total.progress;
      while i < |subdomains|
        invariant Valid()
        invariant var rest := ChunkWalk(p, seen, domain, length, subdomains, i, chunkSize, results);
          && total.found == rest.found && total.sweep.seen == rest.sweep.seen
          && d0 + total.sweep.dispatched == dispatched + rest.sweep.dispatched
          && l0 + total.sweep.events == log + rest.sweep.events
          && total.progress == lines + rest.progress
        decreases |subdomains| - i
      {
        var end := Min(i + chunkSize, |subdomains|);
        var chunk := subdomains[i..end];
        ghost var i1, s1, r1, d1, l1, lines1 := i, seen, results, dispatched, log, lines;
        var found := ScanSubdomainsChunk(domain, chunk);
        results := results + found;
        assert i + |chunk| == end;
        var line := Progress(length, i + |chunk|, |subdomains|, |results|);
        lines := lines + [line];
        i := i + chunkSize;
        WalkStep(p, domain, length, subdomains, chunkSize, i1, end, i, s1, r1, d1, l1, lines1, CheckAll(p, s1, chunk, domain),
                 results, dispatched, log, line, lines);
      }
      assert dispatched + [] == dispatched && log + [] == log && lines + [] == lines;
    }

    /**
     * The length loop of `scan_domain`, from `min_length` to `max_length`
     * shortest first, collecting the finds and the progress lines of every
     * length in turn.
     */
    method ScanLengths(domain: string, minLength: nat, maxLength: nat) returns (found: seq<Found>, progress: seq<Progress>)
      requires Valid()
      requires minLength <= maxLength
      modifies this
      ensures Valid()
      ensures var r := ScanRange(Config(), old(seen), domain, minLength, maxLength, chunkSize);
        found == r.found && Follows(old(dispatched), old(log), r.sweep) && progress == r.progress
    {
      ghost var p, s0, d0, l0 := Config(), seen, dispatched, log;
      found, progress := [], [];
      var length: nat := minLength;
      assert d0 + [] == d0 && l0 + [] == l0;
      while length <= maxLength
        invariant Valid()
        invariant minLength <= length <= maxLength + 1
        invariant var r := ScanRange(p, s0, domain, minLength, length - 1, chunkSize);
          found == r.found && Follows(d0, l0, r.sweep) && progress == r.progress
      {
        ghost var prev, d1, l1, progress1 := ScanRange(p, s0, domain, minLength, length - 1, chunkSize), dispatched, log, progress;
        var subdomains := GenerateSubdomains(length);
        var lines;
        found, lines := ScanChunks(domain, length, subdomains, found);
        progress := progress + lines;
        ghost var walk := ChunkWalk(p, prev.sweep.seen, domain, length, subdomains, 0, chunkSize, prev.found);
        ScanStep(p, s0, domain, minLength, length, chunkSize, prev, walk, d0, l0, seen, found, dispatched, log, progress,
                 ScanRange(p, s0, domain, minLength, length, chunkSize));
        length := length + 1;
      }
      assert length - 1 == maxLength;
      assert p == Config() && s0 == old(seen) && d0 == old(dispatched) && l0 == old(log);
    }

    /**
     * `scan_domain`: scan every label length from `min_length` to
     * `max_length`, shortest first, collecting the finds and the progress
     * lines; a negative length makes the candidate generator fail.
     */
    method ScanDomain(domain: string, minLength: int, maxLength: int) returns (r: ScanResult, progress: seq<Progress>)
      requires Valid()
      modifies this
      ensures Valid()
      ensures minLength <= maxLength && minLength < 0 ==>
        r == NegativeRepeat && progress == [] && seen == old(seen) && dispatched == old(dispatched) && log == old(log)
      ensures minLength > maxLength ==>
        r == Scanned([]) && progress == [] && seen == old(seen) && dispatched == old(dispatched) && log == old(log)
      ensures minLength >= 0 ==>
        var all := CheckAll(Config(), old(seen), Candidates(minLength, maxLength), domain);
        && r == Scanned(Present(all.outcomes)) && Follows(old(dispatched), old(log), all)
        && progress == Reported(Config(), old(seen), domain, minLength, maxLength, chunkSize)
      ensures minLength >= 0 ==> Processed(progress) == LengthEnds(minLength, maxLength, chunkSize)
    {
      if minLength <= maxLength && minLength < 0 {
        return NegativeRepeat, [];
      }
      if minLength > maxLength {
        assert dispatched == dispatched + [] && log == log + [];
        return Scanned([]), [];
      }
      ghost var s0 := seen;
      ScanRangeMeans(Config(), s0, domain, minLength, maxLength, chunkSize);
      ReportedEnds(Config(), s0, domain, minLength, maxLength, chunkSize);
      var found;
      found, progress := ScanLengths(domain, minLength, maxLength);
      r := Scanned(found);
    }
  }
}
