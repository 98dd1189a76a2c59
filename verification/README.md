# SubdomainScanner, modelled in Dafny

A model of the core of `SubdomainScanner` (`domainscan.py`), a brute-force
subdomain scanner, with the network replaced by a deterministic oracle:
`session(url, attempt)` is what the GET of `url` yields on that attempt,
`Ok200(title)`, `OtherStatus` or `Error` (an exception).

- `generation.dfy` (module `Generation`): the alphabet `ascii_lowercase +
  digits` and `generate_subdomains(length)` as the `itertools.product`
  order, with its size, its membership, its strict lexicographic order and
  the absence of repeats proved.
- `probing.dfy` (module `Probing`): the retry loop of `check_subdomain` as a
  pure function `Retry` that returns the title of the first 200 and the trace
  of requests and back-off sleeps (`0.1 * (attempt + 1)` s as
  `100 * (attempt + 1)` ms).
- `sweep.dfy` (module `Sweeps`): `check_subdomain` against a seen set
  (`Check`), a run of checks over a list of labels threading the seen set
  (`CheckAll`), and the `None` filter of `scan_subdomains_chunk` (`Present`).
- `chunking.dfy` (module `Chunking`): the walk `for i in range(0, total,
  chunk_size)` with its slices `subdomains[i:i + chunk_size]` and the
  reported values `i + len(chunk)`.
- `scanner.dfy` (module `Scanner`): the class `SubdomainScanner` with its
  `seen` field (plus the ghost record of names handed to the retry loop and of
  every request and sleep). `CheckSubdomain`, `ScanSubdomainsChunk` and
  `ScanDomain` (with its two loops `ScanLengths` and `ScanChunks`) are
  imperative methods proved against the functions above. The lemmas
  `ChunkWalkSweep`, `ChunkWalkProgress` and `ScanRangeMeans` show that the
  chunked, length-by-length scan is one in-order sweep over all candidates,
  shortest first.

`asyncio.gather` is read sequentially: each task's check and insert on the
seen set runs before its first suspension, in task order, and the results
come back in input order. The retry loops of a chunk therefore see the same
seen set as in a sequential run. Their requests interleave in time, but the
model records each loop's trace one after another.

## Model

| member | source | states |
|---|---|---|
| Generation.CharsDistinct | domainscan.py:35 | the alphabet has 36 letters, no two alike, `a`..`z` then `0`..`9` in that order |
| Generation.ProductLength | domainscan.py:78 | `product(sigma, repeat=n)` has `|sigma|^n` elements |
| Generation.ProductMembership | domainscan.py:78 | a string is in the product exactly when it has length `n` and only letters of `sigma` |
| Generation.ProductSorted | domainscan.py:78 | over a repetition-free alphabet the product is strictly increasing in lexicographic order of letter positions |
| Generation.ProductDistinct | domainscan.py:78 | over a repetition-free alphabet the product has no repeated string |
| Generation.GeneratedCandidates | domainscan.py:76-78 | `generate_subdomains(L)` has `36^L` labels, exactly the strings of length `L` over the alphabet, pairwise distinct and in lexicographic order |
| Generation.ShortCandidates | domainscan.py:76-78 | length 0 gives the single empty label; length 1 gives the alphabet letter by letter, `a` first and `9` last |
| Probing.RetrySplit | domainscan.py:61-72 | after `k` attempts without a 200, the loop's result is the rest of the loop from attempt `k` after those attempts' trace |
| Probing.RetryFindsFirstSuccess | domainscan.py:61-68 | the loop returns a title exactly when some attempt below `max_retries` gets a 200, and then it is the first such attempt's title |
| Probing.RetryAttempts | domainscan.py:61-72 | requests go out for attempts `0, 1, ...` in order, stop right after the first 200, cover the whole budget otherwise, and never exceed `max_retries` (none when it is `<= 0`) |
| Probing.RetryPacing | domainscan.py:61-72 | every request is for the label's URL; an exception is followed by a sleep of `100 * (attempt + 1)` ms, also after the last attempt; another status is followed directly by the next request; a 200 ends the trace; every sleep follows an exception |
| Probing.AlwaysFailing | domainscan.py:61-74 | when every request raises, the result is `None` after exactly `max_retries` requests, and the sleeps add up to `50 * n * (n + 1)` ms |
| Sweeps.CheckMarksSeen | domainscan.py:53-57 | a name already seen yields `None` and changes nothing; a new one is added to the seen set before its retry loop, and its outcome is a find exactly when that loop gets a 200; with `max_retries <= 0` it is still marked seen, with no request and no find |
| Sweeps.CheckAllSeen | domainscan.py:57 | checking labels leaves the seen set as it was plus each label's full domain: the set only grows |
| Sweeps.CheckAllOutcomes | domainscan.py:53-57 | the outcome of each label is a find for exactly its own name when that name was seen neither before nor earlier in the run and its retry loop got a 200, otherwise `None` |
| Sweeps.CheckAllDispatchesOnce | domainscan.py:54-61 | no name reaches the retry loop twice, and the names that do are exactly those the run added to the seen set |
| Sweeps.CheckAllEnumerates | domainscan.py:54-61 | a run keeps the names handed to the retry loop an enumeration of the seen set |
| Sweeps.EnumeratesMeans | domainscan.py:24 | that enumeration means: no name twice, and exactly the names of the seen set |
| Sweeps.CheckAllAppend | domainscan.py:82-83 | checking `a + b` is checking `a`, then `b` from the seen set `a` left |
| Sweeps.CheckAllPrefix | domainscan.py:82-83 | the outcomes of checking a prefix are the prefix of the outcomes |
| Sweeps.SweepSlices | domainscan.py:95-98 | checking `s[..e]` is checking `s[..i]`, then `s[i..e]` from the seen set the first part left, with the finds of the two in order |
| Sweeps.PresentAppend | domainscan.py:84 | dropping `None` distributes over concatenation |
| Sweeps.PresentMembership | domainscan.py:84 | a result is kept exactly when it was among the outcomes |
| Sweeps.ChunkFindsInOrder | domainscan.py:80-84 | the finds of a chunk are names of the chunk's own labels, in the order of the chunk, none of them seen before |
| Generation.DotFree | domainscan.py:35 | a label over the alphabet contains no `.` |
| Sweeps.FullDomainsApart | domainscan.py:53 | `f"{subdomain}.{domain}"` for dot-free labels under two different domains never gives the same name |
| Sweeps.SharedSeenHarmless | domainscan.py:53-57 | when every name already in the seen set is a label over the alphabet under another root domain, checking labels over the alphabet for this domain gives the same outcomes as with an empty seen set |
| Chunking.EndsFromProgress | domainscan.py:95-100 | from offset `i`, the reported values strictly increase; there are none exactly when `i >= total`; otherwise the last is the total and there are as many as `chunk_size`-wide steps needed to cover `total - i` |
| Chunking.ChunkProgress | domainscan.py:95-100 | the values `i + len(chunk)` strictly increase, the last is `len(subdomains)`, and there are `ceil(total / chunk_size)` of them |
| Chunking.ThirtySixByTen | domainscan.py:95-100 | 36 candidates in chunks of 10 report 10, 20, 30 and 36 |
| Chunking.ChunksFromMatchEnds | domainscan.py:95-96 | chunk `j` is the slice from `j * chunk_size` up to the `j`-th reported value, non-empty and at most `chunk_size` wide |
| Chunking.ChunksFromFlatten | domainscan.py:95-96 | the chunks from an offset concatenate to the rest of the list |
| Chunking.ChunksPartition | domainscan.py:95-100 | the chunks concatenate back to the candidate list, one per report, and the `j`-th report is `j * chunk_size + len(chunk)` |
| Scanner.ProgressLinesEnds | domainscan.py:95-102 | each length's progress lines report exactly the chunk ends `i + len(chunk)`, in order, against that length and `len(subdomains)` |
| Scanner.CheckAllSplit | domainscan.py:95-98 | checking the candidates from offset `i` is checking the chunk `s[i..e]`, then the rest from the seen set the chunk left, with the finds of the two in order |
| Scanner.ChunkWalkChecksChunks | domainscan.py:95-97 | the chunk loop from offset `i` checks exactly the slices `ChunksFrom(s, i, chunk_size)`, one after another, each from the seen set the previous one left |
| Scanner.CheckChunksFlatten | domainscan.py:95-98 | checking chunks one after another is checking their concatenation in one run |
| Scanner.ChunkWalkSweep | domainscan.py:95-98 | the chunk loop checks the candidates exactly as one unchunked in-order run would, and extends `all_results` by exactly that run's finds |
| Scanner.ChunkWalkProgress | domainscan.py:95-102 | each progress line's count is `len(all_results)` at that point: the earlier finds plus the finds among the candidates up to the chunk's end |
| Scanner.ReportedEnds | domainscan.py:91-100 | the progress of a scan over lengths `min_length..max_length` reports, length by length, exactly the chunk ends `i + len(chunk)` of that length's `36^L` candidates |
| Scanner.ScanRangeMeans | domainscan.py:91-104 | the length loop is one in-order run over the candidates of all lengths, shortest first: it returns that run's finds in order, leaves its seen set, and reports `Reported` |
| Scanner.SubdomainScanner.constructor | domainscan.py:14-24 | the scanner starts with the given `max_retries`, `chunk_size` and session and an empty seen set |
| Scanner.SubdomainScanner.CheckSubdomain | domainscan.py:51-74 | returns and records exactly what `Check` prescribes: `None` with no change for a seen name; otherwise the name is marked seen before the retry loop, the first 200 within `max_retries` attempts yields its title, and the trace is `Retry`'s |
| Scanner.SubdomainScanner.ScanSubdomainsChunk | domainscan.py:80-84 | checks the chunk's labels in order and returns the non-`None` results in order; the seen set and the trace are those of one in-order run |
| Scanner.SubdomainScanner.ScanChunks | domainscan.py:95-102 | the chunk loop of one length extends `all_results` and the progress lines exactly as `ChunkWalk` prescribes |
| Scanner.SubdomainScanner.ScanLengths | domainscan.py:91-104 | the length loop does exactly what `ScanRange` prescribes |
| Scanner.SubdomainScanner.ScanDomain | domainscan.py:86-104 | returns the finds of one in-order run over all candidates of lengths `min_length..max_length` and the progress lines `Reported`, whose counts are the chunk ends of each length in turn; nothing when `min_length > max_length`; the `ValueError` of a negative length, before any request, otherwise |

## Left out

- The aiohttp session lifecycle (`__aenter__`, `__aexit__`, connector and timeout): the session is the oracle, a constant of the scanner.
- `concurrent_requests`, the semaphore and `asyncio.gather` scheduling: the model is sequential. The in-flight bound and the interleaving in time of requests from different tasks are not modelled.
- Title extraction with BeautifulSoup: the title of a 200 response, `"No Title"` included, is opaque data supplied by the oracle. `soup.title.string` can be `None` (an empty title, or one with several children), and the scanner still keeps `(full_domain, None)` as a find. `Ok200` carries a string, so the oracle's string stands for that `None` too: such a response is still a find, but the model cannot tell an empty title from a missing one. An exception raised while reading the body counts as the oracle's `Error`.
- Default arguments (`concurrent_requests=50`, `timeout=1.0`, `max_retries=2`, `chunk_size=1000` in the constructor, and `min_length=1`, `max_length=3` in `scan_domain`): the model always takes the values explicitly. The defaults only matter to callers that omit them, and those callers (`process_domains_file`, `main`) are not modelled.
- Logging, `time.time()`, the percentage and the elapsed seconds of the progress line: a progress line is the integers `(length, i + len(chunk), len(subdomains), len(all_results))`. `asyncio.sleep` is recorded as a `Slept` event, not waited for.
- `process_domains_file` and `main`: CSV input and output.
- Scanner.SubdomainScanner.constructor: requires `chunk_size > 0`. With `chunk_size == 0` Python's `range` raises at the first length; with a negative one the chunk loop scans nothing. Neither case is modelled.
- Scanner.SubdomainScanner.ScanDomain: lengths are unbounded integers, and `36^length` candidates are not limited by memory.
