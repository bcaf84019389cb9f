/** The two data placers: how many objects of each file go to SSD, which ones, and how the two policies differ. */
module Placement {
  import opened Prelude

  /** The two lists written for a file. */
  datatype Lists = Lists(ssd: seq<string>, hdd: seq<string>)

  /** The lists, one per file; or the assertion against repeated objects fails; or the bandwidths add up to
      0; or the random draws given so far do not yet fill a sample. */
  datatype Outcome = Placed(lists: seq<Lists>) | Repeated | DividesByZero | Undecided

  function Quota(n: nat, ssd: nat, hdd: nat): nat
    requires ssd + hdd > 0
  {
    n * ssd / (hdd + ssd)
  }

  function Flat(files: seq<seq<string>>): seq<string> {
    if files == [] then [] else files[0] + Flat(files[1..])
  }

  // ---------------------------------------------------------------- stable partition

  /** Rebuilds a file from its two lists by taking the next object from the one or the other. */
  function Weave(pattern: seq<bool>, a: seq<string>, b: seq<string>): Option<seq<string>>
    decreases |pattern|
  {
    if pattern == [] then (if a == [] && b == [] then Some([]) else None)
    else if pattern[0] then
      if a == [] then None
      else match Weave(pattern[1..], a[1..], b) case None => None case Some(r) => Some([a[0]] + r)
    else
      if b == [] then None
      else match Weave(pattern[1..], a, b[1..]) case None => None case Some(r) => Some([b[0]] + r)
  }

  /** Which indices below `n` are drawn. */
  function Marks(n: nat, rands: set<nat>): seq<bool> {
    seq(n, i => i in rands)
  }

  /** Which objects of a file are chosen. */
  function Chosen(objects: seq<string>, chosen: set<string>): seq<bool> {
    seq(|objects|, i requires 0 <= i < |objects| => objects[i] in chosen)
  }

  /** The lists hold the objects of the file, each once and in the order of the file. */
  ghost predicate StablePartition(file: seq<string>, l: Lists) {
    exists pattern: seq<bool> :: Weave(pattern, l.ssd, l.hdd) == Some(file)
  }

  lemma {:induction false} WeaveAppend(pattern: seq<bool>, a: seq<string>, b: seq<string>, left: bool, x: string)
    requires Weave(pattern, a, b).Some?
    ensures Weave(pattern + [left], if left then a + [x] else a, if left then b else b + [x])
            == Some(Weave(pattern, a, b).value + [x])
    decreases |pattern|
  {
    var more := pattern + [left];
    var c, d := if left then a + [x] else a, if left then b else b + [x];
    if pattern == [] {
      assert a == [] && b == [] && more == [left];
      assert more[1..] == [] && [x][1..] == [];
      assert if left then c == [x] && d == [] else c == [] && d == [x];
      var none: seq<string> := [];
      assert Weave(more[1..], none, none) == Some(none);
      assert [x] + none == none + [x];
    } else {
      assert more[1..] == pattern[1..] + [left];
      if pattern[0] {
        WeaveAppend(pattern[1..], a[1..], b, left, x);
        assert c[1..] == if left then a[1..] + [x] else a[1..];
        assert [a[0]] + (Weave(pattern[1..], a[1..], b).value + [x]) == Weave(pattern, a, b).value + [x];
      } else {
        WeaveAppend(pattern[1..], a, b[1..], left, x);
        assert d[1..] == if left then b[1..] else b[1..] + [x];
        assert [b[0]] + (Weave(pattern[1..], a, b[1..]).value + [x]) == Weave(pattern, a, b).value + [x];
      }
    }
  }

  lemma {:induction false} WeaveCounts(pattern: seq<bool>, a: seq<string>, b: seq<string>)
    requires Weave(pattern, a, b).Some?
    ensures var file := Weave(pattern, a, b).value;
            |file| == |a| + |b| && multiset(file) == multiset(a) + multiset(b)
    decreases |pattern|
  {
    if pattern != [] {
      if pattern[0] {
        WeaveCounts(pattern[1..], a[1..], b);
        assert a == [a[0]] + a[1..];
      } else {
        WeaveCounts(pattern[1..], a, b[1..]);
        assert b == [b[0]] + b[1..];
      }
    }
  }

  // ---------------------------------------------------------------- sampling

  function IndexOf(draw: nat, n: nat): nat {
    if n == 0 then 0 else draw % n
  }

  /** The indices that these draws stand for in a file of `n` objects. */
  function Indices(draws: seq<nat>, n: nat): set<nat> {
    set d | d in draws :: IndexOf(d, n)
  }

  /** The first `k` draws, and no fewer, stand for `quota` indices. */
  predicate CutAt(draws: seq<nat>, n: nat, quota: nat, k: nat) {
    k <= |draws| && |Indices(draws[..k], n)| == quota && forall i :: 0 <= i < k ==> |Indices(draws[..i], n)| < quota
  }

  lemma IndicesNext(draws: seq<nat>, n: nat, k: nat)
    requires k < |draws|
    ensures Indices(draws[..k + 1], n) == Indices(draws[..k], n) + {IndexOf(draws[k], n)}
  {
    assert draws[..k + 1] == draws[..k] + [draws[k]];
    assert draws[k] in draws[..k + 1];
    assert forall d :: d in draws[..k] ==> d in draws[..k + 1];
  }

  lemma IndicesOfAll(draws: seq<nat>, n: nat, k: nat)
    requires k <= |draws|
    ensures Indices(draws[..0], n) == {} && Indices(draws[..|draws|], n) == Indices(draws, n)
    ensures |Indices(draws[..k], n)| <= |Indices(draws, n)|
  {
    assert draws[..|draws|] == draws;
    assert forall d :: d in draws[..k] ==> d in draws;
    SubsetIsNoLarger(Indices(draws[..k], n), Indices(draws, n));
  }

  lemma SubsetIsNoLarger(a: set<nat>, b: set<nat>)
    requires a <= b
    ensures |a| <= |b|
  {
    assert b == a + (b - a);
  }

  lemma OneMore(a: set<nat>, x: nat)
    ensures |a + {x}| <= |a| + 1
  {
  }

  /** `while (rands.size() < quota) rands.insert(rand() % n)`, for as long as there are draws. */
  method Sample(n: nat, quota: nat, draws: seq<nat>) returns (rands: set<nat>, used: nat)
    requires quota <= n
    ensures |rands| <= quota && (forall i :: i in rands ==> i < n)
    ensures used <= |draws| && rands == Indices(draws[..used], n)
    ensures if |rands| == quota then CutAt(draws, n, quota, used)
            else forall k :: 0 <= k <= |draws| ==> |Indices(draws[..k], n)| < quota
  {
    hide Indices;
    rands, used := {}, 0;
    IndicesOfAll(draws, n, 0);
    while |rands| < quota && used < |draws|
      invariant |rands| <= quota && (forall i :: i in rands ==> i < n)
      invariant used <= |draws| && rands == Indices(draws[..used], n)
      invariant forall k :: 0 <= k < used ==> |Indices(draws[..k], n)| < quota
      decreases |draws| - used
    {
      IndicesNext(draws, n, used);
      OneMore(rands, draws[used] % n);
      assert IndexOf(draws[used], n) == draws[used] % n;
      rands := rands + {draws[used] % n};
      used := used + 1;
    }
  }

  /** The members of `rands` below `k`. */
  function Below(rands: set<nat>, k: nat): set<nat> {
    set i | i in rands && i < k
  }

  lemma BelowNext(rands: set<nat>, k: nat)
    ensures |Below(rands, k + 1)| == |Below(rands, k)| + if k in rands then 1 else 0
  {
    if k in rands {
      assert Below(rands, k + 1) == Below(rands, k) + {k};
    } else {
      assert Below(rands, k + 1) == Below(rands, k);
    }
  }

  /** Splits one file by the indices drawn. */
  method SplitByIndex(objects: seq<string>, rands: set<nat>) returns (l: Lists)
    requires forall i :: i in rands ==> i < |objects|
    ensures Weave(Marks(|objects|, rands), l.ssd, l.hdd) == Some(objects) && |l.ssd| == |rands|
  {
    var ssd, hdd := [], [];
    ghost var pattern: seq<bool> := [];
    assert Weave(pattern, ssd, hdd) == Some([]);
    assert Below(rands, 0) == {};
    for i := 0 to |objects|
      invariant Weave(pattern, ssd, hdd) == Some(objects[..i])
      invariant |ssd| == |Below(rands, i)| && pattern == Marks(i, rands)
    {
      WeaveAppend(pattern, ssd, hdd, i in rands, objects[i]);
      BelowNext(rands, i);
      assert objects[..i] + [objects[i]] == objects[..i + 1];
      pattern := pattern + [i in rands];
      if i in rands {
        ssd := ssd + [objects[i]];
      } else {
        hdd := hdd + [objects[i]];
      }
    }
    assert objects[..|objects|] == objects;
    assert Below(rands, |objects|) == rands;
    l := Lists(ssd, hdd);
  }

  /** The objects of `s` that are in `chosen`. */
  function Members(s: seq<string>, chosen: set<string>): seq<string> {
    if s == [] then [] else (if s[0] in chosen then [s[0]] else []) + Members(s[1..], chosen)
  }

  lemma {:induction false} MembersOfConcat(a: seq<string>, b: seq<string>, chosen: set<string>)
    ensures Members(a + b, chosen) == Members(a, chosen) + Members(b, chosen)
  {
    if a == [] {
      assert a + b == b;
    } else {
      assert (a + b)[0] == a[0] && (a + b)[1..] == a[1..] + b;
      MembersOfConcat(a[1..], b, chosen);
      var first := if a[0] in chosen then [a[0]] else [];
      assert Members(a + b, chosen) == first + Members(a[1..] + b, chosen);
      assert Members(a, chosen) == first + Members(a[1..], chosen);
      hide Members;
      ConcatAssociates(first, Members(a[1..], chosen), Members(b, chosen));
    }
  }

  lemma ConcatAssociates(a: seq<string>, b: seq<string>, c: seq<string>)
    ensures a + b + c == a + (b + c)
  {
  }

  /** Splits one file by membership. */
  method SplitByMembership(objects: seq<string>, chosen: set<string>) returns (l: Lists)
    ensures Weave(Chosen(objects, chosen), l.ssd, l.hdd) == Some(objects) && l.ssd == Members(objects, chosen)
  {
    var ssd, hdd := [], [];
    ghost var pattern: seq<bool> := [];
    assert Weave(pattern, ssd, hdd) == Some([]);
    for i := 0 to |objects|
      invariant Weave(pattern, ssd, hdd) == Some(objects[..i])
      invariant ssd == Members(objects[..i], chosen) && pattern == Chosen(objects, chosen)[..i]
    {
      WeaveAppend(pattern, ssd, hdd, objects[i] in chosen, objects[i]);
      assert objects[..i] + [objects[i]] == objects[..i + 1];
      MembersOfConcat(objects[..i], [objects[i]], chosen);
      assert [objects[i]][1..] == [];
      pattern := pattern + [objects[i] in chosen];
      if objects[i] in chosen {
        ssd := ssd + [objects[i]];
      } else {
        hdd := hdd + [objects[i]];
      }
    }
    assert objects[..|objects|] == objects && Chosen(objects, chosen)[..|objects|] == Chosen(objects, chosen);
    l := Lists(ssd, hdd);
  }

  // ---------------------------------------------------------------- repeated objects

  /** Counts how often each object is listed, and says whether one is listed twice. */
  method HasRepeats(files: seq<seq<string>>) returns (repeats: bool)
    ensures repeats <==> !Distinct(Flat(files))
  {
    hide Distinct, Counts;
    var counts: map<string, nat> := map[];
    ghost var flat: seq<string> := [];
    CountsNone();
    for f := 0 to |files|
      invariant flat + Flat(files[f..]) == Flat(files)
      invariant Counts(counts, flat)
    {
      FlatNext(files, f);
      counts := CountFile(files[f], counts, flat);
      flat := flat + files[f];
    }
    assert flat == Flat(files);
    repeats := exists x :: x in counts && counts[x] > 1;
    RepeatsIff(flat, counts);
  }

  method CountFile(objects: seq<string>, before: map<string, nat>, ghost flat: seq<string>) returns (counts: map<string, nat>)
    requires Counts(before, flat)
    ensures Counts(counts, flat + objects)
  {
    hide Counts;
    counts := before;
    assert flat + objects[..0] == flat;
    for i := 0 to |objects|
      invariant Counts(counts, flat + objects[..i])
    {
      var x := objects[i];
      CountsNext(counts, flat + objects[..i], x);
      assert flat + objects[..i] + [x] == flat + objects[..i + 1];
      counts := counts[x := if x in counts then counts[x] + 1 else 1];
    }
    assert objects[..|objects|] == objects;
  }

  lemma FlatNext(files: seq<seq<string>>, f: nat)
    requires f < |files|
    ensures Flat(files[f..]) == files[f] + Flat(files[f + 1..])
  {
    assert files[f..][0] == files[f] && files[f..][1..] == files[f + 1..];
  }

  lemma CountsNone()
    ensures Counts(map[], [])
  {
  }

  lemma CountsNext(counts: map<string, nat>, flat: seq<string>, x: string)
    requires Counts(counts, flat)
    ensures Counts(counts[x := if x in counts then counts[x] + 1 else 1], flat + [x])
  {
    if x !in counts {
      assert x !in flat;
    }
  }

  predicate Counts(counts: map<string, nat>, flat: seq<string>) {
    && (forall x :: x in flat ==> x in counts)
    && (forall x :: x in counts ==> x in flat && counts[x] == multiset(flat)[x])
  }

  lemma RepeatsIff(flat: seq<string>, counts: map<string, nat>)
    requires Counts(counts, flat)
    ensures (exists x :: x in counts && counts[x] > 1) <==> !Distinct(flat)
  {
    if x :| x in counts && counts[x] > 1 {
      if Distinct(flat) {
        DistinctOnce(flat, x);
      }
    }
    if i, j :| 0 <= i < j < |flat| && flat[i] == flat[j] {
      assert flat == flat[..i] + [flat[i]] + flat[i + 1..j] + [flat[j]] + flat[j + 1..];
      assert multiset(flat)[flat[i]] >= 2;
      assert flat[i] in flat;
    }
  }

  lemma {:induction false} DistinctOnce(s: seq<string>, x: string)
    requires Distinct(s)
    ensures multiset(s)[x] <= 1
  {
    if s != [] {
      assert s == [s[0]] + s[1..];
      assert forall i, j :: 0 <= i < j < |s[1..]| ==> s[1..][i] == s[i + 1] && s[1..][j] == s[j + 1];
      DistinctOnce(s[1..], x);
      assert s[0] !in s[1..];
    }
  }

  // ---------------------------------------------------------------- quotas

  lemma MulMono(a: nat, b: nat, d: nat)
    ensures a <= b ==> a * d <= b * d
  {
  }

  /** Division by a positive number rounds down. */
  lemma QuotientBelow(x: nat, k: nat, d: nat)
    requires d > 0 && x < k * d
    ensures x / d < k
  {
    var p := x / d;
    assert x == p * d + x % d;
    MulMono(k, p, d);
  }

  lemma QuotaFits(n: nat, ssd: nat, hdd: nat)
    requires ssd + hdd > 0
    ensures Quota(n, ssd, hdd) <= n
  {
    var d := hdd + ssd;
    MulMono(ssd, d, n);
    assert (n + 1) * d == n * d + d;
    QuotientBelow(n * ssd, n + 1, d);
  }

  function Total(sizes: seq<nat>): nat {
    if sizes == [] then 0 else sizes[0] + Total(sizes[1..])
  }

  function TotalQuota(sizes: seq<nat>, ssd: nat, hdd: nat): nat
    requires ssd + hdd > 0
  {
    if sizes == [] then 0 else Quota(sizes[0], ssd, hdd) + TotalQuota(sizes[1..], ssd, hdd)
  }

  /** What the per-file quotas round away. */
  function Rounded(sizes: seq<nat>, ssd: nat, hdd: nat): nat
    requires ssd + hdd > 0
  {
    if sizes == [] then 0 else (sizes[0] * ssd) % (hdd + ssd) + Rounded(sizes[1..], ssd, hdd)
  }

  lemma AddUp(n: nat, t: nat, ssd: nat, q: nat, r: nat, tq: nat, tr: nat, d: nat)
    requires n * ssd == q * d + r && t * ssd == tq * d + tr
    ensures (n + t) * ssd == (q + tq) * d + (r + tr)
  {
    assert (n + t) * ssd == n * ssd + t * ssd;
    assert (q + tq) * d == q * d + tq * d;
  }

  lemma {:induction false} QuotasAddUp(sizes: seq<nat>, ssd: nat, hdd: nat)
    requires ssd + hdd > 0
    ensures Total(sizes) * ssd == TotalQuota(sizes, ssd, hdd) * (hdd + ssd) + Rounded(sizes, ssd, hdd)
  {
    if sizes != [] {
      var d := hdd + ssd;
      var n, rest := sizes[0], sizes[1..];
      QuotasAddUp(rest, ssd, hdd);
      var x := n * ssd;
      assert x == x / d * d + x % d;
      AddUp(n, Total(rest), ssd, x / d, x % d, TotalQuota(rest, ssd, hdd), Rounded(rest, ssd, hdd), d);
    }
  }

  lemma {:induction false} RoundedBelow(sizes: seq<nat>, ssd: nat, hdd: nat)
    requires ssd + hdd > 0
    ensures Rounded(sizes, ssd, hdd) <= |sizes| * (hdd + ssd)
    ensures sizes != [] ==> Rounded(sizes, ssd, hdd) < |sizes| * (hdd + ssd)
  {
    if sizes != [] {
      var d := hdd + ssd;
      RoundedBelow(sizes[1..], ssd, hdd);
      assert |sizes| * d == |sizes[1..]| * d + d;
    }
  }

  lemma QuotientOfSum(q: nat, r: nat, d: nat)
    requires d > 0
    ensures (q * d + r) / d == q + r / d
  {
    var x := q * d + r;
    assert r == r / d * d + r % d;
    assert (q + r / d) * d == q * d + r / d * d;
    DivisionIsUnique(x, q + r / d, r % d, d);
  }

  lemma DivisionIsUnique(x: nat, q: nat, r: nat, d: nat)
    requires d > 0 && x == q * d + r && r < d
    ensures x / d == q
  {
    var p := x / d;
    assert x == p * d + x % d;
    assert (p + 1) * d == p * d + d && (q + 1) * d == q * d + d;
    MulMono(p + 1, q, d);
    MulMono(q + 1, p, d);
  }

  /** The oblivious placer puts exactly as many more objects on SSD as the per-file quotas have rounded
      away, counted in whole objects: never fewer than the hinted placer, and at most one less than the
      number of files more. */
  lemma PoliciesAgree(sizes: seq<nat>, ssd: nat, hdd: nat)
    requires ssd + hdd > 0 && sizes != []
    ensures var hinted, oblivious := TotalQuota(sizes, ssd, hdd), Quota(Total(sizes), ssd, hdd);
            && oblivious == hinted + Rounded(sizes, ssd, hdd) / (hdd + ssd)
            && hinted <= oblivious <= hinted + |sizes| - 1
  {
    hide Total, TotalQuota, Rounded;
    var d, lost := hdd + ssd, Rounded(sizes, ssd, hdd);
    QuotasAddUp(sizes, ssd, hdd);
    QuotientOfSum(TotalQuota(sizes, ssd, hdd), lost, d);
    RoundedBelow(sizes, ssd, hdd);
    QuotientBelow(lost, |sizes|, d);
  }

  // ---------------------------------------------------------------- the placers

  /** The draws can be cut into one piece for each file that fills its quota and is no longer than that takes. */
  ghost predicate Suffices(files: seq<seq<string>>, ssd: nat, hdd: nat, draws: seq<nat>)
    requires ssd + hdd > 0
  {
    files == [] ||
    exists k: nat :: CutAt(draws, |files[0]|, Quota(|files[0]|, ssd, hdd), k) && Suffices(files[1..], ssd, hdd, draws[k..])
  }

  lemma CutIsUnique(draws: seq<nat>, n: nat, quota: nat, k: nat, l: nat)
    requires CutAt(draws, n, quota, k) && CutAt(draws, n, quota, l)
    ensures k == l
  {
  }

  lemma SufficesNext(files: seq<seq<string>>, ssd: nat, hdd: nat, draws: seq<nat>, k: nat)
    requires ssd + hdd > 0 && files != [] && CutAt(draws, |files[0]|, Quota(|files[0]|, ssd, hdd), k)
    ensures Suffices(files, ssd, hdd, draws) <==> Suffices(files[1..], ssd, hdd, draws[k..])
  {
    if Suffices(files, ssd, hdd, draws) {
      var l: nat :| CutAt(draws, |files[0]|, Quota(|files[0]|, ssd, hdd), l) && Suffices(files[1..], ssd, hdd, draws[l..]);
      CutIsUnique(draws, |files[0]|, Quota(|files[0]|, ssd, hdd), k, l);
    }
  }

  /** Some draw of `piece` picks the object at `i` of a file of `n` objects. */
  ghost predicate Drawn(piece: seq<nat>, n: nat, i: nat) {
    exists k :: 0 <= k < |piece| && n > 0 && piece[k] % n == i
  }

  /** The SSD list has the objects of the file that the draws pick, and the HDD list has the others. */
  ghost predicate SplitByDraws(file: seq<string>, l: Lists, piece: seq<nat>) {
    exists pattern: seq<bool> ::
      && |pattern| == |file| && (forall i :: 0 <= i < |file| ==> (pattern[i] <==> Drawn(piece, |file|, i)))
      && Weave(pattern, l.ssd, l.hdd) == Some(file)
  }

  /** The draws between two cuts, and no fewer, fill the SSD list of the file and decide what is on it. */
  ghost predicate ServedBy(file: seq<string>, l: Lists, draws: seq<nat>, from: nat, to: nat) {
    && from <= to <= |draws| && SplitByDraws(file, l, draws[from..to])
    && CutAt(draws[from..to], |file|, |l.ssd|, to - from)
  }

  /** Consecutive pieces of the draws, one for each file, serve the files. */
  ghost predicate ServedInTurn(files: seq<seq<string>>, lists: seq<Lists>, draws: seq<nat>, cuts: seq<nat>) {
    && |lists| == |files| && |cuts| == |files| + 1 && cuts[0] == 0
    && forall f :: 0 <= f < |files| ==> ServedBy(files[f], lists[f], draws, cuts[f], cuts[f + 1])
  }

  lemma MarksAreDraws(file: seq<string>, l: Lists, piece: seq<nat>)
    requires Weave(Marks(|file|, Indices(piece, |file|)), l.ssd, l.hdd) == Some(file)
    ensures SplitByDraws(file, l, piece)
  {
    var pattern := Marks(|file|, Indices(piece, |file|));
    forall i | 0 <= i < |file|
      ensures pattern[i] <==> Drawn(piece, |file|, i)
    {
      if pattern[i] {
        var d :| d in piece && IndexOf(d, |file|) == i;
        var k :| 0 <= k < |piece| && piece[k] == d;
        assert piece[k] % |file| == i;
      }
      if k :| 0 <= k < |piece| && piece[k] % |file| == i {
        assert piece[k] in piece && IndexOf(piece[k], |file|) == i;
      }
    }
  }

  lemma CutOfPiece(draws: seq<nat>, n: nat, quota: nat, from: nat, used: nat)
    requires from + used <= |draws| && CutAt(draws[from..], n, quota, used)
    ensures CutAt(draws[from..from + used], n, quota, used)
  {
    var left, piece := draws[from..], draws[from..from + used];
    assert left[..used] == piece && piece[..used] == piece;
    assert forall i :: 0 <= i < used ==> left[..i] == piece[..i];
  }

  lemma IsServed(file: seq<string>, l: Lists, draws: seq<nat>, from: nat, used: nat, rands: set<nat>)
    requires from + used <= |draws| && rands == Indices(draws[from..][..used], |file|)
    requires Weave(Marks(|file|, rands), l.ssd, l.hdd) == Some(file) && |l.ssd| == |rands|
    requires CutAt(draws[from..], |file|, |rands|, used)
    ensures ServedBy(file, l, draws, from, from + used)
  {
    assert draws[from..][..used] == draws[from..from + used];
    MarksAreDraws(file, l, draws[from..from + used]);
    CutOfPiece(draws, |file|, |rands|, from, used);
  }

  lemma QuotaBounds(n: nat, ssd: nat, hdd: nat)
    requires ssd + hdd > 0
    ensures var q := Quota(n, ssd, hdd); q * (ssd + hdd) <= n * ssd < (q + 1) * (ssd + hdd)
  {
    var x, d := n * ssd, hdd + ssd;
    assert x == x / d * d + x % d;
    assert (x / d + 1) * d == x / d * d + d;
  }

  /** The placer that is told which file is next: every file gets its own quota. */
  method PlaceHinted(files: seq<seq<string>>, ssd: nat, hdd: nat, draws: seq<nat>) returns (o: Outcome)
    ensures o == Repeated <==> !Distinct(Flat(files))
    ensures o == DividesByZero <==> Distinct(Flat(files)) && files != [] && ssd + hdd == 0
    ensures o == Undecided <==> Distinct(Flat(files)) && ssd + hdd > 0 && !Suffices(files, ssd, hdd, draws)
    ensures o.Placed? ==> |o.lists| == |files| && forall f :: 0 <= f < |files| ==>
      StablePartition(files[f], o.lists[f]) && ssd + hdd > 0 && |o.lists[f].ssd| == Quota(|files[f]|, ssd, hdd)
    ensures o.Placed? ==> forall f :: 0 <= f < |files| ==>
      var q := |o.lists[f].ssd|; q * (ssd + hdd) <= |files[f]| * ssd < (q + 1) * (ssd + hdd)
    ensures o.Placed? ==> exists cuts :: ServedInTurn(files, o.lists, draws, cuts)
  {
    hide Distinct, StablePartition, Suffices, CutAt, Indices, ServedBy;
    var repeats := HasRepeats(files);
    if repeats {
      return Repeated;
    }
    var lists: seq<Lists> := [];
    var left := draws;
    ghost var cuts: seq<nat> := [0];
    assert files[0..] == files;
    for f := 0 to |files|
      invariant |lists| == f && (f > 0 ==> ssd + hdd > 0)
      invariant |cuts| == f + 1 && cuts[0] == 0 && cuts[f] <= |draws| && left == draws[cuts[f]..]
      invariant forall g :: 0 <= g < f ==> ServedBy(files[g], lists[g], draws, cuts[g], cuts[g + 1])
      invariant forall g :: 0 <= g < f ==>
                  var q := |lists[g].ssd|; q * (ssd + hdd) <= |files[g]| * ssd < (q + 1) * (ssd + hdd)
      invariant ssd + hdd > 0 ==> (Suffices(files[f..], ssd, hdd, left) <==> Suffices(files, ssd, hdd, draws))
      invariant forall g :: 0 <= g < f ==>
                  StablePartition(files[g], lists[g]) && |lists[g].ssd| == Quota(|files[g]|, ssd, hdd)
    {
      if ssd + hdd == 0 {
        return DividesByZero;
      }
      var quota := Quota(|files[f]|, ssd, hdd);
      QuotaFits(|files[f]|, ssd, hdd);
      assert files[f..][0] == files[f] && files[f..][1..] == files[f + 1..];
      var rands, used := Sample(|files[f]|, quota, left);
      if |rands| < quota {
        ShortDraws(files[f..], ssd, hdd, left);
        return Undecided;
      }
      SufficesNext(files[f..], ssd, hdd, left, used);
      var l := SplitByIndex(files[f], rands);
      IsServed(files[f], l, draws, cuts[f], used, rands);
      QuotaBounds(|files[f]|, ssd, hdd);
      assert left[used..] == draws[cuts[f] + used..];
      left := left[used..];
      cuts := cuts + [cuts[f] + used];
      IsStable(files[f], l, Marks(|files[f]|, rands));
      lists := lists + [l];
    }
    AllServed(files[|files|..], ssd, hdd, left);
    assert ServedInTurn(files, lists, draws, cuts);
    o := Placed(lists);
  }

  lemma ShortDraws(files: seq<seq<string>>, ssd: nat, hdd: nat, draws: seq<nat>)
    requires ssd + hdd > 0 && files != []
    requires forall k :: 0 <= k <= |draws| ==> |Indices(draws[..k], |files[0]|)| < Quota(|files[0]|, ssd, hdd)
    ensures !Suffices(files, ssd, hdd, draws)
  {
    assert forall k: nat :: !CutAt(draws, |files[0]|, Quota(|files[0]|, ssd, hdd), k);
  }

  lemma AllServed(files: seq<seq<string>>, ssd: nat, hdd: nat, draws: seq<nat>)
    ensures files == [] && ssd + hdd > 0 ==> Suffices(files, ssd, hdd, draws)
  {
  }

  lemma IsStable(file: seq<string>, l: Lists, pattern: seq<bool>)
    requires Weave(pattern, l.ssd, l.hdd) == Some(file)
    ensures StablePartition(file, l)
  {
  }

  function OnSsd(lists: seq<Lists>): nat {
    if lists == [] then 0 else |lists[0].ssd| + OnSsd(lists[1..])
  }

  lemma {:induction false} OnSsdAppend(lists: seq<Lists>, l: Lists)
    ensures OnSsd(lists + [l]) == OnSsd(lists) + |l.ssd|
  {
    if lists == [] {
      assert lists + [l] == [l];
      assert [l][1..] == [];
    } else {
      assert (lists + [l])[1..] == lists[1..] + [l];
      OnSsdAppend(lists[1..], l);
    }
  }

  /** `all` lists the objects of all files, each once, in whatever order the map keeps them. */
  ghost predicate Enumerates(all: seq<string>, flat: seq<string>) {
    Distinct(all) && (forall x :: x in all <==> x in flat)
  }

  lemma {:induction false} MembersAreChosen(s: seq<string>, chosen: set<string>)
    requires Distinct(s) && forall x :: x in chosen ==> x in s
    ensures |Members(s, chosen)| == |chosen|
  {
    if s == [] {
      assert chosen == {};
    } else {
      var x, rest := s[0], s[1..];
      assert forall i, j :: 0 <= i < j < |rest| ==> rest[i] == s[i + 1] && rest[j] == s[j + 1];
      assert x !in rest;
      MembersAreChosen(rest, chosen - {x});
      MembersWithout(rest, chosen, x);
      assert chosen - {x} == if x in chosen then chosen - {x} else chosen;
    }
  }

  lemma {:induction false} MembersWithout(s: seq<string>, chosen: set<string>, x: string)
    requires x !in s
    ensures Members(s, chosen) == Members(s, chosen - {x})
  {
    if s != [] {
      MembersWithout(s[1..], chosen, x);
    }
  }

  lemma ChosenByIndex(all: seq<string>, rands: set<nat>, chosen: set<string>)
    requires Distinct(all) && forall i :: i in rands ==> i < |all|
    requires chosen == set i | i in rands :: all[i]
    ensures |chosen| == |rands|
    decreases rands
  {
    if rands != {} {
      var i :| i in rands;
      var rest := set j | j in rands - {i} :: all[j];
      ChosenByIndex(all, rands - {i}, rest);
      assert all[i] !in rest;
      hide Distinct;
      assert forall x :: x in chosen <==> x in rest + {all[i]};
      assert chosen == rest + {all[i]};
    }
  }

  /** The SSD list has the objects of the file that the draws pick out of `all`. */
  ghost predicate SplitByPicks(file: seq<string>, l: Lists, all: seq<string>, piece: seq<nat>) {
    exists pattern: seq<bool> ::
      && |pattern| == |file| && (forall i :: 0 <= i < |file| ==> (pattern[i] <==> Picked(piece, all, file[i])))
      && Weave(pattern, l.ssd, l.hdd) == Some(file)
  }

  ghost predicate Picked(piece: seq<nat>, all: seq<string>, x: string) {
    exists k :: 0 <= k < |piece| && |all| > 0 && all[piece[k] % |all|] == x
  }

  /** The first `k` draws, and no fewer, fill the SSD lists of all files together and decide what is on them. */
  ghost predicate ServedAtOnce(files: seq<seq<string>>, lists: seq<Lists>, all: seq<string>, draws: seq<nat>, k: nat) {
    && |lists| == |files| && CutAt(draws, |all|, OnSsd(lists), k)
    && forall f :: 0 <= f < |files| ==> SplitByPicks(files[f], lists[f], all, draws[..k])
  }

  lemma ChosenArePicked(file: seq<string>, l: Lists, all: seq<string>, piece: seq<nat>, chosen: set<string>)
    requires all == [] ==> piece == []
    requires chosen == set i | i in Indices(piece, |all|) && i < |all| :: all[i]
    requires Weave(Chosen(file, chosen), l.ssd, l.hdd) == Some(file)
    ensures SplitByPicks(file, l, all, piece)
  {
    var pattern := Chosen(file, chosen);
    forall i | 0 <= i < |file|
      ensures pattern[i] <==> Picked(piece, all, file[i])
    {
      if pattern[i] {
        var j :| j in Indices(piece, |all|) && j < |all| && all[j] == file[i];
        var d :| d in piece && IndexOf(d, |all|) == j;
        var k :| 0 <= k < |piece| && piece[k] == d;
        assert all[piece[k] % |all|] == file[i];
      }
      if k :| 0 <= k < |piece| && |all| > 0 && all[piece[k] % |all|] == file[i] {
        assert piece[k] in piece && IndexOf(piece[k], |all|) == piece[k] % |all|;
        assert IndexOf(piece[k], |all|) in Indices(piece, |all|);
      }
    }
  }

  /** The placer that is not told: one quota for the objects of all files together. */
  method PlaceOblivious(files: seq<seq<string>>, all: seq<string>, ssd: nat, hdd: nat, draws: seq<nat>) returns (o: Outcome)
    requires Enumerates(all, Flat(files))
    ensures o == Repeated <==> !Distinct(Flat(files))
    ensures o == DividesByZero <==> Distinct(Flat(files)) && ssd + hdd == 0
    ensures o == Undecided <==>
      Distinct(Flat(files)) && ssd + hdd > 0 && |Indices(draws, |Flat(files)|)| < Quota(|Flat(files)|, ssd, hdd)
    ensures o.Placed? ==> |o.lists| == |files| && (forall f :: 0 <= f < |files| ==> StablePartition(files[f], o.lists[f]))
    ensures o.Placed? ==> ssd + hdd > 0 && OnSsd(o.lists) == Quota(|Flat(files)|, ssd, hdd)
    ensures o.Placed? ==>
      var q := OnSsd(o.lists); q * (ssd + hdd) <= |Flat(files)| * ssd < (q + 1) * (ssd + hdd)
    ensures o.Placed? ==> exists k :: ServedAtOnce(files, o.lists, all, draws, k)
  {
    hide Distinct, StablePartition, CutAt, Indices, Members, OnSsd, Flat, Quota, Weave, Chosen, ServedAtOnce;
    var repeats := HasRepeats(files);
    if repeats {
      return Repeated;
    }
    if ssd + hdd == 0 {
      return DividesByZero;
    }
    SameLength(all, Flat(files));
    QuotaFits(|all|, ssd, hdd);
    var quota := Quota(|all|, ssd, hdd);
    var rands, used := Sample(|all|, quota, draws);
    IndicesOfAll(draws, |all|, used);
    if |rands| < quota {
      return Undecided;
    }
    var chosen := set i | i in rands :: all[i];
    ChosenByIndex(all, rands, chosen);
    MembersAreChosen(Flat(files), chosen);
    var lists := SplitAll(files, chosen);
    QuotaBounds(|all|, ssd, hdd);
    AreServed(files, lists, all, draws, used, rands, chosen);
    o := Placed(lists);
  }

  lemma AreServed(files: seq<seq<string>>, lists: seq<Lists>, all: seq<string>, draws: seq<nat>, k: nat,
                  rands: set<nat>, chosen: set<string>)
    requires |lists| == |files| && OnSsd(lists) <= |all| && CutAt(draws, |all|, OnSsd(lists), k)
    requires rands == Indices(draws[..k], |all|) && forall i :: i in rands ==> i < |all|
    requires chosen == set i | i in rands :: all[i]
    requires forall f :: 0 <= f < |files| ==> Weave(Chosen(files[f], chosen), lists[f].ssd, lists[f].hdd) == Some(files[f])
    ensures ServedAtOnce(files, lists, all, draws, k)
  {
    assert k > 0 ==> |Indices(draws[..0], |all|)| < OnSsd(lists);
    assert chosen == set i | i in Indices(draws[..k], |all|) && i < |all| :: all[i];
    forall f | 0 <= f < |files|
      ensures SplitByPicks(files[f], lists[f], all, draws[..k])
    {
      ChosenArePicked(files[f], lists[f], all, draws[..k], chosen);
    }
  }

  method SplitAll(files: seq<seq<string>>, chosen: set<string>) returns (lists: seq<Lists>)
    ensures |lists| == |files| && (forall f :: 0 <= f < |files| ==> StablePartition(files[f], lists[f]))
    ensures forall f :: 0 <= f < |files| ==> Weave(Chosen(files[f], chosen), lists[f].ssd, lists[f].hdd) == Some(files[f])
    ensures OnSsd(lists) == |Members(Flat(files), chosen)|
  {
    lists := [];
    for f := 0 to |files|
      invariant |lists| == f && (forall g :: 0 <= g < f ==> StablePartition(files[g], lists[g]))
      invariant forall g :: 0 <= g < f ==> Weave(Chosen(files[g], chosen), lists[g].ssd, lists[g].hdd) == Some(files[g])
      invariant OnSsd(lists) + |Members(Flat(files[f..]), chosen)| == |Members(Flat(files), chosen)|
    {
      FlatNext(files, f);
      MembersOfConcat(files[f], Flat(files[f + 1..]), chosen);
      var l := SplitByMembership(files[f], chosen);
      OnSsdAppend(lists, l);
      lists := lists + [l];
    }
  }

  lemma SameLength(a: seq<string>, b: seq<string>)
    requires Distinct(a) && Distinct(b) && forall x :: x in a <==> x in b
    ensures |a| == |b|
  {
    var elements := set x | x in a;
    MembersAreChosen(a, elements);
    MembersAreChosen(b, elements);
    AllMembers(a, elements);
    AllMembers(b, elements);
  }

  lemma {:induction false} AllMembers(s: seq<string>, chosen: set<string>)
    requires forall x :: x in s ==> x in chosen
    ensures Members(s, chosen) == s
  {
    if s != [] {
      assert s[0] in s;
      AllMembers(s[1..], chosen);
    }
  }
}
