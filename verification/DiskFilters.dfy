/**
 Disk filters: `DiskFilter.Match` and the elimination loop that hands each disk to the first filter that matches it.
 A filter expression is an arbitrary test that may fail to parse or to evaluate.
 */
module DiskFilters {
  import opened Services
  import opened Tallies

  datatype Disk = Disk(id: string, deviceId: string, devicePath: string, partitions: nat)

  datatype Filter = Filter(find: string, findMin: int, findMax: int, wipe: bool, encrypt: bool)

  // `test` is None when evaluating the expression on the disk fails.
  datatype Matcher = Matcher(parses: string -> bool, test: (string, Disk) -> Option<bool>)

  function FormatDiskPath(d: Disk): string {
    if d.deviceId != "" then "/dev/disk/by-id/" + d.deviceId
    else if d.devicePath != "" then "/dev/disk/by-path/" + d.devicePath
    else "/dev/" + d.id
  }

  predicate Hits(m: Matcher, f: Filter, d: Disk) {
    m.test(f.find, d) == Some(true)
  }

  /** The position of the first filter that matches `d`, or the number of filters if there is none. */
  function Least(m: Matcher, filters: seq<Filter>, d: Disk): (r: nat)
    ensures r <= |filters|
    ensures forall i :: 0 <= i < r ==> !Hits(m, filters[i], d)
    ensures r < |filters| ==> Hits(m, filters[r], d)
  {
    if filters == [] then 0
    else if Hits(m, filters[0], d) then 0
    else 1 + Least(m, filters[1..], d)
  }

  /** The elements that satisfy `p`, in order. */
  function Keep(p: Disk -> bool, disks: seq<Disk>): (r: seq<Disk>)
    ensures forall d :: d in r <==> d in disks && p(d)
  {
    if disks == [] then []
    else
      var front, last := Keep(p, disks[..|disks| - 1]), disks[|disks| - 1];
      if p(last) then front + [last] else front
  }

  lemma KeepAppend(p: Disk -> bool, disks: seq<Disk>, d: Disk)
    ensures Keep(p, disks + [d]) == Keep(p, disks) + if p(d) then [d] else []
  {
    assert (disks + [d])[..|disks|] == disks;
  }

  lemma {:induction false} KeepSame(p: Disk -> bool, q: Disk -> bool, disks: seq<Disk>)
    requires forall d :: d in disks ==> p(d) == q(d)
    ensures Keep(p, disks) == Keep(q, disks)
  {
    if disks != [] {
      KeepSame(p, q, disks[..|disks| - 1]);
      assert disks[|disks| - 1] in disks;
    }
  }

  lemma {:induction false} KeepTwice(p: Disk -> bool, q: Disk -> bool, disks: seq<Disk>)
    ensures Keep(p, Keep(q, disks)) == Keep(d => p(d) && q(d), disks)
  {
    if disks != [] {
      var front, last := disks[..|disks| - 1], disks[|disks| - 1];
      KeepTwice(p, q, front);
      if q(last) {
        KeepAppend(p, Keep(q, front), last);
      }
    }
  }

  lemma KeepKeep(p: Disk -> bool, q: Disk -> bool, r: Disk -> bool, disks: seq<Disk>)
    requires forall d :: d in disks ==> (r(d) <==> p(d) && q(d))
    ensures Keep(p, Keep(q, disks)) == Keep(r, disks)
  {
    KeepTwice(p, q, disks);
    KeepSame(d => p(d) && q(d), r, disks);
  }

  lemma {:induction false} KeepCount(p: Disk -> bool, disks: seq<Disk>, d: Disk)
    ensures multiset(Keep(p, disks))[d] == if p(d) then multiset(disks)[d] else 0
  {
    if disks != [] {
      KeepCount(p, disks[..|disks| - 1], d);
      assert disks == disks[..|disks| - 1] + [disks[|disks| - 1]];
    }
  }

  /** What the source calls available disks: those without partitions. */
  function Unpartitioned(disks: seq<Disk>): seq<Disk> {
    Keep((d: Disk) => d.partitions == 0, disks)
  }

  function Matching(m: Matcher, f: Filter, disks: seq<Disk>): seq<Disk> {
    Keep(d => Hits(m, f, d), disks)
  }

  predicate SharesId(d: Disk, others: seq<Disk>) {
    exists i :: 0 <= i < |others| && others[i].id == d.id
  }

  function Without(disks: seq<Disk>, others: seq<Disk>): seq<Disk> {
    Keep(d => !SharesId(d, others), disks)
  }

  /** The disks still available after the first `k` filters. */
  function Left(m: Matcher, filters: seq<Filter>, k: nat, disks: seq<Disk>): seq<Disk>
    requires k <= |filters|
  {
    if k == 0 then disks
    else var left := Left(m, filters, k - 1, disks); Without(left, Matching(m, filters[k - 1], left))
  }

  /** What the filter at `i` chooses. */
  function ChosenBy(m: Matcher, filters: seq<Filter>, i: nat, disks: seq<Disk>): seq<Disk>
    requires i < |filters|
  {
    Matching(m, filters[i], Left(m, filters, i, disks))
  }

  function Posts(f: Filter, disks: seq<Disk>): (r: seq<Post>)
    ensures |r| == |disks|
  {
    seq(|disks|, j requires 0 <= j < |disks| => Post(FormatDiskPath(disks[j]), f.wipe, f.encrypt))
  }

  function Repeat(find: string, n: nat): seq<string> {
    seq(n, j => find)
  }

  /** The disks that the first `k` filters hand to MicroCeph. */
  function FilterPosts(m: Matcher, filters: seq<Filter>, k: nat, disks: seq<Disk>): seq<Post>
    requires k <= |filters|
  {
    if k == 0 then []
    else FilterPosts(m, filters, k - 1, disks) + Posts(filters[k - 1], ChosenBy(m, filters, k - 1, disks))
  }

  /** The expression that chose each of them. */
  function FilterFinds(m: Matcher, filters: seq<Filter>, k: nat, disks: seq<Disk>): seq<string>
    requires k <= |filters|
  {
    if k == 0 then []
    else FilterFinds(m, filters, k - 1, disks) + Repeat(filters[k - 1].find, |ChosenBy(m, filters, k - 1, disks)|)
  }

  lemma {:induction false} OneFindPerPost(m: Matcher, filters: seq<Filter>, k: nat, disks: seq<Disk>)
    requires k <= |filters|
    ensures |FilterFinds(m, filters, k, disks)| == |FilterPosts(m, filters, k, disks)|
  {
    if k > 0 { OneFindPerPost(m, filters, k - 1, disks); }
  }

  // ---- First match ----------------------------------------------------------------------------------------------

  /** The disks that none of the filters before `i` matches. */
  function LeastFrom(m: Matcher, filters: seq<Filter>, i: nat, disks: seq<Disk>): seq<Disk> {
    Keep(d => Least(m, filters, d) >= i, disks)
  }

  /** The disks that the filter at `i` is the first to match. */
  function LeastAt(m: Matcher, filters: seq<Filter>, i: nat, disks: seq<Disk>): seq<Disk> {
    Keep(d => Least(m, filters, d) == i, disks)
  }

  ghost predicate DistinctIds(disks: seq<Disk>) {
    forall i, j :: 0 <= i < j < |disks| ==> disks[i].id != disks[j].id
  }

  lemma DistinctIdsIdentify(disks: seq<Disk>, a: Disk, b: Disk)
    requires DistinctIds(disks) && a in disks && b in disks && a.id == b.id
    ensures a == b
  {
  }

  lemma {:induction false} KeepAll(disks: seq<Disk>)
    ensures Keep(d => true, disks) == disks
  {
    if disks != [] {
      KeepAll(disks[..|disks| - 1]);
    }
  }

  lemma MatchingLeft(m: Matcher, filters: seq<Filter>, i: nat, disks: seq<Disk>)
    requires i < |filters|
    ensures Matching(m, filters[i], LeastFrom(m, filters, i, disks)) == LeastAt(m, filters, i, disks)
  {
    KeepKeep(d => Hits(m, filters[i], d), d => Least(m, filters, d) >= i, d => Least(m, filters, d) == i, disks);
  }

  lemma WithoutLeast(m: Matcher, filters: seq<Filter>, i: nat, disks: seq<Disk>)
    requires i < |filters| && DistinctIds(disks)
    ensures Without(LeastFrom(m, filters, i, disks), LeastAt(m, filters, i, disks))
            == LeastFrom(m, filters, i + 1, disks)
  {
    var now := LeastAt(m, filters, i, disks);
    forall d | d in disks ensures SharesId(d, now) <==> Least(m, filters, d) == i {
      if Least(m, filters, d) == i {
        assert d in now;
      } else if SharesId(d, now) {
        var j :| 0 <= j < |now| && now[j].id == d.id;
        assert now[j] in now;
        DistinctIdsIdentify(disks, d, now[j]);
      }
    }
    KeepKeep(d => !SharesId(d, now), d => Least(m, filters, d) >= i, d => Least(m, filters, d) >= i + 1, disks);
  }

  lemma AllLeft(m: Matcher, filters: seq<Filter>, disks: seq<Disk>)
    ensures LeastFrom(m, filters, 0, disks) == disks
  {
    KeepSame(d => Least(m, filters, d) >= 0, d => true, disks);
    KeepAll(disks);
  }

  /** With distinct IDs, exactly the disks that none of the first `k` filters matches are left. */
  lemma {:induction false} LeftIsUnmatched(m: Matcher, filters: seq<Filter>, k: nat, disks: seq<Disk>)
    requires k <= |filters| && DistinctIds(disks)
    ensures Left(m, filters, k, disks) == LeastFrom(m, filters, k, disks)
  {
    if k == 0 {
      AllLeft(m, filters, disks);
    } else {
      LeftIsUnmatched(m, filters, k - 1, disks);
      MatchingLeft(m, filters, k - 1, disks);
      WithoutLeast(m, filters, k - 1, disks);
    }
  }

  lemma {:induction false} DistinctOnce(disks: seq<Disk>, d: Disk)
    requires DistinctIds(disks)
    ensures multiset(disks)[d] == if d in disks then 1 else 0
  {
    if disks != [] {
      var front, last := disks[..|disks| - 1], disks[|disks| - 1];
      assert DistinctIds(front);
      DistinctOnce(front, d);
      assert disks == front + [last];
      assert last !in front;
    }
  }

  lemma {:induction false} KeepDistinct(p: Disk -> bool, disks: seq<Disk>)
    requires DistinctIds(disks)
    ensures DistinctIds(Keep(p, disks))
  {
    if disks != [] {
      var front, last := disks[..|disks| - 1], disks[|disks| - 1];
      assert DistinctIds(front);
      KeepDistinct(p, front);
      forall i | 0 <= i < |Keep(p, front)| ensures Keep(p, front)[i].id != last.id {
        assert Keep(p, front)[i] in front;
      }
    }
  }

  /** With distinct IDs each filter chooses, in order, the disks that it is the first to match. */
  lemma FirstMatch(m: Matcher, filters: seq<Filter>, i: nat, disks: seq<Disk>)
    requires i < |filters| && DistinctIds(disks)
    ensures ChosenBy(m, filters, i, disks) == LeastAt(m, filters, i, disks)
  {
    LeftIsUnmatched(m, filters, i, disks);
    MatchingLeft(m, filters, i, disks);
  }

  /** For each filter in turn, the disks that it is the first to match, with its flags. */
  function FirstMatchPosts(m: Matcher, filters: seq<Filter>, k: nat, disks: seq<Disk>): seq<Post>
    requires k <= |filters|
  {
    if k == 0 then []
    else FirstMatchPosts(m, filters, k - 1, disks) + Posts(filters[k - 1], LeastAt(m, filters, k - 1, disks))
  }

  /** With distinct IDs that is what is handed to MicroCeph. */
  lemma {:induction false} PostsAreFirstMatches(m: Matcher, filters: seq<Filter>, k: nat, disks: seq<Disk>)
    requires k <= |filters| && DistinctIds(disks)
    ensures FilterPosts(m, filters, k, disks) == FirstMatchPosts(m, filters, k, disks)
  {
    if k > 0 {
      PostsAreFirstMatches(m, filters, k - 1, disks);
      PostsStep(m, filters, k, disks);
    }
  }

  lemma PostsStep(m: Matcher, filters: seq<Filter>, k: nat, disks: seq<Disk>)
    requires 0 < k <= |filters| && DistinctIds(disks)
    requires FilterPosts(m, filters, k - 1, disks) == FirstMatchPosts(m, filters, k - 1, disks)
    ensures FilterPosts(m, filters, k, disks) == FirstMatchPosts(m, filters, k, disks)
  {
    FirstMatch(m, filters, k - 1, disks);
  }

  /**
   With distinct IDs each disk is chosen exactly once if some filter matches it, and then by the first filter that
   matches it; all other disks are never chosen.
   */
  lemma ChosenExactlyOnce(m: Matcher, filters: seq<Filter>, i: nat, disks: seq<Disk>, d: Disk)
    requires i < |filters| && DistinctIds(disks)
    ensures multiset(ChosenBy(m, filters, i, disks))[d] ==
            if d in disks && Hits(m, filters[i], d) && (forall j :: 0 <= j < i ==> !Hits(m, filters[j], d)) then 1 else 0
  {
    FirstMatch(m, filters, i, disks);
    KeepCount(d => Least(m, filters, d) == i, disks, d);
    DistinctOnce(disks, d);
  }

  /**
   So on a system whose disks have distinct IDs, each disk without partitions is handed over exactly once if some filter
   matches it, by the first that does, and no other disk is.
   */
  lemma UnpartitionedOnce(m: Matcher, filters: seq<Filter>, i: nat, all: seq<Disk>, d: Disk)
    requires i < |filters| && DistinctIds(all)
    ensures multiset(ChosenBy(m, filters, i, Unpartitioned(all)))[d] ==
            if d in all && d.partitions == 0 && i == Least(m, filters, d) then 1 else 0
  {
    KeepDistinct((d: Disk) => d.partitions == 0, all);
    ChosenExactlyOnce(m, filters, i, Unpartitioned(all), d);
  }

  /** The first filter to match `d` is among the first `k` and has the expression `find`. */
  predicate Claims(m: Matcher, filters: seq<Filter>, k: nat, d: Disk, find: string)
    requires k <= |filters|
  {
    Least(m, filters, d) < k && filters[Least(m, filters, d)].find == find
  }

  function ClaimedBy(m: Matcher, filters: seq<Filter>, k: nat, disks: seq<Disk>, find: string): seq<Disk>
    requires k <= |filters|
  {
    Keep(d => Claims(m, filters, k, d, find), disks)
  }

  lemma {:induction false} KeepSplit(p: Disk -> bool, q: Disk -> bool, r: Disk -> bool, disks: seq<Disk>)
    requires forall d :: d in disks ==> (r(d) <==> p(d) || q(d)) && !(p(d) && q(d))
    ensures |Keep(r, disks)| == |Keep(p, disks)| + |Keep(q, disks)|
  {
    if disks != [] {
      KeepSplit(p, q, r, disks[..|disks| - 1]);
      assert disks[|disks| - 1] in disks;
    }
  }

  /** What the last of `k` filters adds to the count of `find`. */
  function Gain(m: Matcher, filters: seq<Filter>, k: nat, disks: seq<Disk>, find: string): nat
    requires 0 < k <= |filters|
  {
    if filters[k - 1].find == find then |LeastAt(m, filters, k - 1, disks)| else 0
  }

  lemma ClaimsOf(m: Matcher, filters: seq<Filter>, k: nat, disks: seq<Disk>, find: string)
    requires 0 < k <= |filters|
    ensures |ClaimedBy(m, filters, k, disks, find)|
            == |ClaimedBy(m, filters, k - 1, disks, find)| + Gain(m, filters, k, disks, find)
  {
    var now := (d: Disk) => Least(m, filters, d) == k - 1 && filters[k - 1].find == find;
    KeepSplit(d => Claims(m, filters, k - 1, d, find), now, d => Claims(m, filters, k, d, find), disks);
    if filters[k - 1].find == find {
      KeepSame(now, d => Least(m, filters, d) == k - 1, disks);
    } else {
      KeepNone(now, disks);
    }
  }

  lemma {:induction false} KeepNone(p: Disk -> bool, disks: seq<Disk>)
    requires forall d :: d in disks ==> !p(d)
    ensures Keep(p, disks) == []
  {
    if disks != [] {
      KeepNone(p, disks[..|disks| - 1]);
      assert disks[|disks| - 1] in disks;
    }
  }

  function Gains(m: Matcher, filters: seq<Filter>, k: nat, disks: seq<Disk>, find: string): nat
    requires k <= |filters|
  {
    if k == 0 then 0 else Gains(m, filters, k - 1, disks, find) + Gain(m, filters, k, disks, find)
  }

  lemma {:induction false} GainsAreClaims(m: Matcher, filters: seq<Filter>, k: nat, disks: seq<Disk>, find: string)
    requires k <= |filters|
    ensures |ClaimedBy(m, filters, k, disks, find)| == Gains(m, filters, k, disks, find)
  {
    if k == 0 {
      NoClaims(m, filters, disks, find);
    } else {
      GainsAreClaims(m, filters, k - 1, disks, find);
      ClaimsOf(m, filters, k, disks, find);
    }
  }

  lemma {:induction false} GainsAreFinds(m: Matcher, filters: seq<Filter>, k: nat, disks: seq<Disk>, find: string)
    requires k <= |filters| && DistinctIds(disks)
    ensures Count(FilterFinds(m, filters, k, disks), find) == Gains(m, filters, k, disks, find)
  {
    if k > 0 {
      GainsAreFinds(m, filters, k - 1, disks, find);
      FindsStep(m, filters, k, disks, find);
    }
  }

  /** With distinct IDs an expression is counted once for every disk whose first match is a filter with it. */
  lemma FindsCountFirstMatches(m: Matcher, filters: seq<Filter>, k: nat, disks: seq<Disk>, find: string)
    requires k <= |filters| && DistinctIds(disks)
    ensures Count(FilterFinds(m, filters, k, disks), find) == |ClaimedBy(m, filters, k, disks, find)|
  {
    GainsAreFinds(m, filters, k, disks, find);
    GainsAreClaims(m, filters, k, disks, find);
  }

  lemma NoClaims(m: Matcher, filters: seq<Filter>, disks: seq<Disk>, find: string)
    ensures ClaimedBy(m, filters, 0, disks, find) == []
  {
    KeepNone(d => Claims(m, filters, 0, d, find), disks);
  }

  lemma FindsStep(m: Matcher, filters: seq<Filter>, k: nat, disks: seq<Disk>, find: string)
    requires 0 < k <= |filters| && DistinctIds(disks)
    ensures Count(FilterFinds(m, filters, k, disks), find)
            == Count(FilterFinds(m, filters, k - 1, disks), find) + Gain(m, filters, k, disks, find)
  {
    FirstMatch(m, filters, k - 1, disks);
    var n := |LeastAt(m, filters, k - 1, disks)|;
    RepeatCount(filters[k - 1].find, n, find);
    var before, now := FilterFinds(m, filters, k - 1, disks), Repeat(filters[k - 1].find, n);
    assert FilterFinds(m, filters, k, disks) == before + now;
    CountConcat(before, now, find);
  }

  lemma {:induction false} RepeatCount(find: string, n: nat, k: string)
    ensures Count(Repeat(find, n), k) == if k == find then n else 0
  {
    if n > 0 {
      RepeatCount(find, n - 1, k);
      assert Repeat(find, n)[..n - 1] == Repeat(find, n - 1);
    }
  }

  /** No disk with this ID is matched before `i`. */
  ghost predicate UnclaimedBefore(m: Matcher, filters: seq<Filter>, i: nat, disks: seq<Disk>, id: string) {
    forall e :: e in disks && e.id == id ==> Least(m, filters, e) >= i
  }

  /** Among the disks with this ID, all of them are left or none. */
  ghost predicate LeftTogether(left: seq<Disk>, disks: seq<Disk>, id: string, stay: bool) {
    forall d: Disk :: d.id == id ==> (d in left <==> d in disks && stay)
  }

  lemma ClaimedNow(m: Matcher, filters: seq<Filter>, i: nat, disks: seq<Disk>, left: seq<Disk>, d: Disk)
    requires i < |filters| && d in disks && UnclaimedBefore(m, filters, i, disks, d.id)
    requires LeftTogether(left, disks, d.id, true)
    ensures SharesId(d, Matching(m, filters[i], left)) <==> !UnclaimedBefore(m, filters, i + 1, disks, d.id)
  {
    var matched := Matching(m, filters[i], left);
    if SharesId(d, matched) {
      var j :| 0 <= j < |matched| && matched[j].id == d.id;
      assert matched[j] in matched;
      assert matched[j] in disks && Hits(m, filters[i], matched[j]);
    } else {
      forall e | e in disks && e.id == d.id ensures Least(m, filters, e) >= i + 1 {
        assert e !in matched;
      }
    }
  }

  lemma ClaimedLater(m: Matcher, filters: seq<Filter>, i: nat, disks: seq<Disk>, id: string)
    requires UnclaimedBefore(m, filters, i + 1, disks, id)
    ensures UnclaimedBefore(m, filters, i, disks, id)
  {
  }

  lemma LeftStep(m: Matcher, filters: seq<Filter>, k: nat, disks: seq<Disk>, left: seq<Disk>, d: Disk)
    requires 0 < k <= |filters| && LeftTogether(left, disks, d.id, UnclaimedBefore(m, filters, k - 1, disks, d.id))
    ensures d in Without(left, Matching(m, filters[k - 1], left)) <==>
            d in disks && UnclaimedBefore(m, filters, k, disks, d.id)
  {
    if d in left {
      ClaimedNow(m, filters, k - 1, disks, left, d);
    } else if UnclaimedBefore(m, filters, k, disks, d.id) {
      ClaimedLater(m, filters, k - 1, disks, d.id);
    }
  }

  lemma {:induction false} LeftIff(m: Matcher, filters: seq<Filter>, k: nat, disks: seq<Disk>, id: string)
    requires k <= |filters|
    ensures LeftTogether(Left(m, filters, k, disks), disks, id, UnclaimedBefore(m, filters, k, disks, id))
  {
    if k > 0 {
      LeftIff(m, filters, k - 1, disks, id);
      var left := Left(m, filters, k - 1, disks);
      forall d: Disk | d.id == id
        ensures d in Without(left, Matching(m, filters[k - 1], left)) <==>
                d in disks && UnclaimedBefore(m, filters, k, disks, id)
      {
        LeftStep(m, filters, k, disks, left, d);
      }
    }
  }

  /** Whatever the IDs, a disk is chosen by the first filter that matches it exactly when no disk of its ID is first. */
  lemma ChosenIff(m: Matcher, filters: seq<Filter>, i: nat, disks: seq<Disk>, d: Disk)
    requires i < |filters|
    ensures d in ChosenBy(m, filters, i, disks) <==>
            d in disks && Least(m, filters, d) == i && UnclaimedBefore(m, filters, i, disks, d.id)
  {
    LeftIff(m, filters, i, disks, d.id);
  }

  /** So disks that share an ID can hide each other. */
  lemma SharedIdHidesADisk(m: Matcher, filters: seq<Filter>, a: Disk, b: Disk)
    requires |filters| == 2 && Hits(m, filters[0], a) && !Hits(m, filters[0], b) && Hits(m, filters[1], b)
             && a.id == b.id
    ensures Least(m, filters, b) == 1 && b !in ChosenBy(m, filters, 0, [a, b]) && b !in ChosenBy(m, filters, 1, [a, b])
  {
    ChosenIff(m, filters, 0, [a, b], b);
    ChosenIff(m, filters, 1, [a, b], b);
    assert a in [a, b];
  }

  // ---- The loops --------------------------------------------------------------------------------------------------

  /** Whether `Match` gets through: the expression is not empty, parses, and evaluates on every disk. */
  predicate Evaluates(m: Matcher, f: Filter, disks: seq<Disk>) {
    f.find != "" && m.parses(f.find) && forall i :: 0 <= i < |disks| ==> m.test(f.find, disks[i]).Some?
  }

  method Match(m: Matcher, f: Filter, disks: seq<Disk>) returns (ok: bool, matches: seq<Disk>)
    ensures ok == Evaluates(m, f, disks)
    ensures ok ==> matches == Matching(m, f, disks)
  {
    matches := [];
    if f.find == "" || !m.parses(f.find) { return false, []; }
    for i := 0 to |disks|
      invariant forall j :: 0 <= j < i ==> m.test(f.find, disks[j]).Some?
      invariant matches == Matching(m, f, disks[..i])
    {
      var hit := m.test(f.find, disks[i]);
      if hit == None { return false, []; }
      assert disks[..i + 1][..i] == disks[..i];
      if hit.value { matches := matches + [disks[i]]; }
    }
    assert disks[..|disks|] == disks;
    ok := true;
  }

  method WithoutPartitions(all: seq<Disk>) returns (disks: seq<Disk>)
    ensures disks == Unpartitioned(all)
  {
    disks := [];
    for i := 0 to |all|
      invariant disks == Unpartitioned(all[..i])
    {
      assert all[..i + 1][..i] == all[..i];
      if all[i].partitions == 0 { disks := disks + [all[i]]; }
    }
    assert all[..|all|] == all;
  }

  /** Removes the selected disks, recognized by their ID, from the available ones. */
  method RemoveMatched(disks: seq<Disk>, matched: seq<Disk>) returns (newDisks: seq<Disk>)
    ensures newDisks == Without(disks, matched)
  {
    newDisks := [];
    for i := 0 to |disks|
      invariant newDisks == Without(disks[..i], matched)
    {
      var isMatch := false;
      for j := 0 to |matched|
        invariant !isMatch ==> !SharesId(disks[i], matched[..j])
      {
        if matched[j].id == disks[i].id {
          isMatch := true;
          break;
        }
      }
      assert matched[..|matched|] == matched;
      assert isMatch == SharesId(disks[i], matched);
      assert disks[..i + 1][..i] == disks[..i];
      if !isMatch { newDisks := newDisks + [disks[i]]; }
    }
    assert disks[..|disks|] == disks;
  }
}
