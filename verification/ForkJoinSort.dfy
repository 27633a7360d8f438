/**
 `fork_join_sort`: coroutines partition a range and join two others, and pool threads sort the leaves. What is
 still to be done is a list of jobs on disjoint ranges; the scheduler may advance any of them at any time.
 */
module ForkJoinSorts {
  import opened Sorting

  datatype Job =
    | Fork(lo: int, hi: int, times: nat)   // a call of `fork_join_sort` that is still to run
    | Leaf(lo: int, hi: int, k: int)       // a sort on a pool thread that has come to `k`

  predicate Within(job: Job, i: int) {
    job.lo <= i < job.hi
  }

  /** One job is still responsible for the order of both positions. */
  ghost predicate Together(jobs: seq<Job>, i: int, j: int) {
    exists p :: 0 <= p < |jobs| && Within(jobs[p], i) && Within(jobs[p], j)
  }

  ghost predicate JobOk<T(!new)>(s: seq<T>, less: (T, T) -> bool, bg: int, ed: int, job: Job) {
    && 0 <= bg <= job.lo <= job.hi <= ed <= |s|
    && (job.Leaf? ==> job.lo <= job.k <= job.hi && Sorted(s, less, job.lo, job.k))
  }

  predicate Apart(p: Job, q: Job) {
    p.hi <= q.lo || q.hi <= p.lo
  }

  /** Two positions are in order, or some job will see to it. */
  ghost predicate Cared<T(!new)>(s: seq<T>, less: (T, T) -> bool, jobs: seq<Job>, i: int, j: int)
    requires 0 <= i < j < |s|
  {
    Together(jobs, i, j) || !less(s[j], s[i])
  }

  ghost predicate Inv<T(!new)>(s: seq<T>, less: (T, T) -> bool, bg: int, ed: int, jobs: seq<Job>) {
    && 0 <= bg && ed <= |s|
    && (forall p :: 0 <= p < |jobs| ==> JobOk(s, less, bg, ed, jobs[p]))
    && (forall p, q :: 0 <= p < q < |jobs| ==> Apart(jobs[p], jobs[q]))
    && (forall i, j :: bg <= i < j < ed ==> Cared(s, less, jobs, i, j))
  }

  /** The middle of a range, computed so that the sum of two positions is never needed. */
  function Mid(lo: int, hi: int): (m: int)
    requires lo < hi
    ensures lo <= m < hi && m - lo <= hi - m <= m - lo + 1
  {
    lo + (hi - lo) / 2
  }

  /** The steps a job has before it. */
  function Weight(job: Job): (w: nat)
    ensures w > 0
    decreases if job.Fork? then job.times + 1 else 0
  {
    match job
    case Fork(lo, hi, times) =>
      if lo >= hi then 1
      else if times > 0 then
        var mid := Mid(lo, hi);
        1 + Weight(Fork(lo, mid, times - 1)) + Weight(Fork(mid + 1, hi, times - 1))
      else 2 + (hi - lo)
    case Leaf(_, hi, k) => 1 + if k < hi then hi - k else 0
  }

  function Sum(jobs: seq<Job>): nat {
    if jobs == [] then 0 else Weight(jobs[0]) + Sum(jobs[1..])
  }

  /** Replacing one job by others. */
  function Replace(jobs: seq<Job>, p: int, news: seq<Job>): seq<Job>
    requires 0 <= p < |jobs|
  {
    jobs[..p] + news + jobs[p + 1..]
  }

  lemma {:induction false} SumConcat(a: seq<Job>, b: seq<Job>)
    ensures Sum(a + b) == Sum(a) + Sum(b)
  {
    if a == [] {
      assert a + b == b;
    } else {
      SumConcat(a[1..], b);
      assert (a + b)[1..] == a[1..] + b;
    }
  }

  lemma WeightsDrop(lo: int, hi: int, times: nat)
    requires lo < hi
    ensures Weight(Leaf(lo, hi, lo)) < Weight(Fork(lo, hi, 0))
    ensures times > 0 ==>
      var mid := Mid(lo, hi);
      Weight(Fork(lo, mid, times - 1)) + Weight(Fork(mid + 1, hi, times - 1)) < Weight(Fork(lo, hi, times))
  {
  }

  lemma SumFew(x: Job, y: Job)
    ensures Sum([x]) == Weight(x) && Sum([x, y]) == Weight(x) + Weight(y)
  {
    assert [x][1..] == [] && [x, y][1..] == [y] && Sum([]) == 0;
    assert Sum([y]) == Weight(y);
  }

  lemma SumReplace(jobs: seq<Job>, p: int, news: seq<Job>)
    requires 0 <= p < |jobs|
    ensures Sum(Replace(jobs, p, news)) == Sum(jobs) - Weight(jobs[p]) + Sum(news)
  {
    assert jobs == jobs[..p] + ([jobs[p]] + jobs[p + 1..]);
    SumConcat(jobs[..p], [jobs[p]] + jobs[p + 1..]);
    SumConcat([jobs[p]], jobs[p + 1..]);
    SumConcat(jobs[..p] + news, jobs[p + 1..]);
    SumConcat(jobs[..p], news);
    assert Sum([jobs[p]]) == Weight(jobs[p]);
  }

  /** Where a job of the list after a replacement comes from. */
  lemma Replaced(jobs: seq<Job>, p: int, news: seq<Job>, q: int)
    requires 0 <= p < |jobs| && 0 <= q < |Replace(jobs, p, news)|
    ensures Replace(jobs, p, news)[q]
         == if q < p then jobs[q] else if q < p + |news| then news[q - p] else jobs[q - |news| + 1]
  {
  }

  /** A job hands its range over to others within it: what they do not care for is in order. */
  lemma ReplaceKeeps<T(!new)>(s: seq<T>, t: seq<T>, less: (T, T) -> bool, bg: int, ed: int,
                              jobs: seq<Job>, p: int, news: seq<Job>)
    requires Inv(s, less, bg, ed, jobs) && 0 <= p < |jobs|
    requires Rearranged(s, t, jobs[p].lo, jobs[p].hi)
    requires HandsOver(t, less, jobs[p], news)
    ensures Inv(t, less, bg, ed, Replace(jobs, p, news))
  {
    var n, job := Replace(jobs, p, news), jobs[p];
    forall q | 0 <= q < |n| ensures JobOk(t, less, bg, ed, n[q]) {
      Replaced(jobs, p, news, q);
    }
    forall q, r | 0 <= q < r < |n| ensures Apart(n[q], n[r]) {
      Replaced(jobs, p, news, q);
      Replaced(jobs, p, news, r);
    }
    forall i, j | bg <= i < j < ed ensures Cared(t, less, n, i, j) {
      if Within(job, i) && Within(job, j) {
        assert Cared(t, less, news, i, j);
        if Together(news, i, j) {
          var q :| 0 <= q < |news| && Within(news[q], i) && Within(news[q], j);
          Replaced(jobs, p, news, p + q);
        }
      } else if Together(jobs, i, j) {
        var q :| 0 <= q < |jobs| && Within(jobs[q], i) && Within(jobs[q], j);
        Replaced(jobs, p, news, if q < p then q else q - 1 + |news|);
      } else {
        OthersKept(s, t, less, bg, ed, jobs, p, i, j);
      }
    }
  }

  /** Two positions that no job is responsible for stay in order whatever a job does with its own range. */
  lemma OthersKept<T(!new)>(s: seq<T>, t: seq<T>, less: (T, T) -> bool, bg: int, ed: int,
                            jobs: seq<Job>, p: int, i: int, j: int)
    requires Inv(s, less, bg, ed, jobs) && 0 <= p < |jobs|
    requires Rearranged(s, t, jobs[p].lo, jobs[p].hi)
    requires bg <= i < j < ed && !Together(jobs, i, j)
    ensures !less(t[j], t[i])
  {
    var lo, hi := jobs[p].lo, jobs[p].hi;
    var i', j' := i, j;
    if Within(jobs[p], i) {
      i' := Origin(s, t, lo, hi, i);
    } else if Within(jobs[p], j) {
      j' := Origin(s, t, lo, hi, j);
    }
    assert i' < j' && !Together(jobs, i', j');
    assert Cared(s, less, jobs, i', j');
  }

  /** The array is sorted when no job is left. */
  lemma AllDone<T(!new)>(s: seq<T>, less: (T, T) -> bool, bg: int, ed: int)
    requires Inv(s, less, bg, ed, [])
    ensures Sorted(s, less, bg, ed)
  {
    forall i, j | bg <= i < j < ed ensures !less(s[j], s[i]) {
      assert Cared(s, less, [], i, j);
    }
  }

  /** What a job hands its range over to: jobs within the range that care for all that is not in order. */
  ghost predicate HandsOver<T(!new)>(t: seq<T>, less: (T, T) -> bool, job: Job, news: seq<Job>) {
    && 0 <= job.lo && job.hi <= |t|
    && (forall q :: 0 <= q < |news| ==> JobOk(t, less, job.lo, job.hi, news[q]))
    && (forall q, r :: 0 <= q < r < |news| ==> Apart(news[q], news[r]))
    && (forall i, j :: job.lo <= i < j < job.hi ==> Cared(t, less, news, i, j))
  }

  /** After `nth_element`, the two halves care for everything that is not in order. */
  lemma HalvesCare<T(!new)>(t: seq<T>, less: (T, T) -> bool, job: Job, mid: int, left: Job, right: Job)
    requires 0 <= job.lo <= mid < job.hi <= |t| && left.Fork? && right.Fork?
    requires Before(t, less, job.lo, mid, mid, job.hi) && Before(t, less, job.lo, mid + 1, mid + 1, job.hi)
    requires left.lo == job.lo && left.hi == mid && right.lo == mid + 1 && right.hi == job.hi
    ensures HandsOver(t, less, job, [left, right])
  {
    forall i, j | job.lo <= i < j < job.hi ensures Cared(t, less, [left, right], i, j) {
      var jobs := [left, right];
      if j < mid {
        assert Within(jobs[0], i) && Within(jobs[0], j);
      } else if mid < i {
        assert Within(jobs[1], i) && Within(jobs[1], j);
      }
    }
  }

  lemma OneCares<T(!new)>(t: seq<T>, less: (T, T) -> bool, job: Job, heir: Job)
    requires 0 <= job.lo && job.hi <= |t| && JobOk(t, less, job.lo, job.hi, heir)
    requires heir.lo == job.lo && heir.hi == job.hi
    ensures HandsOver(t, less, job, [heir])
  {
    forall i, j | job.lo <= i < j < job.hi ensures Cared(t, less, [heir], i, j) {
      assert Within([heir][0], i) && Within([heir][0], j);
    }
  }

  lemma NoneCares<T(!new)>(t: seq<T>, less: (T, T) -> bool, job: Job)
    requires 0 <= job.lo && job.hi <= |t| && Sorted(t, less, job.lo, job.hi)
    ensures HandsOver(t, less, job, [])
  {
  }

  /** The body of `fork_join_sort`, up to where it waits for the children or for the pool. */
  method RunFork<T(!new)>(a: array<T>, less: (T, T) -> bool, job: Job) returns (news: seq<Job>)
    requires StrictWeak(less) && JobOk(a[..], less, 0, a.Length, job) && job.Fork?
    modifies a
    ensures Rearranged(old(a[..]), a[..], job.lo, job.hi)
    ensures HandsOver(a[..], less, job, news) && Sum(news) < Weight(job)
  {
    assert Sum([]) == 0 && Rearranged(a[..], a[..], job.lo, job.hi);
    hide HandsOver, StrictWeak, Sum, Before, Rearranged, Weight, Mid;
    var Fork(lo, hi, times) := job;
    if lo < hi {
      WeightsDrop(lo, hi, times);
    }
    if lo >= hi {
      NoneCares(a[..], less, job);
      news := [];
    } else if times > 0 {
      var mid := Mid(lo, hi);
      NthElement(a, lo, mid, hi, less);
      var left, right := Fork(lo, mid, times - 1), Fork(mid + 1, hi, times - 1);
      HalvesCare(a[..], less, job, mid, left, right);
      SumFew(left, right);
      news := [left, right];
    } else {
      var leaf := Leaf(lo, hi, lo);
      OneCares(a[..], less, job, leaf);
      SumFew(leaf, leaf);
      news := [leaf];
    }
  }

  /** One round of the sort of a leaf. */
  method SortOn<T(!new)>(a: array<T>, less: (T, T) -> bool, job: Job) returns (news: seq<Job>)
    requires StrictWeak(less) && JobOk(a[..], less, 0, a.Length, job) && job.Leaf?
    modifies a
    ensures Rearranged(old(a[..]), a[..], job.lo, job.hi)
    ensures HandsOver(a[..], less, job, news) && Sum(news) < Weight(job)
  {
    assert Sum([]) == 0 && Rearranged(a[..], a[..], job.lo, job.hi);
    hide HandsOver, StrictWeak, Sum, Rearranged;
    var Leaf(lo, hi, k) := job;
    if k == hi {
      NoneCares(a[..], less, job);
      news := [];
    } else {
      Insert(a, lo, k, hi, less);
      var leaf := Leaf(lo, hi, k + 1);
      OneCares(a[..], less, job, leaf);
      SumFew(leaf, leaf);
      news := [leaf];
    }
  }

  /** One step of one of the jobs. */
  method Advance<T(!new)>(a: array<T>, less: (T, T) -> bool, ghost bg: int, ghost ed: int, jobs: seq<Job>, p: int)
    returns (rest: seq<Job>)
    requires StrictWeak(less) && Inv(a[..], less, bg, ed, jobs) && 0 <= p < |jobs|
    modifies a
    ensures Inv(a[..], less, bg, ed, rest) && Sum(rest) < Sum(jobs)
    ensures Rearranged(old(a[..]), a[..], bg, ed)
  {
    ghost var s := a[..];
    assert JobOk(s, less, bg, ed, jobs[p]);
    hide StrictWeak, Cared;
    var news;
    if jobs[p].Fork? {
      news := RunFork(a, less, jobs[p]);
    } else {
      news := SortOn(a, less, jobs[p]);
    }
    ReplaceKeeps(s, a[..], less, bg, ed, jobs, p, news);
    SumReplace(jobs, p, news);
    rest := Replace(jobs, p, news);
  }

  /** Whatever the order in which jobs are advanced, the range ends up sorted and the rest untouched. */
  method ForkJoinSort<T(!new)>(a: array<T>, bg: int, ed: int, less: (T, T) -> bool, times: nat)
    requires 0 <= bg <= a.Length && 0 <= ed <= a.Length && StrictWeak(less)
    modifies a
    ensures Sorted(a[..], less, bg, ed)
    ensures Rearranged(old(a[..]), a[..], bg, ed)
  {
    if bg >= ed {
      return;
    }
    var jobs := [Fork(bg, ed, times)];
    forall i, j | bg <= i < j < ed ensures Cared(a[..], less, jobs, i, j) {
      assert Within(jobs[0], i) && Within(jobs[0], j);
    }
    while jobs != []
      invariant Inv(a[..], less, bg, ed, jobs)
      invariant Rearranged(old(a[..]), a[..], bg, ed)
      decreases Sum(jobs)
    {
      var p :| 0 <= p < |jobs|;
      jobs := Advance(a, less, bg, ed, jobs, p);
    }
    AllDone(a[..], less, bg, ed);
  }
}
