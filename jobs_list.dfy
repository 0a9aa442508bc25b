/** The jobs page: the status filter, the per-status counts and the filter buttons. */
module JobsList {
  import opened Types
  import opened Seqs

  /** The selected filter: every job, or one status. */
  datatype StatusFilter = All | Only(status: JobStatus)

  /** `statusFilter === 'all' || job.status === statusFilter`. */
  predicate Shows(f: StatusFilter, job: Job)
    ensures f == All ==> Shows(f, job)
    ensures f.Only? ==> (Shows(f, job) <==> job.status == f.status)
  {
    f == All || job.status == f.status
  }

  /** `filteredJobs`. */
  function FilterJobs(jobs: seq<Job>, f: StatusFilter): (r: seq<Job>)
    ensures f == All ==> r == jobs
    ensures f.Only? ==> forall j :: j in r <==> j in jobs && j.status == f.status
    ensures IsSubsequence(r, jobs)
  {
    var keep := (j: Job) => Shows(f, j);
    if f == All then FilterKeepsAll(jobs, keep); FilterIsSubsequence(jobs, keep); Filter(jobs, keep)
    else FilterIsSubsequence(jobs, keep); Filter(jobs, keep)
  }

  /** The number of jobs in status `s`. */
  function CountOf(jobs: seq<Job>, s: JobStatus): nat
  {
    CountIf(jobs, (j: Job) => j.status == s)
  }

  lemma CountOfSnoc(jobs: seq<Job>, job: Job, s: JobStatus)
    ensures CountOf(jobs + [job], s) == CountOf(jobs, s) + (if job.status == s then 1 else 0)
  {
    CountIfAppend(jobs, [job], (j: Job) => j.status == s);
    assert CountIf([job], (j: Job) => j.status == s) == if job.status == s then 1 else 0 by {
      assert [job][1..] == [];
    }
  }

  /** `statusCounts`: the `reduce` that bumps `acc[job.status]` for each job.  A
      status with no job has no entry, as in the dictionary the page builds. */
  method StatusCounts(jobs: seq<Job>) returns (counts: map<JobStatus, nat>)
    ensures forall s :: s in counts <==> CountOf(jobs, s) > 0
    ensures forall s :: s in counts ==> counts[s] == CountOf(jobs, s)
  {
    counts := map[];
    var i := 0;
    while i < |jobs|
      invariant 0 <= i <= |jobs|
      invariant forall s :: s in counts <==> CountOf(jobs[..i], s) > 0
      invariant forall s :: s in counts ==> counts[s] == CountOf(jobs[..i], s)
    {
      var job := jobs[i];
      var before := if job.status in counts then counts[job.status] else 0;
      counts := counts[job.status := before + 1];
      assert jobs[..i + 1] == jobs[..i] + [job];
      forall s {
        CountOfSnoc(jobs[..i], job, s);
      }
      i := i + 1;
    }
    assert jobs[..i] == jobs;
  }

  /** `statusCounts[s]`, with a missing entry read as no jobs. */
  function CountShown(counts: map<JobStatus, nat>, s: JobStatus): (n: nat)
    ensures n > 0 ==> s in counts && n == counts[s]
    ensures s !in counts ==> n == 0
  {
    if s in counts then counts[s] else 0
  }

  /** The status buttons: one per status whose count is above zero, in the
      declared order of the statuses. */
  function VisibleStatuses(counts: map<JobStatus, nat>): (r: seq<JobStatus>)
    ensures forall s :: s in r <==> CountShown(counts, s) > 0
    ensures IsSubsequence(r, AllStatuses)
  {
    var keep := (s: JobStatus) => CountShown(counts, s) > 0;
    FilterIsSubsequence(AllStatuses, keep);
    forall s
      ensures s in AllStatuses
    {
      StatusNameRoundTrip(s);
    }
    Filter(AllStatuses, keep)
  }

  /** A status's count is the number of jobs its filter shows. */
  lemma {:induction false} CountIsFilterLength(jobs: seq<Job>, s: JobStatus)
    ensures CountOf(jobs, s) == |FilterJobs(jobs, Only(s))|
  {
    FilterLength(jobs, (j: Job) => Shows(Only(s), j));
    CountIfSame(jobs, s);
  }

  lemma {:induction false} CountIfSame(jobs: seq<Job>, s: JobStatus)
    ensures CountIf(jobs, (j: Job) => Shows(Only(s), j)) == CountOf(jobs, s)
  {
    if jobs != [] {
      CountIfSame(jobs[1..], s);
    }
  }

  /** The counts of the statuses in `ss`, added up. */
  function Tally(jobs: seq<Job>, ss: seq<JobStatus>): nat
  {
    if ss == [] then 0 else CountOf(jobs, ss[0]) + Tally(jobs, ss[1..])
  }

  /** How often `s` is listed in `ss`. */
  function Listed(ss: seq<JobStatus>, s: JobStatus): nat
  {
    if ss == [] then 0 else (if ss[0] == s then 1 else 0) + Listed(ss[1..], s)
  }

  /** Taking the first job off: it adds one for each time its status is listed. */
  lemma {:induction false} TallyFirst(jobs: seq<Job>, ss: seq<JobStatus>)
    requires jobs != []
    ensures Tally(jobs, ss) == Listed(ss, jobs[0].status) + Tally(jobs[1..], ss)
  {
    if ss != [] {
      TallyFirst(jobs, ss[1..]);
    }
  }

  /** Every job is counted under exactly one status, so the counts add up to the
      number on the "All" button. */
  lemma {:induction false} CountsSumToTotal(jobs: seq<Job>)
    ensures Tally(jobs, AllStatuses) == |jobs|
  {
    if jobs == [] {
      TallyOfNoJobs(AllStatuses);
    } else {
      TallyFirst(jobs, AllStatuses);
      CountsSumToTotal(jobs[1..]);
      ListedOnce(jobs[0].status);
    }
  }

  lemma {:induction false} TallyOfNoJobs(ss: seq<JobStatus>)
    ensures Tally([], ss) == 0
  {
    if ss != [] {
      TallyOfNoJobs(ss[1..]);
    }
  }

  /** The enumeration lists each status once. */
  lemma ListedOnce(s: JobStatus)
    ensures Listed(AllStatuses, s) == 1
  {
    StatusNameRoundTrip(s);
    ListedDistinct(AllStatuses, s);
  }

  /** In a list without repeats, a listed status is listed once. */
  lemma {:induction false} ListedDistinct(ss: seq<JobStatus>, s: JobStatus)
    requires forall i, j :: 0 <= i < j < |ss| ==> ss[i] != ss[j]
    requires s in ss
    ensures Listed(ss, s) == 1
  {
    if ss[0] == s {
      ListedAbsent(ss[1..], s);
    } else {
      ListedDistinct(ss[1..], s);
    }
  }

  lemma {:induction false} ListedAbsent(ss: seq<JobStatus>, s: JobStatus)
    requires s !in ss
    ensures Listed(ss, s) == 0
  {
    if ss != [] {
      ListedAbsent(ss[1..], s);
    }
  }

  /** The buttons drawn from `statusCounts` are the statuses that have jobs, and
      each button's number is the length of the list its filter shows. */
  lemma ButtonsMatchJobs(jobs: seq<Job>, counts: map<JobStatus, nat>)
    requires forall s :: s in counts <==> CountOf(jobs, s) > 0
    requires forall s :: s in counts ==> counts[s] == CountOf(jobs, s)
    ensures forall s :: s in VisibleStatuses(counts) <==> |FilterJobs(jobs, Only(s))| > 0
    ensures forall s :: CountShown(counts, s) == |FilterJobs(jobs, Only(s))|
  {
    forall s
      ensures CountShown(counts, s) == |FilterJobs(jobs, Only(s))|
    {
      CountIsFilterLength(jobs, s);
    }
  }
}
