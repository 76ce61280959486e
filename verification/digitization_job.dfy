/** One digitization job: the attempts of the queue, the status marks of an attempt, and the poll loop inside it. */
module DigitizationJob {
  import opened Basics

  // ----- requests to the digitization backend

  /** An HTTP failure carries its status, if there was a response at all; without a configured URL nothing is sent. */
  datatype Trouble = Http(status: Option<int>) | NoUrl

  datatype Call = Answered | Broke(trouble: Trouble)

  datatype JobStatus = Running | Completed | JobFailed

  /** What one status poll gives. */
  datatype Poll = Status(s: JobStatus) | PollBroke(trouble: Trouble)

  datatype Outcome = Succeeded | Threw(unrecoverable: bool)

  /** Client errors are not worth retrying, except a timeout and too many requests; nor is a missing URL. */
  predicate Unrecoverable(t: Trouble) {
    match t
    case NoUrl => true
    case Http(None) => false
    case Http(Some(status)) => 400 <= status < 500 && status != 408 && status != 429
  }

  /** The smallest number of portions of size `b` that hold `a`. */
  function CeilDiv(a: int, b: int): (n: int)
    requires b > 0
    ensures (n - 1) * b < a <= n * b
  {
    (a + b - 1) / b
  }

  /** Each round takes at least the poll interval. */
  predicate Sleeps(clock: nat -> int, pollMs: int, i: nat) { clock(i + 1) >= clock(i) + pollMs }

  /** `clock(i)` is the time of the i-th look at the deadline; `polls(i)` is what the poll after it gives. */
  method WaitForCompletion(pollMs: int, maxWaitMs: int, clock: nat -> int, polls: nat -> Poll) returns (r: Outcome,
      count: nat)
    requires pollMs > 0 && maxWaitMs > 0
    requires forall i: nat :: Sleeps(clock, pollMs, i)
    ensures count <= CeilDiv(maxWaitMs, pollMs)
    ensures forall i :: 0 <= i < count - 1 ==> polls(i) == Status(Running)
    ensures r == Succeeded <==> count > 0 && polls(count - 1) == Status(Completed)
    ensures r == Threw(true) <==> count > 0 && polls(count - 1).PollBroke? && Unrecoverable(polls(count - 1).trouble)
    ensures count == 0 || polls(count - 1) == Status(Running) ==> clock(count) >= clock(0) + maxWaitMs
  {
    var deadline := clock(0) + maxWaitMs;
    count := 0;
    while clock(count) < deadline
      invariant clock(count) >= clock(0) + count * pollMs
      invariant count > 0 ==> (count - 1) * pollMs < maxWaitMs
      invariant forall i :: 0 <= i < count ==> polls(i) == Status(Running)
      decreases deadline - clock(count)
    {
      PollsBounded(count, pollMs, maxWaitMs);
      var poll := polls(count);
      assert Sleeps(clock, pollMs, count);
      count := count + 1;
      match poll {
        case PollBroke(trouble) => return Threw(Unrecoverable(trouble)), count;
        case Status(Completed) => return Succeeded, count;
        case Status(JobFailed) => return Threw(false), count;
        case Status(Running) =>
      }
    }
    if count > 0 { PollsBounded(count - 1, pollMs, maxWaitMs); }
    r := Threw(false);
  }

  lemma PollsBounded(n: nat, pollMs: int, maxWaitMs: int)
    requires pollMs > 0 && n * pollMs < maxWaitMs
    ensures n + 1 <= CeilDiv(maxWaitMs, pollMs)
  {
    var q := CeilDiv(maxWaitMs, pollMs);
    assert q * pollMs >= maxWaitMs;
    ProductsKeepOrder(q, n, pollMs);
  }

  lemma ProductsKeepOrder(a: int, b: int, p: int)
    requires p > 0
    ensures a <= b ==> a * p <= b * p
  {
  }

  // ----- one attempt

  /** What happens to one attempt, were it to get that far; `classified` says whether the result can be mapped. */
  datatype Attempt = Attempt(
    dryRun: bool, knownDocType: bool, submit: Call, jobId: bool, wait: Outcome, fetch: Call, classified: bool)

  datatype Mark = Processing | Submitted | Digitized | Failed | Retrying

  /** The body of the try block: the marks it writes and how it ends. */
  function Tried(a: Attempt): (seq<Mark>, Outcome) {
    if a.dryRun || !a.knownDocType then ([Processing], Threw(true))
    else if a.submit.Broke? then ([Processing], Threw(Unrecoverable(a.submit.trouble)))
    else if !a.jobId then ([Processing], Threw(false))
    else if a.wait.Threw? then ([Processing, Submitted], a.wait)
    else if a.fetch.Broke? then ([Processing, Submitted], Threw(Unrecoverable(a.fetch.trouble)))
    else if !a.classified then ([Processing, Submitted], Threw(false))
    else ([Processing, Submitted, Digitized], Succeeded)
  }

  function Ends(a: Attempt): Outcome { Tried(a).1 }

  predicate IsLast(attemptsMade: nat, attempts: Option<nat>) {
    attemptsMade + 1 >= if attempts.Some? then attempts.value else 1
  }

  function Handled(a: Attempt, attemptsMade: nat, attempts: Option<nat>): seq<Mark> {
    var (marks, end) := Tried(a);
    if end == Succeeded then marks
    else marks + [if end.unrecoverable || IsLast(attemptsMade, attempts) then Failed else Retrying]
  }

  class StatusLog {
    var marks: seq<Mark>

    constructor ()
      ensures marks == []
    {
      marks := [];
    }

    /** Returns how the attempt ended, which is what the queue sees: the error is thrown on. */
    method HandleJob(a: Attempt, attemptsMade: nat, attempts: Option<nat>) returns (end: Outcome)
      modifies this
      ensures marks == old(marks) + Handled(a, attemptsMade, attempts) && end == Ends(a)
    {
      marks := marks + [Processing];
      end := Ends(a);
      if !a.dryRun && a.knownDocType && a.submit.Answered? && a.jobId {
        marks := marks + [Submitted];
        if end == Succeeded {
          marks := marks + [Digitized];
          return;
        }
      }
      var isLastAttempt := end.unrecoverable || IsLast(attemptsMade, attempts);
      marks := marks + [if isLastAttempt then Failed else Retrying];
    }

    /** The queue's rule: an attempt that threw is followed by another unless it was the last or unrecoverable. */
    method RunJob(attempts: Option<nat>, attempt: nat -> Attempt) returns (made: nat)
      modifies this
      ensures made > 0 && marks == old(marks) + AllMarks(attempt, attempts, made)
      ensures AllRetry(attempt, attempts, made - 1) && !Retries(attempt(made - 1), made - 1, attempts)
    {
      made := 0;
      var end := Threw(false);
      assert old(marks) == old(marks) + AllMarks(attempt, attempts, 0);
      while made == 0 || Retries(attempt(made - 1), made - 1, attempts)
        invariant marks == old(marks) + AllMarks(attempt, attempts, made)
        invariant made > 0 ==> AllRetry(attempt, attempts, made - 1)
        decreases (if attempts.Some? then attempts.value + 1 else 2) - made
      {
        end := HandleJob(attempt(made), made, attempts);
        NextMarks(old(marks), attempt, attempts, made);
        made := made + 1;
      }
    }
  }

  // ----- the whole job

  /** Another attempt follows this one. */
  predicate Retries(a: Attempt, attemptsMade: nat, attempts: Option<nat>) {
    Ends(a) == Threw(false) && !IsLast(attemptsMade, attempts)
  }

  function AllMarks(attempt: nat -> Attempt, attempts: Option<nat>, made: nat): seq<Mark> {
    if made == 0 then [] else AllMarks(attempt, attempts, made - 1) + Handled(attempt(made - 1), made - 1, attempts)
  }

  lemma NextMarks(before: seq<Mark>, attempt: nat -> Attempt, attempts: Option<nat>, n: nat)
    ensures before + AllMarks(attempt, attempts, n) + Handled(attempt(n), n, attempts) == before + AllMarks(attempt, attempts, n + 1)
  {
  }

  function Count(marks: seq<Mark>, m: Mark): nat {
    if marks == [] then 0 else Count(marks[..|marks| - 1], m) + if marks[|marks| - 1] == m then 1 else 0
  }

  lemma {:induction false} CountSplits(a: seq<Mark>, b: seq<Mark>, m: Mark)
    ensures Count(a + b, m) == Count(a, m) + Count(b, m)
  {
    if b == [] {
      assert a + b == a;
    } else {
      assert (a + b)[..|a + b| - 1] == a + b[..|b| - 1];
      CountSplits(a, b[..|b| - 1], m);
    }
  }

  lemma HandledCounts(a: Attempt, made: nat, attempts: Option<nat>)
    ensures var marks := Handled(a, made, attempts);
            && Count(marks, Processing) == 1
            && Count(marks, Retrying) == (if Retries(a, made, attempts) then 1 else 0)
            && Count(marks, Digitized) == (if Ends(a) == Succeeded then 1 else 0)
            && Count(marks, Failed) == (if Ends(a) != Succeeded && !Retries(a, made, attempts) then 1 else 0)
  {
    var tried := Tried(a).0;
    var marks := Handled(a, made, attempts);
    TriedCounts(a);
    if Ends(a) != Succeeded {
      assert marks[..|marks| - 1] == tried;
    }
  }

  lemma TriedCounts(a: Attempt)
    ensures var marks := Tried(a).0;
            && Count(marks, Processing) == 1 && Count(marks, Retrying) == 0 && Count(marks, Failed) == 0
            && Count(marks, Digitized) == (if Ends(a) == Succeeded then 1 else 0)
  {
    var marks := Tried(a).0;
    var one: seq<Mark> := [Processing];
    var two: seq<Mark> := [Processing, Submitted];
    assert one[..0] == [] && two[..1] == one;
    assert |marks| == 3 ==> marks[..2] == two;
  }

  lemma NextCounts(attempt: nat -> Attempt, attempts: Option<nat>, n: nat)
    requires n > 0
    ensures var before, all, a := AllMarks(attempt, attempts, n - 1), AllMarks(attempt, attempts, n), attempt(n - 1);
            && Count(all, Processing) == Count(before, Processing) + 1
            && Count(all, Retrying) == Count(before, Retrying) + (if Retries(a, n - 1, attempts) then 1 else 0)
            && Count(all, Digitized) == Count(before, Digitized) + (if Ends(a) == Succeeded then 1 else 0)
            && Count(all, Failed) == Count(before, Failed) + (if Ends(a) != Succeeded && !Retries(a, n - 1, attempts) then 1 else 0)
  {
    var before, last := AllMarks(attempt, attempts, n - 1), Handled(attempt(n - 1), n - 1, attempts);
    HandledCounts(attempt(n - 1), n - 1, attempts);
    CountSplits(before, last, Processing);
    CountSplits(before, last, Retrying);
    CountSplits(before, last, Digitized);
    CountSplits(before, last, Failed);
  }

  predicate AllRetry(attempt: nat -> Attempt, attempts: Option<nat>, n: nat) {
    n == 0 || (AllRetry(attempt, attempts, n - 1) && Retries(attempt(n - 1), n - 1, attempts))
  }

  lemma {:induction false} RetriedCounts(attempt: nat -> Attempt, attempts: Option<nat>, n: nat)
    requires AllRetry(attempt, attempts, n)
    ensures var marks := AllMarks(attempt, attempts, n);
            Count(marks, Processing) == n && Count(marks, Retrying) == n && Count(marks, Digitized) == 0 && Count(marks, Failed) == 0
  {
    if n == 0 {
      assert AllMarks(attempt, attempts, n) == [];
    } else {
      RetriedCounts(attempt, attempts, n - 1);
      NextCounts(attempt, attempts, n);
      RetriesThrew(attempt(n - 1), n - 1, attempts);
    }
  }

  lemma RetriesThrew(a: Attempt, n: nat, attempts: Option<nat>)
    requires Retries(a, n, attempts)
    ensures Ends(a) == Threw(false) && n + 2 <= Max(1, if attempts.Some? then attempts.value else 1)
  {
  }

  lemma {:induction false} NoEarlierUnrecoverable(attempt: nat -> Attempt, attempts: Option<nat>, n: nat, i: nat)
    requires AllRetry(attempt, attempts, n) && i < n
    ensures Ends(attempt(i)) == Threw(false)
  {
    if i < n - 1 {
      NoEarlierUnrecoverable(attempt, attempts, n - 1, i);
    } else {
      RetriesThrew(attempt(i), i, attempts);
    }
  }

  lemma {:induction false} LastMark(attempt: nat -> Attempt, attempts: Option<nat>, n: nat)
    requires n > 0 && !Retries(attempt(n - 1), n - 1, attempts)
    ensures var marks := AllMarks(attempt, attempts, n);
            |marks| > 0 && marks[|marks| - 1] == if Ends(attempt(n - 1)) == Succeeded then Digitized else Failed
  {
    var before, last := AllMarks(attempt, attempts, n - 1), Handled(attempt(n - 1), n - 1, attempts);
    assert (before + last)[|before| + |last| - 1] == last[|last| - 1];
  }

  /**
   A job that ran to its end is marked exactly once as digitized or failed, and that mark is the last one; it is marked
   as retrying once per repeated attempt, at most n - 1 times; it is digitized exactly when its last attempt succeeded.
   */
  lemma {:induction false} JobEndsOnce(attempt: nat -> Attempt, attempts: Option<nat>, made: nat)
    requires made > 0 && AllRetry(attempt, attempts, made - 1) && !Retries(attempt(made - 1), made - 1, attempts)
    ensures var marks := AllMarks(attempt, attempts, made);
            && Count(marks, Digitized) + Count(marks, Failed) == 1
            && Count(marks, Processing) == made && Count(marks, Retrying) == made - 1
            && |marks| > 0 && marks[|marks| - 1] == (if Ends(attempt(made - 1)) == Succeeded then Digitized else Failed)
    ensures made <= Max(1, if attempts.Some? then attempts.value else 1)
  {
    RetriedCounts(attempt, attempts, made - 1);
    NextCounts(attempt, attempts, made);
    LastMark(attempt, attempts, made);
    if made > 1 { RetriesThrew(attempt(made - 2), made - 2, attempts); }
  }

  // ----- how an attempt ends

  /** The answer is worth another attempt: no response, a status outside 400 to 499, a timeout or too many requests. */
  predicate WorthRetrying(t: Trouble) {
    t.Http? && (t.status == None || t.status.value < 400 || t.status.value > 499 || t.status.value in {408, 429})
  }

  /** A step broke in a way that another attempt cannot mend. */
  predicate Hopeless(a: Attempt) {
    || a.dryRun || !a.knownDocType
    || (a.submit.Broke? && !WorthRetrying(a.submit.trouble))
    || (a.submit.Answered? && a.jobId
        && (a.wait == Threw(true)
            || (a.wait == Succeeded && a.fetch.Broke? && !WorthRetrying(a.fetch.trouble))))
  }

  predicate Flawless(a: Attempt) {
    && !a.dryRun && a.knownDocType && a.submit.Answered? && a.jobId && a.wait == Succeeded && a.fetch.Answered? && a.classified
  }

  /** An attempt succeeds exactly if every step of it does, and is given up for good exactly if it is hopeless. */
  lemma AttemptEndsExactly(a: Attempt)
    ensures Ends(a) == Succeeded <==> Flawless(a)
    ensures Ends(a) == Threw(true) <==> Hopeless(a)
  {
  }

  /** Its marks: processing, submitted once there is a job id, and how it ended. */
  lemma AttemptMarksExactly(a: Attempt, attemptsMade: nat, attempts: Option<nat>)
    ensures var submitted := !a.dryRun && a.knownDocType && a.submit.Answered? && a.jobId;
            var last := attemptsMade + 1 >= if attempts == None then 1 else attempts.value;
            Handled(a, attemptsMade, attempts) ==
              [Processing] + (if submitted then [Submitted] else [])
              + [if Flawless(a) then Digitized else if Hopeless(a) || last then Failed else Retrying]
  {
  }

  /** An attempt that is neither flawless nor hopeless, and not the last one the queue allows. */
  predicate GoesOn(a: Attempt, attemptsMade: nat, attempts: Option<nat>) {
    !Flawless(a) && !Hopeless(a) && attemptsMade + 1 < if attempts == None then 1 else attempts.value
  }

  lemma {:induction false} AllGoOn(attempt: nat -> Attempt, attempts: Option<nat>, n: nat)
    ensures AllRetry(attempt, attempts, n) <==> forall i :: 0 <= i < n ==> GoesOn(attempt(i), i, attempts)
  {
    if n > 0 {
      AllGoOn(attempt, attempts, n - 1);
      AttemptEndsExactly(attempt(n - 1));
    }
  }

  /**
   A job stops at the first attempt that is flawless, hopeless or the last one allowed; one whose attempts are neither
   of the first two is made as often as the queue allows, at least once.
   */
  lemma JobStopsExactlyWhen(attempt: nat -> Attempt, attempts: Option<nat>, made: nat)
    requires made > 0
    ensures AllRetry(attempt, attempts, made - 1) && !Retries(attempt(made - 1), made - 1, attempts) <==>
              && (forall i :: 0 <= i < made - 1 ==> GoesOn(attempt(i), i, attempts))
              && !GoesOn(attempt(made - 1), made - 1, attempts)
    ensures AllRetry(attempt, attempts, made - 1) && !Retries(attempt(made - 1), made - 1, attempts)
            && !Flawless(attempt(made - 1)) && !Hopeless(attempt(made - 1)) ==>
              made == Max(1, if attempts == None then 1 else attempts.value)
  {
    AllGoOn(attempt, attempts, made - 1);
    AttemptEndsExactly(attempt(made - 1));
    if made > 1 && AllRetry(attempt, attempts, made - 1) {
      assert GoesOn(attempt(made - 2), made - 2, attempts);
    }
  }
}
