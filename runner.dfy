/**
 * The runner of runner/runner.go: `Run` dispatches the requested number of
 * build creations in index order and polls each created build until it
 * finishes; a `Result` counts outstanding completions (the embedded
 * `sync.WaitGroup`) and collects errors and finished builds; `Summary`
 * classifies the finished builds by state.
 *
 * The build service is an oracle: `creates[i]` is what the i-th creation
 * returns and `polls[i]` the successive answers to status queries about the
 * i-th build. Dispatch and polling run one after the other.
 */
module Runner {
  import opened Wrappers
  import Text

  datatype Params = Params(org: string, pipeline: string, builds: int, branch: string, commit: string)

  /** What one creation call sends: the target pipeline and a `CreateBuild` body. */
  datatype CreateRequest = CreateRequest(org: string, pipeline: string, commit: string, branch: string, message: string)

  /** The fields of a go-buildkite `Build` the runner reads. */
  datatype Build = Build(
    number: int, url: string, pipelineSlug: string, state: string,
    createdAt: Option<int>, scheduledAt: Option<int>, startedAt: Option<int>, finishedAt: Option<int>)

  /** What one status query sends: organization, pipeline slug and the build number as text. */
  datatype GetRequest = GetRequest(org: string, pipeline: string, number: string)

  /** An entry of `Result.errors`. */
  datatype RunError =
    | CreateError(text: string)   // the error a creation call returned
    | NilError                    // what a failed status query records: `ctx.Err()`, nil on a background context

  /** How a poller stops, if it does within the answers it is given. */
  datatype PollOutcome =
    | PollFailed          // a status query failed
    | Finished(b: Build)  // the build finished in a state other than "not_run"
    | NotRun(b: Build)    // the build finished as "not_run": the process exits with status 1
    | StillRunning        // every answer said "not finished": the poller keeps polling

  /** The answer to a creation call or a status query: a build, or the error's text. */
  type Answer = Wrappers.Result<Build, string>

  datatype Summary = SummaryOf(total: int, passes: int, failures: int, waitTime: seq<int>, runTime: seq<int>)

  const NotRunState := "not_run"
  const PassedState := "passed"
  const FailedState := "failed"

  // ---------------------------------------------------------------------
  // getOrgFromURL: the regexp `organizations/(.+?)/pipelines`, leftmost first

  const OrgPrefix := "organizations/"
  const PipelinesMarker := "/pipelines"

  /** `/pipelines` starts at `j`, and `u[c..j]` is non-empty with no newline (`.` skips newlines). */
  predicate CloseAt(u: string, c: int, j: int)
  {
    && 0 <= c < j && j + |PipelinesMarker| <= |u|
    && u[j..j + |PipelinesMarker|] == PipelinesMarker
    && forall m :: c <= m < j ==> u[m] != '\n'
  }

  /** The regexp matches `u[i..j + |PipelinesMarker|]`, capturing `u[i + |OrgPrefix|..j]`. */
  predicate IsMatch(u: string, i: int, j: int)
  {
    && 0 <= i && i + |OrgPrefix| <= |u|
    && u[i..i + |OrgPrefix|] == OrgPrefix
    && CloseAt(u, i + |OrgPrefix|, j)
  }

  /** The match Go's regexp reports: the leftmost start, and there the shortest capture. */
  ghost predicate LeftmostFirst(u: string, i: int, j: int)
  {
    && IsMatch(u, i, j)
    && (forall i', j' :: 0 <= i' < i ==> !IsMatch(u, i', j'))
    && (forall j' :: j' < j ==> !IsMatch(u, i, j'))
  }

  /** The nearest `/pipelines` at or after `k` that closes a capture starting at `c`. */
  function CloseFrom(u: string, c: nat, k: nat): (r: Option<nat>)
    requires c < k <= |u|
    requires forall m :: c <= m < k ==> u[m] != '\n'
    ensures r.Some? ==> k <= r.value && CloseAt(u, c, r.value)
    ensures r.Some? ==> forall j :: k <= j < r.value ==> !CloseAt(u, c, j)
    ensures r.None? ==> forall j :: k <= j ==> !CloseAt(u, c, j)
    decreases |u| - k
  {
    if k + |PipelinesMarker| > |u| then None
    else if u[k..k + |PipelinesMarker|] == PipelinesMarker then Some(k)
    else if u[k] == '\n' then None
    else CloseFrom(u, c, k + 1)
  }

  /** The leftmost match starting at or after `i`, with its shortest capture. */
  function MatchFrom(u: string, i: nat): (r: Option<(nat, nat)>)
    ensures r.Some? ==> i <= r.value.0 && IsMatch(u, r.value.0, r.value.1)
    ensures r.Some? ==> forall i', j' :: i <= i' < r.value.0 ==> !IsMatch(u, i', j')
    ensures r.Some? ==> forall j' :: j' < r.value.1 ==> !IsMatch(u, r.value.0, j')
    ensures r.None? ==> forall i', j' :: i <= i' ==> !IsMatch(u, i', j')
    decreases |u| - i
  {
    var c := i + |OrgPrefix|;
    if c > |u| then None
    else if u[i..c] == OrgPrefix && c < |u| && u[c] != '\n' then
      match CloseFrom(u, c, c + 1)
      case Some(j) => Some((i, j))
      case None => MatchFrom(u, i + 1)
    else MatchFrom(u, i + 1)
  }

  /**
   * `getOrgFromURL`: the capture of the leftmost match. Without a match
   * `match[1]` panics, so a match is required.
   */
  function GetOrgFromURL(u: string): (org: string)
    requires exists i, j :: IsMatch(u, i, j)
    ensures exists i, j :: LeftmostFirst(u, i, j) && org == u[i + |OrgPrefix|..j]
    ensures |org| > 0 && forall k :: 0 <= k < |org| ==> org[k] != '\n'
  {
    var m := MatchFrom(u, 0);
    var i, j := m.value.0, m.value.1;
    assert LeftmostFirst(u, i, j);
    u[i + |OrgPrefix|..j]
  }

  /** There is only one leftmost-first match, so the organization is well defined. */
  lemma LeftmostFirstUnique(u: string, i1: int, j1: int, i2: int, j2: int)
    requires LeftmostFirst(u, i1, j1) && LeftmostFirst(u, i2, j2)
    ensures i1 == i2 && j1 == j2
  {
  }

  /**
   * A build URL names its organization between "organizations/" and
   * "/pipelines": for a URL `pre + "organizations/" + org + "/pipelines" + rest`
   * the result is `org`, when `org` is a non-empty path segment and `pre`
   * (such as "https://api.buildkite.com/v2/") holds no 'z', so that no match
   * can start inside it.
   */
  lemma OrgOfBuildURL(pre: string, org: string, rest: string)
    requires forall k :: 0 <= k < |pre| ==> pre[k] != 'z'
    requires |org| > 0 && forall k :: 0 <= k < |org| ==> org[k] != '\n' && org[k] != '/'
    ensures var u := pre + OrgPrefix + org + PipelinesMarker + rest;
            (exists i, j :: IsMatch(u, i, j)) && GetOrgFromURL(u) == org
  {
    var u := pre + OrgPrefix + org + PipelinesMarker + rest;
    var i, j := |pre|, |pre| + |OrgPrefix| + |org|;
    assert u[i..i + |OrgPrefix|] == OrgPrefix;
    assert u[j..j + |PipelinesMarker|] == PipelinesMarker;
    assert u[i + |OrgPrefix|..j] == org;
    assert IsMatch(u, i, j);
    // Every occurrence of "organizations/" has its 'z' at offset 6; none fits before `i`.
    forall i', j' | 0 <= i' < i ensures !IsMatch(u, i', j') {
      if i' + |OrgPrefix| <= |u| {
        assert u[i' + 6] != 'z' by {
          if i' + 6 < |pre| {
            assert u[i' + 6] == pre[i' + 6];
          } else {
            assert u[i' + 6] == OrgPrefix[i' + 6 - |pre|];
          }
        }
        assert u[i'..i' + |OrgPrefix|][6] == u[i' + 6];
      }
    }
    // A shorter capture would end at a '/' inside `org`.
    forall j' | j' < j ensures !IsMatch(u, i, j') {
      if i + |OrgPrefix| < j' {
        assert u[j'] == org[j' - i - |OrgPrefix|];
        assert u[j'..j' + |PipelinesMarker|][0] == u[j'];
      }
    }
    assert LeftmostFirst(u, i, j);
    var r := GetOrgFromURL(u);
    var i2, j2 :| LeftmostFirst(u, i2, j2) && r == u[i2 + |OrgPrefix|..j2];
    LeftmostFirstUnique(u, i, j, i2, j2);
  }

  // ---------------------------------------------------------------------
  // pollBuild

  /** An answer that keeps the poller polling: the query succeeded and the build has not finished. */
  predicate KeepsPolling(o: Answer)
  {
    o.Success? && o.value.finishedAt.None?
  }

  /** The position of the answer at which polling stops, or `|answers|` if none stops it. */
  function StopIndex(answers: seq<Answer>): (k: nat)
    ensures k <= |answers|
    ensures forall m :: 0 <= m < k ==> KeepsPolling(answers[m])
    ensures k < |answers| ==> !KeepsPolling(answers[k])
  {
    if |answers| == 0 then 0
    else if !KeepsPolling(answers[0]) then 0
    else 1 + StopIndex(answers[1..])
  }

  /** How polling ends on these answers. */
  function PollOutcomeOf(answers: seq<Answer>): (o: PollOutcome)
    ensures o == StillRunning <==> forall m :: 0 <= m < |answers| ==> KeepsPolling(answers[m])
    ensures o.PollFailed? ==> exists m :: 0 <= m < |answers| && answers[m].Failure?
    ensures o.Finished? || o.NotRun? ==> Success(o.b) in answers && o.b.finishedAt.Some?
    ensures o.Finished? ==> o.b.state != NotRunState
    ensures o.NotRun? ==> o.b.state == NotRunState
    ensures o != StillRunning ==>
              && StopIndex(answers) < |answers|
              && (o.PollFailed? <==> answers[StopIndex(answers)].Failure?)
              && (o.Finished? || o.NotRun? ==> answers[StopIndex(answers)] == Success(o.b))
  {
    var k := StopIndex(answers);
    if k == |answers| then StillRunning
    else match answers[k]
      case Failure(_) => PollFailed
      case Success(b) => if b.state == NotRunState then NotRun(b) else Finished(b)
  }

  /** The number of status queries made on these answers. */
  function QueryCount(answers: seq<Answer>): (c: nat)
    ensures c <= |answers|
    ensures c == 0 <==> |answers| == 0
    ensures forall m :: 0 <= m < c - 1 ==> KeepsPolling(answers[m])
    ensures 0 < c ==> c == |answers| || !KeepsPolling(answers[c - 1])
  {
    var k := StopIndex(answers);
    if k == |answers| then k else k + 1
  }

  /** Whether a poller that ends this way calls `Done`: `os.Exit` skips the deferred call. */
  predicate SignalsDone(o: PollOutcome)
  {
    o.PollFailed? || o.Finished?
  }

  /** The query `pollBuild` repeats for build `b`. */
  function QueryFor(b: Build): (q: GetRequest)
    requires exists i, j :: IsMatch(b.url, i, j)
    ensures exists i, j :: LeftmostFirst(b.url, i, j) && q.org == b.url[i + |OrgPrefix|..j]
    ensures q.pipeline == b.pipelineSlug
    ensures q.number == Text.FormatInt(b.number)
  {
    GetRequest(GetOrgFromURL(b.url), b.pipelineSlug, Text.FormatInt(b.number))
  }

  /** The timestamps the log lines of a finished build dereference (runner/runner.go:95-101). */
  predicate Timestamped(b: Build)
  {
    b.createdAt.Some? && b.scheduledAt.Some? && b.startedAt.Some?
  }

  /**
   * A build the poller logs as finished carries those timestamps; a nil one
   * panics inside the goroutine and ends the process.
   */
  predicate LogsSafely(answers: seq<Answer>)
  {
    PollOutcomeOf(answers).Finished? ==> Timestamped(PollOutcomeOf(answers).b)
  }

  /** Three "not finished" answers and then a passed build: four queries, one finished build. */
  lemma PollFourQueries(running: Build, done: Build)
    requires running.finishedAt.None? && done.finishedAt.Some? && done.state == PassedState
    ensures var answers := [Success(running), Success(running), Success(running), Success(done)];
            PollOutcomeOf(answers) == Finished(done) && QueryCount(answers) == 4
  {
    var answers: seq<Answer> := [Success(running), Success(running), Success(running), Success(done)];
    var last: seq<Answer> := [Success(done)];
    assert StopIndex(last) == 0;
    assert answers[1..][1..][1..] == last;
    assert StopIndex(answers[1..][1..]) == 1;
    assert StopIndex(answers[1..]) == 2;
    assert StopIndex(answers) == 3;
  }

  // ---------------------------------------------------------------------
  // Result

  /** How many builds in `bs` are in state `st`. */
  function CountState(bs: seq<Build>, st: string): (n: nat)
    ensures n <= |bs|
  {
    if |bs| == 0 then 0
    else CountState(bs[..|bs| - 1], st) + (if bs[|bs| - 1].state == st then 1 else 0)
  }

  /**
   * Passes and failures never add up to more than the builds, and add up
   * to exactly that when every build is either passed or failed.
   */
  lemma {:induction false} PassesAndFailures(bs: seq<Build>)
    ensures CountState(bs, PassedState) + CountState(bs, FailedState) <= |bs|
    ensures CountState(bs, PassedState) + CountState(bs, FailedState) == |bs| <==>
            forall i :: 0 <= i < |bs| ==> bs[i].state == PassedState || bs[i].state == FailedState
  {
    if |bs| > 0 {
      var init := bs[..|bs| - 1];
      PassesAndFailures(init);
      assert forall i :: 0 <= i < |init| ==> init[i] == bs[i];
    }
  }

  /** Passed, failed, passed: two passes and one failure out of three. */
  lemma SummaryOfThree(a: Build, b: Build, c: Build)
    requires a.state == PassedState && b.state == FailedState && c.state == PassedState
    ensures CountState([a, b, c], PassedState) == 2 && CountState([a, b, c], FailedState) == 1
  {
    assert PassedState != FailedState;
    assert [a][..0] == [];
    assert CountState([a], PassedState) == 1 && CountState([a], FailedState) == 0;
    assert [a, b][..1] == [a];
    assert CountState([a, b], PassedState) == 1 && CountState([a, b], FailedState) == 1;
    assert [a, b, c][..2] == [a, b];
  }

  /** A count a `sync.WaitGroup` holds: its counter is a 32-bit signed integer that must not be negative. */
  predicate CounterFits(n: int) {
    0 <= n < 0x8000_0000
  }

  /**
   * `Result`: the `sync.WaitGroup` counter and the two lists the workers
   * append to.
   */
  class Result {
    var pending: int
    var errors: seq<RunError>
    var builds: seq<Build>

    constructor ()
      ensures pending == 0 && errors == [] && builds == []
    {
      pending := 0;
      errors := [];
      builds := [];
    }

    /**
     * `WaitGroup.Add`. The counter is a 32-bit signed integer, and `Add`
     * panics when the new count is negative, which covers a count past
     * 2^31 - 1 read back as negative.
     */
    method Add(n: int)
      requires CounterFits(pending + n)
      modifies this
      ensures pending == old(pending) + n && errors == old(errors) && builds == old(builds)
    {
      pending := pending + n;
    }

    /** `WaitGroup.Done`, which panics on a counter that is already zero. */
    method Done()
      requires pending > 0
      modifies this
      ensures pending == old(pending) - 1 && errors == old(errors) && builds == old(builds)
    {
      pending := pending - 1;
    }

    method RecordError(e: RunError)
      modifies this
      ensures errors == old(errors) + [e] && pending == old(pending) && builds == old(builds)
    {
      errors := errors + [e];
    }

    method RecordBuild(b: Build)
      modifies this
      ensures builds == old(builds) + [b] && pending == old(pending) && errors == old(errors)
    {
      builds := builds + [b];
    }

    /**
     * `Errors`: the recorded errors, once `Wait` has returned (the counter
     * is zero). It changes nothing, so every call gives the same list.
     */
    method Errors() returns (es: seq<RunError>)
      requires pending == 0
      ensures es == errors
    {
      es := errors;
    }

    /**
     * `Summary`, once `Wait` has returned: every recorded build counts in
     * `total`; "passed" ones are passes, "failed" ones failures, any other
     * state neither. The duration lists are never filled. It changes
     * nothing, so every call gives the same summary.
     */
    method Summary() returns (s: Summary)
      requires pending == 0
      ensures s.total == |builds|
      ensures s.passes == CountState(builds, PassedState)
      ensures s.failures == CountState(builds, FailedState)
      ensures s.passes + s.failures <= s.total
      ensures s.waitTime == [] && s.runTime == []
    {
      var passes, failures := 0, 0;
      for i := 0 to |builds|
        invariant passes == CountState(builds[..i], PassedState)
        invariant failures == CountState(builds[..i], FailedState)
      {
        assert builds[..i + 1][..i] == builds[..i];
        var st := builds[i].state;
        if st == FailedState {
          failures := failures + 1;
        } else if st == PassedState {
          passes := passes + 1;
        }
      }
      assert builds[..|builds|] == builds;
      PassesAndFailures(builds);
      s := SummaryOf(|builds|, passes, failures, [], []);
    }
  }

  /**
   * `pollBuild`: queries until an answer fails or shows the build
   * finished. A failed query records one error entry, a finished build is
   * recorded; both then signal `Done`. A "not_run" build records nothing and
   * ends the process before the deferred `Done`. If every answer says "not
   * finished", the poller is still polling: nothing is recorded and no
   * `Done` is signalled. Each query carries the organization taken from the
   * build's URL, its pipeline slug and its number.
   */
  method PollBuild(b: Build, idx: int, res: Result, answers: seq<Answer>)
    returns (outcome: PollOutcome, queries: seq<GetRequest>)
    requires exists i, j :: IsMatch(b.url, i, j)
    requires LogsSafely(answers)
    requires res.pending > 0
    modifies res
    ensures outcome == PollOutcomeOf(answers)
    ensures |queries| == QueryCount(answers)
    ensures forall m :: 0 <= m < |queries| ==> queries[m] == QueryFor(b)
    ensures outcome.PollFailed? ==>
              res.errors == old(res.errors) + [NilError] && res.builds == old(res.builds)
              && res.pending == old(res.pending) - 1
    ensures outcome.Finished? ==>
              res.builds == old(res.builds) + [outcome.b] && res.errors == old(res.errors)
              && res.pending == old(res.pending) - 1
    ensures !SignalsDone(outcome) ==>
              res.errors == old(res.errors) && res.builds == old(res.builds) && res.pending == old(res.pending)
  {
    var query := QueryFor(b);
    queries := [];
    var i := 0;
    while i < |answers|
      invariant 0 <= i <= |answers|
      invariant forall m :: 0 <= m < i ==> KeepsPolling(answers[m])
      invariant |queries| == i && forall m :: 0 <= m < i ==> queries[m] == query
      invariant res.errors == old(res.errors) && res.builds == old(res.builds) && res.pending == old(res.pending)
    {
      // The one-second wait before each query is not modelled.
      queries := queries + [query];
      var answer := answers[i];
      if !KeepsPolling(answer) {
        assert StopIndex(answers) == i;
      }
      if answer.Failure? {
        res.RecordError(NilError);
        res.Done();
        return PollFailed, queries;
      }
      var bx := answer.value;
      if bx.finishedAt.Some? {
        if bx.state == NotRunState {
          return NotRun(bx), queries;
        }
        res.RecordBuild(bx);
        res.Done();
        return Finished(bx), queries;
      }
      assert KeepsPolling(answers[i]);
      i := i + 1;
    }
    outcome := StillRunning;
  }

  // ---------------------------------------------------------------------
  // Run

  /** The commit message of the build with 1-based number `k` out of `n`. */
  function BuildMessage(k: int, n: int): string
  {
    MessageHead + Text.FormatInt(k) + MessageMiddle + Text.FormatInt(n)
  }

  const MessageHead := ":rocket: kitewrk build "
  const MessageMiddle := " of "

  /** The creation request for index `i` (0-based) of a run with `params`. */
  function RequestFor(params: Params, i: nat): (r: CreateRequest)
    ensures r.org == params.org && r.pipeline == params.pipeline
    ensures r.commit == params.commit && r.branch == params.branch
    ensures r.message == BuildMessage(i + 1, params.builds)
  {
    CreateRequest(params.org, params.pipeline, params.commit, params.branch, BuildMessage(i + 1, params.builds))
  }

  /** Different indices of one run carry different messages: the message identifies the build. */
  lemma BuildMessageInjective(i: nat, j: nat, n: int)
    requires BuildMessage(i + 1, n) == BuildMessage(j + 1, n)
    ensures i == j
  {
    BuildMessageShape(i + 1, n);
    BuildMessageShape(j + 1, n);
    SameFrame(MessageHead, Text.FormatInt(i + 1), Text.FormatInt(j + 1), MessageMiddle + Text.FormatInt(n));
    Text.FormatNatInjective(i + 1, j + 1);
  }

  lemma BuildMessageShape(k: int, n: int)
    ensures BuildMessage(k, n) == MessageHead + Text.FormatInt(k) + (MessageMiddle + Text.FormatInt(n))
  {
  }

  /** Equal texts built around the same head and tail have equal middles. */
  lemma SameFrame(head: string, x: string, y: string, tail: string)
    requires head + x + tail == head + y + tail
    ensures x == y
  {
    assert |x| == |y|;
    assert x == (head + x + tail)[|head|..|head| + |x|];
    assert y == (head + y + tail)[|head|..|head| + |y|];
  }

  /** The state of a `Result` as the dispatch loop leaves it, and whether the process exited. */
  datatype Ledger = Ledger(pending: int, errors: seq<RunError>, builds: seq<Build>, exited: bool)

  /** One iteration of the dispatch loop: a creation, then (if it succeeded) polling to the end. */
  function Step(l: Ledger, created: Answer, answers: seq<Answer>): (r: Ledger)
    ensures r.pending + |r.errors| + |r.builds| == l.pending + |l.errors| + |l.builds|
    ensures l.errors <= r.errors && l.builds <= r.builds
    ensures |r.errors| + |r.builds| <= |l.errors| + |l.builds| + 1
    ensures r.exited <==> l.exited || (created.Success? && PollOutcomeOf(answers).NotRun?)
  {
    match created
    case Failure(e) => l.(errors := l.errors + [CreateError(e)], pending := l.pending - 1)
    case Success(_) =>
      match PollOutcomeOf(answers)
      case PollFailed => l.(errors := l.errors + [NilError], pending := l.pending - 1)
      case Finished(b) => l.(builds := l.builds + [b], pending := l.pending - 1)
      case NotRun(_) => l.(exited := true)
      case StillRunning => l
  }

  /** The ledger after the first `k` iterations of a run of `n` builds; nothing happens after an exit. */
  function Dispatch(n: int, creates: seq<Answer>, polls: seq<seq<Answer>>, k: nat): (l: Ledger)
    requires k <= |creates| && k <= |polls|
    ensures |l.errors| + |l.builds| <= k
  {
    if k == 0 then Ledger(n, [], [], false)
    else
      var l := Dispatch(n, creates, polls, k - 1);
      if l.exited then l else Step(l, creates[k - 1], polls[k - 1])
  }

  /** Whether iteration `i` ends in a `Done`: a failed creation, or a poller that records its outcome. */
  predicate Completes(created: Answer, answers: seq<Answer>)
  {
    created.Failure? || SignalsDone(PollOutcomeOf(answers))
  }

  /** How many of the first `k` iterations end in a `Done`. */
  function Completions(creates: seq<Answer>, polls: seq<seq<Answer>>, k: nat): (c: nat)
    requires k <= |creates| && k <= |polls|
    ensures c <= k
  {
    if k == 0 then 0
    else Completions(creates, polls, k - 1) + (if Completes(creates[k - 1], polls[k - 1]) then 1 else 0)
  }

  /** How many of the first `k` creations failed. */
  function FailedCreations(creates: seq<Answer>, k: nat): (c: nat)
    requires k <= |creates|
    ensures c <= k
  {
    if k == 0 then 0 else FailedCreations(creates, k - 1) + (if creates[k - 1].Failure? then 1 else 0)
  }

  /** How many entries of `es` are creation errors. */
  function CreateErrorCount(es: seq<RunError>): (c: nat)
    ensures c <= |es|
  {
    if |es| == 0 then 0 else CreateErrorCount(es[..|es| - 1]) + (if es[|es| - 1].CreateError? then 1 else 0)
  }

  /**
   * Exactly-once accounting: the counter starts at `n` and every recorded
   * entry, in `errors` or in `builds`, is matched by one `Done`; until an
   * exit, the entries are exactly the completed iterations, and creation
   * errors are exactly the failed creations.
   */
  lemma {:induction false} DispatchAccounting(n: int, creates: seq<Answer>, polls: seq<seq<Answer>>, k: nat)
    requires k <= |creates| && k <= |polls|
    ensures var l := Dispatch(n, creates, polls, k);
            l.pending + |l.errors| + |l.builds| == n
    ensures var l := Dispatch(n, creates, polls, k);
            !l.exited ==> |l.errors| + |l.builds| == Completions(creates, polls, k)
    ensures var l := Dispatch(n, creates, polls, k);
            !l.exited ==> CreateErrorCount(l.errors) == FailedCreations(creates, k)
  {
    if k > 0 {
      DispatchAccounting(n, creates, polls, k - 1);
      var l := Dispatch(n, creates, polls, k - 1);
      if !l.exited {
        var e := l.errors;
        if creates[k - 1].Failure? {
          assert (e + [CreateError(creates[k - 1].error)])[..|e|] == e;
        } else if PollOutcomeOf(polls[k - 1]).PollFailed? {
          assert (e + [NilError])[..|e|] == e;
        }
      }
    }
  }

  /** Every iteration completing is the same as all `k` of them being counted. */
  lemma {:induction false} CompletionsAll(creates: seq<Answer>, polls: seq<seq<Answer>>, k: nat)
    requires k <= |creates| && k <= |polls|
    ensures Completions(creates, polls, k) == k <==>
            forall i :: 0 <= i < k ==> Completes(creates[i], polls[i])
  {
    if k > 0 {
      CompletionsAll(creates, polls, k - 1);
    }
  }

  /**
   * The counter of a run that did not exit reaches zero exactly when every
   * one of the `n` iterations ended in a `Done`, that is when `Wait`
   * returns; then every iteration left exactly one entry.
   */
  lemma ReachesZeroExactlyWhenAllComplete(n: nat, creates: seq<Answer>, polls: seq<seq<Answer>>)
    requires |creates| == n && |polls| == n
    requires !Dispatch(n, creates, polls, n).exited
    ensures Dispatch(n, creates, polls, n).pending == 0 <==>
            forall i :: 0 <= i < n ==> Completes(creates[i], polls[i])
    ensures Dispatch(n, creates, polls, n).pending == 0 ==>
            |Dispatch(n, creates, polls, n).errors| + |Dispatch(n, creates, polls, n).builds| == n
  {
    DispatchAccounting(n, creates, polls, n);
    CompletionsAll(creates, polls, n);
  }

  /** The lists only grow: what is recorded after `k` iterations is still there after `k'`. */
  lemma {:induction false} DispatchAppendOnly(n: int, creates: seq<Answer>, polls: seq<seq<Answer>>, k: nat, k': nat)
    requires k <= k' <= |creates| && k' <= |polls|
    ensures var l, l' := Dispatch(n, creates, polls, k), Dispatch(n, creates, polls, k');
            l.errors <= l'.errors && l.builds <= l'.builds && (l.exited ==> l' == l)
  {
    if k < k' {
      DispatchAppendOnly(n, creates, polls, k, k' - 1);
    }
  }

  /** A recorded build has finished and is never "not_run". */
  lemma {:induction false} RecordedBuildsFinished(n: int, creates: seq<Answer>, polls: seq<seq<Answer>>, k: nat)
    requires k <= |creates| && k <= |polls|
    ensures forall b :: b in Dispatch(n, creates, polls, k).builds ==> b.finishedAt.Some? && b.state != NotRunState
  {
    if k > 0 {
      RecordedBuildsFinished(n, creates, polls, k - 1);
      var p := polls[k - 1];
      var s := StopIndex(p);
      if s < |p| && p[s].Success? {
        assert !KeepsPolling(p[s]);
      }
    }
  }

  /**
   * When every poller the run reaches logs its finished build safely, every
   * recorded build carries the timestamps the log lines dereference.
   */
  lemma {:induction false} RecordedBuildsTimestamped(n: int, creates: seq<Answer>, polls: seq<seq<Answer>>, k: nat)
    requires k <= |creates| && k <= |polls|
    requires forall i {:trigger LogsSafely(polls[i])} ::
               0 <= i < k && creates[i].Success? && !Dispatch(n, creates, polls, i).exited ==> LogsSafely(polls[i])
    ensures forall b :: b in Dispatch(n, creates, polls, k).builds ==> Timestamped(b)
  {
    if k > 0 {
      RecordedBuildsTimestamped(n, creates, polls, k - 1);
      assert creates[k - 1].Success? && !Dispatch(n, creates, polls, k - 1).exited ==> LogsSafely(polls[k - 1]);
    }
  }

  /**
   * Three creations where the second fails and the other two builds pass
   * at their first query: the run ends with the counter at zero, one error
   * and two recorded builds.
   */
  lemma OneFailedCreationOfThree(n0: Build, n2: Build, e: string)
    requires n0.finishedAt.Some? && n0.state == PassedState
    requires n2.finishedAt.Some? && n2.state == PassedState
    ensures var creates: seq<Answer> := [Success(n0), Failure(e), Success(n2)];
            var polls: seq<seq<Answer>> := [[Success(n0)], [], [Success(n2)]];
            Dispatch(3, creates, polls, 3) == Ledger(0, [CreateError(e)], [n0, n2], false)
  {
    var creates: seq<Answer> := [Success(n0), Failure(e), Success(n2)];
    var polls: seq<seq<Answer>> := [[Success(n0)], [], [Success(n2)]];
    assert NotRunState != PassedState;
    assert StopIndex(polls[0]) == 0 && StopIndex(polls[2]) == 0;
    assert Dispatch(3, creates, polls, 1) == Ledger(2, [], [n0], false);
    assert Dispatch(3, creates, polls, 2) == Ledger(1, [CreateError(e)], [n0], false);
  }

  /** The creation requests of the first `k` indices, in order. */
  function Requests(params: Params, k: nat): (rs: seq<CreateRequest>)
    ensures |rs| == k && forall m :: 0 <= m < k ==> rs[m] == RequestFor(params, m)
  {
    if k == 0 then [] else Requests(params, k - 1) + [RequestFor(params, k - 1)]
  }

  /**
   * One iteration of the dispatch loop, as `Step` specifies it: a failed
   * creation records its error and signals `Done`; a created build is
   * polled to its end.
   */
  method Attempt(idx: nat, created: Answer, answers: seq<Answer>, res: Result) returns (exited: bool)
    requires created.Success? ==> (exists p, q :: IsMatch(created.value.url, p, q)) && LogsSafely(answers)
    requires res.pending > 0
    modifies res
    ensures var l := Step(Ledger(old(res.pending), old(res.errors), old(res.builds), false), created, answers);
            res.pending == l.pending && res.errors == l.errors && res.builds == l.builds && exited == l.exited
  {
    if created.Failure? {
      res.RecordError(CreateError(created.error));
      res.Done();
      exited := false;
    } else {
      // `PollBuild` states the status queries of this poller; `Run` does not return them.
      var outcome, queries := PollBuild(created.value, idx, res, answers);
      exited := outcome.NotRun?;
    }
  }

  /**
   * `Run`: `Add(n)` once, then creation attempts in index order, the i-th
   * carrying the message "build i+1 of n". A failed creation records its
   * error and signals `Done` and the loop goes on; a created build is
   * polled to its end. A "not_run" build ends the process, so no further
   * index is attempted. The `Result` is then the ledger of the attempts made.
   * Every build the poller logs as finished must carry the timestamps the
   * log lines dereference.
   */
  method Run(params: Params, creates: seq<Answer>, polls: seq<seq<Answer>>)
    returns (res: Result, requests: seq<CreateRequest>, exited: bool)
    requires CounterFits(params.builds)
    requires |creates| == params.builds && |polls| == params.builds
    requires forall i {:trigger LogsSafely(polls[i])} ::
               0 <= i < |creates| && creates[i].Success? && !Dispatch(params.builds, creates, polls, i).exited ==>
               (exists p, q :: IsMatch(creates[i].value.url, p, q)) && LogsSafely(polls[i])
    ensures fresh(res)
    ensures |requests| <= params.builds
    ensures forall m :: 0 <= m < |requests| ==> requests[m] == RequestFor(params, m)
    ensures var l := Dispatch(params.builds, creates, polls, |requests|);
            res.pending == l.pending && res.errors == l.errors && res.builds == l.builds && exited == l.exited
    ensures !exited ==> |requests| == params.builds
    ensures exited ==> |requests| > 0 && !Dispatch(params.builds, creates, polls, |requests| - 1).exited
  {
    res := new Result();
    res.Add(params.builds);
    requests := [];
    exited := false;
    var i := 0;
    while i < params.builds && !exited
      invariant 0 <= i <= params.builds
      invariant requests == Requests(params, i)
      invariant var l := Dispatch(params.builds, creates, polls, i);
                res.pending == l.pending && res.errors == l.errors && res.builds == l.builds && exited == l.exited
      invariant res.pending >= params.builds - i
      invariant exited ==> i > 0 && !Dispatch(params.builds, creates, polls, i - 1).exited
    {
      requests := requests + [RequestFor(params, i)];
      ghost var l := Dispatch(params.builds, creates, polls, i);
      assert !l.exited && (creates[i].Success? ==> (exists p, q :: IsMatch(creates[i].value.url, p, q)) && LogsSafely(polls[i]));
      assert l == Ledger(res.pending, res.errors, res.builds, false);
      assert Dispatch(params.builds, creates, polls, i + 1) == Step(l, creates[i], polls[i]);
      exited := Attempt(i, creates[i], polls[i], res);
      assert res.pending >= l.pending - 1;
      i := i + 1;
    }
  }
}
