/**
 * The GraphQL client of buildkite/client.go, from the point where the HTTP
 * exchange has produced a response: the error check on the response
 * (which drains and restores the body), the error text of a GraphQL error
 * list, the variables `BuildCreate` sends and the fields it returns, and the
 * duration fold `GetBuild` runs over the decoded build.
 *
 * Timestamps are integers on one clock and durations are their differences.
 * JSON decoding is a parameter of each operation that decodes.
 */
module Client {
  import opened Wrappers
  import Text

  newtype byte = b: int | 0 <= b < 256

  /** `http.StatusOK`. */
  const StatusOK := 200

  const GraphQLErrorPrefix := "graphql error: "

  /** The job state the duration fold counts. */
  const FinishedJobState := "FINISHED"

  /** One element of the `errors` array of a GraphQL response. */
  datatype ErrorEntry = ErrorEntry(message: string)

  /** `responseError`: the decoded `errors` array, empty when there is none. */
  datatype ResponseError = ResponseError(errors: seq<ErrorEntry>)

  /** The errors the client returns. */
  datatype ClientError =
    | Foreign(text: string)                          // an error of a library the model does not see
    | GraphQL(response: ResponseError)               // *responseError
    | BadStatus(status: string)                      // "response returned status %s"
    | Wrapped(context: string, cause: ClientError)   // errors.Wrap(cause, context)

  function Messages(entries: seq<ErrorEntry>): (ms: seq<string>)
    ensures |ms| == |entries|
    ensures forall i :: 0 <= i < |entries| ==> ms[i] == entries[i].message
  {
    seq(|entries|, i requires 0 <= i < |entries| => entries[i].message)
  }

  /** The text each error reads as; `errors.Wrap` puts the context and ": " in front. */
  function ErrorText(e: ClientError): (t: string)
    ensures e.Wrapped? ==>
              && |e.context| + 2 <= |t| && t[..|e.context| + 2] == e.context + ": "
              && t[|e.context| + 2..] == ErrorText(e.cause)
    ensures e.GraphQL? ==>
              && |GraphQLErrorPrefix| <= |t| && t[..|GraphQLErrorPrefix|] == GraphQLErrorPrefix
              && t[|GraphQLErrorPrefix|..] == Text.Join(Messages(e.response.errors), ", ")
  {
    match e
    case Foreign(t) => t
    case GraphQL(r) => GraphQLErrorPrefix + Text.Join(Messages(r.errors), ", ")
    case BadStatus(s) => "response returned status " + s
    case Wrapped(c, inner) => c + ": " + ErrorText(inner)
  }

  /**
   * `responseError.Error`: collects the messages in order, then joins them
   * behind the prefix. The text starts with the prefix, is only the prefix
   * for an empty list, and gives the messages back when they hold no comma.
   */
  method ResponseErrorText(r: ResponseError) returns (s: string)
    ensures s == ErrorText(GraphQL(r))
    ensures |s| >= |GraphQLErrorPrefix| && s[..|GraphQLErrorPrefix|] == GraphQLErrorPrefix
    ensures |r.errors| == 0 ==> s == GraphQLErrorPrefix
    ensures |r.errors| > 0 && Text.FreeOf(Messages(r.errors), ',') ==>
              Text.SplitAtFirstChar(s[|GraphQLErrorPrefix|..], ", ") == Messages(r.errors)
  {
    var collected: seq<string> := [];
    for i := 0 to |r.errors|
      invariant |collected| == i
      invariant forall k :: 0 <= k < i ==> collected[k] == r.errors[k].message
    {
      collected := collected + [r.errors[i].message];
    }
    assert collected == Messages(r.errors);
    var joined := Text.Join(collected, ", ");
    s := GraphQLErrorPrefix + joined;
    assert s[|GraphQLErrorPrefix|..] == joined;
    if |collected| > 0 && Text.FreeOf(collected, ',') {
      Text.SplitJoin(collected, ", ");
    }
  }

  /**
   * The decision `checkResponseForErrors` takes once the body is read:
   * GraphQL errors win over the HTTP status; otherwise only a status other
   * than 200 is an error.
   */
  function Verdict(decoded: ResponseError, statusCode: int, status: string): (v: Option<ClientError>)
    ensures |decoded.errors| > 0 ==> v == Some(GraphQL(decoded))
    ensures |decoded.errors| == 0 ==> (v.Some? <==> statusCode != StatusOK)
    ensures |decoded.errors| == 0 && v.Some? ==> v.value == BadStatus(status)
  {
    if |decoded.errors| > 0 then Some(GraphQL(decoded))
    else if statusCode != StatusOK then Some(BadStatus(status))
    else None
  }

  /**
   * An `io.ReadCloser` over a fixed byte string. `failure` is the error a
   * read of it meets, if any; a failing read consumes nothing.
   */
  class Body {
    const data: seq<byte>
    const failure: Option<string>
    var pos: nat
    var closed: bool

    ghost predicate Valid()
      reads this
    {
      pos <= |data|
    }

    /** The bytes a reader has yet to see. */
    function Unread(): seq<byte>
      reads this
      requires Valid()
    {
      data[pos..]
    }

    /** `ioutil.NopCloser(bytes.NewBuffer(data))`. */
    constructor FromBytes(bytes: seq<byte>)
      ensures Valid()
      ensures data == bytes && failure == None && pos == 0 && !closed
    {
      data := bytes;
      failure := None;
      pos := 0;
      closed := false;
    }

    /** `ioutil.ReadAll`: everything not yet read, or the stream's error. */
    method ReadAll() returns (r: Result<seq<byte>, string>)
      requires Valid()
      modifies this
      ensures Valid() && closed == old(closed)
      ensures failure.None? ==> r == Success(old(Unread())) && pos == |data|
      ensures failure.Some? ==> r == Failure(failure.value) && pos == old(pos)
    {
      if failure.Some? {
        r := Failure(failure.value);
      } else {
        r := Success(data[pos..]);
        pos := |data|;
      }
    }

    method Close()
      modifies this
      ensures closed && pos == old(pos)
    {
      closed := true;
    }
  }

  /** The part of `*http.Response` the client looks at. */
  class HttpResponse {
    const statusCode: int
    const status: string
    var body: Body

    constructor (statusCode: int, status: string, body: Body)
      ensures this.statusCode == statusCode && this.status == status && this.body == body
    {
      this.statusCode := statusCode;
      this.status := status;
      this.body := body;
    }
  }

  /**
   * `checkResponseForErrors`: reads the whole body, swaps in a fresh body
   * holding exactly the bytes read, and applies `Verdict` to them. When the
   * read fails the body is left in place and the read error is returned.
   * `decodeErrors` is `json.Unmarshal` into a `responseError`, whose own
   * error the source ignores (a body that is not JSON decodes to no errors).
   */
  method CheckResponseForErrors(r: HttpResponse, decodeErrors: seq<byte> -> ResponseError)
    returns (err: Option<ClientError>)
    requires r.body.Valid()
    modifies r, r.body
    ensures r.body.Valid()
    ensures old(r.body.failure).Some? ==>
              && err == Some(Wrapped("failed to read body", Foreign(old(r.body.failure).value)))
              && r.body == old(r.body) && r.body.pos == old(r.body.pos)
              && r.body.closed == old(r.body.closed)
    ensures old(r.body.failure).None? ==>
              && fresh(r.body)
              && r.body.Unread() == old(r.body.Unread())
              && r.body.failure.None? && !r.body.closed
              && old(r.body).closed
              && err == Verdict(decodeErrors(old(r.body.Unread())), r.statusCode, r.status)
  {
    var read := r.body.ReadAll();
    if read.Failure? {
      return Some(Wrapped("failed to read body", Foreign(read.error)));
    }
    var data := read.value;
    r.body.Close();
    r.body := new Body.FromBytes(data);
    var errResp := decodeErrors(data);
    if |errResp.errors| > 0 {
      return Some(GraphQL(errResp));
    }
    if r.statusCode != StatusOK {
      return Some(BadStatus(r.status));
    }
    return None;
  }

  /**
   * What `BuildCreate` relies on when it checks a response that `Do` has
   * already checked: the second check sees the same bytes and returns the
   * same verdict, and the body is still there for the decoder.
   */
  method CheckResponseTwice(r: HttpResponse, decodeErrors: seq<byte> -> ResponseError)
    returns (first: Option<ClientError>, second: Option<ClientError>)
    requires r.body.Valid()
    modifies r, r.body
    ensures r.body.Valid()
    ensures first == second
    ensures old(r.body.failure).None? ==> r.body.Unread() == old(r.body.Unread())
  {
    first := CheckResponseForErrors(r, decodeErrors);
    second := CheckResponseForErrors(r, decodeErrors);
  }

  /**
   * `Do` after the request has been sent: a transport error ends it,
   * otherwise the response is checked. `transportError` is the error of
   * `httpClient.Do`, if any.
   */
  method Do(r: HttpResponse, transportError: Option<string>, decodeErrors: seq<byte> -> ResponseError)
    returns (err: Option<ClientError>)
    requires r.body.Valid()
    modifies r, r.body
    ensures r.body.Valid()
    ensures transportError.Some? ==>
              err == Some(Wrapped("request failed", Foreign(transportError.value)))
              && r.body == old(r.body) && unchanged(r.body)
    ensures transportError.None? && old(r.body.failure).Some? ==>
              && err == Some(Wrapped("failed to read body", Foreign(old(r.body.failure).value)))
              && r.body == old(r.body) && r.body.pos == old(r.body.pos)
    ensures transportError.None? && old(r.body.failure).None? ==>
              && fresh(r.body) && r.body.failure.None?
              && r.body.Unread() == old(r.body.Unread())
              && err == Verdict(decodeErrors(old(r.body.Unread())), r.statusCode, r.status)
  {
    if transportError.Some? {
      return Some(Wrapped("request failed", Foreign(transportError.value)));
    }
    err := CheckResponseForErrors(r, decodeErrors);
  }

  /** `Response.DecodeInto`: decodes what is left of the body. */
  method DecodeInto<T>(r: HttpResponse, decode: seq<byte> -> Result<T, string>)
    returns (res: Result<T, ClientError>)
    requires r.body.Valid()
    modifies r.body
    ensures r.body.Valid()
    ensures r.body.failure.Some? ==> res == Failure(Wrapped("error decoding response", Foreign(r.body.failure.value)))
    ensures r.body.failure.None? ==>
              res == match decode(old(r.body.Unread()))
                     case Success(v) => Success(v)
                     case Failure(m) => Failure(Wrapped("error decoding response", Foreign(m)))
  {
    var read := r.body.ReadAll();
    if read.Failure? {
      return Failure(Wrapped("error decoding response", Foreign(read.error)));
    }
    match decode(read.value)
    case Success(v) => res := Success(v);
    case Failure(m) => res := Failure(Wrapped("error decoding response", Foreign(m)));
  }

  // ---------------------------------------------------------------------
  // BuildCreate

  datatype BuildCreateParams = BuildCreateParams(pipelineID: string, commit: string, branch: string, message: string)

  datatype BuildCreateResponse = BuildCreateResponse(orgSlug: string, pipelineSlug: string, url: string, number: int)

  /** The `build` object of a decoded `buildCreate` answer. */
  datatype CreatedBuild = CreatedBuild(url: string, number: int, pipelineSlug: string, orgSlug: string)

  /** The `input` variable `BuildCreate` sends: the four params under their GraphQL names. */
  function BuildCreateInput(p: BuildCreateParams): (m: map<string, string>)
    ensures m.Keys == {"pipelineID", "commit", "branch", "message"}
    ensures m["pipelineID"] == p.pipelineID && m["commit"] == p.commit
    ensures m["branch"] == p.branch && m["message"] == p.message
  {
    map["pipelineID" := p.pipelineID, "commit" := p.commit, "branch" := p.branch, "message" := p.message]
  }

  /** The answer `BuildCreate` returns: the decoded fields unchanged. */
  function CreateResponseOf(b: CreatedBuild): (r: BuildCreateResponse)
    ensures r.url == b.url && r.number == b.number
    ensures r.orgSlug == b.orgSlug && r.pipelineSlug == b.pipelineSlug
  {
    BuildCreateResponse(b.orgSlug, b.pipelineSlug, b.url, b.number)
  }

  /** Which error, if any, `Do` reports for an exchange: transport, then body read, then verdict. */
  function ExchangeFailure(transportError: Option<string>, bodyFailure: Option<string>, verdict: Option<ClientError>)
    : (f: Option<ClientError>)
    ensures f.None? <==> transportError.None? && bodyFailure.None? && verdict.None?
    ensures transportError.Some? ==>
              && f.Some? && f.value.Wrapped? && f.value.context == "request failed"
              && f.value.cause == Foreign(transportError.value)
    ensures transportError.None? && bodyFailure.Some? ==>
              && f.Some? && f.value.Wrapped? && f.value.context == "failed to read body"
              && f.value.cause == Foreign(bodyFailure.value)
    ensures transportError.None? && bodyFailure.None? ==> f == verdict
  {
    if transportError.Some? then Some(Wrapped("request failed", Foreign(transportError.value)))
    else if bodyFailure.Some? then Some(Wrapped("failed to read body", Foreign(bodyFailure.value)))
    else verdict
  }

  /**
   * `BuildCreate`: sends `BuildCreateInput(params)`, fails with
   * "failed to create build" around whatever `Do` reports, checks the
   * response a second time (which, by `CheckResponseForErrors`, cannot fail
   * where the first check passed), and decodes the build.
   */
  method BuildCreate(params: BuildCreateParams, r: HttpResponse, transportError: Option<string>,
                     decodeErrors: seq<byte> -> ResponseError,
                     decodeBuild: seq<byte> -> Result<CreatedBuild, string>)
    returns (input: map<string, string>, res: Result<BuildCreateResponse, ClientError>)
    requires r.body.Valid()
    modifies r, r.body
    ensures input == BuildCreateInput(params)
    ensures var failure := ExchangeFailure(transportError, old(r.body.failure),
                                       Verdict(decodeErrors(old(r.body.Unread())), r.statusCode, r.status));
            if failure.Some? then res == Failure(Wrapped("failed to create build", failure.value))
            else res == match decodeBuild(old(r.body.Unread()))
                        case Success(b) => Success(CreateResponseOf(b))
                        case Failure(m) => Failure(Wrapped("error decoding response", Foreign(m)))
  {
    input := BuildCreateInput(params);
    var err := Do(r, transportError, decodeErrors);
    if err.Some? {
      return input, Failure(Wrapped("failed to create build", err.value));
    }
    // The body now holds the bytes the first check passed, so this one passes too.
    err := CheckResponseForErrors(r, decodeErrors);
    if err.Some? {
      assert false;
    }
    var decoded := DecodeInto(r, decodeBuild);
    match decoded
    case Failure(e) => res := Failure(e);
    case Success(b) => res := Success(CreateResponseOf(b));
  }

  // ---------------------------------------------------------------------
  // GetBuild

  datatype GetBuildParams = GetBuildParams(slug: string)

  /** A job `node` of the decoded build. */
  datatype Job = Job(state: string, startedAt: Option<int>, finishedAt: Option<int>, runnableAt: Option<int>)

  /** The `build` object of a decoded `build` query answer. */
  datatype DecodedBuild = DecodedBuild(
    number: int, state: string,
    createdAt: Option<int>, startedAt: Option<int>, finishedAt: Option<int>,
    jobs: seq<Job>)

  datatype GetBuildResponse = GetBuildResponse(
    number: int, state: string,
    createdAt: Option<int>, startedAt: Option<int>, finishedAt: Option<int>,
    time: int, jobTime: int, jobWaitTime: int)

  /** The fold dereferences `StartedAt` of a finished job with a runnable or finish time. */
  predicate JobReadable(j: Job)
  {
    j.state == FinishedJobState && (j.runnableAt.Some? || j.finishedAt.Some?) ==> j.startedAt.Some?
  }

  predicate JobsReadable(jobs: seq<Job>)
  {
    forall i :: 0 <= i < |jobs| ==> JobReadable(jobs[i])
  }

  /** `GetBuild` dereferences the build's `StartedAt` when it has finished, and the jobs' as above. */
  predicate BuildReadable(b: DecodedBuild)
  {
    (b.finishedAt.Some? ==> b.startedAt.Some?) && JobsReadable(b.jobs)
  }

  /** What one job adds to `jobWaitTime`. */
  function JobWait(j: Job): int
    requires JobReadable(j)
  {
    if j.state == FinishedJobState && j.runnableAt.Some? then j.startedAt.value - j.runnableAt.value else 0
  }

  /** What one job adds to `jobTime`. */
  function JobRun(j: Job): int
    requires JobReadable(j)
  {
    if j.state == FinishedJobState && j.finishedAt.Some? then j.finishedAt.value - j.startedAt.value else 0
  }

  /** `jobWaitTime` after folding over `jobs`. */
  function JobWaitTime(jobs: seq<Job>): (w: int)
    requires JobsReadable(jobs)
    ensures (forall i :: 0 <= i < |jobs| ==> jobs[i].state != FinishedJobState) ==> w == 0
  {
    if |jobs| == 0 then 0 else JobWaitTime(jobs[..|jobs| - 1]) + JobWait(jobs[|jobs| - 1])
  }

  /** `jobTime` after folding over `jobs`. */
  function JobRunTime(jobs: seq<Job>): (t: int)
    requires JobsReadable(jobs)
    ensures (forall i :: 0 <= i < |jobs| ==> jobs[i].state != FinishedJobState) ==> t == 0
  {
    if |jobs| == 0 then 0 else JobRunTime(jobs[..|jobs| - 1]) + JobRun(jobs[|jobs| - 1])
  }

  /** The jobs whose state is exactly `FINISHED`, in order. */
  function FinishedJobs(jobs: seq<Job>): (fs: seq<Job>)
    ensures forall i :: 0 <= i < |fs| ==> fs[i].state == FinishedJobState
    ensures forall j :: j in jobs && j.state == FinishedJobState ==> j in fs
    ensures forall j :: j in fs ==> j in jobs
    ensures |fs| <= |jobs|
  {
    if |jobs| == 0 then []
    else if jobs[|jobs| - 1].state == FinishedJobState
    then FinishedJobs(jobs[..|jobs| - 1]) + [jobs[|jobs| - 1]]
    else FinishedJobs(jobs[..|jobs| - 1])
  }

  lemma {:induction false} FinishedJobsReadable(jobs: seq<Job>)
    requires JobsReadable(jobs)
    ensures JobsReadable(FinishedJobs(jobs))
  {
    if |jobs| > 0 {
      FinishedJobsReadable(jobs[..|jobs| - 1]);
    }
  }

  /** Both folds add up over a concatenation. */
  lemma {:induction false} JobTimesAppend(a: seq<Job>, b: seq<Job>)
    requires JobsReadable(a) && JobsReadable(b)
    ensures JobsReadable(a + b)
    ensures JobWaitTime(a + b) == JobWaitTime(a) + JobWaitTime(b)
    ensures JobRunTime(a + b) == JobRunTime(a) + JobRunTime(b)
  {
    assert JobsReadable(a + b) by {
      forall i | 0 <= i < |a + b| ensures JobReadable((a + b)[i]) {
        if i >= |a| { assert (a + b)[i] == b[i - |a|]; }
      }
    }
    if |b| > 0 {
      var b' := b[..|b| - 1];
      assert (a + b)[..|a + b| - 1] == a + b';
      assert JobsReadable(b');
      JobTimesAppend(a, b');
    } else {
      assert a + b == a;
    }
  }

  /** Only `FINISHED` jobs count: dropping every other job changes neither fold. */
  lemma {:induction false} OnlyFinishedJobsCount(jobs: seq<Job>)
    requires JobsReadable(jobs)
    ensures JobsReadable(FinishedJobs(jobs))
    ensures JobWaitTime(FinishedJobs(jobs)) == JobWaitTime(jobs)
    ensures JobRunTime(FinishedJobs(jobs)) == JobRunTime(jobs)
  {
    FinishedJobsReadable(jobs);
    if |jobs| > 0 {
      var init, last := jobs[..|jobs| - 1], jobs[|jobs| - 1];
      OnlyFinishedJobsCount(init);
      if last.state == FinishedJobState {
        FinishedJobsReadable(init);
        JobTimesAppend(FinishedJobs(init), [last]);
        assert [last][..0] == [];
      }
    }
  }

  /** A job whose timestamps are in order: runnable, then started, then finished. */
  predicate JobInOrder(j: Job)
  {
    && (j.runnableAt.Some? && j.startedAt.Some? ==> j.runnableAt.value <= j.startedAt.value)
    && (j.startedAt.Some? && j.finishedAt.Some? ==> j.startedAt.value <= j.finishedAt.value)
  }

  /** With timestamps in order, neither fold can go negative. */
  lemma {:induction false} JobTimesNonNegative(jobs: seq<Job>)
    requires JobsReadable(jobs)
    requires forall i :: 0 <= i < |jobs| ==> JobInOrder(jobs[i])
    ensures JobWaitTime(jobs) >= 0 && JobRunTime(jobs) >= 0
  {
    if |jobs| > 0 {
      JobTimesNonNegative(jobs[..|jobs| - 1]);
      assert JobInOrder(jobs[|jobs| - 1]);
    }
  }

  /**
   * The response `GetBuild` builds from a decoded build: the five fields
   * copied, the two job folds, and the build's own duration, which takes
   * it from start to finish and is zero while the build has not finished.
   */
  method DeriveResponse(b: DecodedBuild) returns (r: GetBuildResponse)
    requires BuildReadable(b)
    ensures r.number == b.number && r.state == b.state
    ensures r.createdAt == b.createdAt && r.startedAt == b.startedAt && r.finishedAt == b.finishedAt
    ensures r.jobWaitTime == JobWaitTime(b.jobs) && r.jobTime == JobRunTime(b.jobs)
    ensures b.finishedAt.Some? ==> b.startedAt.value + r.time == b.finishedAt.value
    ensures b.finishedAt.None? ==> r.time == 0
  {
    var buildTime, jobWaitTime, jobTime := 0, 0, 0;
    for i := 0 to |b.jobs|
      invariant JobsReadable(b.jobs[..i])
      invariant jobWaitTime == JobWaitTime(b.jobs[..i])
      invariant jobTime == JobRunTime(b.jobs[..i])
    {
      var node := b.jobs[i];
      assert b.jobs[..i + 1][..i] == b.jobs[..i];
      if node.state == FinishedJobState {
        if node.runnableAt.Some? {
          jobWaitTime := jobWaitTime + (node.startedAt.value - node.runnableAt.value);
        }
        if node.finishedAt.Some? {
          jobTime := jobTime + (node.finishedAt.value - node.startedAt.value);
        }
      }
    }
    assert b.jobs[..|b.jobs|] == b.jobs;
    if b.finishedAt.Some? {
      buildTime := b.finishedAt.value - b.startedAt.value;
    }
    r := GetBuildResponse(b.number, b.state, b.createdAt, b.startedAt, b.finishedAt,
                          buildTime, jobTime, jobWaitTime);
  }

  /**
   * `GetBuild`: sends the slug as `buildSlug`, fails with
   * "failed to get org member" around whatever `Do` reports, checks the
   * response again, decodes the build and derives the response from it.
   */
  method GetBuild(params: GetBuildParams, r: HttpResponse, transportError: Option<string>,
                  decodeErrors: seq<byte> -> ResponseError,
                  decodeBuild: seq<byte> -> Result<DecodedBuild, string>)
    returns (vars: map<string, string>, res: Result<GetBuildResponse, ClientError>)
    requires r.body.Valid()
    requires var failure := ExchangeFailure(transportError, r.body.failure,
                                            Verdict(decodeErrors(r.body.Unread()), r.statusCode, r.status));
             var d := decodeBuild(r.body.Unread());
             failure.None? && d.Success? ==> BuildReadable(d.value)
    modifies r, r.body
    ensures vars == map["buildSlug" := params.slug]
    ensures var failure := ExchangeFailure(transportError, old(r.body.failure),
                                    Verdict(decodeErrors(old(r.body.Unread())), r.statusCode, r.status));
            var decoded := decodeBuild(old(r.body.Unread()));
            && (failure.Some? ==> res == Failure(Wrapped("failed to get org member", failure.value)))
            && (failure.None? && decoded.Failure? ==>
                  res == Failure(Wrapped("error decoding response", Foreign(decoded.error))))
            && (failure.None? && decoded.Success? ==>
                  && res.Success?
                  && res.value.number == decoded.value.number
                  && res.value.state == decoded.value.state
                  && res.value.createdAt == decoded.value.createdAt
                  && res.value.startedAt == decoded.value.startedAt
                  && res.value.finishedAt == decoded.value.finishedAt
                  && res.value.jobWaitTime == JobWaitTime(decoded.value.jobs)
                  && res.value.jobTime == JobRunTime(decoded.value.jobs)
                  && (decoded.value.finishedAt.Some? ==>
                        decoded.value.startedAt.value + res.value.time == decoded.value.finishedAt.value)
                  && (decoded.value.finishedAt.None? ==> res.value.time == 0))
  {
    vars := map["buildSlug" := params.slug];
    var err := Do(r, transportError, decodeErrors);
    if err.Some? {
      return vars, Failure(Wrapped("failed to get org member", err.value));
    }
    // The body now holds the bytes the first check passed, so this one passes too.
    err := CheckResponseForErrors(r, decodeErrors);
    if err.Some? {
      assert false;
    }
    var decoded := DecodeInto(r, decodeBuild);
    match decoded
    case Failure(e) => res := Failure(e);
    case Success(b) => {
      var resp := DeriveResponse(b);
      res := Success(resp);
    }
  }
}
