/** The installer's file download (`Downloader.download`): up to a fixed
    number of attempts, each streaming the response in chunks into the
    output file while a progress bar follows the running byte count. The
    network is a parameter: the response each attempt gets. File contents
    are not modelled, only chunk lengths. */
module Download {
  import opened Wrappers
  import opened InstallErrors
  import opened InstallerConfig
  import opened Progress

  /** What an attempt's request produced: an error (connection failure, bad
      status, unreadable content-length), or the content-length header and
      the lengths of the chunks the body arrived in. */
  datatype HttpResponse = RequestFailed(error: string) | Response(contentLength: Option<int>, chunks: seq<nat>)

  /** The total number of bytes in the chunks. */
  function Sum(chunks: seq<nat>): nat {
    if chunks == [] then 0 else Sum(chunks[..|chunks| - 1]) + chunks[|chunks| - 1]
  }

  predicate HasData(chunks: seq<nat>) {
    exists k :: 0 <= k < |chunks| && chunks[k] > 0
  }

  /** A missing content-length counts as 0. */
  function TotalSize(r: HttpResponse): int
    requires r.Response?
  {
    if r.contentLength.Some? then r.contentLength.value else 0
  }

  /** How one attempt ends: a failed request fails it, and so does the first
      non-empty chunk when the total is 0, because updating the bar divides by it. */
  function AttemptResult(r: HttpResponse): Outcome<string> {
    match r
    case RequestFailed(e) => Fail(e)
    case Response(_, chunks) => if TotalSize(r) == 0 && HasData(chunks) then Fail(ZeroDivision) else Pass
  }

  /** The last component of a path (`Path.name`). */
  function Name(p: Path): string {
    if p == [] then "" else p[|p| - 1]
  }

  lemma SumAppend(chunks: seq<nat>, c: nat)
    ensures Sum(chunks + [c]) == Sum(chunks) + c
  {
    assert (chunks + [c])[..|chunks|] == chunks;
  }

  /** The inner loop of one attempt: writes each non-empty chunk, adds its
      length to `downloaded` and moves the bar to the new running total. */
  method ReceiveChunks(chunks: seq<nat>, total: int, name: string) returns (downloaded: nat, r: Outcome<string>, bar: ProgressBar)
    ensures fresh(bar) && bar.total == total
    ensures r.Fail? <==> total == 0 && HasData(chunks)
    ensures r.Fail? ==> r.error == ZeroDivision
    ensures r.Pass? ==> downloaded == Sum(chunks)
    ensures r.Pass? ==> bar.current == if HasData(chunks) then Min(Sum(chunks), total) else 0
  {
    bar := new ProgressBar(total, "Downloading " + name, 50);
    downloaded := 0;
    r := Pass;
    var i := 0;
    while i < |chunks|
      invariant 0 <= i <= |chunks|
      invariant bar.total == total
      invariant downloaded == Sum(chunks[..i])
      invariant bar.current == if HasData(chunks[..i]) then Min(downloaded, total) else 0
      invariant total == 0 ==> !HasData(chunks[..i])
    {
      SumAppend(chunks[..i], chunks[i]);
      assert chunks[..i + 1] == chunks[..i] + [chunks[i]];
      if chunks[i] > 0 {
        downloaded := downloaded + chunks[i];
        var shown := bar.Update(Some(downloaded));
        if shown.Fail? {
          return downloaded, shown, bar;
        }
        assert chunks[..i + 1][i] > 0;
      } else {
        assert HasData(chunks[..i + 1]) ==> HasData(chunks[..i]) by {
          if HasData(chunks[..i + 1]) {
            var k :| 0 <= k < i + 1 && chunks[..i + 1][k] > 0;
            assert chunks[..i][k] > 0;
          }
        }
      }
      i := i + 1;
    }
    assert chunks[..i] == chunks;
  }

  /** The number of the first attempt below `n` that succeeds, or `n`. */
  function FirstSuccess(responses: nat -> HttpResponse, n: nat): (k: nat)
    ensures k <= n
    ensures forall j :: 0 <= j < k ==> AttemptResult(responses(j)).Fail?
    ensures k < n ==> AttemptResult(responses(k)).Pass?
  {
    if n == 0 then 0
    else
      var k := FirstSuccess(responses, n - 1);
      if k < n - 1 then k
      else if AttemptResult(responses(n - 1)).Pass? then n - 1
      else n
  }

  /** `download`: tries up to `RetryAttempts` times, returning the output path
      on the first success. Each failure but the last is followed by a pause;
      after the last, the error names the URL and the last failure. `created`
      says whether some attempt got far enough to open the output file. */
  method Download(url: string, outputPath: Path, responses: nat -> HttpResponse)
    returns (r: Result<Path, InstallError>, attempts: nat, pauses: nat, created: bool)
    ensures 1 <= attempts <= RetryAttempts
    ensures pauses == attempts - 1
    ensures created <==> exists j :: 0 <= j < attempts && responses(j).Response?
    ensures var k := FirstSuccess(responses, RetryAttempts);
      && (r.Ok? <==> k < RetryAttempts)
      && (r.Ok? ==> r.value == outputPath && attempts == k + 1)
      && (r.Err? ==> attempts == RetryAttempts
                     && r.error == DownloadError(url, AttemptResult(responses(RetryAttempts - 1)).error))
  {
    attempts := 0;
    pauses := 0;
    created := false;
    while attempts < RetryAttempts
      invariant 0 <= attempts < RetryAttempts
      invariant pauses == attempts
      invariant created <==> exists j :: 0 <= j < attempts && responses(j).Response?
      invariant forall j :: 0 <= j < attempts ==> AttemptResult(responses(j)).Fail?
      invariant FirstSuccess(responses, RetryAttempts) >= attempts
      decreases RetryAttempts - attempts
    {
      var response := responses(attempts);
      created := created || response.Response?;
      var outcome := Pass;
      match response {
        case RequestFailed(e) =>
          outcome := Fail(e);
        case Response(_, chunks) =>
          var downloaded, received, bar := ReceiveChunks(chunks, TotalSize(response), Name(outputPath));
          outcome := received;
      }
      assert outcome == AttemptResult(response);
      if outcome.Pass? {
        FirstSuccessIs(responses, RetryAttempts, attempts);
        return Ok(outputPath), attempts + 1, pauses, created;
      }
      attempts := attempts + 1;
      if attempts >= RetryAttempts {
        FirstSuccessNone(responses, RetryAttempts);
        return Err(DownloadError(url, outcome.error)), attempts, pauses, created;
      }
      pauses := pauses + 1;
    }
    assert false;
  }

  /** The first success is the first attempt that passes after failures only. */
  lemma {:induction false} FirstSuccessIs(responses: nat -> HttpResponse, n: nat, k: nat)
    requires k < n
    requires forall j :: 0 <= j < k ==> AttemptResult(responses(j)).Fail?
    requires AttemptResult(responses(k)).Pass?
    ensures FirstSuccess(responses, n) == k
  {
    if n - 1 > k {
      FirstSuccessIs(responses, n - 1, k);
    }
  }

  lemma {:induction false} FirstSuccessNone(responses: nat -> HttpResponse, n: nat)
    requires forall j :: 0 <= j < n ==> AttemptResult(responses(j)).Fail?
    ensures FirstSuccess(responses, n) == n
  {
    if n > 0 {
      FirstSuccessNone(responses, n - 1);
    }
  }

  /** Without a content-length, any body with data fails every attempt, so
      the download raises after three tries. */
  lemma MissingLengthAlwaysFails(responses: nat -> HttpResponse)
    requires forall j :: responses(j).Response? && responses(j).contentLength.None? && HasData(responses(j).chunks)
    ensures FirstSuccess(responses, RetryAttempts) == RetryAttempts
    ensures AttemptResult(responses(RetryAttempts - 1)) == Fail(ZeroDivision)
  {
    FirstSuccessNone(responses, RetryAttempts);
  }
}
