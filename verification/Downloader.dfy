/** The download of a job's document: what the server sends becomes a file, or an error. */
module Downloader {
  import opened Options

  type Bytes = seq<int>

  const MAX_BYTES := 25 * 1024 * 1024
  const DOWNLOAD_FAILED := "DOWNLOAD_FAILED"
  const TOO_LARGE := "Document exceeds max size of 26214400 bytes"
  const EMPTY_DOCUMENT := "Document was empty"

  /** How a response stream ends: as it should, or by a timeout or a transport error. */
  datatype Ending = Ended | Broken(code: string, text: string)

  /** What a request meets: a refusal before any byte is written (the URL, the HTTP status, the
      content type, the connection), or a stream of chunks. */
  datatype Source = Refused(code: string, text: string) | Stream(chunks: seq<Bytes>, ending: Ending)

  datatype Outcome = Success(byteCount: nat, hashed: Bytes) | DownloadError(code: string, text: string)

  function Flatten(chunks: seq<Bytes>): Bytes {
    if chunks == [] then [] else Flatten(chunks[..|chunks|-1]) + chunks[|chunks|-1]
  }

  lemma FlattenPush(got: seq<Bytes>, chunk: Bytes)
    ensures Flatten(got + [chunk]) == Flatten(got) + chunk
  {
    assert (got + [chunk])[..|got|] == got;
  }

  /** The chunk loop from a state in which `got` is written and `todo` is still to come: the
      file it leaves and the error it raises, if any. */
  function Fetch(got: seq<Bytes>, todo: seq<Bytes>, ending: Ending): (Bytes, Option<(string, string)>)
    decreases |todo|
  {
    var file := Flatten(got);
    if todo != [] then
      if |file| + |todo[0]| > MAX_BYTES then (file, Some((DOWNLOAD_FAILED, TOO_LARGE)))
      else Fetch(got + [todo[0]], todo[1..], ending)
    else if ending.Broken? then (file, Some((ending.code, ending.text)))
    else if file == [] then (file, Some((DOWNLOAD_FAILED, EMPTY_DOCUMENT)))
    else (file, None)
  }

  lemma {:induction false} FlattenConcat(a: seq<Bytes>, b: seq<Bytes>)
    ensures Flatten(a + b) == Flatten(a) + Flatten(b)
    decreases |b|
  {
    if b == [] {
      assert a + b == a;
    } else {
      hide Flatten;
      var front, last := b[..|b|-1], b[|b|-1];
      FlattenConcat(a, front);
      FlattenPush(a + front, last);
      FlattenPush(front, last);
      assert front + [last] == b;
      ConcatAssociates(a, front, [last]);
      ConcatAssociates(Flatten(a), Flatten(front), last);
    }
  }

  /** What the loop makes of a stream, by what was sent in all. More than the maximum: that error,
      and the file holds the chunks before the one that passed it. Else the file is all of it, and
      the error is the stream's own, or that it was empty, or none. */
  ghost predicate FetchedRight(got: seq<Bytes>, todo: seq<Bytes>, ending: Ending, file: Bytes, error: Option<(string, string)>) {
    var all := Flatten(got + todo);
    if |all| > 26214400 then
      && error == Some(("DOWNLOAD_FAILED", "Document exceeds max size of 26214400 bytes"))
      && exists k :: 0 <= k < |todo| && file == Flatten(got + todo[..k]) && |Flatten(got + todo[..k + 1])| > 26214400
    else
      && file == all
      && error == match ending
                  case Broken(code, text) => Some((code, text))
                  case Ended => if all == [] then Some(("DOWNLOAD_FAILED", "Document was empty")) else None
  }

  /** The loop succeeds exactly on a stream that ends well and is neither empty nor too large,
      and then the file is all of it; it never writes more than the maximum, and what it leaves
      is always the beginning of what was sent. */
  lemma {:induction false} FetchIs(got: seq<Bytes>, todo: seq<Bytes>, ending: Ending)
    requires |Flatten(got)| <= MAX_BYTES
    ensures
      var (file, error) := Fetch(got, todo, ending);
      var all := Flatten(got + todo);
      && FetchedRight(got, todo, ending, file, error)
      && (error.None? <==> ending.Ended? && 0 < |all| <= MAX_BYTES)
      && (error.None? ==> file == all)
      && |file| <= MAX_BYTES && file <= all
    decreases |todo|
  {
    if todo != [] {
      var next, rest := got + [todo[0]], todo[1..];
      FetchUnfolds(got, todo, ending);
      FlattenPush(got, todo[0]);
      assert next + rest == got + todo;
      FlattenConcat(next, rest);
      hide Fetch, Flatten, FetchedRight;
      ConcatAssociates(Flatten(got), todo[0], Flatten(rest));
      if |Flatten(got)| + |todo[0]| <= MAX_BYTES {
        FetchIs(next, rest, ending);
        var (file, error) := Fetch(next, rest, ending);
        FetchedOneMore(got, todo, ending, file, error);
      } else {
        TooMuch(got, todo, ending);
      }
    } else {
      assert got + todo == got;
    }
  }

  lemma FetchUnfolds(got: seq<Bytes>, todo: seq<Bytes>, ending: Ending)
    requires todo != []
    ensures Fetch(got, todo, ending) ==
      if |Flatten(got)| + |todo[0]| > MAX_BYTES then (Flatten(got), Some((DOWNLOAD_FAILED, TOO_LARGE)))
      else Fetch(got + [todo[0]], todo[1..], ending)
  {
  }

  lemma TooMuch(got: seq<Bytes>, todo: seq<Bytes>, ending: Ending)
    requires todo != [] && |Flatten(got)| + |todo[0]| > MAX_BYTES && |Flatten(got + todo)| > MAX_BYTES
    ensures FetchedRight(got, todo, ending, Flatten(got), Some((DOWNLOAD_FAILED, TOO_LARGE)))
  {
    FlattenPush(got, todo[0]);
    FirstIsTooMuch(got, todo);
    hide Flatten;
    assert Flatten(got) == Flatten(got + todo[..0]) && |Flatten(got + todo[..0 + 1])| > MAX_BYTES;
  }

  lemma FetchedOneMore(got: seq<Bytes>, todo: seq<Bytes>, ending: Ending, file: Bytes, error: Option<(string, string)>)
    requires todo != [] && FetchedRight(got + [todo[0]], todo[1..], ending, file, error)
    ensures FetchedRight(got, todo, ending, file, error)
  {
    hide Flatten;
    var next, rest := got + [todo[0]], todo[1..];
    assert next + rest == got + todo;
    if |Flatten(got + todo)| > 26214400 {
      var k :| 0 <= k < |rest| && file == Flatten(next + rest[..k]) && |Flatten(next + rest[..k + 1])| > 26214400;
      assert next + rest[..k] == got + todo[..k + 1] && next + rest[..k + 1] == got + todo[..k + 2];
    }
  }

  lemma FirstIsTooMuch(got: seq<Bytes>, todo: seq<Bytes>)
    requires todo != []
    ensures got + todo[..0] == got && got + todo[..1] == got + [todo[0]]
  {
  }

  /** `download_document`: the file at the job's path, before and after. */
  method DownloadDocument(source: Source, file: Option<Bytes>) returns (outcome: Outcome, file': Option<Bytes>)
    ensures source.Refused? ==> outcome == DownloadError(source.code, source.text) && file' == file
    ensures source.Stream? ==>
      var (written, error) := Fetch([], source.chunks, source.ending);
      && file' == Some(written)
      && outcome == (if error.None? then Success(|written|, written) else DownloadError(error.value.0, error.value.1))
  {
    file' := file;
    if source.Refused? {
      return DownloadError(source.code, source.text), file;
    }
    var chunks := source.chunks;
    var byteCount, hashed, content := 0, [], [];
    var i := 0;
    while i < |chunks|
      invariant 0 <= i <= |chunks|
      invariant byteCount == |content| && hashed == content == Flatten(chunks[..i])
      invariant Fetch(chunks[..i], chunks[i..], source.ending) == Fetch([], chunks, source.ending)
    {
      assert chunks[i..][0] == chunks[i] && chunks[i..][1..] == chunks[i + 1..];
      assert chunks[..i + 1] == chunks[..i] + [chunks[i]];
      FlattenPush(chunks[..i], chunks[i]);
      byteCount := byteCount + |chunks[i]|;
      if byteCount > MAX_BYTES {
        return DownloadError(DOWNLOAD_FAILED, TOO_LARGE), Some(content);
      }
      hashed := hashed + chunks[i];
      content := content + chunks[i];
      i := i + 1;
    }
    assert chunks[i..] == [];
    file' := Some(content);
    if source.ending.Broken? {
      return DownloadError(source.ending.code, source.ending.text), file';
    }
    if byteCount == 0 {
      return DownloadError(DOWNLOAD_FAILED, EMPTY_DOCUMENT), file';
    }
    return Success(byteCount, hashed), file';
  }
}
