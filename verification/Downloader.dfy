/** Streaming a tarball to disk (app/infrastructure/npm/tarball_downloader.py). */
module Downloader {
  import opened Wrappers
  import opened Text

  type Bytes = seq<bv8>

  /** A parsed URL; `name` is the last component of its path. */
  datatype Url = Url(scheme: string, netloc: string, name: string)

  /** The exceptions that reach `download` from below, by the clause that catches them; nothing catches the last. */
  datatype Failure = Timeout | HttpError | OsError | Uncaught

  /** What the next turn of the chunk loop meets: a chunk, and whether writing it works, or an exception. */
  datatype Event = Chunk(data: Bytes, writable: bool) | Fails(failure: Failure)

  datatype Response = Response(status: int, fileOpens: bool, events: seq<Event>, closing: Option<Failure>)

  datatype Error = DownloadError | DownloadTimeout | IntegrityError | SizeLimitExceeded | OtherException

  datatype IntegrityCheck = IntegrityCheck(algorithm: string, expected: Bytes)

  // ---------- the integrity metadata

  const ALGORITHMS: set<string> := {"sha1", "sha256", "sha384", "sha512"}

  /** The part of a token before its first dash, and the part after it. */
  function Algorithm(token: string): string {
    if token == "" || token[0] == '-' then "" else [token[0]] + Algorithm(token[1..])
  }

  function Encoded(token: string): string {
    if token == "" then "" else if token[0] == '-' then token[1..] else Encoded(token[1..])
  }

  predicate Supported(token: string) { '-' in token && Algorithm(token) in ALGORITHMS }

  /** The first token of a supported algorithm decides, even if it is malformed and a later one is not. */
  ghost predicate Decides(tokens: seq<string>, k: nat) {
    k < |tokens| && Supported(tokens[k]) && forall j :: 0 <= j < k ==> !Supported(tokens[j])
  }

  /** There is metadata, and its deciding token does not decode, or there is no deciding token. */
  ghost predicate Refuses(integrity: Option<string>, decode: string -> Option<Bytes>) {
    && integrity.Some? && integrity.value != ""
    && var tokens := Words(integrity.value, "");
       forall k: nat :: Decides(tokens, k) ==> decode(Encoded(tokens[k])).None?
  }

  /** No metadata asks for no check; otherwise the check is the deciding token's. */
  ghost predicate Asks(integrity: Option<string>, decode: string -> Option<Bytes>, check: Option<IntegrityCheck>) {
    match check
    case None => integrity == None || integrity == Some("")
    case Some(c) =>
      && integrity.Some? && integrity.value != ""
      && var tokens := Words(integrity.value, "");
         exists k: nat :: (
           && Decides(tokens, k) && tokens[k] == c.algorithm + "-" + Encoded(tokens[k])
           && decode(Encoded(tokens[k])) == Some(c.expected))
  }

  /** A token is an algorithm, a dash and a digest, and these four algorithms are the supported ones. */
  lemma {:induction false} TokenExactly(algorithm: string, encoded: string)
    requires '-' !in algorithm
    ensures Algorithm(algorithm + "-" + encoded) == algorithm && Encoded(algorithm + "-" + encoded) == encoded
    ensures Supported(algorithm + "-" + encoded) <==> algorithm in {"sha1", "sha256", "sha384", "sha512"}
  {
    var token := algorithm + "-" + encoded;
    if algorithm == "" {
      assert token == "-" + encoded && token[1..] == encoded;
    } else {
      TokenExactly(algorithm[1..], encoded);
      assert token[1..] == algorithm[1..] + "-" + encoded;
    }
    assert token[|algorithm|] == '-';
  }

  lemma {:induction false} TokenSplits(token: string)
    requires '-' in token
    ensures token == Algorithm(token) + "-" + Encoded(token) && '-' !in Algorithm(token)
  {
    if token[0] == '-' {
    } else {
      TokenSplits(token[1..]);
      assert token == [token[0]] + token[1..];
    }
  }

  method BuildIntegrityCheck(integrity: Option<string>, decode: string -> Option<Bytes>)
    returns (r: Result<Option<IntegrityCheck>, Error>)
    ensures r.Ok? ==> Asks(integrity, decode, r.value)
    ensures r.Err? <==> Refuses(integrity, decode)
    ensures r.Err? ==> r.error == IntegrityError
  {
    if integrity.None? || integrity.value == "" {
      return Ok(None);
    }
    var tokens := Words(integrity.value, "");
    for i := 0 to |tokens|
      invariant forall j :: 0 <= j < i ==> !Supported(tokens[j])
    {
      var token := tokens[i];
      if '-' !in token || Algorithm(token) !in ALGORITHMS {
        continue;
      }
      assert Decides(tokens, i);
      TokenSplits(token);
      match decode(Encoded(token)) {
        case None => return Err(IntegrityError);
        case Some(expected) => return Ok(Some(IntegrityCheck(Algorithm(token), expected)));
      }
    }
    return Err(IntegrityError);
  }

  // ---------- the reference: what should be on disk

  /** Everything the server sends. */
  function Payload(events: seq<Event>): Bytes {
    if events == [] then []
    else Payload(events[..|events| - 1]) + if events[|events| - 1].Chunk? then events[|events| - 1].data else []
  }

  predicate ArrivesWhole(events: seq<Event>) {
    forall i :: 0 <= i < |events| ==> events[i].Chunk? && (events[i].data != [] ==> events[i].writable)
  }

  predicate Authentic(check: Option<IntegrityCheck>, hash: (string, Bytes) -> Bytes, content: Bytes) {
    check.Some? ==> hash(check.value.algorithm, content) == check.value.expected
  }

  lemma {:induction false} PayloadGrows(events: seq<Event>, i: nat)
    requires i <= |events|
    ensures Payload(events[..i]) <= Payload(events)
    decreases |events|
  {
    if i < |events| {
      var front := events[..|events| - 1];
      PayloadGrows(front, i);
      assert front[..i] == events[..i];
    } else {
      assert events[..i] == events;
    }
  }

  lemma PayloadNext(events: seq<Event>, i: nat)
    requires i < |events|
    ensures Payload(events[..i + 1]) == Payload(events[..i]) + if events[i].Chunk? then events[i].data else []
    ensures Payload(events[..i + 1]) <= Payload(events)
  {
    assert events[..i + 1][..i] == events[..i];
    PayloadGrows(events, i + 1);
  }

  // ---------- the downloader

  /** hashlib's incremental digest: updating with a and then with b is updating with a + b. */
  class Digest {
    const algorithm: string
    var consumed: Bytes

    constructor (algorithm: string)
      ensures this.algorithm == algorithm && consumed == []
    {
      this.algorithm := algorithm;
      consumed := [];
    }

    method Update(chunk: Bytes)
      modifies this
      ensures consumed == old(consumed) + chunk
    {
      consumed := consumed + chunk;
    }
  }

  /** A directory's files and their contents. */
  class Directory {
    var files: map<string, Bytes>

    constructor ()
      ensures files == map[]
    {
      files := map[];
    }

    method RemoveIfExists(name: string)
      modifies this
      ensures files == old(files) - {name}
    {
      files := files - {name};
    }
  }

  /** The exceptions `_write_stream_to_file` lets out. */
  datatype Interruption = BadStatus | Below(failure: Failure) | Mismatch | TooLarge

  class TarballDownloader {
    const maxBytes: nat
    const hash: (string, Bytes) -> Bytes

    constructor (maxBytes: nat, hash: (string, Bytes) -> Bytes)
      ensures this.maxBytes == maxBytes && this.hash == hash
    {
      this.maxBytes, this.hash := maxBytes, hash;
    }

    predicate Complete(events: seq<Event>) { ArrivesWhole(events) && |Payload(events)| <= maxBytes }

    /** The loop gets through the first k events and not through the next one. */
    ghost predicate Breaks(events: seq<Event>, k: nat, why: Interruption) {
      && k < |events| && Complete(events[..k])
      && match events[k]
         case Fails(failure) => why == Below(failure)
         case Chunk(data, writable) =>
           && data != []
           && (if |Payload(events[..k + 1])| > maxBytes then why == TooLarge else !writable && why == Below(OsError))
    }

    /** How the body of the `with target_file.open(...)` block and the integrity check leave the files. */
    ghost predicate Streamed(events: seq<Event>, check: Option<IntegrityCheck>, r: Result<(), Interruption>,
                             target: string,
                             before: map<string, Bytes>, after: map<string, Bytes>) {
      match r
      case Ok(_) =>
        Complete(events) && Authentic(check, hash, Payload(events)) && after == before[target := Payload(events)]
      case Err(why) =>
        if why == Mismatch then
          Complete(events) && !Authentic(check, hash, Payload(events)) && after == before[target := Payload(events)]
        else
          exists k: nat :: (
            && Breaks(events, k, why) && !Complete(events)
            && after == before[target := Payload(events[..k])])
    }

    lemma LoopTurn(events: seq<Event>, i: nat)
      requires i < |events| && Complete(events[..i])
      ensures Payload(events[..i + 1]) == Payload(events[..i]) + if events[i].Chunk? then events[i].data else []
      ensures |Payload(events[..i])| <= maxBytes
      ensures Complete(events[..i + 1]) || ((exists why :: Breaks(events, i, why)) && !Complete(events))
    {
      PayloadNext(events, i);
      assert forall j :: 0 <= j < i + 1 ==> events[..i + 1][j] == if j < i then events[..i][j] else events[i];
      if events[i].Fails? {
        assert Breaks(events, i, Below(events[i].failure));
      } else if events[i].data != [] {
        assert |Payload(events[..i + 1])| > maxBytes ==> Breaks(events, i, TooLarge);
        assert |Payload(events[..i + 1])| <= maxBytes && !events[i].writable ==> Breaks(events, i, Below(OsError));
      }
    }

    method WriteStreamToFile(response: Response, target: string, directory: Directory, check: Option<IntegrityCheck>)
      returns (r: Result<(), Interruption>)
      modifies directory
      ensures r == Err(BadStatus) <==> response.status >= 400
      ensures response.status >= 400 || !response.fileOpens ==> directory.files == old(directory.files)
      ensures response.status < 400 && !response.fileOpens ==> r == Err(Below(OsError))
      ensures response.status < 400 && response.fileOpens ==>
                Streamed(response.events, check, r, target, old(directory.files), directory.files)
    {
      if response.status >= 400 {
        return Err(BadStatus);
      }
      if !response.fileOpens {
        return Err(Below(OsError));
      }
      hide Complete;
      var digest := new Digest(if check.Some? then check.value.algorithm else "");
      directory.files := directory.files[target := []];
      var downloadedBytes := 0;
      var events := response.events;
      NothingIsComplete(events);
      for i := 0 to |events|
        invariant fresh(digest) && digest.algorithm == if check.Some? then check.value.algorithm else ""
        invariant directory.files == old(directory.files)[target := Payload(events[..i])]
        invariant downloadedBytes == |Payload(events[..i])| && Complete(events[..i])
        invariant check.Some? ==> digest.consumed == Payload(events[..i])
      {
        LoopTurn(events, i);
        if events[i].Fails? {
          return Err(Below(events[i].failure));
        }
        var chunk := events[i].data;
        if chunk == [] {
          assert Payload(events[..i + 1]) == Payload(events[..i]);
          continue;
        }
        downloadedBytes := downloadedBytes + |chunk|;
        if downloadedBytes > maxBytes {
          return Err(TooLarge);
        }
        if check.Some? {
          digest.Update(chunk);
        }
        if !events[i].writable {
          return Err(Below(OsError));
        }
        directory.files := directory.files[target := directory.files[target] + chunk];
        assert directory.files == old(directory.files)[target := Payload(events[..i + 1])];
      }
      assert events[..|events|] == events;
      if check.Some? && hash(digest.algorithm, digest.consumed) != check.value.expected {
        return Err(Mismatch);
      }
      return Ok(());
    }

    lemma NothingIsComplete(events: seq<Event>)
      ensures Payload(events[..0]) == [] && Complete(events[..0])
    {
    }

    lemma NotCompletePastBreak(events: seq<Event>, j: nat, k: nat, why: Interruption)
      requires Breaks(events, j, why) && j < k <= |events|
      ensures !Complete(events[..k])
    {
      PayloadNext(events[..k], j);
      assert events[..k][j] == events[j] && events[..k][..j + 1] == events[..j + 1];
    }

    lemma OneBreak(events: seq<Event>, j: nat, k: nat, x: Interruption, y: Interruption)
      requires Breaks(events, j, x) && Breaks(events, k, y)
      ensures j == k && x == y
    {
      if j < k {
        NotCompletePastBreak(events, j, k, x);
      }
      if k < j {
        NotCompletePastBreak(events, k, j, y);
      }
    }

    /** The download gets as far as its last statement. */
    predicate Succeeds(check: Option<IntegrityCheck>, connection: Result<Response, Failure>) {
      && connection.Ok? && connection.value.status < 400 && connection.value.fileOpens
      && Complete(connection.value.events) && Authentic(check, hash, Payload(connection.value.events))
      && connection.value.closing.None?
    }

    /** An exception that no clause catches arrives after the file has been opened, leaving `content` in it. */
    ghost predicate EscapesWith(check: Option<IntegrityCheck>, connection: Result<Response, Failure>, content: Bytes) {
      && connection.Ok? && connection.value.status < 400 && connection.value.fileOpens
      && var events := connection.value.events;
         || (exists k: nat :: Breaks(events, k, Below(Uncaught)) && content == Payload(events[..k]))
         || (&& Complete(events) && Authentic(check, hash, Payload(events))
             && connection.value.closing == Some(Uncaught) && content == Payload(events))
    }

    /** The exception clauses of `download`: what it raises instead, and whether it removes the file first. */
    function Handler(why: Interruption): (Error, bool) {
      match why
      case BadStatus => (DownloadError, false)
      case Below(Timeout) => (DownloadTimeout, true)
      case Mismatch => (IntegrityError, true)
      case TooLarge => (SizeLimitExceeded, true)
      case Below(HttpError) => (DownloadError, true)
      case Below(OsError) => (DownloadError, true)
      case Below(Uncaught) => (OtherException, false)
    }

    /** What a download that began with an empty directory, or at least without the target, leaves behind. */
    ghost predicate Leaves(check: Option<IntegrityCheck>, connection: Result<Response, Failure>, target: string,
                           before: map<string, Bytes>, after: map<string, Bytes>) {
      if Succeeds(check, connection) then after == before[target := Payload(connection.value.events)]
      else if exists content :: EscapesWith(check, connection, content) then
        exists content :: EscapesWith(check, connection, content) && after == before[target := content]
      else after == before
    }

    lemma EscapeIsUncaught(events: seq<Event>, check: Option<IntegrityCheck>, connection: Result<Response, Failure>,
                           r: Result<(), Interruption>, target: string, before: map<string, Bytes>,
                           after: map<string, Bytes>)
      requires connection.Ok? && connection.value.status < 400 && connection.value.fileOpens
      requires events == connection.value.events
      requires Streamed(events, check, r, target, before, after)
      ensures r == Err(Below(Uncaught)) ==>
                exists content :: EscapesWith(check, connection, content) && after == before[target := content]
      ensures r.Err? && r.error != Below(Uncaught) ==> forall content :: !EscapesWith(check, connection, content)
      ensures r.Ok? ==> forall k: nat, why :: !Breaks(events, k, why)
      ensures r.Ok? <==> Complete(events) && Authentic(check, hash, Payload(events))
    {
      forall k: nat, why | Breaks(events, k, why)
        ensures !Complete(events)
        ensures r.Err? && r.error != Mismatch ==> why == r.error
      {
        NotCompletePastBreak(events, k, |events|, why);
        assert events[..|events|] == events;
        if r.Err? && r.error != Mismatch {
          var j: nat :| Breaks(events, j, r.error);
          OneBreak(events, j, k, r.error, why);
        }
      }
      hide Breaks, Complete, Authentic;
      if r == Err(Below(Uncaught)) {
        var k: nat :| Breaks(events, k, Below(Uncaught)) && after == before[target := Payload(events[..k])];
        assert EscapesWith(check, connection, Payload(events[..k]));
      }
    }

    lemma LeavesExactly(check: Option<IntegrityCheck>, connection: Result<Response, Failure>,
                        r: Result<(), Interruption>,
                        target: string, before: map<string, Bytes>, middle: map<string, Bytes>,
                        after: map<string, Bytes>)
      requires target !in before && connection.Ok? && connection.value.status < 400 && connection.value.fileOpens
      requires Streamed(connection.value.events, check, r, target, before, middle)
      requires var closing := connection.value.closing;
               var last := if r.Ok? && closing.Some? then Err(Below(closing.value)) else r;
               after == if last.Err? && Handler(last.error).1 then middle - {target} else middle
      ensures Leaves(check, connection, target, before, after)
    {
      EscapeIsUncaught(connection.value.events, check, connection, r, target, before, middle);
      assert target in middle && middle == before[target := middle[target]];
      assert middle - {target} == before;
      hide Breaks, Complete, Authentic;
      if r.Ok? && connection.value.closing == Some(Uncaught) {
        assert EscapesWith(check, connection, Payload(connection.value.events));
      }
    }

    /** It does happen: an uncaught exception at the first chunk leaves an empty file, and no success. */
    lemma EscapeLeavesFile(target: string, before: map<string, Bytes>, after: map<string, Bytes>)
      requires target !in before
      requires Leaves(None, Ok(Response(200, true, [Fails(Uncaught)], None)), target, before, after)
      ensures !Succeeds(None, Ok(Response(200, true, [Fails(Uncaught)], None)))
      ensures after == before[target := []]
    {
      var events := [Fails(Uncaught)];
      var connection: Result<Response, Failure> := Ok(Response(200, true, events, None));
      NothingIsComplete(events);
      assert Breaks(events, 0, Below(Uncaught));
      NotCompletePastBreak(events, 0, 1, Below(Uncaught));
      assert events[..1] == events;
      assert EscapesWith(None, connection, []);
      var content :| EscapesWith(None, connection, content) && after == before[target := content];
      var k: nat :| Breaks(events, k, Below(Uncaught)) && content == Payload(events[..k]);
      OneBreak(events, 0, k, Below(Uncaught), Below(Uncaught));
    }

    /** Before the file is opened nothing can be left behind. */
    lemma LeavesNothing(check: Option<IntegrityCheck>, connection: Result<Response, Failure>, target: string,
                        before: map<string, Bytes>)
      requires connection.Err? || connection.value.status >= 400 || !connection.value.fileOpens
      ensures Leaves(check, connection, target, before, before)
    {
    }

    /** What goes wrong first. */
    ghost predicate GoesWrong(check: Option<IntegrityCheck>, connection: Result<Response, Failure>, why: Interruption) {
      match connection
      case Err(failure) => why == Below(failure)
      case Ok(response) =>
        if response.status >= 400 then why == BadStatus
        else if !response.fileOpens then why == Below(OsError)
        else if !Complete(response.events) then exists k: nat :: Breaks(response.events, k, why)
        else if !Authentic(check, hash, Payload(response.events)) then why == Mismatch
        else response.closing.Some? && why == Below(response.closing.value)
    }

    predicate BadUrl(url: Url) { (url.scheme != "http" && url.scheme != "https") || url.netloc == "" }

    /** Which exception the caller sees for what went wrong. */
    predicate RaisedFor(why: Interruption, error: Error) {
      match error
      case DownloadTimeout => why == Below(Timeout)
      case IntegrityError => why == Mismatch
      case SizeLimitExceeded => why == TooLarge
      case DownloadError => why == BadStatus || why == Below(HttpError) || why == Below(OsError)
      case OtherException => why == Below(Uncaught)
    }

    /**
     `check` is the parsed integrity metadata, None if the URL or the metadata was refused before anything was sent.
     */
    method Download(url: Url, integrity: Option<string>, decode: string -> Option<Bytes>,
                    connection: Result<Response, Failure>, directory: Directory)
      returns (r: Result<string, Error>, check: Option<Option<IntegrityCheck>>)
      modifies directory
      ensures check.None? <==> BadUrl(url) || Refuses(integrity, decode)
      ensures check.Some? ==> Asks(integrity, decode, check.value)
      ensures check.None? ==> directory.files == old(directory.files)
      ensures check.None? ==> r == Err(if BadUrl(url) then DownloadError else IntegrityError)
      ensures r.Ok? <==> check.Some? && Succeeds(check.value, connection)
      ensures r.Ok? ==> r.value == if url.name != "" then url.name else "package.tgz"
      ensures r.Ok? ==>
                directory.files == old(directory.files)[Target(url) := Payload(connection.value.events)]
      ensures r.Err? && check.Some? ==>
                exists why :: GoesWrong(check.value, connection, why) && RaisedFor(why, r.error)
      ensures check.Some? && Target(url) !in old(directory.files) ==>
                Leaves(check.value, connection, Target(url), old(directory.files), directory.files)
    {
      hide Complete, Authentic, Breaks;
      check := None;
      if url.scheme !in {"http", "https"} || url.netloc == "" {
        r := Err(DownloadError);
        return;
      }
      var target := Target(url);
      var built := BuildIntegrityCheck(integrity, decode);
      if built.Err? {
        r := Err(built.error);
        return;
      }
      check := Some(built.value);
      var interrupted: Result<(), Interruption>;
      ghost var streamed: Result<(), Interruption> := Ok(());
      if connection.Err? {
        interrupted := Err(Below(connection.error));
      } else {
        interrupted := WriteStreamToFile(connection.value, target, directory, built.value);
        streamed := interrupted;
        if interrupted.Ok? && connection.value.closing.Some? {
          interrupted := Err(Below(connection.value.closing.value));
        }
      }
      ghost var middle := directory.files;
      if interrupted.Ok? {
        r := Ok(target);
      } else {
        assert GoesWrong(built.value, connection, interrupted.error);
        var (error, remove) := Handler(interrupted.error);
        if remove {
          directory.RemoveIfExists(target);
        }
        r := Err(error);
      }
      if target !in old(directory.files) {
        if connection.Ok? && connection.value.status < 400 && connection.value.fileOpens {
          LeavesExactly(built.value, connection, streamed, target, old(directory.files), middle, directory.files);
        } else {
          LeavesNothing(built.value, connection, target, old(directory.files));
          assert directory.files == old(directory.files);
        }
      }
    }

    function Target(url: Url): string { if url.name != "" then url.name else "package.tgz" }
  }
}
