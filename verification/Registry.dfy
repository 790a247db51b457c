/** What the registry client makes of a registry document (app/infrastructure/npm/registry_client.py). */
module Registry {
  import opened Wrappers
  import opened Tables
  import opened Transactions

  /** A decoded JSON value. An object keeps its keys in the order of the document. */
  datatype Json = Null | Bool(b: bool) | Number(n: int) | Str(s: string) | Other
    | Object(keys: seq<string>, fields: map<string, Json>)

  /** A Python dict: every key once. */
  ghost predicate IsDict(j: Json) {
    && j.Object?
    && (forall i, k :: 0 <= i < k < |j.keys| ==> j.keys[i] != j.keys[k])
    && (forall key :: key in j.keys <==> key in j.fields)
  }

  /** dict.get */
  function Get(j: Json, key: string, default: Json): Json
    requires j.Object?
  {
    if key in j.fields then j.fields[key] else default
  }

  datatype Error = Malformed(what: string)

  /** The instant an ISO timestamp denotes, if it is one. */
  type Parser = string -> Option<Time>

  function PublishTime(version: string, times: Json, parse: Parser): Result<Time, Error>
    requires times.Object?
  {
    match Get(times, version, Null)
    case Str(s) => (match parse(s) case Some(t) => Ok(t) case None => Err(Malformed("invalid publish timestamp")))
    case _ => Err(Malformed("missing publish timestamp"))
  }

  function OptionalString(j: Json): Result<Option<string>, Error> {
    match j case Null => Ok(None) case Str(s) => Ok(Some(s)) case _ => Err(Malformed("expected string field"))
  }

  /** A JSON boolean passes for an integer in Python. */
  function OptionalInt(j: Json): Result<Option<int>, Error> {
    match j case Null => Ok(None) case Number(n) => Ok(Some(n)) case Bool(b) => Ok(Some(if b then 1 else 0))
      case _ => Err(Malformed("expected integer field"))
  }

  function BuildVersionMetadata(version: string, versions: Json, times: Json,
                                parse: Parser): Result<VersionMetadata, Error>
    requires versions.Object? && times.Object?
  {
    var payload := Get(versions, version, Null);
    if !payload.Object? then Err(Malformed("missing payload")) else
    var dist := Get(payload, "dist", Null);
    if !dist.Object? then Err(Malformed("missing dist payload")) else
    var tarball := Get(dist, "tarball", Null);
    if !tarball.Str? || tarball.s == "" then Err(Malformed("missing tarball url"))
    else if !Get(payload, "dependencies", Object([], map[])).Object? then
      Err(Malformed("dependencies must be an object"))
    else if !Get(payload, "scripts", Object([], map[])).Object? then Err(Malformed("scripts must be an object"))
    else
      match (PublishTime(version, times, parse), OptionalString(Get(dist, "integrity", Null)),
             OptionalInt(Get(dist, "unpackedSize", Null)), OptionalInt(Get(dist, "fileCount", Null)))
      case (Ok(t), Ok(integrity), Ok(size), Ok(count)) =>
        Ok(VersionMetadata(Some(t), tarball.s, integrity, size, count))
      case (Err(e), _, _, _) => Err(e)
      case (_, Err(e), _, _) => Err(e)
      case (_, _, Err(e), _) => Err(e)
      case (_, _, _, Err(e)) => Err(e)
  }

  // ---------- the metadata, read off the document's own fields

  ghost predicate IsOptionalString(j: Json, key: string, value: Option<string>)
    requires j.Object?
  {
    match value
    case None => key !in j.fields || j.fields[key] == Null
    case Some(s) => key in j.fields && j.fields[key] == Str(s)
  }

  ghost predicate IsOptionalInt(j: Json, key: string, value: Option<int>)
    requires j.Object?
  {
    match value
    case None => key !in j.fields || j.fields[key] == Null
    case Some(n) =>
      && key in j.fields
      && (j.fields[key] == Number(n)
          || (j.fields[key] == Bool(true) && n == 1) || (j.fields[key] == Bool(false) && n == 0))
  }

  /** The document has this metadata for the version, each field from its own place. */
  ghost predicate Describes(version: string, m: VersionMetadata, versions: Json, times: Json, parse: Parser)
    requires versions.Object? && times.Object?
  {
    && version in versions.fields && versions.fields[version].Object?
    && var payload := versions.fields[version];
       && "dist" in payload.fields && payload.fields["dist"].Object?
       && ("dependencies" in payload.fields ==> payload.fields["dependencies"].Object?)
       && ("scripts" in payload.fields ==> payload.fields["scripts"].Object?)
       && var dist := payload.fields["dist"];
          && "tarball" in dist.fields && dist.fields["tarball"] == Str(m.tarballUrl) && m.tarballUrl != ""
          && IsOptionalString(dist, "integrity", m.integrity)
          && IsOptionalInt(dist, "unpackedSize", m.unpackedSize)
          && IsOptionalInt(dist, "fileCount", m.fileCount)
          && version in times.fields && times.fields[version].Str?
          && parse(times.fields[version].s) == m.publishedAt && m.publishedAt.Some?
  }

  lemma StringExactly(j: Json, key: string, value: Option<string>)
    requires j.Object?
    ensures OptionalString(Get(j, key, Null)) == Ok(value) <==> IsOptionalString(j, key, value)
  {
  }

  lemma IntExactly(j: Json, key: string, value: Option<int>)
    requires j.Object?
    ensures OptionalInt(Get(j, key, Null)) == Ok(value) <==> IsOptionalInt(j, key, value)
  {
  }

  lemma TimeExactly(version: string, times: Json, parse: Parser, t: Time)
    requires times.Object?
    ensures PublishTime(version, times, parse) == Ok(t) <==>
              version in times.fields && times.fields[version].Str? && parse(times.fields[version].s) == Some(t)
  {
  }

  /** Building succeeds with the metadata the document has for the version, and fails if it has none. */
  lemma BuildExactly(version: string, versions: Json, times: Json, parse: Parser, m: VersionMetadata)
    requires versions.Object? && times.Object?
    ensures BuildVersionMetadata(version, versions, times, parse) == Ok(m)
            <==> Describes(version, m, versions, times, parse)
  {
    if version in versions.fields && versions.fields[version].Object? {
      var payload := versions.fields[version];
      if "dist" in payload.fields && payload.fields["dist"].Object? {
        var dist := payload.fields["dist"];
        StringExactly(dist, "integrity", m.integrity);
        IntExactly(dist, "unpackedSize", m.unpackedSize);
        IntExactly(dist, "fileCount", m.fileCount);
        if m.publishedAt.Some? {
          TimeExactly(version, times, parse, m.publishedAt.value);
        }
        hide OptionalString, OptionalInt, PublishTime, IsOptionalString, IsOptionalInt;
      }
    }
  }

  // ---------- which version is the previous one

  predicate Timed(version: string, times: Json, parse: Parser)
    requires times.Object?
  {
    PublishTime(version, times, parse).Ok?
  }

  predicate Older(version: string, than: string, times: Json, parse: Parser)
    requires times.Object?
  {
    && Timed(version, times, parse) && Timed(than, times, parse)
    && PublishTime(version, times, parse).value < PublishTime(than, times, parse).value
  }

  /** The newest of the given versions older than the latest one; of several, the one listed first. */
  ghost predicate IsPrevious(k: nat, latest: string, names: seq<string>, times: Json, parse: Parser)
    requires times.Object?
  {
    && k < |names| && Older(names[k], latest, times, parse)
    && (forall j :: 0 <= j < |names| && Older(names[j], latest, times, parse) ==>
          !Older(names[k], names[j], times, parse) && (j < k ==> Older(names[j], names[k], times, parse)))
  }

  method ResolvePreviousVersionName(latest: string, versions: Json, times: Json, parse: Parser)
    returns (r: Result<Option<string>, Error>)
    requires IsDict(versions) && times.Object?
    ensures r.Err? <==> !Timed(latest, times, parse) || exists v :: v in versions.keys && !Timed(v, times, parse)
    ensures r == Ok(None) ==> forall v :: v in versions.keys ==> !Older(v, latest, times, parse)
    ensures forall v :: r == Ok(Some(v)) ==>
              exists k: nat :: IsPrevious(k, latest, versions.keys, times, parse) && versions.keys[k] == v
  {
    hide Get;
    var latestPublishedAt: Time;
    match PublishTime(latest, times, parse) {
      case Err(e) => return Err(e);
      case Ok(t) => latestPublishedAt := t;
    }
    var bestCandidate: Option<(string, Time)> := None;
    ghost var best := 0;
    for i := 0 to |versions.keys|
      invariant forall j :: 0 <= j < i ==> Timed(versions.keys[j], times, parse)
      invariant bestCandidate.None? ==> forall j :: 0 <= j < i ==> !Older(versions.keys[j], latest, times, parse)
      invariant bestCandidate.Some? ==>
                  && 0 <= best < i && bestCandidate.value.0 == versions.keys[best]
                  && PublishTime(versions.keys[best], times, parse) == Ok(bestCandidate.value.1)
                  && IsPrevious(best, latest, versions.keys[..i], times, parse)
    {
      var versionName := versions.keys[i];
      assert versionName in versions.keys;
      if versionName == latest {
        continue;
      }
      match PublishTime(versionName, times, parse) {
        case Err(e) => return Err(e);
        case Ok(publishedAt) =>
          if publishedAt >= latestPublishedAt {
            continue;
          }
          if bestCandidate.None? || publishedAt > bestCandidate.value.1 {
            bestCandidate := Some((versionName, publishedAt));
            best := i;
          }
      }
    }
    assert versions.keys[..|versions.keys|] == versions.keys;
    r := Ok(match bestCandidate case Some(candidate) => Some(candidate.0) case None => None);
  }

  /** The description above fits at most one version, and never the latest one. */
  lemma PreviousIsUnique(j: nat, k: nat, latest: string, names: seq<string>, times: Json, parse: Parser)
    requires times.Object?
    requires IsPrevious(j, latest, names, times, parse) && IsPrevious(k, latest, names, times, parse)
    ensures j == k && names[k] != latest
  {
  }

  // ---------- fetch_metadata, from the decoded document on

  /** The three objects a document must have, and its latest version. */
  predicate HasParts(document: Json) {
    && document.Object?
    && Get(document, "versions", Null).Object?
    && Get(document, "dist-tags", Null).Object? && Get(document, "time", Null).Object?
    && Get(Get(document, "dist-tags", Null), "latest", Null).Str?
    && Get(Get(document, "dist-tags", Null), "latest", Null).s in Get(document, "versions", Null).fields
  }

  function LatestName(document: Json): string
    requires HasParts(document)
  {
    Get(Get(document, "dist-tags", Null), "latest", Null).s
  }

  ghost predicate IsPreviousName(document: Json, parse: Parser, v: string)
    requires HasParts(document)
  {
    var names, times := Get(document, "versions", Null).keys, Get(document, "time", Null);
    exists k: nat :: IsPrevious(k, LatestName(document), names, times, parse) && names[k] == v
  }

  /** Documents that yield metadata: every single version must carry a timestamp, chosen or not. */
  ghost predicate Acceptable(document: Json, parse: Parser) {
    && HasParts(document)
    && var versions, times := Get(document, "versions", Null), Get(document, "time", Null);
       && (forall v :: v in versions.keys ==> Timed(v, times, parse))
       && BuildVersionMetadata(LatestName(document), versions, times, parse).Ok?
       && (forall v :: v in versions.keys && IsPreviousName(document, parse, v) ==>
             BuildVersionMetadata(v, versions, times, parse).Ok?)
  }

  /** Those documents, read off their own fields. */
  lemma AcceptableExactly(document: Json, parse: Parser)
    ensures Acceptable(document, parse) <==>
              && document.Object? && (forall part :: part in {"versions", "dist-tags", "time"} ==>
                                        part in document.fields && document.fields[part].Object?)
              && "latest" in document.fields["dist-tags"].fields && document.fields["dist-tags"].fields["latest"].Str?
              && var versions, times := document.fields["versions"], document.fields["time"];
                 var latest := document.fields["dist-tags"].fields["latest"].s;
                 && latest in versions.fields
                 && (forall v :: v in versions.keys ==>
                       v in times.fields && times.fields[v].Str? && parse(times.fields[v].s).Some?)
                 && (exists m :: Describes(latest, m, versions, times, parse))
                 && (forall v, k: nat :: v in versions.keys && IsPrevious(k, latest, versions.keys, times, parse)
                                         && versions.keys[k] == v ==>
                       exists m :: Describes(v, m, versions, times, parse))
  {
    if HasParts(document) {
      var versions, times := document.fields["versions"], document.fields["time"];
      forall v, m
        ensures BuildVersionMetadata(v, versions, times, parse) == Ok(m) <==> Describes(v, m, versions, times, parse)
      {
        BuildExactly(v, versions, times, parse, m);
      }
      forall v
        ensures BuildVersionMetadata(v, versions, times, parse).Ok?
                <==> exists m :: Describes(v, m, versions, times, parse)
      {
        var built := BuildVersionMetadata(v, versions, times, parse);
        if built.Ok? {
          assert Describes(v, built.value, versions, times, parse);
        }
      }
      hide BuildVersionMetadata, Describes, IsPrevious;
    }
  }

  method FetchMetadata(document: Json, parse: Parser) returns (r: Result<Fetched, Error>)
    requires document.Object? && Get(document, "versions", Null).Object? ==> IsDict(Get(document, "versions", Null))
    ensures r.Ok? <==> Acceptable(document, parse)
    ensures r.Ok? ==> r.value.latest == LatestName(document) && WellFormed(r.value)
    ensures r.Ok? ==>
              var versions, times := Get(document, "versions", Null), Get(document, "time", Null);
              && Describes(r.value.latest, r.value.metadata, versions, times, parse)
              && (r.value.previous.Some? ==>
                    Describes(r.value.previous.value.version, r.value.previous.value.metadata, versions, times, parse))
    ensures r.Ok? ==> forall v :: v in Get(document, "versions", Null).keys ==>
                        (IsPreviousName(document, parse, v) <==> PreviousName(r.value) == Some(v))
  {
    hide BuildVersionMetadata, Describes;
    if !document.Object? {
      return Err(Malformed("registry payload must be an object"));
    }
    var versions, times := Get(document, "versions", Null), Get(document, "time", Null);
    var tags := Get(document, "dist-tags", Null);
    if !versions.Object? || !tags.Object? || !times.Object? {
      return Err(Malformed("missing required versions, dist-tags, or time"));
    }
    var latest := Get(tags, "latest", Null);
    if !latest.Str? || latest.s !in versions.fields {
      return Err(Malformed("latest version is missing from versions map"));
    }
    var latestMetadata := BuildVersionMetadata(latest.s, versions, times, parse);
    if latestMetadata.Err? {
      return Err(latestMetadata.error);
    }
    BuildExactly(latest.s, versions, times, parse, latestMetadata.value);
    var previousName := ResolvePreviousVersionName(latest.s, versions, times, parse);
    if previousName.Err? {
      return Err(previousName.error);
    }
    if previousName.value.None? {
      return Ok(Fetched(latest.s, latestMetadata.value, None));
    }
    var name := previousName.value.value;
    ghost var k: nat :| IsPrevious(k, latest.s, versions.keys, times, parse) && versions.keys[k] == name;
    forall v | IsPreviousName(document, parse, v)
      ensures v == name
    {
      var j: nat :| IsPrevious(j, latest.s, versions.keys, times, parse) && versions.keys[j] == v;
      PreviousIsUnique(j, k, latest.s, versions.keys, times, parse);
    }
    assert versions.keys[k] in versions.keys;
    var previousMetadata := BuildVersionMetadata(name, versions, times, parse);
    if previousMetadata.Err? {
      return Err(previousMetadata.error);
    }
    PreviousIsUnique(k, k, latest.s, versions.keys, times, parse);
    BuildExactly(name, versions, times, parse, previousMetadata.value);
    r := Ok(Fetched(latest.s, latestMetadata.value, Some(PreviousVersion(name, previousMetadata.value))));
  }
}
