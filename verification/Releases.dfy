/** Release bundles: what the builder assembles, what the API accepts, and what it stores. */
module Releases {
  import opened Contracts

  datatype Entry = Entry(path: string, sha: string)

  /** What the builder sees of a file: whether it is there, the artifact id its text
      declares, and its resolved path. */
  datatype Files = Files(isFile: string -> bool, idOf: string -> Option<string>, resolved: string -> string)

  datatype Artifact = Artifact(artifactId: string, checksum: string, uri: string)

  datatype BuildError = NoFile(path: string) | NoArtifactId(path: string) | DuplicateId(artifactId: string)

  // ----------------------------------------------------- the manifest and its schema

  datatype Versions = Versions(spec: string, app: string, schemaVersion: string, model: string, policyBundle: string,
                               invariantPack: string)

  datatype Manifest = Manifest(releaseId: string, versions: Versions, adapterVersions: map<string, string>,
                               digests: map<string, string>, approvals: seq<string>, createdAt: string)

  /** The JSON kinds the schema check tells apart. */
  datatype Kind = StringKind | ObjectKind | ArrayKind

  /** The fields of every manifest the builder makes. */
  const FIELDS: map<string, Kind> := map[
    "release_id" := StringKind, "spec_version" := StringKind, "app_version" := StringKind,
    "schema_version" := StringKind, "model_version" := StringKind, "policy_bundle_version" := StringKind,
    "adapter_versions" := ObjectKind, "invariant_pack_version" := StringKind, "artifact_digests" := ObjectKind,
    "approvals" := ArrayKind, "created_at" := StringKind]

  /** The parts of a schema the check reads: its required fields, None where they are not a
      list; whether it admits further fields; and its properties in order, with the kind of
      those whose type is one that is checked. */
  datatype Schema = Schema(required: Option<seq<string>>, closed: bool, properties: seq<(string, Option<Kind>)>)

  datatype SchemaFault = NotAnObject | RequiredNotAList | MissingFields(names: set<string>)
                       | UnexpectedFields(names: set<string>) | WrongKind(name: string)

  function PropertyNames(schema: Schema): set<string> {
    set i | 0 <= i < |schema.properties| :: schema.properties[i].0
  }

  predicate Fits(fields: map<string, Kind>, property: (string, Option<Kind>)) {
    property.0 in fields && property.1.Some? ==> fields[property.0] == property.1.value
  }

  predicate Conforms(fields: map<string, Kind>, schema: Schema) {
    && schema.required.Some? && (forall name | name in schema.required.value :: name in fields)
    && (schema.closed ==> fields.Keys <= PropertyNames(schema))
    && (forall i | 0 <= i < |schema.properties| :: Fits(fields, schema.properties[i]))
  }

  /** `_validate_against_schema`: no fault exactly if the fields conform, and else the first
      kind of fault there is, with all missing or unexpected names. */
  method ValidateAgainstSchema(fields: map<string, Kind>, schema: Schema) returns (fault: Option<SchemaFault>)
    ensures fault.None? <==> Conforms(fields, schema)
    ensures fault == Some(RequiredNotAList) <==> schema.required.None?
    ensures forall names :: fault == Some(MissingFields(names)) ==>
              names != {} && names == (set name | name in schema.required.value) - fields.Keys
    ensures forall names :: fault == Some(UnexpectedFields(names)) ==>
              && names != {} && names == fields.Keys - PropertyNames(schema)
              && forall name | name in schema.required.value :: name in fields
    ensures forall name :: fault == Some(WrongKind(name)) ==>
              exists i :: 0 <= i < |schema.properties| && schema.properties[i].0 == name
                          && !Fits(fields, schema.properties[i])
                          && forall k | 0 <= k < i :: Fits(fields, schema.properties[k])
    ensures fault != Some(NotAnObject)
  {
    if schema.required.None? { return Some(RequiredNotAList); }
    var missing := (set name | name in schema.required.value) - fields.Keys;
    if missing != {} { return Some(MissingFields(missing)); }
    assert forall name | name in schema.required.value :: name in fields by {
      assert forall name | name in schema.required.value && name !in fields :: name in missing;
    }
    if schema.closed {
      var extra := fields.Keys - PropertyNames(schema);
      if extra != {} { return Some(UnexpectedFields(extra)); }
      assert forall name | name in fields && name !in PropertyNames(schema) :: name in extra;
    }
    for i := 0 to |schema.properties|
      invariant forall k | 0 <= k < i :: Fits(fields, schema.properties[k])
    {
      var (name, kind) := schema.properties[i];
      if name in fields && kind.Some? && fields[name] != kind.value { return Some(WrongKind(name)); }
    }
    return None;
  }

  /** The schema the repository ships. */
  const SHIPPED: Schema := Schema(
    Some(["release_id", "spec_version", "app_version", "schema_version", "model_version", "policy_bundle_version",
          "adapter_versions", "invariant_pack_version", "artifact_digests", "approvals", "created_at"]),
    true,
    [("release_id", Some(StringKind)), ("spec_version", Some(StringKind)), ("app_version", Some(StringKind)),
     ("schema_version", Some(StringKind)), ("model_version", Some(StringKind)),
     ("policy_bundle_version", Some(StringKind)), ("adapter_versions", Some(ObjectKind)),
     ("invariant_pack_version", Some(StringKind)), ("artifact_digests", Some(ObjectKind)),
     ("approvals", Some(ArrayKind)), ("created_at", Some(StringKind))])

  /** Every manifest conforms to it. */
  lemma ShippedSchemaFits()
    ensures Conforms(FIELDS, SHIPPED)
  {
    var p := SHIPPED.properties;
    assert forall i | 0 <= i < |p| :: Fits(FIELDS, p[i]);
    assert FIELDS.Keys == {p[0].0, p[1].0, p[2].0, p[3].0, p[4].0, p[5].0, p[6].0, p[7].0, p[8].0, p[9].0, p[10].0};
  }

  // ----------------------------------------------------------------------- the builder

  datatype Build = Built(manifest: Manifest, artifacts: seq<Artifact>)
                 | Refused(at: nat, error: BuildError)
                 | SchemaRefused(fault: SchemaFault)

  /** What a manifest takes over as it is: the later of the three sets of adapter versions
      win. */
  datatype Release = Release(id: string, versions: Versions, runtimeAdapters: map<string, string>,
                             configuredAdapters: map<string, string>, givenAdapters: map<string, string>,
                             approvals: seq<string>, createdAt: string)

  function ManifestOf(r: Release, digests: map<string, string>): Manifest {
    Manifest(r.id, r.versions, r.runtimeAdapters + r.configuredAdapters + r.givenAdapters, digests, r.approvals,
             r.createdAt)
  }

  predicate Readable(f: Files, e: Entry) {
    f.isFile(e.path) && f.idOf(e.path).Some? && f.idOf(e.path).value != ""
  }

  function IdOf(f: Files, e: Entry): string
    requires Readable(f, e)
  {
    f.idOf(e.path).value
  }

  /** Every entry names a file with an artifact id, and no id twice. */
  predicate Wellformed(f: Files, entries: seq<Entry>) {
    && (forall i | 0 <= i < |entries| :: Readable(f, entries[i]))
    && (forall i, j | 0 <= i < j < |entries| :: IdOf(f, entries[i]) != IdOf(f, entries[j]))
  }

  /** Why the builder stops at an entry, given the ones before it. */
  function Complaint(f: Files, before: seq<Entry>, e: Entry): Option<BuildError>
    requires forall i | 0 <= i < |before| :: Readable(f, before[i])
  {
    if !f.isFile(e.path) then Some(NoFile(e.path))
    else if !Readable(f, e) then Some(NoArtifactId(e.path))
    else if exists i :: 0 <= i < |before| && IdOf(f, before[i]) == IdOf(f, e) then Some(DuplicateId(IdOf(f, e)))
    else None
  }

  /** One artifact per entry, in order, and one digest per artifact, equal to its checksum. */
  ghost predicate Assembled(f: Files, entries: seq<Entry>, digests: map<string, string>, artifacts: seq<Artifact>)
    requires Wellformed(f, entries)
  {
    && |artifacts| == |entries|
    && (forall i | 0 <= i < |entries| ::
          artifacts[i] == Artifact(IdOf(f, entries[i]), entries[i].sha, "file://" + f.resolved(entries[i].path)))
    && (forall i | 0 <= i < |entries| ::
          IdOf(f, entries[i]) in digests && digests[IdOf(f, entries[i])] == entries[i].sha)
    && (forall id | id in digests :: exists i :: 0 <= i < |entries| && IdOf(f, entries[i]) == id)
  }

  /** A manifest goes on being well-formed exactly while there is nothing to complain about. */
  lemma ComplaintStops(f: Files, entries: seq<Entry>, i: nat)
    requires i < |entries| && Wellformed(f, entries[..i])
    ensures Complaint(f, entries[..i], entries[i]).None? ==> Wellformed(f, entries[..i + 1])
    ensures Complaint(f, entries[..i], entries[i]).Some? ==> !Wellformed(f, entries)
  {
    var before, e := entries[..i], entries[i];
    assert forall k | 0 <= k < i :: before[k] == entries[k];
    if Complaint(f, before, e).None? {
      assert entries[..i + 1] == before + [e];
    } else if Readable(f, e) {
      var k :| 0 <= k < i && IdOf(f, before[k]) == IdOf(f, e);
      assert f.idOf(entries[k].path) == f.idOf(entries[i].path);
    }
  }

  lemma AssembledNext(f: Files, entries: seq<Entry>, i: nat, digests: map<string, string>, artifacts: seq<Artifact>)
    requires i < |entries| && Wellformed(f, entries[..i]) && Wellformed(f, entries[..i + 1])
    requires Assembled(f, entries[..i], digests, artifacts)
    ensures var e := entries[i];
            && Readable(f, e)
            && Assembled(f, entries[..i + 1], digests[IdOf(f, e) := e.sha],
                         artifacts + [Artifact(IdOf(f, e), e.sha, "file://" + f.resolved(e.path))])
  {
    var before, e, after := entries[..i], entries[i], entries[..i + 1];
    assert after == before + [e];
    assert after[i] == e && forall k | 0 <= k < i :: after[k] == before[k];
    forall id | id in digests ensures exists k :: 0 <= k < |after| && IdOf(f, after[k]) == id {
      var k :| 0 <= k < i && IdOf(f, before[k]) == id;
      assert IdOf(f, after[k]) == id;
    }
  }

  lemma SeenAlready(f: Files, before: seq<Entry>, digests: map<string, string>, artifacts: seq<Artifact>, e: Entry)
    requires Wellformed(f, before) && Assembled(f, before, digests, artifacts) && Readable(f, e)
    ensures Complaint(f, before, e) == if IdOf(f, e) in digests then Some(DuplicateId(IdOf(f, e))) else None
  {
  }

  /** `build_release_bundle_components`: it succeeds exactly on well-formed package manifests
      under a schema every manifest conforms to, and otherwise stops at the first entry there
      is a complaint about, or at the schema. */
  method BuildComponents(f: Files, entries: seq<Entry>, release: Release, schema: Option<Schema>) returns (r: Build)
    ensures r.Built? <==> Wellformed(f, entries) && schema.Some? && Conforms(FIELDS, schema.value)
    ensures r.Built? ==> r.manifest == ManifestOf(release, r.manifest.digests)
                         && Assembled(f, entries, r.manifest.digests, r.artifacts)
    ensures r.Refused? ==> r.at < |entries| && Wellformed(f, entries[..r.at])
                           && Complaint(f, entries[..r.at], entries[r.at]) == Some(r.error)
    ensures r.SchemaRefused? ==> Wellformed(f, entries) && (r.fault == NotAnObject <==> schema.None?)
  {
    var digests: map<string, string>, artifacts: seq<Artifact>, seen: set<string> := map[], [], {};
    for i := 0 to |entries|
      invariant Wellformed(f, entries[..i]) && Assembled(f, entries[..i], digests, artifacts)
      invariant seen == digests.Keys
    {
      hide Wellformed, Assembled;
      var e := entries[i];
      ComplaintStops(f, entries, i);
      if !f.isFile(e.path) { return Refused(i, NoFile(e.path)); }
      var id := f.idOf(e.path);
      if id.None? || id.value == "" { return Refused(i, NoArtifactId(e.path)); }
      SeenAlready(f, entries[..i], digests, artifacts, e);
      if id.value in seen { return Refused(i, DuplicateId(id.value)); }
      AssembledNext(f, entries, i, digests, artifacts);
      seen := seen + {id.value};
      digests := digests[id.value := e.sha];
      artifacts := artifacts + [Artifact(id.value, e.sha, "file://" + f.resolved(e.path))];
    }
    assert entries[..|entries|] == entries;
    if schema.None? { return SchemaRefused(NotAnObject); }
    var fault := ValidateAgainstSchema(FIELDS, schema.value);
    if fault.Some? { return SchemaRefused(fault.value); }
    r := Built(ManifestOf(release, digests), artifacts);
  }

  // -------------------------------------------------------------------------- the API

  datatype Verdict = Valid | Duplicates(ids: set<string>) | Mismatch(missing: set<string>, unknown: set<string>)

  function Ids(artifacts: seq<Artifact>): set<string> {
    set i | 0 <= i < |artifacts| :: artifacts[i].artifactId
  }

  function Repeated(artifacts: seq<Artifact>): set<string> {
    set i, j | 0 <= i < j < |artifacts| && artifacts[i].artifactId == artifacts[j].artifactId :: artifacts[i].artifactId
  }

  /** `_validate_artifact_references`. */
  function Validate(digests: map<string, string>, artifacts: seq<Artifact>): Verdict {
    if Repeated(artifacts) != {} then Duplicates(Repeated(artifacts))
    else
      var missing, unknown := Ids(artifacts) - digests.Keys, digests.Keys - Ids(artifacts);
      if missing != {} || unknown != {} then Mismatch(missing, unknown) else Valid
  }

  predicate Distinct(artifacts: seq<Artifact>) {
    forall i, j | 0 <= i < j < |artifacts| :: artifacts[i].artifactId != artifacts[j].artifactId
  }

  lemma ValidIff(digests: map<string, string>, artifacts: seq<Artifact>)
    ensures Validate(digests, artifacts) == Valid <==> Distinct(artifacts) && digests.Keys == Ids(artifacts)
  {
    if !Distinct(artifacts) {
      var i, j :| 0 <= i < j < |artifacts| && artifacts[i].artifactId == artifacts[j].artifactId;
      assert artifacts[i].artifactId in Repeated(artifacts);
    }
  }

  /** What the builder assembles always passes the API's reference check, and each digest is
      the checksum of its artifact, which the API itself does not compare. */
  lemma BuilderOutputIsValid(f: Files, entries: seq<Entry>, digests: map<string, string>, artifacts: seq<Artifact>)
    requires Wellformed(f, entries) && Assembled(f, entries, digests, artifacts)
    ensures Validate(digests, artifacts) == Valid
    ensures forall i | 0 <= i < |artifacts| :: digests[artifacts[i].artifactId] == artifacts[i].checksum
  {
    ValidIff(digests, artifacts);
    assert forall i | 0 <= i < |artifacts| :: artifacts[i].artifactId == IdOf(f, entries[i]);
    forall id | id in digests ensures id in Ids(artifacts) {
      var i :| 0 <= i < |entries| && IdOf(f, entries[i]) == id;
      assert artifacts[i].artifactId == id;
    }
  }

  datatype Stored = Stored(releaseId: string, checksum: string, uri: string)

  /** The bundles with their digests, and the artifact rows, keyed by artifact id alone. */
  datatype Shelf = Shelf(bundles: map<string, map<string, string>>, artifacts: map<string, Stored>)

  datatype Response = Created | Invalid(verdict: Verdict) | BundleConflict

  function Shelved(rows: map<string, Stored>, releaseId: string, artifacts: seq<Artifact>): map<string, Stored> {
    if artifacts == [] then rows
    else
      var last := artifacts[|artifacts| - 1];
      Shelved(rows, releaseId, artifacts[..|artifacts| - 1])
        [last.artifactId := Stored(releaseId, last.checksum, last.uri)]
  }

  function CreateBundle(s: Shelf, releaseId: string, digests: map<string, string>, artifacts: seq<Artifact>)
    : (Shelf, Response)
  {
    if Validate(digests, artifacts) != Valid then (s, Invalid(Validate(digests, artifacts)))
    else if releaseId in s.bundles || Ids(artifacts) * s.artifacts.Keys != {} then (s, BundleConflict)
    else (Shelf(s.bundles[releaseId := digests], Shelved(s.artifacts, releaseId, artifacts)), Created)
  }

  class ReleaseShelf {
    var bundles: map<string, map<string, string>>
    var artifacts: map<string, Stored>

    function Contents(): Shelf
      reads this
    {
      Shelf(bundles, artifacts)
    }

    constructor ()
      ensures Contents() == Shelf(map[], map[])
    {
      bundles, artifacts := map[], map[];
    }

    /** `create_release_bundle`: the bundle row is flushed first, then the artifact rows; a
        key lost in either rolls both back. */
    method CreateReleaseBundle(releaseId: string, digests: map<string, string>, items: seq<Artifact>) returns (r: Response)
      modifies this
      ensures (Contents(), r) == CreateBundle(old(Contents()), releaseId, digests, items)
    {
      var verdict := Validate(digests, items);
      if verdict != Valid { return Invalid(verdict); }
      ValidIff(digests, items);
      if releaseId in bundles { return BundleConflict; }
      var bundlesBefore, artifactsBefore := bundles, artifacts;
      bundles := bundles[releaseId := digests];
      for i := 0 to |items|
        invariant bundles == bundlesBefore[releaseId := digests]
        invariant artifacts == Shelved(artifactsBefore, releaseId, items[..i])
        invariant forall k | 0 <= k < i :: items[k].artifactId !in artifactsBefore
      {
        ShelvedKeys(artifactsBefore, releaseId, items[..i]);
        if items[i].artifactId in artifacts {
          assert items[i].artifactId in Ids(items);
          bundles, artifacts := bundlesBefore, artifactsBefore;
          return BundleConflict;
        }
        assert items[..i + 1][..i] == items[..i];
        artifacts := artifacts[items[i].artifactId := Stored(releaseId, items[i].checksum, items[i].uri)];
      }
      assert items[..|items|] == items;
      r := Created;
    }
  }

  lemma {:induction false} ShelvedKeys(rows: map<string, Stored>, releaseId: string, artifacts: seq<Artifact>)
    ensures Shelved(rows, releaseId, artifacts).Keys == rows.Keys + Ids(artifacts)
  {
    if artifacts != [] {
      var n := |artifacts| - 1;
      ShelvedKeys(rows, releaseId, artifacts[..n]);
      assert Ids(artifacts) == Ids(artifacts[..n]) + {artifacts[n].artifactId} by {
        assert forall i | 0 <= i < n :: artifacts[..n][i] == artifacts[i];
      }
    }
  }

  lemma {:induction false} ShelvedRows(rows: map<string, Stored>, releaseId: string, artifacts: seq<Artifact>, id: string)
    requires Ids(artifacts) * rows.Keys == {}
    ensures var after := Shelved(rows, releaseId, artifacts);
            && (id in after <==> id in rows || id in Ids(artifacts))
            && (id in rows ==> after[id] == rows[id])
            && (id in Ids(artifacts) ==> after[id].releaseId == releaseId)
  {
    ShelvedKeys(rows, releaseId, artifacts);
    if artifacts != [] {
      var n := |artifacts| - 1;
      assert forall k | k in Ids(artifacts[..n]) :: k in Ids(artifacts) by {
        assert forall i | 0 <= i < n :: artifacts[..n][i] == artifacts[i];
      }
      var last := artifacts[n].artifactId;
      assert last in Ids(artifacts);
      assert last in rows ==> last in Ids(artifacts) * rows.Keys;
      ShelvedRows(rows, releaseId, artifacts[..n], id);
      assert forall i | 0 <= i < n :: artifacts[..n][i] == artifacts[i];
    }
  }

  /** A stored bundle's digests name exactly the artifact rows stored for it. */
  ghost predicate Complete(s: Shelf) {
    && (forall id | id in s.artifacts :: s.artifacts[id].releaseId in s.bundles)
    && (forall r | r in s.bundles :: forall id ::
          id in s.bundles[r] <==> id in s.artifacts && s.artifacts[id].releaseId == r)
  }

  /** Bundles are stored whole or not at all, whatever key is lost on the way. */
  lemma CreateKeepsComplete(s: Shelf, releaseId: string, digests: map<string, string>, artifacts: seq<Artifact>)
    requires Complete(s)
    ensures Complete(CreateBundle(s, releaseId, digests, artifacts).0)
  {
    hide Validate, Shelved;
    var (t, r) := CreateBundle(s, releaseId, digests, artifacts);
    if r == Created {
      ValidIff(digests, artifacts);
      forall id
        ensures id in t.artifacts <==> id in s.artifacts || id in Ids(artifacts)
        ensures id in s.artifacts ==> t.artifacts[id] == s.artifacts[id]
        ensures id in Ids(artifacts) ==> t.artifacts[id].releaseId == releaseId
      {
        ShelvedRows(s.artifacts, releaseId, artifacts, id);
      }
    }
  }

  /** A valid request is stored exactly if its release id is new and none of its artifact
      ids is stored for any release: artifact rows are keyed by artifact id alone, so a new
      release that ships an artifact of an old one is refused as already existing. */
  lemma CreatedIffAllNew(s: Shelf, releaseId: string, digests: map<string, string>, artifacts: seq<Artifact>)
    requires Validate(digests, artifacts) == Valid
    ensures var (t, r) := CreateBundle(s, releaseId, digests, artifacts);
            && (r == Created <==> releaseId !in s.bundles && forall id | id in digests :: id !in s.artifacts)
            && (r != Created ==> (t, r) == (s, BundleConflict))
  {
    ValidIff(digests, artifacts);
    var shared := Ids(artifacts) * s.artifacts.Keys;
    assert forall id :: id in shared <==> id in digests && id in s.artifacts;
    if shared != {} { var id :| id in shared; }
  }
}
