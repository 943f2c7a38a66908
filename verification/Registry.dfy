/** Evidence ids, object keys, storage URIs, and the registry that writes content under
    them. */
module Registry {
  import opened Contracts
  import opened Tables

  // ---------------------------------------------------------------- ids and keys

  const PREFIX := "ART-"

  /** Crockford base32, upper case: no I, L, O or U. */
  predicate UlidChar(c: char) {
    '0' <= c <= '9' || 'A' <= c <= 'H' || c == 'J' || c == 'K' || c == 'M' || c == 'N'
    || 'P' <= c <= 'T' || 'V' <= c <= 'Z'
  }

  predicate ValidEvidenceId(id: string) {
    && PREFIX <= id
    && |id| == |PREFIX| + 26
    && forall c | c in id[|PREFIX|..] :: UlidChar(c)
  }

  /** `evidence_object_key`; None where it raises. */
  function ObjectKey(id: string): Option<string> {
    if ValidEvidenceId(id) then Some("evidence/" + id[4..6] + "/" + id) else None
  }

  lemma ObjectKeyInjective(a: string, b: string)
    requires ObjectKey(a).Some? && ObjectKey(a) == ObjectKey(b)
    ensures a == b
  {
    var x, y := "evidence/" + a[4..6] + "/", "evidence/" + b[4..6] + "/";
    assert |x| == |y| == 12;
    assert a == (x + a)[12..] && b == (y + b)[12..];
  }

  // ------------------------------------------------------------------------- URIs

  const SCHEME := "s3"

  function StorageUri(name: ObjectName): string {
    SCHEME + "://" + name.bucket + "/" + name.key
  }

  /** The part of a string before its first stop character. */
  function Before(s: string, stops: set<char>): (r: string)
    ensures r <= s
    ensures forall c | c in r :: c !in stops
    ensures |r| < |s| ==> s[|r|] in stops
  {
    if s == "" || s[0] in stops then "" else [s[0]] + Before(s[1..], stops)
  }

  function StripSlashes(s: string): (r: string)
    ensures r == "" || r[0] != '/'
    ensures |r| <= |s| && r == s[|s| - |r|..]
    ensures s == "" || s[0] != '/' ==> r == s
  {
    if s != "" && s[0] == '/' then StripSlashes(s[1..]) else s
  }

  function Lower(s: string): string {
    seq(|s|, i requires 0 <= i < |s| => if 'A' <= s[i] <= 'Z' then (s[i] as int + 32) as char else s[i])
  }

  const AUTHORITY_STOPS: set<char> := {'/', '?', '#'}
  const PATH_STOPS: set<char> := {'?', '#'}
  const REMOVED: set<char> := {'\t', '\r', '\n'}

  /** The URL parser drops leading control characters and spaces, and tabs and line ends
      anywhere. */
  function StripControls(s: string): (r: string)
    ensures s == "" || s[0] > ' ' ==> r == s
  {
    if s != "" && s[0] <= ' ' then StripControls(s[1..]) else s
  }

  function Cleaned(s: string): (r: string)
    ensures forall c | c in r :: c !in REMOVED
  {
    if s == "" then "" else (if s[0] in REMOVED then "" else [s[0]]) + Cleaned(s[1..])
  }

  /** Which authorities the URL parser accepts: it refuses some with brackets, and some that
      change under Unicode normalisation. */
  type HostCheck = string -> bool

  /** What follows the scheme: an authority and a path. */
  function ParseBody(accepts: HostCheck, body: string): Option<ObjectName> {
    var authority := Before(body, AUTHORITY_STOPS);
    var path := Before(body[|authority|..], PATH_STOPS);
    if !accepts(authority) || authority == "" || path == "" then None
    else Some(ObjectName(authority, StripSlashes(path)))
  }

  /** `parse_s3_storage_uri`; None where it raises. */
  function ParseUri(accepts: HostCheck, uri: string): Option<ObjectName> {
    var clean := Cleaned(StripControls(uri));
    var scheme := Before(clean, {':'});
    var rest := clean[|scheme|..];
    if Lower(scheme) != SCHEME || !("://" <= rest) then None else ParseBody(accepts, rest[3..])
  }

  lemma {:induction false} CleanedAppend(a: string, b: string)
    ensures Cleaned(a + b) == Cleaned(a) + Cleaned(b)
  {
    if a == "" {
      assert a + b == b;
    } else {
      assert (a + b)[1..] == a[1..] + b;
      CleanedAppend(a[1..], b);
    }
  }

  lemma {:induction false} CleanStays(s: string)
    requires forall c | c in s :: c !in REMOVED
    ensures Cleaned(s) == s
  {
    if s != "" { CleanStays(s[1..]); }
  }

  lemma {:induction false} BeforeStopsAt(x: string, rest: string, stops: set<char>)
    requires forall c | c in x :: c !in stops
    requires rest == "" || rest[0] in stops
    ensures Before(x + rest, stops) == x
  {
    if x == "" {
      assert x + rest == rest;
    } else {
      assert (x + rest)[1..] == x[1..] + rest;
      BeforeStopsAt(x[1..], rest, stops);
    }
  }

  /** The names whose URI parses back to them. */
  predicate Printable(accepts: HostCheck, name: ObjectName) {
    && name.bucket != "" && accepts(name.bucket)
    && (forall c | c in name.bucket :: c !in AUTHORITY_STOPS && c !in REMOVED)
    && (forall c | c in name.key :: c !in PATH_STOPS && c !in REMOVED)
    && (name.key == "" || name.key[0] != '/')
  }

  function Body(name: ObjectName): string {
    name.bucket + "/" + name.key
  }

  lemma SchemeCut(accepts: HostCheck, name: ObjectName)
    ensures ParseUri(accepts, StorageUri(name)) == ParseBody(accepts, Cleaned(Body(name)))
  {
    var head := SCHEME + "://";
    assert StorageUri(name) == head + Body(name) && StorageUri(name)[0] > ' ';
    CleanedAppend(head, Body(name));
    assert forall i | 0 <= i < |head| :: head[i] !in REMOVED;
    CleanStays(head);
    var tail := "://" + Cleaned(Body(name));
    assert Cleaned(StorageUri(name)) == SCHEME + tail;
    BeforeStopsAt(SCHEME, tail, {':'});
    assert (SCHEME + tail)[2..] == tail && tail[3..] == Cleaned(Body(name));
    assert Lower(SCHEME) == SCHEME;
  }

  lemma PrintableIsClean(accepts: HostCheck, name: ObjectName)
    requires Printable(accepts, name)
    ensures Cleaned(Body(name)) == Body(name)
  {
    var body := Body(name);
    assert forall c | c in body :: c in name.bucket || c == '/' || c in name.key;
    CleanStays(body);
  }

  lemma PrintableParses(accepts: HostCheck, name: ObjectName)
    requires Printable(accepts, name)
    ensures ParseBody(accepts, Body(name)) == Some(name)
  {
    var path := "/" + name.key;
    assert Body(name) == name.bucket + path;
    BeforeStopsAt(name.bucket, path, AUTHORITY_STOPS);
    assert Body(name)[|name.bucket|..] == path && path == path + "";
    BeforeStopsAt(path, "", PATH_STOPS);
    assert path[1..] == name.key;
  }

  lemma ParsedIsPrintable(accepts: HostCheck, name: ObjectName)
    requires ParseBody(accepts, Cleaned(Body(name))) == Some(name)
    ensures Printable(accepts, name)
  {
    var clean := Cleaned(Body(name));
    var rest := clean[|name.bucket|..];
    var path := Before(rest, PATH_STOPS);
    assert name.bucket <= clean;
    assert forall c | c in name.bucket :: c in clean;
    assert forall i | 0 <= i < |path| :: path[i] == rest[i] && rest[i] == clean[|name.bucket| + i] && path[i] in clean;
    assert name.key == path[|path| - |name.key|..];
    assert forall c | c in name.key :: c in path && c in clean;
  }

  /** A printed URI reads back as its bucket and key exactly for printable names. */
  lemma UriRoundTrip(accepts: HostCheck, name: ObjectName)
    ensures ParseUri(accepts, StorageUri(name)) == Some(name) <==> Printable(accepts, name)
  {
    hide ParseUri, ParseBody, Printable, StorageUri;
    SchemeCut(accepts, name);
    if Printable(accepts, name) {
      PrintableIsClean(accepts, name);
      PrintableParses(accepts, name);
    }
    if ParseBody(accepts, Cleaned(Body(name))) == Some(name) { ParsedIsPrintable(accepts, name); }
  }

  predicate PathChar(c: char) {
    c !in PATH_STOPS && c !in REMOVED
  }

  lemma KeyIsPrintable(cfg: Settings, id: string)
    requires ValidSettings(cfg) && ValidEvidenceId(id)
    ensures Printable(cfg.accepts, ObjectName(cfg.bucket, ObjectKey(id).value))
  {
    var key := ObjectKey(id).value;
    assert forall i | 0 <= i < 9 :: PathChar("evidence/"[i]);
    assert forall i | 0 <= i < 4 :: PathChar(PREFIX[i]) && id[i] == PREFIX[i];
    assert forall i | 4 <= i < 30 :: id[i] in id[4..] && UlidChar(id[i]) && PathChar(id[i]);
    assert forall i | 0 <= i < |key| :: PathChar(key[i]);
  }

  // ---------------------------------------------------------------- the registry

  /** Where evidence goes, and the digest it is checked by. */
  datatype Settings = Settings(bucket: string, digest: Content -> string, accepts: HostCheck)

  predicate ValidSettings(cfg: Settings) {
    && cfg.bucket != "" && cfg.accepts(cfg.bucket)
    && forall c | c in cfg.bucket :: c !in AUTHORITY_STOPS && c !in REMOVED
  }

  datatype Registered = Registered(artifactId: string, digest: string, contentBytes: nat, uri: string)

  function Name(cfg: Settings, id: string): ObjectName
    requires ValidEvidenceId(id)
  {
    ObjectName(cfg.bucket, ObjectKey(id).value)
  }

  lemma NameInjective(cfg: Settings, a: string, b: string)
    requires ValidEvidenceId(a) && ValidEvidenceId(b) && Name(cfg, a) == Name(cfg, b)
    ensures a == b
  {
    ObjectKeyInjective(a, b);
  }

  function RegisteredAs(cfg: Settings, id: string, content: Content): Registered
    requires ValidEvidenceId(id)
  {
    Registered(id, cfg.digest(content), |content|, StorageUri(Name(cfg, id)))
  }

  /** What a registration says, reading the store back: its URI leads to content with the
      digest and the length it recorded. */
  predicate ReadsBack(cfg: Settings, objects: map<ObjectName, Content>, r: Registered) {
    && var name := ParseUri(cfg.accepts, r.uri);
    && name.Some?
    && name.value in objects
    && cfg.digest(objects[name.value]) == r.digest
    && |objects[name.value]| == r.contentBytes
  }

  /** `put_bytes`: content is written only if it has the length and, in either case of its
      hexadecimal letters, the digest it was announced with. */
  method PutBytes(db: Database, cfg: Settings, name: ObjectName, content: Content, expected: Option<string>,
                  expectedBytes: Option<nat>)
    returns (outcome: Outcome<()>)
    modifies db`objects
    ensures outcome.Returned? <==>
              && (expectedBytes.None? || expectedBytes.value == |content|)
              && (expected.None? || Lower(expected.value) == Lower(cfg.digest(content)))
    ensures outcome.Raised? ==> outcome.error == IntegrityError
    ensures db.objects == if outcome.Returned? then old(db.objects)[name := content] else old(db.objects)
  {
    if expectedBytes.Some? && expectedBytes.value != |content| {
      return Raised(IntegrityError);
    }
    if expected.Some? && Lower(expected.value) != Lower(cfg.digest(content)) {
      return Raised(IntegrityError);
    }
    db.objects := db.objects[name := content];
    return Returned(());
  }

  /** `register_document` and `register_manifest`, with the artifact id they draw. */
  method Register(db: Database, cfg: Settings, id: string, content: Content) returns (r: Registered)
    requires ValidEvidenceId(id) && ValidSettings(cfg)
    modifies db`objects
    ensures r == RegisteredAs(cfg, id, content)
    ensures db.objects == old(db.objects)[Name(cfg, id) := content]
    ensures ReadsBack(cfg, db.objects, r)
  {
    var name := Name(cfg, id);
    var sha := cfg.digest(content);
    var put := PutBytes(db, cfg, name, content, Some(sha), None);
    r := Registered(id, sha, |content|, StorageUri(name));
    KeyIsPrintable(cfg, id);
    UriRoundTrip(cfg.accepts, name);
  }

  /** `read_artifact_bytes`. */
  method ReadArtifact(db: Database, cfg: Settings, uri: string) returns (outcome: Outcome<Content>)
    ensures match ParseUri(cfg.accepts, uri)
            case None => outcome == Raised(ValidationError)
            case Some(name) => outcome == if name in db.objects then Returned(db.objects[name])
                                          else Raised(StorageError)
  {
    var name := ParseUri(cfg.accepts, uri);
    if name.None? { return Raised(ValidationError); }
    if name.value !in db.objects { return Raised(StorageError); }
    return Returned(db.objects[name.value]);
  }

  /** Stored evidence is left as it is: rows unchanged, and what is kept under their keys. */
  ghost predicate KeepsEvidence(s: Store, t: Store, cfg: Settings) {
    && (forall id | id in s.artifacts :: id in t.artifacts && t.artifacts[id] == s.artifacts[id])
    && (forall id | id in s.artifacts && ValidEvidenceId(id) && Name(cfg, id) in s.objects ::
          Name(cfg, id) in t.objects && t.objects[Name(cfg, id)] == s.objects[Name(cfg, id)])
  }

  // A history of registrations, in order: artifact id and content.
  type Log = seq<(string, Content)>

  predicate FreshIds(log: Log) {
    && (forall e | e in log :: ValidEvidenceId(e.0))
    && (forall i, j | 0 <= i < j < |log| :: log[i].0 != log[j].0)
  }

  function Objects(cfg: Settings, start: map<ObjectName, Content>, log: Log): map<ObjectName, Content>
    requires forall e | e in log :: ValidEvidenceId(e.0)
  {
    if log == [] then start
    else
      var n := |log| - 1;
      Objects(cfg, start, log[..n])[Name(cfg, log[n].0) := log[n].1]
  }

  lemma {:induction false} StillThere(cfg: Settings, start: map<ObjectName, Content>, log: Log, i: nat)
    requires FreshIds(log) && i < |log|
    ensures var (id, content) := log[i];
            var objects := Objects(cfg, start, log);
            Name(cfg, id) in objects && objects[Name(cfg, id)] == content
  {
    var n := |log| - 1;
    if i < n {
      StillThere(cfg, start, log[..n], i);
      if Name(cfg, log[n].0) == Name(cfg, log[i].0) { NameInjective(cfg, log[n].0, log[i].0); }
    }
  }

  /** Over any sequence of registrations with fresh ids, every URI handed out so far
      parses back to its bucket and key and reads exactly the bytes registered under it. */
  lemma EveryRegistrationReadsBack(cfg: Settings, start: map<ObjectName, Content>, log: Log, i: nat)
    requires ValidSettings(cfg) && FreshIds(log) && i < |log|
    ensures var (id, content) := log[i];
            var objects := Objects(cfg, start, log);
            && ParseUri(cfg.accepts, RegisteredAs(cfg, id, content).uri) == Some(Name(cfg, id))
            && Name(cfg, id) in objects && objects[Name(cfg, id)] == content
            && ReadsBack(cfg, objects, RegisteredAs(cfg, id, content))
  {
    StillThere(cfg, start, log, i);
    KeyIsPrintable(cfg, log[i].0);
    UriRoundTrip(cfg.accepts, Name(cfg, log[i].0));
  }
}
