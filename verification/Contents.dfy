/** What a new package holds, in full: its rows, its manifest, and the text of its documents. */
module Contents {
  import opened Contracts
  import opened Tables
  import opened Templates
  import opened Registry
  import opened Packages
  import opened PackageHistories
  import Strings

  // ------------------------------------------------------------------ printed values

  /** How values are printed: text as it is, truth values as Python spells them, integers by
      their decimal digits without leading zeros, after a minus sign where negative. */
  lemma ShownInFull(text: string, n: nat)
    ensures Shown(Str(text)) == text && Shown(Float(text)) == text
    ensures Shown(Bool(true)) == "True" && Shown(Bool(false)) == "False"
    ensures var digits := Shown(Int(n));
            && (forall c | c in digits :: '0' <= c <= '9')
            && Strings.Value(digits) == n && digits != "" && (digits[0] == '0' ==> digits == "0")
    ensures n > 0 ==> Shown(Int(0 - n)) == "-" + Shown(Int(n))
  {
    Strings.ValueOfDecimal(n);
    NoLeadingZero(n);
  }

  lemma {:induction false} NoLeadingZero(n: nat)
    ensures Strings.Decimal(n)[0] == '0' ==> n == 0
  {
    if n >= 10 { NoLeadingZero(n / 10); }
  }

  // -------------------------------------------------------------------- document texts

  lemma ValueOf(variables: Variables, v: (string, Scalar))
    requires DistinctKeys(variables) && v in variables
    ensures v.0 in Values(variables) && Values(variables)[v.0] == Shown(v.1)
  {
    hide DistinctKeys, Values, Shown;
    ValuesOf(variables);
  }

  lemma VariableOf(variables: Variables, k: string) returns (v: (string, Scalar))
    requires DistinctKeys(variables) && k in Values(variables)
    ensures v in variables && v.0 == k
  {
    hide DistinctKeys, Values, Shown;
    ValuesOf(variables);
    v :| v in variables && v.0 == k;
  }

  lemma MergedAt(variables: Variables, caseId: string, k: string)
    requires DistinctKeys(variables)
    ensures var merged, values := Values(WithCaseId(variables, caseId)), Values(variables);
            && (k in merged <==> k == CASE_ID || k in values)
            && (k in merged ==> merged[k] == if k == CASE_ID then caseId else values[k])
  {
    hide WithCaseId, DistinctKeys, Values, Shown;
    var merged, mine := WithCaseId(variables, caseId), (CASE_ID, Str(caseId));
    MergedDistinct(variables, caseId);
    MergedItems(variables, caseId, mine);
    ValueOf(merged, mine);
    ShownInFull(caseId, 0);
    if k != CASE_ID {
      if k in Values(merged) {
        var v := VariableOf(merged, k);
        MergedItems(variables, caseId, v);
        ValueOf(merged, v);
        ValueOf(variables, v);
      }
      if k in Values(variables) {
        var v := VariableOf(variables, k);
        MergedItems(variables, caseId, v);
        ValueOf(merged, v);
      }
    }
  }

  /** The values a template is rendered with: the given ones, and the case id over them. */
  lemma MergedValues(variables: Variables, caseId: string)
    requires DistinctKeys(variables)
    ensures var merged := WithCaseId(variables, caseId);
            DistinctKeys(merged) && Values(merged) == Values(variables)["case_id" := caseId]
  {
    hide WithCaseId, DistinctKeys, Values;
    MergedDistinct(variables, caseId);
    var merged := Values(WithCaseId(variables, caseId));
    forall k: string
      ensures k in merged <==> k in Values(variables)["case_id" := caseId]
      ensures k in merged ==> merged[k] == Values(variables)["case_id" := caseId][k]
    {
      MergedAt(variables, caseId, k);
    }
  }

  lemma MergedPlain(variables: Variables, caseId: string)
    requires DistinctKeys(variables) && PlainVariables(variables) && Plain(caseId)
    ensures PlainVariables(WithCaseId(variables, caseId))
  {
    CaseIdWins(variables, caseId);
    hide WithCaseId;
    assert forall i | 0 <= i < |CASE_ID| :: CASE_ID[i] != '{' && CASE_ID[i] != '}';
    assert Shown(Str(caseId)) == caseId;
  }

  /** A document is its template with every hole filled whose key is given, the runtime case
      id standing for `case_id` whatever the fixture says. */
  lemma RenderedInFull(spec: DocumentSpec, caseId: string, tokens: seq<Token>)
    requires spec.template == Flat(tokens) && PlainTemplate(tokens)
    requires PlainVariables(spec.variables) && DistinctKeys(spec.variables) && Plain(caseId)
    ensures Rendered(spec, caseId) == Flat(Simultaneous(tokens, Values(spec.variables)["case_id" := caseId]))
  {
    MergedValues(spec.variables, caseId);
    MergedPlain(spec.variables, caseId);
    SequentialIsSimultaneous(tokens, WithCaseId(spec.variables, caseId));
  }

  /** A template with one placeholder: the case id is put in for `case_id`, a given value for
      its key, and any other placeholder stays. */
  lemma OnePlaceholder(spec: DocumentSpec, caseId: string, before: string, key: string, after: string)
    requires spec.template == before + "{{" + key + "}}" + after
    requires Plain(before) && Plain(key) && Plain(after)
    requires PlainVariables(spec.variables) && DistinctKeys(spec.variables) && Plain(caseId)
    ensures key == "case_id" ==> Rendered(spec, caseId) == before + caseId + after
    ensures key != "case_id" ==>
              && (forall v | v in spec.variables && v.0 == key :: Rendered(spec, caseId) == before + Shown(v.1) + after)
              && ((forall v | v in spec.variables :: v.0 != key) ==> Rendered(spec, caseId) == spec.template)
  {
    var tokens := [Text(before), Hole(key), Text(after)];
    var values := Values(spec.variables)["case_id" := caseId];
    hide Rendered, PlainVariables, DistinctKeys, Shown, Values, Flat, Simultaneous, WithCaseId;
    FlatOfThree(before, Hole(key), after);
    FilledOfThree(before, Hole(key), after, values);
    FlatOfThree(before, Filled(Hole(key), values), after);
    RenderedInFull(spec, caseId, tokens);
    if key != "case_id" {
      forall v | v in spec.variables && v.0 == key ensures Rendered(spec, caseId) == before + Shown(v.1) + after {
        ValueOf(spec.variables, v);
      }
      if key in Values(spec.variables) { var v := VariableOf(spec.variables, key); }
    }
  }

  lemma FilledOfThree(before: string, middle: Token, after: string, values: map<string, string>)
    ensures Simultaneous([Text(before), middle, Text(after)], values) == [Text(before), Filled(middle, values), Text(after)]
  {
    var tokens := [Text(before), middle, Text(after)];
    assert tokens[1..] == [middle, Text(after)] && tokens[1..][1..] == [Text(after)];
    assert Simultaneous([Text(after)], values) == [Text(after)];
  }

  lemma FlatOfThree(before: string, middle: Token, after: string)
    ensures Flat([Text(before), middle, Text(after)]) == before + Print(middle) + after
  {
    var tokens := [Text(before), middle, Text(after)];
    assert tokens[1..] == [middle, Text(after)] && tokens[1..][1..] == [Text(after)];
    assert Flat([Text(after)]) == after;
  }

  lemma NewDocument(s: Store, env: Env, req: PackageRequest, draw: Draw, k: nat)
    requires Writable(s, env, req, draw) && k < |draw.artifacts|
    ensures var t, spec, id := Stored(s, env, req, draw), env.compile(req.caseId).documents[k], draw.artifacts[k];
            var text := Rendered(spec, req.caseId);
            && ContentOf(t, env.cfg, id) == Some(text)
            && Name(env.cfg, id) in t.objects && t.objects[Name(env.cfg, id)] == text
            && id in t.artifacts
            && t.artifacts[id] == ArtifactRow(DocumentClass, req.caseId, spec.documentId, env.cfg.digest(text),
                                              StorageUri(Name(env.cfg, id)), |text|)
  {
    hide NoCollision, HasPackageId, FindPackage, Objects, ContentOf, Rendered, ArtifactsWith, ReadsBack, StorageUri, ObjectKey,
      ValidEvidenceId, ManifestOf, ParseUri;
    var id := draw.artifacts[k];
    DocumentStored(s, env, req, draw, k);
    UploadReads(s, env, req, draw, k);
    ArtifactsAt(s.artifacts, env, req, draw, |draw.artifacts|, id);
  }

  lemma NewRows(s: Store, env: Env, req: PackageRequest, draw: Draw, k: nat)
    requires Writable(s, env, req, draw) && DocumentsBelong(s) && k < |draw.artifacts|
    ensures var t, spec := Stored(s, env, req, draw), env.compile(req.caseId).documents[k];
            var rows := DocumentsOf(t.documents, draw.packageId);
            && |rows| == |env.compile(req.caseId).documents|
            && rows[k] == DocumentRow(draw.packageId, spec.documentId, spec.documentType, spec.templateName, draw.artifacts[k],
                                      env.cfg.digest(Rendered(spec, req.caseId)))
  {
    hide NoCollision, HasPackageId, FindPackage, Objects, Uploads, DocumentsOf, Rendered, ArtifactsWith, StorageUri, ObjectKey,
      ValidEvidenceId;
    StoredDocuments(s, env, req, draw, draw.packageId);
  }

  lemma NewCallStores(s: Store, env: Env, req: PackageRequest, draw: Draw)
    requires Writable(s, env, req, draw) && env.compile(req.caseId).documents != []
    ensures Persist(s, env, req, draw) == (Stored(s, env, req, draw), Returned(draw.packageId))
  {
    hide Drawn, NoCollision, Objects, Uploads, Written;
  }

  /** Document k of a new package reads back as its template rendered for the case. */
  lemma DocumentsInFull(s: Store, env: Env, req: PackageRequest, draw: Draw, k: nat, tokens: seq<Token>)
    requires Writable(s, env, req, draw) && DocumentsBelong(s) && k < |draw.artifacts|
    requires env.compile(req.caseId).documents != []
    requires var spec := env.compile(req.caseId).documents[k];
             && spec.template == Flat(tokens) && PlainTemplate(tokens)
             && PlainVariables(spec.variables) && DistinctKeys(spec.variables) && Plain(req.caseId)
    ensures var t, spec := Persist(s, env, req, draw).0, env.compile(req.caseId).documents[k];
            var rows := DocumentsOf(t.documents, draw.packageId);
            var text := Flat(Simultaneous(tokens, Values(spec.variables)["case_id" := req.caseId]));
            var id := draw.artifacts[k];
            && |rows| == |env.compile(req.caseId).documents|
            && rows[k] == DocumentRow(draw.packageId, spec.documentId, spec.documentType, spec.templateName, id,
                                      env.cfg.digest(text))
            && ContentOf(t, env.cfg, id) == Some(text)
            && Name(env.cfg, id) in t.objects && t.objects[Name(env.cfg, id)] == text
            && id in t.artifacts
            && t.artifacts[id] == ArtifactRow(DocumentClass, req.caseId, spec.documentId, env.cfg.digest(text),
                                              StorageUri(Name(env.cfg, id)), |text|)
  {
    NewCallStores(s, env, req, draw);
    hide Writable, Persist, ContentOf, DocumentsOf, Rendered, Flat, Simultaneous, PlainVariables, DistinctKeys, PlainTemplate,
      Values, StorageUri, ObjectKey, ValidEvidenceId;
    RenderedInFull(env.compile(req.caseId).documents[k], req.caseId, tokens);
    NewRows(s, env, req, draw, k);
    NewDocument(s, env, req, draw, k);
  }

  /** A call that finds no package answers the id it drew, and leaves one package row, its
      documents' rows, the manifest's evidence row, and the case pointing at the package and
      advanced exactly from INCENTIVES_COMPLETE; it touches no other row. */
  lemma PackageInFull(s: Store, env: Env, req: PackageRequest, draw: Draw)
    requires Writable(s, env, req, draw) && env.compile(req.caseId).documents != []
    ensures var (t, o) := Persist(s, env, req, draw);
            var spec, c, n := env.compile(req.caseId), req.caseId, |s.documents|;
            var manifest := ManifestOf(env, req, draw);
            var text := env.encode(manifest);
            && o == Returned(draw.packageId)
            && manifest.manifestId == draw.manifestId && manifest.caseId == c && manifest.version == spec.version
            && manifest.attachments == spec.attachments && manifest.family == spec.family
            && |manifest.references| == |spec.documents|
            && t.packages == s.packages + [PackageRow(draw.packageId, c, req.requestId, spec.version, draw.manifestArtifact,
                                                      env.cfg.digest(text))]
            && |t.documents| == n + |spec.documents| && t.documents[..n] == s.documents
            && t.artifacts.Keys == s.artifacts.Keys + {draw.manifestArtifact} + (set i | 0 <= i < |draw.artifacts| :: draw.artifacts[i])
            && t.artifacts[draw.manifestArtifact]
               == ArtifactRow(ManifestClass, c, draw.packageId, env.cfg.digest(text),
                              StorageUri(Name(env.cfg, draw.manifestArtifact)), |text|)
            && (forall id | id in s.artifacts :: t.artifacts[id] == s.artifacts[id])
            && t.cases == s.cases[c := CaseRow(if s.cases[c].caseState == IncentivesComplete then DocumentComplete
                                               else s.cases[c].caseState,
                                               s.cases[c].supportLevel, Some(draw.packageId))]
            && t == s.(packages := t.packages, documents := t.documents, artifacts := t.artifacts, cases := t.cases,
                       objects := t.objects)
  {
    NewCallStores(s, env, req, draw);
    var n := |draw.artifacts|;
    KeysWith(s.artifacts, env, req, draw, n);
    ArtifactsAt(s.artifacts, env, req, draw, n, draw.manifestArtifact);
    hide Persist, NoCollision, HasPackageId, FindPackage, Objects, Uploads, ArtifactsWith, StorageUri, ObjectKey,
      ValidEvidenceId, Document, Rendered;
    OldArtifactsStay(s, env, req, draw);
  }

  /** The package found for a request is the last one written for it. */
  lemma {:induction false} FoundIsNewest(packages: seq<PackageRow>, c: string, request: string, k: nat)
    requires k < |packages| && packages[k].caseId == c && packages[k].requestId == request
    requires forall j | k < j < |packages| :: !(packages[j].caseId == c && packages[j].requestId == request)
    ensures FindPackage(packages, c, request) == Some(packages[k])
  {
    if k < |packages| - 1 {
      var n := |packages| - 1;
      assert forall j | 0 <= j < n :: packages[..n][j] == packages[j];
      FoundIsNewest(packages[..n], c, request, k);
    }
  }

  /** What a call answers: an error without documents; the package it finds; and else the one
      it draws, unless an insert fails. Only a call that answers a new package writes a row. */
  lemma CallAnswers(s: Store, env: Env, req: PackageRequest, draw: Draw)
    requires Drawn(env, req, draw)
    ensures var (t, o) := Persist(s, env, req, draw);
            var made := forall p | p in s.packages :: !(p.caseId == req.caseId && p.requestId == req.requestId);
            var known := exists p :: p in s.packages && p.packageId == draw.packageId;
            var fits := req.caseId in s.cases && NoCollision(s.artifacts, draw, |draw.artifacts|);
            && (env.compile(req.caseId).documents == [] ==> (t, o) == (s, Raised(LookupError)))
            && (env.compile(req.caseId).documents != [] ==>
                  && (!made ==> t == s && o == Returned(FindPackage(s.packages, req.caseId, req.requestId).value.packageId))
                  && (made && (known || fits) ==> o == Returned(draw.packageId))
                  && (made && !known && !fits ==> o == Raised(RuntimeError))
                  && (made && (known || !fits) ==> t == s.(objects := t.objects)))
  {
    hide Drawn, NoCollision, Uploads, Objects, Written;
    assert HasPackageId(s.packages, draw.packageId) <==> exists p :: p in s.packages && p.packageId == draw.packageId by {
      if p :| p in s.packages && p.packageId == draw.packageId { var i :| 0 <= i < |s.packages| && s.packages[i] == p; }
    }
  }

  /** The inserts fit exactly if no id drawn for the manifest and the documents is taken or
      drawn twice. */
  lemma CollisionIff(artifacts: map<string, ArtifactRow>, draw: Draw)
    ensures var ids := [draw.manifestArtifact] + draw.artifacts;
            NoCollision(artifacts, draw, |draw.artifacts|)
            <==> (forall k | 0 <= k < |ids| :: ids[k] !in artifacts) && forall i, j | 0 <= i < j < |ids| :: ids[i] != ids[j]
  {
    var ids, n := [draw.manifestArtifact] + draw.artifacts, |draw.artifacts|;
    if NoCollision(artifacts, draw, n) {
      forall k | 0 <= k < |ids| ensures ids[k] !in artifacts {
        if k > 0 { assert ids[k] == draw.artifacts[k - 1]; }
      }
      forall i, j | 0 <= i < j < |ids| ensures ids[i] != ids[j] {
        assert ids[j] == draw.artifacts[j - 1];
        if i > 0 { assert ids[i] == draw.artifacts[i - 1]; }
      }
    }
    if (forall k | 0 <= k < |ids| :: ids[k] !in artifacts) && forall i, j | 0 <= i < j < |ids| :: ids[i] != ids[j] {
      assert ids[0] == draw.manifestArtifact;
      forall i | 0 <= i < n ensures draw.artifacts[i] !in artifacts && draw.artifacts[i] != draw.manifestArtifact {
        assert ids[i + 1] == draw.artifacts[i];
      }
      forall i, j | 0 <= i < j < n ensures draw.artifacts[i] != draw.artifacts[j] {
        assert ids[i + 1] == draw.artifacts[i] && ids[j + 1] == draw.artifacts[j];
      }
    }
  }
}
