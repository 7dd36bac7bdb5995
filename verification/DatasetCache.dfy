/** The content-addressed dataset cache (apps/api/app/backtest/dataset_cache.py). Publishing
    writes an object, a manifest naming it and a reference naming both, each through a
    temporary file that is then renamed; publishers interleave and may die anywhere. */
module DatasetCache {
  import opened Outcomes
  import opened CanonicalRecords

  /** A request, by the parameters that identify it. */
  type Request = string
  type JobId = nat

  /** What the exchange calendar and the bar checks say; every result holds for any of them.
      `inSession` is whether a record's time falls in a session the request expects. */
  datatype World = World(
    inSession: (Request, int) -> bool, soundBar: Record -> bool,
    coverage: (Request, seq<int>) -> string, provenance: Request -> string, revision: string -> bool)

  /** SHA-256 as an injective naming of payloads. */
  datatype Digest = Sha(of: Payload)

  datatype Manifest = Manifest(
    schema: int, requestId: Digest, provenance: string, canonicalSha: Digest, coverage: string,
    policy: string, sourceCount: int, publishedCount: int, excludedCount: int,
    retrievedAt: int, codeSha: string)

  datatype Reference = Reference(schema: int, requestId: Digest, manifestId: Digest, contentId: Digest)

  datatype Payload =
    | RequestPayload(request: Request)
    | ObjectPayload(schema: int, records: seq<Record>)
    | ManifestPayload(manifest: Manifest)
    | ReferencePayload(reference: Reference)

  /** A file holds a whole payload, or the part of one that was written before a crash. */
  datatype Bytes = Whole(payload: Payload) | Torn(payload: Payload)

  datatype Path =
    | ObjectPath(id: Digest)
    | ManifestPath(id: Digest)
    | RequestPath(id: Digest)
    | Temporary(job: JobId, step: nat)

  type Files = map<Path, Bytes>

  const SCHEMA_VERSION := 1
  const POLICY := "XNYS_regular_sessions_only"

  datatype Handle = Handle(records: seq<Record>, manifest: Manifest, contentId: Digest, manifestId: Digest)

  function RequestId(request: Request): Digest { Sha(RequestPayload(request)) }

  function Times(rs: seq<Record>): seq<int> {
    seq(|rs|, i requires 0 <= i < |rs| => rs[i].t)
  }

  /** _parse: the bar checks and strictly increasing times. */
  predicate Parses(w: World, rs: seq<Record>) {
    Increasing(rs) && forall r <- rs :: w.soundBar(r)
  }

  function Sessionise(w: World, request: Request, rs: seq<Record>): seq<Record> {
    if rs == [] then []
    else
      Sessionise(w, request, rs[..|rs| - 1])
      + (if w.inSession(request, rs[|rs| - 1].t) then [rs[|rs| - 1]] else [])
  }

  // ---------------------------------------------------------------- publishing

  datatype Plan = Plan(request: Request, handle: Handle)

  function PlanReference(p: Plan): Reference {
    Reference(SCHEMA_VERSION, RequestId(p.request), p.handle.manifestId, p.handle.contentId)
  }

  /** Everything publish decides before it writes. */
  function Prepare(w: World, request: Request, rows: seq<Row>, retrievedAt: Option<int>, codeSha: string): Result<Plan> {
    if retrievedAt.None? then Refused("retrieved_at must be timezone-aware")
    else if !w.revision(codeSha) then Refused("code_sha must be a full hexadecimal revision")
    else
      var canonical := Canonical(rows);
      if canonical.Refused? then Refused(canonical.reason)
      else if !Parses(w, canonical.value) then Refused("bar series")
      else
        var records := Sessionise(w, request, canonical.value);
        if !Parses(w, records) then Refused("bar series")
        else if records == [] then Refused("historical dataset must contain at least one bar")
        else
          var content := Sha(ObjectPayload(SCHEMA_VERSION, records));
          var manifest := Manifest(
            SCHEMA_VERSION, RequestId(request), w.provenance(request), content,
            w.coverage(request, Times(records)), POLICY, |canonical.value|, |records|,
            |canonical.value| - |records|, retrievedAt.value, codeSha);
          Ok(Plan(request, Handle(records, manifest, content, Sha(ManifestPayload(manifest)))))
  }

  /** The three files of a plan, in the order they are written. */
  function Target(p: Plan, step: nat): Path
    requires step < 3
  {
    if step == 0 then ObjectPath(p.handle.contentId)
    else if step == 1 then ManifestPath(p.handle.manifestId)
    else RequestPath(RequestId(p.request))
  }

  function Content(p: Plan, step: nat): Payload
    requires step < 3
  {
    if step == 0 then ObjectPayload(SCHEMA_VERSION, p.handle.records)
    else if step == 1 then ManifestPayload(p.handle.manifest)
    else ReferencePayload(PlanReference(p))
  }

  // ---------------------------------------------------------------- loading

  function ReadFile(files: Files, path: Path): Result<Payload> {
    if path !in files then Refused("no such file")
    else if files[path].Torn? then Refused("invalid JSON")
    else Ok(files[path].payload)
  }

  function VerifiedFile(files: Files, path: Path, id: Digest): Result<Payload> {
    var read := ReadFile(files, path);
    if read.Ok? && Sha(read.value) != id then Refused("object hash mismatch") else read
  }

  predicate ManifestSound(w: World, request: Request, m: Manifest, count: int) {
    && m.sourceCount >= count && m.policy == POLICY && m.publishedCount == count
    && m.excludedCount == m.sourceCount - count && w.revision(m.codeSha)
    && m.provenance == w.provenance(request)
  }

  /** A load reads the reference, the manifest it names, the object it names, and that object
      once more, each from the disk as it then is. */
  function LoadAcross(w: World, atReference: Files, atManifest: Files, atObject: Files, atBytes: Files, request: Request): Result<Handle> {
    var id := RequestId(request);
    var ref := ReadFile(atReference, RequestPath(id));
    if ref.Refused? then Refused(ref.reason)
    else if !ref.value.ReferencePayload? || ref.value.reference.requestId != id then
      Refused("cache request identity mismatch")
    else
      var r := ref.value.reference;
      var man := VerifiedFile(atManifest, ManifestPath(r.manifestId), r.manifestId);
      if man.Refused? then Refused(man.reason)
      else if !man.value.ManifestPayload? || man.value.manifest.requestId != id
              || man.value.manifest.canonicalSha != r.contentId then
        Refused("manifest request or object identity mismatch")
      else
        var m := man.value.manifest;
        var obj := VerifiedFile(atObject, ObjectPath(r.contentId), r.contentId);
        if obj.Refused? then Refused(obj.reason)
        else if !obj.value.ObjectPayload? then Refused("object is not canonical JSON")
        else if r.schema != SCHEMA_VERSION || m.schema != SCHEMA_VERSION || obj.value.schema != SCHEMA_VERSION then
          Refused("unsupported cache schema")
        else if ReadFile(atBytes, ObjectPath(r.contentId)) != obj then Refused("object is not canonical JSON")
        else
          var records := obj.value.records;
          var normalized := Canonical(RowsOf(records));
          if normalized.Refused? then Refused(normalized.reason)
          else if !Parses(w, normalized.value) then Refused("bar series")
          else if normalized.value != records || Sessionise(w, request, normalized.value) != normalized.value then
            Refused("object violates canonical sessionised content")
          else if !ManifestSound(w, request, m, |records|) then Refused("manifest metadata is invalid")
          else if m.coverage != w.coverage(request, Times(records)) then
            Refused("manifest coverage does not match object")
          else Ok(Handle(normalized.value, m, r.contentId, r.manifestId))
  }

  /** A load that nothing comes between. */
  function Load(w: World, files: Files, request: Request): Result<Handle> {
    LoadAcross(w, files, files, files, files, request)
  }

  // ---------------------------------------------------------------- publishers at work

  /** How far a publisher is: which file, and whether its temporary is absent, torn or whole. */
  datatype Stage = NoTemp | TornTemp | WholeTemp
  datatype Job = Job(plan: Plan, step: nat, stage: Stage)

  /** The disk, the publishers running, and the plans published so far, oldest first. */
  datatype State = State(files: Files, jobs: map<JobId, Job>, published: seq<Plan>)

  datatype Action =
    | Begin(job: JobId, request: Request, rows: seq<Row>, retrievedAt: Option<int>, codeSha: string)
    | StartWrite(job: JobId)
    | FinishWrite(job: JobId)
    | Rename(job: JobId)
    | Die(job: JobId)

  ghost predicate Enabled(w: World, s: State, a: Action) {
    match a
    case Begin(job, request, rows, at, code) =>
      job !in s.jobs && (forall step :: Temporary(job, step) !in s.files) && Prepare(w, request, rows, at, code).Ok?
    case StartWrite(job) => job in s.jobs && s.jobs[job].step < 3 && s.jobs[job].stage.NoTemp?
    case FinishWrite(job) => job in s.jobs && s.jobs[job].step < 3 && s.jobs[job].stage.TornTemp?
    case Rename(job) => job in s.jobs && s.jobs[job].step < 3 && s.jobs[job].stage.WholeTemp?
    case Die(job) => job in s.jobs
  }

  ghost function Next(w: World, s: State, a: Action): State
    requires Enabled(w, s, a)
  {
    match a
    case Begin(job, request, rows, at, code) =>
      s.(jobs := s.jobs[job := Job(Prepare(w, request, rows, at, code).value, 0, NoTemp)])
    case StartWrite(job) =>
      var j := s.jobs[job];
      s.(files := s.files[Temporary(job, j.step) := Torn(Content(j.plan, j.step))],
         jobs := s.jobs[job := j.(stage := TornTemp)])
    case FinishWrite(job) =>
      var j := s.jobs[job];
      s.(files := s.files[Temporary(job, j.step) := Whole(Content(j.plan, j.step))],
         jobs := s.jobs[job := j.(stage := WholeTemp)])
    case Rename(job) =>
      var j := s.jobs[job];
      var temp := Temporary(job, j.step);
      if temp !in s.files then s
      else
        s.(files := s.files[Target(j.plan, j.step) := s.files[temp]] - {temp},
           jobs := s.jobs[job := j.(step := j.step + 1, stage := NoTemp)],
           published := if j.step == 2 then s.published + [j.plan] else s.published)
    case Die(job) => s.(jobs := s.jobs - {job})
  }

  ghost function After(w: World, schedule: seq<Action>): Option<State> {
    if schedule == [] then Some(State(map[], map[], []))
    else
      var before := After(w, schedule[..|schedule| - 1]);
      var a := schedule[|schedule| - 1];
      if before.Some? && Enabled(w, before.value, a) then Some(Next(w, before.value, a)) else None
  }

  /** The newest published plan for a request. */
  function Newest(published: seq<Plan>, id: Digest): Option<Plan> {
    if published == [] then None
    else if RequestId(published[|published| - 1].request) == id then Some(published[|published| - 1])
    else Newest(published[..|published| - 1], id)
  }

  // ---------------------------------------------------------------- what a plan guarantees

  ghost predicate Genuine(w: World, p: Plan) {
    var h := p.handle;
    && h.contentId == Sha(ObjectPayload(SCHEMA_VERSION, h.records))
    && h.manifestId == Sha(ManifestPayload(h.manifest))
    && h.manifest.schema == SCHEMA_VERSION
    && h.manifest.requestId == RequestId(p.request) && h.manifest.canonicalSha == h.contentId
    && h.manifest.coverage == w.coverage(p.request, Times(h.records))
    && ManifestSound(w, p.request, h.manifest, |h.records|)
    && Parses(w, h.records) && Sessionise(w, p.request, h.records) == h.records
    && Canonical(RowsOf(h.records)) == Ok(h.records)
  }

  /** Sessionising keeps a part of the records, in order, and keeps all of what it kept. */
  lemma {:induction false} SessioniseFilters(w: World, request: Request, rs: seq<Record>)
    ensures var kept := Sessionise(w, request, rs);
            && |kept| <= |rs|
            && (forall r <- kept :: r in rs && w.inSession(request, r.t))
            && (Increasing(rs) ==> Increasing(kept))
  {
    if rs != [] {
      var n := |rs| - 1;
      SessioniseFilters(w, request, rs[..n]);
      var kept := Sessionise(w, request, rs[..n]);
      if Increasing(rs) {
        forall i | 0 <= i < |kept| ensures kept[i].t < rs[n].t {
          assert kept[i] in rs[..n];
        }
      }
    }
  }

  /** Sessionising keeps exactly the records in session, each as often as it is there. */
  lemma {:induction false} SessioniseKeepsExactly(w: World, request: Request, rs: seq<Record>)
    ensures forall r: Record ::
              multiset(Sessionise(w, request, rs))[r] == if w.inSession(request, r.t) then multiset(rs)[r] else 0
  {
    if rs != [] {
      var n := |rs| - 1;
      SessioniseKeepsExactly(w, request, rs[..n]);
      assert rs == rs[..n] + [rs[n]];
    }
  }

  lemma SessionisedParses(w: World, request: Request, rs: seq<Record>)
    requires Parses(w, rs)
    ensures Parses(w, Sessionise(w, request, rs))
  {
    hide Sessionise;
    SessioniseFilters(w, request, rs);
  }

  lemma NothingInSession(w: World, request: Request, rs: seq<Record>)
    ensures Sessionise(w, request, rs) == [] <==> forall r <- rs :: !w.inSession(request, r.t)
  {
    hide Sessionise;
    SessioniseKeepsExactly(w, request, rs);
    var kept := Sessionise(w, request, rs);
    forall r | r in rs && w.inSession(request, r.t) ensures kept != [] {
      assert r in multiset(rs);
      assert r in multiset(kept);
    }
    if kept != [] {
      assert kept[0] in multiset(kept);
      assert kept[0] in rs;
    }
  }

  /** A publish is prepared exactly when its retrieval time and revision are sound, its rows have
      whole times, make a sound series, and are not all out of session. It then publishes
      exactly the canonical records in session, and its manifest states how many rows were
      given, kept and left out, and where, when and by which revision they came. */
  lemma PreparedExactlyWhen(w: World, request: Request, rows: seq<Row>, retrievedAt: Option<int>, codeSha: string)
    ensures var r := Prepare(w, request, rows, retrievedAt, codeSha);
            && (r.Ok? <==>
                  && retrievedAt.Some? && w.revision(codeSha)
                  && Canonical(rows).Ok? && Parses(w, Canonical(rows).value)
                  && exists x <- Canonical(rows).value :: w.inSession(request, x.t))
            && (r.Ok? ==>
                  var h := r.value.handle;
                  && r.value.request == request
                  && (forall x: Record ::
                        multiset(h.records)[x]
                        == if w.inSession(request, x.t) then multiset(Canonical(rows).value)[x] else 0)
                  && Increasing(h.records)
                  && h.contentId == Sha(ObjectPayload(1, h.records)) && h.manifestId == Sha(ManifestPayload(h.manifest))
                  && h.manifest == Manifest(1, RequestId(request), w.provenance(request), h.contentId,
                                            w.coverage(request, Times(h.records)), "XNYS_regular_sessions_only",
                                            |rows|, |h.records|, |rows| - |h.records|, retrievedAt.value, codeSha))
  {
    hide Canonical, Sessionise, Times, Increasing, Prepare, Parses;
    PreparedWhen(w, request, rows, retrievedAt, codeSha);
    if Prepare(w, request, rows, retrievedAt, codeSha).Ok? {
      PreparedStates(w, request, rows, retrievedAt, codeSha);
      SessioniseKeepsExactly(w, request, Canonical(rows).value);
      ParsesInOrder(w, Sessionise(w, request, Canonical(rows).value));
    }
  }

  lemma ParsesInOrder(w: World, rs: seq<Record>)
    requires Parses(w, rs)
    ensures Increasing(rs)
  {}

  lemma PreparedWhen(w: World, request: Request, rows: seq<Row>, retrievedAt: Option<int>, codeSha: string)
    ensures Prepare(w, request, rows, retrievedAt, codeSha).Ok? <==>
              && retrievedAt.Some? && w.revision(codeSha)
              && Canonical(rows).Ok? && Parses(w, Canonical(rows).value)
              && exists x <- Canonical(rows).value :: w.inSession(request, x.t)
  {
    hide Canonical, Sessionise, Times, Increasing, Parses;
    if Canonical(rows).Ok? && Parses(w, Canonical(rows).value) {
      SessionisedParses(w, request, Canonical(rows).value);
      NothingInSession(w, request, Canonical(rows).value);
    }
  }

  lemma PreparedStates(w: World, request: Request, rows: seq<Row>, retrievedAt: Option<int>, codeSha: string)
    requires Prepare(w, request, rows, retrievedAt, codeSha).Ok?
    ensures retrievedAt.Some? && Canonical(rows).Ok?
    ensures var p := Prepare(w, request, rows, retrievedAt, codeSha).value;
            && p.request == request && p.handle.records == Sessionise(w, request, Canonical(rows).value)
            && Parses(w, p.handle.records)
            && p.handle.contentId == Sha(ObjectPayload(1, p.handle.records))
            && p.handle.manifestId == Sha(ManifestPayload(p.handle.manifest))
            && p.handle.manifest
               == Manifest(1, RequestId(request), w.provenance(request), p.handle.contentId,
                           w.coverage(request, Times(p.handle.records)), "XNYS_regular_sessions_only",
                           |rows|, |p.handle.records|, |rows| - |p.handle.records|, retrievedAt.value, codeSha)
  {
    hide Canonical, Sessionise, Times, Increasing, Parses;
    CanonicalCount(rows);
  }

  lemma CanonicalCount(rows: seq<Row>)
    ensures Canonical(rows).Ok? ==> |Canonical(rows).value| == |rows|
  {
    hide Canonical;
    CanonicalIsTheRows(rows);
  }

  /** The disks a load reads one after another hold a sound dataset for a request: the reference names a manifest and an object
      that are whole, match their identities, and agree on request and schema; the records are
      canonical, sound and all in session; the manifest's counts, provenance, revision and
      coverage are those of the records. */
  ghost predicate Intact(
    w: World, atReference: Files, atManifest: Files, atObject: Files, atBytes: Files, request: Request, h: Handle
  ) {
    var id := RequestId(request);
    var reference, manifest, records := RequestPath(id), ManifestPath(h.manifestId), ObjectPath(h.contentId);
    && reference in atReference
    && atReference[reference] == Whole(ReferencePayload(Reference(1, id, h.manifestId, h.contentId)))
    && manifest in atManifest && atManifest[manifest] == Whole(ManifestPayload(h.manifest))
    && records in atObject && atObject[records] == Whole(ObjectPayload(1, h.records))
    && records in atBytes && atBytes[records] == Whole(ObjectPayload(1, h.records))
    && h.manifestId == Sha(ManifestPayload(h.manifest)) && h.contentId == Sha(ObjectPayload(1, h.records))
    && h.manifest.schema == 1 && h.manifest.requestId == id && h.manifest.canonicalSha == h.contentId
    && Canonical(RowsOf(h.records)) == Ok(h.records) && Parses(w, h.records)
    && Sessionise(w, request, h.records) == h.records
    && h.manifest.policy == "XNYS_regular_sessions_only" && h.manifest.sourceCount >= |h.records|
    && h.manifest.publishedCount == |h.records| && h.manifest.excludedCount == h.manifest.sourceCount - |h.records|
    && w.revision(h.manifest.codeSha) && h.manifest.provenance == w.provenance(request)
    && h.manifest.coverage == w.coverage(request, Times(h.records))
  }

  /** A load accepts the disks it reads exactly when they hold a sound dataset for the request,
      and then returns just that: whatever was done to the files before or between its reads,
      nothing unsound is ever loaded. */
  lemma LoadsExactlyWhenIntact(
    w: World, atReference: Files, atManifest: Files, atObject: Files, atBytes: Files, request: Request, h: Handle)
    ensures LoadAcross(w, atReference, atManifest, atObject, atBytes, request) == Ok(h) <==>
              Intact(w, atReference, atManifest, atObject, atBytes, request, h)
    ensures Load(w, atReference, request) == Ok(h) <==>
              Intact(w, atReference, atReference, atReference, atReference, request, h)
  {
    hide Canonical, Sessionise, Parses, Times, RowsOf;
  }

  lemma {:induction false} SessioniseKeepsAll(w: World, request: Request, rs: seq<Record>)
    requires forall r <- rs :: w.inSession(request, r.t)
    ensures Sessionise(w, request, rs) == rs
  {
    if rs != [] {
      SessioniseKeepsAll(w, request, rs[..|rs| - 1]);
      assert rs == rs[..|rs| - 1] + [rs[|rs| - 1]];
    }
  }

  lemma {:induction false} RecordsAreCanonical(rows: seq<Row>)
    requires RecordsOf(rows).Some?
    ensures forall r <- RecordsOf(rows).value :: CanonicalRecord(r)
  {
    if rows != [] {
      var row := rows[|rows| - 1];
      RecordsAreCanonical(rows[..|rows| - 1]);
      NormalizeIsNormal(row.o);
      NormalizeIsNormal(row.h);
      NormalizeIsNormal(row.l);
      NormalizeIsNormal(row.c);
      NormalizeIsNormal(row.v);
    }
  }

  lemma CanonicalIsCanonical(rows: seq<Row>)
    requires Canonical(rows).Ok?
    ensures forall r <- Canonical(rows).value :: CanonicalRecord(r)
  {
    var rs := RecordsOf(rows).value;
    RecordsAreCanonical(rows);
    SortedSorts(rs);
    forall r | r in Sorted(rs) ensures CanonicalRecord(r) {
      assert r in multiset(Sorted(rs));
      assert r in rs;
    }
  }

  /** What publish prepares is already in the form that load checks for. */
  lemma PreparedIsGenuine(w: World, request: Request, rows: seq<Row>, retrievedAt: Option<int>, codeSha: string)
    requires Prepare(w, request, rows, retrievedAt, codeSha).Ok?
    ensures Genuine(w, Prepare(w, request, rows, retrievedAt, codeSha).value)
    ensures Prepare(w, request, rows, retrievedAt, codeSha).value.request == request
  {
    hide Canonical, Sessionise, RowsOf, Times, Increasing, CanonicalRecord;
    var canonical := Canonical(rows).value;
    var records := Sessionise(w, request, canonical);
    CanonicalIsCanonical(rows);
    SessioniseFilters(w, request, canonical);
    SessioniseKeepsAll(w, request, records);
    CanonicalIsIdempotent(records);
  }

  // ---------------------------------------------------------------- every reachable disk

  ghost predicate Stored(files: Files, p: Plan, step: nat)
    requires step < 3
  {
    Target(p, step) in files && files[Target(p, step)] == Whole(Content(p, step))
  }

  ghost predicate JobOk(w: World, s: State, job: JobId)
    requires job in s.jobs
  {
    var j := s.jobs[job];
    && Genuine(w, j.plan) && j.step <= 3
    && (j.step >= 1 ==> Stored(s.files, j.plan, 0))
    && (j.step >= 2 ==> Stored(s.files, j.plan, 1))
    && (j.step < 3 && j.stage.WholeTemp? ==>
          Temporary(job, j.step) in s.files && s.files[Temporary(job, j.step)] == Whole(Content(j.plan, j.step)))
  }

  /** A reference on disk is that of the newest publish of its request, whose manifest and
      object are on disk too; a request never published has none. */
  ghost predicate ReferenceOk(w: World, s: State, id: Digest) {
    var newest := Newest(s.published, id);
    && (newest.None? <==> RequestPath(id) !in s.files)
    && (newest.Some? ==>
          && Genuine(w, newest.value) && RequestId(newest.value.request) == id
          && Stored(s.files, newest.value, 0) && Stored(s.files, newest.value, 1) && Stored(s.files, newest.value, 2))
  }

  /** A file named by content holds that content. */
  ghost predicate NamedByContent(files: Files) {
    forall id: Digest ::
      && (ObjectPath(id) in files ==> files[ObjectPath(id)] == Whole(id.of))
      && (ManifestPath(id) in files ==> files[ManifestPath(id)] == Whole(id.of))
  }

  ghost predicate Invariant(w: World, s: State) {
    && (forall job <- s.jobs :: JobOk(w, s, job))
    && (forall id: Digest :: ReferenceOk(w, s, id))
    && NamedByContent(s.files)
  }

  lemma StepKeepsFiles(w: World, s: State, a: Action, p: Plan, step: nat)
    requires Invariant(w, s) && Enabled(w, s, a) && Genuine(w, p) && step < 2
    requires Stored(s.files, p, step)
    ensures Stored(Next(w, s, a).files, p, step)
  {
    hide Genuine, ReferenceOk, Prepare;
    if a.Rename? {
      assert JobOk(w, s, a.job);
      GenuineIds(w, s.jobs[a.job].plan);
      GenuineIds(w, p);
    }
  }

  lemma GenuineIds(w: World, p: Plan)
    requires Genuine(w, p)
    ensures p.handle.contentId == Sha(Content(p, 0)) && p.handle.manifestId == Sha(Content(p, 1))
  {}

  lemma JobsStayOk(w: World, s: State, a: Action, job: JobId)
    requires Invariant(w, s) && Enabled(w, s, a) && job in Next(w, s, a).jobs
    ensures JobOk(w, Next(w, s, a), job)
  {
    hide Genuine, ReferenceOk, Prepare, NamedByContent, Content;
    if job in s.jobs {
      assert JobOk(w, s, job);
      var j := s.jobs[job];
      if j.step >= 1 {
        StepKeepsFiles(w, s, a, j.plan, 0);
      }
      if j.step >= 2 {
        StepKeepsFiles(w, s, a, j.plan, 1);
      }
    }
    if a.Begin? && a.job == job {
      PreparedIsGenuine(w, a.request, a.rows, a.retrievedAt, a.codeSha);
    }
  }

  lemma ReferencesStayOk(w: World, s: State, a: Action, id: Digest)
    requires Invariant(w, s) && Enabled(w, s, a)
    ensures ReferenceOk(w, Next(w, s, a), id)
  {
    hide Genuine, Prepare, NamedByContent;
    assert ReferenceOk(w, s, id);
    var s' := Next(w, s, a);
    var newest := Newest(s.published, id);
    if newest.Some? {
      StepKeepsFiles(w, s, a, newest.value, 0);
      StepKeepsFiles(w, s, a, newest.value, 1);
    }
    if a.Rename? {
      var j := s.jobs[a.job];
      assert JobOk(w, s, a.job);
      if j.step == 2 {
        assert s'.published[..|s.published|] == s.published;
        StepKeepsFiles(w, s, a, j.plan, 0);
        StepKeepsFiles(w, s, a, j.plan, 1);
      }
    }
  }

  lemma StepKeepsInvariant(w: World, s: State, a: Action)
    requires Invariant(w, s) && Enabled(w, s, a)
    ensures Invariant(w, Next(w, s, a))
  {
    hide Genuine, Prepare, ReferenceOk;
    var s' := Next(w, s, a);
    forall job | job in s'.jobs ensures JobOk(w, s', job) {
      JobsStayOk(w, s, a, job);
    }
    forall id: Digest ensures ReferenceOk(w, s', id) {
      ReferencesStayOk(w, s, a, id);
    }
    if a.Rename? {
      assert JobOk(w, s, a.job);
      GenuineIds(w, s.jobs[a.job].plan);
    }
  }

  lemma {:induction false} ScheduleKeepsInvariant(w: World, schedule: seq<Action>)
    requires After(w, schedule).Some?
    ensures Invariant(w, After(w, schedule).value)
  {
    hide Genuine;
    if schedule != [] {
      ScheduleKeepsInvariant(w, schedule[..|schedule| - 1]);
      StepKeepsInvariant(w, After(w, schedule[..|schedule| - 1]).value, schedule[|schedule| - 1]);
    }
  }

  // ---------------------------------------------------------------- main results

  lemma GenuineLoadsAcross(w: World, atReference: Files, atManifest: Files, atObject: Files, atBytes: Files, p: Plan)
    requires Genuine(w, p) && Stored(atReference, p, 2) && Stored(atManifest, p, 1)
    requires Stored(atObject, p, 0) && Stored(atBytes, p, 0)
    ensures LoadAcross(w, atReference, atManifest, atObject, atBytes, p.request) == Ok(p.handle)
  {
    hide Canonical, Sessionise, Parses, ManifestSound;
  }

  lemma GenuineLoads(w: World, files: Files, p: Plan)
    requires Genuine(w, p) && Stored(files, p, 0) && Stored(files, p, 1) && Stored(files, p, 2)
    ensures Load(w, files, p.request) == Ok(p.handle)
  {
    hide Genuine, LoadAcross;
    GenuineLoadsAcross(w, files, files, files, files, p);
  }

  /** A manifest or object once stored stays, whatever is published or dies afterwards. */
  lemma {:induction false} StaysStored(w: World, schedule: seq<Action>, i: nat, j: nat, p: Plan, step: nat)
    requires i <= j <= |schedule| && step < 2 && Genuine(w, p)
    requires After(w, schedule[..i]).Some? && After(w, schedule[..j]).Some?
    requires Stored(After(w, schedule[..i]).value.files, p, step)
    ensures Stored(After(w, schedule[..j]).value.files, p, step)
  {
    hide Genuine, Stored, Enabled, Next;
    if i < j {
      assert schedule[..j][..j - 1] == schedule[..j - 1];
      StaysStored(w, schedule, i, j - 1, p, step);
      ScheduleKeepsInvariant(w, schedule[..j - 1]);
      StepKeepsFiles(w, After(w, schedule[..j - 1]).value, schedule[j - 1], p, step);
    }
  }

  lemma {:induction false} SoFar(w: World, schedule: seq<Action>, i: nat)
    requires i <= |schedule| && After(w, schedule).Some?
    ensures After(w, schedule[..i]).Some?
    decreases |schedule|
  {
    hide Enabled, Next;
    if i == |schedule| {
      assert schedule[..i] == schedule;
    } else {
      var n := |schedule| - 1;
      SoFar(w, schedule[..n], i);
      assert schedule[..n][..i] == schedule[..i];
    }
  }

  /** Publishers may go on, or die, between the reads of a load: it returns exactly the records
      and manifest of the publish that was the newest when its reference was read, and fails
      only when there was none. */
  lemma LoadAmongPublishers(w: World, schedule: seq<Action>, i: nat, j: nat, k: nat, l: nat, request: Request)
    requires i <= j <= k <= l <= |schedule| && After(w, schedule).Some?
    ensures After(w, schedule[..i]).Some? && After(w, schedule[..j]).Some?
    ensures After(w, schedule[..k]).Some? && After(w, schedule[..l]).Some?
    ensures var newest := Newest(After(w, schedule[..i]).value.published, RequestId(request));
            var r := LoadAcross(w, After(w, schedule[..i]).value.files, After(w, schedule[..j]).value.files,
                                After(w, schedule[..k]).value.files, After(w, schedule[..l]).value.files, request);
            && (newest.None? ==> r == Refused("no such file"))
            && (newest.Some? ==> newest.value.request == request && r == Ok(newest.value.handle))
  {
    SoFar(w, schedule, i);
    SoFar(w, schedule, j);
    SoFar(w, schedule, k);
    SoFar(w, schedule, l);
    hide Genuine, NamedByContent, After, Stored;
    ScheduleKeepsInvariant(w, schedule[..i]);
    var s := After(w, schedule[..i]).value;
    assert ReferenceOk(w, s, RequestId(request));
    var newest := Newest(s.published, RequestId(request));
    if newest.Some? {
      hide LoadAcross;
      StaysStored(w, schedule, i, j, newest.value, 1);
      StaysStored(w, schedule, i, k, newest.value, 0);
      StaysStored(w, schedule, i, l, newest.value, 0);
      GenuineLoadsAcross(w, s.files, After(w, schedule[..j]).value.files, After(w, schedule[..k]).value.files,
                         After(w, schedule[..l]).value.files, newest.value);
    }
  }

  /** Whatever publishers did, and wherever they died: loading a request gives exactly the
      records and manifest of its newest completed publish, and fails only when none has
      completed. */
  lemma LoadReturnsNewestPublish(w: World, schedule: seq<Action>, request: Request)
    requires After(w, schedule).Some?
    ensures var s := After(w, schedule).value;
            var newest := Newest(s.published, RequestId(request));
            && (newest.None? ==> Load(w, s.files, request) == Refused("no such file"))
            && (newest.Some? ==> newest.value.request == request && Load(w, s.files, request) == Ok(newest.value.handle))
  {
    hide Genuine, NamedByContent;
    ScheduleKeepsInvariant(w, schedule);
    var s := After(w, schedule).value;
    assert ReferenceOk(w, s, RequestId(request));
    var newest := Newest(s.published, RequestId(request));
    if newest.Some? {
      GenuineLoads(w, s.files, newest.value);
    }
  }

  function Left(j: Job): int {
    9 - 3 * j.step - (match j.stage case NoTemp => 0 case TornTemp => 1 case WholeTemp => 2)
  }

  /** The next write of a publisher. */
  function OwnStep(job: JobId, stage: Stage): Action {
    match stage case NoTemp => StartWrite(job) case TornTemp => FinishWrite(job) case WholeTemp => Rename(job)
  }

  /** Nothing others do or leave behind stands in a publisher's way: from every reachable
      state it can complete by its own steps, and its records are then what loads. */
  lemma PublisherCanComplete(w: World, schedule: seq<Action>, job: JobId) returns (more: seq<Action>)
    requires After(w, schedule).Some?
    requires job in After(w, schedule).value.jobs && After(w, schedule).value.jobs[job].step < 3
    ensures |more| == Left(After(w, schedule).value.jobs[job])
    ensures forall a <- more :: a in {StartWrite(job), FinishWrite(job), Rename(job)}
    ensures After(w, schedule + more).Some?
    ensures var plan := After(w, schedule).value.jobs[job].plan;
            && After(w, schedule + more).value.published == After(w, schedule).value.published + [plan]
            && Load(w, After(w, schedule + more).value.files, plan.request) == Ok(plan.handle)
    decreases Left(After(w, schedule).value.jobs[job])
  {
    hide Genuine, NamedByContent, Load, ReferenceOk, Prepare;
    ScheduleKeepsInvariant(w, schedule);
    var s := After(w, schedule).value;
    var j := s.jobs[job];
    assert JobOk(w, s, job);
    var a := OwnStep(job, j.stage);
    var next := schedule + [a];
    assert next[..|next| - 1] == schedule;
    assert After(w, next) == Some(Next(w, s, a));
    if a.Rename? && j.step == 2 {
      more := [a];
      ScheduleKeepsInvariant(w, next);
      PublishedLoads(w, Next(w, s, a), j.plan);
    } else {
      var rest := PublisherCanComplete(w, next, job);
      more := [a] + rest;
      assert next + rest == schedule + more;
    }
  }

  lemma PublishedLoads(w: World, s: State, p: Plan)
    requires Invariant(w, s) && s.published != [] && s.published[|s.published| - 1] == p
    ensures Load(w, s.files, p.request) == Ok(p.handle)
  {
    hide Genuine, NamedByContent, Load;
    assert ReferenceOk(w, s, RequestId(p.request));
    GenuineLoads(w, s.files, p);
  }

  /** An object file is written once and for all: rows that state the same numbers, spelled
      and ordered otherwise, are published under the same content identity. */
  lemma SameNumbersSameObject(w: World, request: Request, a: seq<Row>, b: seq<Row>, spelled: seq<Row>, at: Option<int>, code: string)
    requires |a| == |spelled| && forall i :: 0 <= i < |a| ==> SameNumbers(a[i], spelled[i])
    requires multiset(b) == multiset(spelled)
    requires Prepare(w, request, a, at, code).Ok?
    ensures Prepare(w, request, b, at, code) == Prepare(w, request, a, at, code)
  {
    hide Canonical, Sessionise;
    CanonicalIgnoresSpellingAndOrder(a, b, spelled);
  }

  // ---------------------------------------------------------------- as one publisher runs

  class Cache {
    var files: Files

    /** Written under another name, then renamed over the target. */
    method AtomicWrite(temporary: Path, path: Path, payload: Payload)
      requires temporary.Temporary? && !path.Temporary?
      modifies this
      ensures files == old(files)[path := Whole(payload)] - {temporary}
    {
      files := files[temporary := Torn(payload)];
      files := files[temporary := Whole(payload)];
      files := files[path := files[temporary]] - {temporary};
    }

    /** An uninterrupted publish; what it hands back is what a load then finds. */
    method Publish(w: World, job: JobId, request: Request, rows: seq<Row>, retrievedAt: Option<int>, codeSha: string)
      returns (r: Result<Handle>)
      modifies this
      ensures r.Ok? <==> Prepare(w, request, rows, retrievedAt, codeSha).Ok?
      ensures r.Ok? ==> r.value == Prepare(w, request, rows, retrievedAt, codeSha).value.handle
                        && Load(w, files, request) == r
      ensures r.Refused? ==> files == old(files)
    {
      hide Prepare, Genuine;
      var prepared := Prepare(w, request, rows, retrievedAt, codeSha);
      if prepared.Refused? {
        return Refused(prepared.reason);
      }
      PreparedIsGenuine(w, request, rows, retrievedAt, codeSha);
      var p := prepared.value;
      GenuineIds(w, p);
      AtomicWrite(Temporary(job, 0), Target(p, 0), Content(p, 0));
      AtomicWrite(Temporary(job, 1), Target(p, 1), Content(p, 1));
      AtomicWrite(Temporary(job, 2), Target(p, 2), Content(p, 2));
      GenuineLoads(w, files, p);
      r := Ok(p.handle);
    }
  }
}
