/** What the dashboard publish loop guarantees about the public directory, for one run and for any sequence of runs. */
module PublishSafety {
  import opened Wrappers
  import opened PublishLoop

  // ---------------------------------------------------------------- when a run publishes

  predicate Allowed(codec: Codec, sources: map<Name, Dir>, d: Disk, in_: Input) {
    RunOnce(codec, sources, d, in_).0 == Completed(Allow)
  }

  /** A run publishes exactly when it opens, its snapshot is fresh, no required source is missing or dropped,
      the manifest was not corrupted and the error budget is not spent. */
  lemma AllowedIff(codec: Codec, sources: map<Name, Dir>, d: Disk, in_: Input)
    requires SourceTable(sources)
    ensures Allowed(codec, sources, d, in_) <==>
            && Open(codec, d.repo, in_).Some?
            && !Open(codec, d.repo, in_).value.freshness.stale
            && (forall n :: n in sources ==> Path(sources[n], n) in d.repo)
            && !(in_.inject.DropRequiredArtifact? && HARD_GATE in sources)
            && !in_.inject.MalformedManifest?
            && (BUDGET_PATH in d.repo ==> codec.budgetFrozen(d.repo[BUDGET_PATH]) == Some(false))
  {
    if Open(codec, d.repo, in_).Some? {
      var o := Open(codec, d.repo, in_).value;
      var filled := Filled(codec, sources, d, in_, o);
      assert BudgetStatus(codec, filled.repo) == BudgetStatus(codec, d.repo);
      MissingIff(sources, d.repo, in_.inject);
      if BudgetStatus(codec, d.repo).Some? {
        var frozen := BudgetStatus(codec, d.repo).value;
        NoReasonIff(o.freshness.stale, Missing(sources, d.repo, in_.inject) != {}, in_.inject, frozen);
      }
    }
  }

  lemma NoReasonIff(stale: bool, missing: bool, inject: Injection, frozen: bool)
    ensures Reasons(stale, missing, inject, frozen) == {} <==>
        !stale && !missing && !inject.MalformedManifest? && !frozen
  {
    var r := Reasons(stale, missing, inject, frozen);
    assert stale ==> StaleSnapshot in r;
    assert missing ==> MissingRequired in r;
    assert inject.MalformedManifest? ==> ManifestIncoherent in r;
    assert frozen ==> BudgetExhausted in r;
  }

  lemma MissingIff(sources: map<Name, Dir>, repo: map<Path, Content>, inject: Injection)
    ensures Missing(sources, repo, inject) == {} <==>
            && (forall n :: n in sources ==> Path(sources[n], n) in repo)
            && !(inject.DropRequiredArtifact? && HARD_GATE in sources)
  {
    var m := Missing(sources, repo, inject);
    if Drops(inject, Copied(sources, repo)) { assert HARD_GATE in m; }
    if m == {} {
      forall n | n in sources ensures Path(sources[n], n) in repo {
        assert n !in Absent(sources, repo) by { assert n !in m; }
      }
    }
  }

  // ---------------------------------------------------------------------- coherence

  /** A publication whose files are those its manifest lists, all of one run, with the hashes its manifest and audit
      record. */
  ghost predicate Coherent(codec: Codec, files: map<Name, Content>) {
    && MANIFEST in files && files[MANIFEST].Manifest?
    && SYNC_AUDIT in files && files[SYNC_AUDIT].SyncAudit?
    && ATTEMPT_RECORD in files && files[ATTEMPT_RECORD].AttemptRecord?
    && REFRESH_RECORD in files && files[REFRESH_RECORD].RefreshRecord?
    && META in files && files[META].SnapshotMeta?
    && FRESHNESS in files && files[FRESHNESS].FreshnessStatus?
    && var m, a := files[MANIFEST], files[SYNC_AUDIT];
    && m.state == "live" && m.files == m.fileRecords.Keys && m.completeness == codec.digest(m.fileRecords)
    && GENERATED <= m.files
    && (forall n :: n in m.files ==> n in files)
    && (forall n :: n in m.files && n != MANIFEST ==> m.fileRecords[n] == codec.hash(files[n]))
    && a.records.Keys == m.files - {MANIFEST, SYNC_AUDIT, ATTEMPT_RECORD, REFRESH_RECORD}
    && (forall n :: n in a.records ==> a.records[n] == codec.hash(files[n]))
    && files[ATTEMPT_RECORD].decision.Allow? && files[ATTEMPT_RECORD].missing == {} && files[REFRESH_RECORD].success
    && m.runId == a.runId == files[ATTEMPT_RECORD].runId == files[REFRESH_RECORD].runId == files[META].runId
       == files[FRESHNESS].runId
  }

  /** The files an allowed run publishes. */
  function Published(codec: Codec, sources: map<Name, Dir>, d: Disk, in_: Input): map<Name, Content>
    requires Allowed(codec, sources, d, in_)
  {
    var o := Open(codec, d.repo, in_).value;
    var filled := Filled(codec, sources, d, in_, o);
    var frozen := BudgetStatus(codec, filled.repo).value;
    Complete(codec, sources, in_, o, filled.stage, Missing(sources, d.repo, in_.inject), Copied(sources, d.repo).Keys,
      filled.repo, frozen).staged
  }

  lemma StagedSourcesComplete(sources: map<Name, Dir>, repo: map<Path, Content>, inject: Injection)
    requires Missing(sources, repo, inject) == {}
    ensures StagedSources(sources, repo, inject).Keys == sources.Keys
    ensures forall n :: n in sources ==>
        Path(sources[n], n) in repo && StagedSources(sources, repo, inject)[n] == repo[Path(sources[n], n)]
  {
    MissingIff(sources, repo, inject);
    assert Copied(sources, repo).Keys == sources.Keys;
  }

  /** The stage up to the sync audit, over the staged sources named `keys`. */
  ghost predicate AuditOver(codec: Codec, keys: set<Name>, id: string, s: map<Name, Content>) {
    && s.Keys == keys + {META, FRESHNESS, SYNC_AUDIT}
    && s[META].SnapshotMeta? && s[FRESHNESS].FreshnessStatus? && s[SYNC_AUDIT].SyncAudit?
    && s[META].runId == s[FRESHNESS].runId == s[SYNC_AUDIT].runId == id
    && s[SYNC_AUDIT].records.Keys == keys + {META, FRESHNESS}
    && forall n :: n in s[SYNC_AUDIT].records ==> s[SYNC_AUDIT].records[n] == codec.hash(s[n])
  }

  lemma AuditCovers(codec: Codec, o: Opening, id: string, size: nat, required: nat, sources: map<Name, Content>)
    requires META !in sources && FRESHNESS !in sources && SYNC_AUDIT !in sources
    requires forall n :: n in sources ==> IsJson(n)
    ensures var s := WithAudit(codec, o, id, size, required, sources);
            AuditOver(codec, sources.Keys, id, s) && forall n :: n in sources ==> s[n] == sources[n]
  {
  }

  /** The whole stage: `s` with the two records and the manifest, on top of the audited files. */
  ghost predicate ManifestOver(
      codec: Codec, audited: map<Name, Content>, attempt: Content, refresh: Content, s: map<Name, Content>) {
    && s.Keys == audited.Keys + {ATTEMPT_RECORD, REFRESH_RECORD, MANIFEST}
    && (forall n :: n in audited ==> s[n] == audited[n])
    && s[ATTEMPT_RECORD] == attempt && s[REFRESH_RECORD] == refresh
    && s[MANIFEST].Manifest? && s[MANIFEST].files == s.Keys == s[MANIFEST].fileRecords.Keys
    && s[MANIFEST].completeness == codec.digest(s[MANIFEST].fileRecords)
    && forall n :: n in s && n != MANIFEST ==> s[MANIFEST].fileRecords[n] == codec.hash(s[n])
  }

  lemma HashesCover(codec: Codec, names: set<Name>, staged: map<Name, Content>)
    ensures HashesOf(codec, names, staged).Keys == names * staged.Keys
  {
  }

  ghost predicate LacksRecords(audited: map<Name, Content>) {
    ATTEMPT_RECORD !in audited && REFRESH_RECORD !in audited && MANIFEST !in audited
  }

  lemma ManifestCovers(
      codec: Codec, sources: map<Name, Dir>, in_: Input, o: Opening, audited: map<Name, Content>, attempt: Content,
      refresh: Content)
    requires LacksRecords(audited)
    requires audited.Keys + {ATTEMPT_RECORD, REFRESH_RECORD, MANIFEST} == RequiredFiles(sources)
    ensures ManifestOver(codec, audited, attempt, refresh,
        WithManifest(codec, sources, in_, o, audited, attempt, refresh))
  {
    var first := WithFirstManifest(codec, sources, in_, o, audited, attempt, refresh);
    assert first.Keys == audited.Keys + {ATTEMPT_RECORD, REFRESH_RECORD, MANIFEST};
    HashesCover(codec, RequiredFiles(sources), first);
  }

  lemma RequiredFilesSplit(sources: map<Name, Dir>)
    ensures (sources.Keys + {META, FRESHNESS, SYNC_AUDIT})
        + {ATTEMPT_RECORD, REFRESH_RECORD, MANIFEST} == RequiredFiles(sources)
  {
  }

  lemma CoherentStage(
      codec: Codec, keys: set<Name>, id: string, audited: map<Name, Content>, attempt: Content, refresh: Content,
      p: map<Name, Content>)
    requires AuditOver(codec, keys, id, audited) && LacksRecords(audited) && SYNC_AUDIT !in keys
    requires ManifestOver(codec, audited, attempt, refresh, p)
    requires p[MANIFEST].state == "live" && p[MANIFEST].runId == id
    requires AllowRecords(attempt, refresh, id)
    ensures Coherent(codec, p)
  {
    assert p[SYNC_AUDIT] == audited[SYNC_AUDIT] && p[META] == audited[META] && p[FRESHNESS] == audited[FRESHNESS];
    assert p.Keys - {MANIFEST, SYNC_AUDIT, ATTEMPT_RECORD, REFRESH_RECORD} == keys + {META, FRESHNESS};
    assert GENERATED <= p.Keys;
  }

  predicate AllowRecords(attempt: Content, refresh: Content, id: string) {
    && attempt.AttemptRecord? && attempt.decision.Allow? && attempt.missing == {} && attempt.runId == id
    && refresh.RefreshRecord? && refresh.success && refresh.runId == id
  }

  /** A completed run that allows has nothing missing, and records so. */
  lemma CompleteAllows(codec: Codec, sources: map<Name, Dir>, in_: Input, o: Opening, audited: map<Name, Content>,
                       missing: set<Name>, copied: set<Name>, repo: map<Path, Content>, frozen: bool)
    returns (attempt: Content, refresh: Content)
    requires Complete(codec, sources, in_, o, audited, missing, copied, repo, frozen).decision.Allow?
    ensures missing == {} && !o.freshness.stale && !in_.inject.MalformedManifest?
    ensures AllowRecords(attempt, refresh, codec.runId(in_.started))
    ensures Complete(codec, sources, in_, o, audited, missing, copied, repo, frozen).staged
         == WithManifest(codec, sources, in_, o, audited, attempt, refresh)
  {
    NoReasonIff(o.freshness.stale, missing != {}, in_.inject, frozen);
    var reasons := Reasons(o.freshness.stale, missing != {}, in_.inject, frozen);
    attempt := AttemptOf(|RequiredFiles(sources)|, in_, o, codec.runId(in_.started), missing,
                         |HashesOf(codec, RequiredFiles(sources), audited)|, reasons, Allow);
    refresh := RefreshOf(copied, in_, o, codec.runId(in_.started), Allow);
  }

  lemma TableAvoidsGenerated(sources: map<Name, Dir>)
    requires SourceTable(sources)
    ensures META !in sources && FRESHNESS !in sources && SYNC_AUDIT !in sources && LacksKeys(sources.Keys)
  {
  }

  ghost predicate LacksKeys(keys: set<Name>) {
    ATTEMPT_RECORD !in keys && REFRESH_RECORD !in keys && MANIFEST !in keys
  }

  lemma AuditLacksRecords(codec: Codec, keys: set<Name>, id: string, s: map<Name, Content>)
    requires AuditOver(codec, keys, id, s) && LacksKeys(keys)
    ensures LacksRecords(s)
  {
    assert forall n :: n in s ==> n in keys || n == META || n == FRESHNESS || n == SYNC_AUDIT;
  }

  lemma AuditedCovers(codec: Codec, sources: map<Name, Dir>, repo: map<Path, Content>, in_: Input, o: Opening)
    requires SourceTable(sources) && SNAPSHOT_PATH in repo
    requires Missing(sources, repo, in_.inject) == {}
    ensures var s := Audited(codec, sources, repo, in_, o);
            && AuditOver(codec, sources.Keys, codec.runId(in_.started), s) && LacksRecords(s) && SYNC_AUDIT !in sources
            && forall n :: n in sources ==> Path(sources[n], n) in repo && s[n] == repo[Path(sources[n], n)]
  {
    StagedSourcesComplete(sources, repo, in_.inject);
    TableAvoidsGenerated(sources);
    var staged := StagedSources(sources, repo, in_.inject);
    assert forall n :: n in staged ==> n in sources;
    AuditCovers(codec, o, codec.runId(in_.started), codec.size(repo[SNAPSHOT_PATH]), |RequiredFiles(sources)|, staged);
    AuditLacksRecords(codec, sources.Keys, codec.runId(in_.started), Audited(codec, sources, repo, in_, o));
  }

  /** How the published files of an allowed run are built. */
  lemma PublishedShape(
      codec: Codec, sources: map<Name, Dir>, d: Disk, in_: Input) returns (attempt: Content, refresh: Content)
    requires SourceTable(sources) && Allowed(codec, sources, d, in_)
    ensures Missing(sources, d.repo, in_.inject) == {} && !in_.inject.MalformedManifest?
    ensures Open(codec, d.repo, in_).Some? && !Open(codec, d.repo, in_).value.freshness.stale
    ensures AllowRecords(attempt, refresh, codec.runId(in_.started))
    ensures var o := Open(codec, d.repo, in_).value;
            Published(codec, sources, d, in_)
              == WithManifest(codec, sources, in_, o, Audited(codec, sources, d.repo, in_, o), attempt, refresh)
  {
    var o := Open(codec, d.repo, in_).value;
    var filled := Filled(codec, sources, d, in_, o);
    attempt, refresh := CompleteAllows(codec, sources, in_, o, filled.stage, Missing(sources, d.repo, in_.inject),
                                       Copied(sources, d.repo).Keys, filled.repo,
                                         BudgetStatus(codec, filled.repo).value);
  }

  /** An allowed run publishes every required file and nothing else, coherently, with the sources as they stand in the
      repository. */
  lemma AllowedRunIsCoherent(codec: Codec, sources: map<Name, Dir>, d: Disk, in_: Input)
    requires SourceTable(sources) && Allowed(codec, sources, d, in_)
    ensures var p := Published(codec, sources, d, in_);
            && p.Keys == RequiredFiles(sources)
            && Coherent(codec, p)
            && forall n :: n in sources ==> Path(sources[n], n) in d.repo && p[n] == d.repo[Path(sources[n], n)]
  {
    var attempt, refresh := PublishedShape(codec, sources, d, in_);
    var o, id := Open(codec, d.repo, in_).value, codec.runId(in_.started);
    var audited, p := Audited(codec, sources, d.repo, in_, o), Published(codec, sources, d, in_);
    AuditedCovers(codec, sources, d.repo, in_, o);
    RequiredFilesSplit(sources);
    ManifestCovers(codec, sources, in_, o, audited, attempt, refresh);
    CoherentStage(codec, sources.Keys, id, audited, attempt, refresh, p);
  }

  /** The manifest's entry for itself is the hash of the version it replaced, which differs from the published one; so
      the entry is wrong exactly when the two versions hash differently. */
  lemma ManifestSelfRecord(codec: Codec, sources: map<Name, Dir>, d: Disk, in_: Input)
    requires SourceTable(sources) && Allowed(codec, sources, d, in_)
    ensures Open(codec, d.repo, in_).Some? && SNAPSHOT_PATH in d.repo
    ensures var o := Open(codec, d.repo, in_).value;
            var first := ManifestOf(codec, sources, in_, o, Audited(codec, sources, d.repo, in_, o));
            var m := Published(codec, sources, d, in_)[MANIFEST];
            && m.Manifest? && MANIFEST in m.fileRecords && first != m
            && m.fileRecords[MANIFEST] == codec.hash(first)
            && (m.fileRecords[MANIFEST] != codec.hash(m) <==> codec.hash(first) != codec.hash(m))
  {
    var attempt, refresh := PublishedShape(codec, sources, d, in_);
    var o := Open(codec, d.repo, in_).value;
    var audited := Audited(codec, sources, d.repo, in_, o);
    AuditedCovers(codec, sources, d.repo, in_, o);
    RequiredFilesSplit(sources);
    ManifestCovers(codec, sources, in_, o, audited, attempt, refresh);
    FirstManifestDiffers(codec, sources, in_, o, audited, attempt, refresh);
  }

  lemma FirstManifestDiffers(
      codec: Codec, sources: map<Name, Dir>, in_: Input, o: Opening, audited: map<Name, Content>, attempt: Content,
      refresh: Content)
    requires LacksRecords(audited)
    requires ManifestOver(codec, audited, attempt, refresh,
        WithManifest(codec, sources, in_, o, audited, attempt, refresh))
    ensures var m := WithManifest(codec, sources, in_, o, audited, attempt, refresh)[MANIFEST];
            && ManifestOf(codec, sources, in_, o, audited) != m
            && m.fileRecords[MANIFEST] == codec.hash(ManifestOf(codec, sources, in_, o, audited))
  {
    var first := ManifestOf(codec, sources, in_, o, audited);
    HashesCover(codec, RequiredFiles(sources), audited);
    assert MANIFEST !in first.fileRecords;
  }

  // -------------------------------------------------------------------------- frames

  lemma SettleEffect(public_: map<Name, Content>, r: Completion)
    ensures Settle(public_, r).0 == Completed(r.decision) && Settle(public_, r).1.repo == r.repo
    ensures Settle(public_, r).1.public_ == if r.decision.Allow? then public_ + r.staged else public_
  {
  }

  lemma CloseEffect(
      codec: Codec, sources: map<Name, Dir>, d: Disk, in_: Input, o: Opening, missing: set<Name>, copied: set<Name>)
    ensures var (ending, after) := Close(codec, sources, d, in_, o, missing, copied);
            && (ending == Completed(Allow) ==>
                  && BudgetStatus(codec, d.repo).Some?
                  && after.public_ == d.public_
                     + Complete(codec, sources, in_, o, d.stage, missing, copied, d.repo,
                       BudgetStatus(codec, d.repo).value).staged)
            && (ending != Completed(Allow) ==> after.public_ == d.public_)
  {
    if BudgetStatus(codec, d.repo).Some? {
      var frozen := BudgetStatus(codec, d.repo).value;
      SettleEffect(d.public_, Complete(codec, sources, in_, o, d.stage, missing, copied, d.repo, frozen));
    }
  }

  /** A run changes the public directory only by adding what it publishes, and only when it is allowed. */
  lemma PublicEffect(codec: Codec, sources: map<Name, Dir>, d: Disk, in_: Input)
    ensures RunOnce(codec, sources, d, in_).1.public_ ==
            if Allowed(codec, sources, d, in_) then d.public_ + Published(codec, sources, d, in_) else d.public_
  {
    if Open(codec, d.repo, in_).Some? {
      var o := Open(codec, d.repo, in_).value;
      CloseEffect(codec, sources, Filled(codec, sources, d, in_, o), in_, o, Missing(sources, d.repo, in_.inject),
        Copied(sources, d.repo).Keys);
    }
  }

  lemma FreshnessWritesRecord(codec: Codec, repo: map<Path, Content>, in_: Input, o: Opening, p: Path)
    requires !IsRunRecord(p)
    ensures SameAt(repo, WithFreshness(codec, repo, in_, o), p)
  {
  }

  predicate SameAt(before: map<Path, Content>, after: map<Path, Content>, p: Path) {
    (p in after <==> p in before) && (p in before ==> after[p] == before[p])
  }

  lemma RecordsWriteRecords(
      codec: Codec, repo: map<Path, Content>, in_: Input, o: Opening, attempt: Content, refresh: Content,
      reasons: set<Reason>, decision: Decision, p: Path)
    requires !IsRunRecord(p)
    ensures SameAt(repo, WithRecords(codec, repo, in_, o, attempt, refresh, reasons, decision), p)
  {
  }

  lemma CompleteWritesRecords(
      codec: Codec, sources: map<Name, Dir>, in_: Input, o: Opening, audited: map<Name, Content>, missing: set<Name>,
      copied: set<Name>, repo: map<Path, Content>, frozen: bool, p: Path)
    requires !IsRunRecord(p)
    ensures SameAt(repo, Complete(codec, sources, in_, o, audited, missing, copied, repo, frozen).repo, p)
  {
    var id := codec.runId(in_.started);
    var reasons := Reasons(o.freshness.stale, missing != {}, in_.inject, frozen);
    var decision := Decide(reasons, frozen);
    var loaded := |HashesOf(codec, RequiredFiles(sources), audited)|;
    var attempt := AttemptOf(|RequiredFiles(sources)|, in_, o, id, missing, loaded, reasons, decision);
    RecordsWriteRecords(codec, repo, in_, o, attempt, RefreshOf(copied, in_, o, id, decision), reasons, decision, p);
  }

  /** Outside the public directory and its stage, a run writes nothing but its five run records: no source, the
      snapshot, the freshness contract or the error budget changes, although most sources lie in the folder of the run
      records. */
  lemma SourcesUnchanged(codec: Codec, sources: map<Name, Dir>, d: Disk, in_: Input, p: Path)
    requires !IsRunRecord(p)
    ensures SameAt(d.repo, RunOnce(codec, sources, d, in_).1.repo, p)
  {
    if Open(codec, d.repo, in_).Some? {
      var o := Open(codec, d.repo, in_).value;
      FreshnessWritesRecord(codec, d.repo, in_, o, p);
      CloseWritesRecords(codec, sources, Filled(codec, sources, d, in_, o), in_, o,
        Missing(sources, d.repo, in_.inject), Copied(sources, d.repo).Keys, p);
    }
  }

  lemma CloseWritesRecords(
      codec: Codec, sources: map<Name, Dir>, d: Disk, in_: Input, o: Opening, missing: set<Name>, copied: set<Name>,
      p: Path)
    requires !IsRunRecord(p)
    ensures SameAt(d.repo, Close(codec, sources, d, in_, o, missing, copied).1.repo, p)
  {
    if BudgetStatus(codec, d.repo).Some? {
      CompleteWritesRecords(codec, sources, in_, o, d.stage, missing, copied, d.repo,
        BudgetStatus(codec, d.repo).value, p);
    }
  }

  // ----------------------------------------------------------------------- sequences

  /** What happens over time: runs, and any change of the repository outside the public directory. */
  datatype Event = Run(in_: Input) | Edit(repo: map<Path, Content>)

  /** A publisher as seen over time: what a run publishes, if anything, and the disk it leaves. */
  datatype Process = Process(emits: (Disk, Input) -> Option<map<Name, Content>>, after: (Disk, Input) -> Disk)

  function LoopProcess(codec: Codec, sources: map<Name, Dir>): Process {
    Process((d, in_) => if Allowed(codec, sources, d, in_) then Some(Published(codec, sources, d, in_)) else None,
            (d, in_) => RunOnce(codec, sources, d, in_).1)
  }

  function React(p: Process, d: Disk, e: Event): Disk {
    match e
    case Run(in_) => p.after(d, in_)
    case Edit(repo) => d.(repo := repo)
  }

  function Play(p: Process, d: Disk, events: seq<Event>): Disk {
    if events == [] then d else React(p, Play(p, d, events[..|events| - 1]), events[|events| - 1])
  }

  /** The published file sets, in order. */
  function History(p: Process, d: Disk, events: seq<Event>): seq<map<Name, Content>> {
    if events == [] then []
    else
      var past, e := History(p, d, events[..|events| - 1]), events[|events| - 1];
      match e
      case Edit(_) => past
      case Run(in_) =>
        match p.emits(Play(p, d, events[..|events| - 1]), in_)
        case None => past
        case Some(files) => past + [files]
  }

  function OverlayAll(base: map<Name, Content>, sets: seq<map<Name, Content>>): map<Name, Content> {
    if sets == [] then base else OverlayAll(base, sets[..|sets| - 1]) + sets[|sets| - 1]
  }

  ghost predicate AddsWhatItEmits(p: Process) {
    forall d, in_ :: p.after(d, in_).public_ ==
      match p.emits(d, in_) { case None => d.public_ case Some(files) => d.public_ + files }
  }

  lemma {:induction false} PlayOverlays(p: Process, d: Disk, events: seq<Event>)
    requires AddsWhatItEmits(p)
    ensures Play(p, d, events).public_ == OverlayAll(d.public_, History(p, d, events))
  {
    if events != [] {
      var init, e := events[..|events| - 1], events[|events| - 1];
      PlayOverlays(p, d, init);
      var past, now := History(p, d, init), Play(p, d, init);
      if e.Run? && p.emits(now, e.in_).Some? {
        assert (past + [p.emits(now, e.in_).value])[..|past|] == past;
      }
    }
  }

  /** Every set in the history was emitted by a run on some disk. */
  lemma {:induction false} HistoryEntry(
      p: Process, d: Disk, events: seq<Event>, k: nat) returns (before: Disk, in_: Input)
    requires k < |History(p, d, events)|
    ensures p.emits(before, in_) == Some(History(p, d, events)[k])
  {
    var init, e := events[..|events| - 1], events[|events| - 1];
    var past := History(p, d, init);
    if k < |past| {
      before, in_ := HistoryEntry(p, d, init, k);
    } else {
      before, in_ := Play(p, d, init), e.in_;
    }
  }

  lemma {:induction false} OverlayKeepsOthers(base: map<Name, Content>, sets: seq<map<Name, Content>>, n: Name)
    requires forall k :: 0 <= k < |sets| ==> n !in sets[k]
    ensures var r := OverlayAll(base, sets); (n in r <==> n in base) && (n in base ==> r[n] == base[n])
  {
    if sets != [] { OverlayKeepsOthers(base, sets[..|sets| - 1], n); }
  }

  lemma LoopAddsWhatItEmits(codec: Codec, sources: map<Name, Dir>)
    ensures AddsWhatItEmits(LoopProcess(codec, sources))
  {
    forall d: Disk, in_: Input { PublicEffect(codec, sources, d, in_); }
  }

  /** After any sequence of runs and edits, the public directory is its initial content overlaid, in order, by exactly
      the file sets of the allowed runs; stale, blocked, frozen and rejected runs change none of it. */
  lemma PublicIsOverlay(codec: Codec, sources: map<Name, Dir>, d: Disk, events: seq<Event>)
    ensures var p := LoopProcess(codec, sources);
            Play(p, d, events).public_ == OverlayAll(d.public_, History(p, d, events))
  {
    LoopAddsWhatItEmits(codec, sources);
    PlayOverlays(LoopProcess(codec, sources), d, events);
  }

  lemma HistoryIsCoherent(codec: Codec, sources: map<Name, Dir>, d: Disk, events: seq<Event>, k: nat)
    requires SourceTable(sources) && k < |History(LoopProcess(codec, sources), d, events)|
    ensures IsPublication(codec, sources, History(LoopProcess(codec, sources), d, events)[k])
  {
    var before, in_ := HistoryEntry(LoopProcess(codec, sources), d, events, k);
    AllowedRunIsCoherent(codec, sources, before, in_);
  }

  ghost predicate IsPublication(codec: Codec, sources: map<Name, Dir>, files: map<Name, Content>) {
    files.Keys == RequiredFiles(sources) && Coherent(codec, files)
  }

  lemma CoherentWithin(codec: Codec, p: map<Name, Content>, more: map<Name, Content>)
    requires Coherent(codec, p)
    requires forall n :: n in p ==> n in more && more[n] == p[n]
    ensures Coherent(codec, more)
  {
  }

  /** The public directory is never a mixture of runs: once a run has published, every required file in it is that of
      the last allowed run, the whole is coherent, and every other file is as it was at the start. */
  lemma PublicIsLastPublication(codec: Codec, sources: map<Name, Dir>, d: Disk, events: seq<Event>)
    requires SourceTable(sources)
    requires History(LoopProcess(codec, sources), d, events) != []
    ensures var public_, h :=
        Play(LoopProcess(codec, sources), d, events).public_, History(LoopProcess(codec, sources), d, events);
            && IsPublication(codec, sources, h[|h| - 1])
            && (forall n :: n in h[|h| - 1] ==> n in public_ && public_[n] == h[|h| - 1][n])
            && (forall n :: n !in h[|h| - 1] ==>
               (n in public_ <==> n in d.public_) && (n in d.public_ ==> public_[n] == d.public_[n]))
            && Coherent(codec, public_)
  {
    var h := History(LoopProcess(codec, sources), d, events);
    PublicIsOverlay(codec, sources, d, events);
    HistoryIsCoherent(codec, sources, d, events, |h| - 1);
    var public_, last := OverlayAll(d.public_, h), h[|h| - 1];
    CoherentWithin(codec, last, public_);
    forall n | n !in last
      ensures (n in public_ <==> n in d.public_) && (n in d.public_ ==> public_[n] == d.public_[n]) {
      forall k | 0 <= k < |h| ensures n !in h[k] {
        HistoryIsCoherent(codec, sources, d, events, k);
        assert h[k].Keys == last.Keys;
      }
      OverlayKeepsOthers(d.public_, h, n);
    }
  }
}
