/** The crawl loop `IndexManager.index_files`: for each candidate file the
    pause/stop check, the image test, the change test, processing,
    storing and yielding the combined record. The crawl itself and every
    per-file read are inputs carried by the candidates. */
module Indexing {
  import opened Wrappers
  import opened Values
  import opened Text
  import opened Configuration
  import opened LlmProcessor
  import opened FileProcessing
  import opened Database

  /** One crawled file with what the outside world answers for it: whether
      the user has stopped the run by the time it is reached, the guessed
      MIME type, the modification time, and what stat, exiftool, PIL and
      the tag writer give. */
  datatype Candidate = Candidate(
    path: string,
    stopRequested: bool,
    mime: Option<string>,
    mtime: int,
    facts: FileFacts,
    exif: ExifRead,
    image: ImageFile,
    toolAvailable: bool)

  /** `mime_type and mime_type.startswith('image/')`. */
  predicate IsImageType(mime: Option<string>)
  {
    mime.Some? && "image/" <= mime.value
  }

  /** What the loop has done so far: the store's records, the records
      yielded, the number of pause/stop checks, the files handed to
      `process_file`, the tag writes issued, and the exception that ended
      the run, if any. */
  datatype RunState = RunState(
    docs: seq<Document>,
    yielded: seq<Document>,
    checks: nat,
    processed: seq<string>,
    writes: seq<SetTagsCall>,
    halted: Option<Exception>)

  /** The environment of a run: the manager's configuration, the file
      processor's configuration and template, the service, the JSON
      helpers, and whether a pause/stop check was supplied. */
  datatype Env = Env(cfg: Config, fileCfg: Config, proc: Processor, svc: Service, lib: JsonLib, hasCheck: bool)

  /** The record stored and yielded for a processed file:
      `{**basic, **exif, **processed}`. */
  function Combined(c: Candidate, p: Processed, lib: JsonLib): (m: Document)
    ensures "relative_path" in m && m["relative_path"] == JStr(c.facts.relativePath)
    ensures "llm_metadata" in m && m["llm_metadata"] == p.llmMetadata
    ensures "Caption" in m && m["Caption"] == p.caption
  {
    var basic := BasicMetadata(c.path, c.facts);
    var exif := ExifRecord(c.exif, lib);
    var processed := ProcessedRecord(p);
    assert "relative_path" !in exif && "relative_path" !in processed;
    (basic + exif) + processed
  }

  /** `process_file` on a candidate. */
  function ProcessCandidate(env: Env, c: Candidate): Result<Processed, Exception>
    requires IsImageType(c.mime)
  {
    Process(env.fileCfg, env.proc, c.path, c.exif, c.mime.value, c.image, env.svc, env.lib, c.toolAvailable)
  }

  /** Whether the loop processes an image candidate: forced, or not found in the store. */
  predicate Selected(env: Env, docs: seq<Document>, c: Candidate)
  {
    env.cfg.forceRehash || NeedsUpdate(docs, c.path)
  }

  /** The state once the pause/stop check, if supplied, has been counted. */
  function Checked(env: Env, st: RunState): (r: RunState)
    ensures r.checks == if env.hasCheck then st.checks + 1 else st.checks
    ensures r == st.(checks := r.checks)
  {
    if env.hasCheck then st.(checks := st.checks + 1) else st
  }

  /** One iteration of the loop. An exception ends the run: it leaves the
      generator and `main` reports it. */
  function Step(env: Env, st: RunState, c: Candidate): RunState
  {
    if st.halted.Some? then st
    else
      var st := Checked(env, st);
      if env.hasCheck && c.stopRequested then st.(halted := Some(StoppedByUser))
      else if !IsImageType(c.mime) then st
      else if !Selected(env, st.docs, c) then st
      else
        var st := st.(processed := st.processed + [c.path]);
        match ProcessCandidate(env, c)
        case Err(e) => st.(halted := Some(e))
        case Ok(p) =>
          var record := Combined(c, p, env.lib);
          var writes := if p.write.Some? then st.writes + [p.write.value] else st.writes;
          var docs := if env.cfg.dryRun then st.docs else Upsert(st.docs, record);
          st.(docs := docs, yielded := st.yielded + [record], writes := writes)
  }

  /** A step that processes a selected image ends in the state the
      processing outcome describes: the exception with nothing stored, or
      the combined record stored (unless dry run) and yielded. */
  lemma StepSelected(env: Env, st: RunState, c: Candidate, docs: seq<Document>, yielded: seq<Document>,
                     writes: seq<SetTagsCall>, halted: Option<Exception>)
    requires st.halted.None? && !(env.hasCheck && c.stopRequested) && IsImageType(c.mime) && Selected(env, st.docs, c)
    requires match ProcessCandidate(env, c)
      case Err(e) => halted == Some(e) && docs == st.docs && yielded == st.yielded && writes == st.writes
      case Ok(p) =>
        && halted.None?
        && docs == (if env.cfg.dryRun then st.docs else Upsert(st.docs, Combined(c, p, env.lib)))
        && yielded == st.yielded + [Combined(c, p, env.lib)]
        && writes == if p.write.Some? then st.writes + [p.write.value] else st.writes
    ensures Step(env, st, c) ==
      RunState(docs, yielded, if env.hasCheck then st.checks + 1 else st.checks, st.processed + [c.path], writes, halted)
  {
    match ProcessCandidate(env, c)
    case Err(e) => StepFailed(env, st, c, e);
    case Ok(p) => StepSucceeded(env, st, c, p);
  }

  /** A step that stops at the check, the image test or the change test. */
  lemma StepSkipped(env: Env, st: RunState, c: Candidate)
    requires st.halted.None? && !(env.hasCheck && c.stopRequested)
    requires !IsImageType(c.mime) || !Selected(env, st.docs, c)
    ensures Step(env, st, c) == Checked(env, st)
  {
  }

  /** A step whose `process_file` raises. */
  lemma StepFailed(env: Env, st: RunState, c: Candidate, e: Exception)
    requires st.halted.None? && !(env.hasCheck && c.stopRequested)
    requires IsImageType(c.mime) && Selected(env, st.docs, c) && ProcessCandidate(env, c) == Err(e)
    ensures Step(env, st, c) == Checked(env, st).(processed := st.processed + [c.path], halted := Some(e))
  {
  }

  /** A step whose `process_file` succeeds. */
  lemma StepSucceeded(env: Env, st: RunState, c: Candidate, p: Processed)
    requires st.halted.None? && !(env.hasCheck && c.stopRequested)
    requires IsImageType(c.mime) && Selected(env, st.docs, c) && ProcessCandidate(env, c) == Ok(p)
    ensures Step(env, st, c) == Checked(env, st).(
      processed := st.processed + [c.path],
      docs := if env.cfg.dryRun then st.docs else Upsert(st.docs, Combined(c, p, env.lib)),
      yielded := st.yielded + [Combined(c, p, env.lib)],
      writes := if p.write.Some? then st.writes + [p.write.value] else st.writes)
  {
  }

  /** The loop over a list of candidates. */
  function Run(env: Env, st: RunState, cs: seq<Candidate>): RunState
  {
    if cs == [] then st else Step(env, Run(env, st, cs[..|cs| - 1]), cs[|cs| - 1])
  }

  /** Running two lists in turn is running their concatenation. */
  lemma {:induction false} RunAppend(env: Env, st: RunState, a: seq<Candidate>, b: seq<Candidate>)
    ensures Run(env, st, a + b) == Run(env, Run(env, st, a), b)
  {
    if b == [] {
      assert a + b == a;
    } else {
      assert (a + b)[..|a + b| - 1] == a + b[..|b| - 1];
      RunAppend(env, st, a, b[..|b| - 1]);
    }
  }

  /** A run that has ended stays as it is. */
  lemma {:induction false} HaltedRunIsFinal(env: Env, st: RunState, cs: seq<Candidate>)
    requires st.halted.Some?
    ensures Run(env, st, cs) == st
  {
    if cs != [] {
      HaltedRunIsFinal(env, st, cs[..|cs| - 1]);
    }
  }

  /** The loop one candidate further. */
  lemma RunPrefixStep(env: Env, st: RunState, cs: seq<Candidate>, i: nat)
    requires i < |cs|
    ensures Run(env, st, cs[..i + 1]) == Step(env, Run(env, st, cs[..i]), cs[i])
  {
    assert cs[..i + 1][..i] == cs[..i];
  }

  /** Once a prefix has ended the run, the whole run ends there. */
  lemma HaltedPrefixIsFinal(env: Env, st: RunState, cs: seq<Candidate>, i: nat)
    requires i <= |cs| && Run(env, st, cs[..i]).halted.Some?
    ensures Run(env, st, cs) == Run(env, st, cs[..i])
  {
    HaltedRunIsFinal(env, Run(env, st, cs[..i]), cs[i..]);
    RunAppend(env, st, cs[..i], cs[i..]);
    assert cs[..i] + cs[i..] == cs;
  }

  /** One step: a stop request ends the run before the MIME test, with
      nothing stored, yielded or processed. */
  lemma StopComesFirst(env: Env, st: RunState, c: Candidate)
    requires st.halted.None? && env.hasCheck && c.stopRequested
    ensures Step(env, st, c) == st.(checks := st.checks + 1, halted := Some(StoppedByUser))
  {
  }

  /** One step: a file whose type is not an image is neither processed nor
      stored nor yielded; only the check is counted. */
  lemma NonImageUntouched(env: Env, st: RunState, c: Candidate)
    requires !IsImageType(c.mime)
    ensures var s := Step(env, st, c);
      && s.docs == st.docs && s.yielded == st.yielded && s.processed == st.processed && s.writes == st.writes
  {
  }

  /** One step: a file reaching the image test is processed exactly when
      rehashing is forced or the store has no record under its basename. */
  lemma ProcessedExactlyWhenSelected(env: Env, st: RunState, c: Candidate)
    requires st.halted.None? && !(env.hasCheck && c.stopRequested)
    ensures Step(env, st, c).processed ==
      if IsImageType(c.mime) && (env.cfg.forceRehash || NeedsUpdate(st.docs, c.path))
      then st.processed + [c.path] else st.processed
  {
  }

  /** One step: a successful file yields `basic ⊕ exif ⊕ processed`, and
      stores that same record unless this is a dry run; a failing one
      stores and yields nothing and ends the run. */
  lemma StepRecord(env: Env, st: RunState, c: Candidate)
    requires st.halted.None? && !(env.hasCheck && c.stopRequested) && IsImageType(c.mime) && Selected(env, st.docs, c)
    ensures ProcessCandidate(env, c).Err? ==>
      var s := Step(env, st, c);
      s.halted == Some(ProcessCandidate(env, c).error) && s.docs == st.docs && s.yielded == st.yielded
    ensures ProcessCandidate(env, c).Ok? ==>
      var s := Step(env, st, c);
      var record := BasicMetadata(c.path, c.facts) + ExifRecord(c.exif, env.lib) + ProcessedRecord(ProcessCandidate(env, c).value);
      && s.halted.None?
      && s.yielded == st.yielded + [record]
      && s.docs == if env.cfg.dryRun then st.docs else Upsert(st.docs, record)
  {
  }

  /** Under dry run the store is never written. */
  lemma {:induction false} DryRunStoresNothing(env: Env, st: RunState, cs: seq<Candidate>)
    requires env.cfg.dryRun
    ensures Run(env, st, cs).docs == st.docs
  {
    if cs != [] {
      DryRunStoresNothing(env, st, cs[..|cs| - 1]);
    }
  }

  /** Every file handed to `process_file` is one of the candidates and has
      an image type. */
  lemma {:induction false} OnlyImagesProcessed(env: Env, st: RunState, cs: seq<Candidate>)
    ensures forall i :: |st.processed| <= i < |Run(env, st, cs).processed| ==>
      exists c :: c in cs && c.path == Run(env, st, cs).processed[i] && IsImageType(c.mime)
    ensures st.processed <= Run(env, st, cs).processed
  {
    if cs != [] {
      var init, last := cs[..|cs| - 1], cs[|cs| - 1];
      OnlyImagesProcessed(env, st, init);
      var prev, next := Run(env, st, init), Run(env, st, cs);
      assert next == Step(env, prev, last);
      assert cs == init + [last];
      assert next.processed == prev.processed || (next.processed == prev.processed + [last.path] && IsImageType(last.mime));
      forall i | |st.processed| <= i < |next.processed|
        ensures exists c :: c in cs && c.path == next.processed[i] && IsImageType(c.mime)
      {
        if i < |prev.processed| {
          assert next.processed[i] == prev.processed[i];
          var c :| c in init && c.path == prev.processed[i] && IsImageType(c.mime);
          assert c in cs;
        } else {
          assert last in cs;
        }
      }
    } else {
      assert Run(env, st, cs) == st;
    }
  }

  /** With a check supplied, a run that does not end early checks once per
      candidate; every record yielded was processed. */
  lemma {:induction false} RunCounts(env: Env, st: RunState, cs: seq<Candidate>)
    requires st.halted.None?
    ensures env.hasCheck && Run(env, st, cs).halted.None? ==> Run(env, st, cs).checks == st.checks + |cs|
    ensures !env.hasCheck ==> Run(env, st, cs).checks == st.checks
    ensures |Run(env, st, cs).yielded| - |st.yielded| <= |Run(env, st, cs).processed| - |st.processed|
    ensures st.yielded <= Run(env, st, cs).yielded && st.processed <= Run(env, st, cs).processed
  {
    if cs != [] {
      var init := cs[..|cs| - 1];
      RunCounts(env, st, init);
      if Run(env, st, init).halted.Some? {
        HaltedRunIsFinal(env, Run(env, st, init), [cs[|cs| - 1]]);
        assert [cs[|cs| - 1]][..0] == [];
      }
    }
  }

  /** The index manager: the configuration, the store and the file processor. */
  class IndexManager {
    const config: Config
    const db: DatabaseHandler
    const fileProcessor: FileProcessor

    constructor (config: Config, db: DatabaseHandler, fileProcessor: FileProcessor)
      ensures this.config == config && this.db == db && this.fileProcessor == fileProcessor
    {
      this.config := config;
      this.db := db;
      this.fileProcessor := fileProcessor;
    }

    /** The environment the loop runs in. */
    function Environment(svc: Service, lib: JsonLib, hasCheck: bool): Env
      reads this
    {
      Env(config, fileProcessor.config, fileProcessor.processor, svc, lib, hasCheck)
    }

    /** The selected-file part of an iteration: `process_file`, then the
        record stored (unless dry run) and yielded, or the exception. */
    method ProcessSelected(c: Candidate, svc: Service, lib: JsonLib, hasCheck: bool,
                           yielded: seq<Document>, writes: seq<SetTagsCall>)
      returns (yielded': seq<Document>, writes': seq<SetTagsCall>, halted: Option<Exception>)
      requires IsImageType(c.mime)
      modifies db, fileProcessor
      ensures var outcome := ProcessCandidate(Environment(svc, lib, hasCheck), c);
        match outcome
        case Err(e) =>
          halted == Some(e) && db.documents == old(db.documents) && yielded' == yielded && writes' == writes
        case Ok(p) =>
          && halted.None?
          && db.documents == (if config.dryRun then old(db.documents) else Upsert(old(db.documents), Combined(c, p, lib)))
          && yielded' == yielded + [Combined(c, p, lib)]
          && writes' == if p.write.Some? then writes + [p.write.value] else writes
    {
      yielded', writes', halted := yielded, writes, None;
      var basic := BasicMetadata(c.path, c.facts);
      var exif := ExifRecord(c.exif, lib);
      var result := fileProcessor.ProcessFile(c.path, c.exif, c.mime.value, c.image, svc, lib, c.toolAvailable);
      if result.Err? {
        halted := Some(result.error);
        return;
      }
      var record := basic + exif + ProcessedRecord(result.value);
      if result.value.write.Some? {
        writes' := writes' + [result.value.write.value];
      }
      if !config.dryRun {
        var err := db.InsertOrUpdate(record);
      }
      yielded' := yielded' + [record];
    }

    /** One iteration of `index_files` on a running loop: the state after
        it is `Step` of the state before. */
    method IndexFile(c: Candidate, svc: Service, lib: JsonLib, hasCheck: bool,
                     yielded: seq<Document>, checks: nat, processed: seq<string>, writes: seq<SetTagsCall>)
      returns (yielded': seq<Document>, checks': nat, processed': seq<string>, writes': seq<SetTagsCall>, halted: Option<Exception>)
      modifies db, fileProcessor
      ensures RunState(db.documents, yielded', checks', processed', writes', halted) ==
        Step(Environment(svc, lib, hasCheck), RunState(old(db.documents), yielded, checks, processed, writes, None), c)
    {
      ghost var env := Environment(svc, lib, hasCheck);
      ghost var st := RunState(db.documents, yielded, checks, processed, writes, None);
      checks' := checks;
      if hasCheck {
        checks' := checks' + 1;
        if c.stopRequested {
          yielded', processed', writes', halted := yielded, processed, writes, Some(StoppedByUser);
          return;
        }
      }
      yielded', processed', writes', halted := IndexImage(c, svc, lib, hasCheck, yielded, checks, processed, writes);
    }

    /** The part of an iteration after the pause/stop check: the image
        test, the change test and the processing of a selected file. */
    method IndexImage(c: Candidate, svc: Service, lib: JsonLib, hasCheck: bool,
                      yielded: seq<Document>, checks: nat, processed: seq<string>, writes: seq<SetTagsCall>)
      returns (yielded': seq<Document>, processed': seq<string>, writes': seq<SetTagsCall>, halted: Option<Exception>)
      requires !(hasCheck && c.stopRequested)
      modifies db, fileProcessor
      ensures Step(Environment(svc, lib, hasCheck), RunState(old(db.documents), yielded, checks, processed, writes, None), c)
        == RunState(db.documents, yielded', if hasCheck then checks + 1 else checks, processed', writes', halted)
    {
      ghost var env := Environment(svc, lib, hasCheck);
      ghost var st := RunState(db.documents, yielded, checks, processed, writes, None);
      yielded', processed', writes', halted := yielded, processed, writes, None;
      if !IsImageType(c.mime) {
        StepSkipped(env, st, c);
        return;
      }
      var needs := true;
      if !config.forceRehash {
        needs := db.FileNeedsUpdate(c.path, c.mtime);
      }
      if !needs {
        StepSkipped(env, st, c);
        return;
      }
      processed' := processed' + [c.path];
      yielded', writes', halted := ProcessSelected(c, svc, lib, hasCheck, yielded', writes');
      StepSelected(env, st, c, db.documents, yielded', writes', halted);
    }

    /** `index_files`, drained: the loop over the crawled candidates. The
        records yielded, the checks made, the files processed, the tag
        writes and the exception that ended the run are what `Run`
        describes, and the store ends as `Run` leaves it. */
    method IndexFiles(cands: seq<Candidate>, svc: Service, lib: JsonLib, hasCheck: bool)
      returns (yielded: seq<Document>, checks: nat, processed: seq<string>, writes: seq<SetTagsCall>, halted: Option<Exception>)
      modifies db, fileProcessor
      ensures var r := Run(Environment(svc, lib, hasCheck), RunState(old(db.documents), [], 0, [], [], None), cands);
        && db.documents == r.docs
        && yielded == r.yielded && checks == r.checks && processed == r.processed
        && writes == r.writes && halted == r.halted
    {
      ghost var env := Environment(svc, lib, hasCheck);
      ghost var st0 := RunState(db.documents, [], 0, [], [], None);
      yielded, checks, processed, writes, halted := [], 0, [], [], None;
      var i := 0;
      while i < |cands|
        invariant 0 <= i <= |cands|
        invariant halted.None?
        invariant RunState(db.documents, yielded, checks, processed, writes, halted) == Run(env, st0, cands[..i])
      {
        RunPrefixStep(env, st0, cands, i);
        yielded, checks, processed, writes, halted := IndexFile(cands[i], svc, lib, hasCheck, yielded, checks, processed, writes);
        if halted.Some? {
          HaltedPrefixIsFinal(env, st0, cands, i + 1);
          return;
        }
        i := i + 1;
      }
      assert cands[..i] == cands;
    }
  }
}
