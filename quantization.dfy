/** The setup pipeline that produces the two quantized variants: prepare
    the directories, download the source model, build the quantization
    toolchain, convert to GGUF, then quantize to each tag, stopping at the
    first stage that fails. */
module Quantization {
  import opened Wrappers
  import opened Exceptions
  import opened Constants
  import opened PosixPath
  import Inference

  /** What the pipeline does to the outside world, in the order it does it. */
  datatype Action =
    | MakeDirs(path: string)
    | Download(repoId: string, localDir: string, revision: string)
    | Exec(cmd: seq<string>, cwd: string)

  /** How the outside world answers: for each directory, none when it exists
      or can be created and otherwise the text of the error `os.makedirs`
      raises; whether the snapshot download returns (rather than raising);
      and whether a command run in a directory exits with status 0 (rather
      than failing or raising). */
  datatype Tools = Tools(
    makeDirsError: string -> Option<string>,
    downloadSucceeds: bool,
    commandSucceeds: (seq<string>, string) -> bool)

  /** The exception creating `path` raises, if any. */
  function MakeDirsRaises(t: Tools, path: string): Option<PyError> {
    match t.makeDirsError(path)
    case None => None
    case Some(text) => Some(OSError(path, text))
  }

  /** The machine the pipeline runs on: the helpers that create
      directories, download snapshots and run commands, with a log of every
      call made to them. */
  class Host {
    const tools: Tools
    var log: seq<Action>

    constructor (tools: Tools)
      ensures this.tools == tools && log == []
    {
      this.tools := tools;
      log := [];
    }

    /** `ensure_directory_exists`: creates the directory if missing, and
        reports the exception `os.makedirs` raises, if any. */
    method EnsureDirectoryExists(path: string) returns (raised: Option<PyError>)
      modifies this
      ensures raised == MakeDirsRaises(tools, path)
      ensures log == old(log) + [MakeDirs(path)]
    {
      log := log + [MakeDirs(path)];
      raised := MakeDirsRaises(tools, path);
    }

    /** `snapshot_download`; reports whether it raised. */
    method SnapshotDownload(repoId: string, localDir: string, revision: string) returns (raised: bool)
      modifies this
      ensures raised == !tools.downloadSucceeds
      ensures log == old(log) + [Download(repoId, localDir, revision)]
    {
      log := log + [Download(repoId, localDir, revision)];
      raised := !tools.downloadSucceeds;
    }

    /** `run_command`: true when the command exits with status 0. */
    method RunCommand(cmd: seq<string>, cwd: string) returns (ok: bool)
      modifies this
      ensures ok == tools.commandSucceeds(cmd, cwd)
      ensures log == old(log) + [Exec(cmd, cwd)]
    {
      log := log + [Exec(cmd, cwd)];
      ok := tools.commandSucceeds(cmd, cwd);
    }
  }

  // ---------------------------------------------------------------------
  // Commands and paths

  const LlamaCppDir: string := "llama.cpp"
  const Revision: string := "main"
  const ConfigureCommand: seq<string> := ["cmake", "-B", "build"]
  const BuildCommand: seq<string> := ["cmake", "--build", "build", "--config", "Release"]
  const ConvertCommand: seq<string> :=
    ["python", "convert_hf_to_gguf.py", "../" + HfModelId,
     "--outtype", "f16", "--outfile", "../" + ModelDir + "/Qwen3-8B_FP16.gguf"]
  const QuantizeInput: string := "../" + ModelDir + "/Qwen3-8B_FP16.gguf"
  const QuantizeTool: string := "build/bin/llama-quantize"

  /** The output file for a quantization tag, relative to the toolchain
      directory; none for a tag the pipeline does not produce. */
  function QuantizeOutput(tag: string): (out: Option<string>)
    ensures out.Some? <==> tag == Quant4Bit || tag == Quant8Bit
    ensures tag == Quant4Bit ==> out == Some("../" + Model4BitPath)
    ensures tag == Quant8Bit ==> out == Some("../" + Model8BitPath)
  {
    PrefixParts("../", ModelDir, "/4bit", "/", "Qwen3-8B_FP16_Q4_K_M.gguf");
    PrefixParts("../", ModelDir, "/8bit", "/", "Qwen3-8B_FP16_Q8_0.gguf");
    if tag == Quant4Bit then Some("../" + ModelDir + "/4bit" + "/" + "Qwen3-8B_FP16_Q4_K_M.gguf")
    else if tag == Quant8Bit then Some("../" + ModelDir + "/8bit" + "/" + "Qwen3-8B_FP16_Q8_0.gguf")
    else None
  }

  /** The directory of a known tag's output file, relative to the
      toolchain directory. */
  function QuantizeDir(tag: string): string
    requires tag == Quant4Bit || tag == Quant8Bit
  {
    "../" + ModelDir + (if tag == Quant4Bit then "/4bit" else "/8bit")
  }

  /** `os.path.dirname` of each output file is its tag's directory. */
  lemma QuantizeDirIsDirname(tag: string)
    requires tag == Quant4Bit || tag == Quant8Bit
    ensures Dirname(QuantizeOutput(tag).value) == QuantizeDir(tag)
  {
    var name := if tag == Quant4Bit then "Qwen3-8B_FP16_Q4_K_M.gguf" else "Qwen3-8B_FP16_Q8_0.gguf";
    OutputIsChild(tag, name);
    DirnameOfChild(QuantizeDir(tag), name);
  }

  lemma OutputIsChild(tag: string, name: string)
    requires tag == Quant4Bit || tag == Quant8Bit
    requires name == if tag == Quant4Bit then "Qwen3-8B_FP16_Q4_K_M.gguf" else "Qwen3-8B_FP16_Q8_0.gguf"
    ensures QuantizeOutput(tag).value == QuantizeDir(tag) + "/" + name
    ensures QuantizeDir(tag) != [] && QuantizeDir(tag)[|QuantizeDir(tag)| - 1] != '/' && '/' !in name
  {
  }

  function QuantizeCommand(tag: string, out: string): seq<string> {
    [QuantizeTool, QuantizeInput, out, tag]
  }

  // ---------------------------------------------------------------------
  // The steps, as a specification

  /** One step of `setup_models`: creating one of the model directories, or
      one of the five stages. */
  datatype Stage = Prepare(dir: string) | Fetch | Build | Convert | Quantize(tag: string)

  const SetupStages: seq<Stage> :=
    [Prepare(ModelDir), Prepare(ModelDir + "/4bit"), Prepare(ModelDir + "/8bit"),
     Fetch, Build, Convert, Quantize(Quant4Bit), Quantize(Quant8Bit)]

  const PrepareActions: seq<Action> :=
    [MakeDirs(ModelDir), MakeDirs(ModelDir + "/4bit"), MakeDirs(ModelDir + "/8bit")]

  /** What a step does to the outside world. */
  function StageActions(s: Stage, t: Tools): seq<Action> {
    match s
    case Prepare(dir) => [MakeDirs(dir)]
    case Fetch => [Download(HfModelId, HfModelId, Revision)]
    case Build =>
      [Exec(ConfigureCommand, LlamaCppDir)]
      + (if t.commandSucceeds(ConfigureCommand, LlamaCppDir) then [Exec(BuildCommand, LlamaCppDir)] else [])
    case Convert => [Exec(ConvertCommand, LlamaCppDir)]
    case Quantize(tag) =>
      match QuantizeOutput(tag)
      case None => []
      case Some(out) =>
        [MakeDirs(QuantizeDir(tag))]
        + (if MakeDirsRaises(t, QuantizeDir(tag)).None? then [Exec(QuantizeCommand(tag, out), LlamaCppDir)] else [])
  }

  /** What a step returns, or the exception it raises. */
  function StageResult(s: Stage, t: Tools): Result<bool, PyError> {
    match s
    case Prepare(dir) =>
      (match MakeDirsRaises(t, dir)
       case None => Ok(true)
       case Some(e) => Err(e))
    case Fetch => Ok(t.downloadSucceeds)
    case Build =>
      Ok(t.commandSucceeds(ConfigureCommand, LlamaCppDir) && t.commandSucceeds(BuildCommand, LlamaCppDir))
    case Convert => Ok(t.commandSucceeds(ConvertCommand, LlamaCppDir))
    case Quantize(tag) =>
      match QuantizeOutput(tag)
      case None => Err(ValueError("Unsupported quantization type: " + tag))
      case Some(out) =>
        match MakeDirsRaises(t, QuantizeDir(tag))
        case Some(e) => Err(e)
        case None => Ok(t.commandSucceeds(QuantizeCommand(tag, out), LlamaCppDir))
  }

  /** Whether a step lets setup go on: it returned true. */
  predicate StageSucceeds(s: Stage, t: Tools) {
    StageResult(s, t) == Ok(true)
  }

  /** The actions of every step, as when every step succeeds. */
  function AllActions(stages: seq<Stage>, t: Tools): seq<Action> {
    if stages == [] then [] else StageActions(stages[0], t) + AllActions(stages[1..], t)
  }

  /** What a run returns (or raises) and what it did. */
  datatype PipelineRun = PipelineRun(outcome: Result<bool, PyError>, actions: seq<Action>)

  /** Running steps fail-fast: the run returns true exactly when every step
      does, and then it has done every step's actions. */
  function RunStages(stages: seq<Stage>, t: Tools): (r: PipelineRun)
    ensures r.outcome == Ok(true) <==> forall i :: 0 <= i < |stages| ==> StageSucceeds(stages[i], t)
    ensures r.outcome == Ok(true) ==> r.actions == AllActions(stages, t)
    decreases |stages|
  {
    if stages == [] then PipelineRun(Ok(true), [])
    else if !StageSucceeds(stages[0], t) then PipelineRun(StageResult(stages[0], t), StageActions(stages[0], t))
    else
      var rest := RunStages(stages[1..], t);
      assert forall i :: 1 <= i < |stages| ==> stages[i] == stages[1..][i - 1];
      PipelineRun(rest.outcome, StageActions(stages[0], t) + rest.actions)
  }

  /** `setup_models()`: every run starts by creating the model directory. */
  function Setup(t: Tools): (r: PipelineRun)
    ensures |r.actions| >= 1 && r.actions[0] == MakeDirs(ModelDir)
  {
    assert SetupStages[0] == Prepare(ModelDir);
    RunStages(SetupStages, t)
  }

  // ---------------------------------------------------------------------
  // Properties of the pipeline

  lemma {:induction false} AllActionsAppend(a: seq<Stage>, b: seq<Stage>, t: Tools)
    ensures AllActions(a + b, t) == AllActions(a, t) + AllActions(b, t)
    decreases |a|
  {
    if a == [] {
      assert a + b == b;
    } else {
      var head := StageActions(a[0], t);
      assert (a + b)[0] == a[0] && (a + b)[1..] == a[1..] + b;
      AllActionsAppend(a[1..], b, t);
      calc {
        AllActions(a + b, t);
        head + AllActions(a[1..] + b, t);
        head + (AllActions(a[1..], t) + AllActions(b, t));
        (head + AllActions(a[1..], t)) + AllActions(b, t);
      }
    }
  }

  lemma AllActionsSnoc(stages: seq<Stage>, k: nat, t: Tools)
    requires k < |stages|
    ensures AllActions(stages[..k + 1], t) == AllActions(stages[..k], t) + StageActions(stages[k], t)
  {
    assert stages[..k + 1] == stages[..k] + [stages[k]];
    AllActionsAppend(stages[..k], [stages[k]], t);
  }

  /** Whatever fails, a run does a prefix of what a fully successful run
      does: steps are never reordered or skipped. */
  lemma {:induction false} RunIsPrefixOfFullRun(stages: seq<Stage>, t: Tools)
    ensures RunStages(stages, t).actions <= AllActions(stages, t)
    decreases |stages|
  {
    if stages != [] && StageSucceeds(stages[0], t) {
      RunIsPrefixOfFullRun(stages[1..], t);
    }
  }

  /** Nothing runs after the first failing step: the run returns what that
      step returned (or raises what it raised) and has done exactly the
      steps up to and including that one. */
  lemma {:induction false} FirstFailureStops(stages: seq<Stage>, t: Tools, k: nat)
    requires k < |stages|
    requires forall i :: 0 <= i < k ==> StageSucceeds(stages[i], t)
    requires !StageSucceeds(stages[k], t)
    ensures RunStages(stages, t) == PipelineRun(StageResult(stages[k], t), AllActions(stages[..k + 1], t))
    decreases k
  {
    if k == 0 {
      assert stages[..1][1..] == [];
    } else {
      FirstFailureStops(stages[1..], t, k - 1);
      assert stages[..k + 1][1..] == stages[1..][..k];
    }
  }

  /** A run that does not return true returns or raises what one of its
      steps did. */
  lemma {:induction false} RunFailsAsAStep(stages: seq<Stage>, t: Tools)
    ensures RunStages(stages, t).outcome != Ok(true) ==>
      exists i :: 0 <= i < |stages| && RunStages(stages, t).outcome == StageResult(stages[i], t)
    decreases |stages|
  {
    if stages != [] && StageSucceeds(stages[0], t) {
      RunFailsAsAStep(stages[1..], t);
      if RunStages(stages, t).outcome != Ok(true) {
        var i :| 0 <= i < |stages[1..]| && RunStages(stages[1..], t).outcome == StageResult(stages[1..][i], t);
        assert stages[1..][i] == stages[i + 1];
      }
    }
  }

  /** `setup_models` returns true exactly when the three directories are
      created, the download, both build commands and the conversion
      succeed, and each quantization's directory is created and its
      command succeeds. */
  lemma SetupSucceedsIff(t: Tools)
    ensures Setup(t).outcome == Ok(true) <==>
      && t.makeDirsError(ModelDir).None?
      && t.makeDirsError(ModelDir + "/4bit").None?
      && t.makeDirsError(ModelDir + "/8bit").None?
      && t.downloadSucceeds
      && t.commandSucceeds(ConfigureCommand, LlamaCppDir)
      && t.commandSucceeds(BuildCommand, LlamaCppDir)
      && t.commandSucceeds(ConvertCommand, LlamaCppDir)
      && t.makeDirsError("../" + ModelDir + "/4bit").None?
      && t.commandSucceeds(QuantizeCommand(Quant4Bit, "../" + Model4BitPath), LlamaCppDir)
      && t.makeDirsError("../" + ModelDir + "/8bit").None?
      && t.commandSucceeds(QuantizeCommand(Quant8Bit, "../" + Model8BitPath), LlamaCppDir)
  {
    assert StageSucceeds(SetupStages[0], t) == t.makeDirsError(ModelDir).None?;
    assert StageSucceeds(SetupStages[1], t) == t.makeDirsError(ModelDir + "/4bit").None?;
    assert StageSucceeds(SetupStages[2], t) == t.makeDirsError(ModelDir + "/8bit").None?;
    assert StageSucceeds(SetupStages[3], t) == t.downloadSucceeds;
    assert StageSucceeds(SetupStages[4], t) == (t.commandSucceeds(ConfigureCommand, LlamaCppDir) && t.commandSucceeds(BuildCommand, LlamaCppDir));
    assert StageSucceeds(SetupStages[5], t) == t.commandSucceeds(ConvertCommand, LlamaCppDir);
    assert StageSucceeds(SetupStages[6], t) ==
      (t.makeDirsError("../" + ModelDir + "/4bit").None?
       && t.commandSucceeds(QuantizeCommand(Quant4Bit, "../" + Model4BitPath), LlamaCppDir));
    assert StageSucceeds(SetupStages[7], t) ==
      (t.makeDirsError("../" + ModelDir + "/8bit").None?
       && t.commandSucceeds(QuantizeCommand(Quant8Bit, "../" + Model8BitPath), LlamaCppDir));
  }

  /** Setup asks only for the two known tags, so it never raises
      `ValueError`: the only exception that escapes it is the `OSError` of
      a directory it could not create. */
  lemma SetupRaisesOnlyOSError(t: Tools)
    ensures Setup(t).outcome.Err? ==> Setup(t).outcome.error.OSError?
  {
    RunFailsAsAStep(SetupStages, t);
    forall i | 0 <= i < |SetupStages| && StageResult(SetupStages[i], t).Err?
      ensures StageResult(SetupStages[i], t).error.OSError?
    {
      if SetupStages[i].Quantize? {
        assert SetupStages[i].tag == Quant4Bit || SetupStages[i].tag == Quant8Bit;
      }
    }
  }

  /** When the model directory cannot be created, setup raises that error
      before doing anything else. */
  lemma ModelDirFailureRaises(t: Tools, text: string)
    requires t.makeDirsError(ModelDir) == Some(text)
    ensures Setup(t) == PipelineRun(Err(OSError(ModelDir, text)), [MakeDirs(ModelDir)])
  {
    assert SetupStages[0] == Prepare(ModelDir);
  }

  /** When the toolchain build fails, neither the conversion nor any
      quantization runs: the run is the directories, the download and the
      cmake commands, and it returns false. */
  lemma BuildFailureSkipsLaterStages(t: Tools)
    requires forall i :: 0 <= i < 3 ==> StageSucceeds(SetupStages[i], t)
    requires t.downloadSucceeds
    requires !StageSucceeds(Build, t)
    ensures Setup(t).outcome == Ok(false)
    ensures Setup(t).actions == PrepareActions + [Download(HfModelId, HfModelId, Revision)] + StageActions(Build, t)
    ensures Exec(ConvertCommand, LlamaCppDir) !in Setup(t).actions
    ensures forall a :: a in Setup(t).actions && a.Exec? ==> a.cmd[0] == "cmake"
  {
    var s := SetupStages;
    assert s[3] == Fetch && s[4] == Build;
    assert forall i :: 0 <= i < 4 ==> StageSucceeds(s[i], t);
    FirstFailureStops(s, t, 4);
    SetupHead(t);
    AllActionsSnoc(s, 4, t);
  }

  /** The full run starts with the three directories and the download. */
  lemma SetupHead(t: Tools)
    ensures AllActions(SetupStages[..4], t) == PrepareActions + [Download(HfModelId, HfModelId, Revision)]
  {
    var s := SetupStages;
    assert s[..0] == [];
    AllActionsSnoc(s, 0, t);
    AllActionsSnoc(s, 1, t);
    AllActionsSnoc(s, 2, t);
    AllActionsSnoc(s, 3, t);
    assert s[0] == Prepare(ModelDir) && s[1] == Prepare(ModelDir + "/4bit");
    assert s[2] == Prepare(ModelDir + "/8bit") && s[3] == Fetch;
  }

  /** Every run is a prefix of the full, ordered run, which creates the
      directories first and then downloads. */
  lemma SetupOrder(t: Tools)
    ensures Setup(t).actions <= AllActions(SetupStages, t)
    ensures |AllActions(SetupStages, t)| >= 4
    ensures AllActions(SetupStages, t)[..4] == PrepareActions + [Download(HfModelId, HfModelId, Revision)]
  {
    var s := SetupStages;
    RunIsPrefixOfFullRun(s, t);
    assert s == s[..4] + s[4..];
    AllActionsAppend(s[..4], s[4..], t);
    SetupHead(t);
  }

  /** The quantizer reads the file the converter writes, the converter
      reads the directory the download fills, and each quantized file is,
      seen from the process's directory, the file the model cache loads. */
  lemma PathsAgree()
    ensures ConvertCommand[5] == "--outfile" && ConvertCommand[6] == QuantizeInput
    ensures FromSubdir(LlamaCppDir, ConvertCommand[2]) == HfModelId
    ensures FromSubdir(LlamaCppDir, QuantizeOutput(Quant4Bit).value) == Model4BitPath
    ensures FromSubdir(LlamaCppDir, QuantizeOutput(Quant8Bit).value) == Model8BitPath
  {
    FromSubdirParent(LlamaCppDir, HfModelId);
    FromSubdirParent(LlamaCppDir, Model4BitPath);
    FromSubdirParent(LlamaCppDir, Model8BitPath);
  }

  /** Each quantized file, seen from the process's directory, is the file
      the model cache loads for the variant of the same bit width. */
  lemma QuantizedFilesAreLoaded()
    ensures FromSubdir(LlamaCppDir, QuantizeOutput(Quant4Bit).value) == Inference.VariantPath("4bit").value
    ensures FromSubdir(LlamaCppDir, QuantizeOutput(Quant8Bit).value) == Inference.VariantPath("8bit").value
  {
    PathsAgree();
  }

  /** The directory `quantize_model` ensures is taken from the process's
      directory, so it lies one level above the model directory the tool
      writes into; during setup the right directory was already created by
      the preparation step. */
  lemma QuantizeOutputDirectory(tag: string)
    requires tag == Quant4Bit || tag == Quant8Bit
    ensures var sub := if tag == Quant4Bit then "/4bit" else "/8bit";
      && Dirname(QuantizeOutput(tag).value) == "../" + ModelDir + sub
      && FromSubdir(LlamaCppDir, QuantizeDir(tag)) == ModelDir + sub
      && MakeDirs(ModelDir + sub) in PrepareActions
  {
    var sub := if tag == Quant4Bit then "/4bit" else "/8bit";
    QuantizeDirIsDirname(tag);
    assert QuantizeDir(tag) == "../" + (ModelDir + sub);
    FromSubdirParent(LlamaCppDir, ModelDir + sub);
    assert MakeDirs(ModelDir + sub) == PrepareActions[if tag == Quant4Bit then 1 else 2];
  }

  // ---------------------------------------------------------------------
  // The service object

  class QuantizationService {
    const llamaCppDir: string
    const quantizedDir: string

    predicate Valid() {
      llamaCppDir == LlamaCppDir && quantizedDir == ModelDir
    }

    constructor ()
      ensures Valid()
    {
      llamaCppDir := LlamaCppDir;
      quantizedDir := ModelDir;
    }

    /** `download_model`: an exception from the download becomes false. */
    method DownloadModel(host: Host) returns (ok: bool)
      modifies host
      ensures Ok(ok) == StageResult(Fetch, host.tools)
      ensures host.log == old(host.log) + StageActions(Fetch, host.tools)
    {
      var raised := host.SnapshotDownload(HfModelId, HfModelId, Revision);
      if raised {
        return false;
      }
      return true;
    }

    /** `build_llama_cpp`: configure, then build only if configuring
        succeeded. */
    method BuildLlamaCpp(host: Host) returns (ok: bool)
      requires Valid()
      modifies host
      ensures Ok(ok) == StageResult(Build, host.tools)
      ensures host.log == old(host.log) + StageActions(Build, host.tools)
    {
      var configured := host.RunCommand(ConfigureCommand, llamaCppDir);
      if !configured {
        return false;
      }
      var built := host.RunCommand(BuildCommand, llamaCppDir);
      if !built {
        return false;
      }
      return true;
    }

    /** `convert_to_gguf`. */
    method ConvertToGguf(host: Host) returns (ok: bool)
      requires Valid()
      modifies host
      ensures Ok(ok) == StageResult(Convert, host.tools)
      ensures host.log == old(host.log) + StageActions(Convert, host.tools)
    {
      ok := host.RunCommand(ConvertCommand, llamaCppDir);
    }

    /** `quantize_model(tag)`: raises `ValueError` for an unknown tag before
        touching anything, and the `OSError` of a directory it cannot
        create before running the tool. */
    method QuantizeModel(tag: string, host: Host) returns (r: Result<bool, PyError>)
      requires Valid()
      modifies host
      ensures r == StageResult(Quantize(tag), host.tools)
      ensures QuantizeOutput(tag).None? ==>
        r == Err(ValueError("Unsupported quantization type: " + tag)) && host.log == old(host.log)
      ensures host.log == old(host.log) + StageActions(Quantize(tag), host.tools)
    {
      var inputPath := "../" + ModelDir + "/Qwen3-8B_FP16.gguf";
      var outputPath: string;
      if tag == Quant4Bit {
        outputPath := "../" + ModelDir + "/4bit" + "/" + "Qwen3-8B_FP16_Q4_K_M.gguf";
      } else if tag == Quant8Bit {
        outputPath := "../" + ModelDir + "/8bit" + "/" + "Qwen3-8B_FP16_Q8_0.gguf";
      } else {
        return Err(ValueError("Unsupported quantization type: " + tag));
      }
      QuantizeDirIsDirname(tag);
      var raised := host.EnsureDirectoryExists(Dirname(outputPath));
      if raised.Some? {
        return Err(raised.value);
      }
      var ok := host.RunCommand([QuantizeTool, inputPath, outputPath, tag], llamaCppDir);
      r := Ok(ok);
    }

    /** `setup_models`: the directories, then each stage in order, returning
        false at the first stage that fails and letting an exception from
        creating a directory escape. */
    method SetupModels(host: Host) returns (r: Result<bool, PyError>)
      requires Valid()
      modifies host
      ensures r == Setup(host.tools).outcome
      ensures host.log == old(host.log) + Setup(host.tools).actions
    {
      ghost var t := host.tools;
      ghost var before := old(host.log);
      assert Logged(SetupStages, 0, t, before, host.log);
      ghost var prev := host.log;

      var raised := host.EnsureDirectoryExists(quantizedDir);
      RunStep(SetupStages, t, 0, if raised.Some? then Err(raised.value) else Ok(true), before, prev, host.log);
      prev := host.log;
      if raised.Some? {
        SetupEnds(t, Err(raised.value), before, host.log);
        return Err(raised.value);
      }
      raised := host.EnsureDirectoryExists(quantizedDir + "/4bit");
      RunStep(SetupStages, t, 1, if raised.Some? then Err(raised.value) else Ok(true), before, prev, host.log);
      prev := host.log;
      if raised.Some? {
        SetupEnds(t, Err(raised.value), before, host.log);
        return Err(raised.value);
      }
      raised := host.EnsureDirectoryExists(quantizedDir + "/8bit");
      RunStep(SetupStages, t, 2, if raised.Some? then Err(raised.value) else Ok(true), before, prev, host.log);
      prev := host.log;
      if raised.Some? {
        SetupEnds(t, Err(raised.value), before, host.log);
        return Err(raised.value);
      }

      var ok := DownloadModel(host);
      RunStep(SetupStages, t, 3, Ok(ok), before, prev, host.log);
      prev := host.log;
      if !ok {
        SetupEnds(t, Ok(false), before, host.log);
        return Ok(false);
      }
      ok := BuildLlamaCpp(host);
      RunStep(SetupStages, t, 4, Ok(ok), before, prev, host.log);
      prev := host.log;
      if !ok {
        SetupEnds(t, Ok(false), before, host.log);
        return Ok(false);
      }
      ok := ConvertToGguf(host);
      RunStep(SetupStages, t, 5, Ok(ok), before, prev, host.log);
      prev := host.log;
      if !ok {
        SetupEnds(t, Ok(false), before, host.log);
        return Ok(false);
      }
      r := QuantizeModel(Quant4Bit, host);
      RunStep(SetupStages, t, 6, r, before, prev, host.log);
      prev := host.log;
      if r != Ok(true) {
        SetupEnds(t, r, before, host.log);
        return r;
      }
      r := QuantizeModel(Quant8Bit, host);
      RunStep(SetupStages, t, 7, r, before, prev, host.log);
      if r != Ok(true) {
        SetupEnds(t, r, before, host.log);
        return r;
      }
      RunComplete(SetupStages, t, 8, before, host.log);
      SetupEnds(t, Ok(true), before, host.log);
    }
  }

  /** The first k steps all succeed. */
  predicate Passed(stages: seq<Stage>, k: nat, t: Tools)
    requires k <= |stages|
  {
    forall i :: 0 <= i < k ==> StageSucceeds(stages[i], t)
  }

  /** The log holds what was there before, then the first k steps. */
  predicate Logged(stages: seq<Stage>, k: nat, t: Tools, before: seq<Action>, log: seq<Action>)
    requires k <= |stages|
  {
    log == before + AllActions(stages[..k], t)
  }

  /** One step of a fail-fast run: when the log held the steps before k
      and then step k ran, it holds the steps up to k; if step k did not
      return true, that is the whole run. */
  lemma RunStep(stages: seq<Stage>, t: Tools, k: nat, res: Result<bool, PyError>,
                before: seq<Action>, prev: seq<Action>, log: seq<Action>)
    requires k < |stages|
    requires Passed(stages, k, t)
    requires res == StageResult(stages[k], t)
    requires Logged(stages, k, t, before, prev)
    requires log == prev + StageActions(stages[k], t)
    ensures Logged(stages, k + 1, t, before, log)
    ensures res != Ok(true) ==> RunStages(stages, t).outcome == res && log == before + RunStages(stages, t).actions
    ensures res == Ok(true) ==> Passed(stages, k + 1, t)
  {
    AllActionsSnoc(stages, k, t);
    assert log == before + (AllActions(stages[..k], t) + StageActions(stages[k], t));
    if res != Ok(true) {
      FirstFailureStops(stages, t, k);
    } else {
      forall i | 0 <= i < k + 1
        ensures StageSucceeds(stages[i], t)
      {
        if i < k {
          assert Passed(stages, k, t);
        }
      }
    }
  }

  /** When every step has run and succeeded, the run returns true and the
      log holds exactly its actions. */
  lemma RunComplete(stages: seq<Stage>, t: Tools, k: nat, before: seq<Action>, log: seq<Action>)
    requires k == |stages|
    requires Passed(stages, k, t)
    requires Logged(stages, k, t, before, log)
    ensures RunStages(stages, t).outcome == Ok(true)
    ensures log == before + RunStages(stages, t).actions
  {
    assert stages[..|stages|] == stages;
  }

  /** A run of the setup steps is what `setup_models` returns and does. */
  lemma SetupEnds(t: Tools, res: Result<bool, PyError>, before: seq<Action>, log: seq<Action>)
    requires RunStages(SetupStages, t).outcome == res
    requires log == before + RunStages(SetupStages, t).actions
    ensures res == Setup(t).outcome && log == before + Setup(t).actions
  {
  }
}
