# Quantized model service — a Dafny model of its core

The service answers financial-analysis requests with a locally hosted
large language model. The model comes in two variants, "4bit" and "8bit". Each
variant is a GGUF file produced offline by a setup pipeline. This project
models the parts of the service that hold its logic:

- **The model service** (`ModelService`). It keeps a cache from variant name
  to an optional model handle. It loads a variant's file on demand and
  reports success or failure as a status string. It answers a generation
  request on the cached handle, with metrics: the whitespace-delimited word
  count of the answer and tokens per second. It describes a variant in the
  service's JSON response envelope. Each operation is a pure specification
  function on the cache (`Load`, `Generate`, `Info`). A class `ModelService`
  holds the cache in a mutable field. Its methods follow the code's
  branches and are proved equal to those functions.
- **The setup pipeline** (`QuantizationService`). It creates the model
  directories, downloads the source model, configures and builds the
  quantization toolchain, converts the model to GGUF, then quantizes it to
  each tag. It stops at the first stage that fails. The outside world is a
  `Host` object that logs every directory creation, download and command it
  is asked for. The pipeline's methods are proved against the stage-level
  specification `RunStages`/`Setup`: the returned flag and the exact log.
- **The response envelope** (`ResponseCommon`) and its two serialisations.
- **The shared constants**: paths, the model id, the inference defaults and
  the quantization tags.

Two small libraries support these:

- `PyText` gives Python's `str.split()` and `str.isspace()`, used to count
  tokens.
- `PosixPath` gives `os.path.dirname` and resolves a `../` path relative to
  the toolchain directory. `PosixPath.FromSubdir` is the one assumption the
  model makes about how the operating system resolves paths: a relative path
  used inside a sub-directory of the process's directory names that
  sub-directory joined with the path, with a leading "../" cancelling the
  sub-directory. `Quantization.PathsAgree` and
  `Quantization.QuantizeOutputDirectory` rest on it.

External effects are parameters:

- The file system and the model constructor are a `Disk` value: whether a
  path exists, and what constructing a model from a path does.
- The chat-completion call is a `Completion` function.
- The elapsed wall-clock time is a `real` argument.
- A `Tools` value decides whether each directory can be created, and if not
  the text of the `OSError` raised. It also decides whether the download and
  each command succeed.

Modelling decisions that follow the code:

- The cache has no `Loading` or `Failed` state and no locking. An entry is
  a handle or `None`, and a failed load leaves the entry as it was; a
  constructor that returns nothing is the one case that stores `None`.
- Generation has no validation-error path. The payload is serialised with
  `json.dumps` and parsed straight back, which cannot fail. An unknown
  variant surfaces as `KeyError`, and an empty entry after a load as
  `RuntimeError`.
- Describing a variant that is already loaded does not report it. It
  answers 500, because the `message` local is never bound; see "## Findings".
- The tokens-per-second guard tests the unrounded elapsed time, not the
  rounded one.
- Pipeline failures are a `False` return, not an error carrying the stage
  name. The one exception that escapes setup is the `OSError` of a directory
  that cannot be created. Nothing in `setup_models` or `quantize_model`
  catches it.

## Model

| member | source | states |
|---|---|---|
| Constants.VariantLayout | app/common/constants.py:4-21 | each variant's file lies in its own sub-directory of the model directory, and its name ends with its quantization tag and ".gguf" |
| Constants.VariantsDistinct | app/common/constants.py:5-21 | the two variant files differ, and the two quantization tags differ |
| Constants.ProfilePositive | app/common/constants.py:15-17 | the thread count, batch size and context size are positive, and a batch fits in the context |
| Exceptions.Str | app/service/model_service.py:121-127 | `str(e)` of a `KeyError` is the key in single quotes, which is the text the 500 envelope carries; an `OSError` prints its own text |
| Response.ToJson | app/common/response_common.py:12-24 | exactly the keys code, success, message and response, holding the constructor's four arguments |
| Response.ToJsonData | app/common/response_common.py:26-36 | exactly the keys message and response, each with the value `to_json` gives it |
| Response.ToJsonRoundTrip | app/common/response_common.py:5-24 | the envelope reads back as the object that produced it |
| Response.ToJsonInjective | app/common/response_common.py:12-24 | distinct envelopes serialise to distinct dictionaries |
| Response.FromJson | app/common/response_common.py:12-24 | has no counterpart in the source: it reads an envelope back from a dictionary, and is the reader the round-trip lemma uses; it reads something only from a dictionary that holds the four envelope keys |
| PyText.Split | app/service/model_service.py:81 | `str.split()` gives only non-empty whitespace-free words, and their concatenation is the input without its whitespace |
| PyText.IsSpace | app/service/model_service.py:81 | the characters `str.isspace()` accepts and `str.split()` separates on; a definition, with no contract of its own |
| PyText.WordCount | app/service/model_service.py:81 | `len(s.split())` is zero exactly when the text is empty or all whitespace, and never more than the number of non-whitespace characters |
| PyText.SplitAtSpace | app/service/model_service.py:81 | a whitespace character only separates: splitting around it is splitting each side |
| PyText.SplitWord | app/service/model_service.py:81 | a single word splits to itself |
| PyText.SplitJoin | app/service/model_service.py:81 | splitting words joined by spaces gives back exactly those words |
| PosixPath.Dirname | app/service/quantization_service.py:68 | `os.path.dirname` gives a prefix of the path, and the empty string when there is no '/' |
| PosixPath.DirnameOfChild | app/service/quantization_service.py:68 | the directory of `dir + "/" + name` is `dir` |
| PosixPath.FromSubdirParent | app/service/quantization_service.py:45-52 | a "../" path used inside the toolchain directory names the path after "../" |
| Inference.VariantPath | app/service/model_service.py:25-30 | a path exists exactly for the two known variants: `MODEL_4BIT_PATH` for "4bit" and `MODEL_8BIT_PATH` for "8bit", each inside the model directory under the variant's name |
| Inference.Load | app/service/model_service.py:22-41 | the status string and new cache for each outcome (unknown variant, missing file, constructor raising, returning nothing, returning a model); only the requested entry changes; a handle always carries the fixed thread count |
| Inference.ModelService.constructor | app/service/model_service.py:15-20 | the cache starts with both variants unloaded |
| Inference.ModelService.LoadModel | app/service/model_service.py:22-41 | the new cache and the returned status are those of `Load`, and the cache still holds exactly the two variants, each built with the fixed profile |
| Inference.InferenceResultJson | app/service/model_service.py:83-89 | the result dictionary has exactly the five keys; it echoes the text, the elapsed time and the variant and holds the word count; tokens per second is the integer 0 when no time has passed, and the computed rate otherwise |
| Inference.Throughput | app/service/model_service.py:87 | zero when no time has passed; otherwise a rate that, multiplied by the time, gives the token count; never negative |
| Inference.Metrics | app/service/model_service.py:80-89 | the token count is the number of words of the answer, zero exactly for a blank answer; the rate is words over time when time has passed and zero otherwise; the text, the elapsed time and the variant are echoed |
| Inference.Generate | app/service/model_service.py:43-91 | a cached handle is reused without reloading; otherwise the cache becomes `Load`'s; an unknown variant raises `KeyError`, an empty entry `RuntimeError("Model 't' is not loaded.")`; the completion runs on the cached handle and its failure propagates unchanged; on success the result is the `Metrics` record, which `InferenceResultJson` turns into the returned dictionary |
| Inference.ModelService.GenerateResponse | app/service/model_service.py:43-91 | the new cache and the result (or the exception raised) are those of `Generate` |
| Inference.InfoData | app/service/model_service.py:108-113 | exactly the keys model_path, threads and model_type: for a known variant the path is the file `load_model` loads for it, with the handle's thread count and the variant |
| Inference.Info | app/service/model_service.py:93-127 | success exactly when the code is 200; a cached variant answers 500 with the unbound-local text; an unknown one answers 500 with the `KeyError` text; a load that leaves the entry empty answers 404 with the load's message; a load that succeeds answers 200 with the file it loaded and 48 threads |
| Inference.ModelService.GetModelInfo | app/service/model_service.py:93-127 | the new cache and the envelope are those of `Info` |
| Inference.LoadKeepsVariantKeys | app/service/model_service.py:17-41 | loading never adds or removes a key of a cache holding exactly the two variants |
| Inference.GenerateReusesHandle | app/service/model_service.py:52-54 | after a successful request, later requests for the variant use the same handle, never reload and do not look at the disk |
| Inference.UnknownVariantTouchesNothing | app/service/model_service.py:52-56 | an unknown variant raises `KeyError` whatever the disk holds, and the cache does not change; describing it answers 500 |
| Inference.RetryAfterFailure | app/service/model_service.py:32-41 | a missing file or a raising constructor leaves the variant unloaded, and a later load with the file present loads it |
| Inference.InfoTwiceAnswers500 | app/service/model_service.py:97-119 | as written, a describe that answered 200 is followed by one that answers 500 |
| Inference.InfoIntended | app/service/model_service.py:97-119 | corrected describe: a cached handle is reported with 200, its data and the load message; otherwise as written |
| Inference.InfoIntendedIdempotent | app/service/model_service.py:97-119 | with the correction, a second describe changes nothing and returns the same envelope |
| Quantization.MakeDirsRaises | app/common/helpers.py:7-9 | `os.makedirs(path, exist_ok=True)` raises nothing, or an `OSError` for that path; a definition, with no contract of its own |
| Quantization.Host.EnsureDirectoryExists | app/common/helpers.py:7-9 | one directory creation is appended to the log, and the call reports the `OSError` it raises, if any |
| Quantization.Host.SnapshotDownload | app/service/quantization_service.py:18-22 | one download of the model id into the directory of the same name at revision "main" is logged; it raises exactly when the download fails |
| Quantization.Host.RunCommand | app/common/helpers.py:11-21 | one command in its working directory is logged; true exactly when it succeeds |
| Quantization.QuantizeOutput | app/service/quantization_service.py:58-65 | an output exists exactly for the two tags, and it is the cache's file for that variant, prefixed with "../" |
| Quantization.QuantizeCommand | app/service/quantization_service.py:70-75 | the quantizer command: the tool, the converted input, the output path and the tag; a definition, with no contract of its own |
| Quantization.StageActions | app/service/quantization_service.py:14-77 | what each step does to the outside world: one directory creation; one download; configure, then build only if configuring succeeded; one conversion; for a known tag a directory creation, then the quantizer only if the directory exists, and nothing for an unknown tag; a definition, with no contract of its own |
| Quantization.StageResult | app/service/quantization_service.py:14-77 | what each step returns or raises: a directory step raises its `OSError`; download, build and conversion return their success; a quantization raises `ValueError` for an unknown tag and `OSError` for a directory it cannot create, and otherwise returns the quantizer's success; a definition, with no contract of its own |
| Quantization.StageSucceeds | app/service/quantization_service.py:79-104 | a step lets setup go on exactly when it returns true; a definition, with no contract of its own |
| Quantization.QuantizeDirIsDirname | app/service/quantization_service.py:67-68 | `os.path.dirname` of each output is "../llm_models/4bit" or "../llm_models/8bit" |
| Quantization.RunStages | app/service/quantization_service.py:82-107 | a fail-fast run returns true exactly when every step does, and has then done every step's actions |
| Quantization.Setup | app/service/quantization_service.py:79-107 | every setup run starts by creating the model directory |
| Quantization.RunIsPrefixOfFullRun | app/service/quantization_service.py:86-104 | whatever fails, a run does a prefix of what a fully successful run does |
| Quantization.FirstFailureStops | app/service/quantization_service.py:82-104 | at the first step that does not return true, the run returns or raises what that step did, and it has done exactly the steps up to and including that one |
| Quantization.RunFailsAsAStep | app/service/quantization_service.py:82-104 | a run that does not return true returns or raises exactly what one of its steps did |
| Quantization.SetupSucceedsIff | app/service/quantization_service.py:79-107 | setup returns true exactly when the three directories can be created, the download, both build commands and the conversion succeed, and each quantization's directory can be created and its command succeeds |
| Quantization.SetupRaisesOnlyOSError | app/service/quantization_service.py:54-84 | setup asks only for the two known tags, so `ValueError` never escapes it; the only exception it raises is the `OSError` of a directory it could not create |
| Quantization.ModelDirFailureRaises | app/service/quantization_service.py:82 | when the model directory cannot be created, setup raises that `OSError` and does nothing else |
| Quantization.BuildFailureSkipsLaterStages | app/service/quantization_service.py:28-39 | when the directories and the download succeed and the toolchain build fails, setup returns false after the directories, the download and the build commands, with no conversion and only cmake commands run |
| Quantization.SetupHead | app/service/quantization_service.py:81-88 | the first four steps are the three directory creations, then the download |
| Quantization.SetupOrder | app/service/quantization_service.py:81-88 | whatever fails, setup does a prefix of the full run, which creates the three directories and then downloads; it never reorders steps |
| Quantization.PathsAgree | app/service/quantization_service.py:45-63 | the quantizer reads the file the converter writes; the converter reads the download directory; each quantized file is the file the model cache loads |
| Quantization.QuantizedFilesAreLoaded | app/service/quantization_service.py:58-63 | each quantized file, seen from the process's directory, is the file `load_model` loads for the variant of the same bit width (app/service/model_service.py:25-28) |
| Quantization.QuantizeOutputDirectory | app/service/quantization_service.py:58-68 | the directory `quantize_model` creates is "../llm_models/4bit" or "../llm_models/8bit", one level above the process's directory; the tool writes into "llm_models/4bit" or "llm_models/8bit", which setup has already created |
| Quantization.QuantizationService.constructor | app/service/quantization_service.py:10-12 | the toolchain directory is "llama.cpp" and the output directory is the model directory |
| Quantization.QuantizationService.DownloadModel | app/service/quantization_service.py:14-26 | returns false exactly when the download raises; one download is logged |
| Quantization.QuantizationService.BuildLlamaCpp | app/service/quantization_service.py:28-39 | runs the configure command, and the build command only if configuring succeeded; true exactly when both succeed |
| Quantization.QuantizationService.ConvertToGguf | app/service/quantization_service.py:41-52 | runs the converter in the toolchain directory and returns its success |
| Quantization.QuantizationService.QuantizeModel | app/service/quantization_service.py:54-77 | an unknown tag raises `ValueError("Unsupported quantization type: " + tag)` and logs nothing; a known tag creates the output directory, raising its `OSError` if that fails, then runs the quantizer and returns its success |
| Quantization.QuantizationService.SetupModels | app/service/quantization_service.py:79-107 | the returned flag, or the exception raised, and the whole log are those of `Setup`: the directories, then the stages in order up to the first failure |

## Left out

- Logging and `print`: not modelled; they do not affect any result.
- Rounding `round(x, 2)` of the processing time and of tokens per second is not modelled. The model reports the unrounded reals.
- Floating-point arithmetic is modelled as exact `real` arithmetic.
- Prompt construction (`create_financial_prompt`), the system message and the `json.dumps`/`json.loads` round trip of the payload are not modelled. The completion oracle receives the payload itself.
- Temperature and top-p are fixed by the code; the model keeps them as `Constants.DefaultTemperature` and `Constants.DefaultTopP` and does not pass them to the completion oracle.
- The model constructor's other settings are not modelled: context size, batch size, memory locking and mapping. Only the thread count is modelled, because describe reports it.
- Exceptions raised while the cache is used are not modelled apart from those the code raises itself. A file that vanishes between the existence check and the constructor is modelled only as the constructor raising.
- The "constructor returns nothing" outcome is kept although the library's constructor never returns `None`, because the code handles it.
- `Exceptions.Str`: does not model `repr` escaping of a key that contains quotes or backslashes.
- `Exceptions.Str`: gives the `UnboundLocalError` text in the wording of CPython 3.11 and later. Earlier versions print "local variable 'message' referenced before assignment".
- The default arguments (`model_type="4bit"` on `load_model`, `generate_response` and `get_model_info`, and `max_tokens=500` on `generate_response`) are not modelled: every argument is passed explicitly, as every caller in the source does (app/controller/model_controller.py:44-48, 100).
- The web controller, the request client, the integration test and the main entry point are not part of this model.
- Concurrency is not modelled. The server runs threaded (app/main.py:26), so requests can overlap, and nothing locks the cache. The model handles requests one at a time.
- `run_command`, `ensure_directory_exists` and `snapshot_download` are modelled as logged calls. The `Tools` value decides whether each succeeds, and for a directory the text of the `OSError` raised. Their output, process exit codes and file-system effects are not modelled.

## Findings

| source | as written | input that shows it | evidently intended | confidence | as-written member | corrected member |
|---|---|---|---|---|---|---|
| app/service/model_service.py:97-119 | `message` is bound only when the variant was not yet loaded. For a cached variant, building the 200 envelope raises `UnboundLocalError`, and the handler answers 500 | `get_model_info("4bit")` twice with the 4-bit file present and loadable: the first call answers 200, the second 500 | a cached variant is described with 200, its path, threads and variant | not executed | Inference.InfoTwiceAnswers500 | Inference.InfoIntended |
