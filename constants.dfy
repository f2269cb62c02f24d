/** The on-disk layout, the quantization tags and the inference defaults
    shared by the model cache and the setup pipeline. */
module Constants {

  const ModelDir: string := "llm_models"
  const Model4BitPath: string := ModelDir + "/4bit" + "/" + "Qwen3-8B_FP16_Q4_K_M.gguf"
  const Model8BitPath: string := ModelDir + "/8bit" + "/" + "Qwen3-8B_FP16_Q8_0.gguf"
  const HfModelId: string := "Qwen/Qwen3-8B"

  const DefaultMaxTokens: int := 5000
  const DefaultTemperature: real := 0.2
  const DefaultTopP: real := 0.9

  const DefaultThreads: int := 48
  const DefaultBatchSize: int := 512
  const DefaultContextSize: int := 4096

  const Quant4Bit: string := "Q4_K_M"
  const Quant8Bit: string := "Q8_0"

  /** Prefixing a path built from parts prefixes its first part. */
  lemma PrefixParts(prefix: string, a: string, b: string, c: string, d: string)
    ensures prefix + a + b + c + d == prefix + (a + b + c + d)
  {
  }

  predicate StartsWith(s: string, prefix: string) {
    |prefix| <= |s| && s[..|prefix|] == prefix
  }

  predicate EndsWith(s: string, suffix: string) {
    |suffix| <= |s| && s[|s| - |suffix|..] == suffix
  }

  /** Each variant's artifact lives in its own sub-directory of the model
      directory, and its file name ends with its quantization tag. */
  lemma VariantLayout()
    ensures StartsWith(Model4BitPath, ModelDir + "/4bit/")
    ensures StartsWith(Model8BitPath, ModelDir + "/8bit/")
    ensures EndsWith(Model4BitPath, Quant4Bit + ".gguf")
    ensures EndsWith(Model8BitPath, Quant8Bit + ".gguf")
  {
    assert Model4BitPath == (ModelDir + "/4bit/") + ("Qwen3-8B_FP16_" + (Quant4Bit + ".gguf"));
    assert Model8BitPath == (ModelDir + "/8bit/") + ("Qwen3-8B_FP16_" + (Quant8Bit + ".gguf"));
  }

  /** The two variants never share a file, and the two tags differ. */
  lemma VariantsDistinct()
    ensures Model4BitPath != Model8BitPath
    ensures Quant4Bit != Quant8Bit
  {
    assert Model4BitPath[|ModelDir| + 1] == '4';
    assert Model8BitPath[|ModelDir| + 1] == '8';
  }

  /** The fixed execution profile every model handle is built with is
      usable: a positive thread count, and a positive batch that fits in
      the positive context window. */
  lemma ProfilePositive()
    ensures DefaultThreads > 0 && DefaultBatchSize > 0 && DefaultContextSize > 0
    ensures DefaultBatchSize <= DefaultContextSize
  {
  }
}
