/** The model registry: three named model profiles and the fallback to `primary`. */
module Profiles {

  datatype CostTier = VeryLow | Low | Medium

  datatype ModelProfile = ModelProfile(name: string, maxTokens: nat, temperature: real, cost: CostTier)

  const Primary := ModelProfile("anthropic/claude-3.5-sonnet", 1000, 0.3, Medium)
  const Backup := ModelProfile("openai/gpt-4o", 1000, 0.3, Low)
  const Budget := ModelProfile("anthropic/claude-3-haiku", 800, 0.2, VeryLow)

  /** MODEL_CONFIG: read-only, keyed by profile name. */
  const ModelConfig: map<string, ModelProfile> := map["primary" := Primary, "backup" := Backup, "budget" := Budget]

  /** `MODEL_CONFIG[key] || MODEL_CONFIG.primary`: never fails. */
  function Lookup(key: string): (p: ModelProfile)
    ensures key in ModelConfig ==> p == ModelConfig[key]
    ensures key !in ModelConfig ==> p == Primary
    ensures p in ModelConfig.Values
  {
    if key in ModelConfig then ModelConfig[key] else ModelConfig["primary"]
  }

  /** The three keys name three different models, so the model name reported in a
      response identifies the profile that was used. */
  lemma ProfileNamesIdentifyKeys(k1: string, k2: string)
    requires k1 in ModelConfig && k2 in ModelConfig
    requires Lookup(k1).name == Lookup(k2).name
    ensures k1 == k2
  {
    assert Primary.name[0] != Backup.name[0];
    assert Primary.name[18] != Budget.name[18];
    assert Backup.name[0] != Budget.name[0];
  }

  /** Any key other than the three resolves to the same profile as "primary". */
  lemma UnknownKeyIsPrimary(key: string)
    requires key != "primary" && key != "backup" && key != "budget"
    ensures Lookup(key) == Lookup("primary")
  {
  }
}
