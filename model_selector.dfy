/**
 * The basic model picker (`components/ai-model-selector.tsx`): four models, the
 * selected one shown on the trigger (the first when the id is unknown), and
 * every item selectable.
 */
module ModelSelector {
  import opened Wrappers
  import opened Lists

  datatype Tier = FreeTier | ProTier | EnterpriseTier {
    function Name(): string {
      match this
      case FreeTier => "free"
      case ProTier => "pro"
      case EnterpriseTier => "enterprise"
    }
  }

  datatype Speed = Fast | Medium | Slow
  datatype Quality = High | MediumQuality | Low

  datatype BasicModel = BasicModel(id: string, name: string, description: string, tier: Tier, speed: Speed, quality: Quality)

  const BasicModels: seq<BasicModel> := [
    BasicModel("gpt-4", "GPT-4", "Most capable model for complex UI generation", ProTier, Medium, High),
    BasicModel("gpt-3.5-turbo", "GPT-3.5 Turbo", "Fast and efficient for standard UI components", FreeTier, Fast, MediumQuality),
    BasicModel("claude-3", "Claude 3", "Excellent for detailed UI specifications", ProTier, Medium, High),
    BasicModel("gemini-pro", "Gemini Pro", "Google's advanced model for UI generation", EnterpriseTier, Slow, High)
  ]

  /** The ids are distinct, so at most one item carries the Selected badge. */
  lemma BasicIdsDistinct()
    ensures forall i, j :: 0 <= i < j < |BasicModels| ==> BasicModels[i].id != BasicModels[j].id
  {
  }

  /** `currentModel`: the model with the selected id, or the first model when there is none. */
  function CurrentBasicModel(selected: string): (m: BasicModel)
    ensures m in BasicModels
    ensures (exists i :: 0 <= i < |BasicModels| && BasicModels[i].id == selected) ==> m.id == selected
    ensures (forall i :: 0 <= i < |BasicModels| ==> BasicModels[i].id != selected) ==> m == BasicModels[0]
  {
    Find(BasicModels, (x: BasicModel) => x.id == selected).GetOr(BasicModels[0])
  }

  /** Clicking a menu item always asks for that model. */
  function BasicClick(m: BasicModel): (chosen: string)
    ensures m in BasicModels ==> CurrentBasicModel(chosen) == m
  {
    BasicIdsDistinct();
    m.id
  }

  /** The item of the selected model, and only it, carries the Selected badge. */
  predicate BasicSelectedBadge(m: BasicModel, selected: string) {
    m.id == selected
  }

  /** Choosing an item makes it the one the trigger shows and the only one badged Selected. */
  lemma BasicChoiceShown(k: nat)
    requires k < |BasicModels|
    ensures CurrentBasicModel(BasicClick(BasicModels[k])) == BasicModels[k]
    ensures forall i :: 0 <= i < |BasicModels| ==>
      (BasicSelectedBadge(BasicModels[i], BasicClick(BasicModels[k])) <==> i == k)
  {
    BasicIdsDistinct();
  }
}
