/**
 * The credit-aware model picker (`components/ai-integration/ai-model-selector.tsx`):
 * five models, each costing some credits per request; an item can be chosen
 * only when the available credits cover its cost.
 */
module AiModelSelector {
  import opened Wrappers
  import opened Text
  import opened Lists
  import opened ModelSelector

  datatype AiModel = AiModel(
    id: string, name: string, description: string, tier: Tier, speed: Speed, quality: Quality,
    credits: nat, capabilities: seq<string>)

  const AiModels: seq<AiModel> := [
    AiModel("vizcode-1-free", "VizCode 1 Free", "Fast and efficient for basic UI components",
      FreeTier, Fast, MediumQuality, 1, ["Basic UI components", "Simple layouts", "Standard styling"]),
    AiModel("vizcode-1.5-booster", "VizCode 1.5 Booster", "Enhanced model with better UI generation capabilities",
      ProTier, Medium, High, 3, ["Advanced UI components", "Complex layouts", "Custom animations", "Responsive design"]),
    AiModel("chatgpt-4", "ChatGPT 4", "Most capable model for complex UI generation",
      ProTier, Medium, High, 5, ["Advanced UI components", "Complex layouts", "Custom animations", "Responsive design",
        "Accessibility features"]),
    AiModel("claude-4-opus", "Claude 4 Opus", "Premium model for sophisticated UI designs",
      EnterpriseTier, Slow, High, 8, ["Advanced UI components", "Complex layouts", "Custom animations", "Responsive design",
        "Accessibility features", "Advanced interactions", "State management"]),
    AiModel("claude-3.5-sonnet", "Claude 3.5 Sonnet", "Excellent for detailed UI specifications",
      ProTier, Medium, High, 4, ["Advanced UI components", "Complex layouts", "Custom animations", "Responsive design",
        "Accessibility features"])
  ]

  /** The ids are distinct, the free model is the cheapest, and none costs more than 8 credits. */
  lemma CatalogueShape()
    ensures forall i, j :: 0 <= i < j < |AiModels| ==> AiModels[i].id != AiModels[j].id
    ensures forall i :: 0 <= i < |AiModels| ==> AiModels[0].credits <= AiModels[i].credits <= 8
    ensures forall i :: 0 <= i < |AiModels| ==> (AiModels[i].tier == FreeTier <==> i == 0)
  {
  }

  /** `currentModel`: the model with the selected id, or the first model when there is none. */
  function CurrentModel(selected: string): (m: AiModel)
    ensures m in AiModels
    ensures (exists i :: 0 <= i < |AiModels| && AiModels[i].id == selected) ==> m.id == selected
    ensures (forall i :: 0 <= i < |AiModels| ==> AiModels[i].id != selected) ==> m == AiModels[0]
  {
    Find(AiModels, (x: AiModel) => x.id == selected).GetOr(AiModels[0])
  }

  /** `canUseModel` */
  predicate CanUseModel(availableCredits: int, m: AiModel) {
    availableCredits >= m.credits
  }

  /** More credits never make a model unusable; fewer never make one usable. */
  lemma CanUseMonotone(a: int, b: int, m: AiModel)
    requires a <= b
    ensures CanUseModel(a, m) ==> CanUseModel(b, m)
  {
  }

  /** A menu item's click: `Some(id)` is the model asked for, `None` when credits are short. */
  function HandleClick(availableCredits: int, m: AiModel): (chosen: Option<string>)
    ensures chosen.Some? <==> CanUseModel(availableCredits, m)
    ensures chosen.Some? ==> chosen.value == m.id
  {
    if CanUseModel(availableCredits, m) then Some(m.id) else None
  }

  /** An accepted click makes the chosen model the one shown, and it is affordable. */
  lemma ClickShown(availableCredits: int, k: nat)
    requires k < |AiModels|
    ensures var c := HandleClick(availableCredits, AiModels[k]);
      c.Some? ==> CurrentModel(c.value) == AiModels[k] && CanUseModel(availableCredits, CurrentModel(c.value))
  {
    CatalogueShape();
  }

  /** The "Insufficient credits" badge is shown exactly on the items a click would not select. */
  function InsufficientBadge(availableCredits: int, m: AiModel): (r: bool)
    ensures r <==> HandleClick(availableCredits, m).None?
  {
    !CanUseModel(availableCredits, m)
  }

  /** The item of the selected model carries the Selected badge. */
  predicate SelectedBadge(m: AiModel, selected: string) {
    m.id == selected
  }

  /** At most one item is badged Selected. */
  lemma SelectedBadgeUnique(selected: string)
    ensures forall i, j ::
      (0 <= i < |AiModels| && 0 <= j < |AiModels| &&
       SelectedBadge(AiModels[i], selected) && SelectedBadge(AiModels[j], selected)) ==> i == j
  {
    CatalogueShape();
  }

  /** The cost badge, e.g. `3c`. */
  function CostBadge(m: AiModel): (s: string)
    ensures |s| >= 2 && s[|s| - 1] == 'c' && s[..|s| - 1] == NatToString(m.credits)
  {
    NatToString(m.credits) + "c"
  }

  /** The models a given balance can pay for, in menu order. */
  function Affordable(availableCredits: int): (r: seq<AiModel>)
    ensures Sublist(r, AiModels)
    ensures forall i :: 0 <= i < |r| ==> CanUseModel(availableCredits, r[i])
    ensures forall i :: 0 <= i < |AiModels| && CanUseModel(availableCredits, AiModels[i]) ==> AiModels[i] in r
  {
    Filter(AiModels, (m: AiModel) => CanUseModel(availableCredits, m))
  }

  /** With no credits nothing can be chosen; with one credit the free model can; with eight, every model. */
  lemma AffordableBounds(availableCredits: int)
    ensures availableCredits < 1 ==> Affordable(availableCredits) == []
    ensures availableCredits >= 1 ==> AiModels[0] in Affordable(availableCredits)
    ensures availableCredits >= 8 ==> Affordable(availableCredits) == AiModels
  {
    CatalogueShape();
    if availableCredits >= 8 {
      FilterAll(AiModels, (m: AiModel) => CanUseModel(availableCredits, m));
    }
    if availableCredits < 1 {
      NoneAffordable(AiModels, availableCredits);
    }
  }

  lemma {:induction false} NoneAffordable(ms: seq<AiModel>, availableCredits: int)
    requires forall i :: 0 <= i < |ms| ==> !CanUseModel(availableCredits, ms[i])
    ensures Filter(ms, (m: AiModel) => CanUseModel(availableCredits, m)) == []
  {
    if ms != [] {
      NoneAffordable(ms[1..], availableCredits);
    }
  }
}
