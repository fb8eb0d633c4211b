/**
 * The project history sheet (`components/project-history.tsx`): earlier
 * generations with a shortened prompt, and Restore / Delete buttons that hand
 * the item (or its id) to the page.
 */
module ProjectHistory {
  import opened Wrappers
  import opened Text

  datatype HistoryItem = HistoryItem(id: string, prompt: string, model: string, timestamp: int, code: string, preview: Option<string>)

  /** `truncatePrompt`'s default `maxLength`. */
  const DefaultMaxLength: nat := 100

  /** `truncatePrompt`: a prompt longer than `maxLength` is cut there and gets an ellipsis. */
  function TruncatePrompt(prompt: string, maxLength: nat := DefaultMaxLength): (r: string)
    ensures |prompt| <= maxLength ==> r == prompt
    ensures |prompt| > maxLength ==> |r| == maxLength + 3 && r == prompt[..maxLength] + "..."
  {
    if |prompt| > maxLength then Substring(prompt, 0, maxLength) + "..." else prompt
  }

  /**
   * A shortened prompt starts with the prompt's opening, is never more than
   * three characters longer than the limit, and two prompts that fit the limit
   * are told apart.
   */
  lemma TruncateProperties(p: string, q: string, maxLength: nat)
    ensures TruncatePrompt(p, maxLength)[..Min(|p|, maxLength)] == p[..Min(|p|, maxLength)]
    ensures |TruncatePrompt(p, maxLength)| <= maxLength + 3
    ensures |p| <= maxLength && |q| <= maxLength && TruncatePrompt(p, maxLength) == TruncatePrompt(q, maxLength) ==> p == q
  {
  }

  /** What a button press hands to the page. */
  datatype HistoryAction = Restore(item: HistoryItem) | Delete(id: string)

  /** The empty-list message. */
  function EmptyText(history: seq<HistoryItem>): (r: Option<string>)
    ensures r.Some? <==> |history| == 0
    ensures r.Some? ==> r.value == "No project history yet"
  {
    if |history| == 0 then Some("No project history yet") else None
  }

  /** Every entry but the last is followed by a separator. */
  predicate SeparatorAfter(index: nat, count: nat) {
    index < count - 1
  }

  lemma OnlyLastHasNoSeparator(index: nat, count: nat)
    requires index < count
    ensures !SeparatorAfter(index, count) <==> index == count - 1
  {
  }

  /** The sheet's open state; the history and the callbacks are the page's. */
  class Sheet {
    var open: bool

    constructor ()
      ensures !open
    {
      open := false;
    }

    method SetOpen(o: bool)
      modifies this`open
      ensures open == o
    {
      open := o;
    }

    /** Restore: the page restores the item, and the sheet closes. */
    method PressRestore(item: HistoryItem) returns (action: HistoryAction)
      modifies this`open
      ensures action == Restore(item) && !open
    {
      action := Restore(item);
      open := false;
    }

    /** Delete: the page deletes the item by id; the sheet stays as it is. */
    method PressDelete(item: HistoryItem) returns (action: HistoryAction)
      ensures action == Delete(item.id)
    {
      action := Delete(item.id);
    }
  }
}
