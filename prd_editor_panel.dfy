/**
 * The PRD editor panel: the three list edits (append an empty item, replace
 * the item at an index, delete the item at an index), the tab list, and the
 * summarise handler with its per-section busy flags.
 */
module PRDEditorPanel {
  import opened Common
  import opened PRDContext

  type ListKey = k: SectionKey | IsListSection(k) witness TradeOffs

  // ---------------------------------------------------------------------------
  // The list edits, as the new lists they build

  /** `[...items, '']`. */
  function AppendItem(items: seq<string>): (r: seq<string>)
    ensures |r| == |items| + 1
    ensures r[..|items|] == items && r[|items|] == ""
  {
    items + [""]
  }

  /** `copy[index] = value` on a copy of the list. */
  function ReplaceItem(items: seq<string>, index: nat, value: string): (r: seq<string>)
    requires index < |items|
    ensures |r| == |items| && r[index] == value
    ensures forall j :: 0 <= j < |items| && j != index ==> r[j] == items[j]
  {
    items[index := value]
  }

  /** `items.filter((_, i) => i !== index)` over the suffix starting at
      position `offset` of the original list. */
  function KeepOthers(items: seq<string>, index: int, offset: nat): (r: seq<string>)
    ensures offset <= index < offset + |items| ==>
      r == items[..index - offset] + items[index - offset + 1..]
    ensures !(offset <= index < offset + |items|) ==> r == items
    decreases |items|
  {
    if items == [] then []
    else
      var rest := KeepOthers(items[1..], index, offset + 1);
      if offset == index then
        assert rest == items[1..];
        rest
      else
        assert offset < index < offset + |items| ==> [items[0]] + items[1..][..index - offset - 1] == items[..index - offset];
        [items[0]] + rest
  }

  /** `removeArrayItem`: drops exactly the item at `index`; any other index
      (negative or past the end) matches nothing and keeps the list. */
  function RemoveItem(items: seq<string>, index: int): (r: seq<string>)
    ensures 0 <= index < |items| ==> |r| == |items| - 1 && r == items[..index] + items[index + 1..]
    ensures !(0 <= index < |items|) ==> r == items
  {
    KeepOthers(items, index, 0)
  }

  /** Removing an item keeps the others in their relative order. */
  lemma RemoveItemKeepsOrder(items: seq<string>, index: nat, j: nat)
    requires index < |items| && j < |items| - 1
    ensures RemoveItem(items, index)[j] == (if j < index then items[j] else items[j + 1])
  {
  }

  /** Appending an item and then removing it gives the list back. */
  lemma RemoveAppended(items: seq<string>)
    ensures RemoveItem(AppendItem(items), |items|) == items
  {
  }

  // ---------------------------------------------------------------------------
  // Tabs

  datatype Tab = Overview | Problem | Metrics | TradeOffsTab | LearningsTab | LiveData

  /** The five fixed tabs, with 'Live Data' appended only in Live stage. */
  function Tabs(stage: Stage): (r: seq<Tab>)
    ensures |r| >= 5 && r[..5] == [Overview, Problem, Metrics, TradeOffsTab, LearningsTab]
    ensures |r| == 6 <==> stage == Live
    ensures |r| == 6 ==> r[5] == LiveData
    ensures LiveData in r <==> stage == Live
  {
    [Overview, Problem, Metrics, TradeOffsTab, LearningsTab] + (if stage == Live then [LiveData] else [])
  }

  // ---------------------------------------------------------------------------
  // Summarising

  /** The body of the summarise request. */
  datatype SummarizeRequest = SummarizeRequest(section: string, content: string, stage: string)

  /** What the request sends: a list joined with new lines, a text as it is. */
  function RequestContent(c: Content): (s: string)
    ensures c.Text? ==> s == c.text
    ensures c.Items? && |c.items| == 1 ==> s == c.items[0]
    ensures c.Items? && c.items == [] ==> s == ""
  {
    match c
    case Text(t) => t
    case Items(xs) => Join(xs, "\n")
  }

  /** The sections that start with a summarising flag. */
  const FlaggedSections: set<SectionKey> :=
    {ProblemStatement, SuccessMetrics, TradeOffs, Learnings, UserFeedback, HypothesisValidation, NextSteps}

  class EditorPanel {
    var isSummarizing: map<SectionKey, bool>

    constructor ()
      ensures isSummarizing.Keys == FlaggedSections
      ensures forall k :: k in isSummarizing ==> !isSummarizing[k]
    {
      isSummarizing := map k | k in FlaggedSections :: false;
    }

    /** `addArrayItem`. */
    method AddArrayItem(store: PRDStore, section: ListKey, now: int, suffix: string)
      requires store.Valid() && store.WellTyped()
      modifies store`sections, store`versions
      ensures store.Valid() && store.WellTyped()
      ensures store.sections == old(store.sections)[section := Items(AppendItem(old(store.ItemsOf(section))))]
      ensures IsVersioned(section) ==> store.versions == old(store.versions)[section :=
        PushVersion(NewVersion(section, Items(AppendItem(old(store.ItemsOf(section)))), now, suffix), old(store.versions[section]))]
      ensures !IsVersioned(section) ==> store.versions == old(store.versions)
    {
      store.UpdateSection(section, Items(AppendItem(store.ItemsOf(section))), now, suffix);
    }

    /** `updateArrayItem`, for an index of an existing item (the editor only
        renders inputs for those). */
    method UpdateArrayItem(store: PRDStore, section: ListKey, index: nat, value: string, now: int, suffix: string)
      requires store.Valid() && store.WellTyped()
      requires index < |store.ItemsOf(section)|
      modifies store`sections, store`versions
      ensures store.Valid() && store.WellTyped()
      ensures store.sections == old(store.sections)[section := Items(ReplaceItem(old(store.ItemsOf(section)), index, value))]
      ensures IsVersioned(section) ==> store.versions == old(store.versions)[section :=
        PushVersion(NewVersion(section, Items(ReplaceItem(old(store.ItemsOf(section)), index, value)), now, suffix), old(store.versions[section]))]
      ensures !IsVersioned(section) ==> store.versions == old(store.versions)
    {
      store.UpdateSection(section, Items(ReplaceItem(store.ItemsOf(section), index, value)), now, suffix);
    }

    /** `removeArrayItem`. */
    method RemoveArrayItem(store: PRDStore, section: ListKey, index: int, now: int, suffix: string)
      requires store.Valid() && store.WellTyped()
      modifies store`sections, store`versions
      ensures store.Valid() && store.WellTyped()
      ensures store.sections == old(store.sections)[section := Items(RemoveItem(old(store.ItemsOf(section)), index))]
      ensures IsVersioned(section) ==> store.versions == old(store.versions)[section :=
        PushVersion(NewVersion(section, Items(RemoveItem(old(store.ItemsOf(section)), index)), now, suffix), old(store.versions[section]))]
      ensures !IsVersioned(section) ==> store.versions == old(store.versions)
    {
      store.UpdateSection(section, Items(RemoveItem(store.ItemsOf(section), index)), now, suffix);
    }

    /** The first half of `handleSummarize`: raises the section's flag and
        returns the request it sends. */
    method BeginSummarize(store: PRDStore, section: SectionKey) returns (req: SummarizeRequest)
      requires store.Valid()
      modifies this`isSummarizing
      ensures isSummarizing == old(isSummarizing)[section := true]
      ensures req == SummarizeRequest(SectionKeyName(section), RequestContent(store.sections[section]), StageName(store.stage))
    {
      isSummarizing := isSummarizing[section := true];
      req := SummarizeRequest(SectionKeyName(section), RequestContent(store.sections[section]), StageName(store.stage));
    }

    /** The second half: a successful reply replaces the section by the summary
        (a text, whatever the section's type, so a list section then holds a
        string and the document is no longer well typed); every outcome lowers
        the flag. */
    method FinishSummarize(store: PRDStore, section: SectionKey, reply: Reply<string>, now: int, suffix: string)
      requires store.Valid()
      modifies this`isSummarizing, store`sections, store`versions
      ensures store.Valid()
      ensures isSummarizing == old(isSummarizing)[section := false]
      ensures reply.Ok? ==> store.sections == old(store.sections)[section := Text(reply.value)]
      ensures reply.Ok? && IsVersioned(section) ==> store.versions == old(store.versions)[section :=
        PushVersion(NewVersion(section, Text(reply.value), now, suffix), old(store.versions[section]))]
      ensures !reply.Ok? || !IsVersioned(section) ==> store.versions == old(store.versions)
      ensures !reply.Ok? ==> store.sections == old(store.sections)
      ensures reply.Ok? && IsListSection(section) ==> !store.WellTyped()
    {
      if reply.Ok? {
        store.UpdateSection(section, Text(reply.value), now, suffix);
        assert section in store.sections && store.sections[section] == Text(reply.value);
      }
      isSummarizing := isSummarizing[section := false];
    }
  }
}
