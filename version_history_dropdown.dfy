/**
 * The version-history dropdown of one versioned section: the timestamp and
 * content formatters, the labels of the listed snapshots (and of the
 * selected one in the footer), the heading, and the open/selection state
 * changed by the select and restore handlers.
 */
module VersionHistoryDropdown {
  import opened Common
  import opened PRDContext

  // ---------------------------------------------------------------------------
  // formatTimestamp

  /** `formatTimestamp`; the locale date string (`toLocaleDateString`) is a parameter. */
  function FormatTimestamp(nowMs: int, timestampMs: int, localeDate: string): (s: string)
    ensures WholeMinutes(nowMs, timestampMs) < 1 ==> s == "Just now"
    ensures 1 <= WholeMinutes(nowMs, timestampMs) < 60 ==>
      s == NatToString(WholeMinutes(nowMs, timestampMs)) + "m ago"
    ensures 60 <= WholeMinutes(nowMs, timestampMs) < 1440 ==>
      s == NatToString(WholeMinutes(nowMs, timestampMs) / 60) + "h ago"
    ensures WholeMinutes(nowMs, timestampMs) >= 1440 ==> s == localeDate
  {
    var m := WholeMinutes(nowMs, timestampMs);
    if m < 1 then "Just now"
    else if m < 60 then IntToString(m) + "m ago"
    else if m < 1440 then IntToString(m / 60) + "h ago"
    else localeDate
  }

  /** The hour count shown is always between 1 and 23. */
  lemma HoursInRange(m: int)
    requires 60 <= m < 1440
    ensures 1 <= m / 60 <= 23
  {
  }

  // ---------------------------------------------------------------------------
  // formatContent

  const Ellipsis := "..."

  /** `formatContent`: lists joined with ', ' or 'Empty'; texts cut to fifty
      characters plus '...' when longer, '' shown as 'Empty', others kept. */
  function FormatContent(c: Content): (s: string)
    ensures c.Items? && c.items == [] ==> s == "Empty"
    ensures c.Items? && c.items != [] ==> s == Join(c.items, ", ")
    ensures c.Text? && |c.text| > 50 ==> s == c.text[..50] + Ellipsis
    ensures c.Text? && c.text == "" ==> s == "Empty"
    ensures c.Text? && 0 < |c.text| <= 50 ==> s == c.text
    ensures c.Text? ==> |s| <= 53
  {
    match c
    case Items(xs) => if |xs| > 0 then Join(xs, ", ") else "Empty"
    case Text(t) => if |t| > 50 then t[..50] + Ellipsis else if t == "" then "Empty" else t
  }

  /** A shown text is a prefix of the stored one, unless it is the 'Empty' placeholder. */
  lemma FormatContentPrefix(t: string)
    requires t != ""
    ensures var s := FormatContent(Text(t));
      var shown := if |t| > 50 then s[..50] else s;
      |shown| <= |t| && shown == t[..|shown|]
  {
  }

  // ---------------------------------------------------------------------------
  // Labels

  /** The list labels the snapshot at `index` of `n` as 'Version n - index'. */
  function VersionNumber(n: nat, index: nat): (v: nat)
    requires index < n
    ensures 1 <= v <= n
  {
    n - index
  }

  /** Only the first snapshot (the newest) carries the 'Current' badge. */
  predicate IsCurrent(index: nat)
  {
    index == 0
  }

  /** The newest snapshot has the highest number and the numbers are distinct. */
  lemma VersionNumbersDistinct(n: nat, i: nat, j: nat)
    requires i < n && j < n
    ensures VersionNumber(n, 0) == n
    ensures VersionNumber(n, i) == VersionNumber(n, j) <==> i == j
    ensures i < j ==> VersionNumber(n, i) > VersionNumber(n, j)
  {
  }

  /** `versions.findIndex(v => v.id === id)`: the first index carrying `id`, or -1. */
  function FindIndex(versions: seq<SectionVersion>, id: string): (i: int)
    ensures -1 <= i < |versions|
    ensures i == -1 <==> forall j :: 0 <= j < |versions| ==> versions[j].id != id
    ensures i >= 0 ==> versions[i].id == id && forall j :: 0 <= j < i ==> versions[j].id != id
    decreases |versions|
  {
    if versions == [] then -1
    else if versions[0].id == id then 0
    else
      var i := FindIndex(versions[1..], id);
      if i == -1 then -1 else i + 1
  }

  /** `findIndex` and `find` agree: the index found holds the snapshot found. */
  lemma FindIndexFindsVersion(versions: seq<SectionVersion>, id: string)
    ensures FindIndex(versions, id) == -1 <==> FindVersion(versions, id).None?
    ensures FindIndex(versions, id) >= 0 ==> FindVersion(versions, id) == Some(versions[FindIndex(versions, id)])
  {
    var i := FindIndex(versions, id);
    var r := FindVersion(versions, id);
    if r.Some? {
      var k :| 0 <= k < |versions| && versions[k] == r.value && r.value.id == id &&
               forall j :: 0 <= j < k ==> versions[j].id != id;
      assert i == k;
    }
  }

  /** The footer's number for the selected snapshot, as written: its position
      counted from the newest, `findIndex + 1` (0 when it is no longer listed). */
  function FooterNumberAsWritten(versions: seq<SectionVersion>, id: string): (v: int)
    ensures 0 <= v <= |versions|
    ensures v == 0 <==> FindIndex(versions, id) == -1
  {
    FindIndex(versions, id) + 1
  }

  /** The footer as written disagrees with the list: the newest of two snapshots
      is listed as 'Version 2' but, once selected, announced as 'Version 1'. */
  lemma FooterDisagreesWithList(a: SectionVersion, b: SectionVersion)
    requires a.id != b.id
    ensures VersionNumber(2, 0) == 2
    ensures FooterNumberAsWritten([a, b], a.id) == 1
  {
  }

  /** The footer's number for the selected snapshot, numbered like the list. */
  function FooterNumber(versions: seq<SectionVersion>, id: string): (v: Option<nat>)
    ensures v.None? <==> FindIndex(versions, id) == -1
    ensures v.Some? ==> v.value == VersionNumber(|versions|, FindIndex(versions, id))
  {
    var i := FindIndex(versions, id);
    if i == -1 then None else Some(|versions| - i)
  }

  /** With the list's numbering, selecting the snapshot listed at `index`
      announces the number it is listed with. */
  lemma FooterMatchesList(versions: seq<SectionVersion>, index: nat)
    requires index < |versions|
    requires forall i, j :: 0 <= i < j < |versions| ==> versions[i].id != versions[j].id
    ensures FooterNumber(versions, versions[index].id) == Some(VersionNumber(|versions|, index))
  {
    var i := FindIndex(versions, versions[index].id);
    assert i == index;
  }

  // ---------------------------------------------------------------------------
  // Heading

  /** `section.replace(/([A-Z])/g, ' $1').replace(/^./, c => c.toUpperCase())`:
      the spaced section name with its first letter (always a lower-case
      letter in a key) turned into a capital. */
  function Heading(section: SectionKey): (h: string)
    ensures |h| == |SpaceCapitals(SectionKeyName(section))|
    ensures IsAsciiUpper(h[0]) && h[0] == UpperChar(SectionKeyName(section)[0])
    ensures h[1..] == SpaceCapitals(SectionKeyName(section))[1..]
  {
    KeyStartsLower(section);
    SpaceCapitalsKeepsFirst(SectionKeyName(section));
    CapitalizeFirst(SpaceCapitals(SectionKeyName(section)))
  }

  /** Every section key starts with a lower-case letter. */
  lemma KeyStartsLower(section: SectionKey)
    ensures |SectionKeyName(section)| > 0 && 'a' <= SectionKeyName(section)[0] <= 'z'
  {
  }

  /** A camel-cased pair of lower-case words, spaced and capitalised, reads as
      the two words with a capital first letter and one space between them. */
  lemma TwoWordCapitalized(first: string, second: string)
    requires |first| > 0 && 'a' <= first[0] <= 'z'
    requires forall i :: 0 <= i < |first| ==> !IsAsciiUpper(first[i])
    requires |second| > 0 && IsAsciiUpper(second[0])
    requires forall i :: 1 <= i < |second| ==> !IsAsciiUpper(second[i])
    ensures CapitalizeFirst(SpaceCapitals(first + second)) == [UpperChar(first[0])] + first[1..] + " " + second
  {
    var spaced := SpaceCapitals(first + second);
    assert spaced == first + (" " + second) by {
      SpaceCapitalsAt(first, second);
    }
    CapitalizeFirstWord(spaced, first, " " + second);
    assert [UpperChar(first[0])] + first[1..] + (" " + second) == [UpperChar(first[0])] + first[1..] + " " + second;
  }

  /** Capitalising a text that starts with a lower-case word capitalises that word. */
  lemma CapitalizeFirstWord(s: string, first: string, rest: string)
    requires s == first + rest && |first| > 0 && 'a' <= first[0] <= 'z'
    ensures CapitalizeFirst(s) == [UpperChar(first[0])] + first[1..] + rest
  {
    var h := CapitalizeFirst(s);
    assert s[0] == first[0] && s[1..] == first[1..] + rest;
    assert h == [h[0]] + h[1..];
  }

  /** The problem statement's heading, spaced and with its capital still to
      be spelled out. */
  lemma ProblemStatementSpaced(section: SectionKey)
    requires section == ProblemStatement
    ensures Heading(section) == [UpperChar('p')] + "roblem" + " " + "Statement"
  {
    assert SectionKeyName(section) == "problem" + "Statement";
    TwoWordCapitalized("problem", "Statement");
  }

  /** The trade-offs heading, spaced and with its capital still to be spelled out. */
  lemma TradeOffsSpaced(section: SectionKey)
    requires section == TradeOffs
    ensures Heading(section) == [UpperChar('t')] + "rade" + " " + "Offs"
  {
    assert SectionKeyName(section) == "trade" + "Offs";
    TwoWordCapitalized("trade", "Offs");
  }

  lemma ProblemStatementSpelled(h: string)
    requires h == [UpperChar('p')] + "roblem" + " " + "Statement"
    ensures h == "Problem Statement"
  {
    assert UpperChar('p') == 'P';
  }

  lemma TradeOffsSpelled(h: string)
    requires h == [UpperChar('t')] + "rade" + " " + "Offs"
    ensures h == "Trade Offs"
  {
    assert UpperChar('t') == 'T';
  }

  /** Two headings as the dropdown shows them. */
  lemma SpelledHeadings(section: SectionKey)
    ensures section == ProblemStatement ==> Heading(section) == "Problem Statement"
    ensures section == TradeOffs ==> Heading(section) == "Trade Offs"
  {
    if section == ProblemStatement {
      ProblemStatementSpaced(section);
      ProblemStatementSpelled(Heading(section));
    } else if section == TradeOffs {
      TradeOffsSpaced(section);
      TradeOffsSpelled(Heading(section));
    }
  }

  lemma ProblemStatementHeading()
    ensures Heading(ProblemStatement) == "Problem Statement"
  {
    SpelledHeadings(ProblemStatement);
  }

  lemma TradeOffsHeading()
    ensures Heading(TradeOffs) == "Trade Offs"
  {
    SpelledHeadings(TradeOffs);
  }

  // ---------------------------------------------------------------------------
  // The dropdown's state

  class Dropdown {
    const section: VersionedKey
    var isOpen: bool
    var selectedVersion: Option<SectionVersion>

    constructor (section: VersionedKey)
      ensures this.section == section && !isOpen && selectedVersion.None?
    {
      this.section := section;
      isOpen := false;
      selectedVersion := None;
    }

    /** Nothing renders while the section has no snapshots. */
    predicate Renders(store: PRDStore)
      reads store
    {
      section in store.versions && |store.versions[section]| > 0
    }

    /** The toggle button. */
    method Toggle()
      modifies this`isOpen
      ensures isOpen == !old(isOpen)
    {
      isOpen := !isOpen;
    }

    /** A click outside the dropdown closes it. */
    method ClickOutside()
      modifies this`isOpen
      ensures !isOpen
    {
      isOpen := false;
    }

    /** `handleVersionSelect`. */
    method SelectVersion(v: SectionVersion)
      modifies this`selectedVersion
      ensures selectedVersion == Some(v)
    {
      selectedVersion := Some(v);
    }

    /** `handleRestore`: a no-op without a selection; otherwise restores the
        selected snapshot's id, clears the selection and closes the dropdown. */
    method HandleRestore(store: PRDStore)
      requires store.Valid()
      modifies this`isOpen, this`selectedVersion, store`sections
      ensures store.Valid()
      ensures old(selectedVersion).None? ==>
        store.sections == old(store.sections) && isOpen == old(isOpen) && selectedVersion.None?
      ensures old(selectedVersion).Some? ==>
        !isOpen && selectedVersion.None? &&
        var found := FindVersion(store.versions[section], old(selectedVersion).value.id);
        store.sections == (if found.Some? then old(store.sections)[section := found.value.content] else old(store.sections))
      ensures old(store.WellTyped()) ==> store.WellTyped()
    {
      if selectedVersion.Some? {
        store.RestoreSection(section, selectedVersion.value.id);
        isOpen := false;
        selectedVersion := None;
      }
    }
  }
}
