/**
 * The PRD document store (`PRDProvider`): the current stage, the title, the
 * eight sections of the document and, for four of them, a bounded history of
 * snapshots, newest first, holding at most five entries.
 */
module PRDContext {
  import opened Common

  datatype Stage = Aperture | Discovery | Define | Design | Deliver | Live

  /** The stage's name as the application writes it. */
  function StageName(s: Stage): string
  {
    match s
    case Aperture => "Aperture"
    case Discovery => "Discovery"
    case Define => "Define"
    case Design => "Design"
    case Deliver => "Deliver"
    case Live => "Live"
  }

  /** The inverse of `StageName`; `None` for any other string. */
  function ParseStage(name: string): (r: Option<Stage>)
    ensures r.Some? ==> StageName(r.value) == name
  {
    if name == "Aperture" then Some(Aperture)
    else if name == "Discovery" then Some(Discovery)
    else if name == "Define" then Some(Define)
    else if name == "Design" then Some(Design)
    else if name == "Deliver" then Some(Deliver)
    else if name == "Live" then Some(Live)
    else None
  }

  lemma ParseStageName(s: Stage)
    ensures ParseStage(StageName(s)) == Some(s)
  {
  }

  datatype SectionKey =
    | ProblemStatement | TradeOffs | SuccessMetrics | Learnings
    | PostLaunchMetrics | UserFeedback | HypothesisValidation | NextSteps

  /** The property name of the section in the `sections` object. */
  function SectionKeyName(k: SectionKey): string
  {
    match k
    case ProblemStatement => "problemStatement"
    case TradeOffs => "tradeOffs"
    case SuccessMetrics => "successMetrics"
    case Learnings => "learnings"
    case PostLaunchMetrics => "postLaunchMetrics"
    case UserFeedback => "userFeedback"
    case HypothesisValidation => "hypothesisValidation"
    case NextSteps => "nextSteps"
  }

  /** Sections whose declared type is `string[]`; the others are `string`. */
  predicate IsListSection(k: SectionKey)
  {
    k == TradeOffs || k == SuccessMetrics || k == PostLaunchMetrics
  }

  /** Sections that keep a version history. */
  predicate IsVersioned(k: SectionKey)
  {
    k == ProblemStatement || k == TradeOffs || k == SuccessMetrics || k == Learnings
  }

  type VersionedKey = k: SectionKey | IsVersioned(k) witness ProblemStatement

  const AllSections: set<SectionKey> :=
    {ProblemStatement, TradeOffs, SuccessMetrics, Learnings,
     PostLaunchMetrics, UserFeedback, HypothesisValidation, NextSteps}

  const VersionedSections: set<SectionKey> :=
    {ProblemStatement, TradeOffs, SuccessMetrics, Learnings}

  /** What `updateSection` accepts: `string | string[]`. */
  datatype Content = Text(text: string) | Items(items: seq<string>)

  /** The content has the type the section is declared with. */
  predicate Fits(k: SectionKey, c: Content)
  {
    IsListSection(k) <==> c.Items?
  }

  /** The empty document: '' for the text sections and [] for the list sections. */
  function InitialSections(): (m: map<SectionKey, Content>)
    ensures m.Keys == AllSections
    ensures forall k :: k in m ==> Fits(k, m[k])
    ensures forall k :: k in m ==> m[k] == Text("") || m[k] == Items([])
  {
    map k | k in AllSections :: if IsListSection(k) then Items([]) else Text("")
  }

  datatype SectionVersion = SectionVersion(content: Content, timestamp: int, id: string)

  /** A snapshot's id: the section name, the clock reading and a random
      suffix (both taken as parameters), separated by '-'. */
  function VersionId(section: SectionKey, now: int, suffix: string): (id: string)
    ensures |id| > |SectionKeyName(section)| && id[..|SectionKeyName(section)| + 1] == SectionKeyName(section) + "-"
  {
    SectionKeyName(section) + "-" + IntToString(now) + "-" + suffix
  }

  /** The snapshot `addVersion` builds. */
  function NewVersion(section: SectionKey, content: Content, now: int, suffix: string): (v: SectionVersion)
    ensures v.content == content && v.timestamp == now
  {
    SectionVersion(content, now, VersionId(section, now, suffix))
  }

  const MaxVersions: nat := 5

  function Min(a: int, b: int): int { if a <= b then a else b }

  /** `[v, ...history].slice(0, 5)`: the new snapshot in front, followed by the
      first (at most four) previous snapshots in their original order. */
  function PushVersion(v: SectionVersion, history: seq<SectionVersion>): (r: seq<SectionVersion>)
    ensures |r| == Min(|history| + 1, MaxVersions)
    ensures r[0] == v
    ensures r[1..] == history[..|r| - 1]
  {
    ([v] + history)[..Min(|history| + 1, MaxVersions)]
  }

  /** The history after adding the snapshots `vs`, first one first. */
  function PushAll(history: seq<SectionVersion>, vs: seq<SectionVersion>): seq<SectionVersion>
    decreases |vs|
  {
    if vs == [] then history else PushAll(PushVersion(vs[0], history), vs[1..])
  }

  function Reverse<T>(s: seq<T>): (r: seq<T>)
    ensures |r| == |s|
    ensures forall i :: 0 <= i < |s| ==> r[i] == s[|s| - 1 - i]
    decreases |s|
  {
    if s == [] then [] else Reverse(s[1..]) + [s[0]]
  }

  /** However many snapshots are added, the history holds the newest ones, newest
      first, followed by what was there before, cut at five entries. */
  lemma {:induction false} PushAllKeepsNewest(history: seq<SectionVersion>, vs: seq<SectionVersion>)
    requires |history| <= MaxVersions
    ensures PushAll(history, vs) == (Reverse(vs) + history)[..Min(|vs| + |history|, MaxVersions)]
    decreases |vs|
  {
    if vs == [] {
      assert Reverse(vs) + history == history;
    } else {
      var p := PushVersion(vs[0], history);
      var rest := vs[1..];
      PushAllKeepsNewest(p, rest);
      var n := Min(|vs| + |history|, MaxVersions);
      var lhs := (Reverse(rest) + p)[..Min(|rest| + |p|, MaxVersions)];
      var rhs := (Reverse(vs) + history)[..n];
      assert Reverse(vs) == Reverse(rest) + [vs[0]];
      assert Reverse(vs) + history == Reverse(rest) + ([vs[0]] + history);
      assert p == ([vs[0]] + history)[..|p|];
      assert |lhs| == n;
      forall i | 0 <= i < n ensures lhs[i] == rhs[i] {
        if i >= |rest| {
          assert lhs[i] == p[i - |rest|];
          assert rhs[i] == ([vs[0]] + history)[i - |rest|];
        }
      }
    }
  }

  /** `versions.find(v => v.id === id)`: the first snapshot carrying `id`. */
  function FindVersion(versions: seq<SectionVersion>, id: string): (r: Option<SectionVersion>)
    ensures r.None? <==> forall i :: 0 <= i < |versions| ==> versions[i].id != id
    ensures r.Some? ==> exists i :: 0 <= i < |versions| && versions[i] == r.value &&
                          r.value.id == id && forall j :: 0 <= j < i ==> versions[j].id != id
    decreases |versions|
  {
    if versions == [] then None
    else if versions[0].id == id then Some(versions[0])
    else
      var r := FindVersion(versions[1..], id);
      if r.Some? then
        ghost var i :| 0 <= i < |versions[1..]| && versions[1..][i] == r.value &&
                       r.value.id == id && forall j :: 0 <= j < i ==> versions[1..][j].id != id;
        assert versions[i + 1] == r.value;
        r
      else r
  }

  class PRDStore {
    var stage: Stage
    var title: string
    var sections: map<SectionKey, Content>
    var versions: map<SectionKey, seq<SectionVersion>>

    /** Every section is present, the four histories are present and none
        holds more than five snapshots. */
    ghost predicate Valid()
      reads this
    {
      sections.Keys == AllSections &&
      versions.Keys == VersionedSections &&
      forall k :: k in versions ==> |versions[k]| <= MaxVersions
    }

    /** Every section, and every stored snapshot, has its declared type. */
    ghost predicate WellTyped()
      reads this
    {
      (forall k :: k in sections ==> Fits(k, sections[k])) &&
      (forall k, i :: k in versions && 0 <= i < |versions[k]| ==> Fits(k, versions[k][i].content))
    }

    /** The provider's initial state, with no stored history. */
    constructor ()
      ensures Valid() && WellTyped()
      ensures stage == Aperture && title == ""
      ensures sections == InitialSections()
      ensures forall k :: k in versions ==> versions[k] == []
    {
      stage := Aperture;
      title := "";
      sections := InitialSections();
      versions := map k | k in VersionedSections :: [];
    }

    method SetStage(s: Stage)
      modifies this`stage
      ensures stage == s
    {
      stage := s;
    }

    method SetTitle(t: string)
      modifies this`title
      ensures title == t
    {
      title := t;
    }

    /** Prepends a snapshot of `content` to the section's history; no other
        history changes. The clock reading and the random id suffix are parameters. */
    method AddVersion(section: VersionedKey, content: Content, now: int, suffix: string)
      requires Valid()
      modifies this`versions
      ensures Valid()
      ensures versions == old(versions)[section := PushVersion(NewVersion(section, content, now, suffix), old(versions[section]))]
      ensures old(WellTyped()) && Fits(section, content) ==> WellTyped()
    {
      var v := NewVersion(section, content, now, suffix);
      ghost var before := versions[section];
      versions := versions[section := PushVersion(v, versions[section])];
      if old(WellTyped()) && Fits(section, content) {
        forall k, i | k in versions && 0 <= i < |versions[k]|
          ensures Fits(k, versions[k][i].content)
        {
          if k == section && i > 0 {
            assert versions[k][i] == before[i - 1];
          }
        }
      }
    }

    /** Replaces one section; for the four versioned sections also records a snapshot. */
    method UpdateSection(section: SectionKey, content: Content, now: int, suffix: string)
      requires Valid()
      modifies this`sections, this`versions
      ensures Valid()
      ensures sections == old(sections)[section := content]
      ensures IsVersioned(section) ==>
        versions == old(versions)[section := PushVersion(NewVersion(section, content, now, suffix), old(versions[section]))]
      ensures !IsVersioned(section) ==> versions == old(versions)
      ensures old(WellTyped()) && Fits(section, content) ==> WellTyped()
    {
      sections := sections[section := content];
      if IsVersioned(section) {
        AddVersion(section, content, now, suffix);
      }
    }

    /** Puts back the content of the snapshot with the given id, if the section's
        history has one; the histories themselves never change. */
    method RestoreSection(section: VersionedKey, versionId: string)
      requires Valid()
      modifies this`sections
      ensures Valid()
      ensures FindVersion(versions[section], versionId).Some? ==>
        sections == old(sections)[section := FindVersion(versions[section], versionId).value.content]
      ensures FindVersion(versions[section], versionId).None? ==> sections == old(sections)
      ensures old(WellTyped()) ==> WellTyped()
    {
      var found := FindVersion(versions[section], versionId);
      if found.Some? {
        sections := sections[section := found.value.content];
      }
    }

    /** The section's history, or [] when none is stored; reads only. */
    method GetSectionVersions(section: VersionedKey) returns (vs: seq<SectionVersion>)
      ensures section in versions ==> vs == versions[section]
      ensures section !in versions ==> vs == []
      ensures Valid() ==> |vs| <= MaxVersions
    {
      vs := if section in versions then versions[section] else [];
    }

    /** The text of a `string` section. */
    function TextOf(k: SectionKey): string
      reads this
      requires Valid() && WellTyped() && !IsListSection(k)
    {
      sections[k].text
    }

    /** The items of a `string[]` section. */
    function ItemsOf(k: SectionKey): seq<string>
      reads this
      requires Valid() && WellTyped() && IsListSection(k)
    {
      sections[k].items
    }
  }
}
