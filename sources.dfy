/**
 * The four optional source fields of the guide generator and the pure
 * computations over them: Python truthiness of a field, the labels of the
 * sources that were provided (in the fixed order the flow checks them), and
 * the argument record handed to the research stage, where every empty field
 * is replaced by the placeholder "Not provided".
 */
module Sources {
  import opened Optional

  /** The text the research stage receives in place of a missing source. */
  const NotProvided: string := "Not provided"

  /** Python truthiness of an `Optional[str]` field: `None` and `""` are false, every other string is true. */
  predicate Provided(field: Option<string>) {
    field.Some? && field.value != ""
  }

  /** The four kinds of source a user may supply. */
  datatype SourceKind = YouTube | WebPages | Documents | ResearchPapers

  /** The label the flow reports for a source that was given. */
  function Label(kind: SourceKind): string {
    match kind
    case YouTube => "YouTube"
    case WebPages => "Web Pages"
    case Documents => "Documents"
    case ResearchPapers => "Research Papers"
  }

  /** Position of a kind in the order in which the flow inspects the fields. */
  function Rank(kind: SourceKind): nat {
    match kind
    case YouTube => 0
    case WebPages => 1
    case Documents => 2
    case ResearchPapers => 3
  }

  /** The order in which the flow inspects the four fields. */
  const CheckOrder: seq<SourceKind> := [YouTube, WebPages, Documents, ResearchPapers]

  /** The four user-supplied fields of the flow state. */
  datatype Inputs = Inputs(
    youtubeLinks: Option<string>,
    documentPaths: Option<string>,
    webpageLinks: Option<string>,
    researchPaperLinks: Option<string>)
  {
    function Field(kind: SourceKind): Option<string> {
      match kind
      case YouTube => youtubeLinks
      case WebPages => webpageLinks
      case Documents => documentPaths
      case ResearchPapers => researchPaperLinks
    }
  }

  /** The field values a state starts with when nothing is supplied. */
  const DefaultInputs: Inputs := Inputs(Some(""), Some(""), Some(""), Some(""))

  /** None of the four fields is truthy. */
  predicate AllSourcesEmpty(inputs: Inputs) {
    !Provided(inputs.youtubeLinks) && !Provided(inputs.webpageLinks) &&
    !Provided(inputs.documentPaths) && !Provided(inputs.researchPaperLinks)
  }

  /** The kinds are listed in strictly increasing check order (so, in particular, without repetition). */
  ghost predicate StrictlyRanked(kinds: seq<SourceKind>) {
    forall i, j :: 0 <= i < j < |kinds| ==> Rank(kinds[i]) < Rank(kinds[j])
  }

  /** The kinds among `kinds` whose field is truthy, in the order of `kinds`. */
  function ProvidedKinds(inputs: Inputs, kinds: seq<SourceKind>): (provided: seq<SourceKind>)
    ensures |provided| <= |kinds|
    decreases |kinds|
  {
    if kinds == [] then []
    else
      var rest := ProvidedKinds(inputs, kinds[1..]);
      if Provided(inputs.Field(kinds[0])) then [kinds[0]] + rest else rest
  }

  /** The labels of the sources that were given, as the flow collects and reports them. */
  function ProvidedSources(inputs: Inputs): seq<string> {
    Labels(ProvidedKinds(inputs, CheckOrder))
  }

  /** The label of each kind, in order. */
  function Labels(kinds: seq<SourceKind>): seq<string> {
    seq(|kinds|, i requires 0 <= i < |kinds| => Label(kinds[i]))
  }

  /** A kind is kept exactly when it is listed and its field is truthy. */
  lemma {:induction false} ProvidedKindsMember(inputs: Inputs, kinds: seq<SourceKind>, kind: SourceKind)
    ensures kind in ProvidedKinds(inputs, kinds) <==> kind in kinds && Provided(inputs.Field(kind))
    decreases |kinds|
  {
    if kinds != [] {
      ProvidedKindsMember(inputs, kinds[1..], kind);
      assert kind in kinds <==> kind == kinds[0] || kind in kinds[1..];
    }
  }

  /** Filtering keeps the relative order of the kinds it keeps. */
  lemma {:induction false} ProvidedKindsOrdered(inputs: Inputs, kinds: seq<SourceKind>)
    requires StrictlyRanked(kinds)
    ensures StrictlyRanked(ProvidedKinds(inputs, kinds))
    decreases |kinds|
  {
    if kinds != [] {
      var rest := ProvidedKinds(inputs, kinds[1..]);
      ProvidedKindsOrdered(inputs, kinds[1..]);
      if Provided(inputs.Field(kinds[0])) {
        var provided := [kinds[0]] + rest;
        forall i, j | 0 <= i < j < |provided|
          ensures Rank(provided[i]) < Rank(provided[j])
        {
          if i == 0 {
            ProvidedKindsMember(inputs, kinds[1..], rest[j - 1]);
            assert provided[j] == rest[j - 1] && provided[j] in kinds[1..];
          } else {
            assert provided[i] == rest[i - 1] && provided[j] == rest[j - 1];
          }
        }
      }
    }
  }

  /** The first kind of a strictly ranked list has the least rank in it. */
  lemma {:induction false} HeadHasLeastRank(kinds: seq<SourceKind>, kind: SourceKind)
    requires StrictlyRanked(kinds) && kind in kinds
    ensures Rank(kinds[0]) <= Rank(kind)
  {
    var i :| 0 <= i < |kinds| && kinds[i] == kind;
    assert i == 0 || Rank(kinds[0]) < Rank(kinds[i]);
  }

  /** A strictly ranked list of kinds is determined by the set of kinds it holds. */
  lemma {:induction false} StrictlyRankedUnique(a: seq<SourceKind>, b: seq<SourceKind>)
    requires StrictlyRanked(a) && StrictlyRanked(b)
    requires forall kind :: kind in a <==> kind in b
    ensures a == b
    decreases |a|
  {
    if a == [] || b == [] {
      if a != [] {
        HeadHasLeastRank(a, a[0]);
        assert false;
      } else if b != [] {
        HeadHasLeastRank(b, b[0]);
        assert false;
      }
    } else {
      // the head of each list has the smallest rank, so the heads agree
      HeadHasLeastRank(a, b[0]);
      HeadHasLeastRank(b, a[0]);
      forall kind
        ensures kind in a[1..] <==> kind in b[1..]
      {
        if kind in a[1..] {
          var j :| 1 <= j < |a| && a[j] == kind;
          assert Rank(a[0]) < Rank(kind) && kind in a && kind in b;
          var k :| 0 <= k < |b| && b[k] == kind;
          assert b[1..][k - 1] == kind;
        }
        if kind in b[1..] {
          var j :| 1 <= j < |b| && b[j] == kind;
          assert Rank(b[0]) < Rank(kind) && kind in b && kind in a;
          var k :| 0 <= k < |a| && a[k] == kind;
          assert a[1..][k - 1] == kind;
        }
      }
      StrictlyRankedUnique(a[1..], b[1..]);
    }
  }

  /**
   * The provided kinds, taken in check order, are in check order, hold
   * exactly the kinds whose field is truthy, and are the only list with
   * those two properties.
   */
  lemma {:induction false} ProvidedKindsInCheckOrder(inputs: Inputs, other: seq<SourceKind>)
    requires StrictlyRanked(other)
    ensures var kinds := ProvidedKinds(inputs, CheckOrder);
      StrictlyRanked(kinds) &&
      (forall kind :: kind in kinds <==> Provided(inputs.Field(kind))) &&
      ((forall kind :: kind in other <==> Provided(inputs.Field(kind))) ==> other == kinds)
  {
    var kinds := ProvidedKinds(inputs, CheckOrder);
    ProvidedKindsOrdered(inputs, CheckOrder);
    forall kind
      ensures kind in kinds <==> Provided(inputs.Field(kind))
    {
      assert CheckOrder[Rank(kind)] == kind;
      ProvidedKindsMember(inputs, CheckOrder, kind);
    }
    if forall kind :: kind in other <==> Provided(inputs.Field(kind)) {
      StrictlyRankedUnique(other, kinds);
    }
  }

  /** A kind's label is collected exactly when its field is truthy. */
  lemma {:induction false} ProvidedSourcesMember(inputs: Inputs, kind: SourceKind)
    ensures Label(kind) in ProvidedSources(inputs) <==> Provided(inputs.Field(kind))
  {
    var kinds := ProvidedKinds(inputs, CheckOrder);
    var labels := ProvidedSources(inputs);
    assert CheckOrder[Rank(kind)] == kind;
    ProvidedKindsMember(inputs, CheckOrder, kind);
    if kind in kinds {
      var i :| 0 <= i < |kinds| && kinds[i] == kind;
      assert labels[i] == Label(kind);
    }
    if Label(kind) in labels {
      var i :| 0 <= i < |labels| && labels[i] == Label(kind);
      LabelInjective(kinds[i], kind);
    }
  }

  /** Each kind's label is collected exactly when its field is truthy, and only once. */
  lemma {:induction false} ProvidedSourcesMembers(inputs: Inputs)
    ensures forall kind :: Label(kind) in ProvidedSources(inputs) <==> Provided(inputs.Field(kind))
    ensures forall i, j :: 0 <= i < j < |ProvidedSources(inputs)| ==> ProvidedSources(inputs)[i] != ProvidedSources(inputs)[j]
  {
    var kinds := ProvidedKinds(inputs, CheckOrder);
    var labels := ProvidedSources(inputs);
    forall kind
      ensures Label(kind) in labels <==> Provided(inputs.Field(kind))
    {
      ProvidedSourcesMember(inputs, kind);
    }
    ProvidedKindsOrdered(inputs, CheckOrder);
    forall i, j | 0 <= i < j < |labels|
      ensures labels[i] != labels[j]
    {
      assert Rank(kinds[i]) < Rank(kinds[j]);
      LabelInjective(kinds[i], kinds[j]);
    }
  }

  /** The labels appear in the fixed order YouTube, Web Pages, Documents, Research Papers. */
  lemma {:induction false} ProvidedSourcesOrdered(inputs: Inputs)
    ensures forall i, j, a, b ::
      0 <= i < |ProvidedSources(inputs)| && 0 <= j < |ProvidedSources(inputs)| &&
      ProvidedSources(inputs)[i] == Label(a) && ProvidedSources(inputs)[j] == Label(b) && Rank(a) < Rank(b)
      ==> i < j
  {
    var kinds := ProvidedKinds(inputs, CheckOrder);
    var labels := ProvidedSources(inputs);
    ProvidedKindsOrdered(inputs, CheckOrder);
    forall i, j, a, b | 0 <= i < |labels| && 0 <= j < |labels| && labels[i] == Label(a) && labels[j] == Label(b) && Rank(a) < Rank(b)
      ensures i < j
    {
      LabelInjective(kinds[i], a);
      LabelInjective(kinds[j], b);
      RankedIndices(kinds, i, j);
    }
  }

  /** In a strictly ranked list, a kind of lower rank sits at a lower index. */
  lemma {:induction false} RankedIndices(kinds: seq<SourceKind>, i: nat, j: nat)
    requires StrictlyRanked(kinds) && i < |kinds| && j < |kinds|
    requires Rank(kinds[i]) < Rank(kinds[j])
    ensures i < j
  {
  }

  /** No label is collected exactly when all four fields are empty. */
  lemma {:induction false} ProvidedSourcesEmpty(inputs: Inputs)
    ensures ProvidedSources(inputs) == [] <==> AllSourcesEmpty(inputs)
  {
    if !AllSourcesEmpty(inputs) {
      var kind := if Provided(inputs.youtubeLinks) then YouTube
        else if Provided(inputs.webpageLinks) then WebPages
        else if Provided(inputs.documentPaths) then Documents
        else ResearchPapers;
      ProvidedSourcesMember(inputs, kind);
    }
  }

  /** The label of a kind if its field is truthy, as a list of zero or one labels. */
  function FieldLabel(inputs: Inputs, kind: SourceKind): seq<string> {
    if Provided(inputs.Field(kind)) then [Label(kind)] else []
  }

  /** The kind itself if its field is truthy, as a list of zero or one kinds. */
  function FieldKind(inputs: Inputs, kind: SourceKind): seq<SourceKind> {
    if Provided(inputs.Field(kind)) then [kind] else []
  }

  /** Filtering a list that starts with `kind` checks `kind` first, then the rest. */
  lemma {:induction false} ProvidedKindsCons(inputs: Inputs, kind: SourceKind, rest: seq<SourceKind>)
    ensures ProvidedKinds(inputs, [kind] + rest) == FieldKind(inputs, kind) + ProvidedKinds(inputs, rest)
  {
    assert ([kind] + rest)[1..] == rest;
  }

  /** Appending four lists, grouped to the left or to the right. */
  lemma {:induction false} AppendRegroup<T>(a: seq<T>, b: seq<T>, c: seq<T>, d: seq<T>)
    ensures ((a + b) + c) + d == a + (b + (c + d))
  {
  }

  /** Labelling distributes over concatenation. */
  lemma {:induction false} LabelsAppend(a: seq<SourceKind>, b: seq<SourceKind>)
    ensures Labels(a + b) == Labels(a) + Labels(b)
  {
  }

  /** The collected labels, spelled out field by field in check order. */
  lemma {:induction false} ProvidedSourcesUnfolds(inputs: Inputs)
    ensures ProvidedSources(inputs) ==
      FieldLabel(inputs, YouTube) + (FieldLabel(inputs, WebPages) +
      (FieldLabel(inputs, Documents) + FieldLabel(inputs, ResearchPapers)))
  {
    var p0, p1, p2, p3 :=
      ProvidedKinds(inputs, CheckOrder), ProvidedKinds(inputs, [WebPages, Documents, ResearchPapers]),
      ProvidedKinds(inputs, [Documents, ResearchPapers]), ProvidedKinds(inputs, [ResearchPapers]);
    var f0, f1, f2, f3 :=
      FieldKind(inputs, YouTube), FieldKind(inputs, WebPages),
      FieldKind(inputs, Documents), FieldKind(inputs, ResearchPapers);
    assert p3 == f3 by {
      ProvidedKindsCons(inputs, ResearchPapers, []);
      assert [ResearchPapers] == [ResearchPapers] + [];
    }
    assert p2 == f2 + p3 by {
      ProvidedKindsCons(inputs, Documents, [ResearchPapers]);
      assert [Documents, ResearchPapers] == [Documents] + [ResearchPapers];
    }
    assert p1 == f1 + p2 by {
      ProvidedKindsCons(inputs, WebPages, [Documents, ResearchPapers]);
      assert [WebPages, Documents, ResearchPapers] == [WebPages] + [Documents, ResearchPapers];
    }
    assert p0 == f0 + p1 by {
      ProvidedKindsCons(inputs, YouTube, [WebPages, Documents, ResearchPapers]);
      assert CheckOrder == [YouTube] + [WebPages, Documents, ResearchPapers];
    }
    LabelsAppend(f2, f3);
    LabelsAppend(f1, f2 + f3);
    LabelsAppend(f0, f1 + (f2 + f3));
    assert Labels(f0) == FieldLabel(inputs, YouTube);
    assert Labels(f1) == FieldLabel(inputs, WebPages);
    assert Labels(f2) == FieldLabel(inputs, Documents);
    assert Labels(f3) == FieldLabel(inputs, ResearchPapers);
  }

  /** Different kinds have different labels. */
  lemma {:induction false} LabelInjective(a: SourceKind, b: SourceKind)
    ensures Label(a) == Label(b) ==> a == b
  {
    if Label(a) == Label(b) {
      assert Label(a)[0] == Label(b)[0];
    }
  }

  /** Python's `field or "Not provided"`: a truthy field passes through, an empty one is replaced. */
  function OrNotProvided(field: Option<string>): (value: string)
    ensures value != ""
    ensures Provided(field) ==> value == field.value
    ensures !Provided(field) ==> value == NotProvided
  {
    if Provided(field) then field.value else NotProvided
  }

  /** The four arguments the research stage is started with. */
  datatype ResearchInputs = ResearchInputs(
    youtubeLinks: string,
    webpageLinks: string,
    researchPaperLinks: string,
    documentPaths: string)
  {
    function Argument(kind: SourceKind): string {
      match kind
      case YouTube => youtubeLinks
      case WebPages => webpageLinks
      case Documents => documentPaths
      case ResearchPapers => researchPaperLinks
    }
  }

  /**
   * The research stage's arguments: every field is passed, a truthy one
   * unchanged and an empty or absent one as "Not provided".
   */
  function KickoffInputs(inputs: Inputs): (args: ResearchInputs)
    ensures forall kind :: args.Argument(kind) != ""
    ensures forall kind :: Provided(inputs.Field(kind)) ==> args.Argument(kind) == inputs.Field(kind).value
    ensures forall kind :: !Provided(inputs.Field(kind)) ==> args.Argument(kind) == NotProvided
  {
    ResearchInputs(
      OrNotProvided(inputs.youtubeLinks),
      OrNotProvided(inputs.webpageLinks),
      OrNotProvided(inputs.researchPaperLinks),
      OrNotProvided(inputs.documentPaths))
  }

  /** The research stage cannot tell an absent field from an empty one. */
  lemma {:induction false} KickoffInputsIgnoresEmptiness(inputs: Inputs, other: Inputs)
    requires forall kind :: Provided(inputs.Field(kind)) <==> Provided(other.Field(kind))
    requires forall kind :: Provided(inputs.Field(kind)) ==> inputs.Field(kind) == other.Field(kind)
    ensures KickoffInputs(inputs) == KickoffInputs(other)
  {
    assert inputs.Field(YouTube) == inputs.youtubeLinks && other.Field(YouTube) == other.youtubeLinks;
    assert inputs.Field(WebPages) == inputs.webpageLinks && other.Field(WebPages) == other.webpageLinks;
    assert inputs.Field(Documents) == inputs.documentPaths && other.Field(Documents) == other.documentPaths;
    assert inputs.Field(ResearchPapers) == inputs.researchPaperLinks && other.Field(ResearchPapers) == other.researchPaperLinks;
  }

  /**
   * A state started with nothing supplied has no given source: nothing is
   * collected, the research stage would get "Not provided" in every slot,
   * and a run of the flow skips both stages.
   */
  lemma DefaultInputsEmpty()
    ensures AllSourcesEmpty(DefaultInputs)
    ensures ProvidedSources(DefaultInputs) == []
    ensures KickoffInputs(DefaultInputs) == ResearchInputs(NotProvided, NotProvided, NotProvided, NotProvided)
  {
    ProvidedSourcesEmpty(DefaultInputs);
  }
}
