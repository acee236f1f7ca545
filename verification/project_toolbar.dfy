/**
 * The toolbar above a project workspace (`components/project/project-toolbar.tsx`):
 * the variant picker, which starts on the base variant and falls back to
 * the first one, and the path chain with "/" between segments.
 */
module ProjectToolbar {
  import opened Common
  import opened Text
  import opened Projects

  /** `variants.findIndex(v => v.id === id)`, as an option. */
  function FindVariant(variants: seq<Variant>, id: string): (r: Option<nat>)
    ensures r.None? <==> forall i :: 0 <= i < |variants| ==> variants[i].id != id
    ensures r.Some? ==> r.value < |variants| && variants[r.value].id == id
    ensures r.Some? ==> forall j :: 0 <= j < r.value ==> variants[j].id != id
    decreases |variants|
  {
    if |variants| == 0 then None
    else if variants[0].id == id then Some(0)
    else
      match FindVariant(variants[1..], id)
      case None => None
      case Some(k) => Some(k + 1)
  }

  /**
   * `variants.find(v => v.id === selectedId) ?? variants[0]`: the first
   * variant with the selected id, else the first variant; `undefined`
   * (here `None`) only for an empty list.
   */
  function Selected(variants: seq<Variant>, selectedId: string): (r: Option<Variant>)
    ensures r.None? <==> |variants| == 0
    ensures FindVariant(variants, selectedId).Some? ==> r == Some(variants[FindVariant(variants, selectedId).value])
    ensures |variants| > 0 && FindVariant(variants, selectedId).None? ==> r == Some(variants[0])
  {
    match FindVariant(variants, selectedId)
    case Some(i) => Some(variants[i])
    case None => if |variants| == 0 then None else Some(variants[0])
  }

  /** The picker's state: only the selected id, as in `useState`. */
  datatype Picker = Picker(selectedId: string)

  /** `useState(baseVariantId)` */
  function Init(baseVariantId: string): (p: Picker)
    ensures p.selectedId == baseVariantId
  {
    Picker(baseVariantId)
  }

  /** `onClick={() => setSelectedId(v.id)}` */
  function Choose(p: Picker, v: Variant): (q: Picker)
    ensures q.selectedId == v.id
  {
    Picker(v.id)
  }

  predicate DistinctIds(variants: seq<Variant>) {
    forall i, j :: 0 <= i < j < |variants| ==> variants[i].id != variants[j].id
  }

  /** Choosing a listed variant shows it, when ids are distinct. */
  lemma ChooseShowsChoice(p: Picker, variants: seq<Variant>, i: int)
    requires DistinctIds(variants) && 0 <= i < |variants|
    ensures Selected(variants, Choose(p, variants[i]).selectedId) == Some(variants[i])
  {
    var k := FindVariant(variants, variants[i].id);
    assert k.Some?;
  }

  /**
   * A project whose base id names a base variant, with distinct ids,
   * opens its picker on that base variant.
   */
  lemma PickerStartsOnBase(p: ProjectData)
    requires BaseVariantConsistent(p) && DistinctIds(p.variants)
    ensures var s := Selected(p.variants, Init(p.baseVariantId).selectedId);
      s.Some? && s.value.id == p.baseVariantId && s.value.kind == "base"
  {
    var i :| 0 <= i < |p.variants| && p.variants[i].id == p.baseVariantId && p.variants[i].kind == "base";
    ChooseShowsChoice(Init(p.baseVariantId), p.variants, i);
  }

  /** Every shipped project opens on its base variant. */
  lemma DemoPickersStartOnBase(i: int)
    requires 0 <= i < |DemoProjects|
    ensures var p := DemoProjects[i];
      var s := Selected(p.variants, Init(p.baseVariantId).selectedId);
      s.Some? && s.value.id == p.baseVariantId && s.value.kind == "base"
  {
    DemoProjectsConsistent();
    assert DistinctIds(DemoProjects[i].variants);
    PickerStartsOnBase(DemoProjects[i]);
  }

  /** One rendered path segment: its text and whether a "/" follows it. */
  datatype PathSpan = PathSpan(segment: string, slash: bool)

  /** `pathChain.map((seg, i) => seg + (i < length - 1 ? "/" : ""))` */
  function PathSpans(chain: seq<string>): (r: seq<PathSpan>)
    ensures |r| == |chain|
    ensures forall i :: 0 <= i < |r| ==> r[i].segment == chain[i] && (r[i].slash <==> i < |chain| - 1)
  {
    seq(|chain|, i requires 0 <= i < |chain| => PathSpan(chain[i], i < |chain| - 1))
  }

  /** The text of rendered spans, one after another. */
  function SpansText(spans: seq<PathSpan>): string
    decreases |spans|
  {
    if |spans| == 0 then ""
    else spans[0].segment + (if spans[0].slash then "/" else "") + SpansText(spans[1..])
  }

  /** The rendered chain reads as the segments joined by "/". */
  lemma {:induction false} PathChainText(chain: seq<string>)
    ensures SpansText(PathSpans(chain)) == Join(chain, '/')
    decreases |chain|
  {
    if |chain| > 0 {
      var r := PathSpans(chain);
      PathChainText(chain[1..]);
      assert r[1..] == PathSpans(chain[1..]);
      if |chain| == 1 {
        assert SpansText(r) == chain[0] + "" + SpansText(r[1..]);
      } else {
        assert SpansText(r) == chain[0] + "/" + SpansText(r[1..]);
      }
    }
  }
}
