/** The content registry of the diagrams app: five loaders keyed by slug,
    a membership test on the registry's own keys, the list of slugs, and
    the lookup that wraps a slug's content in an envelope. The static
    content objects are opaque here; each is one value of `Content`, and a
    loader's promise is the value it resolves to. */
module ContentRegistry {
  import opened Wrappers

  /** The five static content objects, as opaque values. */
  datatype Content = HomeContent | JourneyContent | BpmnContent | ArchitectureContent | CalendarContent

  datatype Loader = Loader(slug: string, content: Content)

  /** The registry's own properties, in declaration order. */
  const Loaders: seq<Loader> := [
    Loader("home", HomeContent),
    Loader("journey", JourneyContent),
    Loader("bpmn", BpmnContent),
    Loader("arquitectura", ArchitectureContent),
    Loader("calendario", CalendarContent)
  ]

  /** The list the content index route serves. */
  const RouteSlugs: seq<string> := ["home", "journey", "bpmn", "arquitectura", "calendario"]

  /** Names every plain object inherits from `Object.prototype`; an `in`
      test would accept them, an own-property test does not. */
  const InheritedNames: seq<string> := [
    "constructor", "toString", "toLocaleString", "valueOf", "hasOwnProperty",
    "isPrototypeOf", "propertyIsEnumerable", "__proto__"
  ]

  datatype Envelope = Envelope(slug: string, data: Content)

  /** `isContentSlug`: `s` is an own key of the registry. */
  predicate IsContentSlug(s: string) {
    exists i :: 0 <= i < |Loaders| && Loaders[i].slug == s
  }

  /** `availableContentSlugs`: the registry's keys in declaration order. */
  function AvailableContentSlugs(): (r: seq<string>)
    ensures |r| == |Loaders|
    ensures forall i :: 0 <= i < |r| ==> r[i] == Loaders[i].slug
  {
    seq(|Loaders|, i requires 0 <= i < |Loaders| => Loaders[i].slug)
  }

  /** The content a slug's loader resolves to; absent for a non-slug. */
  function Load(s: string): (r: Option<Content>)
    ensures r.Some? <==> IsContentSlug(s)
    ensures r.Some? ==> exists i :: 0 <= i < |Loaders| && Loaders[i] == Loader(s, r.value)
  {
    LoadFrom(Loaders, s)
  }

  function LoadFrom(ls: seq<Loader>, s: string): (r: Option<Content>)
    ensures r.Some? <==> exists i :: 0 <= i < |ls| && ls[i].slug == s
    ensures r.Some? ==> exists i :: 0 <= i < |ls| && ls[i] == Loader(s, r.value)
  {
    if |ls| == 0 then None
    else if ls[0].slug == s then Some(ls[0].content)
    else
      var r := LoadFrom(ls[1..], s);
      assert forall i :: 0 < i < |ls| ==> ls[i] == ls[1..][i - 1];
      r
  }

  /** `getContentBySlug`: null for anything but a registry key; otherwise
      the input slug with its content. */
  function GetContentBySlug(s: string): (r: Option<Envelope>)
    ensures r.None? <==> !IsContentSlug(s)
    ensures r.Some? ==> r.value.slug == s
    ensures r.Some? ==> exists i :: 0 <= i < |Loaders| && Loaders[i] == Loader(s, r.value.data)
  {
    match Load(s)
    case None => None
    case Some(c) => Some(Envelope(s, c))
  }

  /** The typed getters read the registry's entry for their key directly. */
  function GetHomeContent(): Content { Loaders[0].content }
  function GetJourneyContent(): Content { Loaders[1].content }
  function GetBpmnContent(): Content { Loaders[2].content }
  function GetArchitectureContent(): Content { Loaders[3].content }
  function GetCalendarContent(): Content { Loaders[4].content }

  // ------------------------------------------------------------ properties

  /** The registry's keys are pairwise distinct, so each slug has exactly
      one loader. */
  lemma SlugsDistinct()
    ensures forall i, j :: 0 <= i < j < |Loaders| ==> Loaders[i].slug != Loaders[j].slug
  {
  }

  /** Exactly the five slugs pass the test. */
  lemma IsContentSlugExactly(s: string)
    ensures IsContentSlug(s) <==> s in {"home", "journey", "bpmn", "arquitectura", "calendario"}
  {
    if s in {"home", "journey", "bpmn", "arquitectura", "calendario"} {
      if s == "home" { assert Loaders[0].slug == s; }
      else if s == "journey" { assert Loaders[1].slug == s; }
      else if s == "bpmn" { assert Loaders[2].slug == s; }
      else if s == "arquitectura" { assert Loaders[3].slug == s; }
      else { assert Loaders[4].slug == s; }
    }
  }

  /** Inherited property names are not slugs, and looking one up gives
      null. */
  lemma InheritedRejected(s: string)
    requires s in InheritedNames
    ensures !IsContentSlug(s)
    ensures GetContentBySlug(s).None?
  {
    IsContentSlugExactly(s);
  }

  /** The advertised list is the membership test's extension and matches
      the index route's list entry for entry. */
  lemma AvailableMatchesRoute()
    ensures AvailableContentSlugs() == RouteSlugs
    ensures forall s :: s in AvailableContentSlugs() <==> IsContentSlug(s)
  {
    assert AvailableContentSlugs() == RouteSlugs;
    forall s ensures s in AvailableContentSlugs() <==> IsContentSlug(s) {
      if IsContentSlug(s) {
        var i :| 0 <= i < |Loaders| && Loaders[i].slug == s;
        assert AvailableContentSlugs()[i] == s;
      }
    }
  }

  /** Every advertised slug resolves, to an envelope carrying that slug. */
  lemma AvailableResolve(i: nat)
    requires i < |AvailableContentSlugs()|
    ensures GetContentBySlug(AvailableContentSlugs()[i]) ==
              Some(Envelope(AvailableContentSlugs()[i], Loaders[i].content))
  {
    SlugsDistinct();
    assert IsContentSlug(Loaders[i].slug);
  }

  /** Each typed getter returns what the slug lookup returns for its key. */
  lemma GettersAgree()
    ensures GetContentBySlug("home") == Some(Envelope("home", GetHomeContent()))
    ensures GetContentBySlug("journey") == Some(Envelope("journey", GetJourneyContent()))
    ensures GetContentBySlug("bpmn") == Some(Envelope("bpmn", GetBpmnContent()))
    ensures GetContentBySlug("arquitectura") == Some(Envelope("arquitectura", GetArchitectureContent()))
    ensures GetContentBySlug("calendario") == Some(Envelope("calendario", GetCalendarContent()))
    ensures GetHomeContent() == HomeContent && GetJourneyContent() == JourneyContent
    ensures GetBpmnContent() == BpmnContent && GetArchitectureContent() == ArchitectureContent
    ensures GetCalendarContent() == CalendarContent
  {
    AvailableResolve(0);
    AvailableResolve(1);
    AvailableResolve(2);
    AvailableResolve(3);
    AvailableResolve(4);
  }
}
