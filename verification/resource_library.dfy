/**
 * The resource library: a case-insensitive search over title, description and tags,
 * combined with a category filter ("All" or one category), and the icon and colour chosen
 * for each resource type. The fixed catalogue is a parameter.
 */
module ResourceLibrary {
  import Seqs
  import Text

  datatype Resource = Resource(
    id: string, title: string, description: string, category: string,
    resourceType: string, url: string, tags: seq<string>)

  const AllCategories := "All"

  /** `text.toLowerCase().includes(term.toLowerCase())`. */
  predicate MentionsTerm(text: string, term: string)
  {
    Text.Contains(Text.ToLower(text), Text.ToLower(term))
  }

  /** The search part of the filter: the term occurs in the title, the description or some tag. */
  predicate MatchesSearch(r: Resource, term: string)
  {
    || MentionsTerm(r.title, term)
    || MentionsTerm(r.description, term)
    || (exists tag :: tag in r.tags && MentionsTerm(tag, term))
  }

  /** The category part of the filter: "All" admits every category. */
  predicate MatchesCategory(r: Resource, category: string)
  {
    category == AllCategories || r.category == category
  }

  predicate Matches(r: Resource, term: string, category: string)
  {
    MatchesSearch(r, term) && MatchesCategory(r, category)
  }

  /** `filteredResources`. */
  function FilteredResources(resources: seq<Resource>, term: string, category: string): (r: seq<Resource>)
    ensures |r| <= |resources|
  {
    Seqs.Filter((x: Resource) => Matches(x, term, category), resources)
  }

  /** The result holds exactly the matching resources, in catalogue order. */
  lemma FilteredResourcesMeaning(resources: seq<Resource>, term: string, category: string)
    ensures forall x :: x in FilteredResources(resources, term, category) <==>
      x in resources && MatchesSearch(x, term) && MatchesCategory(x, category)
    ensures Seqs.IsSubsequence(FilteredResources(resources, term, category), resources)
  {
    Seqs.FilterIsSubsequence((x: Resource) => Matches(x, term, category), resources);
  }

  /** With an empty search term and "All", every resource is listed. */
  lemma EmptySearchListsAll(resources: seq<Resource>)
    ensures FilteredResources(resources, "", AllCategories) == resources
  {
    forall x | x in resources
      ensures Matches(x, "", AllCategories)
    {
      Text.ContainsEmpty(Text.ToLower(x.title));
    }
    Seqs.FilterKeepsAll((x: Resource) => Matches(x, "", AllCategories), resources);
  }

  /** An empty term restricts nothing: the result is the category filter alone. */
  lemma EmptySearchIsCategoryOnly(resources: seq<Resource>, category: string)
    ensures forall x :: x in FilteredResources(resources, "", category) <==>
      x in resources && MatchesCategory(x, category)
  {
    forall x | x in resources
      ensures MatchesSearch(x, "")
    {
      Text.ContainsEmpty(Text.ToLower(x.title));
    }
  }

  /** Two search terms that differ only in the case of ASCII letters give the same list. */
  lemma SearchIgnoresCase(resources: seq<Resource>, term: string, other: string, category: string)
    requires Text.ToLower(term) == Text.ToLower(other)
    ensures FilteredResources(resources, term, category) == FilteredResources(resources, other, category)
  {
    Seqs.FilterAgreeing(
      (x: Resource) => Matches(x, term, category),
      (x: Resource) => Matches(x, other, category),
      resources);
  }

  /** In particular, searching for a term or for its lower-case form is the same. */
  lemma SearchForLowerCase(resources: seq<Resource>, term: string, category: string)
    ensures FilteredResources(resources, Text.ToLower(term), category) == FilteredResources(resources, term, category)
  {
    Text.ToLowerIdempotent(term);
    SearchIgnoresCase(resources, Text.ToLower(term), term, category);
  }

  /** The icons of `getTypeIcon`. */
  datatype TypeIcon = BookOpen | Zap | Brain | Heart

  /** The colour classes of `getTypeColor`, by the colour they use. */
  datatype TypeColor = Blue | Red | Green | Purple | Gray

  /** The four resource types the catalogue uses. */
  predicate IsKnownType(t: string)
  {
    t == "article" || t == "video" || t == "podcast" || t == "tool"
  }

  /** `getTypeIcon`: a switch on the type string whose default is the article icon. */
  function TypeIconOf(t: string): (icon: TypeIcon)
    ensures icon == BookOpen <==> !IsKnownType(t) || t == "article"
  {
    if t == "article" then BookOpen
    else if t == "video" then Zap
    else if t == "podcast" then Brain
    else if t == "tool" then Heart
    else BookOpen
  }

  /** `getTypeColor`: a switch on the type string with a gray default. */
  function TypeColorOf(t: string): (color: TypeColor)
    ensures color == Gray <==> !IsKnownType(t)
  {
    if t == "article" then Blue
    else if t == "video" then Red
    else if t == "podcast" then Green
    else if t == "tool" then Purple
    else Gray
  }

  /**
   * Each known type has its own colour and icon; an unknown type gets the gray colour and
   * the same icon as an article.
   */
  lemma TypeLookupsDistinguishKnownTypes(t: string, u: string)
    ensures IsKnownType(t) && IsKnownType(u) && t != u ==>
      TypeColorOf(t) != TypeColorOf(u) && TypeIconOf(t) != TypeIconOf(u)
    ensures IsKnownType(t) <==> TypeColorOf(t) != Gray
    ensures !IsKnownType(t) ==> TypeIconOf(t) == TypeIconOf("article")
  {
  }
}
