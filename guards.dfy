/**
 * The page-data kind predicates of the source package.
 *
 * A page-data value is a plain object; which kind of page it describes is told
 * by boolean discriminant properties such as `isPost` or `isTaxonomy`. Each
 * predicate reads one of those properties and answers `true` exactly when it is
 * present and strictly equal to `true`. The static narrowing that the
 * predicates also perform is a matter of the type checker and has no runtime
 * effect, so only the boolean answer is modelled.
 */
module DataGuards {
  import opened Wrappers

  /** A page-data value, reduced to its fifteen discriminant properties.
      `None` is an absent property, `Some(b)` a present boolean. */
  datatype Data = Data(
    isError: Option<bool>,
    isArchive: Option<bool>,
    isSearch: Option<bool>,
    isTaxonomy: Option<bool>,
    isCategory: Option<bool>,
    isTag: Option<bool>,
    isAuthor: Option<bool>,
    isDate: Option<bool>,
    isPostTypeArchive: Option<bool>,
    isPostArchive: Option<bool>,
    isPostType: Option<bool>,
    isPost: Option<bool>,
    isPage: Option<bool>,
    isAttachment: Option<bool>,
    isComments: Option<bool>
  )

  /** The object with no discriminant property at all. */
  const Empty := Data(None, None, None, None, None, None, None, None,
                      None, None, None, None, None, None, None)

  /** JavaScript's `value === true` on a property that may be absent. */
  predicate StrictTrue(v: Option<bool>) {
    v == Some(true)
  }

  // ---------------------------------------------------------------------
  // The twenty-two predicates, one per exported function of the source.
  // ---------------------------------------------------------------------

  predicate IsError(data: Data) { StrictTrue(data.isError) }
  predicate IsArchive(data: Data) { StrictTrue(data.isArchive) }
  predicate IsSearch(data: Data) { StrictTrue(data.isSearch) }
  predicate IsTaxonomy(data: Data) { StrictTrue(data.isTaxonomy) }
  /** Tests `isTaxonomy` only; `isSearch` is not consulted. */
  predicate IsTaxonomyWithSearch(data: Data) { StrictTrue(data.isTaxonomy) }
  predicate IsCategory(data: Data) { StrictTrue(data.isCategory) }
  /** Tests `isCategory` only; `isSearch` is not consulted. */
  predicate IsCategoryWithSearch(data: Data) { StrictTrue(data.isCategory) }
  predicate IsTag(data: Data) { StrictTrue(data.isTag) }
  /** Tests `isTag` only; `isSearch` is not consulted. */
  predicate IsTagWithSearch(data: Data) { StrictTrue(data.isTag) }
  predicate IsAuthor(data: Data) { StrictTrue(data.isAuthor) }
  /** Tests `isAuthor` only; `isSearch` is not consulted. */
  predicate IsAuthorWithSearch(data: Data) { StrictTrue(data.isAuthor) }
  predicate IsDate(data: Data) { StrictTrue(data.isDate) }
  /** Tests `isDate` only; `isSearch` is not consulted. */
  predicate IsDateWithSearch(data: Data) { StrictTrue(data.isDate) }
  predicate IsPostTypeArchive(data: Data) { StrictTrue(data.isPostTypeArchive) }
  /** Tests `isPostTypeArchive` only; `isSearch` is not consulted. */
  predicate IsPostTypeArchiveWithSearch(data: Data) { StrictTrue(data.isPostTypeArchive) }
  predicate IsPostArchive(data: Data) { StrictTrue(data.isPostArchive) }
  /** Tests `isPostArchive` only; `isSearch` is not consulted. */
  predicate IsPostArchiveWithSearch(data: Data) { StrictTrue(data.isPostArchive) }
  predicate IsPostType(data: Data) { StrictTrue(data.isPostType) }
  predicate IsPost(data: Data) { StrictTrue(data.isPost) }
  predicate IsPage(data: Data) { StrictTrue(data.isPage) }
  predicate IsAttachment(data: Data) { StrictTrue(data.isAttachment) }
  predicate IsComments(data: Data) { StrictTrue(data.isComments) }

  // ---------------------------------------------------------------------
  // Naming the discriminants and the predicates, so that properties of all
  // twenty-two can be stated once.
  // ---------------------------------------------------------------------

  /** The fifteen discriminant properties. */
  datatype Field =
    | Error | Archive | Search | Taxonomy | Category | Tag | Author | Date
    | PostTypeArchive | PostArchive | PostType | Post | Page | Attachment | Comments

  /** The seven archive kinds that have a `…WithSearch` predicate. */
  datatype SearchableKind =
    | TaxonomyKind | CategoryKind | TagKind | AuthorKind | DateKind
    | PostTypeArchiveKind | PostArchiveKind

  /** The twenty-two predicates: one base predicate per discriminant and one
      `…WithSearch` predicate per searchable archive kind. */
  datatype Guard = Base(field: Field) | WithSearch(kind: SearchableKind)

  /** The discriminant a searchable archive kind is tagged with. */
  function Primary(k: SearchableKind): Field {
    match k
    case TaxonomyKind => Taxonomy
    case CategoryKind => Category
    case TagKind => Tag
    case AuthorKind => Author
    case DateKind => Date
    case PostTypeArchiveKind => PostTypeArchive
    case PostArchiveKind => PostArchive
  }

  /** The searchable archive kind a discriminant tags, if there is one. */
  function SearchVariant(f: Field): (r: Option<SearchableKind>)
    ensures r.Some? ==> Primary(r.value) == f
    ensures forall k :: Primary(k) == f ==> r == Some(k)
  {
    match f
    case Taxonomy => Some(TaxonomyKind)
    case Category => Some(CategoryKind)
    case Tag => Some(TagKind)
    case Author => Some(AuthorKind)
    case Date => Some(DateKind)
    case PostTypeArchive => Some(PostTypeArchiveKind)
    case PostArchive => Some(PostArchiveKind)
    case _ => None
  }

  /** Reading a discriminant property of a value. */
  function Get(d: Data, f: Field): Option<bool> {
    match f
    case Error => d.isError
    case Archive => d.isArchive
    case Search => d.isSearch
    case Taxonomy => d.isTaxonomy
    case Category => d.isCategory
    case Tag => d.isTag
    case Author => d.isAuthor
    case Date => d.isDate
    case PostTypeArchive => d.isPostTypeArchive
    case PostArchive => d.isPostArchive
    case PostType => d.isPostType
    case Post => d.isPost
    case Page => d.isPage
    case Attachment => d.isAttachment
    case Comments => d.isComments
  }

  /** The value `d` with discriminant property `f` replaced by `v`
      (`v == None` deletes the property). */
  function Set(d: Data, f: Field, v: Option<bool>): (r: Data)
    ensures Get(r, f) == v
    ensures forall g :: g != f ==> Get(r, g) == Get(d, g)
  {
    match f
    case Error => d.(isError := v)
    case Archive => d.(isArchive := v)
    case Search => d.(isSearch := v)
    case Taxonomy => d.(isTaxonomy := v)
    case Category => d.(isCategory := v)
    case Tag => d.(isTag := v)
    case Author => d.(isAuthor := v)
    case Date => d.(isDate := v)
    case PostTypeArchive => d.(isPostTypeArchive := v)
    case PostArchive => d.(isPostArchive := v)
    case PostType => d.(isPostType := v)
    case Post => d.(isPost := v)
    case Page => d.(isPage := v)
    case Attachment => d.(isAttachment := v)
    case Comments => d.(isComments := v)
  }

  /** The object whose only property is discriminant `f`, set to `true`. */
  function Only(f: Field): Data {
    Set(Empty, f, Some(true))
  }

  /** Evaluating the predicate named by `g` on `d`. */
  predicate Holds(g: Guard, d: Data) {
    match g
    case Base(Error) => IsError(d)
    case Base(Archive) => IsArchive(d)
    case Base(Search) => IsSearch(d)
    case Base(Taxonomy) => IsTaxonomy(d)
    case Base(Category) => IsCategory(d)
    case Base(Tag) => IsTag(d)
    case Base(Author) => IsAuthor(d)
    case Base(Date) => IsDate(d)
    case Base(PostTypeArchive) => IsPostTypeArchive(d)
    case Base(PostArchive) => IsPostArchive(d)
    case Base(PostType) => IsPostType(d)
    case Base(Post) => IsPost(d)
    case Base(Page) => IsPage(d)
    case Base(Attachment) => IsAttachment(d)
    case Base(Comments) => IsComments(d)
    case WithSearch(TaxonomyKind) => IsTaxonomyWithSearch(d)
    case WithSearch(CategoryKind) => IsCategoryWithSearch(d)
    case WithSearch(TagKind) => IsTagWithSearch(d)
    case WithSearch(AuthorKind) => IsAuthorWithSearch(d)
    case WithSearch(DateKind) => IsDateWithSearch(d)
    case WithSearch(PostTypeArchiveKind) => IsPostTypeArchiveWithSearch(d)
    case WithSearch(PostArchiveKind) => IsPostArchiveWithSearch(d)
  }

  /** The one discriminant the predicate `g` reads. */
  function Reads(g: Guard): (f: Field)
    ensures g.WithSearch? ==> f != Search
  {
    match g
    case Base(f) => f
    case WithSearch(k) => Primary(k)
  }

  // ---------------------------------------------------------------------
  // Properties.
  // ---------------------------------------------------------------------

  /** Every predicate answers `true` exactly when its own discriminant is
      present and strictly `true`: an absent property or `false` gives `false`. */
  lemma {:induction false} GuardReadsOwnField(g: Guard, d: Data)
    ensures Holds(g, d) <==> Get(d, Reads(g)) == Some(true)
    ensures Get(d, Reads(g)) == None ==> !Holds(g, d)
    ensures Get(d, Reads(g)) == Some(false) ==> !Holds(g, d)
  {
  }

  /** Locality: changing any discriminant other than the one `g` reads never
      changes the answer of `g`. */
  lemma {:induction false} GuardLocality(g: Guard, d: Data, f: Field, v: Option<bool>)
    requires f != Reads(g)
    ensures Holds(g, Set(d, f, v)) == Holds(g, d)
  {
  }

  /** Two values that agree on the discriminant `g` reads get the same answer. */
  lemma {:induction false} GuardDependsOnlyOnOwnField(g: Guard, d1: Data, d2: Data)
    requires Get(d1, Reads(g)) == Get(d2, Reads(g))
    ensures Holds(g, d1) == Holds(g, d2)
  {
  }

  /** Every `…WithSearch` predicate agrees with its base predicate. */
  lemma {:induction false} WithSearchIsBase(k: SearchableKind, d: Data)
    ensures Holds(WithSearch(k), d) == Holds(Base(Primary(k)), d)
  {
  }

  /** When exactly one discriminant is `true`, the predicates that answer `true`
      are that discriminant's base predicate and its `…WithSearch` twin. */
  lemma {:induction false} SingleDiscriminant(d: Data, f: Field)
    requires forall h :: Get(d, h) == Some(true) <==> h == f
    ensures forall g :: Holds(g, d) <==>
      (g == Base(f) || (SearchVariant(f).Some? && g == WithSearch(SearchVariant(f).value)))
  {
    forall g
      ensures Holds(g, d) <==>
        (g == Base(f) || (SearchVariant(f).Some? && g == WithSearch(SearchVariant(f).value)))
    {
      GuardReadsOwnField(g, d);
    }
  }

  /** When the only true discriminants are a searchable archive kind and
      `isSearch`, the predicates that answer `true` are that kind's base
      predicate, its `…WithSearch` twin and `isSearch`, and no others. */
  lemma {:induction false} SearchableWithSearch(d: Data, k: SearchableKind)
    requires forall h :: Get(d, h) == Some(true) <==> (h == Primary(k) || h == Search)
    ensures forall g :: Holds(g, d) <==>
      (g == Base(Primary(k)) || g == WithSearch(k) || g == Base(Search))
  {
    forall g
      ensures Holds(g, d) <==> (g == Base(Primary(k)) || g == WithSearch(k) || g == Base(Search))
    {
      GuardReadsOwnField(g, d);
    }
  }

  /** The minimal value carrying one discriminant: exactly the predicates that
      read that discriminant answer `true`. */
  lemma {:induction false} OnlyFieldGuards(f: Field)
    ensures forall g :: Holds(g, Only(f)) <==> Reads(g) == f
    ensures forall g :: Holds(g, Only(f)) <==>
      (g == Base(f) || (SearchVariant(f).Some? && g == WithSearch(SearchVariant(f).value)))
  {
  }

  /** No `…WithSearch` predicate reads `isSearch`: setting, clearing or
      deleting it leaves the answer unchanged. */
  lemma {:induction false} WithSearchIgnoresSearch(k: SearchableKind, d: Data, v: Option<bool>)
    ensures Holds(WithSearch(k), Set(d, Search, v)) == Holds(WithSearch(k), d)
  {
  }

  /** Hence a `…WithSearch` predicate holds of a value with no `isSearch`
      property at all, such as `{ isTaxonomy: true }`. */
  lemma {:induction false} WithSearchWithoutSearch(k: SearchableKind)
    ensures Holds(WithSearch(k), Only(Primary(k)))
    ensures !IsSearch(Only(Primary(k)))
  {
  }

  /** With both the primary discriminant and `isSearch` set, the base
      predicate, the `…WithSearch` predicate and `isSearch` all hold. */
  lemma {:induction false} WithSearchAndSearch(k: SearchableKind)
    ensures var d := Set(Only(Primary(k)), Search, Some(true));
      Holds(Base(Primary(k)), d) && Holds(WithSearch(k), d) && IsSearch(d)
  {
  }

  /** `isSearch` depends on the `isSearch` property alone, whatever primary
      kind is set. */
  lemma {:induction false} SearchIgnoresPrimaryKinds(d: Data, f: Field, v: Option<bool>)
    requires f != Search
    ensures IsSearch(Set(d, f, v)) == IsSearch(d)
  {
  }

  /** The family hierarchy is not inferred: a value tagged with an archive
      kind but carrying no `isArchive` property is not an archive. */
  lemma {:induction false} HierarchyNotInferred(d: Data)
    requires d.isArchive == None
    ensures !IsArchive(d)
    ensures IsCategory(Only(Category)) && !IsArchive(Only(Category))
  {
  }

  /** The twenty-two predicates, in the order they are exported. */
  const AllGuards: seq<Guard> := [
    Base(Error), Base(Archive), Base(Search), Base(Taxonomy), WithSearch(TaxonomyKind),
    Base(Category), WithSearch(CategoryKind), Base(Tag), WithSearch(TagKind),
    Base(Author), WithSearch(AuthorKind), Base(Date), WithSearch(DateKind),
    Base(PostTypeArchive), WithSearch(PostTypeArchiveKind),
    Base(PostArchive), WithSearch(PostArchiveKind),
    Base(PostType), Base(Post), Base(Page), Base(Attachment), Base(Comments)
  ]

  /** `Guard` names exactly the exported predicates, each once. */
  lemma {:induction false} AllGuardsListed()
    ensures |AllGuards| == 22
    ensures forall g :: g in AllGuards
    ensures forall i, j :: 0 <= i < j < |AllGuards| ==> AllGuards[i] != AllGuards[j]
  {
    forall g ensures g in AllGuards {
      match g
      case Base(f) => {
        match f
        case Error => assert AllGuards[0] == g;
        case Archive => assert AllGuards[1] == g;
        case Search => assert AllGuards[2] == g;
        case Taxonomy => assert AllGuards[3] == g;
        case Category => assert AllGuards[5] == g;
        case Tag => assert AllGuards[7] == g;
        case Author => assert AllGuards[9] == g;
        case Date => assert AllGuards[11] == g;
        case PostTypeArchive => assert AllGuards[13] == g;
        case PostArchive => assert AllGuards[15] == g;
        case PostType => assert AllGuards[17] == g;
        case Post => assert AllGuards[18] == g;
        case Page => assert AllGuards[19] == g;
        case Attachment => assert AllGuards[20] == g;
        case Comments => assert AllGuards[21] == g;
      }
      case WithSearch(k) => {
        match k
        case TaxonomyKind => assert AllGuards[4] == g;
        case CategoryKind => assert AllGuards[6] == g;
        case TagKind => assert AllGuards[8] == g;
        case AuthorKind => assert AllGuards[10] == g;
        case DateKind => assert AllGuards[12] == g;
        case PostTypeArchiveKind => assert AllGuards[14] == g;
        case PostArchiveKind => assert AllGuards[16] == g;
      }
    }
  }

  /** The sample calls: `isPost({isPost: true})` and `isPage` on it,
      `isTaxonomyWithSearch` with and without `isSearch`. */
  lemma {:induction false} SampleCalls()
    ensures IsPost(Only(Post))
    ensures !IsPost(Only(Page))
    ensures IsTaxonomyWithSearch(Set(Only(Taxonomy), Search, Some(true)))
    ensures IsTaxonomyWithSearch(Only(Taxonomy))
  {
  }
}
