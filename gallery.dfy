/** The public photo gallery: the category chips (a fixed "Todas" chip followed by the
    stored categories, each with an icon looked up by label) and the photos shown
    for the active chip. The gallery reads the photo and category lists from browser
    storage once; they are parameters here, kept decoded. */
module Gallery {
  import opened Wrappers
  import opened Seqs
  import Photos

  /** The icons a category may ask for. */
  datatype Icon = UtensilsCrossed | Cake | Cookie | Pizza | TruckIcon | PartyPopper

  datatype IconOption = IconOption(name: string, icon: Icon)

  /** The list of selectable icons, in order. */
  const IconOptions: seq<IconOption> := [
    IconOption("UtensilsCrossed", UtensilsCrossed),
    IconOption("Cake", Cake),
    IconOption("Cookie", Cookie),
    IconOption("Pizza", Pizza),
    IconOption("TruckIcon", TruckIcon),
    IconOption("PartyPopper", PartyPopper)
  ]

  /** A stored category: the label shown on its chip (`name`; `label` is a reserved
      word here) and the label of its icon. */
  datatype Category = Category(name: string, iconLabel: string)

  /** The icon of a chip: the drawn circle of the "Todas" chip, or a named icon. */
  datatype ChipIcon = AllIcon | Named(icon: Icon)

  datatype Chip = Chip(name: string, icon: ChipIcon)

  /** The label of the chip that shows every photo. */
  const AllLabel := "Todas"

  function HasLabel(name: string): IconOption -> bool {
    (opt: IconOption) => opt.name == name
  }

  /** `getIconByLabel`: the icon of the first option labelled `name`, Cake if none is. */
  function GetIconByLabel(name: string): Icon {
    match Find(IconOptions, HasLabel(name))
    case Some(opt) => opt.icon
    case None => Cake
  }

  /** `allCategories`: the "Todas" chip, then one chip per stored category. */
  function AllCategories(categories: seq<Category>): seq<Chip> {
    [Chip(AllLabel, AllIcon)] +
    seq(|categories|, i requires 0 <= i < |categories| => ChipOf(categories[i]))
  }

  /** The chip of a stored category: its label and the icon its icon label names. */
  function ChipOf(c: Category): Chip {
    Chip(c.name, Named(GetIconByLabel(c.iconLabel)))
  }

  function InCategory(name: string): Photos.Photo -> bool {
    (p: Photos.Photo) => p.category == name
  }

  /** `filteredPhotos`: every photo under "Todas", otherwise those of the active category. */
  function FilteredPhotos(photos: seq<Photos.Photo>, activeCategory: string): seq<Photos.Photo> {
    if activeCategory == AllLabel then photos else Filter(photos, InCategory(activeCategory))
  }

  /** The lists after the one-time load: what storage holds, or nothing. */
  function Loaded<T>(saved: Option<seq<T>>): seq<T> {
    saved.GetOr([])
  }

  // What the gallery promises

  /** No two options share a label (their lengths already differ). */
  lemma LabelsDistinct()
    ensures forall a, b :: 0 <= a < b < |IconOptions| ==> IconOptions[a].name != IconOptions[b].name
  {
    var lengths := [15, 4, 6, 5, 9, 11];
    assert forall a :: 0 <= a < |IconOptions| ==> |IconOptions[a].name| == lengths[a];
  }

  /** Each of the six labels gives its own icon, and any other label gives Cake. */
  lemma IconByLabel(name: string)
    ensures forall i :: 0 <= i < |IconOptions| && IconOptions[i].name == name ==>
              GetIconByLabel(name) == IconOptions[i].icon
    ensures (forall i :: 0 <= i < |IconOptions| ==> IconOptions[i].name != name) ==>
              GetIconByLabel(name) == Cake
  {
    var r := Find(IconOptions, HasLabel(name));
    if r.Some? {
      var k :| 0 <= k < |IconOptions| && IconOptions[k] == r.value && HasLabel(name)(IconOptions[k]) &&
               forall j :: 0 <= j < k ==> !HasLabel(name)(IconOptions[j]);
      LabelsDistinct();
      forall i | 0 <= i < |IconOptions| && IconOptions[i].name == name
        ensures GetIconByLabel(name) == IconOptions[i].icon
      {
        assert !(i < k) && !(k < i);
      }
    }
  }

  /** The chip list is "Todas" followed by the stored categories in order, one chip
      each, so it has one chip more than there are categories. */
  lemma ChipList(categories: seq<Category>)
    ensures |AllCategories(categories)| == |categories| + 1
    ensures AllCategories(categories)[0] == Chip("Todas", AllIcon)
    ensures forall i :: 0 <= i < |categories| ==>
              AllCategories(categories)[i + 1].name == categories[i].name &&
              AllCategories(categories)[i + 1].icon == Named(GetIconByLabel(categories[i].iconLabel))
  {
    forall i | 0 <= i < |categories|
      ensures AllCategories(categories)[i + 1] == ChipOf(categories[i])
    {
    }
  }

  /** Under "Todas" every photo is shown; under any other label exactly the photos of
      that category are, as often as they occur and in their order. */
  lemma FilterByCategory(photos: seq<Photos.Photo>, activeCategory: string)
    ensures activeCategory == "Todas" ==> FilteredPhotos(photos, activeCategory) == photos
    ensures activeCategory != "Todas" ==>
              (forall p :: p in FilteredPhotos(photos, activeCategory) <==>
                             p in photos && p.category == activeCategory) &&
              (forall p :: multiset(FilteredPhotos(photos, activeCategory))[p] ==
                             if p.category == activeCategory then multiset(photos)[p] else 0)
    ensures IsSubsequence(FilteredPhotos(photos, activeCategory), photos)
  {
    if activeCategory != AllLabel {
      forall p ensures p in FilteredPhotos(photos, activeCategory) <==>
                       p in photos && p.category == activeCategory {
        FilterMembership(photos, InCategory(activeCategory), p);
      }
      forall p ensures multiset(FilteredPhotos(photos, activeCategory))[p] ==
                       if p.category == activeCategory then multiset(photos)[p] else 0 {
        FilterCount(photos, InCategory(activeCategory), p);
      }
      FilterIsSubsequence(photos, InCategory(activeCategory));
    } else {
      SubsequenceOfItself(photos);
    }
  }

  /** Clicking the chip of a stored category shows the photos of that category, unless
      the category is itself labelled "Todas", which shows them all. */
  lemma ChipShowsCategory(photos: seq<Photos.Photo>, categories: seq<Category>, i: nat)
    requires i < |categories|
    ensures var shown := FilteredPhotos(photos, AllCategories(categories)[i + 1].name);
            if categories[i].name == "Todas" then shown == photos
            else forall p :: p in shown <==> p in photos && p.category == categories[i].name
  {
    ChipList(categories);
    FilterByCategory(photos, categories[i].name);
  }

  /** The photos the gallery shows for the active chip, given what storage holds
      under "photos". */
  function Shown(savedPhotos: Option<seq<Photos.Photo>>, activeCategory: string): seq<Photos.Photo> {
    FilteredPhotos(Loaded(savedPhotos), activeCategory)
  }

  /** A list missing from storage stays empty: no photo is shown under any chip, and
      the only chip is "Todas"; a stored list is shown as the filter of it. */
  lemma AbsentKeyLoadsNothing(savedPhotos: Option<seq<Photos.Photo>>, savedCategories: Option<seq<Category>>,
                              activeCategory: string)
    ensures savedPhotos.None? ==> Shown(savedPhotos, activeCategory) == []
    ensures savedPhotos.Some? ==> Shown(savedPhotos, activeCategory) == FilteredPhotos(savedPhotos.value, activeCategory)
    ensures savedCategories.None? ==> AllCategories(Loaded(savedCategories)) == [Chip(AllLabel, AllIcon)]
    ensures savedCategories.Some? ==> |AllCategories(Loaded(savedCategories))| == |savedCategories.value| + 1
  {
    if savedCategories.Some? {
      ChipList(savedCategories.value);
    }
  }
}
