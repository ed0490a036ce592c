/**
 * The listing logic of the marketplace page, `src/components/Marketplace.tsx`:
 * the search-and-filter view over the listings, and adding a listing.
 *
 * The view is a pure `filter`. Adding a listing replaces three pieces of
 * page state (`listings`, `newListing`, `showAddListing`) through their
 * setters, so the page is a class with those fields and adding is a method
 * that assigns them. The clock reads that give a new listing its id and
 * creation time are parameters. The form's number fields hold what
 * `parseInt` makes of them: `None` where it gives `NaN` (an empty field).
 */
module Marketplace {
  import opened Wrappers
  import opened Text
  import opened Sequences

  datatype Quality = Premium | Standard | Organic

  /** The quality as the page writes it, and as the quality filter compares it. */
  function QualityName(q: Quality): (name: string)
    ensures name in {"Premium", "Standard", "Organic"}
  {
    match q
    case Premium => "Premium"
    case Standard => "Standard"
    case Organic => "Organic"
  }

  /** Different qualities are written differently, so the quality filter selects one quality. */
  lemma QualityNamesDistinct(q1: Quality, q2: Quality)
    ensures QualityName(q1) == QualityName(q2) <==> q1 == q2
  {
  }

  /** `MarketplaceListing`; quantity and price are `None` where they are `NaN`. */
  datatype Listing = Listing(
    id: string,
    farmerId: string,
    farmerName: string,
    crop: string,
    quantity: Option<int>,
    pricePerTon: Option<int>,
    location: string,
    harvestDate: string,
    quality: Quality,
    description: string,
    phone: string,
    email: string,
    imageUrl: Option<string>,
    createdAt: string)

  /** The add-listing form (`newListing`), number fields already parsed. */
  datatype ListingForm = ListingForm(
    crop: string,
    quantity: Option<int>,
    pricePerTon: Option<int>,
    location: string,
    harvestDate: string,
    quality: Quality,
    description: string,
    phone: string,
    email: string)

  /** The signed-in user, as far as the marketplace uses it. */
  datatype User = User(id: string, name: string, role: string)

  /** The form as it starts, and as it is reset after an add: empty, quality "Standard". */
  const EmptyForm: ListingForm := ListingForm("", None, None, "", "", Standard, "", "", "")

  /** The search term occurs, ignoring case, in the crop, the farmer's name or the location. */
  predicate MatchesSearch(l: Listing, searchTerm: string)
  {
    var term := ToLower(searchTerm);
    Contains(ToLower(l.crop), term) || Contains(ToLower(l.farmerName), term)
    || Contains(ToLower(l.location), term)
  }

  /** The filter's test: search, then the exact crop and quality filters where they are set. */
  predicate Keeps(l: Listing, searchTerm: string, filterCrop: string, filterQuality: string)
  {
    && MatchesSearch(l, searchTerm)
    && (filterCrop == "" || l.crop == filterCrop)
    && (filterQuality == "" || QualityName(l.quality) == filterQuality)
  }

  /**
   * `filteredListings`: the listings the filter keeps, in their order, each
   * as often as it is listed.
   */
  function FilterListings(listings: seq<Listing>, searchTerm: string, filterCrop: string, filterQuality: string)
    : (r: seq<Listing>)
    ensures IsSubsequence(r, listings)
    ensures forall l :: l in r <==> l in listings && Keeps(l, searchTerm, filterCrop, filterQuality)
    ensures forall l :: multiset(r)[l]
                        == if Keeps(l, searchTerm, filterCrop, filterQuality) then multiset(listings)[l] else 0
    ensures |r| <= |listings|
  {
    if listings == [] then []
    else
      var rest := FilterListings(listings[1..], searchTerm, filterCrop, filterQuality);
      assert listings == [listings[0]] + listings[1..];
      assert multiset(listings) == multiset{listings[0]} + multiset(listings[1..]);
      if Keeps(listings[0], searchTerm, filterCrop, filterQuality) then
        assert ([listings[0]] + rest)[1..] == rest;
        [listings[0]] + rest
      else rest
  }

  /** The empty string occurs in every string. */
  lemma EmptyOccursEverywhere(s: string)
    ensures Contains(s, "")
  {
    assert OccursAt(s, "", 0);
    ContainsMeansOccurs(s, "");
  }

  /** With no search term and no filters, every listing is shown. */
  lemma {:induction false} NoFiltersKeepAll(listings: seq<Listing>)
    ensures FilterListings(listings, "", "", "") == listings
  {
    if listings != [] {
      EmptyOccursEverywhere(ToLower(listings[0].crop));
      NoFiltersKeepAll(listings[1..]);
    }
  }

  /** Two search terms that lower-case alike select the same listings. */
  lemma {:induction false} SearchIgnoresCase(
    listings: seq<Listing>, term1: string, term2: string, filterCrop: string, filterQuality: string)
    requires ToLower(term1) == ToLower(term2)
    ensures FilterListings(listings, term1, filterCrop, filterQuality)
         == FilterListings(listings, term2, filterCrop, filterQuality)
  {
    if listings != [] {
      SearchIgnoresCase(listings[1..], term1, term2, filterCrop, filterQuality);
    }
  }

  /** A search term's case never matters: searching for it is searching for its lower case. */
  lemma SearchTermCase(listings: seq<Listing>, term: string, filterCrop: string, filterQuality: string)
    ensures FilterListings(listings, term, filterCrop, filterQuality)
         == FilterListings(listings, ToLower(term), filterCrop, filterQuality)
  {
    ToLowerIdempotent(term);
    SearchIgnoresCase(listings, term, ToLower(term), filterCrop, filterQuality);
  }

  /** A set crop or quality filter is an exact match on that field. */
  lemma FiltersAreExact(listings: seq<Listing>, searchTerm: string, filterCrop: string, filterQuality: string)
    ensures var r := FilterListings(listings, searchTerm, filterCrop, filterQuality);
      && (filterCrop != "" ==> forall l :: l in r ==> l.crop == filterCrop)
      && (filterQuality != "" ==> forall l :: l in r ==> QualityName(l.quality) == filterQuality)
  {
  }

  /**
   * The listing `handleAddListing` builds: the user's id and name as the
   * farmer, the form's fields, no image, and the given id and creation time.
   */
  function NewListing(form: ListingForm, user: User, id: string, createdAt: string): (l: Listing)
    ensures l.farmerId == user.id && l.farmerName == user.name
    ensures l.id == id && l.createdAt == createdAt && l.imageUrl == None
    ensures l.crop == form.crop && l.quantity == form.quantity && l.pricePerTon == form.pricePerTon
    ensures l.location == form.location && l.harvestDate == form.harvestDate
    ensures l.quality == form.quality && l.description == form.description
    ensures l.phone == form.phone && l.email == form.email
  {
    Listing(id, user.id, user.name, form.crop, form.quantity, form.pricePerTon, form.location,
            form.harvestDate, form.quality, form.description, form.phone, form.email, None, createdAt)
  }

  /** Only a signed-in farmer may add a listing. */
  predicate MayAdd(user: Option<User>)
  {
    user.Some? && user.value.role == "farmer"
  }

  /** The page state that adding a listing touches. */
  class MarketplacePage {
    var listings: seq<Listing>
    var newListing: ListingForm
    var showAddListing: bool

    /** The page as it mounts: the given listings, an empty form, the dialog closed. */
    constructor (initialListings: seq<Listing>)
      ensures listings == initialListings
      ensures newListing == EmptyForm && !showAddListing
    {
      listings := initialListings;
      newListing := EmptyForm;
      showAddListing := false;
    }

    /** `filteredListings` over the page's current listings. */
    function FilteredListings(searchTerm: string, filterCrop: string, filterQuality: string): (r: seq<Listing>)
      reads this
      ensures IsSubsequence(r, listings)
      ensures forall l :: l in r <==> l in listings && Keeps(l, searchTerm, filterCrop, filterQuality)
      ensures forall l :: multiset(r)[l]
                          == if Keeps(l, searchTerm, filterCrop, filterQuality) then multiset(listings)[l] else 0
    {
      FilterListings(listings, searchTerm, filterCrop, filterQuality)
    }

    /**
     * `handleAddListing`: nothing happens unless a farmer is signed in;
     * otherwise the new listing goes first, ahead of all the earlier ones,
     * the form is cleared and the dialog closes.
     */
    method HandleAddListing(user: Option<User>, id: string, createdAt: string)
      modifies this
      ensures !MayAdd(user) ==>
        listings == old(listings) && newListing == old(newListing) && showAddListing == old(showAddListing)
      ensures MayAdd(user) ==>
        && |listings| == |old(listings)| + 1
        && listings[0] == NewListing(old(newListing), user.value, id, createdAt)
        && listings[1..] == old(listings)
        && newListing == EmptyForm
        && !showAddListing
    {
      if user.None? || user.value.role != "farmer" {
        return;
      }
      var listing := NewListing(newListing, user.value, id, createdAt);
      listings := [listing] + listings;
      newListing := EmptyForm;
      showAddListing := false;
    }
  }
}
