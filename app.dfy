/**
 * The home page's service grid: which page a service card leads to, the
 * sign-in gate in front of it, the fallback to the built-in services, and
 * the guard that keeps the generic order form away from the dedicated pages.
 */
module App {
  import opened Wrappers
  import opened Text

  /** A `service_categories` row; `id`, `name`, `slug` and `key` may be absent in what the backend returns. */
  datatype ServiceCategory = ServiceCategory(
    id: Option<string>, name: Option<string>, description: string, icon: string,
    slug: Option<string>, key: Option<string>)

  function Builtin(id: string, name: string, description: string, icon: string): ServiceCategory
  {
    ServiceCategory(Some(id), Some(name), description, icon, None, None)
  }

  /** `defaultServices` */
  const DEFAULT_SERVICES: seq<ServiceCategory> := [
    Builtin("food", "Food Delivery", "Get food delivered from campus cafeteria, food court, or restaurants", "utensils"),
    Builtin("groceries", "Groceries", "Order groceries and essentials from nearby stores", "shopping-bag"),
    Builtin("tuck", "Tuck Shop", "Snacks, beverages, and quick bites from the tuck shop", "coffee"),
    Builtin("parcel", "Parcel Pickup", "Collect parcels from gate, reception, or mail room", "package"),
    Builtin("mall", "Mall Delivery", "Items from the university mall delivered to your room", "store"),
    Builtin("custom", "Custom Service", "Any other delivery service within campus", "sparkles")
  ]

  // ---------------------------------------------------------------------------
  // Classifying a service
  // ---------------------------------------------------------------------------

  /** `rawId`, `rawName`, `rawSlug`: lower-cased, a missing value read as `''`, the slug falling back to `key`. */
  function RawId(s: ServiceCategory): string { Lower(s.id.GetOr("")) }
  function RawName(s: ServiceCategory): string { Lower(s.name.GetOr("")) }
  function RawSlug(s: ServiceCategory): string { Lower(s.slug.GetOr(s.key.GetOr(""))) }

  predicate IsFood(s: ServiceCategory)
  {
    || RawId(s) == "food"
    || Contains(RawName(s), "food")
    || Contains(RawName(s), "food delivery")
    || RawSlug(s) == "food"
    || Contains(RawSlug(s), "food")
  }

  predicate IsGroceries(s: ServiceCategory)
  {
    || RawId(s) == "groceries"
    || RawId(s) == "grocery"
    || Contains(RawName(s), "grocery")
    || Contains(RawName(s), "groceries")
    || RawSlug(s) == "groceries"
    || RawSlug(s) == "grocery"
    || Contains(RawSlug(s), "grocery")
  }

  predicate IsTuck(s: ServiceCategory)
  {
    || RawId(s) == "tuck"
    || Contains(RawName(s), "tuck")
    || Contains(RawName(s), "tuck shop")
    || RawSlug(s) == "tuck"
    || Contains(RawSlug(s), "tuck")
  }

  lemma ContainsSelf(s: string)
    ensures Contains(s, s)
  {
    assert StartsWith(s, s);
  }

  /** Food means: the id is `food`, or the name or the slug mentions `food`; the other tests add nothing. */
  lemma IsFoodIff(s: ServiceCategory)
    ensures IsFood(s) <==> RawId(s) == "food" || Contains(RawName(s), "food") || Contains(RawSlug(s), "food")
  {
    if Contains(RawName(s), "food delivery") {
      ContainsPrefixOf(RawName(s), "food delivery", "food");
    }
    if RawSlug(s) == "food" {
      ContainsSelf("food");
    }
  }

  /** Groceries: the id or slug is `groceries` or `grocery`, the name mentions either word, or the slug mentions `grocery`. */
  lemma IsGroceriesIff(s: ServiceCategory)
    ensures IsGroceries(s) <==>
      || RawId(s) in ["groceries", "grocery"]
      || Contains(RawName(s), "grocery") || Contains(RawName(s), "groceries")
      || RawSlug(s) == "groceries" || Contains(RawSlug(s), "grocery")
  {
    if RawSlug(s) == "grocery" {
      ContainsSelf("grocery");
    }
  }

  /** Tuck: the id is `tuck`, or the name or the slug mentions `tuck`. */
  lemma IsTuckIff(s: ServiceCategory)
    ensures IsTuck(s) <==> RawId(s) == "tuck" || Contains(RawName(s), "tuck") || Contains(RawSlug(s), "tuck")
  {
    if Contains(RawName(s), "tuck shop") {
      ContainsPrefixOf(RawName(s), "tuck shop", "tuck");
    }
    if RawSlug(s) == "tuck" {
      ContainsSelf("tuck");
    }
  }

  /** Where a card leads, tested in the order food, groceries, tuck. */
  datatype Kind = FoodKind | GroceriesKind | TuckKind | OtherKind

  function Classify(s: ServiceCategory): Kind
  {
    if IsFood(s) then FoodKind
    else if IsGroceries(s) then GroceriesKind
    else if IsTuck(s) then TuckKind
    else OtherKind
  }

  /** The route of a dedicated page; the other services have none and use the order form. */
  function Destination(k: Kind): (r: Option<string>)
    ensures r.None? <==> k == OtherKind
  {
    match k
    case FoodKind => Some("/food")
    case GroceriesKind => Some("/grocery")
    case TuckKind => Some("/tuck")
    case OtherKind => None
  }

  /** Classification is case-insensitive: a row named "Food Delivery" leads to the food page, whatever its id. */
  lemma FoodDeliveryByName(s: ServiceCategory)
    requires s.name == Some("Food Delivery")
    ensures Classify(s) == FoodKind && Destination(Classify(s)) == Some("/food")
  {
    assert RawName(s) == "food delivery";
    assert StartsWith("food delivery", "food");
  }

  /** A text with no `f`, `g` or `t` mentions none of the keywords. */
  lemma NoKeyword(t: string)
    requires 'f' !in t && 'g' !in t && 't' !in t
    ensures !Contains(t, "food") && !Contains(t, "food delivery")
    ensures !Contains(t, "grocery") && !Contains(t, "groceries")
    ensures !Contains(t, "tuck") && !Contains(t, "tuck shop")
  {
    if Contains(t, "food") { ContainsFirstChar(t, "food"); }
    if Contains(t, "food delivery") { ContainsFirstChar(t, "food delivery"); }
    if Contains(t, "grocery") { ContainsFirstChar(t, "grocery"); }
    if Contains(t, "groceries") { ContainsFirstChar(t, "groceries"); }
    if Contains(t, "tuck") { ContainsFirstChar(t, "tuck"); }
    if Contains(t, "tuck shop") { ContainsFirstChar(t, "tuck shop"); }
  }

  /** The built-in "Mall Delivery" service matches no dedicated page, so it opens the order form. */
  lemma MallDeliveryIsGeneric(s: ServiceCategory)
    requires s.id == Some("mall") && s.name == Some("Mall Delivery") && s.slug.None? && s.key.None?
    ensures Classify(s) == OtherKind && Destination(Classify(s)).None?
  {
    MallTexts(s);
    NoKeyword(RawName(s));
    NoKeyword(RawSlug(s));
  }

  lemma MallTexts(s: ServiceCategory)
    requires s.id == Some("mall") && s.name == Some("Mall Delivery") && s.slug.None? && s.key.None?
    ensures RawId(s) == "mall" && RawSlug(s) == ""
    ensures 'f' !in RawName(s) && 'g' !in RawName(s) && 't' !in RawName(s)
  {
    assert Lower("Mall Delivery") == "mall delivery";
  }

  /** The fifth built-in service is that one, so its card opens the order form. */
  lemma DefaultMall()
    ensures DEFAULT_SERVICES[4].id == Some("mall") && DEFAULT_SERVICES[4].name == Some("Mall Delivery")
    ensures DEFAULT_SERVICES[4].slug.None? && DEFAULT_SERVICES[4].key.None?
    ensures Classify(DEFAULT_SERVICES[4]) == OtherKind
  {
    MallDeliveryIsGeneric(DEFAULT_SERVICES[4]);
  }

  /** The order form's render guard: `String(id).toLowerCase()`, where a missing id prints as `undefined`. */
  function GuardId(s: ServiceCategory): string
  {
    Lower(if s.id.Some? then s.id.value else "undefined")
  }

  predicate ShowsOrderForm(showOrderModal: bool, selected: Option<ServiceCategory>)
  {
    showOrderModal && selected.Some? && GuardId(selected.value) !in ["food", "groceries", "tuck"]
  }

  /** Every service the render guard hides is one the click handler already sends to a dedicated page. */
  lemma GuardedIdsAreDedicated(s: ServiceCategory)
    requires GuardId(s) in ["food", "groceries", "tuck"]
    ensures Classify(s) != OtherKind
  {
    assert Lower("undefined") == "undefined";
    if s.id.Some? {
      assert RawId(s) == GuardId(s);
    }
  }

  // ---------------------------------------------------------------------------
  // Loading the services
  // ---------------------------------------------------------------------------

  /** What the `service_categories` query answers: an error, a thrown exception, or its rows (possibly null). */
  datatype ServicesResult = QueryError | Threw | Rows(data: Option<seq<ServiceCategory>>)

  function ServicesOf(r: ServicesResult): seq<ServiceCategory>
  {
    if r.Rows? && r.data.Some? && |r.data.value| > 0 then r.data.value else DEFAULT_SERVICES
  }

  /** The grid shows the backend's rows when there are any and the six built-in services otherwise; it is never empty. */
  lemma ServicesOfSpec(r: ServicesResult)
    ensures |ServicesOf(r)| >= 1
    ensures !(r.Rows? && r.data.Some? && |r.data.value| > 0) ==> ServicesOf(r) == DEFAULT_SERVICES && |ServicesOf(r)| == 6
    ensures r.Rows? && r.data.Some? && |r.data.value| > 0 ==> ServicesOf(r) == r.data.value
  {
  }

  // ---------------------------------------------------------------------------
  // The page state
  // ---------------------------------------------------------------------------

  class AppContent {
    var showAuthModal: bool
    var showOrderModal: bool
    var selectedCategory: Option<ServiceCategory>
    var services: seq<ServiceCategory>
    /** The last `navigate(...)`. */
    var route: Option<string>

    constructor ()
      ensures !showAuthModal && !showOrderModal && selectedCategory.None? && services == [] && route.None?
    {
      showAuthModal := false;
      showOrderModal := false;
      selectedCategory := None;
      services := [];
      route := None;
    }

    /** `loadServices` */
    method LoadServices(r: ServicesResult)
      modifies this`services
      ensures services == ServicesOf(r)
    {
      match r {
        case QueryError =>
          services := DEFAULT_SERVICES;
        case Threw =>
          services := DEFAULT_SERVICES;
        case Rows(data) =>
          if data.Some? && |data.value| > 0 {
            services := data.value;
          } else {
            services := DEFAULT_SERVICES;
          }
      }
    }

    /** `handleServiceClick`: signed out, every card only asks for sign-in. */
    method HandleServiceClick(service: ServiceCategory, signedIn: bool)
      modifies this
      ensures services == old(services)
      ensures !signedIn ==> showAuthModal && route == old(route)
                            && showOrderModal == old(showOrderModal) && selectedCategory == old(selectedCategory)
      ensures signedIn ==> showAuthModal == old(showAuthModal)
      ensures signedIn && Classify(service) != OtherKind ==>
        route == Destination(Classify(service)) && showOrderModal == old(showOrderModal) && selectedCategory == old(selectedCategory)
      ensures signedIn && Classify(service) == OtherKind ==>
        route == old(route) && showOrderModal && selectedCategory == Some(service)
    {
      var kind := Classify(service);
      if kind == FoodKind {
        if !signedIn {
          showAuthModal := true;
          return;
        }
        route := Some("/food");
        return;
      }
      if kind == GroceriesKind {
        if !signedIn {
          showAuthModal := true;
          return;
        }
        route := Some("/grocery");
        return;
      }
      if kind == TuckKind {
        if !signedIn {
          showAuthModal := true;
          return;
        }
        route := Some("/tuck");
        return;
      }
      if !signedIn {
        showAuthModal := true;
        return;
      }
      selectedCategory := Some(service);
      showOrderModal := true;
    }

    /** The header's checkout button. */
    method HeaderCheckout(signedIn: bool)
      modifies this`showAuthModal, this`route
      ensures !signedIn ==> showAuthModal && route == old(route)
      ensures signedIn ==> route == Some("/checkout") && showAuthModal == old(showAuthModal)
    {
      if !signedIn {
        showAuthModal := true;
        return;
      }
      route := Some("/checkout");
    }

    /** `handleGetStarted`; scrolling to the services is not modelled. */
    method HandleGetStarted(signedIn: bool)
      modifies this`showAuthModal
      ensures showAuthModal == (old(showAuthModal) || !signedIn)
    {
      if !signedIn {
        showAuthModal := true;
      }
    }

    /** The order form's close button. */
    method CloseOrderModal()
      modifies this`showOrderModal, this`selectedCategory
      ensures !showOrderModal && selectedCategory.None?
    {
      showOrderModal := false;
      selectedCategory := None;
    }

    predicate OrderFormShown()
      reads this
    {
      ShowsOrderForm(showOrderModal, selectedCategory)
    }
  }
}
