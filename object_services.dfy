/**
 * The five kind-specific services (`CompanyServiceImpl`, `ContactServiceImpl`,
 * `DealServiceImpl`, `ProductServiceImpl`, `LineItemServiceImpl`): each one
 * configures the generic service with its type name, and three of them add an
 * association read.
 */
module ObjectServices {
  import opened Wrappers
  import opened Text
  import opened Payloads
  import opened Errors
  import opened BaseService
  import opened PropertiesCache
  import opened GenericService

  // ---------------------------------------------------------------------------
  // Configuration

  /** `new CompanyServiceImpl(…)`: the generic service for "companies". */
  method NewCompanyService(gateway: Gateway, cache: PropertiesCache) returns (svc: GenericService)
    ensures fresh(svc) && svc.gateway == gateway && svc.cache == cache
    ensures ServiceFor(svc, COMPANIES)
    ensures svc.baseEndpoint == "/crm/v3/objects/companies"
    ensures svc.searchEndpoint == "/crm/v3/objects/companies/search"
  {
    svc := new GenericService(gateway, "companies", cache);
  }

  /** `new ContactServiceImpl(…)`: the generic service for "contacts". */
  method NewContactService(gateway: Gateway, cache: PropertiesCache) returns (svc: GenericService)
    ensures fresh(svc) && svc.gateway == gateway && svc.cache == cache
    ensures ServiceFor(svc, CONTACTS)
    ensures svc.baseEndpoint == "/crm/v3/objects/contacts"
    ensures svc.searchEndpoint == "/crm/v3/objects/contacts/search"
  {
    svc := new GenericService(gateway, "contacts", cache);
  }

  /** `new DealServiceImpl(…)`: the generic service for "deals", with nothing added. */
  method NewDealService(gateway: Gateway, cache: PropertiesCache) returns (svc: GenericService)
    ensures fresh(svc) && svc.gateway == gateway && svc.cache == cache
    ensures ServiceFor(svc, DEALS)
    ensures svc.baseEndpoint == "/crm/v3/objects/deals"
    ensures svc.searchEndpoint == "/crm/v3/objects/deals/search"
  {
    svc := new GenericService(gateway, "deals", cache);
  }

  /** `new ProductServiceImpl(…)`: the generic service for "products", with nothing added. */
  method NewProductService(gateway: Gateway, cache: PropertiesCache) returns (svc: GenericService)
    ensures fresh(svc) && svc.gateway == gateway && svc.cache == cache
    ensures ServiceFor(svc, PRODUCTS)
    ensures svc.baseEndpoint == "/crm/v3/objects/products"
    ensures svc.searchEndpoint == "/crm/v3/objects/products/search"
  {
    svc := new GenericService(gateway, "products", cache);
  }

  /** `new LineItemServiceImpl(…)`: the generic service for "line_items". */
  method NewLineItemService(gateway: Gateway, cache: PropertiesCache) returns (svc: GenericService)
    ensures fresh(svc) && svc.gateway == gateway && svc.cache == cache
    ensures ServiceFor(svc, LINE_ITEMS)
    ensures svc.baseEndpoint == "/crm/v3/objects/line_items"
    ensures svc.searchEndpoint == "/crm/v3/objects/line_items/search"
  {
    svc := new GenericService(gateway, "line_items", cache);
  }

  /** The service configured for kind `t`: its endpoints are built from the name it passes. */
  predicate ServiceFor(svc: GenericService, t: ObjectType)
  {
    svc.baseEndpoint == ObjectsPath + ServiceTypeName(t)
  }

  /** A configured service reads back exactly the name its kind's service passes. */
  lemma ServiceTypeNameRecovered(svc: GenericService, t: ObjectType)
    requires ServiceFor(svc, t)
    ensures svc.TypeName() == ServiceTypeName(t)
  {
    TypeNameRecovered(ServiceTypeName(t));
  }

  /**
   * What the cache fetches for kind `t` is what that kind's service answers
   * from `getObjectProperties()`, when both use the same gateway.
   */
  lemma CacheFetchIsServiceSchema(svc: GenericService, t: ObjectType)
    requires ServiceFor(svc, t)
    ensures svc.GetObjectProperties() == FetchFromService(t, svc.gateway)
  {
    ServiceTypeNameRecovered(svc, t);
  }

  /**
   * For companies, contacts, deals and products the derived type name is
   * accepted by the cache, so `getAllObjects` without a projection and
   * `getObjectById` request the cached schema's names once it is cached.
   */
  lemma SchemaReadsResolve(svc: GenericService, t: ObjectType,
                           entries: map<ObjectType, PropertiesResponse>, limit: int, id: string)
    requires ServiceFor(svc, t) && t != LINE_ITEMS
    requires t in entries
    ensures FromValue(svc.TypeName()) == Ok(t)
    ensures svc.ListAllTarget(entries, None, limit) == Ok(ListUrl(svc.baseEndpoint, limit, None, NamesOf(Some(entries[t]))))
    ensures svc.ByIdTarget(entries, id) == Ok(ByIdUrl(svc.baseEndpoint, id, NamesOf(Some(entries[t]))))
  {
    ServiceTypeNameRecovered(svc, t);
    ServiceTypeNamesResolve(t);
  }

  /** For line items the schema lookup itself fails, whatever the cache holds. */
  lemma LineItemLookupFails(svc: GenericService, entries: map<ObjectType, PropertiesResponse>)
    requires ServiceFor(svc, LINE_ITEMS)
    ensures LookupByName(entries, svc.TypeName(), svc.cache.gateway)
         == Lookup(Err(IllegalArgument(UnsupportedTypeMessage + "line_items")), entries, [])
  {
    ServiceTypeNameRecovered(svc, LINE_ITEMS);
    assert svc.TypeName() == ServiceTypeName(LINE_ITEMS) == "line_items";
    LineItemsUnderscoreRejected();
  }

  /**
   * For line items the derived type name "line_items" is refused by the
   * cache, so every read that resolves a projection from the schema fails
   * with IllegalArgumentException, whatever the cache holds; a caller-given
   * projection or a paginated read does not touch the cache and is unaffected.
   */
  lemma LineItemSchemaReadsFail(svc: GenericService,
                                entries: map<ObjectType, PropertiesResponse>, limit: int, id: string)
    requires ServiceFor(svc, LINE_ITEMS)
    ensures svc.ListAllTarget(entries, None, limit) == Err(IllegalArgument(UnsupportedTypeMessage + "line_items"))
    ensures svc.ListAllTarget(entries, Some([]), limit) == Err(IllegalArgument(UnsupportedTypeMessage + "line_items"))
    ensures svc.ByIdTarget(entries, id) == Err(IllegalArgument(UnsupportedTypeMessage + "line_items"))
  {
    LineItemLookupFails(svc, entries);
  }

  // ---------------------------------------------------------------------------
  // Association reads

  /** The part of `s` between `prefix` and `suffix`, if `s` has that shape. */
  function Between(s: string, prefix: string, suffix: string): Option<string>
  {
    if |prefix| + |suffix| <= |s| && s[..|prefix|] == prefix && s[|s| - |suffix|..] == suffix then
      Some(s[|prefix|..|s| - |suffix|])
    else None
  }

  lemma BetweenOf(prefix: string, id: string, suffix: string)
    ensures Between(prefix + id + suffix, prefix, suffix) == Some(id)
  {
    var s := prefix + id + suffix;
    assert s[..|prefix|] == prefix;
    assert s[|s| - |suffix|..] == suffix;
    assert s[|prefix|..|s| - |suffix|] == id;
  }

  const ContactDealsPrefix := "/crm/v3/objects/contacts/"
  const ContactDealsSuffix := "/associations/contact_to_deal/deals"
  const DealLineItemsPrefix := "/crm/v3/objects/deals/"
  const DealLineItemsSuffix := "/associations/deal_to_line_item/line_items"

  /**
   * `getCompanyContacts(companyId)`: a GET through the raw RestTemplate on
   * the formatted URL, so an HTTP error status comes back as the unwrapped
   * HttpStatusCodeException, not as a HubSpotApiException.
   */
  function GetCompanyContacts(gw: Gateway, companyId: string): (r: Result<Option<Page>>)
    ensures var reply := gw.pages(Request(GET, gw.baseUrl + "/crm/v3/objects/" + "companies" + "/" + companyId + "/contacts", None));
      && (r.Ok? <==> reply.Success?)
      && (reply.Success? ==> r.value == reply.body)
      && (reply.StatusError? ==> r.error == HttpStatusFailure(reply.status, reply.rawBody))
      && (reply.TransportError? ==> r.error == TransportFailure(reply.message))
  {
    var url := gw.baseUrl + "/crm/v3/objects/" + "companies" + "/" + companyId + "/contacts";
    match gw.pages(Request(GET, url, None))
    case Success(_, body) => Ok(body)
    case StatusError(status, raw) => Err(HttpStatusFailure(status, raw))
    case TransportError(message) => Err(TransportFailure(message))
  }

  /** `getDealsByContactId(contactId)`: the contact-to-deal association page, through `getPaginatedData`. */
  function GetDealsByContactId(gw: Gateway, contactId: string): (r: Result<Option<Page>>)
    ensures var reply := gw.pages(Request(GET, gw.baseUrl + "/crm/v3/objects/contacts/" + contactId
                                                 + "/associations/contact_to_deal/deals", None));
      r == Complete(reply, gw.parseError)
  {
    var endpoint := "/crm/v3/objects/contacts/" + contactId + "/associations/contact_to_deal/deals";
    assert gw.baseUrl + endpoint == gw.baseUrl + "/crm/v3/objects/contacts/" + contactId + "/associations/contact_to_deal/deals";
    GetPaginatedData(gw, endpoint)
  }

  /** `getDealLineItems(dealId)`: the deal-to-line-item association page, through `getPaginatedData`. */
  function GetDealLineItems(gw: Gateway, dealId: string): (r: Result<Option<Page>>)
    ensures var reply := gw.pages(Request(GET, gw.baseUrl + "/crm/v3/objects/deals/" + dealId
                                                 + "/associations/deal_to_line_item/line_items", None));
      r == Complete(reply, gw.parseError)
  {
    var endpoint := "/crm/v3/objects/deals/" + dealId + "/associations/deal_to_line_item/line_items";
    assert gw.baseUrl + endpoint == gw.baseUrl + "/crm/v3/objects/deals/" + dealId + "/associations/deal_to_line_item/line_items";
    GetPaginatedData(gw, endpoint)
  }

  /** The company id can be read back from the URL `getCompanyContacts` requests. */
  lemma CompanyContactsUrlCarriesId(gw: Gateway, companyId: string)
    ensures Between(gw.baseUrl + "/crm/v3/objects/" + "companies" + "/" + companyId + "/contacts",
                    gw.baseUrl + "/crm/v3/objects/companies/", "/contacts") == Some(companyId)
  {
    assert gw.baseUrl + "/crm/v3/objects/" + "companies" + "/" == gw.baseUrl + "/crm/v3/objects/companies/";
    BetweenOf(gw.baseUrl + "/crm/v3/objects/companies/", companyId, "/contacts");
  }

  /** The ids can be read back from the association endpoints. */
  lemma AssociationEndpointsCarryIds(contactId: string, dealId: string)
    ensures Between(ContactDealsPrefix + contactId + ContactDealsSuffix, ContactDealsPrefix, ContactDealsSuffix) == Some(contactId)
    ensures Between(DealLineItemsPrefix + dealId + DealLineItemsSuffix, DealLineItemsPrefix, DealLineItemsSuffix) == Some(dealId)
  {
    BetweenOf(ContactDealsPrefix, contactId, ContactDealsSuffix);
    BetweenOf(DealLineItemsPrefix, dealId, DealLineItemsSuffix);
  }

  /**
   * The association reads differ in how an HTTP error status surfaces: the
   * company read lets the raw status error through, the two paginated reads
   * wrap it as a HubSpotApiException carrying that status and body.
   */
  lemma AssociationErrorWrapping(gw: Gateway, id: string)
    ensures var r := GetCompanyContacts(gw, id); r.Err? ==> !r.error.ApiFailure?
    ensures var r := GetDealsByContactId(gw, id); r.Err? ==> !r.error.HttpStatusFailure?
    ensures var r := GetDealLineItems(gw, id); r.Err? ==> !r.error.HttpStatusFailure?
    ensures var reply := gw.pages(Request(GET, gw.baseUrl + (ContactDealsPrefix + id + ContactDealsSuffix), None));
      reply.StatusError? ==> GetDealsByContactId(gw, id) == Err(ApiFailure(ApiError(reply.status, reply.rawBody, gw.parseError)))
    ensures var reply := gw.pages(Request(GET, gw.baseUrl + (DealLineItemsPrefix + id + DealLineItemsSuffix), None));
      reply.StatusError? ==> GetDealLineItems(gw, id) == Err(ApiFailure(ApiError(reply.status, reply.rawBody, gw.parseError)))
  {
  }
}
