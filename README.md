# HubSpot CRM client — a Dafny model

This project models the core of a Spring Boot client for the HubSpot CRM v3 REST API:

- **The base service.** It builds request URLs from a configured base URL and performs GET, POST, PUT and DELETE calls. It turns every HTTP error status into a `HubSpotApiException` whose message comes from the error body.
- **The generic object service.** It lists, pages, reads, creates, updates, deletes and searches CRM objects under `/crm/v3/objects/<kind>`. When the caller gives no property list, it fills one in from the property schema.
- **The five kind-specific services.** These are companies, contacts, deals, products and line items, with the association queries for company contacts, contact deals and deal line items.
- **The properties cache.** It keeps one property schema per object kind, fetches a schema on a miss, and can clear or refresh entries. It resolves kind names case-insensitively through its `ObjectType` enumeration.
- **The company sync scheduler.**
  - A full sync reads the first page and then follows the `after` cursors.
  - An incremental sync searches for companies modified in the last 48 hours. The watermark is written as `yyyy-MM-dd'T'HH:mm:ss.SSS'Z'` in UTC.
- **The record models.** `Contact` and `Deal` have typed getters and setters over a free-form property map. `Company`, `Product` and `LineItem` are read-only views.

## How the model is arranged

| file | module | what it holds |
|---|---|---|
| `wrappers.dfy` | `Wrappers` | `Option` |
| `errors.dfy` | `Errors` | `HubSpotApiException`, the failure kinds a call can end in, and `Result` |
| `payloads.dfy` | `Payloads` | JSON values, `HubSpotObject`, the paged response and the property schema |
| `text.dfy` | `Text` | splitting, joining, decimal rendering and the ASCII case fold that the rest uses |
| `timestamp.dfy` | `UtcTimestamp` | the proleptic Gregorian calendar from 1970 to 9999, and the ISO-8601 format and its parser |
| `base_service.dfy` | `BaseService` | the HTTP gateway and the error translation |
| `properties_cache.dfy` | `PropertiesCache` | `ObjectType`, and the cache as a class that updates its map in place |
| `generic_service.dfy` | `GenericService` | URL construction with its decoders, request bodies, and the `GenericService` class |
| `object_services.dfy` | `ObjectServices` | the five kind-specific services and the association endpoints |
| `records.dfy` | `Records` | `Contact` and `Deal` as classes with setters; `Company`, `Product` and `LineItem` as values |
| `sync_scheduler.dfy` | `SyncScheduler` | the full sync's cursor walk, the incremental filter and the scheduler class |

**The network.** The HTTP transport is a set of function-valued fields of `BaseService.Gateway`. Each maps a request (method, full URL, body) to a reply. A reply is a decoded body, an error status with its raw body, or a transport failure. All properties are proved for every such gateway. Because each field is a function, the model takes the server to answer the same request the same way every time. The equal results of `PropertiesCache.LookupTwice` when nothing was stored, and the uniqueness in `SyncScheduler.WalkUnique`, rest on that assumption; a real server may answer a repeated request differently. The JSON error-body parser is a parameter in the same way.

**Exceptions.** A thrown exception is an `Err` of `Errors.Failure`. The kinds are:
- an API exception;
- a raw HTTP status error;
- a transport error;
- `IllegalArgumentException`;
- `NullPointerException`;
- `ClassCastException`.

**Null.** A Java `null` is `None`.

**The clock.** The current time that the incremental sync reads is the parameter `now`.

**Line items.** The enumeration spells the line-item kind `line-items`, but the line-item service passes `line_items` to the generic constructor. So its derived type name never resolves, and `getObjectById`, and `getAllObjects` without a property list, always throw IllegalArgumentException for line items. The model keeps that behaviour and proves it (`ObjectServices.LineItemSchemaReadsFail`).

## Model

| member | source | states |
|---|---|---|
| Errors.NewApiException | src/main/java/com/example/hubspotdemo/exception/HubSpotApiException.java:18-22 | the exception keeps the given message, status code and error details, and has no cause |
| Errors.NewApiExceptionWithCause | src/main/java/com/example/hubspotdemo/exception/HubSpotApiException.java:30-33 | with a cause: status 500, and the details are the cause's message; with a null cause: a NullPointerException, as `cause.getMessage()` throws |
| Payloads.PropertyNames | src/main/java/com/example/hubspotdemo/service/impl/GenericHubSpotServiceImpl.java:56-58 | the name list has one entry per schema property, in order, and each entry is that property's name |
| Text.AfterLastOfSuffix | src/main/java/com/example/hubspotdemo/service/impl/GenericHubSpotServiceImpl.java:47 | the text after the last `/` of `prefix + "/" + name` is `name` whenever `name` has no `/` |
| Text.SplitJoin | src/main/java/com/example/hubspotdemo/service/impl/GenericHubSpotServiceImpl.java:67-73 | splitting a comma-joined list of comma-free items gives the items back |
| Text.IntToStringRoundTrip | src/main/java/com/example/hubspotdemo/service/impl/GenericHubSpotServiceImpl.java:64 | the decimal text appended for `limit` parses back to `limit`, negative values included |
| Text.PadDigitsRoundTrip | src/main/java/com/example/hubspotdemo/schedule/CompanySyncScheduler.java:122-124 | a zero-padded field of a date format has exactly its width in digits and reads back as the number |
| UtcTimestamp.DateOf | src/main/java/com/example/hubspotdemo/schedule/CompanySyncScheduler.java:122-124 | every day number from 1970-01-01 to 9999-12-31 maps to a valid calendar date whose day number it is |
| UtcTimestamp.DateOfDayNumber | src/main/java/com/example/hubspotdemo/schedule/CompanySyncScheduler.java:122-124 | the calendar conversion is a bijection: every valid date is recovered from its day number |
| UtcTimestamp.FromMillis | src/main/java/com/example/hubspotdemo/schedule/CompanySyncScheduler.java:119-125 | an epoch-millisecond instant in range maps to a valid UTC date and time that denotes that instant |
| UtcTimestamp.FromToMillis | src/main/java/com/example/hubspotdemo/schedule/CompanySyncScheduler.java:119-125 | a valid date and time is recovered from the instant it denotes |
| UtcTimestamp.RenderShape | src/main/java/com/example/hubspotdemo/schedule/CompanySyncScheduler.java:123 | the rendered text splits at `T`, `.` and the closing `Z` into the dash-joined date, the colon-joined clock and three millisecond digits |
| UtcTimestamp.ReadRender | src/main/java/com/example/hubspotdemo/schedule/CompanySyncScheduler.java:123 | reading the rendered text gives back the date and time that was rendered |
| UtcTimestamp.RenderRead | src/main/java/com/example/hubspotdemo/schedule/CompanySyncScheduler.java:123 | any text the reader accepts is exactly the rendering of what it reads, so the format is canonical |
| UtcTimestamp.FormatIsoShape | src/main/java/com/example/hubspotdemo/schedule/CompanySyncScheduler.java:123-125 | the formatted watermark is 24 characters long, with `T` at index 10 and `Z` at the end |
| UtcTimestamp.ParseFormatIso | src/main/java/com/example/hubspotdemo/schedule/CompanySyncScheduler.java:123-125 | parsing the formatted watermark gives back the instant that was formatted |
| UtcTimestamp.FormatParseIso | src/main/java/com/example/hubspotdemo/schedule/CompanySyncScheduler.java:123-125 | every parseable text is in range and is the format of the instant it parses to |
| UtcTimestamp.FormatIsoExample | src/main/java/com/example/hubspotdemo/schedule/CompanySyncScheduler.java:123-125 | instant 1709899200000 formats as `2024-03-08T12:00:00.000Z` |
| BaseService.BuildUrlParts | src/main/java/com/example/hubspotdemo/service/impl/HubSpotBaseService.java:47-49 | the full URL is the base URL followed by the endpoint, and both parts can be recovered from it |
| BaseService.ApiError | src/main/java/com/example/hubspotdemo/service/impl/HubSpotBaseService.java:224-243 | the exception carries the status and raw body. Its message depends on the body: the body's `message` field when that field is present; the default text when the body parses without it; the raw body when the body does not parse |
| BaseService.HandleApiException | src/main/java/com/example/hubspotdemo/service/impl/HubSpotBaseService.java:224-243 | the exception thrown is the one `ApiError` describes |
| BaseService.Complete | src/main/java/com/example/hubspotdemo/service/impl/HubSpotBaseService.java:59-79 | a call succeeds exactly when the reply is a success, and then returns the body; an error status becomes the API exception for that status and body; a transport failure is passed on |
| BaseService.Delete | src/main/java/com/example/hubspotdemo/service/impl/HubSpotBaseService.java:185-199 | DELETE of base URL plus endpoint succeeds exactly when the reply does, and then returns its status. An error status throws the `ApiError` exception, with the message taken from the body as `handleApiException` chooses it. A transport failure is passed on |
| BaseService.GetPaginatedData | src/main/java/com/example/hubspotdemo/service/impl/HubSpotBaseService.java:254-257 | a paged read is a GET of base URL plus endpoint, whose reply is translated by `Complete`: the page on success, the `ApiError` exception on an error status, the transport failure passed on |
| BaseService.GetObjectProperties | src/main/java/com/example/hubspotdemo/service/impl/HubSpotBaseService.java:264-278 | the schema is a GET of `/crm/v3/properties/<kind>` on the base URL, with error translation |
| PropertiesCache.AllTypesComplete | src/main/java/com/example/hubspotdemo/cache/HubSpotPropertiesCache.java:24-29 | the enumeration lists every object kind |
| PropertiesCache.FindType | src/main/java/com/example/hubspotdemo/cache/HubSpotPropertiesCache.java:48-52 | a found kind is among those searched and its value equals the name ignoring case; when nothing is found, no searched kind matches |
| PropertiesCache.FromValue | src/main/java/com/example/hubspotdemo/cache/HubSpotPropertiesCache.java:47-54 | resolves to a kind whose value equals the name ignoring case; fails with IllegalArgumentException "不支持的对象类型: " + name exactly when no kind matches |
| PropertiesCache.ValuesDistinctIgnoringCase | src/main/java/com/example/hubspotdemo/cache/HubSpotPropertiesCache.java:24-29 | no two kinds have values that are equal ignoring case |
| PropertiesCache.FromValueUnique | src/main/java/com/example/hubspotdemo/cache/HubSpotPropertiesCache.java:47-54 | any name equal ignoring case to a kind's value resolves to that kind |
| PropertiesCache.FromValueOfValue | src/main/java/com/example/hubspotdemo/cache/HubSpotPropertiesCache.java:37-54 | every kind's value resolves back to that kind |
| PropertiesCache.FromValueContacts | src/main/java/com/example/hubspotdemo/cache/HubSpotPropertiesCache.java:47-54 | `"Contacts"` resolves to CONTACTS |
| PropertiesCache.FromValueLineItems | src/main/java/com/example/hubspotdemo/cache/HubSpotPropertiesCache.java:47-54 | `"LINE-ITEMS"` resolves to LINE_ITEMS |
| PropertiesCache.LineItemsUnderscoreRejected | src/main/java/com/example/hubspotdemo/cache/HubSpotPropertiesCache.java:28 | `"line_items"`, the line-item service's own path segment, is rejected with IllegalArgumentException |
| PropertiesCache.ServiceTypeName | src/main/java/com/example/hubspotdemo/service/impl/CompanyServiceImpl.java:28 | the name each kind's service passes to the generic constructor (`companies` here; `contacts`, `deals`, `products` and `line_items` in the other four services) has no `/`, so the service derives it back from its endpoint |
| PropertiesCache.ServiceTypeNamesResolve | src/main/java/com/example/hubspotdemo/cache/HubSpotPropertiesCache.java:160-175 | each service's type name resolves to its own kind, except line items, whose name `line_items` fails to resolve |
| PropertiesCache.FetchFromService | src/main/java/com/example/hubspotdemo/cache/HubSpotPropertiesCache.java:160-175 | the schema for a kind is fetched from `/crm/v3/properties/<that kind's service type name>` |
| PropertiesCache.Store | src/main/java/com/example/hubspotdemo/cache/HubSpotPropertiesCache.java:143-145 | only a fetched, non-null schema is stored; anything else leaves the map unchanged |
| PropertiesCache.LookupByType | src/main/java/com/example/hubspotdemo/cache/HubSpotPropertiesCache.java:134-153 | a hit returns the cached schema without fetching; a miss fetches exactly once and stores a non-null result; a failed fetch changes nothing |
| PropertiesCache.LookupByName | src/main/java/com/example/hubspotdemo/cache/HubSpotPropertiesCache.java:124-127 | an unknown name fails before any fetch and leaves the cache alone; a known name is a lookup by its kind |
| PropertiesCache.LookupTwice | src/main/java/com/example/hubspotdemo/cache/HubSpotPropertiesCache.java:134-153 | repeating a lookup is idempotent; the second fetches nothing exactly when the first stored a schema (equal results when nothing was stored assume the server answers the repeated request the same way) |
| PropertiesCache.PropertiesCache.constructor | src/main/java/com/example/hubspotdemo/cache/HubSpotPropertiesCache.java:70-72 | a new cache is empty and has fetched nothing |
| PropertiesCache.PropertiesCache.GetPropertiesByType | src/main/java/com/example/hubspotdemo/cache/HubSpotPropertiesCache.java:134-153 | the cache's new map, fetch log and result are those of `LookupByType`, spelled out for hit and miss |
| PropertiesCache.PropertiesCache.GetPropertiesByName | src/main/java/com/example/hubspotdemo/cache/HubSpotPropertiesCache.java:124-127 | the cache's new map, fetch log and result are those of `LookupByName`; an unknown name changes nothing |
| PropertiesCache.PropertiesCache.ClearCache | src/main/java/com/example/hubspotdemo/cache/HubSpotPropertiesCache.java:181-184 | the kind is removed and every other entry is kept unchanged |
| PropertiesCache.PropertiesCache.ClearAllCache | src/main/java/com/example/hubspotdemo/cache/HubSpotPropertiesCache.java:189-192 | the cache is emptied |
| PropertiesCache.PropertiesCache.RefreshCache | src/main/java/com/example/hubspotdemo/cache/HubSpotPropertiesCache.java:199-202 | the kind is always fetched again; afterwards it is cached exactly when the fresh fetch returned a schema, and other entries are kept |
| GenericService.NamesOf | src/main/java/com/example/hubspotdemo/service/impl/GenericHubSpotServiceImpl.java:51-61 | the property list is the schema's names, or empty when the schema or its results are null |
| GenericService.DecodeProjectionOf | src/main/java/com/example/hubspotdemo/service/impl/GenericHubSpotServiceImpl.java:66-74 | the `properties=` parameter decodes back to the property list |
| GenericService.QuerySegments | src/main/java/com/example/hubspotdemo/service/impl/GenericHubSpotServiceImpl.java:85-100 | the query splits at `&` into the limit, the optional `after=` cursor and the optional projection, in that order |
| GenericService.SegmentsRoundTrip | src/main/java/com/example/hubspotdemo/service/impl/GenericHubSpotServiceImpl.java:85-100 | the cursor and projection segments decode back to the limit, cursor and properties |
| GenericService.ListParamsRoundTrip | src/main/java/com/example/hubspotdemo/service/impl/GenericHubSpotServiceImpl.java:85-100 | the whole query string decodes back to limit, cursor and properties |
| GenericService.ListUrlRoundTrip | src/main/java/com/example/hubspotdemo/service/impl/GenericHubSpotServiceImpl.java:63-74 | a list URL decodes back to its limit, cursor and properties when no property name holds `,` or `&` and the cursor holds no `&`; for such inputs distinct requests never share a URL |
| GenericService.ByIdUrlRoundTrip | src/main/java/com/example/hubspotdemo/service/impl/GenericHubSpotServiceImpl.java:122-133 | a by-id URL decodes back to the object id and the properties when the id holds no `?` and no property name holds `,` or `&` |
| GenericService.AppendJoined | src/main/java/com/example/hubspotdemo/service/impl/GenericHubSpotServiceImpl.java:68-73 | the StringBuilder loop appends the items joined by commas with no trailing comma |
| GenericService.AppendProjection | src/main/java/com/example/hubspotdemo/service/impl/GenericHubSpotServiceImpl.java:66-74 | the projection is appended only for a non-empty list, after `&properties=` or `?properties=` |
| GenericService.PropertiesBody | src/main/java/com/example/hubspotdemo/service/impl/GenericHubSpotServiceImpl.java:141-142 | the create and update body is an object with the single key `properties` |
| GenericService.PropertiesBodyRoundTrip | src/main/java/com/example/hubspotdemo/service/impl/GenericHubSpotServiceImpl.java:141-142 | the property map, null included, is recovered from the body |
| GenericService.StringArray | src/main/java/com/example/hubspotdemo/service/impl/GenericHubSpotServiceImpl.java:174 | the property list is sent as a JSON array of the same strings in order |
| GenericService.SearchBody | src/main/java/com/example/hubspotdemo/service/impl/GenericHubSpotServiceImpl.java:172-176 | the search body has exactly `filterGroups`, `properties` and `limit`, each carrying the given value |
| GenericService.TypeNameRecovered | src/main/java/com/example/hubspotdemo/service/impl/GenericHubSpotServiceImpl.java:47 | the type name derived from `/crm/v3/objects/<name>` is `<name>` |
| GenericService.GenericService.constructor | src/main/java/com/example/hubspotdemo/service/impl/GenericHubSpotServiceImpl.java:35-43 | the base endpoint is `/crm/v3/objects/<kind>` and the search endpoint is that plus `/search` |
| GenericService.GenericService.TypeName | src/main/java/com/example/hubspotdemo/service/impl/GenericHubSpotServiceImpl.java:47 | the derived type name has no `/` |
| GenericService.GenericService.ListAllTarget | src/main/java/com/example/hubspotdemo/service/impl/GenericHubSpotServiceImpl.java:51-74 | a caller-given non-empty list is used as is. Otherwise the schema names from the cache are used, and a cache failure (an unknown type name) is passed on |
| GenericService.GenericService.ByIdTarget | src/main/java/com/example/hubspotdemo/service/impl/GenericHubSpotServiceImpl.java:112-133 | the by-id URL always projects the cached schema names, and a cache failure is passed on |
| GenericService.GenericService.GetAllObjects | src/main/java/com/example/hubspotdemo/service/impl/GenericHubSpotServiceImpl.java:46-78 | the cache is consulted only without a caller projection; the result is a paged GET of the target URL or the cache's failure |
| GenericService.GenericService.GetObjectsWithPagination | src/main/java/com/example/hubspotdemo/service/impl/GenericHubSpotServiceImpl.java:81-104 | a paged GET of the list URL with the given limit, cursor and properties, the cache untouched |
| GenericService.GenericService.GetObjectById | src/main/java/com/example/hubspotdemo/service/impl/GenericHubSpotServiceImpl.java:107-135 | the cache is always consulted; the result is a GET of the by-id URL or the cache's failure |
| GenericService.GenericService.CreateObject | src/main/java/com/example/hubspotdemo/service/impl/GenericHubSpotServiceImpl.java:138-145 | POST of the properties body to the base endpoint |
| GenericService.GenericService.UpdateObject | src/main/java/com/example/hubspotdemo/service/impl/GenericHubSpotServiceImpl.java:148-156 | PUT of the properties body to `<base>/<id>` |
| GenericService.GenericService.DeleteObject | src/main/java/com/example/hubspotdemo/service/impl/GenericHubSpotServiceImpl.java:159-165 | never returns false: it is true exactly when the DELETE succeeds, and the DELETE's failure otherwise |
| GenericService.GenericService.SearchObjects | src/main/java/com/example/hubspotdemo/service/impl/GenericHubSpotServiceImpl.java:168-180 | POST of the search body to the search endpoint; null filter groups throw NullPointerException |
| GenericService.GenericService.GetObjectProperties | src/main/java/com/example/hubspotdemo/service/impl/GenericHubSpotServiceImpl.java:183-187 | a GET of `/crm/v3/properties/<type name>` on the base URL, where the type name is the one derived from this service's endpoint, with the reply translated by `Complete` |
| ObjectServices.NewCompanyService | src/main/java/com/example/hubspotdemo/service/impl/CompanyServiceImpl.java:26-29 | a fresh service on `/crm/v3/objects/companies`, its search endpoint, and the given gateway and cache; it is the service `ServiceFor` its kind, so when the cache is built on the same gateway (as the Spring wiring makes it) the cache fetches that kind's schema through it |
| ObjectServices.NewContactService | src/main/java/com/example/hubspotdemo/service/impl/ContactServiceImpl.java:21-23 | a fresh service on `/crm/v3/objects/contacts` and its search endpoint, given the shared cache; it is the service `ServiceFor` its kind, so when the cache is built on the same gateway (as the Spring wiring makes it) the cache fetches that kind's schema through it |
| ObjectServices.NewDealService | src/main/java/com/example/hubspotdemo/service/impl/DealServiceImpl.java:19-22 | a fresh service on `/crm/v3/objects/deals` and its search endpoint; it is the service `ServiceFor` its kind, so when the cache is built on the same gateway (as the Spring wiring makes it) the cache fetches that kind's schema through it |
| ObjectServices.NewProductService | src/main/java/com/example/hubspotdemo/service/impl/ProductServiceImpl.java:19-22 | a fresh service on `/crm/v3/objects/products` and its search endpoint; it is the service `ServiceFor` its kind, so when the cache is built on the same gateway (as the Spring wiring makes it) the cache fetches that kind's schema through it |
| ObjectServices.NewLineItemService | src/main/java/com/example/hubspotdemo/service/impl/LineItemServiceImpl.java:22-24 | a fresh service on `/crm/v3/objects/line_items` and its search endpoint, given the shared cache; it is the service `ServiceFor` its kind, so when the cache is built on the same gateway (as the Spring wiring makes it) the cache fetches that kind's schema through it |
| ObjectServices.ServiceTypeNameRecovered | src/main/java/com/example/hubspotdemo/service/impl/GenericHubSpotServiceImpl.java:47 | the type name a kind's service derives is the one the cache expects for that kind |
| ObjectServices.CacheFetchIsServiceSchema | src/main/java/com/example/hubspotdemo/cache/HubSpotPropertiesCache.java:160-175 | the cache's fetch for a kind is that kind's service schema read |
| ObjectServices.SchemaReadsResolve | src/main/java/com/example/hubspotdemo/service/impl/GenericHubSpotServiceImpl.java:51-61 | for every kind but line items with a cached schema, list-all and by-id project exactly the cached names |
| ObjectServices.LineItemLookupFails | src/main/java/com/example/hubspotdemo/service/impl/GenericHubSpotServiceImpl.java:52-53 | the line-item service's cache lookup always fails with IllegalArgumentException and changes nothing |
| ObjectServices.LineItemSchemaReadsFail | src/main/java/com/example/hubspotdemo/service/impl/GenericHubSpotServiceImpl.java:51-61 | line-item list-all without properties, or with an empty list, and line-item by-id always fail with that IllegalArgumentException |
| ObjectServices.BetweenOf | src/main/java/com/example/hubspotdemo/service/impl/CompanyServiceImpl.java:33-34 | an id placed between an association prefix and suffix is recovered |
| ObjectServices.GetCompanyContacts | src/main/java/com/example/hubspotdemo/service/impl/CompanyServiceImpl.java:32-44 | raw GET of `/crm/v3/objects/companies/<id>/contacts`; an error status is not translated into an API exception |
| ObjectServices.GetDealsByContactId | src/main/java/com/example/hubspotdemo/service/impl/ContactServiceImpl.java:30-36 | a GET of `/crm/v3/objects/contacts/<id>/associations/contact_to_deal/deals` on the base URL, its reply translated by `Complete` as every paged read is |
| ObjectServices.GetDealLineItems | src/main/java/com/example/hubspotdemo/service/impl/LineItemServiceImpl.java:31-37 | a GET of `/crm/v3/objects/deals/<id>/associations/deal_to_line_item/line_items` on the base URL, its reply translated by `Complete` as every paged read is |
| ObjectServices.CompanyContactsUrlCarriesId | src/main/java/com/example/hubspotdemo/service/impl/CompanyServiceImpl.java:33-34 | the company id is recovered from the company-contacts URL |
| ObjectServices.AssociationEndpointsCarryIds | src/main/java/com/example/hubspotdemo/service/impl/ContactServiceImpl.java:33-35 | the contact id and the deal id are recovered from their association endpoints |
| ObjectServices.AssociationErrorWrapping | src/main/java/com/example/hubspotdemo/service/impl/CompanyServiceImpl.java:40-43 | company contacts never fail with an API exception. The two paged associations never fail with a raw status error; on an error status each throws the translated `ApiError` exception |
| Records.ReadString | src/main/java/com/example/hubspotdemo/model/Contact.java:52-54 | a null map, an absent key and JSON null read as null; a string reads as itself; any other value is a ClassCastException |
| Records.Put | src/main/java/com/example/hubspotdemo/model/Contact.java:59-64 | the map, created when null, gains the key with the value and keeps every other key and value |
| Records.ReadPut | src/main/java/com/example/hubspotdemo/model/Contact.java:52-64 | after a set, the getter of that key returns the value set |
| Records.ReadPutOther | src/main/java/com/example/hubspotdemo/model/Contact.java:52-81 | a set leaves the getters of every other key unchanged |
| Records.PutCommutes | src/main/java/com/example/hubspotdemo/model/Contact.java:59-81 | sets of different keys commute |
| Records.Contact.constructor | src/main/java/com/example/hubspotdemo/model/Contact.java:11-13 | every field of a new contact is null and archived is false |
| Records.Contact.SetEmail | src/main/java/com/example/hubspotdemo/model/Contact.java:59-64 | only the `email` entry changes; `Email()` then returns it; the other getters are unchanged |
| Records.Contact.SetFirstName | src/main/java/com/example/hubspotdemo/model/Contact.java:76-81 | only the `firstname` entry changes; `FirstName()` then returns it; the other getters are unchanged |
| Records.Contact.SetLastName | src/main/java/com/example/hubspotdemo/model/Contact.java:93-98 | only the `lastname` entry changes; `LastName()` then returns it; the other getters are unchanged |
| Records.Contact.SetPhone | src/main/java/com/example/hubspotdemo/model/Contact.java:110-115 | only the `phone` entry changes; `Phone()` then returns it; the other getters are unchanged |
| Records.ContactReads | src/main/java/com/example/hubspotdemo/model/Contact.java:52-115 | for each of the four contact keys, a set is seen by its own getter and by no other |
| Records.Deal.constructor | src/main/java/com/example/hubspotdemo/model/Deal.java:11-13 | every field of a new deal is null and archived is false |
| Records.Deal.SetDealName | src/main/java/com/example/hubspotdemo/model/Deal.java:53-58 | only `dealname` changes; its getter returns it and the other getters are unchanged |
| Records.Deal.SetAmount | src/main/java/com/example/hubspotdemo/model/Deal.java:70-75 | only `amount` changes; its getter returns it and the other getters are unchanged |
| Records.Deal.SetDealStage | src/main/java/com/example/hubspotdemo/model/Deal.java:87-92 | only `dealstage` changes; its getter returns it and the other getters are unchanged |
| Records.Deal.SetCloseDate | src/main/java/com/example/hubspotdemo/model/Deal.java:104-109 | only `closedate` changes; its getter returns it and the other getters are unchanged |
| Records.Deal.SetProbability | src/main/java/com/example/hubspotdemo/model/Deal.java:121-126 | only `probability` changes; its getter returns it and the other getters are unchanged |
| Records.DealReads | src/main/java/com/example/hubspotdemo/model/Deal.java:46-126 | for each of the five deal keys, a set is seen by its own getter and by no other |
| Records.CompanyReads | src/main/java/com/example/hubspotdemo/model/Company.java:46-55 | `CompanyName()` and `Domain()` each read only their own key: null for a null map, an absent key or JSON null; the stored string itself; a ClassCastException for any other value |
| Records.ProductReads | src/main/java/com/example/hubspotdemo/model/Product.java:46-55 | `ProductName()` and `Price()` each read only their own key: null for a null map, an absent key or JSON null; the stored string itself; a ClassCastException for any other value |
| Records.LineItemReads | src/main/java/com/example/hubspotdemo/model/LineItem.java:46-55 | `LineItemName()` and `Quantity()` each read only their own key: null for a null map, an absent key or JSON null; the stored string itself; a ClassCastException for any other value |
| SyncScheduler.OutcomeOf | src/main/java/com/example/hubspotdemo/schedule/CompanySyncScheduler.java:63-65 | a run fails exactly when it stopped on an exception, and then with that exception |
| SyncScheduler.CursorOf | src/main/java/com/example/hubspotdemo/schedule/CompanySyncScheduler.java:53 | a page continues exactly when its paging info holds a next cursor. Paging info with a null `next` throws NullPointerException. No paging info, or a null `after`, ends the walk |
| SyncScheduler.FirstStep | src/main/java/com/example/hubspotdemo/schedule/CompanySyncScheduler.java:42-53 | a failed first read aborts; a null page or null results end the sync quietly; otherwise the page's cursor decides |
| SyncScheduler.PageStep | src/main/java/com/example/hubspotdemo/schedule/CompanySyncScheduler.java:55-59 | a failed page read aborts; a null page throws NullPointerException at line 59; otherwise the page's cursor decides |
| SyncScheduler.FirstNullProperties | src/main/java/com/example/hubspotdemo/schedule/CompanySyncScheduler.java:93-95 | the index of the first company with a null property map, or the count when there is none |
| SyncScheduler.NameOf | src/main/java/com/example/hubspotdemo/schedule/CompanySyncScheduler.java:94 | the stored `name` value (a JSON null included) when the key is present; null when it is absent |
| SyncScheduler.LogLines | src/main/java/com/example/hubspotdemo/schedule/CompanySyncScheduler.java:93-95 | one log line per company, in order, with its id and name |
| SyncScheduler.FilterValueOf | src/main/java/com/example/hubspotdemo/schedule/CompanySyncScheduler.java:110-131 | the watermark is recovered from the filter groups |
| SyncScheduler.CursorStepsArePaginated | src/main/java/com/example/hubspotdemo/schedule/CompanySyncScheduler.java:55 | each cursor step is a paged read of limit 100, that cursor and no projection |
| SyncScheduler.WalkUnique | src/main/java/com/example/hubspotdemo/schedule/CompanySyncScheduler.java:54-60 | the cursor walk from a start cursor is determined: its requests and its outcome are unique (given a server that answers each request the same way every time) |
| SyncScheduler.TwoPageWalk | src/main/java/com/example/hubspotdemo/schedule/CompanySyncScheduler.java:54-60 | when the second page has no cursor, the walk requests exactly the two cursors and completes |
| SyncScheduler.WalkWithin | src/main/java/com/example/hubspotdemo/schedule/CompanySyncScheduler.java:54-60 | a chain that ends within n steps is walked in at most n requests |
| SyncScheduler.FilterGroupsFor | src/main/java/com/example/hubspotdemo/schedule/CompanySyncScheduler.java:110-131 | one group with one filter, `hs_lastmodifieddate GT <value>`, from which the value can be read back |
| SyncScheduler.CompanySyncScheduler.RequestPage | src/main/java/com/example/hubspotdemo/schedule/CompanySyncScheduler.java:55-59 | one page request is the walk's step function applied to the cursor |
| SyncScheduler.CompanySyncScheduler.FollowCursors | src/main/java/com/example/hubspotdemo/schedule/CompanySyncScheduler.java:53-60 | the loop requests exactly the cursor walk from the first cursor and ends with the walk's outcome |
| SyncScheduler.CompanySyncScheduler.PerformFullSync | src/main/java/com/example/hubspotdemo/schedule/CompanySyncScheduler.java:38-66 | the first read goes through the company schema in the cache, and the cache changes as that lookup says; then the cursor walk follows, with every exception caught into the outcome |
| SyncScheduler.CompanySyncScheduler.BuildIncrementalFilter | src/main/java/com/example/hubspotdemo/schedule/CompanySyncScheduler.java:107-132 | the filter's value is the UTC ISO text of `now` minus 48 hours |
| SyncScheduler.CompanySyncScheduler.LogResults | src/main/java/com/example/hubspotdemo/schedule/CompanySyncScheduler.java:93-95 | companies are logged in order up to the first null property map, which ends the run with NullPointerException |
| SyncScheduler.CompanySyncScheduler.PerformIncrementalSync | src/main/java/com/example/hubspotdemo/schedule/CompanySyncScheduler.java:73-100 | searches with that filter, no properties and limit 100. A failure is caught into the outcome, and a null page or null results log nothing. Otherwise it logs as `LogResults` does |
| SyncScheduler.IncrementalWatermark | src/main/java/com/example/hubspotdemo/schedule/CompanySyncScheduler.java:119-125 | the filter's text parses back to exactly `now` minus 48 hours |
| SyncScheduler.CursorPagesUnprojected | src/main/java/com/example/hubspotdemo/schedule/CompanySyncScheduler.java:55 | every cursor page URL decodes to limit 100, that cursor and an empty projection |
| SyncScheduler.FullSyncProjectsSchema | src/main/java/com/example/hubspotdemo/schedule/CompanySyncScheduler.java:42-46 | with the company schema cached, the first page projects exactly the schema's property names |
| SyncScheduler.WatermarkExample | src/main/java/com/example/hubspotdemo/schedule/CompanySyncScheduler.java:118-125 | a run at 2024-03-10T12:00:00.000Z filters on `2024-03-08T12:00:00.000Z` |

## Left out

- The HTTP transport, request headers and the bearer token are not modelled. The transport is the function-valued fields of `Gateway`, and every property holds for any of them.
- JSON deserialisation of replies, including Jackson's own errors, is not modelled. A reply arrives already decoded, or as a raw error body.
- The JSON parse of an error body, including its failure, is a parameter of `ApiError`.
- Logging is not modelled; it has no effect on results. The only exception is the incremental sync's per-company log line, which is modelled because building it reads the property map and can throw.
- `ConcurrentHashMap` concurrency in the properties cache and Spring's `@Lazy` wiring of the services into the cache are not modelled. The cache's map is updated by one caller at a time.
- The cron schedules (`@Scheduled`) and `new Date()` are not modelled. The current time is the parameter `now`.
- SyncScheduler.CompanySyncScheduler.BuildIncrementalFilter: requires `LookbackMillis <= now < MaxMillis + LookbackMillis`. The calendar covers only 1970-01-01 to 9999-12-31, so instants before the epoch, and the Julian-calendar dates that `SimpleDateFormat` would use before 1582, are not modelled.
- SyncScheduler.CompanySyncScheduler.PerformIncrementalSync: carries the same range precondition, for the same reason.
- SyncScheduler.CompanySyncScheduler.PerformFullSync: requires that the cursor chain from the first page ends. The Java loop would run forever on a server that keeps returning cursors; the model does not describe that run.
- Text.EqualsIgnoreCase, which `PropertiesCache.FromValue` uses, folds ASCII letters only. Java's `equalsIgnoreCase` also folds non-ASCII letters. No kind value contains one, but a name spelled with such a letter (the long s, `ſ`, say) may resolve in Java and not in the model.
- Null elements inside property lists and result lists are not modelled; list entries are always present.
- Java reference aliasing of `HubSpotObject` maps is not modelled. `Company`, `Product` and `LineItem` are immutable values; `Contact` and `Deal` are classes whose setters update their own map in place.
- `ContactServiceImpl` and `LineItemServiceImpl` call the six-parameter generic constructor with five arguments and no properties cache, so as written they do not compile. The model passes them the shared cache, as the company, deal and product services do.
- A null id is not a separate case. `String.format` in `getCompanyContacts` and the plain concatenation in the other id-taking operations (`getDealsByContactId`, `getDealLineItems`, `getObjectById`, `updateObject`, `deleteObject`) render a null id as the text `null`. The model's id `"null"` sends the same request.
- The REST controller, the configuration classes and the application entry point are not modelled.
- The interfaces `CompanyService`, `ProductService` and `LineItemService` are not modelled, and as written the code does not compile against them. They do not extend `GenericHubSpotService`, yet the scheduler calls `getAllObjects`, `getObjectsWithPagination` and `searchObjects` through `CompanyService`, and the properties cache calls `getObjectProperties` through all three. They also declare kind-named operations (`getAllCompanies`, `getCompaniesWithPagination`, `searchCompanies` and their product and line item counterparts) that `CompanyServiceImpl`, `ProductServiceImpl` and `LineItemServiceImpl` do not implement. The model follows the calls as written: its scheduler and cache call the `GenericService` operations directly, and the kind-named operations are left out.
- URL encoding is not modelled. The Java code appends property names and the cursor to the URL as they are, so `["a,b"]` and `["a", "b"]` give the same URL. Likewise `getObjectById("7?properties=x")` with no cached names and `getObjectById("7")` with the cached names `["x"]` give the same URL. The URL round trips hold only for names free of `,` and `&`, a cursor free of `&` and an object id free of `?`.
- `Company`, `Contact`, `Deal`, `Product` and `LineItem` do not extend `HubSpotObject`. The generic service requires `T extends HubSpotObject`, and the scheduler iterates companies as `HubSpotObject`, so as written this does not type-check. The model reads every record a service returns as `Payloads.HubSpotObject`.
- A property schema entry whose `name` is null is not modelled (`Payloads.Property.name` is a string). Java would append the text `null` to the projection.
- The overloads of `get` and `post` that take a `ParameterizedTypeReference` are merged with the `Class` overloads. They differ only in how Jackson decodes the body.
- The incremental sync's comments describe a five-minute window. The code subtracts 48 hours, and the model follows the code.
