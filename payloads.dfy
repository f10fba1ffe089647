/**
 * The wire payloads of the remote CRM API: dynamically typed JSON values, the
 * generic object envelope (`HubSpotObject`), the paged list envelope
 * (`HubSpotResponse`) and the property schema (`HubSpotProperty`,
 * `HubSpotPropertiesResponse`). Java null is `None`.
 */
module Payloads {
  import opened Wrappers

  /** A value as Jackson hands it over in a `Map<String, Object>`. */
  datatype Json =
    | JNull
    | JString(str: string)
    | JNumber(num: int)
    | JBool(b: bool)
    | JArray(items: seq<Json>)
    | JObject(fields: map<string, Json>)

  /** The `properties` map of a record: property name to dynamically typed value. */
  type PropertyMap = map<string, Json>

  /** One remote record of any kind. */
  datatype HubSpotObject = HubSpotObject(
    id: Option<string>,
    properties: Option<PropertyMap>,
    createdAt: Option<string>,
    updatedAt: Option<string>,
    archived: bool)

  datatype NextPage = NextPage(after: Option<string>, link: Option<string>)

  datatype PagingInfo = PagingInfo(next: Option<NextPage>)

  /** A list response: `{results: [...], paging: {next: {after, link}}}` plus the error fields. */
  datatype Page = Page(
    status: Option<string>,
    message: Option<string>,
    results: Option<seq<HubSpotObject>>,
    paging: Option<PagingInfo>)

  /** One declared property of a kind (the fields the client reads or passes along). */
  datatype Property = Property(
    name: string,
    propertyLabel: Option<string>,
    dataType: Option<string>,
    fieldType: Option<string>,
    groupName: Option<string>)

  datatype PropertiesResponse = PropertiesResponse(results: Option<seq<Property>>)

  /** The names of a schema's properties, in schema order (`results.stream().map(getName)`). */
  function PropertyNames(props: seq<Property>): (names: seq<string>)
    ensures |names| == |props|
    ensures forall k :: 0 <= k < |props| ==> names[k] == props[k].name
  {
    seq(|props|, k requires 0 <= k < |props| => props[k].name)
  }
}
