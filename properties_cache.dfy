/**
 * The property-schema cache (`HubSpotPropertiesCache`): a map from the closed
 * set of object types to the schema last fetched for that type, populated on
 * a miss and emptied only on request.
 */
module PropertiesCache {
  import opened Wrappers
  import opened Text
  import opened Payloads
  import opened Errors
  import opened BaseService

  /** `ObjectType`: the five kinds, in declaration order, with their string values. */
  datatype ObjectType = COMPANIES | CONTACTS | DEALS | PRODUCTS | LINE_ITEMS {

    /** `getValue()`. */
    function Value(): string
    {
      match this
      case COMPANIES => "companies"
      case CONTACTS => "contacts"
      case DEALS => "deals"
      case PRODUCTS => "products"
      case LINE_ITEMS => "line-items"
    }
  }

  /** `values()`: every kind, in declaration order. */
  const AllTypes: seq<ObjectType> := [COMPANIES, CONTACTS, DEALS, PRODUCTS, LINE_ITEMS]

  lemma AllTypesComplete(t: ObjectType)
    ensures t in AllTypes
  {
  }

  /** A kind of `types` whose value equals `value` ignoring case, if there is one (the search goes in order). */
  function FindType(value: string, types: seq<ObjectType>): (r: Option<ObjectType>)
    ensures r.Some? ==> r.value in types && EqualsIgnoreCase(r.value.Value(), value)
    ensures r.None? ==> forall t :: t in types ==> !EqualsIgnoreCase(t.Value(), value)
  {
    if |types| == 0 then None
    else if EqualsIgnoreCase(types[0].Value(), value) then Some(types[0])
    else FindType(value, types[1..])
  }

  const UnsupportedTypeMessage := "不支持的对象类型: "

  /**
   * `ObjectType.fromValue`: the kind whose value equals `value` ignoring case;
   * any other string is an IllegalArgumentException naming it.
   */
  function FromValue(value: string): (r: Result<ObjectType>)
    ensures r.Ok? ==> EqualsIgnoreCase(r.value.Value(), value)
    ensures r.Err? ==> r.error == IllegalArgument(UnsupportedTypeMessage + value)
    ensures r.Err? <==> forall t: ObjectType :: !EqualsIgnoreCase(t.Value(), value)
  {
    match FindType(value, AllTypes)
    case Some(t) => Ok(t)
    case None =>
      assert forall t: ObjectType :: !EqualsIgnoreCase(t.Value(), value) by {
        forall t: ObjectType ensures !EqualsIgnoreCase(t.Value(), value) {
          AllTypesComplete(t);
        }
      }
      Err(IllegalArgument(UnsupportedTypeMessage + value))
  }

  /** No two kinds have values that are equal ignoring case. */
  lemma ValuesDistinctIgnoringCase(t: ObjectType, u: ObjectType)
    requires t != u
    ensures !EqualsIgnoreCase(t.Value(), u.Value())
  {
    if {t, u} == {CONTACTS, PRODUCTS} {
      assert Fold(t.Value()[0]) != Fold(u.Value()[0]);
    }
  }

  /** Ignoring case is an equivalence, so two kinds matching one string would match each other. */
  lemma EqualsIgnoreCaseThrough(a: string, b: string, v: string)
    requires EqualsIgnoreCase(a, v) && EqualsIgnoreCase(b, v)
    ensures EqualsIgnoreCase(a, b)
  {
  }

  /**
   * `fromValue` picks out the unique kind that matches: whenever a kind's
   * value equals the input ignoring case, that kind is the answer.
   */
  lemma FromValueUnique(t: ObjectType, value: string)
    requires EqualsIgnoreCase(t.Value(), value)
    ensures FromValue(value) == Ok(t)
  {
    var r := FromValue(value);
    if r.value != t {
      EqualsIgnoreCaseThrough(r.value.Value(), t.Value(), value);
      ValuesDistinctIgnoringCase(r.value, t);
    }
  }

  /** Each kind's own value, in any letter case, maps back to that kind. */
  lemma FromValueOfValue(t: ObjectType)
    ensures FromValue(t.Value()) == Ok(t)
  {
    FromValueUnique(t, t.Value());
  }

  /** The example "Contacts": capitals fold away, giving CONTACTS. */
  lemma FromValueContacts()
    ensures FromValue("Contacts") == Ok(CONTACTS)
  {
    var a, b := CONTACTS.Value(), "Contacts";
    assert EqualsIgnoreCase(a, b) by {
      forall k | 0 <= k < |a| ensures Fold(a[k]) == Fold(b[k]) {
      }
    }
    FromValueUnique(CONTACTS, b);
  }

  /** The example "LINE-ITEMS": all capitals, with the hyphen, gives LINE_ITEMS. */
  lemma FromValueLineItems()
    ensures FromValue("LINE-ITEMS") == Ok(LINE_ITEMS)
  {
    var a, b := LINE_ITEMS.Value(), "LINE-ITEMS";
    assert EqualsIgnoreCase(a, b) by {
      forall k | 0 <= k < |a| ensures Fold(a[k]) == Fold(b[k]) {
      }
    }
    FromValueUnique(LINE_ITEMS, b);
  }

  /** "line_items", with an underscore, matches no kind. */
  lemma LineItemsUnderscoreRejected()
    ensures FromValue("line_items") == Err(IllegalArgument(UnsupportedTypeMessage + "line_items"))
  {
    assert forall t: ObjectType :: !EqualsIgnoreCase(t.Value(), "line_items") by {
      forall t: ObjectType ensures !EqualsIgnoreCase(t.Value(), "line_items") {
        if t == LINE_ITEMS {
          assert Fold(t.Value()[4]) != Fold("line_items"[4]);
        } else {
          assert |t.Value()| != |"line_items"|;
        }
      }
    }
  }

  /**
   * The object-type name each kind's service passes to the generic service
   * constructor, and therefore the name its `getObjectProperties()` asks the
   * schema endpoint for. For line items it is "line_items", not the enum's
   * "line-items".
   */
  function ServiceTypeName(t: ObjectType): (name: string)
    ensures '/' !in name
  {
    match t
    case COMPANIES => "companies"
    case CONTACTS => "contacts"
    case DEALS => "deals"
    case PRODUCTS => "products"
    case LINE_ITEMS => "line_items"
  }

  /**
   * Four of the five service names resolve to their own kind; the line-item
   * service's name is refused by `fromValue`.
   */
  lemma ServiceTypeNamesResolve(t: ObjectType)
    ensures t != LINE_ITEMS ==> FromValue(ServiceTypeName(t)) == Ok(t)
    ensures t == LINE_ITEMS ==> FromValue(ServiceTypeName(t)).Err?
  {
    if t == LINE_ITEMS {
      LineItemsUnderscoreRejected();
    } else {
      FromValueOfValue(t);
    }
  }

  /**
   * `fetchPropertiesFromService`: the switch to the kind's service, whose
   * `getObjectProperties()` GETs the schema endpoint for its own type name.
   */
  function FetchFromService(t: ObjectType, gw: Gateway): (r: Result<Option<PropertiesResponse>>)
    ensures r == GetObjectProperties(gw, ServiceTypeName(t))
  {
    match t
    case COMPANIES => GetObjectProperties(gw, "companies")
    case CONTACTS => GetObjectProperties(gw, "contacts")
    case DEALS => GetObjectProperties(gw, "deals")
    case PRODUCTS => GetObjectProperties(gw, "products")
    case LINE_ITEMS => GetObjectProperties(gw, "line_items")
  }

  /** The map after a fetch: a non-null result is stored, anything else leaves it as it was. */
  function Store(entries: map<ObjectType, PropertiesResponse>, t: ObjectType,
                 fetched: Result<Option<PropertiesResponse>>): (m: map<ObjectType, PropertiesResponse>)
    ensures fetched.Ok? && fetched.value.Some? ==> m == entries[t := fetched.value.value]
    ensures !(fetched.Ok? && fetched.value.Some?) ==> m == entries
  {
    if fetched.Ok? && fetched.value.Some? then entries[t := fetched.value.value] else entries
  }

  /** What one get-or-populate does: its result, the map after it, and the kinds it fetched. */
  datatype Lookup = Lookup(
    result: Result<Option<PropertiesResponse>>,
    entries: map<ObjectType, PropertiesResponse>,
    fetched: seq<ObjectType>)

  /**
   * `getPropertiesByType(ObjectType)`: a hit returns the stored schema and
   * fetches nothing; a miss fetches once, stores a non-null result and returns
   * whatever the fetch gave; a failed fetch stores nothing.
   */
  function LookupByType(entries: map<ObjectType, PropertiesResponse>, t: ObjectType, gw: Gateway): (l: Lookup)
    ensures t in entries ==> l == Lookup(Ok(Some(entries[t])), entries, [])
    ensures t !in entries ==> l.fetched == [t] && l.result == FetchFromService(t, gw)
    ensures t !in entries ==> l.entries == Store(entries, t, l.result)
    ensures l.result.Err? ==> l.entries == entries
  {
    if t in entries then Lookup(Ok(Some(entries[t])), entries, [])
    else
      var fetched := FetchFromService(t, gw);
      Lookup(fetched, Store(entries, t, fetched), [t])
  }

  /** `getPropertiesByType(String)`: `fromValue` first; an unknown name changes nothing. */
  function LookupByName(entries: map<ObjectType, PropertiesResponse>, name: string, gw: Gateway): (l: Lookup)
    ensures FromValue(name).Err? ==> l == Lookup(Err(FromValue(name).error), entries, [])
    ensures FromValue(name).Ok? ==> l == LookupByType(entries, FromValue(name).value, gw)
  {
    match FromValue(name)
    case Err(e) => Lookup(Err(e), entries, [])
    case Ok(t) => LookupByType(entries, t, gw)
  }

  /**
   * Two lookups in a row answer the same, and the second one fetches only if
   * the first one did not store anything.
   */
  lemma LookupTwice(entries: map<ObjectType, PropertiesResponse>, t: ObjectType, gw: Gateway)
    ensures var first := LookupByType(entries, t, gw);
      var second := LookupByType(first.entries, t, gw);
      && second.result == first.result
      && second.entries == first.entries
      && (second.fetched == [] <==> t in first.entries)
      && (t in first.entries <==> first.result.Ok? && first.result.value.Some?)
  {
  }

  /**
   * The cache shared by the services. `fetched` records, in order, every
   * kind whose schema was requested from the remote system.
   */
  class PropertiesCache {
    const gateway: Gateway
    var entries: map<ObjectType, PropertiesResponse>
    ghost var fetched: seq<ObjectType>

    constructor (gateway: Gateway)
      ensures this.gateway == gateway
      ensures entries == map[] && fetched == []
    {
      this.gateway := gateway;
      entries := map[];
      fetched := [];
    }

    /** `getPropertiesByType(ObjectType)`. */
    method GetPropertiesByType(t: ObjectType) returns (r: Result<Option<PropertiesResponse>>)
      modifies this
      ensures var l := LookupByType(old(entries), t, gateway);
        r == l.result && entries == l.entries && fetched == old(fetched) + l.fetched
      ensures t in old(entries) ==> r == Ok(Some(old(entries)[t])) && entries == old(entries) && fetched == old(fetched)
      ensures t !in old(entries) ==> r == FetchFromService(t, gateway) && fetched == old(fetched) + [t]
      ensures t !in old(entries) && r.Ok? && r.value.Some? ==> entries == old(entries)[t := r.value.value]
      ensures t !in old(entries) && !(r.Ok? && r.value.Some?) ==> entries == old(entries)
    {
      var properties: Option<PropertiesResponse> := if t in entries then Some(entries[t]) else None;
      if properties.None? {
        var response := FetchFromService(t, gateway);
        fetched := fetched + [t];
        if response.Err? {
          return response;
        }
        properties := response.value;
        if properties.Some? {
          entries := entries[t := properties.value];
        }
      }
      r := Ok(properties);
    }

    /** `getPropertiesByType(String)`: resolve the name with `fromValue`, then as above. */
    method GetPropertiesByName(name: string) returns (r: Result<Option<PropertiesResponse>>)
      modifies this
      ensures var l := LookupByName(old(entries), name, gateway);
        r == l.result && entries == l.entries && fetched == old(fetched) + l.fetched
      ensures FromValue(name).Err? ==> r.Err? && r.error.IllegalArgument? && entries == old(entries) && fetched == old(fetched)
    {
      var kind := FromValue(name);
      if kind.Err? {
        return Err(kind.error);
      }
      r := GetPropertiesByType(kind.value);
    }

    /** `clearCache`: drops the one kind's entry; every other entry stays as it was. */
    method ClearCache(t: ObjectType)
      modifies this
      ensures entries == old(entries) - {t}
      ensures t !in entries
      ensures forall u :: u != t ==> (u in entries <==> u in old(entries))
      ensures forall u :: u != t && u in entries ==> entries[u] == old(entries)[u]
      ensures fetched == old(fetched)
    {
      entries := entries - {t};
    }

    /** `clearAllCache`: nothing is cached afterwards. */
    method ClearAllCache()
      modifies this
      ensures entries == map[]
      ensures fetched == old(fetched)
    {
      entries := map[];
    }

    /**
     * `refreshCache`: clear, then get. It always fetches, and afterwards the
     * kind's entry is the fetched schema when that is non-null and is absent
     * otherwise (including when the fetch failed).
     */
    method RefreshCache(t: ObjectType) returns (r: Result<Option<PropertiesResponse>>)
      modifies this
      ensures r == FetchFromService(t, gateway)
      ensures fetched == old(fetched) + [t]
      ensures entries == Store(old(entries) - {t}, t, r)
      ensures r.Ok? && r.value.Some? ==> t in entries && entries[t] == r.value.value
      ensures !(r.Ok? && r.value.Some?) ==> t !in entries
    {
      ClearCache(t);
      r := GetPropertiesByType(t);
    }
  }
}
