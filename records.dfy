/**
 * The typed record views (`Contact`, `Deal`, `Company`, `Product`,
 * `LineItem`): each keeps the raw `properties` map and reads or writes a few
 * fixed keys of it, casting the stored value to String.
 */
module Records {
  import opened Wrappers
  import opened Payloads
  import opened Errors

  // ---------------------------------------------------------------------------
  // Reading and writing one key of a properties map

  /**
   * `properties != null ? (String) properties.get(key) : null`: a null map,
   * a missing key and a stored null all read as null; a stored string reads
   * as itself; any other stored value fails the cast.
   */
  function ReadString(props: Option<PropertyMap>, key: string): (r: Result<Option<string>>)
    ensures props.None? ==> r == Ok(None)
    ensures props.Some? && key !in props.value ==> r == Ok(None)
    ensures props.Some? && key in props.value ==>
      match props.value[key]
      case JNull => r == Ok(None)
      case JString(s) => r == Ok(Some(s))
      case _ => r == Err(ClassCast)
  {
    match props
    case None => Ok(None)
    case Some(m) =>
      if key !in m then Ok(None)
      else match m[key]
        case JNull => Ok(None)
        case JString(s) => Ok(Some(s))
        case _ => Err(ClassCast)
  }

  /** A Java String (possibly null) as the map stores it. */
  function StringValue(value: Option<string>): Json
  {
    match value
    case None => JNull
    case Some(s) => JString(s)
  }

  /**
   * The map after a setter: the old map, or a fresh empty one when it was
   * null, with `key` bound to `value` and every other key as before.
   */
  function Put(props: Option<PropertyMap>, key: string, value: Option<string>): (m: PropertyMap)
    ensures key in m && m[key] == StringValue(value)
    ensures forall k :: k != key ==> (k in m <==> props.Some? && k in props.value)
    ensures forall k :: k != key && k in m ==> props.Some? && m[k] == props.value[k]
  {
    props.GetOr(map[])[key := StringValue(value)]
  }

  /** Set-then-get: a key reads back exactly what was stored, null included. */
  lemma ReadPut(props: Option<PropertyMap>, key: string, value: Option<string>)
    ensures ReadString(Some(Put(props, key, value)), key) == Ok(value)
  {
    var m := Put(props, key, value);
    assert m[key] == StringValue(value);
  }

  /** Storing one key leaves what every other key reads unchanged. */
  lemma ReadPutOther(props: Option<PropertyMap>, key: string, other: string, value: Option<string>)
    requires other != key
    ensures ReadString(Some(Put(props, key, value)), other) == ReadString(props, other)
  {
    var m := Put(props, key, value);
    if other in m {
      assert m[other] == props.value[other];
    }
  }

  /** Setting two different keys gives the same map in either order. */
  lemma PutCommutes(props: Option<PropertyMap>, k1: string, v1: Option<string>, k2: string, v2: Option<string>)
    requires k1 != k2
    ensures Put(Some(Put(props, k1, v1)), k2, v2) == Put(Some(Put(props, k2, v2)), k1, v1)
  {
    var a := Put(Some(Put(props, k1, v1)), k2, v2);
    var b := Put(Some(Put(props, k2, v2)), k1, v1);
    assert forall k :: k in a <==> k in b;
    assert forall k :: k in a ==> a[k] == b[k];
  }

  // ---------------------------------------------------------------------------
  // Contact

  const EmailKey := "email"
  const FirstNameKey := "firstname"
  const LastNameKey := "lastname"
  const PhoneKey := "phone"

  /** A contact record; the setters update its `properties` map in place. */
  class Contact {
    var id: Option<string>
    var properties: Option<PropertyMap>
    var createdAt: Option<string>
    var updatedAt: Option<string>
    var archived: bool
    var ownerId: Option<string>

    /** The no-argument constructor Jackson uses: every reference null. */
    constructor()
      ensures id.None? && properties.None? && createdAt.None? && updatedAt.None?
      ensures !archived && ownerId.None?
    {
      id := None;
      properties := None;
      createdAt := None;
      updatedAt := None;
      archived := false;
      ownerId := None;
    }

    function Email(): (r: Result<Option<string>>)
      reads this
    {
      ReadString(properties, EmailKey)
    }

    function FirstName(): (r: Result<Option<string>>)
      reads this
    {
      ReadString(properties, FirstNameKey)
    }

    function LastName(): (r: Result<Option<string>>)
      reads this
    {
      ReadString(properties, LastNameKey)
    }

    function Phone(): (r: Result<Option<string>>)
      reads this
    {
      ReadString(properties, PhoneKey)
    }

    /** Only `properties` changes, and only at `key`. */
    twostate predicate OnlyKeyChanged(key: string, value: Option<string>)
      reads this
    {
      && properties == Some(Put(old(properties), key, value))
      && id == old(id) && createdAt == old(createdAt) && updatedAt == old(updatedAt)
      && archived == old(archived) && ownerId == old(ownerId)
    }

    method SetEmail(email: Option<string>)
      modifies this
      ensures OnlyKeyChanged(EmailKey, email)
      ensures Email() == Ok(email)
      ensures FirstName() == old(FirstName()) && LastName() == old(LastName()) && Phone() == old(Phone())
    {
      if properties.None? {
        properties := Some(map[]);
      }
      properties := Some(properties.value[EmailKey := StringValue(email)]);
      ContactReads(old(properties), EmailKey, email);
    }

    method SetFirstName(firstName: Option<string>)
      modifies this
      ensures OnlyKeyChanged(FirstNameKey, firstName)
      ensures FirstName() == Ok(firstName)
      ensures Email() == old(Email()) && LastName() == old(LastName()) && Phone() == old(Phone())
    {
      if properties.None? {
        properties := Some(map[]);
      }
      properties := Some(properties.value[FirstNameKey := StringValue(firstName)]);
      ContactReads(old(properties), FirstNameKey, firstName);
    }

    method SetLastName(lastName: Option<string>)
      modifies this
      ensures OnlyKeyChanged(LastNameKey, lastName)
      ensures LastName() == Ok(lastName)
      ensures Email() == old(Email()) && FirstName() == old(FirstName()) && Phone() == old(Phone())
    {
      if properties.None? {
        properties := Some(map[]);
      }
      properties := Some(properties.value[LastNameKey := StringValue(lastName)]);
      ContactReads(old(properties), LastNameKey, lastName);
    }

    method SetPhone(phone: Option<string>)
      modifies this
      ensures OnlyKeyChanged(PhoneKey, phone)
      ensures Phone() == Ok(phone)
      ensures Email() == old(Email()) && FirstName() == old(FirstName()) && LastName() == old(LastName())
    {
      if properties.None? {
        properties := Some(map[]);
      }
      properties := Some(properties.value[PhoneKey := StringValue(phone)]);
      ContactReads(old(properties), PhoneKey, phone);
    }
  }

  /** What the four contact keys read after one of them is set. */
  lemma ContactReads(props: Option<PropertyMap>, key: string, value: Option<string>)
    ensures forall k :: k in {EmailKey, FirstNameKey, LastNameKey, PhoneKey} ==>
      ReadString(Some(Put(props, key, value)), k) == if k == key then Ok(value) else ReadString(props, k)
  {
    forall k | k in {EmailKey, FirstNameKey, LastNameKey, PhoneKey}
      ensures ReadString(Some(Put(props, key, value)), k) == if k == key then Ok(value) else ReadString(props, k)
    {
      if k == key { ReadPut(props, key, value); } else { ReadPutOther(props, key, k, value); }
    }
  }

  // ---------------------------------------------------------------------------
  // Deal

  const DealNameKey := "dealname"
  const AmountKey := "amount"
  const DealStageKey := "dealstage"
  const CloseDateKey := "closedate"
  const ProbabilityKey := "probability"

  /** A deal record; the setters update its `properties` map in place. */
  class Deal {
    var id: Option<string>
    var properties: Option<PropertyMap>
    var createdAt: Option<string>
    var updatedAt: Option<string>
    var archived: bool

    /** The no-argument constructor Jackson uses: every reference null. */
    constructor()
      ensures id.None? && properties.None? && createdAt.None? && updatedAt.None? && !archived
    {
      id := None;
      properties := None;
      createdAt := None;
      updatedAt := None;
      archived := false;
    }

    function DealName(): (r: Result<Option<string>>)
      reads this
    {
      ReadString(properties, DealNameKey)
    }

    function Amount(): (r: Result<Option<string>>)
      reads this
    {
      ReadString(properties, AmountKey)
    }

    function DealStage(): (r: Result<Option<string>>)
      reads this
    {
      ReadString(properties, DealStageKey)
    }

    function CloseDate(): (r: Result<Option<string>>)
      reads this
    {
      ReadString(properties, CloseDateKey)
    }

    function Probability(): (r: Result<Option<string>>)
      reads this
    {
      ReadString(properties, ProbabilityKey)
    }

    /** Only `properties` changes, and only at `key`. */
    twostate predicate OnlyKeyChanged(key: string, value: Option<string>)
      reads this
    {
      && properties == Some(Put(old(properties), key, value))
      && id == old(id) && createdAt == old(createdAt) && updatedAt == old(updatedAt)
      && archived == old(archived)
    }

    /** The five deal getters read the same as in the pre-state, except at `key`. */
    twostate predicate OthersRead(key: string)
      reads this
    {
      && (key != DealNameKey ==> DealName() == old(DealName()))
      && (key != AmountKey ==> Amount() == old(Amount()))
      && (key != DealStageKey ==> DealStage() == old(DealStage()))
      && (key != CloseDateKey ==> CloseDate() == old(CloseDate()))
      && (key != ProbabilityKey ==> Probability() == old(Probability()))
    }

    method SetDealName(dealName: Option<string>)
      modifies this
      ensures OnlyKeyChanged(DealNameKey, dealName)
      ensures DealName() == Ok(dealName) && OthersRead(DealNameKey)
    {
      if properties.None? {
        properties := Some(map[]);
      }
      properties := Some(properties.value[DealNameKey := StringValue(dealName)]);
      DealReads(old(properties), DealNameKey, dealName);
    }

    method SetAmount(amount: Option<string>)
      modifies this
      ensures OnlyKeyChanged(AmountKey, amount)
      ensures Amount() == Ok(amount) && OthersRead(AmountKey)
    {
      if properties.None? {
        properties := Some(map[]);
      }
      properties := Some(properties.value[AmountKey := StringValue(amount)]);
      DealReads(old(properties), AmountKey, amount);
    }

    method SetDealStage(dealStage: Option<string>)
      modifies this
      ensures OnlyKeyChanged(DealStageKey, dealStage)
      ensures DealStage() == Ok(dealStage) && OthersRead(DealStageKey)
    {
      if properties.None? {
        properties := Some(map[]);
      }
      properties := Some(properties.value[DealStageKey := StringValue(dealStage)]);
      DealReads(old(properties), DealStageKey, dealStage);
    }

    method SetCloseDate(closeDate: Option<string>)
      modifies this
      ensures OnlyKeyChanged(CloseDateKey, closeDate)
      ensures CloseDate() == Ok(closeDate) && OthersRead(CloseDateKey)
    {
      if properties.None? {
        properties := Some(map[]);
      }
      properties := Some(properties.value[CloseDateKey := StringValue(closeDate)]);
      DealReads(old(properties), CloseDateKey, closeDate);
    }

    method SetProbability(probability: Option<string>)
      modifies this
      ensures OnlyKeyChanged(ProbabilityKey, probability)
      ensures Probability() == Ok(probability) && OthersRead(ProbabilityKey)
    {
      if properties.None? {
        properties := Some(map[]);
      }
      properties := Some(properties.value[ProbabilityKey := StringValue(probability)]);
      DealReads(old(properties), ProbabilityKey, probability);
    }
  }

  /** What the five deal keys read after one of them is set. */
  lemma DealReads(props: Option<PropertyMap>, key: string, value: Option<string>)
    ensures forall k :: k in {DealNameKey, AmountKey, DealStageKey, CloseDateKey, ProbabilityKey} ==>
      ReadString(Some(Put(props, key, value)), k) == if k == key then Ok(value) else ReadString(props, k)
  {
    forall k | k in {DealNameKey, AmountKey, DealStageKey, CloseDateKey, ProbabilityKey}
      ensures ReadString(Some(Put(props, key, value)), k) == if k == key then Ok(value) else ReadString(props, k)
    {
      if k == key { ReadPut(props, key, value); } else { ReadPutOther(props, key, k, value); }
    }
  }

  // ---------------------------------------------------------------------------
  // Read-only views: Company, Product, LineItem

  datatype Company = Company(
    id: Option<string>,
    properties: Option<PropertyMap>,
    createdAt: Option<string>,
    updatedAt: Option<string>,
    archived: bool)
  {
    function CompanyName(): Result<Option<string>> { ReadString(properties, "company") }
    function Domain(): Result<Option<string>> { ReadString(properties, "domain") }
  }

  datatype Product = Product(
    id: Option<string>,
    properties: Option<PropertyMap>,
    createdAt: Option<string>,
    updatedAt: Option<string>,
    archived: bool)
  {
    function ProductName(): Result<Option<string>> { ReadString(properties, "name") }
    function Price(): Result<Option<string>> { ReadString(properties, "price") }
  }

  datatype LineItem = LineItem(
    id: Option<string>,
    properties: Option<PropertyMap>,
    createdAt: Option<string>,
    updatedAt: Option<string>,
    archived: bool)
  {
    function LineItemName(): Result<Option<string>> { ReadString(properties, "hs_product_name") }
    function Quantity(): Result<Option<string>> { ReadString(properties, "quantity") }
  }

  /**
   * `Company.getCompanyName()` and `getDomain()`: each reads its own key, `company` and `domain`.
   * A null map, an absent key or a JSON null reads as null, a stored string
   * reads as itself, any other value fails the `(String)` cast, and the
   * other getter's key does not matter.
   */
  lemma CompanyReads(c: Company, m: PropertyMap, s: string, other: Json)
    requires !other.JNull? && !other.JString?
    ensures c.properties.None? ==> c.CompanyName() == Ok(None) && c.Domain() == Ok(None)
    ensures c.properties.Some? && "company" !in c.properties.value ==> c.CompanyName() == Ok(None)
    ensures c.properties.Some? && "domain" !in c.properties.value ==> c.Domain() == Ok(None)
    ensures c.(properties := Some(m["company" := JNull])).CompanyName() == Ok(None)
    ensures c.(properties := Some(m["domain" := JNull])).Domain() == Ok(None)
    ensures c.(properties := Some(m["company" := JString(s)])).CompanyName() == Ok(Some(s))
    ensures c.(properties := Some(m["domain" := JString(s)])).Domain() == Ok(Some(s))
    ensures c.(properties := Some(m["company" := other])).CompanyName() == Err(ClassCast)
    ensures c.(properties := Some(m["domain" := other])).Domain() == Err(ClassCast)
    ensures c.(properties := Some(m["domain" := other])).CompanyName() == c.(properties := Some(m)).CompanyName()
    ensures c.(properties := Some(m["company" := other])).Domain() == c.(properties := Some(m)).Domain()
  {
  }

  /**
   * `Product.getProductName()` and `getPrice()`: each reads its own key, `name` and `price`.
   * A null map, an absent key or a JSON null reads as null, a stored string
   * reads as itself, any other value fails the `(String)` cast, and the
   * other getter's key does not matter.
   */
  lemma ProductReads(p: Product, m: PropertyMap, s: string, other: Json)
    requires !other.JNull? && !other.JString?
    ensures p.properties.None? ==> p.ProductName() == Ok(None) && p.Price() == Ok(None)
    ensures p.properties.Some? && "name" !in p.properties.value ==> p.ProductName() == Ok(None)
    ensures p.properties.Some? && "price" !in p.properties.value ==> p.Price() == Ok(None)
    ensures p.(properties := Some(m["name" := JNull])).ProductName() == Ok(None)
    ensures p.(properties := Some(m["price" := JNull])).Price() == Ok(None)
    ensures p.(properties := Some(m["name" := JString(s)])).ProductName() == Ok(Some(s))
    ensures p.(properties := Some(m["price" := JString(s)])).Price() == Ok(Some(s))
    ensures p.(properties := Some(m["name" := other])).ProductName() == Err(ClassCast)
    ensures p.(properties := Some(m["price" := other])).Price() == Err(ClassCast)
    ensures p.(properties := Some(m["price" := other])).ProductName() == p.(properties := Some(m)).ProductName()
    ensures p.(properties := Some(m["name" := other])).Price() == p.(properties := Some(m)).Price()
  {
  }

  /**
   * `LineItem.getLineItemName()` and `getQuantity()`: each reads its own key, `hs_product_name` and `quantity`.
   * A null map, an absent key or a JSON null reads as null, a stored string
   * reads as itself, any other value fails the `(String)` cast, and the
   * other getter's key does not matter.
   */
  lemma LineItemReads(l: LineItem, m: PropertyMap, s: string, other: Json)
    requires !other.JNull? && !other.JString?
    ensures l.properties.None? ==> l.LineItemName() == Ok(None) && l.Quantity() == Ok(None)
    ensures l.properties.Some? && "hs_product_name" !in l.properties.value ==> l.LineItemName() == Ok(None)
    ensures l.properties.Some? && "quantity" !in l.properties.value ==> l.Quantity() == Ok(None)
    ensures l.(properties := Some(m["hs_product_name" := JNull])).LineItemName() == Ok(None)
    ensures l.(properties := Some(m["quantity" := JNull])).Quantity() == Ok(None)
    ensures l.(properties := Some(m["hs_product_name" := JString(s)])).LineItemName() == Ok(Some(s))
    ensures l.(properties := Some(m["quantity" := JString(s)])).Quantity() == Ok(Some(s))
    ensures l.(properties := Some(m["hs_product_name" := other])).LineItemName() == Err(ClassCast)
    ensures l.(properties := Some(m["quantity" := other])).Quantity() == Err(ClassCast)
    ensures l.(properties := Some(m["quantity" := other])).LineItemName() == l.(properties := Some(m)).LineItemName()
    ensures l.(properties := Some(m["hs_product_name" := other])).Quantity() == l.(properties := Some(m)).Quantity()
  {
  }
}
