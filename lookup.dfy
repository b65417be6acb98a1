/** fetch_upc_data: turning the catalog service's HTTP response into the
    fixed 13-field product record, or into the exception Python raises. */
module Lookup {
  import opened Results
  import opened Json

  /** What requests.get hands back, once the transfer itself is done: the
      status code and the body as response.json() would decode it (None for
      a body that is not JSON). */
  datatype Response = Response(status: int, body: Option<Value>)

  /** The exceptions fetch_upc_data lets escape. */
  datatype Error =
    | HttpError(status: int)    // requests.HTTPError from raise_for_status
    | JsonDecodeError           // response.json() on a body that is not JSON
    | KeyError(key: Value)      // a dict subscript with a missing key
    | TypeError                 // subscripting a value that does not allow it
    | IndexError                // [0] on an empty list or string; fetch_upc_data never raises it
    | AttributeError            // .get on something that is not a dict

  /** The record fetch_upc_data returns.  upc is always the scanned code;
      every other field is whatever JSON value the item held, or a default. */
  datatype Product = Product(
    upc: string,
    name: Value,
    price: Value,
    brand: Value,
    category: Value,
    description: Value,
    model: Value,
    color: Value,
    size: Value,
    weight: Value,
    highestPrice: Value,
    ean: Value,
    asin: Value)

  /** The status codes for which requests' raise_for_status raises: the
      client-error and server-error classes of sections 15.5 and 15.6 of
      RFC 9110. */
  predicate RaisesForStatus(status: int) {
    400 <= status < 600
  }

  /** dict.get(key, default). */
  function Get(m: map<string, Value>, key: string, default: Value): Value {
    if key in m then m[key] else default
  }

  /** upc_data['items'] on a decoded document. */
  function ItemsOf(data: Value): Result<Value, Error> {
    match data
    case Object(m) => if "items" in m then Ok(m["items"]) else Err(KeyError(Str("items")))
    case _ => Err(TypeError)
  }

  /** items[0]: a list gives its head, a string its first character, a dict
      is looked up under the integer 0 (never a JSON key). */
  function FirstOf(items: Value): Result<Value, Error> {
    match items
    case Array(a) => if a != [] then Ok(a[0]) else Err(IndexError)
    case Str(s) => if s != [] then Ok(Str([s[0]])) else Err(IndexError)
    case Object(_) => Err(KeyError(Int(0)))
    case _ => Err(TypeError)
  }

  /** The record for a code the service rejects as malformed. */
  function InvalidProduct(code: string): Product {
    Product(code, Str("Invalid UPC"), Float(0.0), Str("Unknown Brand"), Str("Unknown Category"),
            Str("Invalid UPC code provided"), Str("Unknown Model"), Str("Unknown Color"),
            Str("Unknown Size"), Str("Unknown Weight"), Float(0.0), Str("Unknown EAN"),
            Str("Unknown ASIN"))
  }

  /** The record for a code the catalog has no item for. */
  function UnknownProduct(code: string): Product {
    Product(code, Str("Unknown Product"), Float(0.0), Str("Unknown Brand"), Str("Unknown Category"),
            Str("No description available"), Str("Unknown Model"), Str("Unknown Color"),
            Str("Unknown Size"), Str("Unknown Weight"), Float(0.0), Str("Unknown EAN"),
            Str("Unknown ASIN"))
  }

  /** The record built from the first catalog item, field by field. */
  function FromItem(code: string, item: map<string, Value>): Product {
    Product(code,
            Get(item, "title", Str("Unknown Product")),
            Get(item, "lowest_recorded_price", Float(0.0)),
            Get(item, "brand", Str("Unknown Brand")),
            Get(item, "category", Str("Unknown Category")),
            Get(item, "description", Str("No description available")),
            Get(item, "model", Str("Unknown Model")),
            Get(item, "color", Str("Unknown Color")),
            Get(item, "size", Str("Unknown Size")),
            Get(item, "weight", Str("Unknown Weight")),
            Get(item, "highest_recorded_price", Float(0.0)),
            Get(item, "ean", Str("Unknown EAN")),
            Get(item, "asin", Str("Unknown ASIN")))
  }

  /** The part of fetch_upc_data after the body is decoded:
      `if upc_data and upc_data['items']: item = upc_data['items'][0] ...`. */
  function Normalise(code: string, data: Value): (r: Result<Product, Error>)
    ensures !Truthy(data) ==> r == Ok(UnknownProduct(code))
    ensures Truthy(data) && !data.Object? ==> r == Err(TypeError)
    ensures data.Object? && Truthy(data) && "items" !in data.fields ==> r == Err(KeyError(Str("items")))
    ensures data.Object? && "items" in data.fields && !Truthy(data.fields["items"]) ==> r == Ok(UnknownProduct(code))
    ensures r.Ok? ==> r.value.upc == code
  {
    if !Truthy(data) then Ok(UnknownProduct(code))
    else match ItemsOf(data)
      case Err(e) => Err(e)
      case Ok(items) =>
        if !Truthy(items) then Ok(UnknownProduct(code))
        else match FirstOf(items)
          case Err(e) => Err(e)
          case Ok(item) =>
            if item.Object? then Ok(FromItem(code, item.fields)) else Err(AttributeError)
  }

  /** fetch_upc_data applied to the response the service gave for `code`. */
  function FetchUpcData(code: string, resp: Response): (r: Result<Product, Error>)
    ensures resp.status == 400 ==> r == Ok(InvalidProduct(code))
    ensures (r.Err? && r.error.HttpError?) <==> resp.status != 400 && RaisesForStatus(resp.status)
    ensures r.Err? && r.error.HttpError? ==> r.error.status == resp.status
    ensures !RaisesForStatus(resp.status) && resp.body.None? ==> r == Err(JsonDecodeError)
    ensures r.Ok? ==> r.value.upc == code
  {
    if resp.status == 400 then Ok(InvalidProduct(code))
    else if RaisesForStatus(resp.status) then Err(HttpError(resp.status))
    else match resp.body
      case None => Err(JsonDecodeError)
      case Some(data) => Normalise(code, data)
  }

  /* A table of the record's fields: the catalog item key each is read
     from and its default. */

  /** The twelve record fields other than upc. */
  datatype Field =
    | Name | Price | Brand | Category | Description | Model
    | Color | Size | Weight | HighestPrice | Ean | Asin

  /** The catalog item key the field is read from: three are renamed,
      the others keep the record's own key. */
  function SourceKey(f: Field): string {
    match f
    case Name => "title"
    case Price => "lowest_recorded_price"
    case Brand => "brand"
    case Category => "category"
    case Description => "description"
    case Model => "model"
    case Color => "color"
    case Size => "size"
    case Weight => "weight"
    case HighestPrice => "highest_recorded_price"
    case Ean => "ean"
    case Asin => "asin"
  }

  /** The value the field takes when the catalog has nothing for it. */
  function Default(f: Field): Value {
    match f
    case Name => Str("Unknown Product")
    case Price => Float(0.0)
    case Brand => Str("Unknown Brand")
    case Category => Str("Unknown Category")
    case Description => Str("No description available")
    case Model => Str("Unknown Model")
    case Color => Str("Unknown Color")
    case Size => Str("Unknown Size")
    case Weight => Str("Unknown Weight")
    case HighestPrice => Float(0.0)
    case Ean => Str("Unknown EAN")
    case Asin => Str("Unknown ASIN")
  }

  /** The record's value for a field. */
  function FieldOf(p: Product, f: Field): Value {
    match f
    case Name => p.name
    case Price => p.price
    case Brand => p.brand
    case Category => p.category
    case Description => p.description
    case Model => p.model
    case Color => p.color
    case Size => p.size
    case Weight => p.weight
    case HighestPrice => p.highestPrice
    case Ean => p.ean
    case Asin => p.asin
  }

  /** From a catalog item each field holds the item's value under its
      source key when that key is present (null included), and its default
      otherwise; upc is the scanned code, never the item's own "upc". */
  lemma FromItemFields(code: string, item: map<string, Value>, f: Field)
    ensures SourceKey(f) in item ==> FieldOf(FromItem(code, item), f) == item[SourceKey(f)]
    ensures SourceKey(f) !in item ==> FieldOf(FromItem(code, item), f) == Default(f)
    ensures FromItem(code, item).upc == code
  {
  }

  /** The unknown-product record is the record of an empty item: every
      field at its default. */
  lemma UnknownProductIsDefaults(code: string, f: Field)
    ensures FieldOf(UnknownProduct(code), f) == Default(f)
    ensures UnknownProduct(code) == FromItem(code, map[])
  {
  }

  /** The invalid-code record: name "Invalid UPC", description "Invalid UPC
      code provided", and every other field (both prices 0.0 among them)
      at its default. */
  lemma InvalidProductFields(code: string, f: Field)
    ensures f != Name && f != Description ==> FieldOf(InvalidProduct(code), f) == Default(f)
    ensures InvalidProduct(code).name == Str("Invalid UPC")
    ensures InvalidProduct(code).description == Str("Invalid UPC code provided")
    ensures InvalidProduct(code).upc == code
  {
  }

  /** A successful response whose items list starts with a dict gives the
      record of that dict. */
  lemma FirstItemRecord(code: string, status: int, doc: map<string, Value>,
                        first: map<string, Value>, others: seq<Value>)
    requires !RaisesForStatus(status)
    requires "items" in doc && doc["items"] == Array([Object(first)] + others)
    ensures FetchUpcData(code, Response(status, Some(Object(doc)))) == Ok(FromItem(code, first))
  {
  }

  /** Only items[0] is consulted: the items after it never change the
      outcome, whatever the first item is. */
  lemma OnlyFirstItemMatters(code: string, resp: Response, doc: map<string, Value>,
                             first: Value, others: seq<Value>, others': seq<Value>)
    requires resp.body == Some(Object(doc[ "items" := Array([first] + others)]))
    ensures FetchUpcData(code, resp)
         == FetchUpcData(code, resp.(body := Some(Object(doc[ "items" := Array([first] + others')]))))
  {
  }

  /** A response that is not an HTTP error gives an error exactly when the
      body does not decode, is a non-empty document that is not a dict or
      lacks "items", or its items are non-empty but do not start with a
      dict. */
  lemma BodyErrors(code: string, resp: Response)
    requires !RaisesForStatus(resp.status)
    ensures FetchUpcData(code, resp).Err? <==>
      || resp.body.None?
      || (Truthy(resp.body.value) && !resp.body.value.Object?)
      || (resp.body.value.Object? && Truthy(resp.body.value) && "items" !in resp.body.value.fields)
      || (resp.body.value.Object? && "items" in resp.body.value.fields
          && Truthy(resp.body.value.fields["items"])
          && !(resp.body.value.fields["items"].Array? && resp.body.value.fields["items"].elems[0].Object?))
  {
  }

  /** items[0] runs only once items has tested truthy, so a list or string
      there is never empty and fetch_upc_data never raises IndexError. */
  lemma NeverIndexError(code: string, resp: Response)
    ensures FetchUpcData(code, resp) != Err(IndexError)
  {
  }
}
