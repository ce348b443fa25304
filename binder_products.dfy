/** The product binders: listing with paging defaults, creation and update. */
module ProductBinders {

  import opened Wrappers
  import opened BinderCommon
  import Text

  /** The query parameter names (declared beside the binders). */
  const ParamLimit: string := "limit"
  const ParamOffset: string := "offset"
  const ParamName: string := "name"
  const ParamSku: string := "sku"
  const ParamProjectId: string := "project_id"

  datatype ListProductsRequest =
    ListProductsRequest(limit: int, offset: int, name: string, sku: string, projectId: string, rest: map<string, Json>)

  /** grpc.Product: the identifier and the other decoded fields. */
  datatype Product = Product(id: string, rest: map<string, Json>)

  /** A paging parameter: the default when absent, otherwise its 32-bit value or the parse error. */
  function PagingValue(query: map<string, seq<string>>, name: string, default: int): (r: Result<int, BindError>)
    requires WellFormedQuery(query)
    ensures name !in query ==> r == Success(default)
    ensures name in query ==>
      (r.Success? <==> Text.ParseInt(query[name][0], 32).Some?)
      && (r.Success? ==> r.value == Text.ParseInt(query[name][0], 32).value && Int32Min <= r.value <= Int32Max)
      && (r.Failure? ==> r.error == ParseFailed(query[name][0]))
  {
    if name !in query then Success(default)
    else
      var i := Text.ParseInt(query[name][0], 32);
      Text.Pow2Of31();
      if i.None? then Failure(ParseFailed(query[name][0])) else Success(i.value)
  }

  /** A text filter: the first value when it is not empty, the current value otherwise. */
  function TextFilter(query: map<string, seq<string>>, name: string, current: string): (v: string)
    requires WellFormedQuery(query)
    ensures name in query && query[name][0] != "" ==> v == query[name][0]
    ensures name !in query || query[name][0] == "" ==> v == current
  {
    if name in query && query[name][0] != "" then query[name][0] else current
  }

  /** ProductsGetProductsListBinder: nothing is decoded; the fields come from the query. */
  class ProductsGetProductsListBinder {
    const limitDefault: int
    const offsetDefault: int

    constructor (limitDefault: int, offsetDefault: int)
      ensures this.limitDefault == limitDefault && this.offsetDefault == offsetDefault
    {
      this.limitDefault := limitDefault;
      this.offsetDefault := offsetDefault;
    }

    method Bind(s: Slot<ListProductsRequest>, query: map<string, seq<string>>) returns (err: Option<BindError>)
      requires WellFormedQuery(query)
      modifies s
      ensures var l := PagingValue(query, ParamLimit, limitDefault);
        var o := PagingValue(query, ParamOffset, offsetDefault);
        && (l.Failure? ==> err == Some(l.error) && s.value == old(s.value))
        && (l.Success? && o.Failure? ==> err == Some(o.error) && s.value == old(s.value))
        && (l.Success? && o.Success? ==>
              err.None?
              && s.value == old(s.value).(limit := l.value, offset := o.value,
                                          name := TextFilter(query, ParamName, old(s.value).name),
                                          sku := TextFilter(query, ParamSku, old(s.value).sku),
                                          projectId := TextFilter(query, ParamProjectId, old(s.value).projectId)))
    {
      var limit := limitDefault;
      var offset := offsetDefault;
      if ParamLimit in query {
        var v := query[ParamLimit];
        var i := Text.ParseInt(v[0], 32);
        if i.None? {
          return Some(ParseFailed(v[0]));
        }
        limit := i.value;
      }
      if ParamOffset in query {
        var v := query[ParamOffset];
        var i := Text.ParseInt(v[0], 32);
        if i.None? {
          return Some(ParseFailed(v[0]));
        }
        offset := i.value;
      }
      s.value := s.value.(limit := limit, offset := offset);
      if ParamName in query {
        var v := query[ParamName];
        if v[0] != "" {
          s.value := s.value.(name := v[0]);
        }
      }
      if ParamSku in query {
        var v := query[ParamSku];
        if v[0] != "" {
          s.value := s.value.(sku := v[0]);
        }
      }
      if ParamProjectId in query {
        var v := query[ParamProjectId];
        if v[0] != "" {
          s.value := s.value.(projectId := v[0]);
        }
      }
      return None;
    }
  }

  /** ProductsCreateProductBinder: a new product never keeps a client-chosen id. */
  class ProductsCreateProductBinder {

    constructor ()
    {
    }

    method Bind(s: Slot<Product>, decoded: Result<Product, string>) returns (err: Option<BindError>)
      modifies s
      ensures decoded.Failure? ==> err == Some(DecodeFailed(decoded.error)) && s.value == old(s.value)
      ensures decoded.Success? ==> err.None? && s.value == decoded.value.(id := "")
    {
      if decoded.Failure? {
        return Some(DecodeFailed(decoded.error));
      }
      s.value := decoded.value;
      s.value := s.value.(id := "");
      return None;
    }
  }

  /** ProductsUpdateProductBinder: the path id is checked before the body is decoded, and wins over it. */
  class ProductsUpdateProductBinder {

    constructor ()
    {
    }

    method Bind(s: Slot<Product>, id: string, decoded: Result<Product, string>) returns (err: Option<BindError>)
      modifies s
      ensures !ValidId(id) ==> err == Some(IncorrectProductId) && s.value == old(s.value)
      ensures ValidId(id) && decoded.Failure? ==> err == Some(DecodeFailed(decoded.error)) && s.value == old(s.value)
      ensures ValidId(id) && decoded.Success? ==> err.None? && s.value == decoded.value.(id := id)
    {
      if id == "" || !Text.IsObjectIdHex(id) {
        return Some(IncorrectProductId);
      }
      if decoded.Failure? {
        return Some(DecodeFailed(decoded.error));
      }
      s.value := decoded.value;
      s.value := s.value.(id := id);
      return None;
    }
  }
}
