/**
 * The `usePagination` hook of src/hooks/usePagination.ts: page and page size held as component
 * state, seeded from options or the URL query, and written back to the query by an effect.
 * `Number(...)` and `parseInt(...)` results are `JsNumber.Number` values, `NaN` included.
 */
module UsePagination {
  import opened Wrappers
  import Seqs
  import JsNumber

  /** One `name=value` entry of the URL query, which may repeat a name. */
  datatype Param = Param(name: string, value: string)

  type Params = seq<Param>

  function Named(name: string): Param -> bool
  {
    (p: Param) => p.name == name
  }

  function Unnamed(name: string): Param -> bool
  {
    (p: Param) => p.name != name
  }

  /** `searchParams.get(name)`: the first entry with that name, or `null`. */
  function GetParam(params: Params, name: string): (r: Option<string>)
    ensures r.None? <==> forall i :: 0 <= i < |params| ==> params[i].name != name
    ensures r.Some? ==> exists i :: 0 <= i < |params| && params[i] == Param(name, r.value) &&
                                     forall j :: 0 <= j < i ==> params[j].name != name
  {
    if params == [] then None
    else if params[0].name == name then Some(params[0].value)
    else GetParam(params[1..], name)
  }

  /**
   * `URLSearchParams.set(name, value)`: the first entry with that name takes the value and the
   * later ones are dropped; without one, the entry is appended.
   */
  function SetParam(params: Params, name: string, value: string): Params
  {
    if params == [] then [Param(name, value)]
    else if params[0].name == name then [Param(name, value)] + Seqs.Filter(params[1..], Unnamed(name))
    else [params[0]] + SetParam(params[1..], name, value)
  }

  /** After `set`, the query holds exactly one entry with that name, carrying the value. */
  lemma {:induction false} SetParamSingle(params: Params, name: string, value: string)
    ensures Seqs.Filter(SetParam(params, name, value), Named(name)) == [Param(name, value)]
    ensures GetParam(SetParam(params, name, value), name) == Some(value)
  {
    var r := SetParam(params, name, value);
    if params == [] {
    } else if params[0].name == name {
      var rest := Seqs.Filter(params[1..], Unnamed(name));
      assert r[1..] == rest;
      Seqs.FilterMembers(params[1..], Unnamed(name));
      NoneNamed(rest, name);
    } else {
      SetParamSingle(params[1..], name, value);
      assert r[1..] == SetParam(params[1..], name, value);
    }
  }

  lemma {:induction false} NoneNamed(params: Params, name: string)
    requires forall i :: 0 <= i < |params| ==> params[i].name != name
    ensures Seqs.Filter(params, Named(name)) == []
  {
    if params != [] {
      NoneNamed(params[1..], name);
    }
  }

  /** `set` keeps every entry of the other names, in order. */
  lemma {:induction false} SetParamKeepsOthers(params: Params, name: string, value: string, other: string)
    requires other != name
    ensures Seqs.Filter(SetParam(params, name, value), Named(other)) == Seqs.Filter(params, Named(other))
  {
    var r := SetParam(params, name, value);
    if params == [] {
    } else if params[0].name == name {
      var rest := Seqs.Filter(params[1..], Unnamed(name));
      assert r[1..] == rest;
      Seqs.FilterFilter(params[1..], Unnamed(name), Named(other), Named(other));
    } else {
      SetParamKeepsOthers(params[1..], name, value, other);
      assert r[1..] == SetParam(params[1..], name, value);
    }
  }

  /** `set` on a name that already has exactly that single entry changes nothing. */
  lemma {:induction false} SetParamNoop(params: Params, name: string, value: string)
    requires Seqs.Filter(params, Named(name)) == [Param(name, value)]
    ensures SetParam(params, name, value) == params
  {
    if params != [] {
      if params[0].name == name {
        assert Seqs.Filter(params[1..], Named(name)) == [];
        OnlyUnnamed(params[1..], name);
        Seqs.FilterAll(params[1..], Unnamed(name));
      } else {
        SetParamNoop(params[1..], name, value);
      }
    }
  }

  lemma {:induction false} OnlyUnnamed(params: Params, name: string)
    requires Seqs.Filter(params, Named(name)) == []
    ensures forall x :: x in params ==> Unnamed(name)(x)
  {
    if params != [] {
      OnlyUnnamed(params[1..], name);
    }
  }

  /** The query after the sync effect: `page` and `size` set to the current values. */
  function SyncedParams(params: Params, page: JsNumber.Number, pageSize: JsNumber.Number): Params
  {
    SetParam(SetParam(params, "page", JsNumber.ToText(page)), "size", JsNumber.ToText(pageSize))
  }

  /**
   * The sync writes one `page` and one `size` entry and keeps every other entry in order; and
   * running it again on its own output changes nothing, so the effect settles after one write.
   */
  lemma SyncedParamsSettles(params: Params, page: JsNumber.Number, pageSize: JsNumber.Number, other: string)
    requires other != "page" && other != "size"
    ensures var q := SyncedParams(params, page, pageSize);
      && Seqs.Filter(q, Named("page")) == [Param("page", JsNumber.ToText(page))]
      && Seqs.Filter(q, Named("size")) == [Param("size", JsNumber.ToText(pageSize))]
      && Seqs.Filter(q, Named(other)) == Seqs.Filter(params, Named(other))
      && SyncedParams(q, page, pageSize) == q
  {
    var a := JsNumber.ToText(page);
    var b := JsNumber.ToText(pageSize);
    var p1 := SetParam(params, "page", a);
    var q := SetParam(p1, "size", b);
    SetParamSingle(params, "page", a);
    SetParamSingle(p1, "size", b);
    SetParamKeepsOthers(p1, "size", b, "page");
    SetParamKeepsOthers(params, "page", a, other);
    SetParamKeepsOthers(p1, "size", b, other);
    SetParamNoop(q, "page", a);
    SetParamNoop(q, "size", b);
  }

  // ---------------------------------------------------------------------------------------------

  /** The hook's options; a missing one is `undefined`. */
  datatype Options = Options(initialPage: Option<int>, initialPageSize: Option<int>, defaultPage: Option<int>, defaultPageSize: Option<int>)

  /** An explicit option, else the URL value read with `Number(...)`, else the default. */
  function Initial(given: Option<int>, fromUrl: Option<string>, default: int): (r: JsNumber.Number)
    ensures given.Some? ==> r == JsNumber.Int(given.value)
    ensures given.None? && fromUrl.Some? ==> r == JsNumber.ToNumber(fromUrl.value)
    ensures given.None? && fromUrl.None? ==> r == JsNumber.Int(default)
  {
    if given.Some? then JsNumber.Int(given.value)
    else if fromUrl.Some? then JsNumber.ToNumber(fromUrl.value)
    else JsNumber.Int(default)
  }

  function InitialPage(options: Options, params: Params): JsNumber.Number
  {
    Initial(options.initialPage, GetParam(params, "page"), options.defaultPage.GetOr(0))
  }

  function InitialPageSize(options: Options, params: Params): JsNumber.Number
  {
    Initial(options.initialPageSize, GetParam(params, "size"), options.defaultPageSize.GetOr(10))
  }

  /** A hook mounted on a URL the sync effect wrote reads back the same page and size. */
  lemma UrlRoundTrip(params: Params, page: JsNumber.Number, pageSize: JsNumber.Number)
    ensures var q := SyncedParams(params, page, pageSize);
      var unset := Options(None, None, None, None);
      InitialPage(unset, q) == page && InitialPageSize(unset, q) == pageSize
  {
    var a := JsNumber.ToText(page);
    var b := JsNumber.ToText(pageSize);
    var p1 := SetParam(params, "page", a);
    SetParamSingle(params, "page", a);
    SetParamSingle(p1, "size", b);
    SetParamKeepsOthers(p1, "size", b, "page");
    FilterFirst(SyncedParams(params, page, pageSize), "page", a);
    JsNumber.ToNumberRoundTrip(page);
    JsNumber.ToNumberRoundTrip(pageSize);
  }

  /** The first entry with a name is the head of the entries with that name. */
  lemma {:induction false} FilterFirst(params: Params, name: string, value: string)
    requires Seqs.Filter(params, Named(name)) == [Param(name, value)]
    ensures GetParam(params, name) == Some(value)
  {
    if params != [] && params[0].name != name {
      FilterFirst(params[1..], name, value);
    } else if params != [] {
      assert Seqs.Filter(params, Named(name))[0] == params[0];
    }
  }

  /** The hook's state: page and page size, and the query of the current URL. */
  class PaginationState {
    var page: JsNumber.Number
    var pageSize: JsNumber.Number
    var searchParams: Params

    /** Mounting the hook on a URL whose query is `url`. */
    constructor (options: Options, url: Params)
      ensures page == InitialPage(options, url) && pageSize == InitialPageSize(options, url)
      ensures searchParams == url
    {
      page := InitialPage(options, url);
      pageSize := InitialPageSize(options, url);
      searchParams := url;
    }

    /** `paginationParams`: always the current page and size. */
    function PaginationParams(): (JsNumber.Number, JsNumber.Number)
      reads this
    {
      (page, pageSize)
    }

    /** The effect: writes `page` and `size` into the query, keeping everything else. */
    method SyncUrl()
      modifies this
      ensures searchParams == SyncedParams(old(searchParams), page, pageSize)
      ensures page == old(page) && pageSize == old(pageSize)
    {
      var newParams := searchParams;
      newParams := SetParam(newParams, "page", JsNumber.ToText(page));
      newParams := SetParam(newParams, "size", JsNumber.ToText(pageSize));
      searchParams := newParams;
    }

    /** `handlePageChange(newPage)`: the page becomes exactly `newPage`; the size stays. */
    method HandlePageChange(newPage: int)
      modifies this
      ensures PaginationParams() == (JsNumber.Int(newPage), old(pageSize))
      ensures searchParams == old(searchParams)
    {
      page := JsNumber.Int(newPage);
    }

    /** `handlePageSizeChange`: the size is the parsed selection and the page goes back to 0. */
    method HandlePageSizeChange(selected: string)
      modifies this
      ensures PaginationParams() == (JsNumber.Int(0), JsNumber.ParseInt(selected))
      ensures searchParams == old(searchParams)
    {
      pageSize := JsNumber.ParseInt(selected);
      page := JsNumber.Int(0);
    }
  }
}
