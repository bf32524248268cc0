/**
 * The request facade of jooby (org.jooby.internal.RequestImpl): parameter
 * resolution over path variables, transport parameters and multipart
 * uploads, headers, cookies, body-parser selection and accept delegation.
 * The servlet request is an in-memory value; absent map keys and None stand
 * for the nulls the servlet API returns.
 */
module Request {
  import opened Wrappers
  import opened Media
  import opened Linked

  /** Status.UNSUPPORTED_MEDIA_TYPE. */
  const UNSUPPORTED_MEDIA_TYPE := 415

  /** A multipart part, as far as the facade reads it. */
  datatype Part = Part(name: string, submittedFileName: Option<string>, contentType: Option<MediaType>)

  /** A PartUpload: the part it wraps, the request charset and the application's temporary directory. */
  datatype Upload = PartUpload(part: Part, charset: string, workDir: string)

  /** The attributes of a servlet cookie that cookies() reads; comment, domain and path may be null. */
  datatype ServletCookie = ServletCookie(
    name: string, value: string,
    comment: Option<string>, domain: Option<string>, path: Option<string>,
    httpOnly: bool, maxAge: int, secure: bool)

  /** jooby's Cookie; an attribute that was never set is None. */
  datatype Cookie = Cookie(
    name: string, value: string,
    comment: Option<string>, domain: Option<string>, path: Option<string>,
    httpOnly: bool, maxAge: int, secure: bool)

  /**
   * What the facade reads from the servlet request. A name missing from
   * parameterValues is a null getParameterValues; a name missing from headers
   * is an empty getHeaders enumeration; None for parts or cookies is a null
   * getParts or getCookies.
   */
  datatype ServletRequest = ServletRequest(
    parameterNames: seq<string>,
    parameterValues: map<string, seq<string>>,
    headerNames: seq<string>,
    headers: map<string, seq<string>>,
    parts: Option<seq<Part>>,
    cookies: Option<seq<ServletCookie>>)

  /** The bound route: its path variables and the iteration order of their names. */
  datatype Route = Route(path: string, varNames: seq<string>, vars: map<string, string>) {
    ghost predicate Valid() {
      NoDup(varNames) && forall n :: n in vars <==> n in varNames
    }
  }

  /** A parameter or header view: scalar values with a media type (MutantImpl), or files (UploadMutant). */
  datatype Mutant =
    | Values(name: string, values: seq<string>, mediaType: MediaType, charset: string)
    | Uploads(name: string, files: seq<Upload>)

  /** The facade's inputs at one moment: the transport, the bound route and the fixed request attributes. */
  datatype RequestState = RequestState(
    servlet: ServletRequest, route: Route, contentType: MediaType,
    accept: seq<MediaType>, charset: string, workDir: string)

  // ---------------------------------------------------------------------
  // Parameters

  /** reqParams: the transport values for name in transport order; a null array is the empty list. */
  function ReqParams(servlet: ServletRequest, name: string): (r: seq<string>)
    ensures name !in servlet.parameterValues ==> r == []
    ensures name in servlet.parameterValues ==> r == servlet.parameterValues[name]
  {
    if name in servlet.parameterValues then servlet.parameterValues[name] else []
  }

  /** params(String): the path variable's value, when there is one, then every transport value in order. */
  function ParamValues(st: RequestState, name: string): (r: seq<string>)
    ensures var t, off := ReqParams(st.servlet, name), if name in st.route.vars then 1 else 0;
      |r| == off + |t| && r[off..] == t && (name in st.route.vars ==> r[0] == st.route.vars[name])
  {
    if name in st.route.vars then [st.route.vars[name]] + ReqParams(st.servlet, name)
    else ReqParams(st.servlet, name)
  }

  /** The reqUploads filter: a part with a submitted file name and the requested field name. */
  predicate IsUploadPart(p: Part, name: string) {
    p.submittedFileName.Some? && p.name == name
  }

  function PartsOf(us: seq<Upload>): (ps: seq<Part>)
    ensures |ps| == |us|
  {
    if us == [] then [] else [us[0].part] + PartsOf(us[1..])
  }

  /** a occurs in b in the same order, possibly with other elements in between. */
  ghost predicate Subsequence<T>(a: seq<T>, b: seq<T>)
    decreases |b|
  {
    if a == [] then true
    else if b == [] then false
    else (a[0] == b[0] && Subsequence(a[1..], b[1..])) || Subsequence(a, b[1..])
  }

  /** The filter and transform of reqUploads over a non-empty part list. */
  function UploadsNamed(ps: seq<Part>, name: string, charset: string, workDir: string): (r: seq<Upload>)
    ensures forall u :: u in r ==>
      u.part in ps && IsUploadPart(u.part, name) && u.charset == charset && u.workDir == workDir
    ensures forall p :: p in ps && IsUploadPart(p, name) ==> PartUpload(p, charset, workDir) in r
    ensures Subsequence(PartsOf(r), ps)
    ensures forall p :: multiset(PartsOf(r))[p] == if IsUploadPart(p, name) then multiset(ps)[p] else 0
  {
    if ps == [] then []
    else
      var rest := UploadsNamed(ps[1..], name, charset, workDir);
      assert ps == [ps[0]] + ps[1..];
      if IsUploadPart(ps[0], name) then
        var r := [PartUpload(ps[0], charset, workDir)] + rest;
        assert PartsOf(r) == [ps[0]] + PartsOf(rest);
        r
      else rest
  }

  /** reqUploads: nothing unless the request is multipart and has parts; then the upload parts named name, in part order. */
  function ReqUploads(st: RequestState, name: string): (r: seq<Upload>)
    ensures !IsMultipart(st.contentType) ==> r == []
    ensures st.servlet.parts.None? || st.servlet.parts == Some([]) ==> r == []
    ensures forall u :: u in r ==>
      st.servlet.parts.Some? && u.part in st.servlet.parts.value && IsUploadPart(u.part, name)
      && u.charset == st.charset && u.workDir == st.workDir
    ensures IsMultipart(st.contentType) && st.servlet.parts.Some? ==>
      Subsequence(PartsOf(r), st.servlet.parts.value)
      && (forall p :: p in st.servlet.parts.value && IsUploadPart(p, name) ==>
           PartUpload(p, st.charset, st.workDir) in r)
      && forall p :: multiset(PartsOf(r))[p]
           == if IsUploadPart(p, name) then multiset(st.servlet.parts.value)[p] else 0
  {
    if !IsMultipart(st.contentType) then []
    else
      match st.servlet.parts
      case None => []
      case Some(ps) => if |ps| == 0 then [] else UploadsNamed(ps, name, st.charset, st.workDir)
  }

  /** The first part named name. */
  function FirstPartNamed(ps: seq<Part>, name: string): (r: Option<Part>)
    ensures r.None? <==> forall p :: p in ps ==> p.name != name
    ensures r.Some? ==> r.value in ps && r.value.name == name
    ensures r.Some? ==> exists i :: 0 <= i < |ps| && ps[i] == r.value && forall j :: 0 <= j < i ==> ps[j].name != name
  {
    if ps == [] then None
    else if ps[0].name == name then Some(ps[0])
    else FirstPartNamed(ps[1..], name)
  }

  /** getPart(name) over the parts of the request. */
  function GetPart(parts: Option<seq<Part>>, name: string): Option<Part> {
    match parts
    case None => None
    case Some(ps) => FirstPartNamed(ps, name)
  }

  /** The media type of a scalar view: the part's own type in a multipart request, otherwise the wildcard. */
  function ScalarType(st: RequestState, name: string): (r: MediaType)
    ensures !IsMultipart(st.contentType) ==> r == All
    ensures GetPart(st.servlet.parts, name).None? ==> r == All
    ensures IsMultipart(st.contentType) && GetPart(st.servlet.parts, name).Some? ==>
      r == GetPart(st.servlet.parts, name).value.contentType.GetOr(All)
  {
    if IsMultipart(st.contentType) then
      match GetPart(st.servlet.parts, name)
      case Some(p) => p.contentType.GetOr(All)
      case None => All
    else All
  }

  /**
   * param(name): scalar values win; uploads are used only when there is no
   * scalar value and at least one upload part has that name.
   */
  function ParamOf(st: RequestState, name: string): (m: Mutant)
    ensures m.name == name
    ensures m.Uploads? <==> ParamValues(st, name) == [] && ReqUploads(st, name) != []
    ensures m.Uploads? ==> m.files == ReqUploads(st, name)
    ensures m.Values? ==>
      m.values == ParamValues(st, name) && m.mediaType == ScalarType(st, name) && m.charset == st.charset
  {
    var values := ParamValues(st, name);
    if values == [] && ReqUploads(st, name) != [] then Uploads(name, ReqUploads(st, name))
    else Values(name, values, ScalarType(st, name), st.charset)
  }

  /** A name present as a path variable or a transport parameter always resolves to scalar values. */
  lemma ScalarWinsOverUploads(st: RequestState, name: string)
    requires name in st.route.vars || (name in st.servlet.parameterValues && st.servlet.parameterValues[name] != [])
    ensures ParamOf(st, name).Values?
    ensures ParamOf(st, name).values == ParamValues(st, name) != []
  {
    var off := if name in st.route.vars then 1 else 0;
    assert |ParamValues(st, name)| == off + |ReqParams(st.servlet, name)|;
  }

  /** A multipart file field with no scalar value resolves to its uploads. */
  lemma FileFieldResolvesToUploads(st: RequestState, name: string, p: Part)
    requires IsMultipart(st.contentType) && st.servlet.parts.Some?
    requires name !in st.route.vars && name !in st.servlet.parameterValues
    requires p in st.servlet.parts.value && IsUploadPart(p, name)
    ensures ParamOf(st, name).Uploads?
    ensures PartUpload(p, st.charset, st.workDir) in ParamOf(st, name).files
  {
    assert PartUpload(p, st.charset, st.workDir) in ReqUploads(st, name);
  }

  /** paramNames: route variable names first, then transport names, each once. */
  function ParamNamesOf(st: RequestState): seq<string> {
    Dedup(st.route.varNames + st.servlet.parameterNames)
  }

  /**
   * The names of params(): the route's variables lead in their own order, every
   * route or transport name appears exactly once, and names keep the order of
   * their first occurrence.
   */
  lemma ParamNamesShape(st: RequestState)
    requires st.route.Valid()
    ensures var names, all := ParamNamesOf(st), st.route.varNames + st.servlet.parameterNames;
      && st.route.varNames <= names
      && NoDup(names)
      && (forall n :: n in names <==> n in st.route.vars || n in st.servlet.parameterNames)
      && (forall i, j :: 0 <= i < j < |names| ==> IndexOf(all, names[i]) < IndexOf(all, names[j]))
  {
    var vn, all := st.route.varNames, st.route.varNames + st.servlet.parameterNames;
    DedupPrefix(vn, st.servlet.parameterNames);
    DedupOfDistinct(vn);
    DedupFirstOccurrenceOrder(all);
    DedupElements(all);
  }

  // ---------------------------------------------------------------------
  // Headers

  /** getHeaders(name) as a list, in transport order. */
  function HeaderValues(servlet: ServletRequest, name: string): seq<string> {
    if name in servlet.headers then servlet.headers[name] else []
  }

  /** header(name): every value of the header, typed as the wildcard. */
  function HeaderView(st: RequestState, name: string): (m: Mutant)
    ensures m.Values? && m.name == name && m.mediaType == All
    ensures m.values == HeaderValues(st.servlet, name)
  {
    Values(name, HeaderValues(st.servlet, name), All, st.charset)
  }

  /** enumToList: drains an enumeration into a list, keeping its order. */
  method EnumToList(e: seq<string>) returns (list: seq<string>)
    ensures list == e
  {
    list := [];
    var i := 0;
    while i < |e|
      invariant 0 <= i <= |e|
      invariant list == e[..i]
    {
      list := list + [e[i]];
      i := i + 1;
    }
  }

  // ---------------------------------------------------------------------
  // Body and content negotiation

  /** A TypeLiteral, by name. */
  type TypeName = string

  /** A body parser the selector can hand out. */
  datatype Parser = Parser(id: nat)

  /** BodyReaderImpl: the request charset and a supplier that opens the input stream only when the parser reads. */
  datatype BodyReader = BodyReader(charset: string)

  /** The call parser.parse(type, reader) that body(type) makes. */
  datatype ParseCall = ParseCall(parser: Parser, target: TypeName, reader: BodyReader)

  /** Err: a failure carrying an HTTP status. */
  datatype Err = Err(status: int)

  /**
   * body(type): the selector is asked with the one-element list holding the
   * request content type; no parser means 415, before any reader exists.
   */
  function Body(st: RequestState, target: TypeName, selector: (TypeName, seq<MediaType>) -> Option<Parser>)
    : (r: Result<ParseCall, Err>)
    ensures r.Failure? <==> selector(target, [st.contentType]).None?
    ensures r.Failure? ==> r.error == Err(UNSUPPORTED_MEDIA_TYPE)
    ensures r.Success? ==>
      Some(r.value.parser) == selector(target, [st.contentType])
      && r.value.target == target && r.value.reader == BodyReader(st.charset)
  {
    match selector(target, [st.contentType])
    case None => Failure(Err(UNSUPPORTED_MEDIA_TYPE))
    case Some(parser) => Success(ParseCall(parser, target, BodyReader(st.charset)))
  }

  /** accepts(types): the matcher built over the request's accept list picks the first of types. */
  function Accepts(st: RequestState, types: seq<MediaType>,
                   first: (seq<MediaType>, seq<MediaType>) -> Option<MediaType>): (r: Option<MediaType>)
    ensures r == first(st.accept, types)
  {
    first(st.accept, types)
  }

  // ---------------------------------------------------------------------
  // Cookies

  /** The translation of one servlet cookie: optional attributes are copied only when present. */
  function ToCookie(c: ServletCookie): (k: Cookie)
    ensures ToServletCookie(k) == c
  {
    Cookie(c.name, c.value, None, None, None, c.httpOnly, c.maxAge, c.secure)
      .(comment := c.comment, domain := c.domain, path := c.path)
  }

  /** The outbound direction: a jooby cookie as the servlet cookie it stands for. */
  function ToServletCookie(k: Cookie): ServletCookie {
    ServletCookie(k.name, k.value, k.comment, k.domain, k.path, k.httpOnly, k.maxAge, k.secure)
  }

  /** The stream map over the servlet cookies. */
  function TranslateCookies(cs: seq<ServletCookie>): (r: seq<Cookie>)
    ensures |r| == |cs|
    ensures forall i :: 0 <= i < |cs| ==> ToServletCookie(r[i]) == cs[i]
  {
    if cs == [] then [] else [ToCookie(cs[0])] + TranslateCookies(cs[1..])
  }

  /** cookies(): null or empty servlet cookies give the empty list; otherwise each one is translated without loss, in order. */
  function CookiesOf(st: RequestState): (r: seq<Cookie>)
    ensures st.servlet.cookies.None? ==> r == []
    ensures st.servlet.cookies.Some? ==>
      |r| == |st.servlet.cookies.value|
      && forall i :: 0 <= i < |r| ==> ToServletCookie(r[i]) == st.servlet.cookies.value[i]
  {
    match st.servlet.cookies
    case None => []
    case Some(cs) => if |cs| == 0 then [] else TranslateCookies(cs)
  }

  /** Index of the first cookie with the given name. */
  function FirstNamed(cs: seq<Cookie>, name: string): (r: Option<nat>)
    ensures r.None? ==> forall j :: 0 <= j < |cs| ==> cs[j].name != name
    ensures r.Some? ==>
      r.value < |cs| && cs[r.value].name == name && forall j :: 0 <= j < r.value ==> cs[j].name != name
  {
    if cs == [] then None
    else if cs[0].name == name then Some(0)
    else match FirstNamed(cs[1..], name)
      case None => None
      case Some(i) => Some(i + 1)
  }

  /** cookie(name): the first cookie with an equal name, if there is one. */
  function CookieNamed(st: RequestState, name: string): (r: Option<Cookie>)
    ensures var cs := CookiesOf(st);
      && (r.None? <==> forall c :: c in cs ==> c.name != name)
      && (r.Some? ==> exists i :: 0 <= i < |cs| && cs[i] == r.value && r.value.name == name
                                 && forall j :: 0 <= j < i ==> cs[j].name != name)
  {
    var cs := CookiesOf(st);
    match FirstNamed(cs, name)
    case None => None
    case Some(i) => Some(cs[i])
  }

  /** One step of filling a LinkedHashMap from distinct keys: the new key goes last and earlier entries stay. */
  lemma PutFresh<V>(m: seq<(string, V)>, keys: seq<string>, i: nat, v: V)
    requires NoDup(keys) && i < |keys| && Keys(m) == keys[..i]
    ensures Keys(Put(m, keys[i], v)) == keys[..i + 1]
    ensures forall j :: 0 <= j < i ==> Lookup(Put(m, keys[i], v), keys[j]) == Lookup(m, keys[j])
  {
    assert keys[i] !in keys[..i];
    assert keys[..i + 1] == keys[..i] + [keys[i]];
  }

  // ---------------------------------------------------------------------
  // The facade object

  class RequestImpl {
    const servlet: ServletRequest
    var route: Route
    const contentType: MediaType
    const accept: seq<MediaType>
    const charset: string
    const locale: string
    /** application.tmpdir, looked up once and passed in. */
    const workDir: string

    constructor (servlet: ServletRequest, route: Route, contentType: MediaType,
                 accept: seq<MediaType>, charset: string, locale: string, workDir: string)
      ensures State() == RequestState(servlet, route, contentType, accept, charset, workDir)
      ensures this.locale == locale
    {
      this.servlet := servlet;
      this.route := route;
      this.contentType := contentType;
      this.accept := accept;
      this.charset := charset;
      this.locale := locale;
      this.workDir := workDir;
    }

    function State(): RequestState
      reads this
    {
      RequestState(servlet, route, contentType, accept, charset, workDir)
    }

    /** route(Route): the owning engine rebinds the request; nothing else changes. */
    method SetRoute(route: Route)
      modifies this`route
      ensures State() == old(State()).(route := route)
    {
      this.route := route;
    }

    /** paramNames(): a LinkedHashSet filled with the route's variable names, then the transport's parameter names. */
    method ParamNames() returns (names: seq<string>)
      ensures names == ParamNamesOf(State())
    {
      var vn, pn := route.varNames, servlet.parameterNames;
      var all := vn + pn;
      names := [];
      var i := 0;
      while i < |vn|
        invariant 0 <= i <= |vn|
        invariant names == Dedup(all[..i])
      {
        DedupStep(all, i);
        assert all[i] == vn[i];
        names := Add(names, vn[i]);
        i := i + 1;
      }
      var j := 0;
      while j < |pn|
        invariant 0 <= j <= |pn|
        invariant names == Dedup(all[..|vn| + j])
      {
        DedupStep(all, |vn| + j);
        assert all[|vn| + j] == pn[j];
        names := Add(names, pn[j]);
        j := j + 1;
      }
      assert all[..|vn| + |pn|] == all;
    }

    /** params(): empty when there are no names; otherwise every name, in order, mapped to param(name). */
    method Params() returns (params: seq<(string, Mutant)>)
      ensures Keys(params) == ParamNamesOf(State())
      ensures forall k :: k in ParamNamesOf(State()) ==> Lookup(params, k) == Some(ParamOf(State(), k))
      ensures ParamNamesOf(State()) == [] ==> params == []
    {
      var names := ParamNames();
      if |names| == 0 {
        return [];
      }
      ghost var st := State();
      params := [];
      names := ParamNames();
      DedupElements(route.varNames + servlet.parameterNames);
      var i := 0;
      while i < |names|
        invariant 0 <= i <= |names|
        invariant Keys(params) == names[..i]
        invariant forall j :: 0 <= j < i ==> Lookup(params, names[j]) == Some(ParamOf(st, names[j]))
      {
        var m := ParamOf(State(), names[i]);
        PutFresh(params, names, i, m);
        params := Put(params, names[i], m);
        i := i + 1;
      }
      assert names[..i] == names;
    }

    /** header(name). */
    method Header(name: string) returns (m: Mutant)
      ensures m == HeaderView(State(), name)
    {
      var values := EnumToList(HeaderValues(servlet, name));
      m := Values(name, values, All, charset);
    }

    /** headers(): every header name once, in first-seen order, mapped to header(name). */
    method Headers() returns (headers: seq<(string, Mutant)>)
      ensures Keys(headers) == Dedup(servlet.headerNames)
      ensures forall n :: n in servlet.headerNames ==> Lookup(headers, n) == Some(HeaderView(State(), n))
    {
      var names := servlet.headerNames;
      ghost var st := State();
      headers := [];
      var i := 0;
      while i < |names|
        invariant 0 <= i <= |names|
        invariant Keys(headers) == Dedup(names[..i])
        invariant forall n :: n in names[..i] ==> Lookup(headers, n) == Some(HeaderView(st, n))
      {
        var h := Header(names[i]);
        DedupStep(names, i);
        headers := Put(headers, names[i], h);
        assert names[..i + 1] == names[..i] + [names[i]];
        i := i + 1;
      }
      assert names[..i] == names;
    }
  }
}
