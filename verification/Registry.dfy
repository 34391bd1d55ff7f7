/**
The tool registry: validated create and partial update of stored tools, and the
invariant the proxy relies on when it resolves an endpoint.
*/
module Registry {
  import opened Common
  import opened Template

  datatype Tool = Tool(
    name: string, description: string, mode: string, endpoint: string,
    authType: string, authConfig: map<string, string>, variables: Vars,
    pricingModel: string, pricingAmount: real, pricingCurrency: string,
    rateLimit: int, budgetLimit: real, budgetWindow: string)

  /** A new tool as the caller sends it; absent maps stand for nil. */
  datatype CreateInput = CreateInput(
    name: string, description: string, mode: string, endpoint: string,
    authType: string, authConfig: Option<map<string, string>>, variables: Option<Vars>,
    pricingModel: string, pricingAmount: real, pricingCurrency: string,
    rateLimit: int, budgetLimit: real, budgetWindow: string)

  datatype UpdateInput = UpdateInput(
    name: Option<string>, description: Option<string>, mode: Option<string>, endpoint: Option<string>,
    authType: Option<string>, authConfig: Option<map<string, string>>, variables: Option<Vars>,
    pricingModel: Option<string>, pricingAmount: Option<real>, pricingCurrency: Option<string>,
    rateLimit: Option<int>, budgetLimit: Option<real>, budgetWindow: Option<string>)

  datatype Error =
    | NameRequired | DescriptionRequired | EndpointInvalid
    | AuthTypeInvalid | ModeInvalid | VariablesMissing | NotFound

  /** White space as Unicode defines it: what TrimSpace removes. */
  predicate IsSpace(c: char) {
    || c in {' ', '\t', '\n', '\r', '\U{000B}', '\U{000C}', '\U{0085}', '\U{00A0}', '\U{1680}'}
    || '\U{2000}' <= c <= '\U{200A}'
    || c in {'\U{2028}', '\U{2029}', '\U{202F}', '\U{205F}', '\U{3000}'}
  }

  predicate IsBlank(s: string) {
    forall i :: 0 <= i < |s| ==> IsSpace(s[i])
  }

  /** The code points with Unicode's White_Space property. */
  lemma SpacesAre(c: char)
    ensures IsSpace(c) <==>
            c as int in {0x09, 0x0A, 0x0B, 0x0C, 0x0D, 0x20, 0x85, 0xA0, 0x1680, 0x2000, 0x2001, 0x2002, 0x2003, 0x2004,
                         0x2005, 0x2006, 0x2007, 0x2008, 0x2009, 0x200A, 0x2028, 0x2029, 0x202F, 0x205F, 0x3000}
  {
    assert c == c as int as char;
  }

  /** Trimming leaves nothing exactly of the texts made of white space. */
  lemma BlankTexts(c: char, s: string)
    ensures IsBlank("") && (IsBlank([c] + s) <==> IsSpace(c) && IsBlank(s))
  {
    assert ([c] + s)[0] == c;
    forall i | 0 <= i < |s| ensures ([c] + s)[i + 1] == s[i] {
    }
  }

  /** Whether text parses as a URL with a scheme and a host; URL parsing itself is a parameter. */
  type UrlCheck = string -> bool

  predicate ValidEndpoint(isUrl: UrlCheck, endpoint: string) {
    !IsBlank(endpoint) && isUrl(endpoint)
  }

  predicate ValidMode(mode: string) {
    mode in {"service", "api"}
  }

  predicate ValidAuthType(a: string) {
    a in {"none", "bearer", "header", "query"}
  }

  function CheckEndpoint(isUrl: UrlCheck, endpoint: string): Option<Error> {
    if ValidEndpoint(isUrl, endpoint) then None else Some(EndpointInvalid)
  }

  function CheckAPIEndpoint(isUrl: UrlCheck, endpoint: string, variables: Vars): Option<Error> {
    if IsBlank(endpoint) then Some(EndpointInvalid)
    else
      match Resolved(endpoint, variables)
      case Err(_) => Some(VariablesMissing)
      case Ok(url) => CheckEndpoint(isUrl, url)
  }

  function GetOr<T>(o: Option<T>, d: T): T {
    match o
    case None => d
    case Some(x) => x
  }

  /** The record stored for an input, with its defaults filled in. */
  function WithDefaults(i: CreateInput): Tool {
    Tool(i.name, i.description, if i.mode == "" then "service" else i.mode, i.endpoint,
         if i.authType == "" then "none" else i.authType, GetOr(i.authConfig, map[]), GetOr(i.variables, map[]),
         i.pricingModel, i.pricingAmount, i.pricingCurrency, i.rateLimit, i.budgetLimit, i.budgetWindow)
  }

  function CheckCreate(isUrl: UrlCheck, t: Tool): Option<Error> {
    if IsBlank(t.name) then Some(NameRequired)
    else if IsBlank(t.description) then Some(DescriptionRequired)
    else if t.mode != "" && !ValidMode(t.mode) then Some(ModeInvalid)
    else
      var e := if t.mode == "api" then CheckAPIEndpoint(isUrl, t.endpoint, t.variables)
               else CheckEndpoint(isUrl, t.endpoint);
      if e.Some? then e
      else if t.authType != "" && !ValidAuthType(t.authType) then Some(AuthTypeInvalid)
      else None
  }

  function CheckUpdate(isUrl: UrlCheck, u: UpdateInput): Option<Error> {
    if u.name.Some? && IsBlank(u.name.value) then Some(NameRequired)
    else if u.description.Some? && IsBlank(u.description.value) then Some(DescriptionRequired)
    else if u.mode.Some? && !ValidMode(u.mode.value) then Some(ModeInvalid)
    else if u.endpoint.Some? && u.mode.None? && !ValidEndpoint(isUrl, u.endpoint.value) then Some(EndpointInvalid)
    else if u.authType.Some? && !ValidAuthType(u.authType.value) then Some(AuthTypeInvalid)
    else None
  }

  /** The stored row after a partial update: given fields replace, the others stay. */
  function Patched(t: Tool, u: UpdateInput): Tool {
    Tool(GetOr(u.name, t.name), GetOr(u.description, t.description), GetOr(u.mode, t.mode),
         GetOr(u.endpoint, t.endpoint), GetOr(u.authType, t.authType), GetOr(u.authConfig, t.authConfig),
         GetOr(u.variables, t.variables), GetOr(u.pricingModel, t.pricingModel),
         GetOr(u.pricingAmount, t.pricingAmount), GetOr(u.pricingCurrency, t.pricingCurrency),
         GetOr(u.rateLimit, t.rateLimit), GetOr(u.budgetLimit, t.budgetLimit), GetOr(u.budgetWindow, t.budgetWindow))
  }

  /** Whether an update of tool `t` gets past both validations. */
  predicate Accepted(isUrl: UrlCheck, t: Tool, u: UpdateInput) {
    && CheckUpdate(isUrl, u).None?
    && ((u.mode.Some? || u.endpoint.Some? || u.variables.Some?) && GetOr(u.mode, t.mode) == "api" ==>
          CheckAPIEndpoint(isUrl, GetOr(u.endpoint, t.endpoint), GetOr(u.variables, t.variables)).None?)
  }

  // ---------------------------------------------------------------- the service object

  type Tools = map<string, Tool>

  /** Whether an update is accepted as the table stands; only one that touches the endpoint looks at the row. */
  predicate Validated(m: Tools, isUrl: UrlCheck, id: string, u: UpdateInput) {
    if id in m then Accepted(isUrl, m[id], u)
    else CheckUpdate(isUrl, u).None? && u.mode.None? && u.endpoint.None? && u.variables.None?
  }

  function Written(m: Tools, id: string, u: UpdateInput): Tools {
    if id in m then m[id := Patched(m[id], u)] else m
  }

  /** What a new tool must have: texts that are not blank, a known mode and way to authenticate, a usable endpoint. */
  predicate Creatable(isUrl: UrlCheck, i: CreateInput) {
    && !IsBlank(i.name) && !IsBlank(i.description) && !IsBlank(i.endpoint)
    && i.mode in {"", "service", "api"} && i.authType in {"", "none", "bearer", "header", "query"}
    && (i.mode != "api" ==> isUrl(i.endpoint))
    && (i.mode == "api" ==>
          match Resolved(i.endpoint, if i.variables.Some? then i.variables.value else map[])
          case Err(_) => false
          case Ok(url) => !IsBlank(url) && isUrl(url))
  }

  /** The stored row has what the input gives; an absent mode is "service", an absent way to authenticate "none". */
  predicate Stores(t: Tool, i: CreateInput) {
    && t.name == i.name && t.description == i.description && t.endpoint == i.endpoint
    && (if i.mode == "" then t.mode == "service" else t.mode == i.mode)
    && (if i.authType == "" then t.authType == "none" else t.authType == i.authType)
    && t.authConfig == (if i.authConfig.Some? then i.authConfig.value else map[])
    && t.variables == (if i.variables.Some? then i.variables.value else map[])
    && t.pricingModel == i.pricingModel && t.pricingAmount == i.pricingAmount
    && t.pricingCurrency == i.pricingCurrency
    && t.rateLimit == i.rateLimit && t.budgetLimit == i.budgetLimit && t.budgetWindow == i.budgetWindow
  }

  /** An error names something that is wrong with the input. */
  predicate Justified(isUrl: UrlCheck, i: CreateInput, e: Error) {
    match e
    case NameRequired => IsBlank(i.name)
    case DescriptionRequired => IsBlank(i.description)
    case ModeInvalid => i.mode !in {"", "service", "api"}
    case AuthTypeInvalid => i.authType !in {"", "none", "bearer", "header", "query"}
    case VariablesMissing => i.mode == "api" && Resolved(i.endpoint, GetOr(i.variables, map[])).Err?
    case EndpointInvalid =>
      IsBlank(i.endpoint) ||
      (if i.mode != "api" then !isUrl(i.endpoint)
       else match Resolved(i.endpoint, GetOr(i.variables, map[]))
            case Err(_) => false
            case Ok(url) => IsBlank(url) || !isUrl(url))
    case NotFound => false
  }

  /** The parts of an update that are right whatever they are applied to. */
  predicate WellFormed(isUrl: UrlCheck, u: UpdateInput) {
    && (u.name.Some? ==> !IsBlank(u.name.value))
    && (u.description.Some? ==> !IsBlank(u.description.value))
    && (u.mode.Some? ==> u.mode.value in {"service", "api"})
    && (u.authType.Some? ==> u.authType.value in {"none", "bearer", "header", "query"})
    && (u.endpoint.Some? && u.mode.None? ==> !IsBlank(u.endpoint.value) && isUrl(u.endpoint.value))
  }

  /** An update that touches the endpoint of what is then an api tool must leave one that resolves to a URL. */
  predicate Updatable(isUrl: UrlCheck, t: Tool, u: UpdateInput) {
    && WellFormed(isUrl, u)
    && (var t' := Patched(t, u);
        t'.mode == "api" && (u.mode.Some? || u.endpoint.Some? || u.variables.Some?) ==>
          && !IsBlank(t'.endpoint)
          && match Resolved(t'.endpoint, t'.variables)
             case Err(_) => false
             case Ok(url) => !IsBlank(url) && isUrl(url))
  }

  class Service {
    var tools: Tools
    const isUrl: UrlCheck

    constructor (isUrl: UrlCheck)
      ensures tools == map[] && this.isUrl == isUrl
    {
      tools, this.isUrl := map[], isUrl;
    }

    /** `id` is the key the database generates for the new row. */
    method Create(id: string, input: CreateInput) returns (r: Result<Tool, Error>)
      requires id !in tools
      modifies this
      ensures tools == Next(old(tools), isUrl, CreateTool(id, input))
      ensures r.Ok? ==> id in tools && r.value == tools[id]
      ensures r.Err? ==> CheckCreate(isUrl, WithDefaults(input)) == Some(r.error) && tools == old(tools)
      ensures r.Ok? <==> Creatable(isUrl, input)
      ensures r.Ok? ==> Stores(r.value, input) && tools == old(tools)[id := r.value]
      ensures r.Err? ==> Justified(isUrl, input, r.error)
    {
      var mode := if input.mode == "" then "service" else input.mode;
      var authType := if input.authType == "" then "none" else input.authType;
      var row := Tool(input.name, input.description, mode, input.endpoint, authType,
                      GetOr(input.authConfig, map[]), GetOr(input.variables, map[]),
                      input.pricingModel, input.pricingAmount, input.pricingCurrency,
                      input.rateLimit, input.budgetLimit, input.budgetWindow);
      var err := CheckCreate(isUrl, row);
      if err.Some? {
        return Err(err.value);
      }
      tools := tools[id := row];
      return Ok(row);
    }

    /** The first half of an update: both validations, the second against the row as it is now. */
    method Validate(id: string, input: UpdateInput) returns (err: Option<Error>)
      ensures err.None? <==> Validated(tools, isUrl, id, input)
      ensures err.None? <==> if id in tools then Updatable(isUrl, tools[id], input)
                             else WellFormed(isUrl, input) && input.mode.None? && input.endpoint.None? &&
                                  input.variables.None?
    {
      err := CheckUpdate(isUrl, input);
      if err.Some? {
        return;
      }
      if input.mode.Some? || input.endpoint.Some? || input.variables.Some? {
        if id !in tools {
          return Some(NotFound);
        }
        var existing := tools[id];
        var mode := existing.mode;
        if input.mode.Some? {
          mode := input.mode.value;
        }
        if mode == "api" {
          var endpoint := existing.endpoint;
          if input.endpoint.Some? {
            endpoint := input.endpoint.value;
          }
          var variables := existing.variables;
          if input.variables.Some? {
            variables := input.variables.value;
          }
          err := CheckAPIEndpoint(isUrl, endpoint, variables);
        }
      }
    }

    /** The second half: the given fields of the row are replaced, whatever the row holds by then. */
    method Write(id: string, input: UpdateInput) returns (r: Result<Tool, Error>)
      modifies this
      ensures tools == Written(old(tools), id, input)
      ensures if id in old(tools) then r == Ok(tools[id]) else r == Err(NotFound)
    {
      if id !in tools {
        return Err(NotFound);
      }
      var row := Patched(tools[id], input);
      tools := tools[id := row];
      return Ok(row);
    }

    /** The two halves with no other call in between. */
    method Update(id: string, input: UpdateInput) returns (r: Result<Tool, Error>)
      modifies this
      ensures tools == Next(old(tools), isUrl, UpdateTool(id, input))
      ensures r.Ok? ==> id in old(tools) && r.value == Patched(old(tools)[id], input) == tools[id]
      ensures r.Ok? <==> id in old(tools) && Updatable(isUrl, old(tools)[id], input)
      ensures r.Ok? ==> tools == old(tools)[id := r.value]
      ensures r.Err? ==> tools == old(tools)
    {
      var err := Validate(id, input);
      if err.Some? {
        return Err(err.value);
      }
      r := Write(id, input);
    }

    method Delete(id: string) returns (r: Result<(), Error>)
      modifies this
      ensures tools == Next(old(tools), isUrl, DeleteTool(id))
      ensures r.Ok? <==> id in old(tools)
      ensures tools == old(tools) - {id}
    {
      if id !in tools {
        return Err(NotFound);
      }
      tools := tools - {id};
      return Ok(());
    }
  }

  // ---------------------------------------------------------------- runs

  datatype Event =
    | CreateTool(id: string, create: CreateInput)
    | UpdateTool(id: string, update: UpdateInput)
    | DeleteTool(id: string)

  function Next(m: Tools, isUrl: UrlCheck, ev: Event): Tools {
    match ev
    case CreateTool(id, i) =>
      if id in m || CheckCreate(isUrl, WithDefaults(i)).Some? then m else m[id := WithDefaults(i)]
    case UpdateTool(id, u) =>
      if id in m && Accepted(isUrl, m[id], u) then m[id := Patched(m[id], u)] else m
    case DeleteTool(id) => m - {id}
  }

  function After(m: Tools, isUrl: UrlCheck, evs: seq<Event>): Tools
    decreases |evs|
  {
    if evs == [] then m else After(Next(m, isUrl, evs[0]), isUrl, evs[1..])
  }

  /** What holds of every stored tool. */
  predicate GoodTool(isUrl: UrlCheck, t: Tool) {
    && !IsBlank(t.name) && !IsBlank(t.description)
    && ValidMode(t.mode) && ValidAuthType(t.authType)
    && (t.mode == "api" ==>
          Resolved(t.endpoint, t.variables).Ok? && ValidEndpoint(isUrl, Resolved(t.endpoint, t.variables).value))
  }

  lemma {:induction false} StepKeepsGood(m: Tools, isUrl: UrlCheck, ev: Event)
    requires forall id :: id in m ==> GoodTool(isUrl, m[id])
    ensures forall id :: id in Next(m, isUrl, ev) ==> GoodTool(isUrl, Next(m, isUrl, ev)[id])
  {
    if ev.UpdateTool? && ev.id in m && Accepted(isUrl, m[ev.id], ev.update) {
      assert GoodTool(isUrl, Patched(m[ev.id], ev.update));
    }
  }

  /**
  After any run of creates, partial updates and deletes, each one atomic step, every stored tool in
  api mode has an endpoint that resolves, with its stored variables, to a valid one.
  */
  lemma {:induction false} StoredTemplatesResolve(m: Tools, isUrl: UrlCheck, evs: seq<Event>)
    requires forall id :: id in m ==> GoodTool(isUrl, m[id])
    ensures forall id :: id in After(m, isUrl, evs) ==> GoodTool(isUrl, After(m, isUrl, evs)[id])
    decreases |evs|
  {
    if evs != [] {
      StepKeepsGood(m, isUrl, evs[0]);
      StoredTemplatesResolve(Next(m, isUrl, evs[0]), isUrl, evs[1..]);
    }
  }

  /** A service-mode tool is forwarded to its endpoint as it stands. */
  predicate ServiceEndpointOk(isUrl: UrlCheck, t: Tool) {
    t.mode == "service" ==> ValidEndpoint(isUrl, t.endpoint)
  }

  lemma CreateChecksServiceEndpoint(isUrl: UrlCheck, i: CreateInput)
    requires CheckCreate(isUrl, WithDefaults(i)).None?
    ensures ServiceEndpointOk(isUrl, WithDefaults(i))
  {
  }

  /**
  Updates do not always keep service endpoints valid: the endpoint of a service
  tool goes unchecked when the same update names the mode.  An accepted update
  keeps it valid exactly when it does not set mode "service" over an invalid
  endpoint.
  */
  lemma {:induction false} ServiceEndpointKeptIff(isUrl: UrlCheck, t: Tool, u: UpdateInput)
    requires GoodTool(isUrl, t) && ServiceEndpointOk(isUrl, t) && Accepted(isUrl, t, u)
    ensures ServiceEndpointOk(isUrl, Patched(t, u)) <==>
            !(u.mode == Some("service") && !ValidEndpoint(isUrl, GetOr(u.endpoint, t.endpoint)))
  {
    if u.mode.None? && t.mode == "service" && u.endpoint.Some? {
      assert ValidEndpoint(isUrl, u.endpoint.value);
    }
  }

  /** An update that puts a blank endpoint on a service tool and is accepted. */
  lemma UncheckedServiceEndpoint(isUrl: UrlCheck, t: Tool)
    requires GoodTool(isUrl, t)
    ensures var u := UpdateInput(None, None, Some("service"), Some(""), None, None, None, None, None, None, None,
                                 None, None);
            Accepted(isUrl, t, u) && !ServiceEndpointOk(isUrl, Patched(t, u))
  {
  }
}
