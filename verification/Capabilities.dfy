// Which capabilities a run is granted: the request, cut down by the recipe's bundle and the caller's role.
module Capabilities {
  import opened Prelude
  import opened Text
  import opened Json

  datatype Role = Owner | Operator | Viewer

  // The canonical capability names.
  datatype Capability =
    | ObjectRead | ObjectWrite | MemoryRead | MemoryWrite | MessageSend | MessageReceive
    | PaymentSend | LlmInfer | LocalExec | DbQuery | HttpRequest

  // A parsed request entry, or an entry of a recipe bundle.
  datatype Entry = Entry(capability: Capability, scope: string, maxBytes: Option<nat>)

  const U64_MAX: nat := 0xFFFF_FFFF_FFFF_FFFF

  function Name(c: Capability): string
  {
    match c
    case ObjectRead => "object.read"
    case ObjectWrite => "object.write"
    case MemoryRead => "memory.read"
    case MemoryWrite => "memory.write"
    case MessageSend => "message.send"
    case MessageReceive => "message.receive"
    case PaymentSend => "payment.send"
    case LlmInfer => "llm.infer"
    case LocalExec => "local.exec"
    case DbQuery => "db.query"
    case HttpRequest => "http.request"
  }

  // normalize_capability
  function Normalize(raw: string): Option<Capability>
  {
    Named(Lower(Trim(raw)))
  }

  function Named(name: string): Option<Capability>
  {
    if name == "object.read" || name == "object_read" then Some(ObjectRead)
    else if name == "object.write" || name == "object_write" then Some(ObjectWrite)
    else if name == "memory.read" || name == "memory_read" then Some(MemoryRead)
    else if name == "memory.write" || name == "memory_write" then Some(MemoryWrite)
    else if name == "message.send" || name == "message_send" then Some(MessageSend)
    else if name == "message.receive" || name == "message_receive" then Some(MessageReceive)
    else if name == "payment.send" || name == "payment_send" then Some(PaymentSend)
    else if name == "llm.infer" || name == "llm_infer" then Some(LlmInfer)
    else if name == "local.exec" || name == "local_exec" then Some(LocalExec)
    else if name == "db.query" || name == "db_query" then Some(DbQuery)
    else if name == "http.request" || name == "http_request" then Some(HttpRequest)
    else None
  }

  predicate HasDotDot(s: string)
  {
    exists i :: 0 <= i < |s| - 1 && s[i] == '.' && s[i + 1] == '.'
  }

  // is_scope_allowed_for_capability
  predicate ScopeAllowed(capability: Capability, scope: string)
  {
    !HasDotDot(scope) && '\0' !in scope && ScopePrefix(capability, scope)
  }

  predicate ScopePrefix(capability: Capability, scope: string)
  {
    match capability
    case ObjectRead => StartsWith(scope, "podcasts/")
    case ObjectWrite => StartsWith(scope, "shownotes/")
    case MemoryRead | MemoryWrite => StartsWith(scope, "memory:")
    case MessageSend | MessageReceive => StartsWith(scope, "whitenoise:") || StartsWith(scope, "slack:")
    case PaymentSend => StartsWith(scope, "nwc:") || StartsWith(scope, "cashu:")
    case LlmInfer => StartsWith(scope, "local:") || StartsWith(scope, "remote:")
    case LocalExec => StartsWith(scope, "local.exec:")
    case DbQuery | HttpRequest => false
  }

  // The hard limits of resolve_max_payload_bytes
  function HardMax(capability: Capability): nat
  {
    match capability
    case ObjectRead => 128_000
    case ObjectWrite => 500_000
    case MemoryRead | MemoryWrite => 64_000
    case MessageSend | MessageReceive => 20_000
    case PaymentSend => 16_000
    case LlmInfer => 32_000
    case LocalExec => 4_096
    case DbQuery | HttpRequest => 0
  }

  // The cap that capability_json writes.
  function GrantedMax(capability: Capability, requested: Option<nat>, bundled: Option<nat>): (n: nat)
    ensures n <= HardMax(capability)
  {
    var hard := HardMax(capability);
    var cap := if bundled.Some? then Min(bundled.value, hard) else hard;
    if requested.Some? && requested.value > 0 then Min(requested.value, cap) else cap
  }

  function Grant(capability: Capability, scope: string, requested: Option<nat>, bundled: Option<nat>): Json
  {
    Obj([
      Field("capability", Str(Name(capability))),
      Field("scope", Str(scope)),
      Field("limits", Obj([Field("max_payload_bytes", Num(Decimal(GrantedMax(capability, requested, bundled))))]))])
  }

  // scope_within
  predicate ScopeWithin(grantScope: string, requestedScope: string)
  {
    if grantScope != [] && grantScope[|grantScope| - 1] == '*'
    then StartsWith(requestedScope, grantScope[..|grantScope| - 1])
    else grantScope == requestedScope
  }

  // role_allows_capability
  predicate RoleAllows(role: Role, capability: Capability, scope: string)
  {
    match role
    case Owner => true
    case Operator => !capability.LocalExec?
    case Viewer => capability.ObjectRead? || (capability.LlmInfer? && StartsWith(scope, "local:"))
  }

  function Full(capability: Capability, scope: string): Entry
  {
    Entry(capability, scope, Some(HardMax(capability)))
  }

  // resolve_recipe_capability_bundle
  function Bundle(recipe: string): Option<seq<Entry>>
  {
    if recipe == "show_notes_v1" then
      Some([Full(ObjectRead, "podcasts/*"), Full(ObjectWrite, "shownotes/*"),
            Full(MessageSend, "whitenoise:*"), Full(LlmInfer, "local:*"),
            Full(LocalExec, "local.exec:file.head")])
    else if recipe == "notify_v1" then
      Some([Full(MessageSend, "whitenoise:*"), Full(MessageSend, "slack:*"), Full(LlmInfer, "local:*")])
    else if recipe == "operator_reply_v1" then Some([Full(MessageSend, "whitenoise:*")])
    else if recipe == "operator_chat_v1" then
      Some([Full(MessageSend, "whitenoise:*"), Full(MessageSend, "slack:*"),
            Full(LlmInfer, "local:*"), Full(LlmInfer, "remote:*")])
    else if recipe == "payments_v1" then Some([Full(PaymentSend, "nwc:*")])
    else if recipe == "payments_cashu_v1" then Some([Full(PaymentSend, "cashu:*")])
    else if recipe == "memory_v1" then Some([Full(MemoryRead, "memory:*"), Full(MemoryWrite, "memory:*")])
    else if recipe == "llm_local_v1" then Some([Full(LlmInfer, "local:*")])
    else if recipe == "llm_remote_v1" then Some([Full(LlmInfer, "remote:*")])
    else if recipe == "local_exec_v1" then
      Some([Full(LocalExec, "local.exec:file.head"), Full(LocalExec, "local.exec:file.word_count")])
    else None
  }

  // Value::as_str and Value::as_u64
  function AsStr(v: Option<Json>): Option<string>
  {
    if v.Some? && v.value.Str? then Some(v.value.s) else None
  }

  function AsU64(v: Option<Json>): Option<nat>
  {
    if v.Some? && v.value.Num? && AllDigits(v.value.text) && DigitsValue(v.value.text) <= U64_MAX
    then Some(DigitsValue(v.value.text)) else None
  }

  // One element of the request: an error, a silently dropped entry, or a parsed one.
  datatype Item = Bad(message: string) | Skip | Keep(entry: Entry)

  function ParseItem(item: Json): (r: Item)
    ensures r.Keep? ==> EntryOk(r.entry)
  {
    var raw := AsStr(Get(item, "capability"));
    var scope := AsStr(Get(item, "scope"));
    if raw.None? then Bad("capability entry missing string `capability`")
    else if scope.None? then Bad("capability entry missing string `scope`")
    else if Trim(scope.value) == "" then Bad("capability scope must not be empty")
    else
      var name := Normalize(raw.value);
      if name.None? || !ScopeAllowed(name.value, Trim(scope.value)) then Skip
      else
        var limits := Get(item, "limits");
        Keep(Entry(name.value, Trim(scope.value),
                   if limits.None? then None else AsU64(Get(limits.value, "max_payload_bytes"))))
  }

  // What parsing guarantees of an entry.
  predicate EntryOk(e: Entry)
  {
    e.scope != "" && Trimmed(e.scope) && ScopeAllowed(e.capability, e.scope)
  }

  function ParseItems(items: seq<Json>): (r: Result<seq<Entry>, string>)
    ensures r.Ok? ==> forall i :: 0 <= i < |r.value| ==> EntryOk(r.value[i])
  {
    if items == [] then Ok([])
    else
      var last := ParseItem(items[|items| - 1]);
      var init := ParseItems(items[..|items| - 1]);
      if init.Err? then init
      else
        match last
        case Bad(message) => Err(message)
        case Skip => init
        case Keep(entry) => Ok(init.value + [entry])
  }

  /** parse_requested_capabilities */
  method ParseRequested(request: Json) returns (r: Result<seq<Entry>, string>)
    ensures r == ParsedRequest(request)
  {
    hide ParseItem;
    hide EntryOk;
    if !request.Arr? {
      return Err("requested_capabilities must be an array");
    }
    var items := request.items;
    var parsed: seq<Entry> := [];
    for i := 0 to |items|
      invariant ParseItems(items[..i]) == Ok(parsed)
    {
      var item := ParseItem(items[i]);
      assert items[..i + 1][..i] == items[..i];
      match item {
        case Bad(message) =>
          ErrorStays(items, i + 1, message);
          return Err(message);
        case Skip =>
        case Keep(entry) => parsed := parsed + [entry];
      }
    }
    assert items[..|items|] == items;
    r := Ok(parsed);
  }

  lemma {:induction false} ErrorStays(items: seq<Json>, n: nat, message: string)
    requires n <= |items| && ParseItems(items[..n]) == Err(message)
    ensures ParseItems(items) == Err(message)
    decreases |items|
  {
    if n < |items| {
      assert items[..|items| - 1][..n] == items[..n];
      ErrorStays(items[..|items| - 1], n, message);
    } else {
      assert items[..n] == items;
    }
  }

  function ParsedRequest(request: Json): Result<seq<Entry>, string>
  {
    if request.Arr? then ParseItems(request.items) else Err("requested_capabilities must be an array")
  }

  function AllowedBundle(bundle: seq<Entry>, role: Role): (r: seq<Entry>)
    ensures forall e :: e in r <==> e in bundle && RoleAllows(role, e.capability, e.scope)
  {
    if bundle == [] then []
    else
      var last := bundle[|bundle| - 1];
      assert bundle == bundle[..|bundle| - 1] + [last];
      AllowedBundle(bundle[..|bundle| - 1], role) +
      if RoleAllows(role, last.capability, last.scope) then [last] else []
  }

  predicate Covers(e: Entry, want: Entry)
  {
    e.capability == want.capability && ScopeWithin(e.scope, want.scope)
  }

  // The first bundle entry that covers the request entry.
  function Find(bundle: seq<Entry>, want: Entry): (r: Option<Entry>)
    ensures r.Some? ==> r.value in bundle && Covers(r.value, want)
    ensures r.None? ==> forall e :: e in bundle ==> !Covers(e, want)
  {
    if bundle == [] then None
    else if Covers(bundle[0], want) then Some(bundle[0])
    else
      assert bundle == [bundle[0]] + bundle[1..];
      Find(bundle[1..], want)
  }

  // What one parsed entry is granted, if anything: by its own role check when the recipe is unknown,
  // otherwise by the role-filtered bundle.
  function GrantFor(bundle: Option<seq<Entry>>, role: Role, want: Entry): Option<Json>
  {
    if bundle.None? then
      if RoleAllows(role, want.capability, want.scope)
      then Some(Grant(want.capability, want.scope, want.maxBytes, None)) else None
    else
      var found := Find(AllowedBundle(bundle.value, role), want);
      if found.None? then None
      else Some(Grant(want.capability, want.scope, want.maxBytes, found.value.maxBytes))
  }

  function GrantAll(bundle: Option<seq<Entry>>, role: Role, wanted: seq<Entry>): seq<Json>
  {
    if wanted == [] then []
    else
      var last := GrantFor(bundle, role, wanted[|wanted| - 1]);
      GrantAll(bundle, role, wanted[..|wanted| - 1]) + if last.Some? then [last.value] else []
  }

  function BundleGrants(bundle: seq<Entry>): seq<Json>
  {
    seq(|bundle|, i requires 0 <= i < |bundle| => Grant(bundle[i].capability, bundle[i].scope, None, bundle[i].maxBytes))
  }

  // The grants for a parsed request; an empty one asks for everything the role may use of the bundle.
  function GrantList(bundle: Option<seq<Entry>>, role: Role, wanted: seq<Entry>): seq<Json>
  {
    if bundle.Some? && wanted == [] then BundleGrants(AllowedBundle(bundle.value, role))
    else GrantAll(bundle, role, wanted)
  }

  // resolve_granted_capabilities as a function of the recipe, the role and the request
  function Resolved(recipe: string, role: Role, request: Json): Result<Json, string>
  {
    var wanted := ParsedRequest(request);
    if wanted.Err? then Err(wanted.error) else Ok(Arr(GrantList(Bundle(recipe), role, wanted.value)))
  }

  /** resolve_granted_capabilities */
  method ResolveGranted(recipe: string, role: Role, request: Json) returns (r: Result<Json, string>)
    ensures r == Resolved(recipe, role, request)
  {
    var wanted := ParseRequested(request);
    if wanted.Err? {
      return Err(wanted.error);
    }
    var bundle := Bundle(recipe);
    if bundle.Some? && wanted.value == [] {
      return Ok(Arr(BundleGrants(AllowedBundle(bundle.value, role))));
    }
    var granted: seq<Json> := [];
    for i := 0 to |wanted.value|
      invariant granted == GrantAll(bundle, role, wanted.value[..i])
    {
      var grant := GrantFor(bundle, role, wanted.value[i]);
      if grant.Some? {
        granted := granted + [grant.value];
      }
      assert wanted.value[..i + 1][..i] == wanted.value[..i];
    }
    assert wanted.value[..|wanted.value|] == wanted.value;
    r := Ok(Arr(granted));
  }

  // ---------------------------------------------------------------------------------------------
  // Properties of the grants
  // ---------------------------------------------------------------------------------------------

  lemma {:induction false} NameIsNamed(c: Capability)
    ensures Named(Name(c)) == Some(c)
  {
  }

  lemma {:induction false} PlainText(s: string)
    requires s != [] && forall i :: 0 <= i < |s| ==> 'a' <= s[i] <= 'z' || s[i] == '.'
    ensures Lower(s) == s && Trim(s) == s
  {
    LowerUnchanged(s);
  }

  lemma {:induction false} NameIsPlain(c: Capability)
    ensures Lower(Name(c)) == Name(c) && Trim(Name(c)) == Name(c)
  {
    hide Lower;
    hide Trim;
    PlainText(Name(c));
  }

  // The shape every recipe bundle has: parseable entries at the hard limit of their capability.
  predicate ValidBundle(bundle: Option<seq<Entry>>)
  {
    bundle.Some? ==> forall e :: e in bundle.value ==> ValidEntry(e)
  }

  predicate ValidEntry(e: Entry)
  {
    EntryOk(e) && e.maxBytes == Some(HardMax(e.capability))
  }

  lemma {:induction false} PlainEntry(c: Capability, scope: string)
    requires scope != "" && ScopePrefix(c, scope)
    requires forall i :: 0 <= i < |scope| ==> 'a' <= scope[i] <= 'z' || scope[i] in "/:*._"
    requires forall i :: 0 <= i < |scope| - 1 ==> scope[i] != '.' || scope[i + 1] != '.'
    ensures ValidEntry(Full(c, scope))
  {
    assert forall i :: 0 <= i < |scope| ==> !IsWhitespace(scope[i]) && scope[i] != '\0';
  }

  lemma {:induction false} ObjectEntries()
    ensures ValidEntry(Full(ObjectRead, "podcasts/*"))
    ensures ValidEntry(Full(ObjectWrite, "shownotes/*"))
  {
    hide ValidEntry;
    PlainEntry(ObjectRead, "podcasts/*");
    PlainEntry(ObjectWrite, "shownotes/*");
  }

  lemma {:induction false} MemoryEntries()
    ensures ValidEntry(Full(MemoryRead, "memory:*"))
    ensures ValidEntry(Full(MemoryWrite, "memory:*"))
  {
    hide ValidEntry;
    PlainEntry(MemoryRead, "memory:*");
    PlainEntry(MemoryWrite, "memory:*");
  }

  lemma {:induction false} MessageEntries()
    ensures ValidEntry(Full(MessageSend, "whitenoise:*"))
    ensures ValidEntry(Full(MessageSend, "slack:*"))
  {
    hide ValidEntry;
    PlainEntry(MessageSend, "whitenoise:*");
    PlainEntry(MessageSend, "slack:*");
  }

  lemma {:induction false} PaymentEntries()
    ensures ValidEntry(Full(PaymentSend, "nwc:*"))
    ensures ValidEntry(Full(PaymentSend, "cashu:*"))
  {
    hide ValidEntry;
    PlainEntry(PaymentSend, "nwc:*");
    PlainEntry(PaymentSend, "cashu:*");
  }

  lemma {:induction false} ModelEntries()
    ensures ValidEntry(Full(LlmInfer, "local:*"))
    ensures ValidEntry(Full(LlmInfer, "remote:*"))
  {
    hide ValidEntry;
    PlainEntry(LlmInfer, "local:*");
    PlainEntry(LlmInfer, "remote:*");
  }

  lemma {:induction false} FileHeadEntry()
    ensures ValidEntry(Full(LocalExec, "local.exec:file.head"))
  {
    hide ValidEntry;
    PlainEntry(LocalExec, "local.exec:file.head");
  }

  lemma {:induction false} WordCountEntry()
    ensures ValidEntry(Full(LocalExec, "local.exec:file.word_count"))
  {
    hide ValidEntry;
    PlainEntry(LocalExec, "local.exec:file.word_count");
  }

  lemma {:induction false} RecipeBundlesValid(recipe: string)
    ensures ValidBundle(Bundle(recipe))
  {
    ObjectEntries();
    MemoryEntries();
    MessageEntries();
    PaymentEntries();
    ModelEntries();
    FileHeadEntry();
    WordCountEntry();
    hide ValidEntry;
  }

  lemma {:induction false} GrantFields(capability: Capability, scope: string, requested: Option<nat>, bundled: Option<nat>)
    ensures var g := Grant(capability, scope, requested, bundled);
            && Get(g, "capability") == Some(Str(Name(capability))) && Get(g, "scope") == Some(Str(scope))
            && Get(g, "limits").Some?
            && Get(Get(g, "limits").value, "max_payload_bytes") ==
               Some(Num(Decimal(GrantedMax(capability, requested, bundled))))
  {
    hide Name;
    hide Decimal;
    hide GrantedMax;
    var g := Grant(capability, scope, requested, bundled);
    assert Get(g, "capability") == Some(Str(Name(capability)));
    assert Lookup(g.fields[1..], "scope") == Some(Str(scope));
    assert Get(g, "scope") == Some(Str(scope));
    var limits := g.fields[2].value;
    assert Lookup(g.fields[2..], "limits") == Some(limits);
    assert g.fields[1..][1..] == g.fields[2..];
    assert Get(g, "limits") == Some(limits);
  }

  lemma {:induction false} LimitReads(capability: Capability, requested: Option<nat>, bundled: Option<nat>)
    ensures var n := GrantedMax(capability, requested, bundled);
            AsU64(Some(Num(Decimal(n)))) == Some(n)
  {
    DigitsOfDecimal(GrantedMax(capability, requested, bundled));
  }

  /** A grant written as JSON parses back to its own capability, scope and limit. */
  lemma {:induction false} ParseGrant(capability: Capability, scope: string, requested: Option<nat>, bundled: Option<nat>)
    requires EntryOk(Entry(capability, scope, requested))
    ensures ParseItem(Grant(capability, scope, requested, bundled)) ==
            Keep(Entry(capability, scope, Some(GrantedMax(capability, requested, bundled))))
  {
    NameIsNamed(capability);
    NameIsPlain(capability);
    LimitReads(capability, requested, bundled);
    GrantFields(capability, scope, requested, bundled);
    hide Name;
    hide Named;
    hide Grant;
    hide Get;
    hide ScopeAllowed;
    hide Lower;
    hide AsU64;
    hide GrantedMax;
  }

  lemma {:induction false} FindIgnoresLimit(bundle: seq<Entry>, a: Entry, b: Entry)
    requires a.capability == b.capability && a.scope == b.scope
    ensures Find(bundle, a) == Find(bundle, b)
  {
    if bundle != [] {
      FindIgnoresLimit(bundle[1..], a, b);
    }
  }

  lemma {:induction false} RegrantSame(bundle: Option<seq<Entry>>, role: Role, want: Entry)
    requires EntryOk(want) && GrantFor(bundle, role, want).Some?
    ensures var g := GrantFor(bundle, role, want).value;
            && ParseItem(g).Keep? && ParseItem(g).entry.capability == want.capability
            && ParseItem(g).entry.scope == want.scope
            && GrantFor(bundle, role, ParseItem(g).entry) == Some(g)
  {
    var bundled := if bundle.None? then None else Find(AllowedBundle(bundle.value, role), want).value.maxBytes;
    ParseGrant(want.capability, want.scope, want.maxBytes, bundled);
    var again := ParseItem(GrantFor(bundle, role, want).value).entry;
    if bundle.Some? {
      FindIgnoresLimit(AllowedBundle(bundle.value, role), want, again);
    }
  }

  lemma {:induction false} GrantAllPush(bundle: Option<seq<Entry>>, role: Role, wanted: seq<Entry>, last: Entry)
    ensures GrantFor(bundle, role, last).Some? ==>
              GrantAll(bundle, role, wanted + [last]) ==
              GrantAll(bundle, role, wanted) + [GrantFor(bundle, role, last).value]
    ensures GrantFor(bundle, role, last).None? ==>
              GrantAll(bundle, role, wanted + [last]) == GrantAll(bundle, role, wanted)
  {
    hide GrantFor;
    assert (wanted + [last])[..|wanted|] == wanted;
  }

  lemma {:induction false} ParseItemsPush(items: seq<Json>, last: Json)
    ensures ParseItems(items).Ok? && ParseItem(last).Keep? ==>
              ParseItems(items + [last]) == Ok(ParseItems(items).value + [ParseItem(last).entry])
  {
    hide ParseItem;
    hide ParseItem;
    assert (items + [last])[..|items|] == items;
  }

  lemma {:induction false} RegrantAll(bundle: Option<seq<Entry>>, role: Role, wanted: seq<Entry>)
    requires forall i :: 0 <= i < |wanted| ==> EntryOk(wanted[i])
    ensures var g := GrantAll(bundle, role, wanted);
            && ParseItems(g).Ok? && |ParseItems(g).value| == |g|
            && GrantAll(bundle, role, ParseItems(g).value) == g
  {
    hide GrantFor;
    hide ParseItem;
    hide EntryOk;
    if wanted != [] {
      var init, last := wanted[..|wanted| - 1], wanted[|wanted| - 1];
      assert wanted == init + [last];
      RegrantAll(bundle, role, init);
      GrantAllPush(bundle, role, init, last);
      if GrantFor(bundle, role, last).Some? {
        var g := GrantFor(bundle, role, last).value;
        RegrantSame(bundle, role, last);
        ParseItemsPush(GrantAll(bundle, role, init), g);
        GrantAllPush(bundle, role, ParseItems(GrantAll(bundle, role, init)).value, ParseItem(g).entry);
      }
    }
  }

  lemma {:induction false} BundleGrantsAsRequest(bundle: seq<Entry>, role: Role, some: seq<Entry>)
    requires ValidBundle(Some(bundle))
    requires forall i :: 0 <= i < |some| ==> some[i] in AllowedBundle(bundle, role)
    ensures GrantAll(Some(bundle), role, some) == BundleGrants(some)
  {
    hide GrantFor;
    hide Grant;
    hide ValidBundle;
    if some != [] {
      var init, last := some[..|some| - 1], some[|some| - 1];
      assert some == init + [last];
      BundleGrantsAsRequest(bundle, role, init);
      BundleEntryGrant(bundle, role, last);
      GrantAllPush(Some(bundle), role, init, last);
      assert BundleGrants(some) == BundleGrants(init) + [Grant(last.capability, last.scope, None, last.maxBytes)];
    }
  }

  lemma {:induction false} BundleEntryGrant(bundle: seq<Entry>, role: Role, e: Entry)
    requires ValidBundle(Some(bundle)) && e in AllowedBundle(bundle, role)
    ensures GrantFor(Some(bundle), role, e) == Some(Grant(e.capability, e.scope, None, e.maxBytes))
  {
    assert Covers(e, e);
  }

  // What the empty request would be granted.
  function RoleBundle(bundle: Option<seq<Entry>>, role: Role): seq<Entry>
  {
    if bundle.None? then [] else AllowedBundle(bundle.value, role)
  }

  // The request entries that explain a grant list: the parsed request, or the bundle it stands for.
  lemma {:induction false} GrantListOrigin(bundle: Option<seq<Entry>>, role: Role, wanted: seq<Entry>) returns (asked: seq<Entry>)
    requires ValidBundle(bundle) && forall i :: 0 <= i < |wanted| ==> EntryOk(wanted[i])
    ensures GrantList(bundle, role, wanted) == GrantAll(bundle, role, asked)
    ensures forall i :: 0 <= i < |asked| ==> EntryOk(asked[i])
    ensures asked == if wanted == [] then RoleBundle(bundle, role) else wanted
  {
    asked := wanted;
    if bundle.Some? && wanted == [] {
      asked := AllowedBundle(bundle.value, role);
      assert forall i :: 0 <= i < |asked| ==> asked[i] in asked;
      BundleGrantsAsRequest(bundle.value, role, asked);
    }
  }

  lemma {:induction false} GrantListFixpoint(bundle: Option<seq<Entry>>, role: Role, wanted: seq<Entry>)
    requires ValidBundle(bundle) && forall i :: 0 <= i < |wanted| ==> EntryOk(wanted[i])
    ensures var g := GrantList(bundle, role, wanted);
            && ParseItems(g).Ok?
            && (GrantList(bundle, role, ParseItems(g).value) == g <==> g != [] || RoleBundle(bundle, role) == [])
  {
    var asked := GrantListOrigin(bundle, role, wanted);
    RegrantAll(bundle, role, asked);
    if bundle.Some? {
      assert |BundleGrants(RoleBundle(bundle, role))| == |RoleBundle(bundle, role)|;
    }
  }

  /** Resolving the grants again changes nothing, exactly unless an empty grant list meets a bundle the
      role may use. */
  lemma {:induction false} GrantsAreFixpoint(recipe: string, role: Role, request: Json)
    ensures Resolved(recipe, role, request).Ok? ==>
              var g := Resolved(recipe, role, request).value;
              && g.Arr?
              && (Resolved(recipe, role, g) == Ok(g) <==> g.items != [] || RoleBundle(Bundle(recipe), role) == [])
  {
    if Resolved(recipe, role, request).Ok? {
      RecipeBundlesValid(recipe);
      GrantListFixpoint(Bundle(recipe), role, ParsedRequest(request).value);
    }
  }

  lemma {:induction false} PaymentsBundle()
    ensures Bundle("payments_v1") == Some([Full(PaymentSend, "nwc:*")])
  {
  }

  lemma {:induction false} OneItem(item: Json)
    ensures ParseItem(item).Keep? ==> ParseItems([item]) == Ok([ParseItem(item).entry])
  {
    hide ParseItem;
    assert [item][..0] == [];
    assert ParseItems([]) == Ok([]);
    assert ParseItem(item).Keep? ==> [] + [ParseItem(item).entry] == [ParseItem(item).entry];
  }

  // From a bundle of one entry an owner gets nothing for another capability, and the entry for no request.
  lemma {:induction false} OneEntryBundle(e: Entry, want: Entry)
    ensures e.capability != want.capability ==> GrantList(Some([e]), Owner, [want]) == []
    ensures GrantList(Some([e]), Owner, []) == [Grant(e.capability, e.scope, None, e.maxBytes)]
  {
    hide ScopeWithin;
    hide Grant;
    if e.capability != want.capability {
      assert !Covers(e, want);
      assert Find([e], want).None?;
    }
    assert [want][..0] == [];
    assert GrantAll(Some([e]), Owner, []) == [];
    assert [e][..0] == [];
    assert AllowedBundle([], Owner) == [];
    assert AllowedBundle([e], Owner) == [e];
  }

  /** A failing input: under payments_v1 an owner who asks only for object.read is granted nothing, and that
      empty grant list resolves to the payment grant of the bundle. */
  lemma {:induction false} EmptyGrantExpands() returns (request: Json)
    ensures Resolved("payments_v1", Owner, request) == Ok(Arr([]))
    ensures Resolved("payments_v1", Owner, Arr([])) ==
            Ok(Arr([Grant(PaymentSend, "nwc:*", None, Some(HardMax(PaymentSend)))]))
  {
    ObjectEntries();
    PaymentsBundle();
    ParseGrant(ObjectRead, "podcasts/*", None, None);
    assert ParseItems([]) == Ok([]);
    hide ParseItem;
    hide ParseItems;
    hide Bundle;
    hide GrantList;
    hide Grant;
    var item := Grant(ObjectRead, "podcasts/*", None, None);
    OneItem(item);
    OneEntryBundle(Full(PaymentSend, "nwc:*"), ParseItem(item).entry);
    request := Arr([item]);
  }

  /** A role that may use a bundle scope may use every scope inside it. */
  lemma {:induction false} RoleCoversInnerScope(role: Role, capability: Capability, outer: string, inner: string)
    requires RoleAllows(role, capability, outer) && ScopeWithin(outer, inner)
    ensures RoleAllows(role, capability, inner)
  {
    if role.Viewer? && !capability.ObjectRead? && outer[|outer| - 1] == '*' {
      assert outer[5] == "local:"[5];
      assert "local:" <= outer[..|outer| - 1];
    }
  }

  // What is promised of each granted element: it reads back as a grant of an allowed scope, permitted
  // to the role on that very scope, with a limit within the hard one.
  predicate GrantSound(role: Role, g: Json)
  {
    ParseItem(g).Keep? && EntrySound(role, ParseItem(g).entry, g)
  }

  predicate EntrySound(role: Role, e: Entry, g: Json)
  {
    && RoleAllows(role, e.capability, e.scope)
    && e.maxBytes.Some? && e.maxBytes.value <= HardMax(e.capability)
    && g == Grant(e.capability, e.scope, e.maxBytes, None)
  }

  lemma {:induction false} GrantForSound(bundle: Option<seq<Entry>>, role: Role, want: Entry)
    requires ValidBundle(bundle) && EntryOk(want) && GrantFor(bundle, role, want).Some?
    ensures GrantSound(role, GrantFor(bundle, role, want).value)
  {
    var bundled := if bundle.None? then None else Find(AllowedBundle(bundle.value, role), want).value.maxBytes;
    if bundle.Some? {
      RoleCoversInnerScope(role, want.capability, Find(AllowedBundle(bundle.value, role), want).value.scope, want.scope);
    }
    ParseGrant(want.capability, want.scope, want.maxBytes, bundled);
    var n := GrantedMax(want.capability, want.maxBytes, bundled);
    assert GrantedMax(want.capability, Some(n), None) == n;
    assert EntrySound(role, Entry(want.capability, want.scope, Some(n)),
                      Grant(want.capability, want.scope, want.maxBytes, bundled));
  }

  lemma {:induction false} GrantAllOrigin(bundle: Option<seq<Entry>>, role: Role, wanted: seq<Entry>, g: Json)
    returns (i: nat)
    requires g in GrantAll(bundle, role, wanted)
    ensures i < |wanted| && GrantFor(bundle, role, wanted[i]) == Some(g)
  {
    i := |wanted| - 1;
    if GrantFor(bundle, role, wanted[i]) != Some(g) {
      i := GrantAllOrigin(bundle, role, wanted[..i], g);
    }
  }

  // The request resolves, and this is one of its grants.
  predicate Granted(recipe: string, role: Role, request: Json, g: Json)
  {
    var r := Resolved(recipe, role, request);
    r.Ok? && r.value.Arr? && g in r.value.items
  }

  /** Every grant passes the role check on its own scope and stays within the hard byte limit. */
  lemma {:induction false} GrantsAreSound(recipe: string, role: Role, request: Json, g: Json)
    ensures Granted(recipe, role, request, g) ==> GrantSound(role, g)
  {
    if Granted(recipe, role, request, g) {
      RecipeBundlesValid(recipe);
      var asked := GrantListOrigin(Bundle(recipe), role, ParsedRequest(request).value);
      var i := GrantAllOrigin(Bundle(recipe), role, asked, g);
      GrantForSound(Bundle(recipe), role, asked[i]);
    }
  }

  predicate AtMost(low: Role, high: Role)
  {
    low == high || low.Viewer? || high.Owner?
  }

  lemma {:induction false} GrantForMonotone(bundle: Option<seq<Entry>>, low: Role, high: Role, want: Entry)
    requires ValidBundle(bundle) && AtMost(low, high) && GrantFor(bundle, low, want).Some?
    ensures GrantFor(bundle, high, want) == GrantFor(bundle, low, want)
  {
    if bundle.Some? {
      var found := Find(AllowedBundle(bundle.value, low), want).value;
      assert found in AllowedBundle(bundle.value, high);
    }
  }

  lemma {:induction false} GrantAllHas(bundle: Option<seq<Entry>>, role: Role, wanted: seq<Entry>, i: nat)
    requires i < |wanted| && GrantFor(bundle, role, wanted[i]).Some?
    ensures GrantFor(bundle, role, wanted[i]).value in GrantAll(bundle, role, wanted)
  {
    if i < |wanted| - 1 {
      GrantAllHas(bundle, role, wanted[..|wanted| - 1], i);
    }
  }

  lemma {:induction false} GrantListGrows(bundle: Option<seq<Entry>>, low: Role, high: Role, wanted: seq<Entry>, g: Json)
    requires ValidBundle(bundle) && forall i :: 0 <= i < |wanted| ==> EntryOk(wanted[i])
    requires AtMost(low, high) && g in GrantList(bundle, low, wanted)
    ensures g in GrantList(bundle, high, wanted)
  {
    hide GrantFor;
    hide EntryOk;
    hide ValidBundle;
    hide GrantList;
    hide GrantAll;
    var asked := GrantListOrigin(bundle, low, wanted);
    var asked' := GrantListOrigin(bundle, high, wanted);
    var i := GrantAllOrigin(bundle, low, asked, g);
    GrantForMonotone(bundle, low, high, asked[i]);
    assert asked[i] in asked';
    var j :| 0 <= j < |asked'| && asked'[j] == asked[i];
    GrantAllHas(bundle, high, asked', j);
  }

  /** Viewer grants are contained in Operator grants, and those in Owner grants, for every request. */
  lemma {:induction false} GrantsGrowWithRole(recipe: string, low: Role, high: Role, request: Json, g: Json)
    requires AtMost(low, high)
    ensures Granted(recipe, low, request, g) ==> Granted(recipe, high, request, g)
  {
    if Granted(recipe, low, request, g) {
      RecipeBundlesValid(recipe);
      GrantListGrows(Bundle(recipe), low, high, ParsedRequest(request).value, g);
    }
  }

  // ---------------------------------------------------------------------------------------------
  // Who gets what
  // ---------------------------------------------------------------------------------------------

  // Owners may do everything, operators everything but run local programs, viewers only read objects and
  // use local models.
  predicate Permitted(role: Role, capability: Capability, scope: string)
  {
    || role == Owner
    || (role == Operator && capability != LocalExec)
    || (role == Viewer && (capability == ObjectRead || (capability == LlmInfer && "local:" <= scope)))
  }

  // The same scope, or one that continues the text before a final star.
  ghost predicate Contains(outer: string, inner: string)
  {
    outer == inner || exists p: string :: outer == p + ['*'] && p <= inner
  }

  lemma {:induction false} ScopeMeaning(outer: string, inner: string)
    ensures ScopeWithin(outer, inner) <==> Contains(outer, inner)
  {
    if outer != [] && outer[|outer| - 1] == '*' {
      var p := outer[..|outer| - 1];
      assert outer == p + ['*'];
      if q: string :| outer == q + ['*'] && q <= inner {
        assert q == p;
      }
    }
  }

  // Some entry of the bundle that the role may use covers what is wanted.
  ghost predicate Offered(bundle: seq<Entry>, role: Role, want: Entry)
  {
    exists e :: e in bundle && e.capability == want.capability && Permitted(role, e.capability, e.scope) &&
                Contains(e.scope, want.scope)
  }

  lemma {:induction false} GrantForExactly(bundle: Option<seq<Entry>>, role: Role, want: Entry)
    ensures GrantFor(bundle, role, want).Some? <==>
            if bundle.None? then Permitted(role, want.capability, want.scope) else Offered(bundle.value, role, want)
  {
    if bundle.Some? {
      var allowed := AllowedBundle(bundle.value, role);
      forall e | e in bundle.value
        ensures e in allowed && Covers(e, want) <==>
                e.capability == want.capability && Permitted(role, e.capability, e.scope) && Contains(e.scope, want.scope)
      {
        ScopeMeaning(e.scope, want.scope);
      }
      hide ScopeWithin;
      hide Contains;
      hide Permitted;
      if Find(allowed, want).Some? {
        var e := Find(allowed, want).value;
        assert e in bundle.value && Covers(e, want);
      }
    }
  }

  // What a grant says when it is read as a request entry.
  function Read(g: Json): Option<Entry>
  {
    match ParseItem(g)
    case Keep(e) => Some(e)
    case _ => None
  }

  /** The limit of a grant is the requested number of bytes where one is asked for, but never more than the hard
      limit, which is also the default; the grant reads back with the capability and scope asked for. */
  lemma {:induction false} GrantTerms(bundle: Option<seq<Entry>>, role: Role, want: Entry)
    requires ValidBundle(bundle) && EntryOk(want)
    ensures GrantFor(bundle, role, want).Some? ==>
              var hard := HardMax(want.capability);
              var asked := if want.maxBytes.Some? && want.maxBytes.value > 0 then want.maxBytes.value else hard;
              Read(GrantFor(bundle, role, want).value) ==
              Some(Entry(want.capability, want.scope, Some(if asked < hard then asked else hard)))
  {
    if GrantFor(bundle, role, want).Some? {
      var bundled := if bundle.None? then None else Find(AllowedBundle(bundle.value, role), want).value.maxBytes;
      ParseGrant(want.capability, want.scope, want.maxBytes, bundled);
      if bundle.Some? {
        var e := Find(AllowedBundle(bundle.value, role), want).value;
        assert e in bundle.value && ValidEntry(e);
      }
      hide ParseItem;
      hide EntryOk;
    }
  }

  predicate ReadsFor(g: Json, want: Entry)
  {
    Read(g).Some? && Read(g).value.capability == want.capability && Read(g).value.scope == want.scope
  }

  // One of the grants reads back as what this entry asks for.
  ghost predicate Answered(grants: seq<Json>, want: Entry)
  {
    exists g :: g in grants && ReadsFor(g, want)
  }

  lemma {:induction false} AnsweredFor(bundle: Option<seq<Entry>>, role: Role, wanted: seq<Entry>, want: Entry)
    requires ValidBundle(bundle) && want in wanted && forall i :: 0 <= i < |wanted| ==> EntryOk(wanted[i])
    ensures Answered(GrantAll(bundle, role, wanted), want) <==> GrantFor(bundle, role, want).Some?
  {
    hide Read;
    hide EntryOk;
    hide ValidBundle;
    hide GrantAll;
    var i :| 0 <= i < |wanted| && wanted[i] == want;
    if GrantFor(bundle, role, want).Some? {
      GrantAllHas(bundle, role, wanted, i);
      GrantTerms(bundle, role, want);
      assert ReadsFor(GrantFor(bundle, role, want).value, want);
    }
    if Answered(GrantAll(bundle, role, wanted), want) {
      var g :| g in GrantAll(bundle, role, wanted) && ReadsFor(g, want);
      var j := GrantAllOrigin(bundle, role, wanted, g);
      GrantTerms(bundle, role, wanted[j]);
      SameOffer(bundle, role, wanted[j], want);
    }
  }

  /** An entry of the request is answered exactly when the role may use it itself, for a recipe without a bundle, or
      when the bundle offers the role something that covers it. */
  lemma {:induction false} AnsweredExactly(recipe: string, role: Role, request: Json, want: Entry)
    requires ParsedRequest(request).Ok? && want in ParsedRequest(request).value
    ensures var r := Resolved(recipe, role, request);
            && r.Ok? && r.value.Arr?
            && (Answered(r.value.items, want) <==>
                if Bundle(recipe).None? then Permitted(role, want.capability, want.scope)
                else Offered(Bundle(recipe).value, role, want))
  {
    RecipeBundlesValid(recipe);
    ParsedAreOk(request);
    hide ParsedRequest;
    hide Bundle;
    hide EntryOk;
    hide ValidBundle;
    hide Permitted;
    hide Offered;
    hide Answered;
    GrantForExactly(Bundle(recipe), role, want);
    AnsweredFor(Bundle(recipe), role, ParsedRequest(request).value, want);
  }

  lemma {:induction false} SameOffer(bundle: Option<seq<Entry>>, role: Role, a: Entry, b: Entry)
    requires a.capability == b.capability && a.scope == b.scope
    ensures GrantFor(bundle, role, a).Some? <==> GrantFor(bundle, role, b).Some?
  {
    if bundle.Some? {
      FindIgnoresLimit(AllowedBundle(bundle.value, role), a, b);
    }
  }

  lemma {:induction false} ParsedAreOk(request: Json)
    ensures ParsedRequest(request).Ok? ==>
              forall i :: 0 <= i < |ParsedRequest(request).value| ==> EntryOk(ParsedRequest(request).value[i])
  {
  }

  // No local programs for operators; for viewers only objects and local models.
  predicate WithinRole(role: Role, e: Entry)
  {
    && (role.Operator? ==> !e.capability.LocalExec?)
    && (role.Viewer? ==> e.capability.ObjectRead? || (e.capability.LlmInfer? && "local:" <= e.scope))
  }

  lemma {:induction false} SoundWithinRole(role: Role, g: Json)
    ensures GrantSound(role, g) ==> Read(g).Some? && WithinRole(role, Read(g).value)
  {
    hide ParseItem;
    hide EntryOk;
  }

  /** Whatever is requested, no grant to an operator reads back as local.exec, and every grant to a viewer reads
      back as object.read, or as llm.infer on a local model. */
  lemma {:induction false} RoleLimits(recipe: string, role: Role, request: Json, g: Json)
    ensures Granted(recipe, role, request, g) ==> Read(g).Some? && WithinRole(role, Read(g).value)
  {
    hide Granted;
    hide Read;
    hide GrantSound;
    GrantsAreSound(recipe, role, request, g);
    SoundWithinRole(role, g);
  }

  // No parent directory, no NUL, and in the area of the capability.
  predicate SafeScope(capability: Capability, s: string)
  {
    && (forall i :: 0 <= i < |s| - 1 ==> !(s[i] == '.' && s[i + 1] == '.')) && (forall c :: c in s ==> c != '\0')
    && ((capability == ObjectRead && "podcasts/" <= s) || (capability == ObjectWrite && "shownotes/" <= s) ||
        ((capability == MemoryRead || capability == MemoryWrite) && "memory:" <= s) ||
        ((capability == MessageSend || capability == MessageReceive) && ("whitenoise:" <= s || "slack:" <= s)) ||
        (capability == PaymentSend && ("nwc:" <= s || "cashu:" <= s)) ||
        (capability == LlmInfer && ("local:" <= s || "remote:" <= s)) || (capability == LocalExec && "local.exec:" <= s))
  }

  lemma {:induction false} SafeScopeMeaning(capability: Capability, s: string)
    ensures ScopeAllowed(capability, s) <==> SafeScope(capability, s)
  {
  }

  lemma {:induction false} TwoFields(raw: string, scope: string)
    ensures var item := Obj([Field("capability", Str(raw)), Field("scope", Str(scope))]);
            Get(item, "capability") == Some(Str(raw)) && Get(item, "scope") == Some(Str(scope)) && Get(item, "limits").None?
  {
    var fs := [Field("capability", Str(raw)), Field("scope", Str(scope))];
    assert fs[1..] == [Field("scope", Str(scope))];
    assert Lookup(fs[1..], "scope") == Some(Str(scope));
    assert fs[1..][1..] == [];
    assert Lookup(fs[1..], "limits") == None;
  }

  /** An entry without a text for its capability or its scope, or with a blank scope, is an error; one with an unknown
      name or an unsafe scope is dropped; any other is kept with its scope trimmed. */
  lemma {:induction false} ItemTerms(raw: string, scope: string)
    ensures ParseItem(Null).Bad? && ParseItem(Obj([Field("scope", Str(scope))])).Bad?
    ensures ParseItem(Obj([Field("capability", Str(raw))])).Bad?
    ensures var item := ParseItem(Obj([Field("capability", Str(raw)), Field("scope", Str(scope))]));
            var name := Named(Lower(Trim(raw)));
            if Trim(scope) == "" then item.Bad?
            else if name.None? || !SafeScope(name.value, Trim(scope)) then item.Skip?
            else item == Keep(Entry(name.value, Trim(scope), None))
  {
    hide Trim;
    hide Lower;
    hide Named;
    hide ScopeAllowed;
    hide SafeScope;
    TwoFields(raw, scope);
    var a, b := [Field("scope", Str(scope))], [Field("capability", Str(raw))];
    assert a[1..] == [] && b[1..] == [];
    var name := Named(Lower(Trim(raw)));
    if name.Some? {
      SafeScopeMeaning(name.value, Trim(scope));
    }
  }

  function SecondName(c: Capability): string
  {
    match c
    case ObjectRead => "object_read"
    case ObjectWrite => "object_write"
    case MemoryRead => "memory_read"
    case MemoryWrite => "memory_write"
    case MessageSend => "message_send"
    case MessageReceive => "message_receive"
    case PaymentSend => "payment_send"
    case LlmInfer => "llm_infer"
    case LocalExec => "local_exec"
    case DbQuery => "db_query"
    case HttpRequest => "http_request"
  }

  /** Every capability answers to a second name, with an underscore for the dot. */
  lemma {:induction false} SecondNames(c: Capability)
    ensures Named(SecondName(c)) == Some(c)
  {
  }

  /** The hard limits, in bytes. */
  lemma {:induction false} HardLimits()
    ensures HardMax(ObjectRead) == 128_000 && HardMax(ObjectWrite) == 500_000
    ensures HardMax(MemoryRead) == HardMax(MemoryWrite) == 64_000
    ensures HardMax(MessageSend) == HardMax(MessageReceive) == 20_000 && HardMax(PaymentSend) == 16_000
    ensures HardMax(LlmInfer) == 32_000 && HardMax(LocalExec) == 4_096
  {
  }
}
