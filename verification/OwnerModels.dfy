/** An owner's LLM connections, the models they offer and the chosen default. */
module OwnerModels {
  import opened Basics
  import opened Text
  import opened ModelChoice

  type Id = string

  /** A stored connection; `models` is the comma-separated list of model names. */
  datatype Connection = Connection(id: Id, owner: Id, provider: string, baseURL: string, models: string, protocol: string)

  // ----- Validating settings -----

  predicate NameChar(c: char) {
    'a' <= c <= 'z' || '0' <= c <= '9' || c == '-'
  }

  predicate CustomProvider(p: string) {
    && HasPrefix(p, "custom-") && 8 <= |p| <= 55 && p[7] != '-'
    && forall i :: 7 <= i < |p| ==> NameChar(p[i])
  }

  predicate ValidProvider(p: string) {
    p == "openai" || p == "anthropic" || p == "gemini" || p == "fireworks" || p == "openrouter" || CustomProvider(p)
  }

  predicate AllNameChars(s: string) {
    forall i :: 0 <= i < |s| ==> NameChar(s[i])
  }

  lemma ProviderChars(p: string)
    requires ValidProvider(p)
    ensures AllNameChars(p)
  {
    if CustomProvider(p) {
      var head := p[..7];
      assert head == "custom-";
      forall i | 0 <= i < |p| ensures NameChar(p[i]) {
        if i < 7 { assert p[i] == head[i]; }
      }
    }
  }

  lemma ProviderIsPlain(p: string)
    requires ValidProvider(p)
    ensures ':' !in p && SqlLower(p) == p
  {
    ProviderChars(p);
    assert forall i :: 0 <= i < |p| ==> SqlLower(p)[i] == p[i];
  }

  function TrimSlashes(s: string): string {
    if s != [] && s[|s| - 1] == '/' then TrimSlashes(s[..|s| - 1]) else s
  }

  predicate Separator(c: char) {
    c == ',' || c == '\n' || c == '\r'
  }

  function FieldEnd(s: string): (n: nat)
    ensures n <= |s| && (n < |s| ==> Separator(s[n])) && forall i :: 0 <= i < n ==> !Separator(s[i])
  {
    if s == [] || Separator(s[0]) then 0 else 1 + FieldEnd(s[1..])
  }

  /** The stretches between separators, empty ones dropped. */
  function Fields(s: string): (r: seq<string>)
    ensures forall f :: f in r ==> f != "" && ',' !in f
    decreases |s|
  {
    var n := FieldEnd(s);
    var rest := if n < |s| then Fields(s[n + 1..]) else [];
    if n == 0 then rest else [s[..n]] + rest
  }

  predicate HasBlank(name: string) {
    exists i :: 0 <= i < |name| && (name[i] == '\0' || name[i] == '\t' || name[i] == ' ')
  }

  /** A model list as it may be stored: distinct, non-empty, comma-free names. */
  predicate CleanNames(names: seq<string>) {
    Distinct(names) && forall n :: n in names ==> n != "" && ',' !in n && !HasBlank(n)
  }

  datatype Normalized = Invalid | Valid(baseURL: string, models: string, protocol: string)

  const PROTOCOLS := ["openai", "openai-responses", "anthropic", "gemini"]

  /** The typed names: the fields, each trimmed. */
  function TypedNames(models: string): (r: seq<string>)
    ensures |r| == |Fields(models)| && forall i :: 0 <= i < |r| ==> r[i] == TrimSpace(Fields(models)[i]) && ',' !in r[i]
  {
    TrimEach(Fields(models))
  }

  function TrimEach(fields: seq<string>): (r: seq<string>)
    requires forall f :: f in fields ==> ',' !in f
    ensures |r| == |fields| && forall i :: 0 <= i < |r| ==> r[i] == TrimSpace(fields[i]) && ',' !in r[i]
  {
    if fields == [] then []
    else
      assert fields[0] in fields;
      [TrimSpace(fields[0])] + TrimEach(fields[1..])
  }

  /** The names are the typed ones, blank ones dropped, each where it was first typed:
      `at` says where. */
  ghost predicate FirstOf(typed: seq<string>, names: seq<string>, at: seq<nat>) {
    FirstUpTo(typed, |typed|, names, at)
  }

  /** The same of the first n typed names. */
  ghost predicate FirstUpTo(typed: seq<string>, n: nat, names: seq<string>, at: seq<nat>) {
    && n <= |typed| && |at| == |names|
    && (forall k :: 0 <= k < |names| ==> at[k] < n && typed[at[k]] == names[k])
    && (forall k, m :: 0 <= k < |names| && 0 <= m < at[k] ==> typed[m] != names[k])
    && (forall k, l :: 0 <= k < l < |names| ==> at[k] < at[l])
    && (forall m :: 0 <= m < n ==> typed[m] == "" || typed[m] in names)
  }

  lemma CleanAppend(names: seq<string>, name: string)
    requires CleanNames(names) && name !in names && name != "" && ',' !in name && !HasBlank(name)
    ensures CleanNames(names + [name])
  {
  }

  /** The first i typed names were read into clean names. */
  ghost predicate Gathered(typed: seq<string>, i: nat, names: seq<string>, at: seq<nat>) {
    CleanNames(names) && FirstUpTo(typed, i, names, at)
  }

  lemma GatherSkip(typed: seq<string>, i: nat, names: seq<string>, at: seq<nat>)
    requires i < |typed| && Gathered(typed, i, names, at) && (typed[i] == "" || typed[i] in names)
    ensures Gathered(typed, i + 1, names, at)
  {
  }

  lemma GatherAdd(typed: seq<string>, i: nat, names: seq<string>, at: seq<nat>, name: string)
    requires i < |typed| && Gathered(typed, i, names, at) && name == typed[i]
    requires name != "" && name !in names && ',' !in name && !HasBlank(name)
    ensures Gathered(typed, i + 1, names + [name], at + [i])
  {
    CleanAppend(names, name);
    assert forall m :: 0 <= m < i ==> typed[m] == "" || typed[m] in names;
  }

  /** Trims, checks and deduplicates a list of model names, keeping the first of each. */
  method NormalizeNames(models: string) returns (ok: bool, names: seq<string>, ghost at: seq<nat>)
    ensures ok <==> !NamesBlank(TypedNames(models))
    ensures ok ==> CleanNames(names) && FirstOf(TypedNames(models), names, at)
  {
    ok, names, at := Dedupe(TypedNames(models));
  }

  method Dedupe(typed: seq<string>) returns (ok: bool, names: seq<string>, ghost at: seq<nat>)
    requires forall m :: 0 <= m < |typed| ==> ',' !in typed[m]
    ensures ok <==> !NamesBlank(typed)
    ensures ok ==> CleanNames(names) && FirstOf(typed, names, at)
  {
    names, at := [], [];
    var seen: set<string> := {};
    for i := 0 to |typed|
      invariant (forall n :: n in seen <==> n in names) && Gathered(typed, i, names, at)
      invariant forall m :: 0 <= m < i ==> !HasBlank(typed[m])
    {
      var name := typed[i];
      if name == "" {
        GatherSkip(typed, i, names, at);
        continue;
      }
      if HasBlank(name) {
        return false, names, at;
      }
      if name !in seen {
        GatherAdd(typed, i, names, at, name);
        names, at := names + [name], at + [i];
        seen := seen + {name};
      } else {
        GatherSkip(typed, i, names, at);
      }
    }
    ok := true;
  }

  /** The base URL as it is stored. */
  function NormalURL(provider: string, baseURL: string): string {
    var url := TrimSlashes(TrimSpace(baseURL));
    if provider == "openrouter" && url == "" then "https://openrouter.ai/api/v1" else url
  }

  function NormalProtocol(url: string, protocol: string): string {
    var proto := ToLower(TrimSpace(protocol));
    if url != "" && proto == "" then "openai" else proto
  }

  predicate HasBreak(key: string) {
    exists i :: 0 <= i < |key| && (key[i] == '\r' || key[i] == '\n' || key[i] == '\0')
  }

  /** Some model name was typed. */
  ghost predicate NamesSome(typed: seq<string>) {
    exists m :: 0 <= m < |typed| && typed[m] != ""
  }

  ghost predicate NamesBlank(typed: seq<string>) {
    exists m :: 0 <= m < |typed| && HasBlank(typed[m])
  }

  lemma NamesSomeIff(typed: seq<string>, names: seq<string>, at: seq<nat>)
    requires CleanNames(names) && FirstOf(typed, names, at)
    ensures NamesSome(typed) <==> names != []
  {
    if names != [] {
      assert names[0] in names && typed[at[0]] == names[0];
    }
  }

  predicate FitsEndpoint(provider: string, url: string, proto: string) {
    && (HasPrefix(provider, "custom-") ==> url != "")
    && (provider == "anthropic" || provider == "gemini" ==> url == "")
    && (url == "" <==> proto == "") && (proto != "" ==> proto in PROTOCOLS)
  }

  /** An endpoint a provider may have: a custom one must, two may not, and models and a
      protocol go with an endpoint only. */
  predicate FitsProvider(provider: string, url: string, proto: string, key: string, named: bool) {
    && FitsEndpoint(provider, url, proto)
    && (url == "" <==> !named)
    && (key == "" ==> HasPrefix(provider, "custom-"))
  }

  /** A custom provider needs an endpoint with models and a protocol; the two that have their
      own take neither; any other takes all of them or none. Only a custom one needs no key. */
  lemma ProviderRules(provider: string, url: string, proto: string, key: string, named: bool)
    ensures var whole := url != "" && named && proto in ["openai", "openai-responses", "anthropic", "gemini"];
            var none := url == "" && !named && proto == "";
            FitsProvider(provider, url, proto, key, named) <==>
              if HasPrefix(provider, "custom-") then whole
              else if provider == "anthropic" || provider == "gemini" then none && key != ""
              else (whole || none) && key != ""
  {
    if HasPrefix(provider, "custom-") {
      assert provider[..7][0] == 'c';
    }
  }

  lemma {:induction false} SlashesTrimmed(s: string)
    ensures var r := TrimSlashes(s);
            && |r| <= |s| && r == s[..|r|] && (forall i :: |r| <= i < |s| ==> s[i] == '/') && (r != "" ==> r[|r| - 1] != '/')
  {
    if s != [] && s[|s| - 1] == '/' {
      SlashesTrimmed(s[..|s| - 1]);
    }
  }

  /** The URL loses blanks and closing slashes, and one provider has a URL of its own; the
      protocol is in lower case, and an endpoint without one speaks the first. */
  lemma NormalMeans(provider: string, baseURL: string, url: string, protocol: string)
    ensures var u := TrimSlashes(TrimSpace(baseURL));
            NormalURL(provider, baseURL) == if u != "" || provider != "openrouter" then u else "https://openrouter.ai/api/v1"
    ensures var p := ToLower(TrimSpace(protocol));
            NormalProtocol(url, protocol) == if p != "" || url == "" then p else "openai"
  {
  }

  /** A new account has no default, and one that is gone takes its default and connections. */
  lemma AccountMeans(a: Accounts, owner: Id)
    ensures owner !in a.defaults ==> Apply(a, AddUser(owner)) == Accounts(a.rows, a.defaults[owner := ""])
    ensures owner in a.defaults ==> Apply(a, AddUser(owner)) == a
    ensures var after := Apply(a, DropUser(owner));
            after.defaults == a.defaults - {owner} && forall c :: c in after.rows <==> c in a.rows && c.owner != owner
  {
  }

  /** Settings as they may be stored. `urlOk` is whether the base URL parses as an
      HTTP(S) prefix without credentials, query or fragment. They are accepted exactly
      when they fit the provider, and the stored list of models splits back to the names
      that were typed. */
  method NormalizeProvider(provider: string, baseURL: string, models: string, key: string, protocol: string, urlOk: bool)
    returns (r: Normalized, ghost names: seq<string>, ghost at: seq<nat>)
    ensures r.Valid? <==>
              && ValidProvider(provider) && !HasBreak(key) && (NormalURL(provider, baseURL) == "" || urlOk) && !NamesBlank(TypedNames(models))
              && FitsProvider(provider, NormalURL(provider, baseURL), NormalProtocol(NormalURL(provider, baseURL), protocol), key, NamesSome(TypedNames(models)))
    ensures r.Valid? ==> r.baseURL == NormalURL(provider, baseURL) && r.protocol == NormalProtocol(r.baseURL, protocol)
    ensures r.Valid? ==> CleanNames(names) && FirstOf(TypedNames(models), names, at) && StoredAs(r.models, names) && (r.baseURL == "" <==> names == [])
  {
    names, at := [], [];
    if !ValidProvider(provider) {
      return Invalid, names, at;
    }
    if HasBreak(key) {
      return Invalid, names, at;
    }
    var fits, url, proto := NormalizeEndpoint(provider, baseURL, protocol, urlOk);
    if !fits {
      return Invalid, names, at;
    }
    var ok, list;
    ok, list, at := NormalizeNames(models);
    names := list;
    if !ok {
      return Invalid, names, at;
    }
    NamesSomeIff(TypedNames(models), names, at);
    if (url != "" && |list| == 0) || (url == "" && |list| > 0) {
      return Invalid, names, at;
    }
    if key == "" && !HasPrefix(provider, "custom-") {
      return Invalid, names, at;
    }
    StoredSplitsBack(list);
    return Valid(url, Join(list, ","), proto), names, at;
  }

  /** The part of it that looks at the endpoint and its protocol. */
  method NormalizeEndpoint(provider: string, baseURL: string, protocol: string, urlOk: bool) returns (ok: bool, url: string, proto: string)
    ensures var u := NormalURL(provider, baseURL);
            && (ok <==> (u == "" || urlOk) && FitsEndpoint(provider, u, NormalProtocol(u, protocol)))
            && (ok ==> url == u && proto == NormalProtocol(u, protocol))
  {
    proto := "";
    url := TrimSlashes(TrimSpace(baseURL));
    if provider == "openrouter" && url == "" {
      url := "https://openrouter.ai/api/v1";
    }
    if url != "" && !urlOk {
      return false, url, proto;
    }
    if HasPrefix(provider, "custom-") && url == "" {
      return false, url, proto;
    }
    if url != "" && (provider == "anthropic" || provider == "gemini") {
      return false, url, proto;
    }
    proto := ToLower(TrimSpace(protocol));
    if url == "" && proto != "" {
      return false, url, proto;
    } else if url != "" && proto == "" {
      proto := PROTOCOLS[0];
    } else if proto != "" && proto !in PROTOCOLS {
      return false, url, proto;
    }
    ok := true;
  }

  /** A stored list of models splits back to its names. */
  ghost predicate StoredAs(models: string, names: seq<string>) {
    models == Join(names, ",") && (names != [] ==> Split(models, ',') == names)
  }

  lemma StoredSplitsBack(names: seq<string>)
    requires CleanNames(names)
    ensures StoredAs(Join(names, ","), names)
  {
    if names != [] {
      SplitJoin(names, ',');
    }
  }

  // ----- Model IDs -----

  function UserModelID(provider: string, model: string): ModelId {
    USER_PREFIX + provider + [':'] + model
  }

  /** The stored choice and the seeded row agree only because IDs are unambiguous. */
  lemma UserModelIDInjective(p: string, m: string, q: string, n: string)
    requires ':' !in p && ':' !in q && UserModelID(p, m) == UserModelID(q, n)
    ensures p == q && m == n
  {
    var k := |USER_PREFIX|;
    assert UserModelID(p, m)[k..] == p + [':'] + m && UserModelID(q, n)[k..] == q + [':'] + n;
    CutAround(p, ':', m);
    CutAround(q, ':', n);
  }

  function IdsOf(provider: string, names: seq<string>): (r: seq<ModelId>)
    ensures |r| <= |names|
  {
    if names == [] then []
    else if names[0] == "" then IdsOf(provider, names[1..])
    else [UserModelID(provider, names[0])] + IdsOf(provider, names[1..])
  }

  /** A row that gives its owner models: one with an endpoint. */
  predicate Offers(c: Connection, owner: Id) {
    c.owner == owner && c.baseURL != ""
  }

  function IdsOfRow(c: Connection, owner: Id): seq<ModelId> {
    if Offers(c, owner) then IdsOf(c.provider, Split(c.models, ',')) else []
  }

  /** The models an owner may choose from, in the order they are offered: `rows` is the
      table in that order, newest connection first. */
  function OwnerModelIDs(rows: seq<Connection>, owner: Id): seq<ModelId> {
    IdsUpTo(rows, |rows|, owner)
  }

  /** The models of the first n rows. */
  function IdsUpTo(rows: seq<Connection>, n: nat, owner: Id): seq<ModelId>
    requires n <= |rows|
  {
    Joined(IdsOfEach(rows, owner), n)
  }

  function IdsOfEach(rows: seq<Connection>, owner: Id): (r: seq<seq<ModelId>>)
    ensures |r| == |rows|
  {
    seq(|rows|, i requires 0 <= i < |rows| => IdsOfRow(rows[i], owner))
  }

  lemma OneRowMore(rows: seq<Connection>, n: nat, owner: Id)
    requires n < |rows|
    ensures IdsUpTo(rows, n + 1, owner) == IdsUpTo(rows, n, owner) + IdsOfRow(rows[n], owner)
  {
  }

  lemma {:induction false} IdsAppend(provider: string, a: seq<string>, b: string)
    ensures IdsOf(provider, a + [b]) == IdsOf(provider, a) + (if b == "" then [] else [UserModelID(provider, b)])
  {
    if a != [] {
      assert (a + [b])[1..] == a[1..] + [b];
      IdsAppend(provider, a[1..], b);
    }
  }

  // ----- The connection settings written into a VM -----

  datatype ProviderModel = ProviderModel(provider: string, model: string, baseURL: string, key: string, protocol: string)

  function ModelIdOf(m: ProviderModel): ModelId {
    UserModelID(m.provider, m.model)
  }

  function SeededIds(ms: seq<ProviderModel>): (r: seq<ModelId>)
    ensures |r| == |ms|
  {
    if ms == [] then [] else [ModelIdOf(ms[0])] + SeededIds(ms[1..])
  }

  lemma {:induction false} SeededAppend(ms: seq<ProviderModel>, m: ProviderModel)
    ensures SeededIds(ms + [m]) == SeededIds(ms) + [ModelIdOf(m)]
  {
    if ms != [] {
      assert (ms + [m])[1..] == ms[1..] + [m];
      SeededAppend(ms[1..], m);
    }
  }

  lemma {:induction false} SeededConcat(a: seq<ProviderModel>, b: seq<ProviderModel>)
    ensures SeededIds(a + b) == SeededIds(a) + SeededIds(b)
  {
    if a != [] {
      assert (a + b)[1..] == a[1..] + b;
      SeededConcat(a[1..], b);
    } else {
      assert a + b == b;
    }
  }

  method ModelsOfRow(k: Connection, key: string) returns (ms: seq<ProviderModel>)
    requires k.baseURL != ""
    ensures SeededIds(ms) == IdsOfRow(k, k.owner)
    ensures forall m :: m in ms ==> m.provider == k.provider && m.baseURL == k.baseURL && m.key == key && m.protocol == k.protocol
  {
    var names := Split(k.models, ',');
    ms := [];
    for j := 0 to |names|
      invariant SeededIds(ms) == IdsOf(k.provider, names[..j])
      invariant forall m :: m in ms ==> m.provider == k.provider && m.baseURL == k.baseURL && m.key == key && m.protocol == k.protocol
    {
      IdsAppend(k.provider, names[..j], names[j]);
      assert names[..j + 1] == names[..j] + [names[j]];
      if names[j] != "" {
        var m := ProviderModel(k.provider, names[j], k.baseURL, key, k.protocol);
        SeededAppend(ms, m);
        ms := ms + [m];
      }
    }
    assert names[..|names|] == names;
  }

  /** What is seeded into a VM has, in order, exactly the IDs its owner may choose from.
      `keys` gives the decrypted credential of a row; a missing one is a failure. */
  method ProviderModels(rows: seq<Connection>, owner: Id, keys: map<Id, string>) returns (ok: bool, result: seq<ProviderModel>)
    ensures ok <==> forall i :: 0 <= i < |rows| && Offers(rows[i], owner) ==> rows[i].id in keys
    ensures ok ==> SeededIds(result) == OwnerModelIDs(rows, owner)
  {
    result := [];
    for i := 0 to |rows|
      invariant SeededIds(result) == IdsUpTo(rows, i, owner)
      invariant forall j :: 0 <= j < i && Offers(rows[j], owner) ==> rows[j].id in keys
    {
      OneRowMore(rows, i, owner);
      if !Offers(rows[i], owner) {
        continue;
      }
      if rows[i].id !in keys {
        return false, [];
      }
      var ms := ModelsOfRow(rows[i], keys[rows[i].id]);
      SeededConcat(result, ms);
      result := result + ms;
    }
    ok := true;
  }

  // ----- The stored state -----

  datatype Accounts = Accounts(rows: seq<Connection>, defaults: map<Id, ModelId>)

  predicate SameProvider(c: Connection, owner: Id, provider: string) {
    c.owner == owner && SqlLower(c.provider) == provider
  }

  function Without(rows: seq<Connection>, owner: Id, provider: string): (r: seq<Connection>)
    ensures forall c :: c in r <==> c in rows && !SameProvider(c, owner, provider)
  {
    if rows == [] then []
    else if SameProvider(rows[0], owner, provider) then Without(rows[1..], owner, provider)
    else [rows[0]] + Without(rows[1..], owner, provider)
  }

  /** Inserts a row at the position the listing order gives it. */
  function InsertAt(rows: seq<Connection>, at: nat, c: Connection): seq<Connection> {
    var n := if at <= |rows| then at else |rows|;
    rows[..n] + [c] + rows[n..]
  }

  function Pruned(a: Accounts, owner: Id): Accounts {
    if owner in a.defaults && a.defaults[owner] != "" && a.defaults[owner] !in OwnerModelIDs(a.rows, owner)
    then a.(defaults := a.defaults[owner := ""])
    else a
  }

  /** Pruning empties the owner's default exactly when it is no longer offered, and touches
      nothing else. */
  ghost predicate Prunes(a: Accounts, after: Accounts, owner: Id) {
    && after.rows == a.rows && after.defaults.Keys == a.defaults.Keys
    && (forall u :: u in a.defaults && u != owner ==> after.defaults[u] == a.defaults[u])
    && (owner in a.defaults ==>
          after.defaults[owner] == if a.defaults[owner] in OwnerModelIDs(a.rows, owner) then a.defaults[owner] else "")
  }

  lemma PrunedPrunes(a: Accounts, owner: Id)
    ensures Prunes(a, Pruned(a, owner), owner)
  {
  }

  /** The account's new default is stored if and only if there is such an account and the
      model is offered to it, or is none; nothing else changes. */
  lemma DefaultIsStoredIff(a: Accounts, owner: Id, model: ModelId)
    ensures Apply(a, SetDefault(owner, model)) ==
              if owner in a.defaults && (model == "" || model in OwnerModelIDs(a.rows, owner))
              then Accounts(a.rows, a.defaults[owner := model]) else a
  {
  }

  datatype Change =
    | AddUser(owner: Id)
    | DropUser(owner: Id)
    | Save(id: Id, owner: Id, provider: string, baseURL: string, names: seq<string>, protocol: string, at: nat)
    | CreateKey(id: Id, owner: Id, provider: string, at: nat)
    | DeleteKey(id: Id, scope: string)
    | SetDefault(owner: Id, model: ModelId)

  /** What may reach the database: saved settings have been normalized. */
  predicate Admissible(ch: Change) {
    ch.Save? ==> ValidProvider(ch.provider) && CleanNames(ch.names) && (ch.baseURL == "" <==> ch.names == [])
  }

  function RowOf(ch: Change): Connection
    requires ch.Save?
  {
    Connection(ch.id, ch.owner, ch.provider, ch.baseURL, Join(ch.names, ","), ch.protocol)
  }

  function IndexOfKey(rows: seq<Connection>, id: Id, scope: string): (n: nat)
    ensures n <= |rows| && (n < |rows| ==> rows[n].id == id && (scope == "" || rows[n].owner == scope))
  {
    if rows == [] || (rows[0].id == id && (scope == "" || rows[0].owner == scope)) then 0 else 1 + IndexOfKey(rows[1..], id, scope)
  }

  lemma {:induction false} KeyIsFirst(rows: seq<Connection>, id: Id, scope: string)
    ensures forall i :: 0 <= i < IndexOfKey(rows, id, scope) ==> !(rows[i].id == id && (scope == "" || rows[i].owner == scope))
  {
    if rows != [] && !(rows[0].id == id && (scope == "" || rows[0].owner == scope)) {
      KeyIsFirst(rows[1..], id, scope);
      assert forall i :: 0 < i < |rows| ==> rows[i] == rows[1..][i - 1];
    }
  }

  function RowsOfOthers(rows: seq<Connection>, owner: Id): (r: seq<Connection>)
    ensures forall c :: c in r <==> c in rows && c.owner != owner
  {
    if rows == [] then [] else if rows[0].owner == owner then RowsOfOthers(rows[1..], owner) else [rows[0]] + RowsOfOthers(rows[1..], owner)
  }

  function Apply(a: Accounts, ch: Change): Accounts {
    match ch
    case AddUser(owner) => if owner in a.defaults then a else a.(defaults := a.defaults[owner := ""])
    case DropUser(owner) => Accounts(RowsOfOthers(a.rows, owner), a.defaults - {owner})
    case Save(_, owner, provider, _, _, _, at) =>
      Pruned(a.(rows := InsertAt(Without(a.rows, owner, provider), at, RowOf(ch))), owner)
    case CreateKey(id, owner, provider, at) => a.(rows := InsertAt(a.rows, at, Connection(id, owner, provider, "", "", "")))
    case DeleteKey(id, scope) =>
      var n := IndexOfKey(a.rows, id, scope);
      if n == |a.rows| then a
      else Pruned(a.(rows := a.rows[..n] + a.rows[n + 1..]), a.rows[n].owner)
    case SetDefault(owner, model) =>
      if owner in a.defaults && (model == "" || model in OwnerModelIDs(a.rows, owner)) then a.(defaults := a.defaults[owner := model])
      else a
  }

  /** The store's transactions as the code runs them. */
  class ProviderStore {
    var accounts: Accounts

    constructor ()
      ensures accounts == Accounts([], map[])
    {
      accounts := Accounts([], map[]);
    }

    method PruneDefaultModel(owner: Id)
      modifies this
      ensures accounts == Pruned(old(accounts), owner) && Prunes(old(accounts), accounts, owner)
    {
      PrunedPrunes(accounts, owner);
      var ids := OwnerModelIDs(accounts.rows, owner);
      if owner !in accounts.defaults {
        return;
      }
      var current := accounts.defaults[owner];
      if current == "" || current in ids {
        return;
      }
      accounts := accounts.(defaults := accounts.defaults[owner := ""]);
    }

    /** The new row holds the typed settings as they are normalized; it takes the place of
        the owner's row for that provider and the default is pruned with it. */
    method SaveProviderKey(id: Id, owner: Id, provider: string, key: string, baseURL: string, models: string, protocol: string, urlOk: bool, at: nat)
      returns (ok: bool, ghost ch: Change, ghost first: seq<nat>)
      modifies this
      ensures ok ==> ch.Save? && ch == Save(id, owner, provider, NormalURL(provider, baseURL), ch.names, NormalProtocol(ch.baseURL, protocol), at)
      ensures ok ==> Admissible(ch) && FirstOf(TypedNames(models), ch.names, first) && accounts == Apply(old(accounts), ch)
      ensures ok ==> forall c :: c in accounts.rows <==> c == RowOf(ch) || (c in old(accounts).rows && !(c.owner == owner && SqlLower(c.provider) == provider))
      ensures ok ==> Prunes(Accounts(accounts.rows, old(accounts).defaults), accounts, owner)
      ensures !ok ==> accounts == old(accounts)
    {
      ch := AddUser(owner);
      var n;
      ghost var names;
      n, names, first := NormalizeProvider(provider, baseURL, models, key, protocol, urlOk);
      if n.Invalid? {
        return false, ch, first;
      }
      ch := Save(id, owner, provider, n.baseURL, names, n.protocol, at);
      accounts := accounts.(rows := Without(accounts.rows, owner, provider));
      accounts := accounts.(rows := InsertAt(accounts.rows, at, Connection(id, owner, provider, n.baseURL, n.models, n.protocol)));
      InsertMembers(Without(old(accounts).rows, owner, provider), at, RowOf(ch));
      PruneDefaultModel(owner);
      ok := true;
    }

    method DeleteAPIKey(id: Id, scope: string) returns (found: bool)
      modifies this
      ensures accounts == Apply(old(accounts), DeleteKey(id, scope))
      ensures found <==> exists i :: 0 <= i < |old(accounts).rows| && old(accounts).rows[i].id == id && (scope == "" || old(accounts).rows[i].owner == scope)
      ensures !found ==> accounts == old(accounts)
      ensures found ==> var n := IndexOfKey(old(accounts).rows, id, scope);
                && n < |old(accounts).rows| && accounts.rows == old(accounts).rows[..n] + old(accounts).rows[n + 1..]
                && Prunes(Accounts(accounts.rows, old(accounts).defaults), accounts, old(accounts).rows[n].owner)
    {
      KeyIsFirst(accounts.rows, id, scope);
      var n := IndexOfKey(accounts.rows, id, scope);
      if n == |accounts.rows| {
        return false;
      }
      var owner := accounts.rows[n].owner;
      accounts := accounts.(rows := accounts.rows[..n] + accounts.rows[n + 1..]);
      PruneDefaultModel(owner);
      found := true;
    }

    /** Checks after writing, inside one transaction, so that a refusal undoes the write. */
    method SetUserDefaultModel(owner: Id, model: ModelId) returns (ok: bool)
      modifies this
      ensures accounts == Apply(old(accounts), SetDefault(owner, model))
      ensures ok <==> owner in old(accounts).defaults && (model == "" || model in OwnerModelIDs(old(accounts).rows, owner))
      ensures accounts == if ok then Accounts(old(accounts).rows, old(accounts).defaults[owner := model]) else old(accounts)
    {
      var begun := accounts;
      if owner !in accounts.defaults {
        return false;
      }
      accounts := accounts.(defaults := accounts.defaults[owner := model]);
      if model != "" && model !in OwnerModelIDs(accounts.rows, owner) {
        accounts := begun;
        return false;
      }
      ok := true;
    }
  }

  // ----- What every reachable state keeps -----

  /** A connection with an endpoint stores a clean list under a valid provider. */
  ghost predicate CleanRow(c: Connection) {
    c.baseURL != "" ==> ValidProvider(c.provider) && exists names :: names != [] && CleanNames(names) && c.models == Join(names, ",")
  }

  ghost predicate Clashes(c: Connection, e: Connection) {
    c.baseURL != "" && e.baseURL != "" && c.owner == e.owner && c.provider == e.provider
  }

  /** No owner has two endpoints under one provider. */
  ghost predicate OneEndpointEach(rows: seq<Connection>) {
    forall i, j :: 0 <= i < j < |rows| ==> !Clashes(rows[i], rows[j])
  }

  ghost predicate Clean(rows: seq<Connection>) {
    OneEndpointEach(rows) && forall c :: c in rows ==> CleanRow(c)
  }

  /** Every stored default is empty or a model its owner can reach. */
  ghost predicate DefaultsReachable(a: Accounts) {
    forall u :: u in a.defaults ==> a.defaults[u] == "" || a.defaults[u] in OwnerModelIDs(a.rows, u)
  }

  ghost predicate Sound(a: Accounts) {
    Clean(a.rows) && DefaultsReachable(a)
  }

  /** What is offered: exactly the named models of the owner's endpoints. */
  lemma {:induction false} IdsMembers(provider: string, names: seq<string>, id: ModelId)
    ensures id in IdsOf(provider, names) <==> exists n :: n in names && n != "" && id == UserModelID(provider, n)
  {
    if names != [] {
      IdsMembers(provider, names[1..], id);
      assert names == [names[0]] + names[1..];
    }
  }

  lemma OfferedFrom(rows: seq<Connection>, n: nat, owner: Id, id: ModelId) returns (i: nat)
    requires n <= |rows| && id in IdsUpTo(rows, n, owner)
    ensures i < n && id in IdsOfRow(rows[i], owner)
  {
    var parts := IdsOfEach(rows, owner);
    JoinedHas(parts, n, id);
    i :| i < n && id in parts[i];
  }

  lemma OfferedBy(rows: seq<Connection>, n: nat, owner: Id, id: ModelId, i: nat)
    requires i < n <= |rows| && id in IdsOfRow(rows[i], owner)
    ensures id in IdsUpTo(rows, n, owner)
  {
    var parts := IdsOfEach(rows, owner);
    assert id in parts[i];
    JoinedHas(parts, n, id);
  }

  /** A model of this ID is named by a connection of the owner's that has an endpoint. */
  ghost predicate NamedBy(c: Connection, owner: Id, id: ModelId) {
    c.owner == owner && c.baseURL != "" && exists n :: n in Split(c.models, ',') && n != "" && id == "svkexe_user:" + c.provider + [':'] + n
  }

  /** What an owner may choose from is exactly what their connections name. */
  lemma OfferedIff(rows: seq<Connection>, owner: Id, id: ModelId)
    ensures id in OwnerModelIDs(rows, owner) <==> exists i :: 0 <= i < |rows| && NamedBy(rows[i], owner, id)
  {
    if id in OwnerModelIDs(rows, owner) {
      var i := OfferedFrom(rows, |rows|, owner, id);
      RowNames(rows[i], owner, id);
    }
    if i: nat :| i < |rows| && NamedBy(rows[i], owner, id) {
      RowNames(rows[i], owner, id);
      OfferedBy(rows, |rows|, owner, id, i);
    }
  }

  lemma RowNames(c: Connection, owner: Id, id: ModelId)
    ensures id in IdsOfRow(c, owner) <==> NamedBy(c, owner, id)
  {
    IdsMembers(c.provider, Split(c.models, ','), id);
  }

  lemma {:induction false} IdsDistinct(provider: string, names: seq<string>)
    requires ':' !in provider && Distinct(names)
    ensures Distinct(IdsOf(provider, names))
  {
    if names != [] {
      IdsDistinct(provider, names[1..]);
      if names[0] != "" {
        var id := UserModelID(provider, names[0]);
        IdsMembers(provider, names[1..], id);
        if n :| n in names[1..] && n != "" && id == UserModelID(provider, n) {
          UserModelIDInjective(provider, names[0], provider, n);
          assert false;
        }
      }
    }
  }

  lemma RowIdsDistinct(c: Connection, owner: Id)
    requires CleanRow(c)
    ensures Distinct(IdsOfRow(c, owner))
  {
    if c.owner == owner && c.baseURL != "" {
      var names :| names != [] && CleanNames(names) && c.models == Join(names, ",");
      SplitJoin(names, ',');
      ProviderIsPlain(c.provider);
      IdsDistinct(c.provider, names);
    }
  }

  lemma RowsOfferDifferentModels(c: Connection, e: Connection, owner: Id, id: ModelId)
    requires CleanRow(c) && CleanRow(e) && !Clashes(c, e)
    requires id in IdsOfRow(c, owner)
    ensures id !in IdsOfRow(e, owner)
  {
    if id in IdsOfRow(e, owner) {
      IdsMembers(c.provider, Split(c.models, ','), id);
      IdsMembers(e.provider, Split(e.models, ','), id);
      var m :| m in Split(c.models, ',') && id == UserModelID(c.provider, m);
      var n :| n in Split(e.models, ',') && id == UserModelID(e.provider, n);
      ProviderIsPlain(c.provider);
      ProviderIsPlain(e.provider);
      UserModelIDInjective(c.provider, m, e.provider, n);
    }
  }

  /** No model is offered twice. */
  lemma OfferedOnce(rows: seq<Connection>, owner: Id)
    requires Clean(rows)
    ensures Distinct(OwnerModelIDs(rows, owner))
  {
    var parts := IdsOfEach(rows, owner);
    forall i | 0 <= i < |parts| ensures Distinct(parts[i]) {
      assert rows[i] in rows;
      RowIdsDistinct(rows[i], owner);
    }
    forall i, j, id | 0 <= i < j < |parts| && id in parts[i] ensures id !in parts[j] {
      assert rows[i] in rows && rows[j] in rows;
      RowsOfferDifferentModels(rows[i], rows[j], owner, id);
    }
    JoinedDistinct(parts, |parts|);
  }

  /** Another owner's rows, and rows without an endpoint, offer nothing. */
  lemma ReachableKept(rows: seq<Connection>, after: seq<Connection>, owner: Id, id: ModelId)
    requires forall c :: c in rows && c.owner == owner && c.baseURL != "" ==> c in after
    requires id in OwnerModelIDs(rows, owner)
    ensures id in OwnerModelIDs(after, owner)
  {
    var i := OfferedFrom(rows, |rows|, owner, id);
    assert rows[i] in rows && rows[i] in after;
    var j :| 0 <= j < |after| && after[j] == rows[i];
    OfferedBy(after, |after|, owner, id, j);
  }

  lemma InsertMembers(rows: seq<Connection>, at: nat, c: Connection)
    ensures forall x :: x in InsertAt(rows, at, c) <==> x in rows || x == c
  {
    var n := if at <= |rows| then at else |rows|;
    assert rows == rows[..n] + rows[n..];
  }

  lemma InsertionKeeps(rows: seq<Connection>, n: nat, c: Connection)
    requires n <= |rows| && OneEndpointEach(rows) && forall e :: e in rows ==> !Clashes(c, e)
    ensures OneEndpointEach(rows[..n] + [c] + rows[n..])
  {
    var after := rows[..n] + [c] + rows[n..];
    forall i, j | 0 <= i < j < |after| ensures !Clashes(after[i], after[j]) {
      var x, y := if i < n then i else i - 1, if j < n then j else j - 1;
      if i == n {
        assert after[j] == rows[y] && rows[y] in rows;
      } else if j == n {
        assert after[i] == rows[x] && rows[x] in rows;
      } else {
        assert after[i] == rows[x] && after[j] == rows[y];
      }
    }
  }

  lemma InsertKeepsClean(rows: seq<Connection>, at: nat, c: Connection)
    requires Clean(rows) && CleanRow(c) && forall e :: e in rows ==> !Clashes(c, e)
    ensures Clean(InsertAt(rows, at, c))
  {
    InsertMembers(rows, at, c);
    InsertionKeeps(rows, if at <= |rows| then at else |rows|, c);
  }

  lemma {:induction false} WithoutKeeps(rows: seq<Connection>, owner: Id, provider: string)
    requires OneEndpointEach(rows)
    ensures OneEndpointEach(Without(rows, owner, provider))
  {
    if rows != [] {
      WithoutKeeps(rows[1..], owner, provider);
      FirstKeeps(rows, Without(rows[1..], owner, provider));
    }
  }

  lemma {:induction false} OthersKeep(rows: seq<Connection>, owner: Id)
    requires OneEndpointEach(rows)
    ensures OneEndpointEach(RowsOfOthers(rows, owner))
  {
    if rows != [] {
      OthersKeep(rows[1..], owner);
      FirstKeeps(rows, RowsOfOthers(rows[1..], owner));
    }
  }

  lemma FirstKeeps(rows: seq<Connection>, rest: seq<Connection>)
    requires rows != [] && OneEndpointEach(rows) && OneEndpointEach(rest) && forall c :: c in rest ==> c in rows[1..]
    ensures OneEndpointEach([rows[0]] + rest)
  {
    forall j | 0 <= j < |rest| ensures !Clashes(rows[0], rest[j]) {
      assert rest[j] in rows[1..];
    }
  }

  lemma DeletionKeeps(rows: seq<Connection>, n: nat)
    requires n < |rows| && OneEndpointEach(rows)
    ensures OneEndpointEach(rows[..n] + rows[n + 1..])
  {
  }

  lemma PrunedIsSound(a: Accounts, owner: Id)
    requires Clean(a.rows)
    requires forall u :: u in a.defaults && u != owner ==> a.defaults[u] == "" || a.defaults[u] in OwnerModelIDs(a.rows, u)
    ensures Sound(Pruned(a, owner))
  {
  }

  lemma SaveIsSound(a: Accounts, ch: Change)
    requires Sound(a) && ch.Save? && Admissible(ch)
    ensures Sound(Apply(a, ch))
  {
    var kept, row := Without(a.rows, ch.owner, ch.provider), RowOf(ch);
    var rows := InsertAt(kept, ch.at, row);
    ProviderIsPlain(ch.provider);
    WithoutKeeps(a.rows, ch.owner, ch.provider);
    InsertKeepsClean(kept, ch.at, row);
    InsertMembers(kept, ch.at, row);
    forall u | u in a.defaults && u != ch.owner && a.defaults[u] != "" ensures a.defaults[u] in OwnerModelIDs(rows, u) {
      ReachableKept(a.rows, rows, u, a.defaults[u]);
    }
    PrunedIsSound(a.(rows := rows), ch.owner);
  }

  lemma DeleteIsSound(a: Accounts, ch: Change)
    requires Sound(a) && ch.DeleteKey?
    ensures Sound(Apply(a, ch))
  {
    var n := IndexOfKey(a.rows, ch.id, ch.scope);
    if n < |a.rows| {
      var rows := a.rows[..n] + a.rows[n + 1..];
      assert a.rows == a.rows[..n] + [a.rows[n]] + a.rows[n + 1..];
      DeletionKeeps(a.rows, n);
      forall u | u in a.defaults && u != a.rows[n].owner && a.defaults[u] != "" ensures a.defaults[u] in OwnerModelIDs(rows, u) {
        ReachableKept(a.rows, rows, u, a.defaults[u]);
      }
      PrunedIsSound(a.(rows := rows), a.rows[n].owner);
    }
  }

  lemma DropIsSound(a: Accounts, owner: Id)
    requires Sound(a)
    ensures Sound(Apply(a, DropUser(owner)))
  {
    var rows := RowsOfOthers(a.rows, owner);
    OthersKeep(a.rows, owner);
    forall u | u in a.defaults && u != owner && a.defaults[u] != "" ensures a.defaults[u] in OwnerModelIDs(rows, u) {
      ReachableKept(a.rows, rows, u, a.defaults[u]);
    }
  }

  lemma ApplyIsSound(a: Accounts, ch: Change)
    requires Sound(a) && Admissible(ch)
    ensures Sound(Apply(a, ch))
  {
    match ch {
      case AddUser(owner) =>
      case DropUser(owner) => DropIsSound(a, owner);
      case Save(_, _, _, _, _, _, _) => SaveIsSound(a, ch);
      case CreateKey(id, owner, provider, at) =>
        var row := Connection(id, owner, provider, "", "", "");
        InsertKeepsClean(a.rows, at, row);
        InsertMembers(a.rows, at, row);
        forall u | u in a.defaults && a.defaults[u] != "" ensures a.defaults[u] in OwnerModelIDs(InsertAt(a.rows, at, row), u) {
          ReachableKept(a.rows, InsertAt(a.rows, at, row), u, a.defaults[u]);
        }
      case DeleteKey(_, _) => DeleteIsSound(a, ch);
      case SetDefault(owner, model) =>
    }
  }

  function After(changes: seq<Change>): Accounts
    decreases |changes|
  {
    if changes == [] then Accounts([], map[]) else Apply(After(changes[..|changes| - 1]), changes[|changes| - 1])
  }

  /** In every reachable state each default is empty or reachable, and the models an
      owner is offered are free of duplicates. */
  lemma {:induction false} EveryHistoryIsSound(changes: seq<Change>, owner: Id)
    requires forall i :: 0 <= i < |changes| ==> Admissible(changes[i])
    ensures Sound(After(changes)) && Distinct(OwnerModelIDs(After(changes).rows, owner))
    decreases |changes|
  {
    if changes != [] {
      EveryHistoryIsSound(changes[..|changes| - 1], owner);
      ApplyIsSound(After(changes[..|changes| - 1]), changes[|changes| - 1]);
    }
    OfferedOnce(After(changes).rows, owner);
  }
}
