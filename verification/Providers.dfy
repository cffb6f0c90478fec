/** notifyfork/core/infrastructure/container/providers.py: provider ordering and the cached registry,
    and what the use case needs to know of a provider. */
module Providers {
  import opened Wrappers
  import Text
  import opened Templates

  /** `channels` is None for a duck-typed provider that has no `supports` method;
      `external` tells whether the provider handles EXTERNAL templates itself. */
  datatype Provider = Provider(name: string, channels: Option<seq<string>>, external: bool)
  {
    predicate Supports(channel: string) {
      channels.Some? && channel in channels.value
    }
  }

  /** What a call of `send_with_template` ends in. */
  datatype Outcome = Raised(message: string) | Rejected(error: Option<string>) | Accepted(externalId: Option<string>)

  /** A provider that handles EXTERNAL templates passes their id on; everything else is rendered first,
      which raises on an EXTERNAL template before the vendor is called. */
  function SendWithTemplate(p: Provider, t: Template, vendor: Outcome): Outcome {
    var content := if p.external && t.mode.External? then ExternalTemplateId(t) else LocalBody(t);
    if content.Failure? then Raised(content.error) else vendor
  }

  /** The provider's call gets as far as its vendor: it handles the mode of the template. */
  predicate Handles(p: Provider, t: Template) {
    t.mode.Local? || p.external
  }

  function SendGridEmail(): Provider { Provider("sendgrid_email", Some(["email", "sendgrid_email"]), true) }
  function TwilioWhatsApp(): Provider { Provider("twilio_whatsapp", Some(["whatsapp", "twilio_whatsapp"]), true) }

  function BuiltIns(): set<Provider> {
    { Provider("twilio_sms", Some(["sms", "twilio_sms"]), false),
      TwilioWhatsApp(),
      SendGridEmail(),
      Provider("resend_email", Some(["email", "resend_email"]), false),
      Provider("smtp_email", Some(["email", "smtp_email"]), false),
      Provider("firebase_push", Some(["push", "firebase_push"]), false),
      Provider("slack", Some(["slack"]), false) }
  }

  const DEFAULT_PROVIDER_ORDER := [
    "twilio_sms", "twilio_whatsapp", "sendgrid_email", "resend_email", "smtp_email", "firebase_push", "slack"]

  // ----- _ordered -----

  function StripAll(names: seq<string>): seq<string> {
    seq(|names|, i requires 0 <= i < |names| => Text.Strip(names[i]))
  }

  /** NOTIFYFORK_PROVIDER_ORDER, or the default when unset or empty. */
  function Order(raw: Option<string>): seq<string> {
    if raw.Some? && raw.value != "" then StripAll(Text.Split(raw.value, ',')) else DEFAULT_PROVIDER_ORDER
  }

  /** A configured variable is read in full and in order: its names, each with white space around it, joined by commas. */
  lemma OrderReadsVariable(raw: string) returns (parts: seq<string>)
    requires raw != ""
    ensures |parts| == |Order(Some(raw))| >= 1 && Text.Join(parts, ',') == raw
    ensures forall i :: 0 <= i < |parts| ==>
      ',' !in parts[i] && Text.Pads(parts[i], Order(Some(raw))[i]) && Text.IsStripped(Order(Some(raw))[i])
  {
    parts := Text.Split(raw, ',');
    Text.SplitThenJoin(raw, ',');
    forall i | 0 <= i < |parts|
      ensures ',' !in parts[i] && Text.Pads(parts[i], Order(Some(raw))[i]) && Text.IsStripped(Order(Some(raw))[i])
    {
      assert parts[i] in parts;
      Text.StripPads(parts[i]);
    }
  }

  /** Without the variable, or with an empty one, providers fall back in this order. */
  lemma OrderWithoutVariable(raw: Option<string>)
    requires raw in {None, Some("")}
    ensures Order(raw) ==
      ["twilio_sms", "twilio_whatsapp", "sendgrid_email", "resend_email", "smtp_email", "firebase_push", "slack"]
  {
  }

  /** Every configured name is stripped and holds no comma; the default order has no repetition
      and names exactly the built-in providers. */
  lemma OrderIsClean(raw: Option<string>)
    ensures raw.Some? && raw.value != "" ==> forall name :: name in Order(raw) ==> Text.Strip(name) == name && ',' !in name
    ensures !(raw.Some? && raw.value != "") ==>
      NoRepeats(Order(raw)) && forall name :: name in Order(raw) <==> exists p :: p in BuiltIns() && p.name == name
  {
    if raw.Some? && raw.value != "" {
      forall name | name in Order(raw)
        ensures Text.Strip(name) == name && ',' !in name
      {
        var i :| 0 <= i < |Text.Split(raw.value, ',')| && name == Text.Strip(Text.Split(raw.value, ',')[i]);
        ConfiguredNameIsClean(raw.value, i);
      }
    } else {
      DefaultOrderNamesBuiltIns();
      DefaultOrderHasNoRepeats();
    }
  }

  lemma ConfiguredNameIsClean(raw: string, i: nat)
    requires i < |Text.Split(raw, ',')|
    ensures var name := Text.Strip(Text.Split(raw, ',')[i]);
      Text.Strip(name) == name && ',' !in name
  {
    var parts := Text.Split(raw, ',');
    assert ',' !in parts[i] by {
      Text.SplitThenJoin(raw, ',');
      assert parts[i] in parts;
    }
    Text.StripAddsNothing(parts[i], ',');
    Text.StripTwice(parts[i]);
  }

  lemma DefaultOrderHasNoRepeats()
    ensures NoRepeats(DEFAULT_PROVIDER_ORDER)
  {
    var order := DEFAULT_PROVIDER_ORDER;
    assert |order[0]| == 10 && |order[1]| == 15 && |order[2]| == 14 && |order[3]| == 12;
    assert |order[4]| == 10 && |order[5]| == 13 && |order[6]| == 5 && order[0][0] != order[4][0];
  }

  lemma DefaultOrderNamesBuiltIns()
    ensures forall name :: name in DEFAULT_PROVIDER_ORDER <==> exists p :: p in BuiltIns() && p.name == name
  {
    forall name | name in DEFAULT_PROVIDER_ORDER
      ensures exists p :: p in BuiltIns() && p.name == name
    {
      assert Provider("twilio_sms", Some(["sms", "twilio_sms"]), false) in BuiltIns();
      assert TwilioWhatsApp() in BuiltIns() && SendGridEmail() in BuiltIns();
      assert Provider("resend_email", Some(["email", "resend_email"]), false) in BuiltIns();
      assert Provider("smtp_email", Some(["email", "smtp_email"]), false) in BuiltIns();
      assert Provider("firebase_push", Some(["push", "firebase_push"]), false) in BuiltIns();
      assert Provider("slack", Some(["slack"]), false) in BuiltIns();
    }
    assert DEFAULT_PROVIDER_ORDER[0] == "twilio_sms" && DEFAULT_PROVIDER_ORDER[1] == "twilio_whatsapp";
    assert DEFAULT_PROVIDER_ORDER[2] == "sendgrid_email" && DEFAULT_PROVIDER_ORDER[3] == "resend_email";
    assert DEFAULT_PROVIDER_ORDER[4] == "smtp_email" && DEFAULT_PROVIDER_ORDER[5] == "firebase_push";
    assert DEFAULT_PROVIDER_ORDER[6] == "slack";
  }

  /** `by_name.get(name)`: the last provider registered under the name. */
  function ByName(providers: seq<Provider>, name: string): (r: Option<Provider>)
    ensures r.Some? ==> r.value in providers && r.value.name == name
    ensures r.None? ==> forall p :: p in providers ==> p.name != name
  {
    if providers == [] then None
    else
      var last := providers[|providers| - 1];
      if last.name == name then Some(last) else ByName(providers[..|providers| - 1], name)
  }

  /** The provider is registered, and nothing of its name after it. */
  ghost predicate LastOfName(providers: seq<Provider>, p: Provider) {
    exists k :: 0 <= k < |providers| && providers[k] == p && forall j :: k < j < |providers| ==> providers[j].name != p.name
  }

  lemma {:induction false} ByNameIsLast(providers: seq<Provider>, p: Provider)
    ensures ByName(providers, p.name) == Some(p) <==> LastOfName(providers, p)
  {
    if providers == [] {
    } else {
      var n := |providers| - 1;
      if providers[n].name == p.name {
        if LastOfName(providers, p) {
          var k :| 0 <= k < |providers| && providers[k] == p && forall j :: k < j < |providers| ==> providers[j].name != p.name;
          assert k == n;
        }
      } else {
        ByNameIsLast(providers[..n], p);
        LastOfPrefix(providers, p);
      }
    }
  }

  lemma LastOfPrefix(providers: seq<Provider>, p: Provider)
    requires providers != [] && providers[|providers| - 1].name != p.name
    ensures LastOfName(providers, p) <==> LastOfName(providers[..|providers| - 1], p)
  {
    var shorter := providers[..|providers| - 1];
    if k :| 0 <= k < |providers| && providers[k] == p && forall j :: k < j < |providers| ==> providers[j].name != p.name {
      assert shorter[k] == p && forall j :: k < j < |shorter| ==> shorter[j].name != p.name;
    }
    if k :| 0 <= k < |shorter| && shorter[k] == p && forall j :: k < j < |shorter| ==> shorter[j].name != p.name {
      assert providers[k] == p && forall j :: k < j < |providers| ==> providers[j].name != p.name;
    }
  }

  function Listed(order: seq<string>, providers: seq<Provider>): seq<Provider> {
    if order == [] then []
    else
      var found := ByName(providers, order[0]);
      (if found.Some? then [found.value] else []) + Listed(order[1..], providers)
  }

  function Unlisted(order: seq<string>, providers: seq<Provider>): seq<Provider> {
    if providers == [] then []
    else (if providers[0].name in order then [] else [providers[0]]) + Unlisted(order, providers[1..])
  }

  function Ordered(order: seq<string>, providers: seq<Provider>): seq<Provider> {
    Listed(order, providers) + Unlisted(order, providers)
  }

  /** How often a provider comes out, for every order list and registration, duplicates included:
      a listed name gives its last provider once per listing, and its other providers never. */
  lemma {:induction false} OrderedMultiplicity(order: seq<string>, providers: seq<Provider>, p: Provider)
    ensures multiset(Ordered(order, providers))[p] ==
      if p.name !in order then multiset(providers)[p]
      else if LastOfName(providers, p) then multiset(order)[p.name] else 0
  {
    ByNameIsLast(providers, p);
    ListedMultiplicity(order, providers, p);
    UnlistedMultiplicity(order, providers, p);
    assert multiset(Ordered(order, providers)) == multiset(Listed(order, providers)) + multiset(Unlisted(order, providers));
    assert p.name in order <==> p.name in multiset(order);
  }

  lemma {:induction false} ListedMultiplicity(order: seq<string>, providers: seq<Provider>, p: Provider)
    ensures multiset(Listed(order, providers))[p] ==
      if ByName(providers, p.name) == Some(p) then multiset(order)[p.name] else 0
  {
    if order == [] {
    } else {
      ListedMultiplicity(order[1..], providers, p);
      var found := ByName(providers, order[0]);
      var head := if found.Some? then [found.value] else [];
      assert order == [order[0]] + order[1..];
      assert multiset(order) == multiset{order[0]} + multiset(order[1..]);
      assert multiset(Listed(order, providers)) == multiset(head) + multiset(Listed(order[1..], providers));
    }
  }

  lemma {:induction false} UnlistedMultiplicity(order: seq<string>, providers: seq<Provider>, p: Provider)
    ensures multiset(Unlisted(order, providers))[p] == if p.name in order then 0 else multiset(providers)[p]
  {
    if providers == [] {
    } else {
      UnlistedMultiplicity(order, providers[1..], p);
      var head := if providers[0].name in order then [] else [providers[0]];
      assert providers == [providers[0]] + providers[1..];
      assert multiset(providers) == multiset{providers[0]} + multiset(providers[1..]);
      assert multiset(Unlisted(order, providers)) == multiset(head) + multiset(Unlisted(order, providers[1..]));
    }
  }

  /** No provider is lost or repeated exactly when each registered listed name
      is listed as often as it is registered, always by equal providers. */
  lemma OrderedIsPermutationIff(order: seq<string>, providers: seq<Provider>)
    ensures multiset(Ordered(order, providers)) == multiset(providers) <==>
      forall p :: p in providers && p.name in order ==>
        LastOfName(providers, p) && multiset(order)[p.name] == multiset(providers)[p]
  {
    var result := multiset(Ordered(order, providers));
    forall p
      ensures result[p] == if p.name !in order then multiset(providers)[p]
        else if LastOfName(providers, p) then multiset(order)[p.name] else 0
    {
      OrderedMultiplicity(order, providers, p);
    }
    if forall p :: p in providers && p.name in order ==>
        LastOfName(providers, p) && multiset(order)[p.name] == multiset(providers)[p]
    {
      forall p
        ensures result[p] == multiset(providers)[p]
      {
        if p !in providers {
          assert multiset(providers)[p] == 0;
        }
      }
    } else {
      var p :| p in providers && p.name in order
        && !(LastOfName(providers, p) && multiset(order)[p.name] == multiset(providers)[p]);
      assert multiset(providers)[p] > 0;
      assert result[p] != multiset(providers)[p];
    }
  }

  ghost predicate DistinctNames(providers: seq<Provider>) {
    forall i, j :: 0 <= i < j < |providers| ==> providers[i].name != providers[j].name
  }

  ghost predicate NoRepeats(order: seq<string>) {
    forall i, j :: 0 <= i < j < |order| ==> order[i] != order[j]
  }

  function Position(order: seq<string>, name: string): (i: nat)
    ensures i <= |order|
    ensures i < |order| ==> order[i] == name
    ensures forall j :: 0 <= j < i ==> order[j] != name
  {
    FirstIndex(order, listed => listed == name)
  }

  function Names(providers: seq<Provider>): seq<string> {
    seq(|providers|, i requires 0 <= i < |providers| => providers[i].name)
  }

  /** Fallback rank: position in the order list, and after all listed names the position of registration. */
  function Rank(order: seq<string>, providers: seq<Provider>, p: Provider): nat {
    var i := Position(order, p.name);
    if i < |order| then i else |order| + Position(Names(providers), p.name)
  }

  ghost predicate SortedByRank(order: seq<string>, providers: seq<Provider>, result: seq<Provider>) {
    forall i, j :: 0 <= i < j < |result| ==>
      Rank(order, providers, result[i]) < Rank(order, providers, result[j])
  }

  /** With distinct names and no repeated entry, the result is the registered providers in rank order. */
  lemma OrderedSortsByRank(order: seq<string>, providers: seq<Provider>)
    requires DistinctNames(providers) && NoRepeats(order)
    ensures SortedByRank(order, providers, Ordered(order, providers))
    ensures forall p :: p in Ordered(order, providers) <==> p in providers
  {
    forall p
      ensures p in Ordered(order, providers) <==> p in providers
    {
      OrderedMember(order, providers, p);
    }
    ListedSorted(order, 0, providers);
    UnlistedSorted(order, 0, providers);
    assert order[0..] == order && providers[0..] == providers;
    ListedFirst(order, providers, Listed(order, providers), Unlisted(order, providers));
  }

  lemma ListedFirst(order: seq<string>, providers: seq<Provider>, listed: seq<Provider>, unlisted: seq<Provider>)
    requires SortedByRank(order, providers, listed) && SortedByRank(order, providers, unlisted)
    requires forall p :: p in listed ==> Position(order, p.name) < |order|
    requires forall p :: p in unlisted ==> Position(order, p.name) == |order|
    ensures SortedByRank(order, providers, listed + unlisted)
  {
  }

  lemma OrderedMember(order: seq<string>, providers: seq<Provider>, p: Provider)
    requires DistinctNames(providers)
    ensures p in Ordered(order, providers) <==> p in providers
  {
    OrderedMultiplicity(order, providers, p);
    ByNameIsLast(providers, p);
    LastIsOnly(providers, p);
    assert p in Ordered(order, providers) <==> multiset(Ordered(order, providers))[p] > 0;
    assert p in providers <==> multiset(providers)[p] > 0;
    assert p.name in order <==> multiset(order)[p.name] > 0;
  }

  lemma {:induction false} LastIsOnly(providers: seq<Provider>, p: Provider)
    requires DistinctNames(providers)
    ensures ByName(providers, p.name) == Some(p) <==> p in providers
  {
  }

  lemma SortedCons(order: seq<string>, providers: seq<Provider>, p: Provider, rest: seq<Provider>)
    requires SortedByRank(order, providers, rest)
    requires forall q :: q in rest ==> Rank(order, providers, p) < Rank(order, providers, q)
    ensures SortedByRank(order, providers, [p] + rest)
  {
    var all := [p] + rest;
    forall i, j | 0 <= i < j < |all|
      ensures Rank(order, providers, all[i]) < Rank(order, providers, all[j])
    {
      assert all[j] == rest[j - 1];
      assert i > 0 ==> all[i] == rest[i - 1];
    }
  }

  lemma {:induction false} ListedSorted(order: seq<string>, from: nat, providers: seq<Provider>)
    requires from <= |order| && NoRepeats(order)
    ensures SortedByRank(order, providers, Listed(order[from..], providers))
    ensures forall p :: p in Listed(order[from..], providers) ==> from <= Position(order, p.name) < |order|
    decreases |order| - from
  {
    if from == |order| {
    } else {
      ListedSorted(order, from + 1, providers);
      assert order[from..][1..] == order[from + 1..];
      assert Position(order, order[from]) == from;
      var found := ByName(providers, order[from]);
      if found.Some? {
        SortedCons(order, providers, found.value, Listed(order[from + 1..], providers));
      } else {
        assert Listed(order[from..], providers) == Listed(order[from + 1..], providers);
      }
    }
  }

  lemma NamePosition(providers: seq<Provider>, i: nat)
    requires DistinctNames(providers) && i < |providers|
    ensures Position(Names(providers), providers[i].name) == i
  {
    assert Names(providers)[i] == providers[i].name;
  }

  ghost predicate UnlistedFrom(order: seq<string>, from: nat, providers: seq<Provider>, result: seq<Provider>) {
    && SortedByRank(order, providers, result)
    && forall p :: p in result ==> Position(order, p.name) == |order| && from <= Position(Names(providers), p.name)
  }

  lemma UnlistedCons(order: seq<string>, from: nat, providers: seq<Provider>, rest: seq<Provider>)
    requires from < |providers| && DistinctNames(providers) && providers[from].name !in order
    requires UnlistedFrom(order, from + 1, providers, rest)
    ensures UnlistedFrom(order, from, providers, [providers[from]] + rest)
  {
    NamePosition(providers, from);
    NotListed(order, providers[from].name);
    SortedCons(order, providers, providers[from], rest);
  }

  lemma {:induction false} UnlistedSorted(order: seq<string>, from: nat, providers: seq<Provider>)
    requires from <= |providers| && DistinctNames(providers)
    ensures UnlistedFrom(order, from, providers, Unlisted(order, providers[from..]))
    decreases |providers| - from
  {
    if from == |providers| {
    } else {
      UnlistedSorted(order, from + 1, providers);
      assert providers[from..][0] == providers[from] && providers[from..][1..] == providers[from + 1..];
      var rest := Unlisted(order, providers[from + 1..]);
      if providers[from].name in order {
        assert Unlisted(order, providers[from..]) == rest;
      } else {
        UnlistedCons(order, from, providers, rest);
      }
    }
  }

  lemma NotListed(order: seq<string>, name: string)
    requires name !in order
    ensures Position(order, name) == |order|
  {
  }

  // ----- the registry and its cache -----

  /** `_build_providers` for a fixed environment: the configured built-ins, then the registered extras. */
  function Build(configured: seq<Provider>, order: seq<string>, extra: seq<Provider>): seq<Provider> {
    Ordered(order, configured + extra)
  }

  datatype RegistryState = RegistryState(extra: seq<Provider>, cache: Option<seq<Provider>>)

  datatype RegistryOp = Register(p: Provider) | ReadList

  function ReadRegistry(configured: seq<Provider>, order: seq<string>, s: RegistryState): (RegistryState, seq<Provider>) {
    var list := if s.cache.Some? then s.cache.value else Build(configured, order, s.extra);
    (s.(cache := Some(list)), list)
  }

  /** The lists returned by the reads of a sequence of registrations and reads. */
  function Reads(configured: seq<Provider>, order: seq<string>, s: RegistryState, ops: seq<RegistryOp>): seq<seq<Provider>>
    decreases |ops|
  {
    if ops == [] then []
    else match ops[0]
      case Register(p) => Reads(configured, order, RegistryState(s.extra + [p], None), ops[1..])
      case ReadList =>
        var (s', list) := ReadRegistry(configured, order, s);
        [list] + Reads(configured, order, s', ops[1..])
  }

  /** The same, building afresh for every read. */
  function FreshReads(configured: seq<Provider>, order: seq<string>, extra: seq<Provider>, ops: seq<RegistryOp>): seq<seq<Provider>>
    decreases |ops|
  {
    if ops == [] then []
    else match ops[0]
      case Register(p) => FreshReads(configured, order, extra + [p], ops[1..])
      case ReadList => [Build(configured, order, extra)] + FreshReads(configured, order, extra, ops[1..])
  }

  function ReadCount(ops: seq<RegistryOp>): nat {
    if ops == [] then 0 else (if ops[0].ReadList? then 1 else 0) + ReadCount(ops[1..])
  }

  /** The provider is a built-in or registered, and no later provider takes over its name if that is listed. */
  ghost predicate Usable(configured: seq<Provider>, order: seq<string>, extra: seq<Provider>, p: Provider) {
    p in configured + extra && (p.name in order ==> LastOfName(configured + extra, p))
  }

  /** A built list holds exactly these providers. */
  lemma BuildContains(configured: seq<Provider>, order: seq<string>, extra: seq<Provider>, p: Provider)
    ensures p in Build(configured, order, extra) <==> Usable(configured, order, extra, p)
    ensures DistinctNames(configured + extra) ==>
      (p in Build(configured, order, extra) <==> p in configured || p in extra)
  {
    var all := configured + extra;
    ByNameIsLast(all, p);
    if DistinctNames(all) {
      LastIsOnly(all, p);
    }
    OrderedMultiplicity(order, all, p);
    assert p in Build(configured, order, extra) <==> multiset(Ordered(order, all))[p] > 0;
    assert p in all <==> multiset(all)[p] > 0;
    assert p.name in order <==> multiset(order)[p.name] > 0;
  }

  /** No operation registers another provider of the name, if the order lists it. */
  ghost predicate NotTakenOver(order: seq<string>, ops: seq<RegistryOp>, p: Provider) {
    p.name in order ==> forall op :: op in ops && op.Register? ==> op.p.name != p.name
  }

  lemma UsableAfter(configured: seq<Provider>, order: seq<string>, extra: seq<Provider>, p: Provider, q: Provider)
    requires Usable(configured, order, extra, p) && (p.name in order ==> q.name != p.name)
    ensures Usable(configured, order, extra + [q], p)
  {
    var all := configured + (extra + [q]);
    assert all == (configured + extra) + [q];
    if p.name in order {
      assert all[..|all| - 1] == configured + extra;
      LastOfPrefix(all, p);
    }
  }

  lemma {:induction false} UsableIsRead(
      configured: seq<Provider>, order: seq<string>, s: RegistryState, ops: seq<RegistryOp>, p: Provider)
    requires Coherent(configured, order, s) && Usable(configured, order, s.extra, p) && NotTakenOver(order, ops, p)
    ensures forall list :: list in Reads(configured, order, s, ops) ==> p in list
    decreases |ops|
  {
    if ops == [] {
    } else {
      assert ops[0] in ops && NotTakenOver(order, ops[1..], p);
      match ops[0]
      case Register(q) =>
        UsableAfter(configured, order, s.extra, p, q);
        UsableIsRead(configured, order, RegistryState(s.extra + [q], None), ops[1..], p);
      case ReadList =>
        BuildContains(configured, order, s.extra, p);
        UsableIsRead(configured, order, ReadRegistry(configured, order, s).0, ops[1..], p);
    }
  }

  /** A registration, however late, shows in every read after it, until a provider of the same listed name takes over. */
  lemma RegisteredIsRead(
      configured: seq<Provider>, order: seq<string>, s: RegistryState, p: Provider, ops: seq<RegistryOp>)
    requires Coherent(configured, order, s) && NotTakenOver(order, ops, p)
    ensures forall list :: list in Reads(configured, order, s, [Register(p)] + ops) ==> p in list
  {
    var extra := s.extra + [p];
    var all := configured + extra;
    assert all[|all| - 1] == p;
    assert LastOfName(all, p);
    UsableIsRead(configured, order, RegistryState(extra, None), ops, p);
    assert ([Register(p)] + ops)[1..] == ops;
  }

  ghost predicate Coherent(configured: seq<Provider>, order: seq<string>, s: RegistryState) {
    s.cache.Some? ==> s.cache.value == Build(configured, order, s.extra)
  }

  /** The cache is invisible: every read returns what building afresh would. */
  lemma {:induction false} CacheIsInvisible(configured: seq<Provider>, order: seq<string>, s: RegistryState, ops: seq<RegistryOp>)
    requires Coherent(configured, order, s)
    ensures Reads(configured, order, s, ops) == FreshReads(configured, order, s.extra, ops)
    ensures |Reads(configured, order, s, ops)| == ReadCount(ops)
    decreases |ops|
  {
    if ops == [] {
    } else {
      match ops[0]
      case Register(p) => CacheIsInvisible(configured, order, RegistryState(s.extra + [p], None), ops[1..]);
      case ReadList => CacheIsInvisible(configured, order, ReadRegistry(configured, order, s).0, ops[1..]);
    }
  }

  /** The module-level `_extra_providers` with the lru_cache of `Container.providers`. */
  class Container {
    const configured: seq<Provider>
    const order: seq<string>
    var extra: seq<Provider>
    var cache: Option<seq<Provider>>

    function State(): RegistryState
      reads this
    {
      RegistryState(extra, cache)
    }

    ghost predicate Valid()
      reads this
    {
      Coherent(configured, order, State())
    }

    constructor (configured: seq<Provider>, rawOrder: Option<string>)
      ensures Valid() && State() == RegistryState([], None)
      ensures this.configured == configured && order == Order(rawOrder)
    {
      this.configured, order := configured, Order(rawOrder);
      extra, cache := [], None;
    }

    method Providers() returns (list: seq<Provider>)
      requires Valid()
      modifies this`cache
      ensures Valid()
      ensures (State(), list) == ReadRegistry(configured, order, old(State()))
      ensures list == Ordered(order, configured + extra)
      ensures forall p :: p in list <==> Usable(configured, order, extra, p)
    {
      if cache.None? {
        cache := Some(Ordered(order, configured + extra));
      }
      list := cache.value;
      forall p
        ensures p in list <==> Usable(configured, order, extra, p)
      {
        BuildContains(configured, order, extra, p);
      }
    }

    method RegisterProvider(p: Provider)
      requires Valid()
      modifies this
      ensures Valid()
      ensures State() == RegistryState(old(extra) + [p], None)
    {
      extra := extra + [p];
      cache := None;
    }
  }
}
