/** notifyfork/core/domain/value_objects/template.py: variable mapping and the LOCAL/EXTERNAL guards. */
module Templates {
  import opened Wrappers
  import opened Notifications

  datatype Mode = Local | External

  datatype Template = Template(
    id: string,
    body: string,
    mode: Mode,
    subject: Option<string>,
    mapping: map<string, string>)

  const CANNOT_RENDER := "Cannot render locally \U{2014} this template uses EXTERNAL mode. Pass the template to the provider directly."
  const NOT_EXTERNAL := "external_template_id is only valid in EXTERNAL mode"

  /** The guard of `external_template_id`. */
  function ExternalTemplateId(t: Template): Result<string, string> {
    if t.mode.External? then Success(t.body) else Failure(NOT_EXTERNAL)
  }

  /** The guard of `render`; the substitution itself is left to the provider's outcome. */
  function LocalBody(t: Template): Result<string, string> {
    if t.mode.External? then Failure(CANNOT_RENDER) else Success(t.body)
  }

  /** Exactly one of the two uses of the body is allowed, and the other raises with its own message. */
  lemma GuardsExclude(t: Template)
    ensures t.mode.External? ==>
      && ExternalTemplateId(t) == Success(t.body)
      && LocalBody(t) == Failure("Cannot render locally \U{2014} this template uses EXTERNAL mode. Pass the template to the provider directly.")
    ensures t.mode.Local? ==>
      && LocalBody(t) == Success(t.body)
      && ExternalTemplateId(t) == Failure("external_template_id is only valid in EXTERNAL mode")
  {
  }

  // ----- dictionaries as insertion-ordered entries -----

  function Keys(d: Context): seq<string> {
    seq(|d|, i requires 0 <= i < |d| => d[i].0)
  }

  ghost predicate IsDict(d: Context) {
    forall i, j :: 0 <= i < j < |d| ==> d[i].0 != d[j].0
  }

  function Find(d: Context, key: string): (i: nat)
    ensures i <= |d|
    ensures i < |d| ==> d[i].0 == key
    ensures forall j :: 0 <= j < i ==> d[j].0 != key
  {
    FirstIndex(d, (entry: (string, string)) => entry.0 == key)
  }

  function Get(d: Context, key: string): Option<string> {
    var i := Find(d, key);
    if i < |d| then Some(d[i].1) else None
  }

  /** `d[key] = value`: an existing key keeps its position, a new one goes last. */
  function Put(d: Context, key: string, value: string): (r: Context)
    ensures IsDict(d) ==> IsDict(r)
  {
    var i := Find(d, key);
    if i < |d| then d[i := (key, value)] else d + [(key, value)]
  }

  lemma FindIs(d: Context, key: string, i: int)
    requires 0 <= i <= |d| && (i < |d| ==> d[i].0 == key)
    requires forall j :: 0 <= j < i ==> d[j].0 != key
    ensures Find(d, key) == i
  {
  }

  lemma GetPut(d: Context, key: string, value: string, other: string)
    ensures Get(Put(d, key, value), other) == if other == key then Some(value) else Get(d, other)
  {
    var r := Put(d, key, value);
    var i := Find(d, other);
    if other == key || i < |d| {
      FindIs(r, other, i);
    } else {
      FindIs(r, other, |r|);
    }
  }

  // ----- VariableMapping.translate -----

  function Rename(mapping: map<string, string>, key: string): string {
    if key in mapping then mapping[key] else key
  }

  /** `{mappings.get(k, k): v for k, v in context.items()}` */
  function Comprehend(mapping: map<string, string>, context: Context): (r: Context)
    ensures IsDict(r)
  {
    if context == [] then []
    else
      var last := context[|context| - 1];
      Put(Comprehend(mapping, context[..|context| - 1]), Rename(mapping, last.0), last.1)
  }

  function Translate(mapping: map<string, string>, context: Context): Context {
    if mapping == map[] then context else Comprehend(mapping, context)
  }

  /** The last entry renamed to `key`, or -1. */
  function LastRenamed(mapping: map<string, string>, context: Context, key: string): (i: int)
    ensures -1 <= i < |context|
    ensures i >= 0 ==> Rename(mapping, context[i].0) == key
    ensures forall j :: i < j < |context| ==> Rename(mapping, context[j].0) != key
  {
    if context == [] then -1
    else
      var n := |context| - 1;
      if Rename(mapping, context[n].0) == key then n
      else
        var i := LastRenamed(mapping, context[..n], key);
        assert forall j :: i < j < n ==> context[..n][j] == context[j];
        i
  }

  function LastValue(mapping: map<string, string>, context: Context, key: string): Option<string> {
    var i := LastRenamed(mapping, context, key);
    if i >= 0 then Some(context[i].1) else None
  }

  /** Every output key carries the value of the last context key renamed to it, and nothing else is output. */
  lemma {:induction false} TranslateKeepsLast(mapping: map<string, string>, context: Context, key: string)
    requires IsDict(context)
    ensures Get(Translate(mapping, context), key) == LastValue(mapping, context, key)
  {
    if mapping != map[] {
      ComprehendKeepsLast(mapping, context, key);
    } else {
      var i := LastRenamed(mapping, context, key);
      FindIs(context, key, if i >= 0 then i else |context|);
    }
  }

  /** In terms of the mapping alone: an entry whose key is mapped to `k` comes out under `k`, an entry whose key is not
      mapped under its own key, unless a later entry comes out under the same key. */
  lemma EntryComesOut(mapping: map<string, string>, context: Context, i: nat)
    requires IsDict(context) && i < |context|
    requires
      var target := if context[i].0 in mapping then mapping[context[i].0] else context[i].0;
      forall j :: i < j < |context| ==>
        (if context[j].0 in mapping then mapping[context[j].0] else context[j].0) != target
    ensures
      var target := if context[i].0 in mapping then mapping[context[i].0] else context[i].0;
      Get(Translate(mapping, context), target) == Some(context[i].1)
  {
    var target := if context[i].0 in mapping then mapping[context[i].0] else context[i].0;
    TranslateKeepsLast(mapping, context, target);
    assert LastRenamed(mapping, context, target) == i;
  }

  lemma LastValueStep(mapping: map<string, string>, context: Context, key: string)
    requires context != []
    ensures
      var n := |context| - 1;
      LastValue(mapping, context, key) ==
        if Rename(mapping, context[n].0) == key then Some(context[n].1) else LastValue(mapping, context[..n], key)
  {
  }

  lemma {:induction false} ComprehendKeepsLast(mapping: map<string, string>, context: Context, key: string)
    ensures Get(Comprehend(mapping, context), key) == LastValue(mapping, context, key)
  {
    if context == [] {
    } else {
      var n := |context| - 1;
      ComprehendKeepsLast(mapping, context[..n], key);
      GetPut(Comprehend(mapping, context[..n]), Rename(mapping, context[n].0), context[n].1, key);
      LastValueStep(mapping, context, key);
    }
  }

  ghost predicate RenamesInjectively(mapping: map<string, string>, context: Context) {
    forall i, j :: 0 <= i < j < |context| ==> Rename(mapping, context[i].0) != Rename(mapping, context[j].0)
  }

  function Renamed(mapping: map<string, string>, context: Context): Context {
    seq(|context|, i requires 0 <= i < |context| => (Rename(mapping, context[i].0), context[i].1))
  }

  /** No value is lost exactly when the renaming is injective on the context's keys;
      then translation renames each entry in place. */
  lemma {:induction false} TranslateLosesNothingIff(mapping: map<string, string>, context: Context)
    requires IsDict(context)
    ensures |Translate(mapping, context)| == |context| <==> RenamesInjectively(mapping, context)
    ensures RenamesInjectively(mapping, context) ==> Translate(mapping, context) == Renamed(mapping, context)
  {
    if mapping == map[] {
      assert Renamed(mapping, context) == context;
    } else {
      ComprehendLength(mapping, context);
    }
  }

  lemma {:induction false} ComprehendLength(mapping: map<string, string>, context: Context)
    ensures |Comprehend(mapping, context)| <= |context|
    ensures |Comprehend(mapping, context)| == |context| <==> RenamesInjectively(mapping, context)
    ensures |Comprehend(mapping, context)| == |context| ==> Comprehend(mapping, context) == Renamed(mapping, context)
  {
    if context == [] {
    } else {
      var n := |context| - 1;
      var key := Rename(mapping, context[n].0);
      var done := Comprehend(mapping, context[..n]);
      ComprehendLength(mapping, context[..n]);
      ComprehendKeepsLast(mapping, context[..n], key);
      InjectiveStep(mapping, context);
      PutLength(done, key, context[n].1);
      if |done| == n && Get(done, key).None? {
        RenamedStep(mapping, context);
      }
    }
  }

  lemma PutLength(d: Context, key: string, value: string)
    ensures |Put(d, key, value)| == |d| + if Get(d, key).None? then 1 else 0
    ensures Get(d, key).None? ==> Put(d, key, value) == d + [(key, value)]
  {
  }

  lemma RenamedStep(mapping: map<string, string>, context: Context)
    requires context != []
    ensures var n := |context| - 1;
      Renamed(mapping, context) == Renamed(mapping, context[..n]) + [(Rename(mapping, context[n].0), context[n].1)]
  {
  }

  lemma InjectiveStep(mapping: map<string, string>, context: Context)
    requires context != []
    ensures var n := |context| - 1;
      RenamesInjectively(mapping, context) <==>
      RenamesInjectively(mapping, context[..n]) && LastRenamed(mapping, context[..n], Rename(mapping, context[n].0)) < 0
  {
  }

  /** A mapping that renames the output keys back. */
  ghost predicate Inverts(back: map<string, string>, mapping: map<string, string>, context: Context) {
    forall i :: 0 <= i < |context| ==> Rename(back, Rename(mapping, context[i].0)) == context[i].0
  }

  lemma TranslateRoundTrip(mapping: map<string, string>, back: map<string, string>, context: Context)
    requires IsDict(context) && Inverts(back, mapping, context)
    ensures Translate(back, Translate(mapping, context)) == context
  {
    var there := Renamed(mapping, context);
    assert RenamesInjectively(mapping, context);
    TranslateLosesNothingIff(mapping, context);
    assert forall i :: 0 <= i < |there| ==> there[i].0 == Rename(mapping, context[i].0);
    assert RenamesInjectively(back, there);
    TranslateLosesNothingIff(back, there);
    assert Renamed(back, there) == context;
  }

  /** An injective renaming has an inverse mapping, so the round trip above applies to it. */
  lemma {:induction false} InjectiveRenamingInverts(mapping: map<string, string>, context: Context) returns (back: map<string, string>)
    requires IsDict(context) && RenamesInjectively(mapping, context)
    ensures Inverts(back, mapping, context)
    ensures Translate(back, Translate(mapping, context)) == context
  {
    back := map key | key in Keys(Renamed(mapping, context)) ::
      var i :| 0 <= i < |context| && Rename(mapping, context[i].0) == key; context[i].0;
    forall i | 0 <= i < |context|
      ensures Rename(back, Rename(mapping, context[i].0)) == context[i].0
    {
      assert Keys(Renamed(mapping, context))[i] == Rename(mapping, context[i].0);
    }
    TranslateRoundTrip(mapping, back, context);
  }
}
