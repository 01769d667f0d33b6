/**
 The envelope prefill contract and its encoding: the parser every prefill goes
 through (packages/esign-node/src/providers/docusign/prefill.ts) and the text
 tabs and templates DocuSign is sent (.../docusign/client.ts).
 */
module Prefill {
  import opened Common
  import opened JsCollections
  import Text

  // A parsed JSON value. An object lists its entries in the language's own
  // enumeration order.
  datatype Json =
    | Null
    | Bool(flag: bool)
    | Number(number: int)
    | Str(text: string)
    | Arr(items: seq<Json>)
    | Obj(entries: seq<Entry<string, Json>>)

  // One value for a tab: bare, or with an optional lock.
  datatype TabValue = Bare(value: string) | Tab(value: string, locked: Option<bool>)

  type TabPrefill = seq<Entry<string, TabValue>>

  datatype PrefillError =
    | NotAnObject
    | TooManyFields
    | InvalidName(name: string)
    | UnsupportedValue(name: string)

  const MAX_PREFILL_FIELDS := 200
  const MAX_NAME := 100

  predicate IsNameCharacter(c: char) {
    'A' <= c <= 'Z' || 'a' <= c <= 'z' || '0' <= c <= '9' || c == '_' || c == '-'
  }

  predicate IsFieldName(name: string) {
    1 <= |name| <= MAX_NAME && forall c :: c in name ==> IsNameCharacter(c)
  }

  // The code points of the digits, the letters, the underscore and the hyphen.
  predicate IsNameCode(code: int) {
    48 <= code <= 57 || 65 <= code <= 90 || 97 <= code <= 122 || code == 95 || code == 45
  }

  /** A field name is 1 to 100 of these characters. */
  lemma FieldNamesAreShort(name: string)
    ensures IsFieldName(name) <==> 1 <= |name| <= 100 && forall i :: 0 <= i < |name| ==> IsNameCode(name[i] as int)
  {
    assert forall i :: 0 <= i < |name| ==> name[i] in name;
  }

  // The value of a JSON object's own property.
  function Property(json: Json, name: string): Option<Json> {
    if json.Obj? then Get(json.entries, name) else None
  }

  // A string, or { value, locked? } with no other key, a string value and a
  // boolean lock; but not a lock on a blank value. None is a refusal.
  function ReadTabValue(json: Json): Option<TabValue> {
    match json
    case Str(text) => Some(Bare(text))
    case Obj(entries) =>
      (match (Property(json, "value"), Property(json, "locked"))
       case (Some(Str(value)), locked) =>
         if exists e :: e in entries && e.key != "value" && e.key != "locked" then None
         else if locked.None? then Some(Tab(value, None))
         else if !locked.value.Bool? then None
         else if locked.value.flag && Text.Trim(value) == "" then None
         else Some(Tab(value, Some(locked.value.flag)))
       case _ => None)
    case _ => None
  }

  // Checks the entries in order and stops at the first one refused.
  function ReadEntries(entries: seq<Entry<string, Json>>): Result<TabPrefill, PrefillError> {
    if entries == [] then Ok([])
    else if !IsFieldName(entries[0].key) then Err(InvalidName(entries[0].key))
    else match ReadTabValue(entries[0].value)
      case None => Err(UnsupportedValue(entries[0].key))
      case Some(v) =>
        match ReadEntries(entries[1..])
        case Err(e) => Err(e)
        case Ok(rest) => Ok([Entry(entries[0].key, v)] + rest)
  }

  function ParseEnvelopePrefill(input: Option<Json>): Result<TabPrefill, PrefillError> {
    match input
    case None => Ok([])
    case Some(Obj(entries)) =>
      if |entries| > MAX_PREFILL_FIELDS then Err(TooManyFields) else ReadEntries(entries)
    case Some(_) => Err(NotAnObject)
  }

  // ---- What the parser accepts ----

  // A value within the contract: it may carry a lock only over text that is
  // not blank.
  predicate IsTabValue(v: TabValue) {
    v.Tab? && v.locked == Some(true) ==> Text.Trim(v.value) != ""
  }

  ghost predicate IsPrefill(p: TabPrefill) {
    |p| <= MAX_PREFILL_FIELDS && forall e :: e in p ==> IsFieldName(e.key) && IsTabValue(e.value)
  }

  // The JSON a tab value is written as.
  function TabJson(v: TabValue): Json {
    match v
    case Bare(value) => Str(value)
    case Tab(value, None) => Obj([Entry("value", Str(value))])
    case Tab(value, Some(locked)) => Obj([Entry("value", Str(value)), Entry("locked", Bool(locked))])
  }

  function PrefillJson(p: TabPrefill): seq<Entry<string, Json>> {
    Map(p, (e: Entry<string, TabValue>) => Entry(e.key, TabJson(e.value)))
  }

  lemma ReadWrittenObject(value: string, locked: Option<bool>)
    ensures var json := TabJson(Tab(value, locked));
            && Property(json, "value") == Some(Str(value))
            && Property(json, "locked") == (if locked.Some? then Some(Bool(locked.value)) else None)
            && forall e :: e in json.entries ==> e.key == "value" || e.key == "locked"
  {
    var first := Entry("value", Str(value));
    assert "value"[0] != "locked"[0];
    if locked.Some? {
      var second: Entry<string, Json> := Entry("locked", Bool(locked.value));
      assert [first, second] == [first] + [second];
      GetCons(first, [second], "value");
      GetCons(first, [second], "locked");
      GetCons(second, [], "locked");
    }
  }

  lemma ReadWrittenValue(v: TabValue)
    requires IsTabValue(v)
    ensures ReadTabValue(TabJson(v)) == Some(v)
  {
    if v.Tab? {
      ReadWrittenObject(v.value, v.locked);
    }
  }

  /** A value is accepted as v exactly when it is v's written form, whatever the
      order of its keys: no other key, no other type, no lock on a blank. */
  lemma ReadableIffWritten(json: Json, v: TabValue)
    ensures ReadTabValue(json) == Some(v)
            <==> IsTabValue(v)
                 && if v.Bare? then json == Str(v.value)
                    else json.Obj? && forall key :: Property(json, key) == Property(TabJson(v), key)
  {
    if json.Obj? && v.Tab? {
      ReadWrittenObject(v.value, v.locked);
      var written := TabJson(v);
      assert "value"[0] != "locked"[0];
      forall key ensures Property(written, key).Some? ==> key == "value" || key == "locked" {
        GetMember(written.entries, key);
      }
      if ReadTabValue(json) == Some(v) {
        forall key ensures Property(json, key) == Property(written, key) {
          GetMember(json.entries, key);
        }
      } else if forall key :: Property(json, key) == Property(written, key) {
        forall e | e in json.entries ensures e.key == "value" || e.key == "locked" {
          GetMember(json.entries, e.key);
          assert Property(json, e.key) == Property(written, e.key);
        }
      }
    }
  }

  lemma ReadEntriesCons(e: Entry<string, Json>, rest: seq<Entry<string, Json>>)
    requires IsFieldName(e.key) && ReadTabValue(e.value).Some? && ReadEntries(rest).Ok?
    ensures ReadEntries([e] + rest) == Ok([Entry(e.key, ReadTabValue(e.value).value)] + ReadEntries(rest).value)
  {
    assert ([e] + rest)[1..] == rest;
  }

  lemma PrefillJsonCons(e: Entry<string, TabValue>, rest: TabPrefill)
    ensures PrefillJson([e] + rest) == [Entry(e.key, TabJson(e.value))] + PrefillJson(rest)
  {
  }

  lemma {:induction false} ReadWrittenEntries(p: TabPrefill)
    requires forall e :: e in p ==> IsFieldName(e.key) && IsTabValue(e.value)
    ensures ReadEntries(PrefillJson(p)) == Ok(p)
  {
    if p != [] {
      var e, rest := p[0], p[1..];
      assert e in p && forall x :: x in rest ==> x in p;
      ReadWrittenValue(e.value);
      ReadWrittenEntries(rest);
      ReadEntriesCons(Entry(e.key, TabJson(e.value)), PrefillJson(rest));
      PrefillJsonCons(e, rest);
      assert p == [e] + rest;
    }
  }

  lemma {:induction false} ReadIsWithinContract(entries: seq<Entry<string, Json>>)
    ensures ReadEntries(entries).Ok? ==>
              && |ReadEntries(entries).value| == |entries|
              && forall i :: 0 <= i < |entries| ==>
                   var e := ReadEntries(entries).value[i];
                   e.key == entries[i].key && IsFieldName(e.key) && IsTabValue(e.value)
                   && ReadTabValue(entries[i].value) == Some(e.value)
    ensures ReadEntries(entries).Ok? <==>
            forall e :: e in entries ==> IsFieldName(e.key) && ReadTabValue(e.value).Some?
  {
    if entries != [] {
      ReadIsWithinContract(entries[1..]);
      assert entries == [entries[0]] + entries[1..];
    }
  }

  /** A prefill is accepted exactly when every entry has a field name and a
      readable value and there are at most 200; what is accepted is within the
      contract, entry by entry, and is accepted unchanged when it is written
      out and parsed again. */
  lemma ParsedPrefillIsStable(entries: seq<Entry<string, Json>>)
    ensures var r := ParseEnvelopePrefill(Some(Obj(entries)));
            && (r.Ok? <==> |entries| <= 200
                           && forall e :: e in entries ==> IsFieldName(e.key) && ReadTabValue(e.value).Some?)
            && (r.Ok? ==> |r.value| == |entries| && IsPrefill(r.value)
                          && ParseEnvelopePrefill(Some(Obj(PrefillJson(r.value)))) == r)
  {
    ReadIsWithinContract(entries);
    var r := ParseEnvelopePrefill(Some(Obj(entries)));
    if r.Ok? {
      forall e | e in r.value ensures IsFieldName(e.key) && IsTabValue(e.value) {
        var i :| 0 <= i < |r.value| && r.value[i] == e;
      }
      ReadWrittenEntries(r.value);
    }
  }

  // The entry cannot be read, and why.
  function Refusal(e: Entry<string, Json>): Option<PrefillError> {
    if !IsFieldName(e.key) then Some(InvalidName(e.key))
    else if ReadTabValue(e.value).None? then Some(UnsupportedValue(e.key))
    else None
  }

  lemma {:induction false} FirstRefusal(entries: seq<Entry<string, Json>>, i: nat)
    requires i < |entries| && Refusal(entries[i]).Some? && forall j :: 0 <= j < i ==> Refusal(entries[j]).None?
    ensures ReadEntries(entries) == Err(Refusal(entries[i]).value)
  {
    if i > 0 {
      FirstRefusal(entries[1..], i - 1);
    }
  }

  /** A refused prefill is told why: it is not an object, it has more than 200
      entries, or else what is wrong with the first entry that is. */
  lemma RefusedPrefillsAreExplained(input: Json, i: nat)
    ensures !input.Obj? ==> ParseEnvelopePrefill(Some(input)) == Err(NotAnObject)
    ensures input.Obj? && |input.entries| > 200 ==> ParseEnvelopePrefill(Some(input)) == Err(TooManyFields)
    ensures input.Obj? && i < |input.entries| <= 200 && Refusal(input.entries[i]).Some?
            && (forall j :: 0 <= j < i ==> Refusal(input.entries[j]).None?)
            ==> ParseEnvelopePrefill(Some(input)) == Err(Refusal(input.entries[i]).value)
    ensures ParseEnvelopePrefill(None) == Ok([])
  {
    if input.Obj? && i < |input.entries| <= 200 && Refusal(input.entries[i]).Some?
       && forall j :: 0 <= j < i ==> Refusal(input.entries[j]).None? {
      FirstRefusal(input.entries, i);
    }
  }

  // ---- Text tabs ----

  // The API takes its booleans as strings; no lock is sent unless one was given.
  datatype TextTab = TextTab(tabLabel: string, value: string, locked: Option<string>)

  function TextTabOf(e: Entry<string, TabValue>): TextTab {
    var locked := match e.value case Bare(_) => None case Tab(_, locked) => locked;
    TextTab(e.key, e.value.value,
            if locked.None? then None else Some(if locked.value then "true" else "false"))
  }

  function TextTabsFrom(p: TabPrefill): seq<TextTab> {
    Map(p, (e: Entry<string, TabValue>) => TextTabOf(e))
  }

  // A tab as its reader takes it: no lock, locked, or unlocked on purpose.
  function ReadTab(t: TextTab): Entry<string, TabValue> {
    Entry(t.tabLabel, Tab(t.value, if t.locked.None? then None else Some(t.locked.value == "true")))
  }

  // A bare string means the same as a value without a lock.
  function Meaning(p: TabPrefill): TabPrefill {
    Map(p, (e: Entry<string, TabValue>) => Entry(e.key, if e.value.Bare? then Tab(e.value.value, None) else e.value))
  }

  lemma ReadSentTab(e: Entry<string, TabValue>)
    ensures ReadTab(TextTabOf(e)) == Entry(e.key, if e.value.Bare? then Tab(e.value.value, None) else e.value)
  {
    assert "false"[0] != "true"[0];
  }

  /** The tabs decode to the same labels, values and three-way locks. */
  lemma TabsDecode(p: TabPrefill)
    ensures Map(TextTabsFrom(p), (t: TextTab) => ReadTab(t)) == Meaning(p)
  {
    forall i | 0 <= i < |p| ensures ReadTab(TextTabsFrom(p)[i]) == Meaning(p)[i] {
      ReadSentTab(p[i]);
    }
    assert Map(TextTabsFrom(p), (t: TextTab) => ReadTab(t)) == Meaning(p);
  }

  /** Two prefills are sent as the same tabs exactly when they mean the same. */
  lemma SameTabsIffSameMeaning(p: TabPrefill, q: TabPrefill)
    ensures TextTabsFrom(p) == TextTabsFrom(q) <==> Meaning(p) == Meaning(q)
  {
    TabsDecode(p);
    TabsDecode(q);
    if Meaning(p) == Meaning(q) {
      forall i | 0 <= i < |p| ensures TextTabsFrom(p)[i] == TextTabsFrom(q)[i] {
        assert Meaning(p)[i] == Meaning(q)[i];
      }
      assert |p| == |Meaning(p)| == |q|;
      assert TextTabsFrom(p) == TextTabsFrom(q);
    }
  }

  // ---- Templates ----

  datatype TemplateRole = TemplateRole(
    email: string, name: string, roleName: string, clientUserId: string, tabs: Option<seq<TextTab>>)

  datatype CompositeTemplate = CompositeTemplate(number: nat, templateId: string, signer: TemplateRole)

  datatype Templates = One(templateId: string, role: TemplateRole) | Composite(templates: seq<CompositeTemplate>)

  function Numbered(ids: seq<string>, signer: TemplateRole, number: nat): seq<CompositeTemplate> {
    if ids == [] then []
    else [CompositeTemplate(number, ids[0], signer)] + Numbered(ids[1..], signer, number + 1)
  }

  function TemplatesFor(ids: seq<string>, signer: TemplateRole): Templates {
    if |ids| == 1 then One(ids[0], signer) else Composite(Numbered(ids, signer, 1))
  }

  // The documents an envelope body names, in order, each with its signer.
  function Documents(t: Templates): seq<(string, TemplateRole)> {
    match t
    case One(id, role) => [(id, role)]
    case Composite(templates) => Map(templates, (c: CompositeTemplate) => (c.templateId, c.signer))
  }

  lemma {:induction false} NumberedAt(ids: seq<string>, signer: TemplateRole, number: nat)
    ensures |Numbered(ids, signer, number)| == |ids|
    ensures forall i :: 0 <= i < |ids| ==> Numbered(ids, signer, number)[i] == CompositeTemplate(number + i, ids[i], signer)
  {
    if ids != [] {
      NumberedAt(ids[1..], signer, number + 1);
    }
  }

  /** One template or several, the envelope names exactly the listed documents
      in their order, and every one carries the same signer and values. */
  lemma EveryDocumentCarriesTheSigner(ids: seq<string>, signer: TemplateRole)
    ensures Documents(TemplatesFor(ids, signer)) == seq(|ids|, i requires 0 <= i < |ids| => (ids[i], signer))
    ensures TemplatesFor(ids, signer).One? <==> |ids| == 1
    ensures |ids| != 1 ==> forall i :: 0 <= i < |ids| ==> TemplatesFor(ids, signer).templates[i].number == i + 1
  {
    NumberedAt(ids, signer, 1);
    if |ids| == 1 {
      assert seq(|ids|, i requires 0 <= i < |ids| => (ids[i], signer))[0] == (ids[0], signer);
    }
  }
}
