/**
 The template list of the DocuSign configuration
 (packages/esign-node/src/providers/docusign/config.ts): several ids in one
 comma-separated setting, normalised once when it is read.
 */
module TemplateList {
  import opened Common
  import opened JsCollections
  import opened Text

  datatype ConfigKey =
    | ApiBaseUrl | OauthBaseUrl | WebFormsBaseUrl | ReturnUrl | AccountId | IntegrationKey
    | PrivateKey | UserId | TemplateId | SignerRoleName | WebFormId

  type Config = map<ConfigKey, string>

  function RawText(raw: Option<string>): string {
    if raw.Some? then raw.value else ""
  }

  function TrimmedParts(raw: string): seq<string> {
    Map(Split(raw, ','), (id: string) => Trim(id))
  }

  // The ids a template setting names, in order; blank entries are dropped.
  function TemplateIds(raw: Option<string>): seq<string> {
    NonEmpty(TrimmedParts(RawText(raw)))
  }

  function NonEmpty(ids: seq<string>): seq<string> {
    Filter(ids, (id: string) => |id| > 0)
  }

  // The setting as it is stored; None when it names no template.
  function Normalise(raw: Option<string>): Option<string> {
    var joined := Join(TemplateIds(raw), ",");
    if joined == "" then None else Some(joined)
  }

  function Setting(config: Config, key: ConfigKey): Option<string> {
    if key in config then Some(config[key]) else None
  }

  predicate IsSet(config: Config, key: ConfigKey) {
    if key == TemplateId then |TemplateIds(Setting(config, key))| > 0
    else key in config && config[key] != ""
  }

  // The required settings that are unset, each by its key.
  function MissingDocuSignConfig(config: Config, required: seq<ConfigKey>): seq<ConfigKey> {
    Filter(required, (key: ConfigKey) => !IsSet(config, key))
  }

  /** The settings reported missing are the required ones that are absent, empty
      or, for the templates, name none; each as often as it is required. */
  lemma MissingIsExact(config: Config, required: seq<ConfigKey>, key: ConfigKey)
    ensures key in MissingDocuSignConfig(config, required)
            <==> key in required
                 && (key !in config || config[key] == "" || (key == TemplateId && TemplateIds(Some(config[key])) == []))
    ensures multiset(MissingDocuSignConfig(config, required))[key]
            == if key in MissingDocuSignConfig(config, required) then multiset(required)[key] else 0
  {
    FilterMembers(required, (k: ConfigKey) => !IsSet(config, k));
    FilterCounts(required, (k: ConfigKey) => !IsSet(config, k), key);
    NothingNamesNothing();
  }

  lemma NothingNamesNothing()
    ensures TemplateIds(None) == [] && TemplateIds(Some("")) == []
  {
    assert Split("", ',') == [""];
    assert Trim("") == "";
    assert TrimmedParts("") == [""];
    NonEmptyOnes([""]);
  }

  lemma {:induction false} FilterCounts<T(!new)>(s: seq<T>, keep: T -> bool, x: T)
    ensures multiset(Filter(s, keep))[x] == if keep(x) then multiset(s)[x] else 0
  {
    if s != [] {
      FilterCounts(s[1..], keep, x);
      assert s == [s[0]] + s[1..];
    }
  }

  ghost predicate IsIdList(ids: seq<string>) {
    forall id :: id in ids ==> id != "" && Trimmed(id) && ',' !in id
  }

  lemma TrimEach(ids: seq<string>)
    requires forall id :: id in ids ==> Trimmed(id)
    ensures Map(ids, (id: string) => Trim(id)) == ids
  {
    forall i | 0 <= i < |ids| ensures Trim(ids[i]) == ids[i] {
      assert ids[i] in ids;
    }
  }

  /** Parsing undoes printing: any list of trimmed, non-blank, comma-free ids
      comes back from its comma-separated form. */
  lemma ParseUndoesPrint(ids: seq<string>)
    requires IsIdList(ids)
    ensures TemplateIds(Some(Join(ids, ","))) == ids
  {
    if ids == [] {
      assert Split("", ',') == [""];
      assert Trim("") == "";
      assert Map([""], (id: string) => Trim(id)) == [""];
      NonEmptyOnes([""]);
    } else {
      SplitOfJoin(ids, ',');
      TrimEach(ids);
      FilterIdempotent(ids, (id: string) => |id| > 0);
    }
  }

  lemma NonEmptyOnes(ids: seq<string>)
    ensures forall id :: id in NonEmpty(ids) <==> id in ids && id != ""
    ensures NonEmpty(ids) == [] <==> forall i :: 0 <= i < |ids| ==> ids[i] == ""
  {
    FilterMembers(ids, (id: string) => |id| > 0);
    if NonEmpty(ids) == [] {
      forall i | 0 <= i < |ids| ensures ids[i] == "" {
        assert ids[i] in ids;
        assert ids[i] !in NonEmpty(ids);
      }
    } else {
      assert NonEmpty(ids)[0] in NonEmpty(ids);
    }
  }

  ghost predicate AllClean(ids: seq<string>) {
    forall i :: 0 <= i < |ids| ==> Trimmed(ids[i]) && ',' !in ids[i]
  }

  lemma PartsAreClean(raw: string)
    ensures AllClean(TrimmedParts(raw))
  {
    var parts := Split(raw, ',');
    SplitParts(raw, ',');
    forall i | 0 <= i < |parts| ensures Trimmed(Trim(parts[i])) && ',' !in Trim(parts[i]) {
      assert parts[i] in parts;
      if ',' in Trim(parts[i]) {
        TrimKeepsCharacters(parts[i], ',');
      }
    }
  }

  lemma NonEmptyIdList(ids: seq<string>)
    requires AllClean(ids)
    ensures IsIdList(NonEmpty(ids))
  {
    NonEmptyOnes(ids);
    forall id | id in NonEmpty(ids) ensures id != "" && Trimmed(id) && ',' !in id {
      var i :| 0 <= i < |ids| && ids[i] == id;
    }
  }

  lemma ParsedIdsAreAnIdList(raw: Option<string>)
    ensures IsIdList(TemplateIds(raw))
  {
    PartsAreClean(RawText(raw));
    NonEmptyIdList(TrimmedParts(RawText(raw)));
  }

  lemma JoinIsEmpty(ids: seq<string>)
    requires IsIdList(ids)
    ensures Join(ids, ",") == "" <==> ids == []
  {
    if ids != [] {
      assert ids[0] in ids;
    }
  }

  /** Normalising keeps the ids a setting names, and doing it again changes nothing. */
  lemma NormaliseIsIdempotent(raw: Option<string>)
    ensures TemplateIds(Normalise(raw)) == TemplateIds(raw)
    ensures Normalise(Normalise(raw)) == Normalise(raw)
  {
    ParsedIdsAreAnIdList(raw);
    PrintedIdsComeBack(Normalise(raw), TemplateIds(raw));
  }

  lemma PrintedIdsComeBack(stored: Option<string>, ids: seq<string>)
    requires IsIdList(ids) && stored == if Join(ids, ",") == "" then None else Some(Join(ids, ","))
    ensures TemplateIds(stored) == ids
  {
    assert RawText(stored) == Join(ids, ",") == RawText(Some(Join(ids, ",")));
    ParseUndoesPrint(ids);
  }

  // A value that names nothing: only commas and white space.
  ghost predicate NamesNothing(raw: string) {
    forall c :: c in raw ==> c == ',' || IsSpace(c)
  }

  lemma {:induction false} JoinCharacters(parts: seq<string>, sep: string, c: char)
    requires parts != []
    ensures c in Join(parts, sep) ==> c in sep || exists p :: p in parts && c in p
    ensures (exists p :: p in parts && c in p) ==> c in Join(parts, sep)
  {
    if |parts| > 1 {
      JoinCharacters(parts[1..], sep, c);
      if p :| p in parts[1..] && c in p {
        assert p in parts;
      }
      if p :| p in parts && c in p && p != parts[0] {
        assert p in parts[1..];
      }
    } else {
      assert parts[0] in parts;
    }
  }

  // The i-th part trims to nothing exactly when it is blank.
  lemma PartIsBlank(raw: string, i: nat)
    requires i < |Split(raw, ',')|
    ensures TrimmedParts(raw)[i] == "" <==> NamesNothing(Split(raw, ',')[i])
  {
    var p := Split(raw, ',')[i];
    BlankTrimsToNothing(p);
    SplitParts(raw, ',');
    assert p in Split(raw, ',');
  }

  lemma SomeIdNamesSomething(raw: string, c: char)
    requires c in raw && c != ',' && !IsSpace(c)
    ensures exists i :: 0 <= i < |TrimmedParts(raw)| && TrimmedParts(raw)[i] != ""
  {
    var parts := Split(raw, ',');
    JoinOfSplit(raw, ',');
    JoinCharacters(parts, ",", c);
    var p :| p in parts && c in p;
    var i :| 0 <= i < |parts| && parts[i] == p;
    PartIsBlank(raw, i);
    assert TrimmedParts(raw)[i] != "";
  }

  lemma NoIdsIffNamesNothing(raw: string)
    ensures NonEmpty(TrimmedParts(raw)) == [] <==> NamesNothing(raw)
  {
    NonEmptyOnes(TrimmedParts(raw));
    if NamesNothing(raw) {
      forall i | 0 <= i < |TrimmedParts(raw)| ensures TrimmedParts(raw)[i] == "" {
        PartsNameNothing(raw, i);
        PartIsBlank(raw, i);
      }
    } else {
      var c :| c in raw && c != ',' && !IsSpace(c);
      SomeIdNamesSomething(raw, c);
    }
  }

  lemma PartsNameNothing(raw: string, i: nat)
    requires NamesNothing(raw) && i < |Split(raw, ',')|
    ensures NamesNothing(Split(raw, ',')[i])
  {
    var parts := Split(raw, ',');
    JoinOfSplit(raw, ',');
    assert parts[i] in parts;
    forall c | c in parts[i] ensures c == ',' || IsSpace(c) {
      JoinCharacters(parts, ",", c);
    }
  }

  lemma StoredIffNamed(raw: Option<string>)
    ensures Normalise(raw) == None <==> TemplateIds(raw) == []
  {
    ParsedIdsAreAnIdList(raw);
    JoinIsEmpty(TemplateIds(raw));
  }

  /** The template setting read from the environment is unset, and reported
      missing where it is required, exactly when the raw value names nothing:
      it is absent, or only commas and white space. */
  lemma UnsetIffReportedMissing(raw: Option<string>, others: Config, required: seq<ConfigKey>)
    requires TemplateId !in others && TemplateId in required
    ensures var stored := Normalise(raw);
            var config := if stored.Some? then others[TemplateId := stored.value] else others;
            && (TemplateId in MissingDocuSignConfig(config, required) <==> stored == None)
            && (stored == None <==> NamesNothing(RawText(raw)))
  {
    StoredIffNamed(raw);
    NormaliseIsIdempotent(raw);
    NoIdsIffNamesNothing(RawText(raw));
    var stored := Normalise(raw);
    var config := if stored.Some? then others[TemplateId := stored.value] else others;
    assert Setting(config, TemplateId) == stored;
    FilterMembers(required, (key: ConfigKey) => !IsSet(config, key));
  }
}
