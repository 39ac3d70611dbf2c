// The reversible edit of Codex's config.toml (src/integration.rs). A document is
// its keys and values; formatting and comments are not modelled. One file write
// is one step.

module Integration {
  import opened Wrappers

  const PROVIDER_ID: string := "codex-switcher"
  const MODEL_PROVIDER: string := "model_provider"
  const MODEL_PROVIDERS: string := "model_providers"
  const BASE_URL: string := "openai_base_url"

  datatype Item =
    | Str(text: string)
    | Bool(flag: bool)
    | Table(entries: map<string, Item>)
    | Opaque(token: nat)

  type Doc = map<string, Item>

  datatype Record = Record(
    version: nat,
    originalProviderPresent: bool,
    originalProvider: Option<string>,
    originalUrlPresent: bool,
    originalUrl: Option<string>,
    removeLegacyProvider: bool,
    baseUrl: string)

  datatype File<T> = Missing | Unreadable | Contents(value: T)

  datatype Files = Files(config: File<Doc>, backup: File<Doc>, record: File<Record>)

  datatype Status = Disabled | Enabled | Drifted

  // An operation's outcome; on Err nothing was written.
  datatype Outcome<T> = Done(value: T) | Failed

  // ---------------------------------------------------------------- reading

  function TextAt(doc: Doc, key: string): Option<string> {
    if key in doc && doc[key].Str? then Some(doc[key].text) else None
  }

  // A present key that is not a string.
  predicate NotText(doc: Doc, key: string) {
    key in doc && !doc[key].Str?
  }

  function ReadDocument(f: File<Doc>): Option<Doc> {
    match f
    case Missing => Some(map[])
    case Unreadable => None
    case Contents(doc) => Some(doc)
  }

  function ProviderItem(doc: Doc): Option<Item> {
    if MODEL_PROVIDERS in doc && doc[MODEL_PROVIDERS].Table? && PROVIDER_ID in doc[MODEL_PROVIDERS].entries
    then Some(doc[MODEL_PROVIDERS].entries[PROVIDER_ID])
    else None
  }

  function ExpectedProvider(url: string): map<string, Item> {
    map["name" := Str("Codex Switcher"), "base_url" := Str(url), "wire_api" := Str("responses"),
        "requires_openai_auth" := Bool(true), "supports_websockets" := Bool(false)]
  }

  predicate ProviderMatches(item: Item, url: string) {
    item == Table(ExpectedProvider(url))
  }

  predicate ManagedDrift(doc: Doc, url: string) {
    TextAt(doc, MODEL_PROVIDER) != Some("openai") || TextAt(doc, BASE_URL) != Some(url)
  }

  predicate LegacyDrift(doc: Doc, url: string) {
    || TextAt(doc, MODEL_PROVIDER) != Some(PROVIDER_ID)
    || ProviderItem(doc).None? || !ProviderMatches(ProviderItem(doc).value, url)
  }

  predicate Drift(doc: Doc, r: Record) {
    if r.version == 1 then LegacyDrift(doc, r.baseUrl) else ManagedDrift(doc, r.baseUrl)
  }

  function StatusOf(f: Files): Outcome<Status> {
    if f.record.Missing? then Done(Disabled)
    else if f.record.Unreadable? || ReadDocument(f.config).None? then Failed
    else if Drift(ReadDocument(f.config).value, f.record.value) then Done(Drifted)
    else Done(Enabled)
  }

  // ---------------------------------------------------------------- writing

  function Managed(doc: Doc, url: string): Doc {
    doc[MODEL_PROVIDER := Str("openai")][BASE_URL := Str(url)]
  }

  // Sets the key to the recorded text, or removes it when it was absent.
  function Restored(doc: Doc, key: string, present: bool, text: Option<string>): Option<Doc> {
    if !present then Some(doc - {key})
    else if text.None? then None
    else Some(doc[key := Str(text.value)])
  }

  function WithoutProvider(doc: Doc): Doc {
    if MODEL_PROVIDERS in doc && doc[MODEL_PROVIDERS].Table?
    then doc[MODEL_PROVIDERS := Table(doc[MODEL_PROVIDERS].entries - {PROVIDER_ID})]
    else doc
  }

  // The document a disable writes; None is an invalid record.
  function Undone(doc: Doc, r: Record): Option<Doc> {
    var first := Restored(doc, MODEL_PROVIDER, r.originalProviderPresent, r.originalProvider);
    if first.None? then None
    else
      var second := if r.version == 1 || r.removeLegacyProvider then WithoutProvider(first.value) else first.value;
      if r.version >= 2 then Restored(second, BASE_URL, r.originalUrlPresent, r.originalUrl) else Some(second)
  }

  function DisableFiles(f: Files): Outcome<Files> {
    if f.record.Missing? then Done(f)
    else if f.record.Unreadable? || ReadDocument(f.config).None? then Failed
    else
      var doc, r := ReadDocument(f.config).value, f.record.value;
      if Drift(doc, r) || Undone(doc, r).None? then Failed
      else Done(f.(config := Contents(Undone(doc, r).value), record := Missing))
  }

  function MigrateFiles(f: Files, url: string): Outcome<Files>
    requires f.record.Contents?
  {
    var legacy := f.record.value;
    if ReadDocument(f.config).None? then Failed
    else
      var doc := ReadDocument(f.config).value;
      if LegacyDrift(doc, legacy.baseUrl) || ReadDocument(f.backup).None?
         || NotText(ReadDocument(f.backup).value, BASE_URL)
      then Failed
      else
        var backup := ReadDocument(f.backup).value;
        Done(f.(config := Contents(Managed(doc, url)),
                record := Contents(Record(2, legacy.originalProviderPresent, legacy.originalProvider,
                                          BASE_URL in backup, TextAt(backup, BASE_URL), true, url))))
  }

  function EnableFiles(f: Files, url: string): Outcome<Files> {
    if !f.record.Missing? then
      match StatusOf(f)
      case Failed => Failed
      case Done(status) =>
        if status == Drifted then Failed
        else if f.record.Contents? && f.record.value.version == 1 then MigrateFiles(f, url)
        else Done(f)
    else if ReadDocument(f.config).None? then Failed
    else
      var doc := ReadDocument(f.config).value;
      if NotText(doc, MODEL_PROVIDER) || NotText(doc, BASE_URL) then Failed
      else
        Done(Files(Contents(Managed(doc, url)),
                   if f.backup.Missing? then Contents(doc) else f.backup,
                   Contents(Record(2, MODEL_PROVIDER in doc, TextAt(doc, MODEL_PROVIDER),
                                   BASE_URL in doc, TextAt(doc, BASE_URL), false, url))))
  }

  function MigrateIfNeededFiles(f: Files, url: string): Outcome<(Files, bool)> {
    if f.record.Missing? then Done((f, false))
    else if f.record.Unreadable? then Failed
    else if f.record.value.version != 1 then Done((f, false))
    else
      match StatusOf(f)
      case Failed => Failed
      case Done(status) =>
        if status != Enabled then Done((f, false))
        else
          match MigrateFiles(f, url)
          case Failed => Failed
          case Done(g) => Done((g, true))
  }

  class CodexIntegration {
    const url: string
    var config: File<Doc>
    var backup: File<Doc>
    var record: File<Record>

    function OnDisk(): Files
      reads this
    {
      Files(config, backup, record)
    }

    constructor (url: string, config: File<Doc>, backup: File<Doc>, record: File<Record>)
      ensures this.url == url && OnDisk() == Files(config, backup, record)
    {
      this.url, this.config, this.backup, this.record := url, config, backup, record;
    }

    method Status() returns (r: Outcome<Status>)
      ensures r == StatusOf(OnDisk())
    {
      if record.Missing? {
        return Done(Disabled);
      }
      var doc := ReadDocument(config);
      if record.Unreadable? || doc.None? {
        return Failed;
      }
      var drift;
      if record.value.version == 1 {
        drift := LegacyDrift(doc.value, record.value.baseUrl);
      } else {
        drift := ManagedDrift(doc.value, record.value.baseUrl);
      }
      r := Done(if drift then Drifted else Enabled);
    }

    method Enable() returns (ok: bool)
      modifies this
      ensures match EnableFiles(old(OnDisk()), url)
        case Done(f) => ok && OnDisk() == f
        case Failed => !ok && OnDisk() == old(OnDisk())
    {
      if !record.Missing? {
        var status := Status();
        if status == Done(Enabled) {
          if record.value.version == 1 {
            ok := MigrateLegacyRecord();
          } else {
            ok := true;
          }
        } else {
          ok := false;
        }
        return;
      }
      var original := ReadDocument(config);
      if original.None? {
        return false;
      }
      var doc := original.value;
      var providerPresent, provider := MODEL_PROVIDER in doc, TextAt(doc, MODEL_PROVIDER);
      if providerPresent && provider.None? {
        return false;
      }
      var urlPresent, oldUrl := BASE_URL in doc, TextAt(doc, BASE_URL);
      if urlPresent && oldUrl.None? {
        return false;
      }
      if backup.Missing? {
        backup := Contents(doc);
      }
      doc := doc[MODEL_PROVIDER := Str("openai")];
      doc := doc[BASE_URL := Str(url)];
      config := Contents(doc);
      record := Contents(Record(2, providerPresent, provider, urlPresent, oldUrl, false, url));
      ok := true;
    }

    method Disable() returns (ok: bool)
      modifies this
      ensures match DisableFiles(old(OnDisk()))
        case Done(f) => ok && OnDisk() == f
        case Failed => !ok && OnDisk() == old(OnDisk())
    {
      if record.Missing? {
        return true;
      }
      if record.Unreadable? || ReadDocument(config).None? {
        return false;
      }
      var r, doc := record.value, ReadDocument(config).value;
      if Drift(doc, r) {
        return false;
      }
      if r.originalProviderPresent {
        if r.originalProvider.None? {
          return false;
        }
        doc := doc[MODEL_PROVIDER := Str(r.originalProvider.value)];
      } else {
        doc := doc - {MODEL_PROVIDER};
      }
      if r.version == 1 || r.removeLegacyProvider {
        doc := WithoutProvider(doc);
      }
      if r.version >= 2 {
        if r.originalUrlPresent {
          if r.originalUrl.None? {
            return false;
          }
          doc := doc[BASE_URL := Str(r.originalUrl.value)];
        } else {
          doc := doc - {BASE_URL};
        }
      }
      config := Contents(doc);
      record := Missing;
      ok := true;
    }

    method MigrateLegacyRecord() returns (ok: bool)
      requires record.Contents?
      modifies this
      ensures match MigrateFiles(old(OnDisk()), url)
        case Done(f) => ok && OnDisk() == f
        case Failed => !ok && OnDisk() == old(OnDisk())
    {
      var legacy := record.value;
      var current := ReadDocument(config);
      if current.None? || LegacyDrift(current.value, legacy.baseUrl) {
        return false;
      }
      var saved := ReadDocument(backup);
      if saved.None? {
        return false;
      }
      var urlPresent, oldUrl := BASE_URL in saved.value, TextAt(saved.value, BASE_URL);
      if urlPresent && oldUrl.None? {
        return false;
      }
      var doc := current.value;
      doc := doc[MODEL_PROVIDER := Str("openai")];
      doc := doc[BASE_URL := Str(url)];
      config := Contents(doc);
      record := Contents(Record(2, legacy.originalProviderPresent, legacy.originalProvider, urlPresent, oldUrl, true,
                                url));
      ok := true;
    }

    method MigrateIfNeeded() returns (r: Outcome<bool>)
      modifies this
      ensures match MigrateIfNeededFiles(old(OnDisk()), url)
        case Done(p) => r == Done(p.1) && OnDisk() == p.0
        case Failed => r.Failed? && OnDisk() == old(OnDisk())
    {
      if record.Missing? {
        return Done(false);
      }
      if record.Unreadable? {
        return Failed;
      }
      if record.value.version != 1 {
        return Done(false);
      }
      var status := Status();
      if status.Failed? {
        return Failed;
      }
      if status.value != Enabled {
        return Done(false);
      }
      var ok := MigrateLegacyRecord();
      r := if ok then Done(true) else Failed;
    }
  }

  // ---------------------------------------------------------------- enabling and disabling

  predicate IsManaged(key: string) {
    key == MODEL_PROVIDER || key == BASE_URL
  }

  // An edit by someone else: one key is set or removed.
  datatype Edit = Edit(key: string, item: Option<Item>)

  function Edited(doc: Doc, e: Edit): Doc {
    if e.item.Some? then doc[e.key := e.item.value] else doc - {e.key}
  }

  function EditedBy(doc: Doc, es: seq<Edit>): Doc {
    if es == [] then doc else Edited(EditedBy(doc, es[..|es| - 1]), es[|es| - 1])
  }

  ghost predicate SameKey(d: Doc, e: Doc, key: string) {
    (key in d <==> key in e) && (key in d ==> d[key] == e[key])
  }

  ghost predicate SameOutside(d: Doc, e: Doc) {
    forall key :: !IsManaged(key) ==> SameKey(d, e, key)
  }

  ghost predicate SameInside(d: Doc, e: Doc) {
    forall key :: IsManaged(key) ==> SameKey(d, e, key)
  }

  // The managed keys of one document and the others of another.
  ghost predicate Merges(after: Doc, managed: Doc, others: Doc) {
    forall key :: SameKey(after, if IsManaged(key) then managed else others, key)
  }

  lemma {:induction false} EditsCommute(d: Doc, e: Doc, es: seq<Edit>)
    requires forall i :: 0 <= i < |es| ==> !IsManaged(es[i].key)
    requires SameOutside(d, e)
    ensures SameOutside(EditedBy(d, es), EditedBy(e, es)) && SameInside(EditedBy(d, es), d)
  {
    if es != [] {
      EditsCommute(d, e, es[..|es| - 1]);
    }
  }

  lemma KeysDiffer()
    ensures MODEL_PROVIDER != BASE_URL && MODEL_PROVIDER != MODEL_PROVIDERS && BASE_URL != MODEL_PROVIDERS
  {
    assert |MODEL_PROVIDER| == 14 && |BASE_URL| == 15 && |MODEL_PROVIDERS| == 15;
    assert BASE_URL[0] != MODEL_PROVIDERS[0];
  }

  // The record an enable writes.
  function RecordOf(doc: Doc, url: string): Record {
    Record(2, MODEL_PROVIDER in doc, TextAt(doc, MODEL_PROVIDER), BASE_URL in doc, TextAt(doc, BASE_URL), false, url)
  }

  lemma UndoRestores(original: Doc, doc: Doc, url: string)
    requires !NotText(original, MODEL_PROVIDER) && !NotText(original, BASE_URL)
    ensures var undone := Undone(doc, RecordOf(original, url));
      undone.Some? && Merges(undone.value, original, doc)
  {
    KeysDiffer();
  }

  // Enable, then any edits to other keys, then disable: both managed keys are
  // back at their prior value or absence, every other key is as last edited.
  lemma EnableEditDisable(f: Files, url: string, es: seq<Edit>)
    requires f.record.Missing? && EnableFiles(f, url).Done?
    requires forall i :: 0 <= i < |es| ==> !IsManaged(es[i].key)
    ensures var g := EnableFiles(f, url).value;
      var h := g.(config := Contents(EditedBy(g.config.value, es)));
      var before := ReadDocument(f.config).value;
      && g.config.Contents? && DisableFiles(h).Done?
      && DisableFiles(h).value.record.Missing? && DisableFiles(h).value.config.Contents?
      && IsDocument(f.config, before)
      && Merges(DisableFiles(h).value.config.value, before, EditedBy(before, es))
  {
    var before := ReadDocument(f.config).value;
    var g := EnableFiles(f, url).value;
    EnabledFiles(f, url);
    var doc := EditedBy(Managed(before, url), es);
    EditedUndone(before, url, es);
    DisabledFiles(g.(config := Contents(doc)), doc, RecordOf(before, url));
  }

  lemma EnabledFiles(f: Files, url: string)
    requires f.record.Missing? && EnableFiles(f, url).Done?
    ensures var g := EnableFiles(f, url).value;
      && ReadDocument(f.config).Some?
      && var before := ReadDocument(f.config).value;
         && !NotText(before, MODEL_PROVIDER) && !NotText(before, BASE_URL)
         && g.config == Contents(Managed(before, url)) && g.record == Contents(RecordOf(before, url))
  {
  }

  lemma DisabledFiles(f: Files, doc: Doc, r: Record)
    requires f.config == Contents(doc) && f.record == Contents(r) && !Drift(doc, r) && Undone(doc, r).Some?
    ensures DisableFiles(f) == Done(f.(config := Contents(Undone(doc, r).value), record := Missing))
  {
  }

  lemma EditedUndone(before: Doc, url: string, es: seq<Edit>)
    requires !NotText(before, MODEL_PROVIDER) && !NotText(before, BASE_URL)
    requires forall i :: 0 <= i < |es| ==> !IsManaged(es[i].key)
    ensures var doc, r := EditedBy(Managed(before, url), es), RecordOf(before, url);
      && !Drift(doc, r) && Undone(doc, r).Some? && Merges(Undone(doc, r).value, before, EditedBy(before, es))
  {
    var doc := EditedBy(Managed(before, url), es);
    EnabledDocument(before, url);
    EditsCommute(Managed(before, url), before, es);
    DriftInside(doc, Managed(before, url), url);
    UndoRestores(before, doc, url);
    MergesOutside(Undone(doc, RecordOf(before, url)).value, before, doc, EditedBy(before, es));
  }

  lemma EnabledDocument(before: Doc, url: string)
    ensures !ManagedDrift(Managed(before, url), url)
    ensures SameOutside(Managed(before, url), before)
  {
    KeysDiffer();
  }

  // Drift is seen on the managed keys alone.
  lemma DriftInside(d: Doc, e: Doc, url: string)
    requires SameInside(d, e)
    ensures ManagedDrift(d, url) == ManagedDrift(e, url)
  {
    assert SameKey(d, e, MODEL_PROVIDER) && SameKey(d, e, BASE_URL);
  }

  lemma MergesOutside(after: Doc, managed: Doc, d: Doc, e: Doc)
    requires Merges(after, managed, d) && SameOutside(d, e)
    ensures Merges(after, managed, e)
  {
    forall key ensures SameKey(after, if IsManaged(key) then managed else e, key) {
      assert SameKey(after, if IsManaged(key) then managed else d, key);
    }
  }

  // Enabling twice is enabling once.
  lemma EnableIsIdempotent(f: Files, url: string)
    requires EnableFiles(f, url).Done?
    ensures EnableFiles(EnableFiles(f, url).value, url) == EnableFiles(f, url)
    ensures StatusOf(EnableFiles(f, url).value) == Done(Enabled)
  {
    KeysDiffer();
  }

  // The document of a file; one that is missing is empty.
  predicate IsDocument(f: File<Doc>, doc: Doc) {
    f == Contents(doc) || (f.Missing? && doc == map[])
  }

  predicate Holds(doc: Doc, key: string, text: string) {
    key in doc && doc[key] == Str(text)
  }

  predicate AbsentOrText(doc: Doc, key: string) {
    key in doc ==> doc[key].Str?
  }

  // The managed values are as an enable wrote them; version 1 wrote a provider.
  predicate AsWritten(doc: Doc, r: Record) {
    if r.version == 1 then
      && Holds(doc, "model_provider", "codex-switcher")
      && "model_providers" in doc && doc["model_providers"].Table? && "codex-switcher" in doc["model_providers"].entries
      && doc["model_providers"].entries["codex-switcher"] ==
           Table(map["name" := Str("Codex Switcher"), "base_url" := Str(r.baseUrl), "wire_api" := Str("responses"),
                     "requires_openai_auth" := Bool(true), "supports_websockets" := Bool(false)])
    else Holds(doc, "model_provider", "openai") && Holds(doc, "openai_base_url", r.baseUrl)
  }

  ghost predicate Intact(f: Files) {
    f.record.Contents? && exists doc :: IsDocument(f.config, doc) && AsWritten(doc, f.record.value)
  }

  lemma DriftIff(doc: Doc, r: Record)
    ensures Drift(doc, r) <==> !AsWritten(doc, r)
  {
  }

  lemma DocumentIs(f: File<Doc>)
    ensures forall doc :: IsDocument(f, doc) <==> ReadDocument(f) == Some(doc)
  {
  }

  // Disabled without a record, enabled when every managed value is as written,
  // drifted when one is not, and unknown when a file cannot be read.
  lemma StatusIs(f: Files)
    ensures StatusOf(f) == Done(Disabled) <==> f.record.Missing?
    ensures StatusOf(f) == Done(Enabled) <==> Intact(f)
    ensures StatusOf(f) == Done(Drifted) <==> f.record.Contents? && !f.config.Unreadable? && !Intact(f)
  {
    DocumentIs(f.config);
    if f.record.Contents? && ReadDocument(f.config).Some? {
      DriftIff(ReadDocument(f.config).value, f.record.value);
    }
  }

  // Enabling succeeds where nothing is there and both keys are absent or texts,
  // and where an integration is intact; a version 1 one needs its backup too.
  lemma EnableSucceedsIff(f: Files, url: string)
    ensures EnableFiles(f, url).Done? <==>
      if f.record.Missing? then
        exists doc :: IsDocument(f.config, doc)
          && AbsentOrText(doc, "model_provider") && AbsentOrText(doc, "openai_base_url")
      else
        Intact(f) && (f.record.value.version == 1 ==>
          exists backup :: IsDocument(f.backup, backup) && AbsentOrText(backup, "openai_base_url"))
  {
    DocumentIs(f.config);
    DocumentIs(f.backup);
    StatusIs(f);
  }

  // Disabling succeeds without an integration, and for one that is intact and
  // whose record has the values it promises.
  lemma DisableSucceedsIff(f: Files)
    ensures DisableFiles(f).Done? <==>
      f.record.Missing? ||
      (Intact(f) && var r := f.record.value;
                    && (r.originalProviderPresent ==> r.originalProvider.Some?)
                    && (r.version >= 2 && r.originalUrlPresent ==> r.originalUrl.Some?))
  {
    DocumentIs(f.config);
    if f.record.Contents? && ReadDocument(f.config).Some? {
      DriftIff(ReadDocument(f.config).value, f.record.value);
    }
  }

  // An enable that succeeds leaves the built-in provider selected and every other
  // key alone; it points at this proxy unless a version 2 integration with another
  // address was already there, which it leaves in place.
  lemma EnabledPointsHereIff(f: Files, url: string)
    requires EnableFiles(f, url).Done?
    ensures var g := EnableFiles(f, url).value;
      exists before, doc :: IsDocument(f.config, before) && IsDocument(g.config, doc)
        && Holds(doc, "model_provider", "openai")
        && (Holds(doc, "openai_base_url", url) <==>
              || f.record.Missing?
              || (f.record.Contents? && (f.record.value.version == 1 || f.record.value.baseUrl == url)))
        && (forall key :: key != "model_provider" && key != "openai_base_url" ==> SameKey(doc, before, key))
        && g.backup == if f.record.Missing? && f.backup.Missing? then Contents(before) else f.backup
  {
    KeysDiffer();
    DocumentIs(f.config);
    DocumentIs(EnableFiles(f, url).value.config);
    var before, doc := ReadDocument(f.config).value, ReadDocument(EnableFiles(f, url).value.config).value;
    assert IsDocument(f.config, before) && IsDocument(EnableFiles(f, url).value.config, doc);
  }

  // A drifted integration is left alone by enable, disable and migration.
  lemma DriftIsRefused(f: Files, url: string)
    requires f.record.Contents? && !f.config.Unreadable? && !Intact(f)
    ensures StatusOf(f) == Done(Drifted)
    ensures EnableFiles(f, url).Failed? && DisableFiles(f).Failed? && MigrateIfNeededFiles(f, url) == Done((f, false))
  {
    StatusIs(f);
    DisableSucceedsIff(f);
  }

  // ---------------------------------------------------------------- migration

  // A healthy version 1 integration, migrated and then disabled: the base URL is
  // as the backup had it, the provider key as the record says, the legacy
  // provider is gone, and every other key is unchanged.
  lemma MigrateThenDisable(f: Files, url: string)
    requires f.record.Contents? && f.record.value.version == 1 && MigrateFiles(f, url).Done?
    ensures var g := MigrateFiles(f, url).value;
      var doc, backup := ReadDocument(f.config).value, ReadDocument(f.backup).value;
      && StatusOf(g) == Done(Enabled)
      && (DisableFiles(g).Done? <==> DisableFiles(f).Done?)
      && (DisableFiles(g).Done? ==>
            && DisableFiles(f).value.config.Contents? && DisableFiles(g).value.config.Contents?
            && DisableFiles(g).value.record.Missing? && DisableFiles(g).value.backup == f.backup
            && SameKey(DisableFiles(g).value.config.value, backup, BASE_URL)
            && forall key :: key != BASE_URL ==>
                 SameKey(DisableFiles(g).value.config.value, DisableFiles(f).value.config.value, key))
  {
    KeysDiffer();
    var doc, g := ReadDocument(f.config).value, MigrateFiles(f, url).value;
    assert g.config == Contents(Managed(doc, url)) && g.record.Contents?;
  }

  lemma SameDocument(d: Doc, e: Doc)
    requires forall key :: SameKey(d, e, key)
    ensures d == e
  {
    forall key | key in d ensures key in e && d[key] == e[key] { assert SameKey(d, e, key); }
    forall key | key in e ensures key in d { assert SameKey(d, e, key); }
  }

  // A direct disable of version 1 leaves the base URL as it is.
  lemma DirectKeepsUrl(f: Files)
    requires f.record.Contents? && f.record.value.version == 1 && DisableFiles(f).Done?
    ensures DisableFiles(f).value.config.Contents? && ReadDocument(f.config).Some?
    ensures SameKey(DisableFiles(f).value.config.value, ReadDocument(f.config).value, BASE_URL)
  {
    KeysDiffer();
  }

  // Migrating and then disabling is disabling directly, exactly when the
  // document's base URL agrees with the backup's.
  lemma MigrationCommutesWithUndo(f: Files, url: string)
    requires f.record.Contents? && f.record.value.version == 1
    requires MigrateFiles(f, url).Done? && DisableFiles(f).Done?
    ensures DisableFiles(MigrateFiles(f, url).value) == DisableFiles(f) <==>
      SameKey(ReadDocument(f.config).value, ReadDocument(f.backup).value, BASE_URL)
  {
    MigrateThenDisable(f, url);
    DirectKeepsUrl(f);
    var doc, backup := ReadDocument(f.config).value, ReadDocument(f.backup).value;
    var direct, migrated := DisableFiles(f).value, DisableFiles(MigrateFiles(f, url).value).value;
    assert direct.backup == f.backup && direct.record.Missing?;
    assert SameKey(direct.config.value, doc, BASE_URL) && SameKey(migrated.config.value, backup, BASE_URL);
    if SameKey(doc, backup, BASE_URL) {
      SameDocument(migrated.config.value, direct.config.value);
    }
  }
}
