/**
 * The extension analyzer: given an uploaded extension archive it picks the
 * datamodel document and the module descriptor among the archive's
 * entries, reads the extension's label and version out of the descriptor,
 * and folds the parsed datamodel into a flat summary of its classes, menus,
 * user rights, module parameters and module designs.
 *
 * Reading the archive and parsing XML are done by libraries: an archive is
 * given as its entries (name and decoded text), and the parser as a
 * function from text to the parsed value or the parser's error.
 */
module ExtensionDescriptor {
  import opened Text
  import opened JsValue

  // ---------------------------------------------------------------------------
  // Reading the label and the version out of the module descriptor
  //
  // The two patterns are `SetupWebPage::AddModule\([\s\S]*?KEY\s*=>\s*OPEN(.*?)'`
  // with KEY `'label'` and OPEN `Dict::S('` for the label, KEY `'version'`
  // and OPEN `'` for the version. A leftmost match starts at the first
  // occurrence of the call (a later start only has fewer places to try),
  // the lazy `[\s\S]*?` then takes the first place where the rest matches,
  // each `\s*` takes the whole run of white space (the next character must
  // be `=` or a letter of OPEN), and the lazy `(.*?)` ends at the first
  // quote, which must come before any line terminator.

  const AddModuleCall: string := "SetupWebPage::AddModule("
  const LabelKey: string := "'label'"
  const LabelOpen: string := "Dict::S('"
  const VersionKey: string := "'version'"
  const VersionOpen: string := "'"
  const UnknownName: string := "Unknown Extension"
  const UnknownVersion: string := "Unknown Version"

  /** The end of the run of white space starting at `k`. */
  function SkipSpace(s: string, k: nat): (r: nat)
    requires k <= |s|
    ensures k <= r <= |s|
    ensures forall j :: k <= j < r ==> IsJsWhitespace(s[j])
    ensures r < |s| ==> !IsJsWhitespace(s[r])
    decreases |s| - k
  {
    if k < |s| && IsJsWhitespace(s[k]) then SkipSpace(s, k + 1) else k
  }

  /** `(.*?)'` can end its capture at `e`. */
  predicate QuoteAt(s: string, k: nat, e: nat) {
    k <= e < |s| && s[e] == '\'' && forall j :: k <= j < e ==> !IsLineTerminator(s[j])
  }

  /** The end of the shortest capture of `(.*?)'` from `k`, if any. */
  function QuoteEnd(s: string, k: nat): (r: Option<nat>)
    requires k <= |s|
    ensures r.Some? ==> QuoteAt(s, k, r.value) && forall e :: k <= e < r.value ==> !QuoteAt(s, k, e)
    ensures r.None? ==> forall e :: !QuoteAt(s, k, e)
    decreases |s| - k
  {
    if k == |s| || IsLineTerminator(s[k]) then None
    else if s[k] == '\'' then Some(k)
    else
      var r := QuoteEnd(s, k + 1);
      assert forall e :: QuoteAt(s, k, e) ==> QuoteAt(s, k + 1, e) by {
        forall e | QuoteAt(s, k, e) ensures QuoteAt(s, k + 1, e) {
          assert e != k;
        }
      }
      r
  }

  /** `KEY\s*=>\s*OPEN(.*?)'` matched at `j`, with its capture. */
  function PatternAt(s: string, j: nat, key: string, open: string): (r: Option<string>)
    requires j <= |s|
    ensures r.Some? ==> forall c :: c in r.value ==> c != '\'' && !IsLineTerminator(c)
  {
    if !OccursAt(s, key, j) then None
    else
      var a := SkipSpace(s, j + |key|);
      if !OccursAt(s, "=>", a) then None
      else
        var b := SkipSpace(s, a + 2);
        if !OccursAt(s, open, b) then None
        else
          match QuoteEnd(s, b + |open|)
          case None => None
          case Some(e) =>
            assert forall c :: c in s[b + |open|..e] ==> c != '\'' && !IsLineTerminator(c) by {
              forall c | c in s[b + |open|..e] ensures c != '\'' && !IsLineTerminator(c) {
                var m :| 0 <= m < e - (b + |open|) && s[b + |open|..e][m] == c;
                assert !QuoteAt(s, b + |open|, b + |open| + m) || m == e - (b + |open|);
              }
            }
            Some(s[b + |open|..e])
  }

  /** Where the rest of the pattern matches: `hits[j]` for every position
      `j` of `s`, its end included. */
  function Hits(s: string, key: string, open: string): (r: seq<bool>)
    ensures |r| == |s| + 1
    ensures forall j :: 0 <= j <= |s| ==> r[j] == PatternAt(s, j, key, open).Some?
  {
    seq(|s| + 1, j requires 0 <= j <= |s| => PatternAt(s, j, key, open).Some?)
  }

  /** The lazy `[\s\S]*?`: the first hit at or after `j`. */
  function FirstHit(hits: seq<bool>, j: nat): (r: Option<nat>)
    requires j <= |hits|
    ensures r.Some? ==> j <= r.value < |hits| && hits[r.value]
    ensures r.Some? ==> forall k :: j <= k < r.value ==> !hits[k]
    ensures r.None? ==> forall k :: j <= k < |hits| ==> !hits[k]
    decreases |hits| - j
  {
    if j == |hits| then None
    else if hits[j] then Some(j)
    else FirstHit(hits, j + 1)
  }

  /** The first hit after the first occurrence of the call at or after
      `from`, if any. */
  function MatchFrom(s: string, call: string, hits: seq<bool>, from: nat): (r: Option<nat>)
    requires |hits| == |s| + 1
    ensures r.Some? ==> Contains(s, call) && r.value < |hits| && hits[r.value]
    decreases |s| - from
  {
    if from + |call| > |s| then None
    else if OccursAt(s, call, from) then FirstHit(hits, from + |call|)
    else MatchFrom(s, call, hits, from + 1)
  }

  /** The capture of `CALL[\s\S]*?KEY\s*=>\s*OPEN(.*?)'`, CALL being the
      escaped `SetupWebPage::AddModule(`: the match starts at the first
      occurrence of the call and the capture is the one of the first place
      after it where the rest of the pattern matches. */
  function ModuleMatch(s: string, call: string, key: string, open: string): (r: Option<string>)
    ensures r.Some? ==> Contains(s, call)
    ensures r.Some? ==> forall c :: c in r.value ==> c != '\'' && !IsLineTerminator(c)
  {
    match MatchFrom(s, call, Hits(s, key, open), 0)
    case None => None
    case Some(m) => PatternAt(s, m, key, open)
  }

  /** Leftmost, then lazy: when `i` is the first occurrence of the call and
      `m` the first place after it where the rest of the pattern matches,
      the capture is the one at `m`. */
  lemma ModuleMatchFirst(s: string, call: string, key: string, open: string, i: nat, m: nat)
    requires OccursAt(s, call, i) && forall j: nat :: j < i ==> !OccursAt(s, call, j)
    requires i + |call| <= m <= |s| && PatternAt(s, m, key, open).Some?
    requires forall j: nat :: i + |call| <= j < m ==> PatternAt(s, j, key, open).None?
    ensures ModuleMatch(s, call, key, open) == PatternAt(s, m, key, open)
  {
    var hits := Hits(s, key, open);
    assert hits[m];
    forall k | i + |call| <= k < m
      ensures !hits[k]
    {
      assert PatternAt(s, k, key, open).None?;
    }
    MatchFromFirst(s, call, hits, 0, i, m);
  }

  lemma {:induction false} MatchFromFirst(s: string, call: string, hits: seq<bool>, from: nat, i: nat, m: nat)
    requires |hits| == |s| + 1
    requires from <= i && OccursAt(s, call, i) && forall j: nat :: from <= j < i ==> !OccursAt(s, call, j)
    requires i + |call| <= m <= |s| && hits[m] && forall k :: i + |call| <= k < m ==> !hits[k]
    ensures MatchFrom(s, call, hits, from) == Some(m)
    decreases i - from
  {
    if from < i {
      assert !OccursAt(s, call, from);
      MatchFromFirst(s, call, hits, from + 1, i, m);
    } else {
      FirstHitAt(hits, i + |call|, m);
    }
  }

  lemma {:induction false} FirstHitAt(hits: seq<bool>, j: nat, m: nat)
    requires j <= m < |hits| && hits[m] && forall k :: j <= k < m ==> !hits[k]
    ensures FirstHit(hits, j) == Some(m)
    decreases m - j
  {
    if j < m {
      FirstHitAt(hits, j + 1, m);
    }
  }

  /** There is no capture exactly when no occurrence of the call is followed
      by a place where the rest of the pattern matches. */
  lemma ModuleMatchNone(s: string, call: string, key: string, open: string)
    ensures ModuleMatch(s, call, key, open).None? <==>
              forall i: nat, m: nat :: OccursAt(s, call, i) && i + |call| <= m <= |s| ==> PatternAt(s, m, key, open).None?
  {
    var hits := Hits(s, key, open);
    MatchFromNone(s, call, hits, 0);
  }

  lemma {:induction false} MatchFromNone(s: string, call: string, hits: seq<bool>, from: nat)
    requires |hits| == |s| + 1
    ensures MatchFrom(s, call, hits, from).None? <==>
              forall i: nat, m: nat :: from <= i && OccursAt(s, call, i) && i + |call| <= m <= |s| ==> !hits[m]
    decreases |s| - from
  {
    if from + |call| > |s| {
    } else if OccursAt(s, call, from) {
      match FirstHit(hits, from + |call|)
      case None =>
      case Some(m) =>
        assert from <= from && OccursAt(s, call, from) && from + |call| <= m <= |s| && hits[m];
    } else {
      MatchFromNone(s, call, hits, from + 1);
    }
  }

  /** The extension's label, or the fallback when the pattern does not match. */
  function ExtractExtensionName(moduleContent: string): (r: string)
    ensures ModuleMatch(moduleContent, AddModuleCall, LabelKey, LabelOpen).Some? ==>
              r == ModuleMatch(moduleContent, AddModuleCall, LabelKey, LabelOpen).value
    ensures ModuleMatch(moduleContent, AddModuleCall, LabelKey, LabelOpen).None? ==> r == UnknownName
    ensures r == UnknownName || forall c :: c in r ==> c != '\'' && !IsLineTerminator(c)
  {
    match ModuleMatch(moduleContent, AddModuleCall, LabelKey, LabelOpen)
    case Some(text) => text
    case None => UnknownName
  }

  /** The extension's version, or the fallback when the pattern does not match. */
  function ExtractExtensionVersion(moduleContent: string): (r: string)
    ensures ModuleMatch(moduleContent, AddModuleCall, VersionKey, VersionOpen).Some? ==>
              r == ModuleMatch(moduleContent, AddModuleCall, VersionKey, VersionOpen).value
    ensures ModuleMatch(moduleContent, AddModuleCall, VersionKey, VersionOpen).None? ==> r == UnknownVersion
    ensures r == UnknownVersion || forall c :: c in r ==> c != '\'' && !IsLineTerminator(c)
  {
    match ModuleMatch(moduleContent, AddModuleCall, VersionKey, VersionOpen)
    case Some(text) => text
    case None => UnknownVersion
  }

  /** A text fit to be captured by `(.*?)'`. */
  predicate Capturable(text: string) {
    forall c :: c in text ==> c != '\'' && !IsLineTerminator(c)
  }

  /** The shortest capture ends at the first quote. */
  lemma QuoteEndAt(s: string, k: nat, e: nat)
    requires k <= e < |s| && s[e] == '\''
    requires forall j :: k <= j < e ==> s[j] != '\'' && !IsLineTerminator(s[j])
    ensures QuoteEnd(s, k) == Some(e)
  {
    assert QuoteAt(s, k, e);
  }

  /** `KEY => OPEN`, with one space on each side of the arrow, matches at
      the key up to the first quote after OPEN. */
  lemma PatternAtSpaced(s: string, j: nat, key: string, open: string, e: nat)
    requires OccursAt(s, key, j) && open != [] && !IsJsWhitespace(open[0])
    requires OccursAt(s, " => ", j + |key|) && OccursAt(s, open, j + |key| + 4)
    requires QuoteEnd(s, j + |key| + 4 + |open|) == Some(e)
    ensures PatternAt(s, j, key, open) == Some(s[j + |key| + 4 + |open|..e])
  {
    var t := j + |key|;
    ArrowChars(s, t);
    SkipOneSpace(s, t);
    assert s[t + 1..t + 3] == "=>";
    SkipOneSpace(s, t + 3);
  }

  lemma ArrowChars(s: string, t: nat)
    requires OccursAt(s, " => ", t)
    ensures s[t] == ' ' && s[t + 1] == '=' && s[t + 2] == '>' && s[t + 3] == ' '
  {
    assert s[t..t + 4][0] == s[t] && s[t..t + 4][1] == s[t + 1];
    assert s[t..t + 4][2] == s[t + 2] && s[t..t + 4][3] == s[t + 3];
  }

  /** `\s*` over a single space. */
  lemma SkipOneSpace(s: string, k: nat)
    requires k + 1 < |s| && s[k] == ' ' && !IsJsWhitespace(s[k + 1])
    ensures SkipSpace(s, k) == k + 1
  {
  }

  /** `KEY => OPEN` followed by a capturable text and a quote matches at
      the key, and captures that text. */
  lemma PatternAtWritten(pre: string, key: string, open: string, text: string, rest: string)
    requires open != [] && !IsJsWhitespace(open[0]) && Capturable(text)
    ensures var s := pre + key + " => " + open + text + "'" + rest;
            PatternAt(s, |pre|, key, open) == Some(text)
  {
    var s := pre + key + " => " + open + text + "'" + rest;
    var j := |pre|;
    var k := j + |key| + 4 + |open|;
    var e := k + |text|;
    assert s[j..j + |key|] == key;
    assert s[j + |key|..j + |key| + 4] == " => ";
    assert s[j + |key| + 4..k] == open;
    assert s[k..e] == text;
    assert s[e] == '\'';
    forall i | k <= i < e
      ensures s[i] != '\'' && !IsLineTerminator(s[i])
    {
      assert s[i] == text[i - k] && text[i - k] in text;
    }
    QuoteEndAt(s, k, e);
    PatternAtSpaced(s, j, key, open, e);
  }

  /** A module descriptor that opens with the call and writes the key right
      after it gives back the text written there. */
  lemma ModuleMatchWritten(call: string, key: string, open: string, text: string, rest: string)
    requires open != [] && !IsJsWhitespace(open[0]) && Capturable(text)
    ensures ModuleMatch(call + key + " => " + open + text + "'" + rest, call, key, open) == Some(text)
  {
    var s := call + key + " => " + open + text + "'" + rest;
    assert s == call + key + " => " + open + text + "'" + rest;
    PatternAtWritten(call, key, open, text, rest);
    assert s[0..|call|] == call;
    var hits := Hits(s, key, open);
    assert hits[|call|];
    assert MatchFrom(s, call, hits, 0) == FirstHit(hits, |call|) == Some(|call|);
  }

  /** A label written as `'label' => Dict::S('…')` right after the call is
      read back. */
  lemma NameRoundTrip(name: string, rest: string)
    requires Capturable(name)
    ensures ExtractExtensionName(AddModuleCall + LabelKey + " => " + LabelOpen + name + "'" + rest) == name
  {
    ModuleMatchWritten(AddModuleCall, LabelKey, LabelOpen, name, rest);
  }

  /** A version written as `'version' => '…'` right after the call is read
      back. */
  lemma VersionRoundTrip(version: string, rest: string)
    requires Capturable(version)
    ensures ExtractExtensionVersion(AddModuleCall + VersionKey + " => " + VersionOpen + version + "'" + rest) == version
  {
    ModuleMatchWritten(AddModuleCall, VersionKey, VersionOpen, version, rest);
  }

  /** A descriptor without the `SetupWebPage::AddModule(` call yields both
      fallbacks. */
  lemma NoModuleCall(moduleContent: string)
    requires !Contains(moduleContent, AddModuleCall)
    ensures ExtractExtensionName(moduleContent) == UnknownName
    ensures ExtractExtensionVersion(moduleContent) == UnknownVersion
  {
  }

  // ---------------------------------------------------------------------------
  // Choosing the entries of the archive

  datatype Entry = Entry(name: string, text: string)

  const ModuleFileSuffix: string := "module.itop-your-extension-name.php"

  predicate IsDatamodelEntry(name: string) {
    EndsWith(name, ".xml") && Contains(name, "datamodel")
  }

  predicate IsModuleEntry(name: string) {
    EndsWith(name, ModuleFileSuffix)
  }

  /** The two rules never compete for a name: no name ends in both `.xml`
      and `.php`. */
  lemma DatamodelIsNotModule(name: string)
    ensures IsDatamodelEntry(name) ==> !IsModuleEntry(name)
  {
    if IsDatamodelEntry(name) && IsModuleEntry(name) {
      LastOfSuffix(name, ".xml");
      LastOfSuffix(name, ModuleFileSuffix);
    }
  }

  lemma LastOfSuffix(s: string, p: string)
    requires EndsWith(s, p) && p != []
    ensures s[|s| - 1] == p[|p| - 1]
  {
    assert s[|s| - |p|..][|p| - 1] == s[|s| - 1];
  }

  /** The text of the last datamodel entry, "" when there is none. */
  function SelectedDatamodel(entries: seq<Entry>): string {
    if entries == [] then ""
    else if IsDatamodelEntry(entries[|entries| - 1].name) then entries[|entries| - 1].text
    else SelectedDatamodel(entries[..|entries| - 1])
  }

  /** The text of the last entry the `else if` hands to the extractors. */
  function SelectedModule(entries: seq<Entry>): Option<string> {
    if entries == [] then None
    else
      var e := entries[|entries| - 1];
      if !IsDatamodelEntry(e.name) && IsModuleEntry(e.name) then Some(e.text)
      else SelectedModule(entries[..|entries| - 1])
  }

  function NameFrom(descriptor: Option<string>): string {
    match descriptor
    case None => ""
    case Some(text) => ExtractExtensionName(text)
  }

  function VersionFrom(descriptor: Option<string>): string {
    match descriptor
    case None => ""
    case Some(text) => ExtractExtensionVersion(text)
  }

  /** The walk over the archive's entries: a datamodel entry overwrites the
      document, any other module descriptor overwrites name and version. */
  method ScanEntries(entries: seq<Entry>) returns (datamodelXml: string, extensionName: string, extensionVersion: string)
    ensures datamodelXml == SelectedDatamodel(entries)
    ensures extensionName == NameFrom(SelectedModule(entries))
    ensures extensionVersion == VersionFrom(SelectedModule(entries))
  {
    datamodelXml, extensionName, extensionVersion := "", "", "";
    for i := 0 to |entries|
      invariant datamodelXml == SelectedDatamodel(entries[..i])
      invariant extensionName == NameFrom(SelectedModule(entries[..i]))
      invariant extensionVersion == VersionFrom(SelectedModule(entries[..i]))
    {
      var entry := entries[i];
      assert entries[..i + 1][..i] == entries[..i];
      if IsDatamodelEntry(entry.name) {
        datamodelXml := entry.text;
      } else if IsModuleEntry(entry.name) {
        extensionName := ExtractExtensionName(entry.text);
        extensionVersion := ExtractExtensionVersion(entry.text);
      }
    }
    assert entries[..|entries|] == entries;
  }

  /** The last datamodel entry wins: later matches overwrite earlier ones. */
  lemma {:induction false} LastDatamodelWins(entries: seq<Entry>, i: nat)
    requires i < |entries| && IsDatamodelEntry(entries[i].name)
    requires forall j :: i < j < |entries| ==> !IsDatamodelEntry(entries[j].name)
    ensures SelectedDatamodel(entries) == entries[i].text
    decreases |entries|
  {
    if i < |entries| - 1 {
      LastDatamodelWins(entries[..|entries| - 1], i);
    }
  }

  /** Without a datamodel entry the selected document is empty. */
  lemma {:induction false} NoDatamodelEntry(entries: seq<Entry>)
    requires forall j :: 0 <= j < |entries| ==> !IsDatamodelEntry(entries[j].name)
    ensures SelectedDatamodel(entries) == ""
  {
    if entries != [] {
      NoDatamodelEntry(entries[..|entries| - 1]);
    }
  }

  /** A descriptor is found exactly when some entry name ends with the
      descriptor's file name. */
  lemma {:induction false} ModuleFound(entries: seq<Entry>)
    ensures SelectedModule(entries).Some? <==> exists j :: 0 <= j < |entries| && IsModuleEntry(entries[j].name)
  {
    if entries != [] {
      var e := entries[|entries| - 1];
      ModuleFound(entries[..|entries| - 1]);
      DatamodelIsNotModule(e.name);
      if SelectedModule(entries[..|entries| - 1]).Some? {
        var j :| 0 <= j < |entries| - 1 && IsModuleEntry(entries[..|entries| - 1][j].name);
        assert IsModuleEntry(entries[j].name);
      }
      if exists j :: 0 <= j < |entries| && IsModuleEntry(entries[j].name) {
        var j :| 0 <= j < |entries| && IsModuleEntry(entries[j].name);
        if j < |entries| - 1 {
          assert IsModuleEntry(entries[..|entries| - 1][j].name);
        }
      }
    }
  }

  /** Name and version stay "" when no entry is a module descriptor; the
      fallbacks only appear when one is there and its pattern fails. */
  lemma ModuleFields(entries: seq<Entry>)
    ensures (forall j :: 0 <= j < |entries| ==> !IsModuleEntry(entries[j].name)) ==>
              NameFrom(SelectedModule(entries)) == "" && VersionFrom(SelectedModule(entries)) == ""
    ensures NameFrom(SelectedModule(entries)) == UnknownName ==>
              exists j :: 0 <= j < |entries| && IsModuleEntry(entries[j].name)
    ensures VersionFrom(SelectedModule(entries)) == UnknownVersion ==>
              exists j :: 0 <= j < |entries| && IsModuleEntry(entries[j].name)
  {
    ModuleFound(entries);
  }

  // ---------------------------------------------------------------------------
  // The summary of a parsed datamodel

  /** Names and kinds are whatever the parsed attributes hold, `undefined`
      when the attribute is missing. */
  datatype FieldSummary = FieldSummary(name: JsVal, kind: JsVal)
  datatype ClassSummary = ClassSummary(name: JsVal, fields: seq<FieldSummary>)
  datatype MenuSummary = MenuSummary(id: JsVal, kind: JsVal)
  datatype RightSummary = RightSummary(action: JsVal, allowed: bool)
  datatype ProfileSummary = ProfileSummary(profile: JsVal, rights: seq<RightSummary>)
  datatype ParameterSummary = ParameterSummary(id: string, value: JsVal)
  datatype DesignSummary = DesignSummary(id: JsVal, description: string)

  datatype ExtensionData = ExtensionData(
    name: string,
    version: string,
    classes: seq<ClassSummary>,
    menus: seq<MenuSummary>,
    userRights: seq<ProfileSummary>,
    moduleParameters: seq<ParameterSummary>,
    moduleDesigns: seq<DesignSummary>)

  // The `map` and `flatMap` calls as written, named by the error a call on
  // a value that is not an array throws.
  const FieldsCallee: string := "cls.fields[0].field.map"
  const ActionsCallee: string := "group.actions[0].action.map"
  const GroupsCallee: string := "profile.groups[0].group.flatMap"
  const ClassesCallee: string := "design.classes[0].class.map"
  const MenusCallee: string := "design.menus[0].menu.map"
  const ProfilesCallee: string := "design.user_rights[0].profiles.flatMap"
  const ParametersCallee: string := "design.module_parameters[0].parameters.flatMap"
  const DesignsCallee: string := "design.module_designs[0].module_design.map"

  const DesignDescription: string := "Module design details"

  function FieldOf(field: JsVal): Result<FieldSummary> {
    var id :- Attribute(field, "id");
    var kind :- Attribute(field, "xsi_type");
    Ok(FieldSummary(id, kind))
  }

  function ClassOf(cls: JsVal): Result<ClassSummary> {
    var id :- Attribute(cls, "id");
    var fields :- Mapped(ChildList(cls, "fields", "field").value, FieldOf, FieldsCallee);
    Ok(ClassSummary(id, fields))
  }

  function MenuOf(menu: JsVal): Result<MenuSummary> {
    var id :- Attribute(menu, "id");
    var kind :- Attribute(menu, "xsi_type");
    Ok(MenuSummary(id, kind))
  }

  function RightOf(action: JsVal): Result<RightSummary> {
    var id :- Attribute(action, "id");
    Ok(RightSummary(id, Get(action, "_").value == Str("allow")))
  }

  /** The rights a group grants, one per action. */
  function GroupRights(group: JsVal): Result<seq<RightSummary>> {
    var actions :- ChildList(group, "actions", "action");
    Mapped(actions, RightOf, ActionsCallee)
  }

  /** A profile with the rights of all its groups, one group after another. */
  function ProfileOf(profile: JsVal): Result<ProfileSummary> {
    var id :- Attribute(profile, "id");
    var rights :- FlatMapped(ChildList(profile, "groups", "group").value, GroupRights, GroupsCallee);
    Ok(ProfileSummary(id, rights))
  }

  /** The profiles of one `profiles` node, when its `profile` is an array. */
  function ProfileGroupOf(profileGroup: JsVal): Result<seq<ProfileSummary>> {
    var profile :- Get(profileGroup, "profile");
    if Truthy(profile) && profile.Arr? then MapItems(profile.items, ProfileOf) else Ok([])
  }

  /** One entry per key of a parameters node; the value is kept as it is. */
  function ParametersOf(param: JsVal): Result<seq<ParameterSummary>> {
    var entries :- Entries(param);
    Ok(seq(|entries|, i requires 0 <= i < |entries| => ParameterSummary(entries[i].0, entries[i].1)))
  }

  function DesignOf(design: JsVal): Result<DesignSummary> {
    var id :- Attribute(design, "id");
    Ok(DesignSummary(id, DesignDescription))
  }

  function ClassesSection(design: JsVal): Result<seq<ClassSummary>> {
    var list :- ChildList(design, "classes", "class");
    Mapped(list, ClassOf, ClassesCallee)
  }

  function MenusSection(design: JsVal): Result<seq<MenuSummary>> {
    var list :- ChildList(design, "menus", "menu");
    Mapped(list, MenuOf, MenusCallee)
  }

  function UserRightsSection(design: JsVal): Result<seq<ProfileSummary>> {
    var list :- ChildList(design, "user_rights", "profiles");
    FlatMapped(list, ProfileGroupOf, ProfilesCallee)
  }

  function ParametersSection(design: JsVal): Result<seq<ParameterSummary>> {
    var list :- ChildList(design, "module_parameters", "parameters");
    FlatMapped(list, ParametersOf, ParametersCallee)
  }

  function DesignsSection(design: JsVal): Result<seq<DesignSummary>> {
    var list :- ChildList(design, "module_designs", "module_design");
    Mapped(list, DesignOf, DesignsCallee)
  }

  function EmptyData(name: string, version: string): ExtensionData {
    ExtensionData(name, version, [], [], [], [], [])
  }

  /** The summary of a parsed document, or the error its walk throws. */
  function Analysis(parsedXml: JsVal, name: string, version: string): Result<ExtensionData> {
    var design :- Get(parsedXml, "itop_design");
    if !Truthy(design) then Ok(EmptyData(name, version))
    else
      var classes :- ClassesSection(design);
      var menus :- MenusSection(design);
      var rights :- UserRightsSection(design);
      var parameters :- ParametersSection(design);
      var designs :- DesignsSection(design);
      Ok(ExtensionData(name, version, classes, menus, rights, parameters, designs))
  }

  /** Starts from a summary with every section empty and fills in the
      sections one by one. */
  method AnalyzeXml(parsedXml: JsVal, extensionName: string, extensionVersion: string) returns (r: Result<ExtensionData>)
    ensures r == Analysis(parsedXml, extensionName, extensionVersion)
  {
    var data := EmptyData(extensionName, extensionVersion);
    var design :- Get(parsedXml, "itop_design");
    if Truthy(design) {
      var classes :- ClassesSection(design);
      data := data.(classes := classes);
      var menus :- MenusSection(design);
      data := data.(menus := menus);
      var rights :- UserRightsSection(design);
      data := data.(userRights := rights);
      var parameters :- ParametersSection(design);
      data := data.(moduleParameters := parameters);
      var designs :- DesignsSection(design);
      data := data.(moduleDesigns := designs);
    }
    r := Ok(data);
  }

  // ---------------------------------------------------------------------------
  // Properties of the summary

  /** The summary carries the name and version it was given. */
  lemma AnalysisKeepsIdentity(parsedXml: JsVal, name: string, version: string)
    requires Analysis(parsedXml, name, version).Ok?
    ensures Analysis(parsedXml, name, version).value.name == name
    ensures Analysis(parsedXml, name, version).value.version == version
  {
  }

  /** Without a (truthy) `itop_design` root every section is empty. */
  lemma NoDesignNoSections(parsedXml: JsVal, name: string, version: string)
    requires Get(parsedXml, "itop_design").Ok? && !Truthy(Get(parsedXml, "itop_design").value)
    ensures Analysis(parsedXml, name, version) == Ok(EmptyData(name, version))
  {
  }

  /** A design whose section key is missing or falsy gets an empty list for
      that section: the guard hands nothing on and nothing is walked. */
  lemma AbsentSectionsEmpty(design: JsVal)
    requires Truthy(design)
    ensures !Truthy(Get(design, "classes").value) ==> ClassesSection(design) == Ok([])
    ensures !Truthy(Get(design, "menus").value) ==> MenusSection(design) == Ok([])
    ensures !Truthy(Get(design, "user_rights").value) ==> UserRightsSection(design) == Ok([])
    ensures !Truthy(Get(design, "module_parameters").value) ==> ParametersSection(design) == Ok([])
    ensures !Truthy(Get(design, "module_designs").value) ==> DesignsSection(design) == Ok([])
  {
  }

  /** A parse result of `undefined` or `null` has no properties to read. */
  lemma NothingParsedThrows(parsedXml: JsVal, name: string, version: string)
    requires parsedXml.Undefined? || parsedXml.Null?
    ensures Analysis(parsedXml, name, version).Throw?
  {
  }

  /** One class summary per class node, in order, each with the node's id
      and the summaries of its fields. */
  lemma ClassesPerNode(design: JsVal, nodes: seq<JsVal>)
    requires ChildList(design, "classes", "class") == Ok(Some(Arr(nodes)))
    requires ClassesSection(design).Ok?
    ensures |ClassesSection(design).value| == |nodes|
    ensures forall i :: 0 <= i < |nodes| ==>
              ClassOf(nodes[i]).Ok?
              && ClassesSection(design).value[i] == ClassOf(nodes[i]).value
              && ClassesSection(design).value[i].name == Attribute(nodes[i], "id").value
  {
  }

  /** A class with no `fields/field` children has no fields. */
  lemma ClassWithoutFields(cls: JsVal)
    requires Attribute(cls, "id").Ok?
    requires ChildList(cls, "fields", "field") == Ok(None)
    ensures ClassOf(cls) == Ok(ClassSummary(Attribute(cls, "id").value, []))
  {
  }

  /** Kinds are read from the attribute key `xsi_type` as spelled; an
      attribute kept under its qualified name `xsi:type` is not seen and the
      kind is `undefined`. */
  lemma KindKey(id: string, kind: string)
    ensures FieldOf(Obj([("$", Obj([("id", Str(id)), ("xsi_type", Str(kind))]))]))
              == Ok(FieldSummary(Str(id), Str(kind)))
    ensures FieldOf(Obj([("$", Obj([("id", Str(id)), ("xsi:type", Str(kind))]))]))
              == Ok(FieldSummary(Str(id), Undefined))
    ensures MenuOf(Obj([("$", Obj([("id", Str(id)), ("xsi:type", Str(kind))]))]))
              == Ok(MenuSummary(Str(id), Undefined))
  {
    var attrs := [("id", Str(id)), ("xsi:type", Str(kind))];
    assert "xsi:type" != "xsi_type" by { assert "xsi:type"[3] != "xsi_type"[3]; }
    assert "id" != "xsi_type";
    LookupAbsent(attrs, "xsi_type");
    LookupFirst([("id", Str(id)), ("xsi_type", Str(kind))], "xsi_type", 1);
  }

  /** For every attribute list, the name or id is the value under `id` and
      the kind the value under `xsi_type`; a list without that exact key
      gives the kind `undefined`, whatever it holds under other keys. */
  lemma KindFromKeyOnly(attrs: seq<(string, JsVal)>)
    ensures FieldOf(Obj([("$", Obj(attrs))])) == Ok(FieldSummary(Lookup(attrs, "id"), Lookup(attrs, "xsi_type")))
    ensures MenuOf(Obj([("$", Obj(attrs))])) == Ok(MenuSummary(Lookup(attrs, "id"), Lookup(attrs, "xsi_type")))
    ensures (forall j :: 0 <= j < |attrs| ==> attrs[j].0 != "xsi_type") ==>
              FieldOf(Obj([("$", Obj(attrs))])).value.kind == Undefined
              && MenuOf(Obj([("$", Obj(attrs))])).value.kind == Undefined
  {
    var node := Obj([("$", Obj(attrs))]);
    assert Get(node, "$") == Ok(Obj(attrs));
    assert Attribute(node, "id") == Ok(Lookup(attrs, "id"));
    assert Attribute(node, "xsi_type") == Ok(Lookup(attrs, "xsi_type"));
    if forall j :: 0 <= j < |attrs| ==> attrs[j].0 != "xsi_type" {
      LookupAbsent(attrs, "xsi_type");
    }
  }

  /** A `profiles` node whose `profile` is missing or not an array adds no
      profile. */
  lemma NonArrayProfileSkipped(profileGroup: JsVal)
    requires Get(profileGroup, "profile").Ok? && !Get(profileGroup, "profile").value.Arr?
    ensures ProfileGroupOf(profileGroup) == Ok([])
  {
  }

  /** A profile's rights are those of its groups, concatenated in order. */
  lemma RightsFlattened(profile: JsVal, groups: seq<JsVal>)
    requires ChildList(profile, "groups", "group") == Ok(Some(Arr(groups)))
    requires ProfileOf(profile).Ok?
    ensures forall i :: 0 <= i < |groups| ==> GroupRights(groups[i]).Ok?
    ensures ProfileOf(profile).value.rights
              == Concat(seq(|groups|, i requires 0 <= i < |groups| && GroupRights(groups[i]).Ok? => GroupRights(groups[i]).value))
  {
    var parts := MapItems(groups, GroupRights).value;
    assert parts == seq(|groups|, i requires 0 <= i < |groups| && GroupRights(groups[i]).Ok? => GroupRights(groups[i]).value);
  }

  /** An action is allowed exactly when its text is `allow`. */
  lemma AllowedIffAllow(action: JsVal)
    requires RightOf(action).Ok?
    ensures RightOf(action).value.allowed <==> Get(action, "_") == Ok(Str("allow"))
    ensures RightOf(action).value.action == Attribute(action, "id").value
  {
  }

  /** An action written as bare text (no attributes) has no `$` and its walk
      throws. */
  lemma BareActionThrows(text: string)
    ensures RightOf(Str(text)).Throw?
  {
  }

  /** Every module design is summarised with the same fixed description. */
  lemma DesignsDescribed(design: JsVal)
    requires DesignsSection(design).Ok?
    ensures forall i :: 0 <= i < |DesignsSection(design).value| ==>
              DesignsSection(design).value[i].description == DesignDescription
  {
    var list := ChildList(design, "module_designs", "module_design").value;
    if list.Some? && list.value.Arr? {
      var items := list.value.items;
      forall i | 0 <= i < |items| ensures DesignOf(items[i]).Ok? ==> DesignOf(items[i]).value.description == DesignDescription {
      }
    }
  }

  /** A parameters node yields one entry per key, with the key as id and the
      key's value. */
  lemma ParametersPerKey(props: seq<(string, JsVal)>)
    ensures ParametersOf(Obj(props)).Ok?
    ensures |ParametersOf(Obj(props)).value| == |props|
    ensures forall i :: 0 <= i < |props| ==>
              ParametersOf(Obj(props)).value[i] == ParameterSummary(props[i].0, props[i].1)
  {
  }

  // ---------------------------------------------------------------------------
  // The whole analysis and its errors

  /** What the form carries under `file`: nothing, data the archive reader
      rejects with a message, or a readable archive. */
  datatype Upload = NoFile | Unreadable(message: string) | Archive(entries: seq<Entry>)

  datatype ParseOutcome = Parsed(value: JsVal) | ParseError(message: string)

  const NoFileMessage: string := "No file provided"
  const NoDatamodelMessage: string := "No datamodel XML file found in the ZIP"
  const ErrorPrefix: string := "Error analyzing extension: "

  /** The body of the analysis up to the first thrown error. */
  method AnalyzeUpload(upload: Upload, parse: string -> ParseOutcome) returns (r: Result<ExtensionData>)
    ensures upload.NoFile? ==> r == Throw(NoFileMessage)
    ensures upload.Unreadable? ==> r == Throw(upload.message)
    ensures upload.Archive? && SelectedDatamodel(upload.entries) == "" ==> r == Throw(NoDatamodelMessage)
    ensures upload.Archive? && SelectedDatamodel(upload.entries) != "" ==>
              r == match parse(SelectedDatamodel(upload.entries))
                   case ParseError(m) => Throw(m)
                   case Parsed(v) => Analysis(v, NameFrom(SelectedModule(upload.entries)),
                                              VersionFrom(SelectedModule(upload.entries)))
  {
    match upload {
      case NoFile =>
        return Throw(NoFileMessage);
      case Unreadable(m) =>
        return Throw(m);
      case Archive(entries) =>
        var datamodelXml, extensionName, extensionVersion := ScanEntries(entries);
        if datamodelXml == "" {
          return Throw(NoDatamodelMessage);
        }
        match parse(datamodelXml) {
          case ParseError(m) =>
            r := Throw(m);
          case Parsed(parsedXml) =>
            r := AnalyzeXml(parsedXml, extensionName, extensionVersion);
        }
    }
  }

  /** An outcome with its error, if any, re-thrown under the common prefix. */
  function Rethrown(a: Result<ExtensionData>): (r: Result<ExtensionData>)
    ensures a.Ok? ==> r == a
    ensures a.Throw? ==> r == Throw(ErrorPrefix + a.message)
  {
    match a
    case Ok(_) => a
    case Throw(m) => Throw(ErrorPrefix + m)
  }

  /** The analysis with every error re-thrown under the common prefix. */
  method AnalyzeExtension(upload: Upload, parse: string -> ParseOutcome) returns (r: Result<ExtensionData>)
    ensures r.Throw? ==> StartsWith(r.message, ErrorPrefix)
    ensures upload.NoFile? ==> r == Throw(ErrorPrefix + NoFileMessage)
    ensures upload.Unreadable? ==> r == Throw(ErrorPrefix + upload.message)
    ensures upload.Archive? && SelectedDatamodel(upload.entries) == "" ==> r == Throw(ErrorPrefix + NoDatamodelMessage)
    ensures upload.Archive? && SelectedDatamodel(upload.entries) != "" ==>
              r == match parse(SelectedDatamodel(upload.entries))
                   case ParseError(m) => Throw(ErrorPrefix + m)
                   case Parsed(v) => Rethrown(Analysis(v, NameFrom(SelectedModule(upload.entries)),
                                                       VersionFrom(SelectedModule(upload.entries))))
    ensures r.Ok? ==> upload.Archive? && SelectedDatamodel(upload.entries) != ""
    ensures r.Ok? ==> r.value.name == NameFrom(SelectedModule(upload.entries))
                      && r.value.version == VersionFrom(SelectedModule(upload.entries))
  {
    var inner := AnalyzeUpload(upload, parse);
    if inner.Ok? {
      AnalysisKeepsIdentity(parse(SelectedDatamodel(upload.entries)).value,
                    NameFrom(SelectedModule(upload.entries)), VersionFrom(SelectedModule(upload.entries)));
    }
    r := Rethrown(inner);
  }
}
