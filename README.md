# iTop extension tooling, modelled in Dafny

This project models the iTop tooling of a developer-tools web application. It covers four components.

- **The class serializer** (`generateXml`). It turns a typed description of an iTop class into an `itop_design` (version 3.0) datamodel document. The description holds:
  - class properties and fields;
  - a lifecycle, methods, indexes and relations;
  - a menu entry, user-rights profiles and branding.

  The serializer appends to one string, section by section. In the model it is an imperative method with one loop per list. The method is proved to produce exactly the indented rendering of an element tree (`ClassCreator.DesignText`). Which sections appear and how many elements each holds are proved about that tree.
- **The extension analyzer** (`analyzeExtension`, `extractExtensionName`, `extractExtensionVersion`, `analyzeXml`). It takes an uploaded extension archive and does three things:
  - it picks the datamodel document and the module descriptor among the archive's entries;
  - it reads the label and the version out of the descriptor with two regular expressions, each with a fixed fallback;
  - it folds the parsed datamodel into a flat summary of classes, menus, user rights, module parameters and module designs.

  The parsed document is a JavaScript value as an XML-to-object parser produces it (module `JsValue`). The model makes the analyzer's JavaScript semantics explicit:
  - property access on `undefined` throws;
  - `map` and `flatMap` exist only on arrays;
  - `Object.entries` also works on strings.
- **The extension-creation form check** (`validateInputs`). It checks the company name, then the extension name, then the version. The first failure decides the message.
- **The extension packager** (`addFilesToZip`, `createExtension`). It copies every regular file of a template tree into a zip archive.
  - A file's text gets four placeholder replacements, in order.
  - A file's path gets two.
  - The archive is a class whose `File` method replaces an entry of the same name in place, or appends a new one.
  - The result names the archive's URL or carries the error message.

Modules, leaf first:

- `Text` (`text.dfy`): global replacement of a literal pattern (with the `$` forms of a replacement string), one-character split and join, JavaScript `trim`, decimal rendering of integers.
- `Xml` (`xml.dfy`): the element tree and its rendering.
- `DesignLines` (`design_lines.dfy`): the fixed tag lines of the document.
- `ClassCreator` (`class_creator.dfy`): the serializer.
- `JsValue` (`js_value.dfy`): the parsed-value model.
- `ExtensionDescriptor` (`extension_descriptor.dfy`): the analyzer.
- `ExtensionValidator` (`extension_validator.dfy`): the form check.
- `ExtensionPackager` (`extension_packager.dfy`): the packager.

Four behaviours of the code are easy to miss, and the model keeps them as written.

- When several entries match the datamodel rule, the **last** one in entry order is analysed. Each match overwrites the previously selected text.
- A `profiles` node whose `profile` child is a single object rather than a list contributes **no** profile. It is not normalised into a one-element list.
- Field and menu kinds are read from the attribute key `xsi_type`. An attribute the parser keeps under its qualified name `xsi:type` is not seen, so the kind is `undefined` (`ExtensionDescriptor.KindKey`).
- The packager's form values are passed to `replace` as replacement strings, so `$$`, `$&`, `` $` `` and `$'` in them are expanded rather than written as typed (`Text.Substitution`, `ExtensionPackager.LabelIsTemplate`).

## Model

| member | source | states |
|---|---|---|
| ClassCreator.GenerateXml | app/tools/itop-class-creator/actions.ts:76-259 | the text built by appending section after section is exactly the declaration, the `itop_design` root and the rendering of the design tree for the eleven arguments |
| ClassCreator.AppendProperties | app/tools/itop-class-creator/actions.ts:96-104 | the properties loop appends the rendering of the `properties` element: one line per key whose value is not '' |
| ClassCreator.AppendFields | app/tools/itop-class-creator/actions.ts:106-126 | the fields loop appends one `field` element per input field, in order, inside `fields` |
| ClassCreator.AppendField | app/tools/itop-class-creator/actions.ts:107-123 | one field appends its `sql`, `default_value` and `is_null_allowed` lines, then the values list or the target class that its kind selects |
| ClassCreator.AppendValues | app/tools/itop-class-creator/actions.ts:113-118 | the enumeration loop appends one `value` per comma-separated piece, with the piece's index as id and the trimmed piece as text |
| ClassCreator.AppendLifecycle | app/tools/itop-class-creator/actions.ts:128-163 | appends the `lifecycle` element when the attribute is set, and nothing otherwise |
| ClassCreator.AppendStates | app/tools/itop-class-creator/actions.ts:134-143 | appends one `state` element per state, in order |
| ClassCreator.AppendState | app/tools/itop-class-creator/actions.ts:135-142 | a state appends its flags, then its highlight |
| ClassCreator.AppendFlags | app/tools/itop-class-creator/actions.ts:137-139 | appends one `<flag>value</flag>` line per flag entry, in order |
| ClassCreator.AppendTransitions | app/tools/itop-class-creator/actions.ts:148-159 | appends one `transition` element per transition, in order |
| ClassCreator.AppendTransition | app/tools/itop-class-creator/actions.ts:149-158 | a transition appends its target and its actions |
| ClassCreator.AppendActions | app/tools/itop-class-creator/actions.ts:152-156 | appends one `action` with a `verb` per action, in order |
| ClassCreator.AppendMethods | app/tools/itop-class-creator/actions.ts:165-177 | appends the `methods` element exactly when there is a method |
| ClassCreator.AppendMethodList | app/tools/itop-class-creator/actions.ts:168-175 | appends one `method` element per method, in order |
| ClassCreator.AppendMethod | app/tools/itop-class-creator/actions.ts:169-174 | a method is written non-static and public, with its type and its code in a CDATA section |
| ClassCreator.AppendIndexes | app/tools/itop-class-creator/actions.ts:179-192 | appends the `indexes` element exactly when there is an index |
| ClassCreator.AppendIndexList | app/tools/itop-class-creator/actions.ts:182-190 | appends one `index` element per index, in order |
| ClassCreator.AppendIndex | app/tools/itop-class-creator/actions.ts:183-189 | an index appends its `attributes` list |
| ClassCreator.AppendIndexAttributes | app/tools/itop-class-creator/actions.ts:185-187 | appends one empty `attribute` element per field name, in order |
| ClassCreator.AppendRelations | app/tools/itop-class-creator/actions.ts:194-208 | appends the `relations` element exactly when there is a relation |
| ClassCreator.AppendRelationList | app/tools/itop-class-creator/actions.ts:197-206 | appends one `relation` element per relation, in order |
| ClassCreator.AppendRelation | app/tools/itop-class-creator/actions.ts:198-205 | a relation appends one neighbour with its down and up queries |
| ClassCreator.AppendMenu | app/tools/itop-class-creator/actions.ts:213-224 | appends the `menus` element exactly when a menu type is set |
| ClassCreator.AppendUserRights | app/tools/itop-class-creator/actions.ts:226-245 | appends the `user_rights` element exactly when there is a profile |
| ClassCreator.AppendProfileList | app/tools/itop-class-creator/actions.ts:230-242 | appends one `profile` element per profile, in order |
| ClassCreator.AppendProfile | app/tools/itop-class-creator/actions.ts:231-241 | a profile appends one group, keyed by the class name, holding its rights |
| ClassCreator.AppendRights | app/tools/itop-class-creator/actions.ts:235-237 | appends one `action` line per right, in order |
| ClassCreator.AppendBranding | app/tools/itop-class-creator/actions.ts:247-254 | appends the `branding` element exactly when one of its values is set |
| ClassCreator.DesignFrame | app/tools/itop-class-creator/actions.ts:89-90 | the document always starts with the XML declaration and the `itop_design` root at version 3.0, and always ends with `</itop_design>` |
| ClassCreator.DesignSections | app/tools/itop-class-creator/actions.ts:210-254 | the root holds `classes`, then `menus`, `user_rights` and `branding`, each exactly when its guard holds |
| ClassCreator.ClassSections | app/tools/itop-class-creator/actions.ts:92-208 | the class holds `parent`, `properties` and `fields`, then `lifecycle`, `methods`, `indexes` and `relations`, each exactly when its guard holds |
| ClassCreator.PropertyNodesAppend | app/tools/itop-class-creator/actions.ts:97-101 | the property filter distributes over concatenated entry lists |
| ClassCreator.PropertyNodesOne | app/tools/itop-class-creator/actions.ts:98-99 | one entry is written as `<key>value</key>` exactly when its value is not '', and a boolean is always written |
| ClassCreator.PropertyWritten | app/tools/itop-class-creator/actions.ts:97-101 | every entry whose value is not '' is written |
| ClassCreator.PropertyNodesFromEntries | app/tools/itop-class-creator/actions.ts:97-101 | every written property line comes from an entry whose value is not '' |
| ClassCreator.BooleanPropertiesWritten | app/tools/itop-class-creator/actions.ts:97-101 | `abstract` and `isLink` are always written, including when false |
| ClassCreator.FieldsWritten | app/tools/itop-class-creator/actions.ts:107-111 | one `field` per input field, in order, keyed by name and kind, with `sql` equal to the name and `is_null_allowed` as true or false |
| ClassCreator.EnumValuesWritten | app/tools/itop-class-creator/actions.ts:113-118 | an enumeration gets one `value` per comma-separated piece (commas plus one), with ids 0..n-1 all distinct and trimmed texts; empty pieces are kept, and the pieces rejoin to the values string |
| ClassCreator.FieldExtraByKind | app/tools/itop-class-creator/actions.ts:113-121 | a `values` list appears exactly for an enumeration with values; a `target_class` appears exactly for an external key with a target; any other kind gets neither |
| ClassCreator.LifecycleWritten | app/tools/itop-class-creator/actions.ts:129-163 | the lifecycle appears exactly when its attribute is set; the highlight scale never changes the document; there is one flag per flag and one action per action, in order |
| ClassCreator.MethodsAndIndexesWritten | app/tools/itop-class-creator/actions.ts:166-192 | methods and indexes appear exactly when non-empty; every method is non-static and public with its code in CDATA; every index has one attribute per field name |
| ClassCreator.CodeVerbatim | app/tools/itop-class-creator/actions.ts:173 | the code line carries the method's code unchanged between `<![CDATA[` and `]]>` |
| ClassCreator.MenuWritten | app/tools/itop-class-creator/actions.ts:214-224 | the menu appears exactly when a type is set, with id `<class>_menu`; it has `rank` and `parent`, and `oql` only for `OQLMenuNode` |
| ClassCreator.UserRightsWritten | app/tools/itop-class-creator/actions.ts:227-245 | user rights appear exactly when there are profiles; the group is keyed by the class; each right is `<action id="action:NAME">VALUE</action>` |
| ClassCreator.BrandingWritten | app/tools/itop-class-creator/actions.ts:248-254 | branding appears exactly when one of its three values is set, and then with all three elements |
| Text.SplitJoin | app/tools/itop-class-creator/actions.ts:115 | `split(',')` yields commas-plus-one pieces, none containing a comma, that rejoin to the input |
| Text.TrimSpec | app/tools/itop-class-creator/actions.ts:116 | `trim()` returns the slice left once the leading and trailing white space is removed, and it neither starts nor ends with white space |
| Text.NatToStringInjective | app/tools/itop-class-creator/actions.ts:116 | different indexes are rendered as different ids |
| Text.NatToStringRoundTrip | app/tools/itop-class-creator/actions.ts:116 | the decimal text of an index reads back as that index |
| ExtensionDescriptor.AnalyzeExtension | app/tools/itop-extension-descriptor/actions.ts:19-53 | every error comes back under the prefix "Error analyzing extension: ": a missing file, unreadable data, a missing datamodel, the parser's error and an error of the walk each give the prefix followed by their own message; otherwise the result is the analysis of the parsed datamodel with the name and version of the selected descriptor |
| ExtensionDescriptor.AnalyzeUpload | app/tools/itop-extension-descriptor/actions.ts:21-48 | gives "No file provided" without a file, the reader's error for unreadable data, "No datamodel XML file found in the ZIP" when the selected document is empty, the parser's error, or the analysis of the parsed document |
| ExtensionDescriptor.ScanEntries | app/tools/itop-extension-descriptor/actions.ts:29-41 | the entry loop leaves the last datamodel entry's text and the name and version read from the last descriptor entry |
| ExtensionDescriptor.LastDatamodelWins | app/tools/itop-extension-descriptor/actions.ts:33-35 | when several entries match the datamodel rule, the last one is selected |
| ExtensionDescriptor.NoDatamodelEntry | app/tools/itop-extension-descriptor/actions.ts:33-45 | without a datamodel entry the selected text is empty, which the analysis refuses |
| ExtensionDescriptor.DatamodelIsNotModule | app/tools/itop-extension-descriptor/actions.ts:34-36 | no entry name matches both the datamodel rule and the descriptor rule |
| ExtensionDescriptor.ModuleFound | app/tools/itop-extension-descriptor/actions.ts:36 | a descriptor is selected exactly when some entry name ends with `module.itop-your-extension-name.php` |
| ExtensionDescriptor.ModuleFields | app/tools/itop-extension-descriptor/actions.ts:29-41 | name and version stay '' without a descriptor entry; the fallbacks appear only when such an entry exists |
| ExtensionDescriptor.SkipSpace | app/tools/itop-extension-descriptor/actions.ts:56 | `\s*` takes the whole run of white space |
| ExtensionDescriptor.QuoteEnd | app/tools/itop-extension-descriptor/actions.ts:56 | the lazy `(.*?)'` ends at the first quote not preceded by a line terminator, or fails |
| ExtensionDescriptor.PatternAt | app/tools/itop-extension-descriptor/actions.ts:56-61 | a capture holds neither a quote nor a line terminator |
| ExtensionDescriptor.FirstHit | app/tools/itop-extension-descriptor/actions.ts:56-61 | the lazy `[\s\S]*?` stops at the first position from the start where the rest of the pattern matches, or reports that it matches nowhere |
| ExtensionDescriptor.ModuleMatch | app/tools/itop-extension-descriptor/actions.ts:56-61 | a capture exists only when the text holds the `SetupWebPage::AddModule(` call, and it is a single quote-free line |
| ExtensionDescriptor.ModuleMatchFirst | app/tools/itop-extension-descriptor/actions.ts:56-61 | leftmost, then lazy: the match starts at the first occurrence of the call and captures at the first place after it where the rest of the pattern matches |
| ExtensionDescriptor.ModuleMatchNone | app/tools/itop-extension-descriptor/actions.ts:56-61 | there is no capture exactly when no occurrence of the call is followed by a place where the rest of the pattern matches |
| ExtensionDescriptor.QuoteEndAt | app/tools/itop-extension-descriptor/actions.ts:56-61 | the lazy capture ends at the first quote when no line terminator comes before it |
| ExtensionDescriptor.PatternAtWritten | app/tools/itop-extension-descriptor/actions.ts:56-61 | `KEY => OPEN` followed by a quote-free line and a quote matches at the key and captures that line |
| ExtensionDescriptor.ModuleMatchWritten | app/tools/itop-extension-descriptor/actions.ts:56-61 | a descriptor opening with the call followed by `KEY => OPEN`, a quote-free line and a quote captures that line |
| ExtensionDescriptor.NameRoundTrip | app/tools/itop-extension-descriptor/actions.ts:55-58 | a label written as `'label' => Dict::S('…')` right after the call is read back unchanged |
| ExtensionDescriptor.VersionRoundTrip | app/tools/itop-extension-descriptor/actions.ts:60-63 | a version written as `'version' => '…'` right after the call is read back unchanged |
| ExtensionDescriptor.ExtractExtensionName | app/tools/itop-extension-descriptor/actions.ts:55-58 | a match gives its capture, and no match gives "Unknown Extension" |
| ExtensionDescriptor.ExtractExtensionVersion | app/tools/itop-extension-descriptor/actions.ts:60-63 | a match gives its capture, and no match gives "Unknown Version" |
| ExtensionDescriptor.NoModuleCall | app/tools/itop-extension-descriptor/actions.ts:55-63 | a descriptor without the call yields both fallbacks |
| ExtensionDescriptor.AnalyzeXml | app/tools/itop-extension-descriptor/actions.ts:65-142 | starting from empty sections and filling them one by one gives the analysis of the parsed document, or the first error its walk throws |
| ExtensionDescriptor.AnalysisKeepsIdentity | app/tools/itop-extension-descriptor/actions.ts:65-142 | the summary carries the name and version it was given |
| ExtensionDescriptor.NoDesignNoSections | app/tools/itop-extension-descriptor/actions.ts:66-76 | without an `itop_design` root every section is empty |
| ExtensionDescriptor.AbsentSectionsEmpty | app/tools/itop-extension-descriptor/actions.ts:80-137 | a design whose `classes`, `menus`, `user_rights`, `module_parameters` or `module_designs` key is missing or falsy gets an empty list for that section |
| ExtensionDescriptor.NothingParsedThrows | app/tools/itop-extension-descriptor/actions.ts:76 | an `undefined` or `null` parse result throws on the first property read |
| ExtensionDescriptor.ClassesPerNode | app/tools/itop-extension-descriptor/actions.ts:80-90 | one class summary per class node, in order, with the node's id and its field summaries |
| ExtensionDescriptor.ClassWithoutFields | app/tools/itop-extension-descriptor/actions.ts:83-88 | a class without `fields/field` children gets no fields |
| ExtensionDescriptor.KindFromKeyOnly | app/tools/itop-extension-descriptor/actions.ts:85-96 | for every attribute list, a field's or menu's kind is the value under the exact key `xsi_type`, and `undefined` when no attribute has that key |
| ExtensionDescriptor.KindKey | app/tools/itop-extension-descriptor/actions.ts:85-96 | kinds are read from the key `xsi_type` exactly as written; a `xsi:type` key leaves the kind `undefined` |
| ExtensionDescriptor.NonArrayProfileSkipped | app/tools/itop-extension-descriptor/actions.ts:102-119 | a `profiles` node whose `profile` is missing or not a list contributes nothing |
| ExtensionDescriptor.RightsFlattened | app/tools/itop-extension-descriptor/actions.ts:106-115 | a profile's rights are the rights of its groups, concatenated in order |
| ExtensionDescriptor.AllowedIffAllow | app/tools/itop-extension-descriptor/actions.ts:109-112 | an action is allowed exactly when its text is `allow`, and it carries its id |
| ExtensionDescriptor.BareActionThrows | app/tools/itop-extension-descriptor/actions.ts:110 | an action without attributes makes the walk throw |
| ExtensionDescriptor.DesignsDescribed | app/tools/itop-extension-descriptor/actions.ts:133-137 | every module design has the description "Module design details" |
| ExtensionDescriptor.ParametersPerKey | app/tools/itop-extension-descriptor/actions.ts:124-128 | a parameters node gives one entry per key, with the key as id and the key's value |
| JsValue.Get | app/tools/itop-extension-descriptor/actions.ts:76-137 | a property read throws exactly on `undefined` and `null` |
| JsValue.ChildList | app/tools/itop-extension-descriptor/actions.ts:80-133 | the guard `v.outer && v.outer[0] && v.outer[0].inner` hands on `v.outer[0].inner` exactly when all three links are truthy and nothing otherwise; it throws only when reading `outer` does, so never on a truthy value |
| JsValue.MapItems | app/tools/itop-extension-descriptor/actions.ts:81-89 | `map` succeeds exactly when every callback does, with results element by element; a failure is one callback's error |
| JsValue.Mapped | app/tools/itop-extension-descriptor/actions.ts:81-98 | a missing list maps to nothing; a list that is not an array throws "<callee> is not a function", the callee being the `….map` expression of the call, such as `design.classes[0].class.map` |
| JsValue.FlatMapped | app/tools/itop-extension-descriptor/actions.ts:102-119 | a missing list gives nothing; a list that is not an array throws "<callee> is not a function", the callee being the `….flatMap` expression of the call, such as `design.user_rights[0].profiles.flatMap` |
| JsValue.ConcatAppend | app/tools/itop-extension-descriptor/actions.ts:106-115 | flattening distributes over concatenation |
| JsValue.Entries | app/tools/itop-extension-descriptor/actions.ts:125 | `Object.entries` throws on `undefined` and `null`, lists an object's properties, and lists a string's characters or an array's elements by index |
| JsValue.LookupFirst | app/tools/itop-extension-descriptor/actions.ts:82-86 | a property read finds the first property with that key |
| JsValue.LookupAbsent | app/tools/itop-extension-descriptor/actions.ts:85-96 | a key no property carries reads as `undefined` |
| ExtensionValidator.ValidateInputs | app/tools/itop-extension-creator/page.tsx:16-31 | valid exactly when the three checks pass, and then the error is cleared; otherwise the error is the message of the first failing check, in the order company, extension, version |
| ExtensionValidator.LabelNeverChecked | app/tools/itop-extension-creator/page.tsx:16-31 | the label never changes the outcome |
| ExtensionValidator.ReservedPrefixRefused | app/tools/itop-extension-creator/page.tsx:21-24 | a name starting with `itop-` or `combodo-` is refused even when its characters are allowed |
| ExtensionValidator.VersionCheckedLast | app/tools/itop-extension-creator/page.tsx:25-30 | once both names pass, the outcome is decided by the version alone |
| ExtensionValidator.VersionGroups | app/tools/itop-extension-creator/page.tsx:25 | the version pattern accepts exactly the texts that split at dots into three non-empty groups of digits |
| ExtensionValidator.VersionSplits | app/tools/itop-extension-creator/page.tsx:25 | an accepted version splits into three digit groups |
| ExtensionValidator.GroupsAreVersion | app/tools/itop-extension-creator/page.tsx:25 | three digit groups joined by dots are accepted |
| ExtensionValidator.SplitAtFirst | app/tools/itop-extension-creator/page.tsx:25 | splitting at the first separator peels off the leading group |
| ExtensionPackager.AddFilesToZip | app/tools/itop-extension-creator/actions.ts:7-32 | the walk stores every regular file below the directory, in walk order, with its text and path rewritten; directories are recursed into |
| ExtensionPackager.AddFile | app/tools/itop-extension-creator/actions.ts:17-29 | one file is stored under its rewritten path with its rewritten text, each step replacing every occurrence with the value expanded as a replacement string |
| ExtensionPackager.ZipArchive.File | app/tools/itop-extension-creator/actions.ts:29 | adding a file replaces the entry of that name in place, or appends it |
| ExtensionPackager.ZipArchive.constructor | app/tools/itop-extension-creator/actions.ts:37 | a new archive is empty |
| ExtensionPackager.Stored | app/tools/itop-extension-creator/actions.ts:29 | the stored file is present, a new name is appended at the end, an existing name keeps the size, and other entries are kept |
| ExtensionPackager.StoreAllDistinct | app/tools/itop-extension-creator/actions.ts:10-30 | files with distinct new paths become one entry each, in order |
| ExtensionPackager.StoreAllAppend | app/tools/itop-extension-creator/actions.ts:10-30 | storing two batches one after the other is storing their concatenation |
| ExtensionPackager.TemplateFilesCount | app/tools/itop-extension-creator/actions.ts:10-16 | the walk lists every regular file of the tree exactly once |
| ExtensionPackager.RewriteFiles | app/tools/itop-extension-creator/actions.ts:17-29 | each file is rewritten on its own, in order |
| ExtensionPackager.OneEntryPerFile | app/tools/itop-extension-creator/actions.ts:10-30 | with distinct rewritten paths, the archive holds exactly one entry per regular template file, in walk order, with its rewritten text |
| ExtensionPackager.ContentWithoutPlaceholders | app/tools/itop-extension-creator/actions.ts:20-23 | a text holding none of the placeholders is copied unchanged |
| ExtensionPackager.PathWithoutPlaceholders | app/tools/itop-extension-creator/actions.ts:26-27 | a path holding neither path placeholder is kept |
| ExtensionPackager.PathIgnoresLabelAndVersion | app/tools/itop-extension-creator/actions.ts:26-27 | paths depend on neither the label nor the version |
| ExtensionPackager.VersionInContentNotInPath | app/tools/itop-extension-creator/actions.ts:23-27 | `1.0.0` is replaced in a file's text but kept in its path; the text gets the version expanded as a replacement string, so a version without `$` is written as given and a version `$&` writes `1.0.0` back |
| ExtensionPackager.LabelIsTemplate | app/tools/itop-extension-creator/actions.ts:20-23 | `extensionlabel` becomes the label expanded as a replacement string, then goes through the version step; a label `$$` writes a single `$` |
| ExtensionPackager.DotsAreLiteral | app/tools/itop-extension-creator/actions.ts:23 | the dots of `1.0.0` match only dots: the version step leaves any text without a dot unchanged |
| ExtensionPackager.CaseSensitive | app/tools/itop-extension-creator/actions.ts:20-27 | matching is case-sensitive: a text without a lower-case letter, such as an upper-cased placeholder, goes through the company, name and label steps and the path rewriting unchanged |
| ExtensionPackager.StepsCompose | app/tools/itop-extension-creator/actions.ts:20-23 | each step works on the previous step's output: whatever the other settings, a company name spelling `extensionname` makes `companyname` end up exactly as `extensionname` does |
| ExtensionPackager.TooShort | app/tools/itop-extension-creator/actions.ts:20-27 | a pattern longer than the text leaves it unchanged |
| ExtensionPackager.FirstCharMissing | app/tools/itop-extension-creator/actions.ts:20-27 | a pattern whose first character is absent leaves the text unchanged |
| Text.Substitution | app/tools/itop-extension-creator/actions.ts:20-27 | a replacement string without `$` is inserted as it is |
| Text.SubstitutionForms | app/tools/itop-extension-creator/actions.ts:20-27 | in a replacement string `$$` stands for `$`, `$&` for the match, `` $` `` for the text before it and `$'` for the text after it |
| Text.ReplaceAllAbsent | app/tools/itop-extension-creator/actions.ts:20-27 | a replacement whose pattern does not occur leaves the text unchanged |
| Text.ContainsChar | app/tools/itop-extension-creator/actions.ts:20-27 | every character of a pattern that occurs is in the text |
| Text.ReplaceAllSelf | app/tools/itop-extension-creator/actions.ts:20-27 | replacing a pattern free of `$` by itself is the identity |
| Text.ReplaceAllFirst | app/tools/itop-extension-creator/actions.ts:20-27 | the text before the first occurrence is copied, that occurrence is substituted, and the scan resumes after it |
| Text.ReplaceAllWhole | app/tools/itop-extension-creator/actions.ts:20-27 | a text that is exactly the pattern becomes the expanded replacement |
| Text.ReplaceScanLiteral | app/tools/itop-extension-creator/actions.ts:20-27 | with a replacement free of `$`, the rest of the scan does not depend on the text already passed |
| Text.ReplaceAllFirstLiteral | app/tools/itop-extension-creator/actions.ts:20-27 | for `a + pat + b` with no occurrence before the one after `a`, and a replacement free of `$`, the result is `a`, the replacement, then the replacement applied to `b` |
| ExtensionPackager.FileUrl | app/tools/itop-extension-creator/actions.ts:45-55 | the URL is `/temp/`, then the extension name, `-` and the id, then `.zip` |
| ExtensionPackager.CreationError | app/tools/itop-extension-creator/actions.ts:58 | the error message starts with "An error occurred while creating the extension: " and is followed by the thrown message unchanged |
| ExtensionPackager.CreateExtension | app/tools/itop-extension-creator/actions.ts:34-60 | the archive holds the template's files, rewritten; without a failure the result is `/temp/<name>-<id>.zip`, and with one it is the prefixed error |

## Left out

- File and archive I/O are not modelled:
  - reading the upload and opening it as a zip (AdmZip) and decoding entries as text;
  - reading the template directory and its files;
  - generating and writing the zip, and creating the `public/temp` directory.

  An upload is given as its entries, or as the reader's error message (`Upload`). The template is given as a tree (`TemplateEntry`). A failure of any packager I/O step is given as the message it throws (`CreateExtension`'s `failure`).
- XML parsing is done by a library and is not modelled. It is a function parameter returning the parsed value or the parser's error.
- The random id of the archive's file name is a parameter.
- Logging to the console is not modelled.
- The directory scoping of the archive library is not modelled, because its behaviour lives in the library. A nested call adds files through a folder view of the archive while passing a path relative to the template root. The model stores each file under its rewritten path from the template root in one flat entry list. It has no separate directory entries.
- The order in which the directory listing returns entries is the order of the `TemplateEntry` sequence.
- ExtensionDescriptor.ParametersOf: a parameter's value is kept as the parsed value. It is not turned into its JSON text, because `JSON.stringify` is not modelled.
- JsValue.ReadError: the wording of the TypeError on `undefined`/`null` follows the V8 engine. Other engines word it differently.
- JsValue.Get: a string or an array reads any of the names the analyzer uses as `undefined`. Their built-in members (`length`, methods) are never read by the analyzer and are not modelled.
- JsValue.Entries: a string is a sequence of Unicode characters here, while JavaScript strings are sequences of UTF-16 code units. A character outside the Basic Multilingual Plane is one element here and two in JavaScript, so `Object.entries` on such a text lists one entry here and two lone surrogates there. `JsValue.First` (`x[0]`) differs in the same way.
- ExtensionDescriptor.AnalyzeExtension: a thrown value that is not an `Error` (the 'Unknown error' branch) cannot arise in the model, because every failure carries a message.
- The class serializer's JavaScript object key order is the declaration order of `ClassProperties`. Flags and rights are given as ordered key/value lists.
- ClassCreator.GenerateXml: the menu `rank` is an integer written in decimal. The page reads it with `parseInt`, so an emptied field gives `NaN`, written `<rank>NaN</rank>`; numbers from 1e21 up are written in exponent form. Neither is modelled.
- JsValue.Mapped: the message of a call on a non-array follows the V8 engine, which names the callee expression as written. The model assumes the server code keeps the expressions of the source; a minifier that renames `design` or `cls` would change the message.
- JsValue.FlatMapped: the same assumption on the message as for `JsValue.Mapped`.
- ClassCreator.GenerateXml: values are inserted without escaping, as in the code. The document is therefore well-formed only when no value holds markup characters. The properties are stated about the element tree, not about a parse of the text.
- ClassCreator.GenerateXml: each multi-line template literal is appended one line at a time. The resulting text is the same.
- The user-interface pages around these functions are not modelled. This includes the React state that `validateInputs` writes; the model returns the message instead.
